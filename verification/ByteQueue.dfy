/** The simple thing that asio's stream and dynamic buffers are: a bounded FIFO of bytes. */
module ByteQueue {
  import opened Bytes

  const SIZE_MAX: nat := 0xFFFF_FFFF_FFFF_FFFF
  const INT_MAX: nat := 0x7FFF_FFFF

  /** `Produce(data, k)` is `prepare(|data|)`, writing `data` into the buffers it returns, and
      `commit(k)`; the documented use commits no more than was prepared. */
  datatype Op = Produce(data: seq<byte>, k: nat) | Consume(n: nat)

  predicate Legal(op: Op) {
    op.Produce? ==> op.k <= |op.data|
  }

  /** Preparing throws exactly when the queue and the prepared space exceed the maximum. */
  predicate Throws(q: seq<byte>, max: nat, op: Op) {
    op.Produce? && |q| + |op.data| > max
  }

  function After(q: seq<byte>, op: Op): seq<byte>
    requires Legal(op)
  {
    match op
    case Produce(data, k) => q + data[..k]
    case Consume(n) => q[Min(n, |q|)..]
  }

  predicate AllLegal(ops: seq<Op>) {
    forall op :: op in ops ==> Legal(op)
  }

  /** How many operations of a run complete: it ends at the first one that throws. */
  function Completed(q: seq<byte>, max: nat, ops: seq<Op>): (n: nat)
    requires AllLegal(ops)
    ensures n <= |ops|
    decreases |ops|
  {
    if ops == [] || Throws(q, max, ops[0]) then 0 else 1 + Completed(After(q, ops[0]), max, ops[1..])
  }

  /** The queue after the completed part of a run. */
  function Final(q: seq<byte>, max: nat, ops: seq<Op>): seq<byte>
    requires AllLegal(ops)
    decreases |ops|
  {
    if ops == [] || Throws(q, max, ops[0]) then q else Final(After(q, ops[0]), max, ops[1..])
  }

  /** The bytes that the completed part of a run commits, in order. */
  function Added(q: seq<byte>, max: nat, ops: seq<Op>): seq<byte>
    requires AllLegal(ops)
    decreases |ops|
  {
    if ops == [] || Throws(q, max, ops[0]) then [] else
    var rest := Added(After(q, ops[0]), max, ops[1..]);
    match ops[0]
    case Produce(data, k) => assert Legal(ops[0]); data[..k] + rest
    case Consume(_) => rest
  }

  /** The bytes that it consumes, in order. */
  function Removed(q: seq<byte>, max: nat, ops: seq<Op>): seq<byte>
    requires AllLegal(ops)
    decreases |ops|
  {
    if ops == [] || Throws(q, max, ops[0]) then [] else
    var rest := Removed(After(q, ops[0]), max, ops[1..]);
    match ops[0]
    case Produce(_, _) => rest
    case Consume(n) => q[..Min(n, |q|)] + rest
  }

  /** First in, first out: over any run, what came out followed by what is left is what was there
      followed by what went in; and the size bound is kept. */
  lemma {:induction false} FifoConserves(q: seq<byte>, max: nat, ops: seq<Op>)
    requires AllLegal(ops) && |q| <= max
    ensures Removed(q, max, ops) + Final(q, max, ops) == q + Added(q, max, ops)
    ensures |Final(q, max, ops)| <= max
    decreases |ops|
  {
    if ops != [] && !Throws(q, max, ops[0]) {
      var q' := After(q, ops[0]);
      FifoConserves(q', max, ops[1..]);
      match ops[0] {
        case Produce(data, k) =>
          Associative(q, data[..k], Added(q', max, ops[1..]));
        case Consume(n) =>
          var k := Min(n, |q|);
          assert q == q[..k] + q[k..];
          Associative(q[..k], Removed(q', max, ops[1..]), Final(q', max, ops[1..]));
          Associative(q[..k], q[k..], Added(q', max, ops[1..]));
      }
    }
  }

  lemma {:induction false} RunSnoc(q: seq<byte>, max: nat, ops: seq<Op>, i: nat)
    requires AllLegal(ops) && i < |ops| && Completed(q, max, ops[..i]) == i
    ensures Completed(q, max, ops[..i + 1]) == if Throws(Final(q, max, ops[..i]), max, ops[i]) then i else i + 1
    ensures Final(q, max, ops[..i + 1]) ==
            var f := Final(q, max, ops[..i]); if Throws(f, max, ops[i]) then f else After(f, ops[i])
    decreases i
  {
    if i > 0 {
      assert ops[..i][1..] == ops[1..][..i - 1] && ops[..i + 1][1..] == ops[1..][..i];
      RunSnoc(After(q, ops[0]), max, ops[1..], i - 1);
    } else {
      assert ops[..1][1..] == [];
    }
  }

  /** A run that stops at operation `i` gives the same as its first `i + 1` operations. */
  lemma {:induction false} RunStops(q: seq<byte>, max: nat, ops: seq<Op>, i: nat)
    requires AllLegal(ops) && i < |ops| && Completed(q, max, ops[..i]) == i
    requires Throws(Final(q, max, ops[..i]), max, ops[i])
    ensures Completed(q, max, ops) == i && Final(q, max, ops) == Final(q, max, ops[..i])
    decreases i
  {
    if i > 0 {
      assert ops[..i][1..] == ops[1..][..i - 1];
      RunStops(After(q, ops[0]), max, ops[1..], i - 1);
    }
  }

  /** A run that has stopped stays as it is. */
  lemma {:induction false} RunEnded(q: seq<byte>, max: nat, ops: seq<Op>, i: nat)
    requires AllLegal(ops) && i <= |ops| && Completed(q, max, ops[..i]) < i
    ensures Completed(q, max, ops) == Completed(q, max, ops[..i]) && Final(q, max, ops) == Final(q, max, ops[..i])
    decreases i
  {
    if !Throws(q, max, ops[0]) {
      assert ops[..i][1..] == ops[1..][..i - 1];
      RunEnded(After(q, ops[0]), max, ops[1..], i - 1);
    }
  }
}
