/**
 The queue that a `basic_streambuf` is: unread bytes, and behind them prepared space that is
 filled and then committed. Runs of its operations, in any order.
 */
module StreamQueue {
  import opened Bytes
  import B = ByteQueue

  /** `int_type`: a character or end-of-file. */
  datatype IntType = Eof | Char(c: byte)

  /** The unread bytes, and of the `room` prepared behind them the part that has been filled. */
  datatype Queue = Queue(input: seq<byte>, filled: seq<byte>, room: nat)

  /** `prepare`, writing into the buffers it returned, `commit`, `consume`, `sputc` and `sbumpc`. */
  datatype StreamOp =
    | OpPrepare(n: nat)
    | OpFill(data: seq<byte>)
    | OpCommit(k: nat)
    | OpConsume(m: nat)
    | OpPut(c: byte)
    | OpGet

  predicate Bounded(q: Queue, max: nat) {
    |q.filled| <= q.room && |q.input| + q.room <= max
  }

  /** One writes into prepared space only and commits only what was written. */
  predicate Allowed(q: Queue, op: StreamOp) {
    match op
    case OpFill(data) => |data| <= q.room
    case OpCommit(k) => k <= |q.filled|
    case _ => true
  }

  predicate ThrowsOn(q: Queue, max: nat, op: StreamOp) {
    match op
    case OpPrepare(n) => |q.input| + n > max
    case OpPut(_) => |q.input| >= max
    case _ => false
  }

  /** The bytes that an operation adds to the unread ones. */
  function Entering(q: Queue, op: StreamOp): seq<byte>
    requires Allowed(q, op)
  {
    match op
    case OpCommit(k) => q.filled[..k]
    case OpPut(c) => [c]
    case _ => []
  }

  /** The bytes that it takes away from the front. */
  function Leaving(q: Queue, op: StreamOp): seq<byte> {
    match op
    case OpConsume(m) => q.input[..Min(m, |q.input|)]
    case OpGet => q.input[..Min(1, |q.input|)]
    case _ => []
  }

  /** A `prepare` may move everything, so what was filled before it is lost; a put takes the first
      byte of the prepared space. */
  function Step(q: Queue, op: StreamOp): Queue
    requires Allowed(q, op) && |q.filled| <= q.room
  {
    match op
    case OpPrepare(n) => Queue(q.input, [], n)
    case OpFill(data) => q.(filled := data + q.filled[Min(|data|, |q.filled|)..])
    case OpCommit(k) => Queue(q.input + Entering(q, op), q.filled[k..], q.room - k)
    case OpPut(c) => Queue(q.input + Entering(q, op), q.filled[Min(1, |q.filled|)..], if q.room == 0 then 0 else q.room - 1)
    case OpConsume(_) => q.(input := q.input[|Leaving(q, op)|..])
    case OpGet => q.(input := q.input[|Leaving(q, op)|..])
  }

  /** Unread bytes and the space behind them, as some buffer has them, are those of the queue. */
  predicate Matches(input: seq<byte>, output: seq<byte>, q: Queue) {
    input == q.input && |q.filled| <= q.room <= |output| && q.filled <= output
  }

  lemma FillMatches(input: seq<byte>, output: seq<byte>, q: Queue, data: seq<byte>)
    requires Matches(input, output, q) && |data| <= q.room
    ensures Matches(input, data + output[|data|..], Step(q, OpFill(data)))
  {
  }

  lemma CommitMatches(input: seq<byte>, output: seq<byte>, q: Queue, k: nat)
    requires Matches(input, output, q) && k <= |q.filled|
    ensures Matches(input + output[..k], output[k..], Step(q, OpCommit(k)))
  {
    assert output[..k] == q.filled[..k];
  }

  lemma PutMatches(input: seq<byte>, output: seq<byte>, q: Queue, c: byte, after: seq<byte>)
    requires Matches(input, output, q) && (|output| > 0 ==> after == output[1..])
    ensures Matches(input + [c], after, Step(q, OpPut(c)))
  {
  }

  lemma DropMatches(input: seq<byte>, output: seq<byte>, q: Queue, m: nat)
    requires Matches(input, output, q)
    ensures Matches(input[Min(m, |input|)..], output, Step(q, OpConsume(m)))
    ensures Step(q, OpGet) == Step(q, OpConsume(1))
  {
  }

  function Front(q: seq<byte>): IntType {
    if q == [] then Eof else Char(q[0])
  }

  // ---------- runs ----------

  datatype Status = Going | Threw | Misused

  /** How far a run got: the queue, what the gets returned, all the bytes that were added and all
      that were taken away, the number of completed operations, and how it stands. */
  datatype Run = Run(q: Queue, gets: seq<IntType>, entered: seq<byte>, left: seq<byte>, completed: nat, status: Status)

  function Start(q: Queue): Run {
    Run(q, [], [], [], 0, Going)
  }

  /** A run ends at the first operation that throws, or is not allowed. */
  function Next(r: Run, max: nat, op: StreamOp): (t: Run)
    requires Bounded(r.q, max)
    ensures Bounded(t.q, max)
  {
    if r.status != Going then r
    else if !Allowed(r.q, op) then r.(status := Misused)
    else if ThrowsOn(r.q, max, op) then r.(status := Threw)
    else Run(Step(r.q, op), r.gets + if op.OpGet? then [Front(r.q.input)] else [],
             r.entered + Entering(r.q, op), r.left + Leaving(r.q, op), r.completed + 1, Going)
  }

  function Play(r: Run, max: nat, ops: seq<StreamOp>): (t: Run)
    requires Bounded(r.q, max)
    ensures Bounded(t.q, max)
  {
    if ops == [] then r else Next(Play(r, max, ops[..|ops| - 1]), max, ops[|ops| - 1])
  }

  lemma {:induction false} PlayAppend(r: Run, max: nat, a: seq<StreamOp>, b: seq<StreamOp>)
    requires Bounded(r.q, max)
    ensures Play(r, max, a + b) == Play(Play(r, max, a), max, b)
    decreases |b|
  {
    if b == [] {
      assert a + b == a;
    } else {
      PlayAppend(r, max, a, b[..|b| - 1]);
      assert (a + b)[..|a + b| - 1] == a + b[..|b| - 1];
    }
  }

  lemma PlayNext(r: Run, max: nat, ops: seq<StreamOp>, i: nat)
    requires Bounded(r.q, max) && i < |ops|
    ensures Play(r, max, ops[..i + 1]) == Next(Play(r, max, ops[..i]), max, ops[i])
  {
    assert ops[..i + 1][..i] == ops[..i];
  }

  lemma {:induction false} EndedStays(r: Run, max: nat, ops: seq<StreamOp>)
    requires Bounded(r.q, max) && r.status != Going
    ensures Play(r, max, ops) == r
    decreases |ops|
  {
    if ops != [] {
      EndedStays(r, max, ops[..|ops| - 1]);
    }
  }

  /** A run that has ended within its first `i` operations stays as it is. */
  lemma {:induction false} EndedAt(r: Run, max: nat, ops: seq<StreamOp>, i: nat)
    requires Bounded(r.q, max) && i <= |ops| && Play(r, max, ops[..i]).status != Going
    ensures Play(r, max, ops) == Play(r, max, ops[..i])
  {
    assert ops[..i] + ops[i..] == ops;
    PlayAppend(r, max, ops[..i], ops[i..]);
    EndedStays(Play(r, max, ops[..i]), max, ops[i..]);
  }

  /** A run that is going has completed all its operations, and one that has ended has not. */
  lemma {:induction false} GoingIffCompleted(q: Queue, max: nat, ops: seq<StreamOp>)
    requires Bounded(q, max)
    ensures var r := Play(Start(q), max, ops); r.completed <= |ops| && (r.status == Going <==> r.completed == |ops|)
    decreases |ops|
  {
    if ops != [] {
      GoingIffCompleted(q, max, ops[..|ops| - 1]);
    }
  }

  // ---------- first in, first out ----------

  lemma StepConserves(q: Queue, op: StreamOp)
    requires Allowed(q, op) && |q.filled| <= q.room
    ensures Leaving(q, op) + Step(q, op).input == q.input + Entering(q, op)
  {
    var l := Leaving(q, op);
    if op.OpConsume? || op.OpGet? {
      assert q.input == l + q.input[|l|..];
      assert q.input + [] == q.input;
    } else {
      assert [] + Step(q, op).input == Step(q, op).input;
    }
  }

  /** What came out followed by what is unread is `start` followed by what went in. */
  predicate Conserved(start: seq<byte>, r: Run) {
    r.left + r.q.input == start + r.entered
  }

  lemma NextConserves(start: seq<byte>, r: Run, max: nat, op: StreamOp)
    requires Bounded(r.q, max) && Conserved(start, r)
    ensures Conserved(start, Next(r, max, op))
  {
    var t := Next(r, max, op);
    if t.completed != r.completed {
      StepConserves(r.q, op);
      Associative(r.left, Leaving(r.q, op), t.q.input);
      Associative(r.left, r.q.input, Entering(r.q, op));
      Associative(start, r.entered, Entering(r.q, op));
    }
  }

  /** First in, first out, over any run: what was taken away followed by what is unread is what was
      unread at first followed by what was committed and put, and the size bound is kept. */
  lemma {:induction false} StreamConserves(q: Queue, max: nat, ops: seq<StreamOp>)
    requires Bounded(q, max)
    ensures var r := Play(Start(q), max, ops); Conserved(q.input, r) && |r.q.input| <= max
    decreases |ops|
  {
    if ops == [] {
      assert [] + q.input == q.input + [];
    } else {
      var init := ops[..|ops| - 1];
      StreamConserves(q, max, init);
      NextConserves(q.input, Play(Start(q), max, init), max, ops[|ops| - 1]);
    }
  }

  function Chars(gs: seq<IntType>): seq<byte> {
    if gs == [] then [] else
      Chars(gs[..|gs| - 1]) + match gs[|gs| - 1] case Eof => [] case Char(c) => [c]
  }

  lemma CharsSnoc(gs: seq<IntType>, g: IntType)
    ensures Chars(gs + [g]) == Chars(gs) + match g case Eof => [] case Char(c) => [c]
  {
    assert (gs + [g])[..|gs|] == gs;
  }

  lemma NextGets(r: Run, max: nat, op: StreamOp)
    requires Bounded(r.q, max) && Chars(r.gets) == r.left && !op.OpConsume?
    ensures Chars(Next(r, max, op).gets) == Next(r, max, op).left
  {
    if op.OpGet? {
      CharsSnoc(r.gets, Front(r.q.input));
    } else {
      assert r.gets + [] == r.gets && r.left + [] == r.left;
    }
  }

  lemma {:induction false} GetsAreLeft(q: Queue, max: nat, ops: seq<StreamOp>)
    requires Bounded(q, max) && forall op :: op in ops ==> !op.OpConsume?
    ensures Chars(Play(Start(q), max, ops).gets) == Play(Start(q), max, ops).left
    decreases |ops|
  {
    if ops != [] {
      var init := ops[..|ops| - 1];
      GetsAreLeft(q, max, init);
      assert ops[|ops| - 1] in ops;
      NextGets(Play(Start(q), max, init), max, ops[|ops| - 1]);
    }
  }

  /** As a reader sees it: the characters got over a run without `consume`, followed by those still
      unread, are the initial ones followed by those committed and put. */
  lemma GetsThenRest(q: Queue, max: nat, ops: seq<StreamOp>)
    requires Bounded(q, max) && forall op :: op in ops ==> !op.OpConsume?
    ensures var r := Play(Start(q), max, ops); Chars(r.gets) + r.q.input == q.input + r.entered
  {
    GetsAreLeft(q, max, ops);
    StreamConserves(q, max, ops);
  }

  // ---------- the same queue as the dynamic buffers ----------

  /** Preparing, filling and committing as three operations. */
  function Steps(op: B.Op): seq<StreamOp> {
    match op
    case Produce(data, k) => [OpPrepare(|data|)] + [OpFill(data)] + [OpCommit(k)]
    case Consume(n) => [OpConsume(n)]
  }

  function AllSteps(ops: seq<B.Op>): seq<StreamOp> {
    if ops == [] then [] else AllSteps(ops[..|ops| - 1]) + Steps(ops[|ops| - 1])
  }

  lemma PlayOne(r: Run, max: nat, op: StreamOp)
    requires Bounded(r.q, max)
    ensures Play(r, max, [op]) == Next(r, max, op)
  {
    assert Play(r, max, [op][..0]) == r;
  }

  lemma PlayThree(r: Run, max: nat, a: StreamOp, b: StreamOp, c: StreamOp)
    requires Bounded(r.q, max)
    ensures Play(r, max, [a] + [b] + [c]) == Next(Next(Next(r, max, a), max, b), max, c)
  {
    PlayOne(r, max, a);
    PlayOne(Next(r, max, a), max, b);
    PlayOne(Next(Next(r, max, a), max, b), max, c);
    PlayAppend(r, max, [a], [b]);
    PlayAppend(r, max, [a] + [b], [c]);
  }

  lemma ProduceThrows(r: Run, max: nat, data: seq<byte>, k: nat)
    requires Bounded(r.q, max) && r.status == Going && |r.q.input| + |data| > max
    ensures Play(r, max, Steps(B.Produce(data, k))) == r.(status := Threw)
  {
    PlayThree(r, max, OpPrepare(|data|), OpFill(data), OpCommit(k));
    assert Next(r, max, OpPrepare(|data|)) == r.(status := Threw);
  }

  lemma ProduceCommits(r: Run, max: nat, data: seq<byte>, k: nat)
    requires Bounded(r.q, max) && r.status == Going && |r.q.input| + |data| <= max && k <= |data|
    ensures var t := Play(r, max, Steps(B.Produce(data, k))); t.q.input == r.q.input + data[..k] && t.status == Going
  {
    PlayThree(r, max, OpPrepare(|data|), OpFill(data), OpCommit(k));
    var a := Next(r, max, OpPrepare(|data|));
    assert a.q == Queue(r.q.input, [], |data|) && a.status == Going;
    var b := Next(a, max, OpFill(data));
    assert data + [] == data;
    assert b.q == Queue(r.q.input, data, |data|) && b.status == Going;
  }

  lemma ConsumeDrops(r: Run, max: nat, n: nat)
    requires Bounded(r.q, max) && r.status == Going
    ensures var t := Play(r, max, [OpConsume(n)]); t.q.input == r.q.input[Min(n, |r.q.input|)..] && t.status == Going
  {
    PlayOne(r, max, OpConsume(n));
  }

  /** What one operation of the bounded FIFO is for a run of single steps. */
  lemma PlaySteps(r: Run, max: nat, op: B.Op)
    requires Bounded(r.q, max) && r.status == Going && B.Legal(op)
    ensures var t := Play(r, max, Steps(op));
            if B.Throws(r.q.input, max, op) then t.q.input == r.q.input && t.status == Threw
            else t.q.input == B.After(r.q.input, op) && t.status == Going
  {
    match op
    case Produce(data, k) =>
      if |r.q.input| + |data| > max { ProduceThrows(r, max, data, k); } else { ProduceCommits(r, max, data, k); }
    case Consume(n) =>
      ConsumeDrops(r, max, n);
  }

  /** For equal runs of prepare, fill, commit and consume, this queue holds the same bytes as the
      bounded FIFO, which is what the dynamic buffers are, and throws if and only if that does. */
  lemma {:induction false} SameQueue(q: Queue, max: nat, ops: seq<B.Op>)
    requires Bounded(q, max) && B.AllLegal(ops)
    ensures var r := Play(Start(q), max, AllSteps(ops));
            && r.q.input == B.Final(q.input, max, ops)
            && r.status == if B.Completed(q.input, max, ops) == |ops| then Going else Threw
    decreases |ops|
  {
    if ops != [] {
      var n := |ops| - 1;
      var a := AllSteps(ops[..n]);
      var r := Play(Start(q), max, a);
      assert ops[n] in ops && ops[..n + 1] == ops;
      SameQueue(q, max, ops[..n]);
      PlayAppend(Start(q), max, a, Steps(ops[n]));
      if r.status == Going {
        PlaySteps(r, max, ops[n]);
        B.RunSnoc(q.input, max, ops, n);
      } else {
        EndedStays(r, max, Steps(ops[n]));
        B.RunEnded(q.input, max, ops, n);
      }
    }
  }
}
