/**
 `dynamic_string_buffer` and `dynamic_vector_buffer`: the bounded byte queue on top of a
 caller's string or vector. Until the first `prepare` the size field holds a sentinel and the
 whole of the storage counts as input.
 */
module DynamicBuffer {
  import opened Bytes
  import opened ByteQueue

  datatype Backing = StringBacked | VectorBacked

  /** All the space that a run asks for. */
  function DataTotal(ops: seq<Op>): nat {
    if ops == [] then 0 else (if ops[0].Produce? then |ops[0].data| else 0) + DataTotal(ops[1..])
  }

  /** Whether a buffer with `size` bytes of contents refuses `n` more: as long as it is unprepared it
      counts its contents only up to the maximum. */
  predicate Refuses(unprepared: bool, size: nat, max: nat, n: nat) {
    (if unprepared then Min(size, max) else size) + n > max
  }

  class DynamicBuffer {
    const backing: Backing
    const maxSize: nat
    var store: seq<byte>
    var size_: nat

    predicate Valid()
      reads this
    {
      |store| < SIZE_MAX && (size_ == SIZE_MAX || size_ <= |store|)
    }

    predicate Unprepared()
      reads this
    {
      size_ == SIZE_MAX
    }

    function Input(): seq<byte>
      requires Valid()
      reads this
    {
      if Unprepared() then store else store[..size_]
    }

    function Output(): seq<byte>
      requires Valid() && !Unprepared()
      reads this
    {
      store[size_..]
    }

    constructor (backing: Backing, contents: seq<byte>, maximumSize: nat)
      requires |contents| < SIZE_MAX
      ensures Valid() && Unprepared() && maxSize == maximumSize && Input() == contents
    {
      this.backing, store, size_, maxSize := backing, contents, SIZE_MAX, maximumSize;
    }

    function Size(): nat
      requires Valid()
      reads this
    {
      if size_ != SIZE_MAX then size_ else Min(|store|, maxSize)
    }

    /** `data()`: the sentinel is larger than any string, so it caps nothing. */
    method Data() returns (bytes: seq<byte>)
      requires Valid()
      ensures bytes == Input()
    {
      bytes := store[..Min(|store|, size_)];
    }

    /** The size that `prepare` checks counts the storage only up to the maximum as long as the
        buffer is unprepared. A request within the maximum must not reach the sentinel, which no
        string or vector does. */
    method Prepare(n: nat) returns (thrown: bool)
      requires Valid() && (Size() + n <= maxSize ==> |Input()| + n < SIZE_MAX)
      modifies this
      ensures Valid()
      ensures thrown <==> old(Refuses(Unprepared(), |Input()|, maxSize, n))
      ensures Input() == old(Input())
      ensures thrown ==> store == old(store) && size_ == old(size_)
      ensures !thrown ==> !Unprepared() && |Output()| == n
    {
      if Size() > maxSize || maxSize - Size() < n {
        return true;
      }
      if size_ == SIZE_MAX {
        size_ := |store|;
      }
      ResizeKeeps(store, size_ + n, size_);
      store := Resize(store, size_ + n);
      return false;
    }

    /** The caller writes into the buffers that `Prepare` returned. */
    method Fill(data: seq<byte>)
      requires Valid() && !Unprepared() && |data| <= |Output()|
      modifies this`store
      ensures Valid() && Input() == old(Input())
      ensures |Output()| == old(|Output()|) && Output()[..|data|] == data
    {
      store := store[..size_] + data + store[size_ + |data|..];
    }

    /** The rest of the prepared space is discarded. */
    method Commit(n: nat)
      requires Valid() && !Unprepared()
      modifies this
      ensures Valid() && !Unprepared()
      ensures Input() == old(Input()) + old(Output())[..Min(n, old(|Output()|))]
      ensures Output() == []
    {
      size_ := size_ + Min(n, |store| - size_);
      store := store[..size_];
    }

    method Consume(n: nat)
      requires Valid()
      modifies this
      ensures Valid() && Unprepared() == old(Unprepared())
      ensures old(!Unprepared() || backing.StringBacked? || |store| <= maxSize) ==>
                Input() == old(Input())[Min(n, old(|Input()|))..]
      ensures old(Unprepared() && backing.VectorBacked?) ==>
                Input() == old(Input())[Min(n, Min(old(|Input()|), maxSize))..]
      ensures !Unprepared() ==> Output() == old(Output())
    {
      if size_ != SIZE_MAX {
        var consumeLength := Min(n, size_);
        store := store[consumeLength..];
        size_ := size_ - consumeLength;
        return;
      }
      match backing {
        case StringBacked => store := store[Min(n, |store|)..];
        case VectorBacked => store := store[Min(Size(), n)..];
      }
    }

    method Apply(op: Op) returns (thrown: bool)
      requires Valid() && Legal(op) && |Input()| <= maxSize
      requires op.Produce? && |Input()| + |op.data| <= maxSize ==> |Input()| + |op.data| < SIZE_MAX
      modifies this
      ensures Valid() && (thrown <==> Throws(old(Input()), maxSize, op))
      ensures Input() == if thrown then old(Input()) else After(old(Input()), op)
    {
      match op {
        case Produce(data, k) =>
          thrown := Prepare(|data|);
          if !thrown {
            Fill(data);
            assert Output()[..k] == data[..k];
            Commit(k);
          }
        case Consume(n) =>
          Consume(n);
          thrown := false;
      }
    }

    /** Any run of operations, up to the first that throws, acts like the bounded FIFO, and a
        throwing operation leaves the queue as it was. With the default maximum, all that is asked
        for in the run has to stay below the sentinel; a smaller maximum sees to that itself. */
    method Replay(ops: seq<Op>) returns (completed: nat)
      requires Valid() && AllLegal(ops) && |Input()| <= maxSize
      requires maxSize < SIZE_MAX || |Input()| + DataTotal(ops) < SIZE_MAX
      modifies this
      ensures Valid() && completed == Completed(old(Input()), maxSize, ops)
      ensures Input() == Final(old(Input()), maxSize, ops)
    {
      ghost var q := Input();
      completed := 0;
      while completed < |ops|
        invariant Valid() && completed <= |ops|
        invariant Completed(q, maxSize, ops[..completed]) == completed
        invariant Input() == Final(q, maxSize, ops[..completed]) && |Input()| <= maxSize
        invariant maxSize < SIZE_MAX || |Input()| + DataTotal(ops[completed..]) < SIZE_MAX
      {
        assert ops[completed] in ops;
        assert ops[completed..][1..] == ops[completed + 1..];
        var thrown := Apply(ops[completed]);
        RunSnoc(q, maxSize, ops, completed);
        if thrown {
          RunStops(q, maxSize, ops, completed);
          return;
        }
        completed := completed + 1;
      }
      assert ops[..completed] == ops;
    }
  }

  /** A new buffer refuses exactly what the plain queue refuses, whatever is asked for, if and only
      if its contents are within the maximum; once prepared it always does. */
  lemma UnpreparedThrowsLikeQueueIff(size: nat, max: nat)
    ensures (forall n: nat :: Refuses(true, size, max, n) <==> Throws(Zeros(size), max, Produce(Zeros(n), 0))) <==> size <= max
    ensures forall n: nat :: Refuses(false, size, max, n) <==> Throws(Zeros(size), max, Produce(Zeros(n), 0))
  {
    if size > max {
      assert !Refuses(true, size, max, 0) && Throws(Zeros(size), max, Produce(Zeros(0), 0));
    }
  }
}
