/**
 `basic_streambuf`: the bounded byte queue as a window into one growing buffer. Pointers into
 `buffer_` are modelled as offsets; `sputc` and `sbumpc` are the base class's entry points to
 `overflow` and `underflow`.
 */
module StreamBuf {
  import opened Bytes
  import opened ByteQueue
  import opened StreamQueue

  const BUFFER_DELTA: nat := 128

  /** `static_cast<int>` of a `size_t`: the low 32 bits, read as a signed number. */
  function ToInt(n: nat): int {
    var low := n % 0x1_0000_0000;
    if low <= INT_MAX then low else low - 0x1_0000_0000
  }

  lemma ToIntExact(n: nat)
    requires n <= INT_MAX
    ensures ToInt(n) == n
  {
  }

  /** What a failing `reserve` leaves of unread bytes `q` that start `gap` bytes into the buffer:
      they have been moved down by `gap`, but the pointers still point to the old place. */
  function Displaced(q: seq<byte>, gap: nat): (r: seq<byte>)
    ensures |r| == |q|
  {
    if gap < |q| then q[gap..] + q[|q| - gap..] else q
  }

  /** A throwing `prepare` leaves the unread bytes alone exactly when nothing had been consumed
      before them, or the consumed gap is at least as long as they are, or they repeat with the
      period of the gap. */
  lemma DisplacedHarmlessIff(q: seq<byte>, gap: nat)
    ensures Displaced(q, gap) == q <==> (gap == 0 || gap >= |q| || q[gap..] == q[..|q| - gap])
  {
    if 0 < gap < |q| {
      var m := |q| - gap;
      assert Displaced(q, gap)[..m] == q[gap..];
      assert q == q[..m] + q[m..];
    }
  }

  /** `reserve`'s `memmove`: the unread bytes go to the front, the rest of the buffer stays. */
  function Shifted(buffer: seq<byte>, g: nat, p: nat): (r: seq<byte>)
    requires g <= p <= |buffer|
    ensures |r| == |buffer| && r[..p - g] == buffer[g..p]
  {
    buffer[g..p] + buffer[p - g..]
  }

  lemma NothingShifted(buffer: seq<byte>, p: nat)
    requires p <= |buffer|
    ensures Shifted(buffer, 0, p) == buffer
  {
  }

  /** What the old pointers see after the move. */
  lemma ShiftedAtOldPlace(buffer: seq<byte>, g: nat, p: nat)
    requires g <= p <= |buffer|
    ensures Shifted(buffer, g, p)[g..p] == Displaced(buffer[g..p], g)
  {
    var q := buffer[g..p];
    if g < |q| {
      assert Shifted(buffer, g, p)[g..p - g] == q[g..];
      assert Shifted(buffer, g, p)[p - g..p] == buffer[p - g..p] == q[|q| - g..];
      assert Shifted(buffer, g, p)[g..p] == Shifted(buffer, g, p)[g..p - g] + Shifted(buffer, g, p)[p - g..p];
    } else {
      assert Shifted(buffer, g, p)[g..p] == q;
    }
  }

  /** The buffer when `data` has been written into it at `p`. */
  function Overwritten(buffer: seq<byte>, p: nat, data: seq<byte>): (r: seq<byte>)
    requires p + |data| <= |buffer|
    ensures |r| == |buffer|
  {
    buffer[..p] + data + buffer[p + |data|..]
  }

  lemma OverwrittenAt(buffer: seq<byte>, g: nat, p: nat, e: nat, data: seq<byte>)
    requires g <= p && p + |data| <= e <= |buffer|
    ensures Overwritten(buffer, p, data)[g..p] == buffer[g..p]
    ensures Overwritten(buffer, p, data)[p..e] == data + buffer[p..e][|data|..]
  {
  }

  /** Moving the border between two areas by `k` moves `k` bytes from the one to the other. */
  lemma SplitAt(buffer: seq<byte>, g: nat, p: nat, k: nat, e: nat)
    requires g <= p && p + k <= e <= |buffer|
    ensures buffer[g..p + k] == buffer[g..p] + buffer[p..e][..k]
    ensures buffer[p + k..e] == buffer[p..e][k..]
  {
  }

  lemma PutExtends(buffer: seq<byte>, g: nat, p: nat, c: byte)
    requires g <= p < |buffer|
    ensures buffer[p := c][g..p + 1] == buffer[g..p] + [c]
  {
  }

  /** The counts that `commit` and `consume` cast to `int` survive the cast. */
  predicate FitsInt(op: StreamOp, max: nat) {
    max <= INT_MAX || (match op case OpCommit(k) => k <= INT_MAX case OpConsume(m) => m <= INT_MAX case _ => true)
  }

  class StreamBuf {
    const maxSize: nat
    var buffer: seq<byte>
    var eback: nat
    var gptr: nat
    var egptr: nat
    var pptr: nat
    var epptr: nat

    predicate Valid()
      reads this
    {
      && eback == 0 <= gptr <= egptr <= pptr <= epptr <= |buffer|
      && epptr <= maxSize
      && |buffer| > 0
    }

    /** The input sequence: `data()`. */
    function Input(): seq<byte>
      requires Valid()
      reads this
    {
      buffer[gptr..pptr]
    }

    /** The output sequence: the bytes a `commit` may still take. */
    function Output(): seq<byte>
      requires Valid()
      reads this
    {
      buffer[pptr..epptr]
    }

    function Size(): (n: nat)
      requires Valid()
      reads this
      ensures n == |Input()| <= maxSize
    {
      pptr - gptr
    }

    constructor (maximumSize: nat)
      ensures Valid() && maxSize == maximumSize && Input() == [] && gptr == 0
    {
      var pend := Min(maximumSize, BUFFER_DELTA);
      maxSize := maximumSize;
      buffer := Zeros(Max(pend, 1));
      eback, gptr, egptr := 0, 0, 0;
      pptr, epptr := 0, pend;
    }

    /** Moves the unread bytes to the start of the buffer. */
    method MoveDown()
      requires Valid()
      modifies this`buffer
      ensures Valid() && |buffer| == |old(buffer)| && buffer[..|old(Input())|] == old(Input())
      ensures Input() == Displaced(old(Input()), gptr)
    {
      ShiftedAtOldPlace(buffer, gptr, pptr);
      NothingShifted(buffer, pptr);
      if gptr > 0 {
        buffer := Shifted(buffer, gptr, pptr);
      }
    }

    /** `setg` and `setp`: the first `pnext` bytes are unread, the rest up to `pend` is free. */
    method SetAreas(pnext: nat, pend: nat)
      requires pnext <= pend <= |buffer| && pend <= maxSize && |buffer| > 0
      modifies this
      ensures Valid() && buffer == old(buffer) && gptr == 0
      ensures Input() == buffer[..pnext] && Output() == buffer[pnext..pend]
    {
      eback, gptr, egptr := 0, 0, pnext;
      pptr, epptr := pnext, pend;
    }

    /** Makes room for `n` more bytes; `thrown` is `std::length_error`. */
    method Reserve(n: nat) returns (thrown: bool)
      requires Valid()
      modifies this
      ensures Valid()
      ensures thrown <==> old(|Input()|) + n > maxSize
      ensures !thrown ==> Input() == old(Input()) && |Output()| >= n && (gptr == old(gptr) || gptr == 0)
      ensures thrown ==> Input() == Displaced(old(Input()), old(gptr)) && gptr == old(gptr) && pptr == old(pptr)
      ensures thrown ==> egptr == old(egptr) && epptr == old(epptr)
    {
      if n <= epptr - pptr {
        return false;
      }
      var pnext, pend := pptr - gptr, epptr;
      ghost var q := Input();
      MoveDown();
      if n > pend - pnext {
        if n <= maxSize && pnext <= maxSize - n {
          pend := pnext + n;
          ResizeKeeps(buffer, Max(pend, 1), pnext);
          buffer := Resize(buffer, Max(pend, 1));
        } else {
          return true;
        }
      }
      assert buffer[..pnext] == q;
      SetAreas(pnext, pend);
      return false;
    }

    /** Returns the place of the prepared space: `n` bytes from `pptr` on. */
    method Prepare(n: nat) returns (thrown: bool)
      requires Valid()
      modifies this
      ensures Valid()
      ensures thrown <==> old(|Input()|) + n > maxSize
      ensures !thrown ==> Input() == old(Input()) && |Output()| >= n && (gptr == old(gptr) || gptr == 0)
      ensures thrown ==> Input() == Displaced(old(Input()), old(gptr)) && gptr == old(gptr)
    {
      thrown := Reserve(n);
    }

    /** The caller writes into the buffers that `Prepare` returned. */
    method Fill(data: seq<byte>)
      requires Valid() && |data| <= |Output()|
      modifies this`buffer
      ensures Valid() && Input() == old(Input())
      ensures Output() == data + old(Output())[|data|..]
    {
      OverwrittenAt(buffer, gptr, pptr, epptr, data);
      buffer := Overwritten(buffer, pptr, data);
    }

    method Commit(n: nat)
      requires Valid() && Min(n, |Output()|) <= INT_MAX
      modifies this
      ensures Valid()
      ensures Input() == old(Input()) + old(Output())[..Min(n, old(|Output()|))] && gptr == old(gptr)
      ensures Output() == old(Output())[Min(n, old(|Output()|))..]
    {
      var k := Min(n, epptr - pptr);
      ToIntExact(k);
      SplitAt(buffer, gptr, pptr, k, epptr);
      pptr := pptr + ToInt(k);
      egptr := pptr;
    }

    method Consume(n: nat)
      requires Valid() && Min(n, |Input()|) <= INT_MAX
      modifies this
      ensures Valid()
      ensures Input() == old(Input())[Min(n, old(|Input()|))..] && Output() == old(Output())
      ensures gptr == old(gptr) + Min(n, old(|Input()|))
    {
      var k := n;
      if egptr < pptr {
        eback, egptr := 0, pptr;
      }
      if gptr + k > pptr {
        k := pptr - gptr;
      }
      ToIntExact(k);
      SplitAt(buffer, gptr, gptr, k, pptr);
      gptr := gptr + ToInt(k);
    }

    method Underflow() returns (c: IntType)
      requires Valid()
      modifies this
      ensures Valid() && Input() == old(Input()) && Output() == old(Output())
      ensures c == if Input() == [] then Eof else Char(Input()[0])
      ensures c.Char? ==> gptr < egptr
    {
      if gptr < pptr {
        eback, egptr := 0, pptr;
        c := Char(buffer[gptr]);
      } else {
        c := Eof;
      }
    }

    /** Stores a character in the put area and moves on. */
    method Store(c: byte)
      requires Valid() && pptr < epptr
      modifies this
      ensures Valid() && gptr == old(gptr)
      ensures Input() == old(Input()) + [c] && Output() == old(Output())[1..]
    {
      PutExtends(buffer, gptr, pptr, c);
      buffer := buffer[pptr := c];
      pptr := pptr + 1;
    }

    /** Puts a character when the put area is full; throws exactly when the queue is full, and
        then changes nothing. */
    method Overflow(c: IntType) returns (r: IntType, thrown: bool)
      requires Valid()
      modifies this
      ensures Valid()
      ensures thrown <==> c.Char? && old(|Input()|) == maxSize
      ensures thrown || c.Eof? ==> Input() == old(Input()) && gptr == old(gptr) && pptr == old(pptr)
      ensures c.Char? && !thrown ==> Input() == old(Input()) + [c.c] && r == c && (gptr == old(gptr) || gptr == 0)
      ensures c.Eof? ==> r != Eof
    {
      thrown := false;
      if c.Char? {
        if pptr == epptr {
          var bufferSize := pptr - gptr;
          if bufferSize < maxSize && maxSize - bufferSize < BUFFER_DELTA {
            thrown := Reserve(maxSize - bufferSize);
          } else {
            thrown := Reserve(BUFFER_DELTA);
          }
          if thrown {
            return Eof, true;
          }
        }
        Store(c.c);
        return c, false;
      }
      return Char(0), false;
    }

    /** `std::streambuf::sputc`. */
    method Sputc(c: byte) returns (thrown: bool)
      requires Valid()
      modifies this
      ensures Valid() && (thrown <==> old(|Input()|) == maxSize)
      ensures Input() == if thrown then old(Input()) else old(Input()) + [c]
      ensures gptr == old(gptr) || gptr == 0
      ensures old(|Output()|) > 0 ==> Output() == old(Output())[1..]
    {
      if pptr < epptr {
        Store(c);
        thrown := false;
      } else {
        var r;
        r, thrown := Overflow(Char(c));
      }
    }

    /** `std::streambuf::sbumpc`: takes the next character, through `underflow` if the get area
        has not caught up with what was put. */
    method Sbumpc() returns (c: IntType)
      requires Valid()
      modifies this
      ensures Valid()
      ensures c == if old(Input()) == [] then Eof else Char(old(Input())[0])
      ensures Input() == if old(Input()) == [] then [] else old(Input())[1..]
      ensures Output() == old(Output())
    {
      if gptr == egptr {
        c := Underflow();
        if c.Eof? {
          return;
        }
      }
      c := Char(buffer[gptr]);
      gptr := gptr + 1;
    }

    /** This object is a queue `q`: unread bytes, room, and what of the room has been filled. */
    ghost predicate Holds(q: Queue)
      reads this
    {
      Valid() && Matches(Input(), Output(), q)
    }

    /** One operation does to the object what it does to the queue; a `prepare` that throws displaces
        the unread bytes, and a put that throws changes nothing. */
    method Apply(op: StreamOp, ghost q: Queue) returns (thrown: bool, got: IntType)
      requires Holds(q) && Bounded(q, maxSize) && Allowed(q, op) && FitsInt(op, maxSize)
      modifies this
      ensures Valid() && (thrown <==> ThrowsOn(q, maxSize, op))
      ensures !thrown ==> Holds(Step(q, op))
      ensures thrown ==> Input() == if op.OpPut? then q.input else Displaced(q.input, gptr)
      ensures op.OpGet? ==> got == Front(q.input)
    {
      thrown, got := false, Eof;
      match op {
        case OpPrepare(n) =>
          thrown := Prepare(n);
        case OpFill(data) =>
          FillMatches(Input(), Output(), q, data);
          Fill(data);
        case OpCommit(k) =>
          CommitMatches(Input(), Output(), q, k);
          Commit(k);
        case OpConsume(m) =>
          DropMatches(Input(), Output(), q, m);
          Consume(m);
        case OpPut(c) =>
          ghost var input, output := Input(), Output();
          thrown := Sputc(c);
          if !thrown { PutMatches(input, output, q, c, Output()); }
        case OpGet =>
          DropMatches(Input(), Output(), q, 1);
          got := Sbumpc();
      }
    }

    /** So far this object has followed the run `r`. */
    ghost predicate GoesOn(r: Run, completed: nat, gets: seq<IntType>)
      reads this
    {
      r.status == Going && r.completed == completed && r.gets == gets && Holds(r.q)
    }

    /** Any run of operations, in any order that writes before it commits, acts like the queue up to
        the first one that throws, and every get returns the front of the queue at its time. */
    method Replay(ops: seq<StreamOp>) returns (completed: nat, gap: nat, gets: seq<IntType>)
      requires Valid() && forall op :: op in ops ==> FitsInt(op, maxSize)
      requires Play(Start(Queue(Input(), [], 0)), maxSize, ops).status != Misused
      modifies this
      ensures var r := Play(Start(Queue(old(Input()), [], 0)), maxSize, ops);
              && Valid() && completed == r.completed <= |ops| && gets == r.gets && gap == gptr
              && (r.status == Threw <==> completed < |ops|)
              && Input() == if completed < |ops| && !ops[completed].OpPut? then Displaced(r.q.input, gap) else r.q.input
    {
      ghost var start := Start(Queue(Input(), [], 0));
      completed, gets := 0, [];
      while completed < |ops|
        invariant completed <= |ops| && GoesOn(Play(start, maxSize, ops[..completed]), completed, gets)
      {
        PlayNext(start, maxSize, ops, completed);
        ghost var r := Play(start, maxSize, ops[..completed]);
        if Next(r, maxSize, ops[completed]).status != Going {
          EndedAt(start, maxSize, ops, completed + 1);
        }
        assert ops[completed] in ops;
        var thrown, got := Apply(ops[completed], r.q);
        if thrown {
          return completed, gptr, gets;
        }
        if ops[completed].OpGet? {
          gets := gets + [got];
        }
        completed := completed + 1;
      }
      assert ops[..completed] == ops;
      gap := gptr;
    }
  }

  /** Four bytes committed to a buffer for four, one of them consumed, and a `prepare` of two more: it
      throws, and the three unread bytes are no longer what they were. */
  method DisplacedExample() returns (before: seq<byte>, after: seq<byte>, thrown: bool)
    ensures thrown && before == [2, 3, 4] && after == [3, 4, 4]
  {
    var b := new StreamBuf(4);
    var t := b.Prepare(4);
    b.Fill([1, 2, 3, 4]);
    b.Commit(4);
    assert b.Input() == [1, 2, 3, 4];
    b.Consume(1);
    before := b.buffer[b.gptr..b.pptr];
    thrown := b.Prepare(2);
    after := b.buffer[b.gptr..b.pptr];
  }
}
