/**
 `buffers_iterator`: a random-access cursor over the bytes of a list of buffers, some of which
 may be empty. `current_` is an index into the list; `begin_` is 0 and `end_` its length.
 */
module BuffersIterator {
  import opened Bytes

  type Buffers = seq<seq<byte>>

  /** The sizes of the first `i` buffers together. */
  function SizeBefore(bs: Buffers, i: nat): nat
    requires i <= |bs|
  {
    if i == 0 then 0 else SizeBefore(bs, i - 1) + |bs[i - 1]|
  }

  /** The first `i` buffers, one after the other. */
  function Joined(bs: Buffers, i: nat): (s: seq<byte>)
    requires i <= |bs|
    ensures |s| == SizeBefore(bs, i)
  {
    if i == 0 then [] else Joined(bs, i - 1) + bs[i - 1]
  }

  function Total(bs: Buffers): nat {
    SizeBefore(bs, |bs|)
  }

  /** The byte sequence that the buffers represent. */
  function AllBytes(bs: Buffers): seq<byte> {
    Joined(bs, |bs|)
  }

  datatype Cursor = Cursor(current: nat, offset: nat, position: nat)

  /** The representation invariant: `position` counts the bytes before the cursor, and the cursor
      is on a byte of a non-empty buffer, or at the end. */
  predicate OnByteOrEnd(bs: Buffers, c: Cursor) {
    && c.current <= |bs|
    && c.position == SizeBefore(bs, c.current) + c.offset
    && if c.current < |bs| then c.offset < |bs[c.current]| else c.offset == 0
  }

  lemma {:induction false} SizeBeforeGrows(bs: Buffers, i: nat, j: nat)
    requires i <= j <= |bs|
    ensures SizeBefore(bs, i) <= SizeBefore(bs, j)
    decreases j
  {
    if i < j { SizeBeforeGrows(bs, i, j - 1); }
  }

  /** The position alone determines the cursor. */
  lemma CursorIsUnique(bs: Buffers, c: Cursor, d: Cursor)
    requires OnByteOrEnd(bs, c) && OnByteOrEnd(bs, d) && c.position == d.position
    ensures c == d
  {
    if c.current < d.current {
      SizeBeforeGrows(bs, c.current + 1, d.current);
    } else if d.current < c.current {
      SizeBeforeGrows(bs, d.current + 1, c.current);
    }
  }

  /** `d` is where a move by `n` bytes from `c` ends: what `increment`, `decrement` and `advance`
      promise for `n` equal to 1, -1 and their argument. */
  predicate Moves(bs: Buffers, c: Cursor, n: int, d: Cursor) {
    OnByteOrEnd(bs, c) && OnByteOrEnd(bs, d) && d.position == c.position + n
  }

  /** The cursors passed by moving one element at a time, `step` bytes each. */
  predicate Path(bs: Buffers, path: seq<Cursor>, step: int) {
    path != [] && OnByteOrEnd(bs, path[0]) && forall i :: 0 < i < |path| ==> Moves(bs, path[i - 1], step, path[i])
  }

  /** `n` increments (or decrements) reach the cursor that one `advance(n)` (or `advance(-n)`)
      reaches, with the same buffer and offset. */
  lemma StepsReach(bs: Buffers, path: seq<Cursor>, step: int, d: Cursor)
    requires Path(bs, path, step) && Moves(bs, path[0], step * (|path| - 1), d)
    ensures path[|path| - 1] == d
  {
    StepsEnd(bs, path, step, |path| - 1);
    CursorIsUnique(bs, path[|path| - 1], d);
  }

  lemma {:induction false} StepsEnd(bs: Buffers, path: seq<Cursor>, step: int, n: nat)
    requires Path(bs, path, step) && n < |path|
    ensures Moves(bs, path[0], step * n, path[n])
    decreases n
  {
    if n > 0 {
      StepsEnd(bs, path, step, n - 1);
      assert Moves(bs, path[n - 1], step, path[n]);
      assert step * n == step * (n - 1) + step;
    }
  }

  /** `advance(a)` and then `advance(b)`, of any signs, is `advance(a + b)`. */
  lemma MovesCompose(bs: Buffers, c: Cursor, a: int, d: Cursor, b: int, e: Cursor, f: Cursor)
    requires Moves(bs, c, a, d) && Moves(bs, d, b, e) && Moves(bs, c, a + b, f)
    ensures e == f
  {
    CursorIsUnique(bs, e, f);
  }

  lemma {:induction false} JoinedPrefix(bs: Buffers, i: nat, j: nat)
    requires i <= j <= |bs|
    ensures Joined(bs, i) <= Joined(bs, j)
    decreases j
  {
    if i < j { JoinedPrefix(bs, i, j - 1); }
  }

  /** A cursor before the end is on byte number `position` of the whole, and the end cursor is
      the one at the total size. */
  lemma CursorOnByte(bs: Buffers, c: Cursor)
    requires OnByteOrEnd(bs, c)
    ensures c.position <= Total(bs) && (c.current == |bs| <==> c.position == Total(bs))
    ensures c.current < |bs| ==> bs[c.current][c.offset] == AllBytes(bs)[c.position]
  {
    if c.current < |bs| {
      SizeBeforeGrows(bs, c.current + 1, |bs|);
      JoinedPrefix(bs, c.current + 1, |bs|);
      assert Joined(bs, c.current + 1)[c.position] == bs[c.current][c.offset];
    }
  }

  class BuffersIterator {
    const buffers: Buffers
    var current: nat
    var currentBuffer: seq<byte>
    var currentBufferPosition: nat
    var position: nat

    function Where(): Cursor
      reads this
    {
      Cursor(current, currentBufferPosition, position)
    }

    predicate Valid()
      reads this
    {
      && OnByteOrEnd(buffers, Where())
      && (current < |buffers| ==> currentBuffer == buffers[current])
    }

    constructor Begin(buffers: Buffers)
      ensures Valid() && this.buffers == buffers && position == 0
    {
      this.buffers := buffers;
      current, currentBuffer, currentBufferPosition, position := 0, [], 0, 0;
      new;
      SkipEmpty();
    }

    constructor End(buffers: Buffers)
      ensures Valid() && this.buffers == buffers && position == Total(buffers)
    {
      this.buffers := buffers;
      current, currentBuffer, currentBufferPosition, position := 0, [], 0, 0;
      new;
      while current != |buffers|
        invariant current <= |buffers| && currentBufferPosition == 0
        invariant position == SizeBefore(buffers, current)
        decreases |buffers| - current
      {
        position := position + |buffers[current]|;
        current := current + 1;
      }
    }

    /** Find the next non-empty buffer, starting with the current one. */
    method SkipEmpty()
      requires current <= |buffers| && currentBufferPosition == 0 && position == SizeBefore(buffers, current)
      modifies this
      ensures Valid() && position == old(position)
    {
      while current != |buffers|
        invariant current <= |buffers| && currentBufferPosition == 0 && position == old(position)
        invariant position == SizeBefore(buffers, current)
        decreases |buffers| - current
      {
        currentBuffer := buffers[current];
        if |currentBuffer| > 0 {
          return;
        }
        current := current + 1;
      }
    }

    method Dereference() returns (b: byte)
      requires Valid() && current != |buffers|
      ensures position < Total(buffers) && b == AllBytes(buffers)[position]
    {
      CursorOnByte(buffers, Where());
      b := currentBuffer[currentBufferPosition];
    }

    method Increment()
      requires Valid() && current != |buffers|
      modifies this
      ensures Valid() && Moves(buffers, old(Where()), 1, Where())
    {
      position := position + 1;
      currentBufferPosition := currentBufferPosition + 1;
      if currentBufferPosition != |currentBuffer| {
        return;
      }
      current := current + 1;
      currentBufferPosition := 0;
      SkipEmpty();
    }

    method Decrement()
      requires Valid() && position > 0
      modifies this
      ensures Valid() && Moves(buffers, old(Where()), -1, Where())
    {
      position := position - 1;
      if currentBufferPosition != 0 {
        currentBufferPosition := currentBufferPosition - 1;
        return;
      }
      var iter: nat := current;
      while iter != 0
        invariant iter <= current == old(current) && currentBufferPosition == 0
        invariant position + 1 == SizeBefore(buffers, iter)
        invariant currentBuffer == old(currentBuffer) && position == old(position) - 1
      {
        iter := iter - 1;
        var buffer := buffers[iter];
        if |buffer| > 0 {
          current, currentBuffer, currentBufferPosition := iter, buffer, |buffer| - 1;
          return;
        }
      }
    }

    /** Moves by `n` bytes in either direction; the bounds are those the code asserts. */
    method Advance(n: int)
      requires Valid() && 0 <= position + n <= Total(buffers)
      modifies this
      ensures Valid() && Moves(buffers, old(Where()), n, Where())
    {
      CursorOnByte(buffers, Where());
      if n > 0 {
        Forward(n);
      } else if n < 0 {
        Backward(-n);
      }
    }

    method Forward(distance: nat)
      requires Valid() && distance > 0 && position + distance <= Total(buffers) && current != |buffers|
      modifies this
      ensures Valid() && Moves(buffers, old(Where()), distance, Where())
    {
      var n: nat := distance;
      while true
        invariant current < |buffers| && currentBuffer == buffers[current]
        invariant currentBufferPosition <= |currentBuffer|
        invariant position == SizeBefore(buffers, current) + currentBufferPosition
        invariant position + n == old(position) + distance
        decreases |buffers| - current
      {
        var balance := |currentBuffer| - currentBufferPosition;
        if balance > n {
          position := position + n;
          currentBufferPosition := currentBufferPosition + n;
          return;
        }
        n := n - balance;
        position := position + balance;
        current := current + 1;
        if current == |buffers| {
          currentBuffer := [];
          currentBufferPosition := 0;
          return;
        }
        currentBuffer := buffers[current];
        currentBufferPosition := 0;
      }
    }

    /** The search for an earlier non-empty buffer always succeeds, because bytes are left before
        the current one; this is what makes the outer loop end. */
    method Backward(distance: nat)
      requires Valid() && 0 < distance <= position
      modifies this
      ensures Valid() && Moves(buffers, old(Where()), -(distance as int), Where())
    {
      var n: nat := distance;
      while true
        invariant current <= |buffers| && 0 < n <= position
        invariant if current < |buffers| then currentBuffer == buffers[current] && currentBufferPosition <= |currentBuffer|
                  else currentBufferPosition == 0
        invariant current < |buffers| && currentBufferPosition == |currentBuffer| ==> |currentBuffer| > 0
        invariant position == SizeBefore(buffers, current) + currentBufferPosition
        invariant position - n == old(position) - distance
        decreases current
      {
        if currentBufferPosition >= n {
          position := position - n;
          currentBufferPosition := currentBufferPosition - n;
          return;
        }
        n := n - currentBufferPosition;
        position := position - currentBufferPosition;
        if current == 0 {
          assert false;
        }
        ghost var start := current;
        var iter: nat := current;
        while iter != 0
          invariant iter <= current == start
          invariant position == SizeBefore(buffers, iter)
        {
          iter := iter - 1;
          var buffer := buffers[iter];
          if |buffer| > 0 {
            current, currentBuffer, currentBufferPosition := iter, buffer, |buffer|;
            break;
          }
        }
      }
    }

    /** `operator[]`: looks at a byte elsewhere through a copy and stays where it is. */
    method ByteAt(difference: int) returns (b: byte)
      requires Valid() && 0 <= position + difference < Total(buffers)
      ensures b == AllBytes(buffers)[position + difference]
    {
      var tmp := new BuffersIterator.CopyOf(this);
      tmp.Advance(difference);
      CursorOnByte(buffers, tmp.Where());
      b := tmp.Dereference();
    }

    constructor CopyOf(other: BuffersIterator)
      requires other.Valid()
      ensures Valid() && buffers == other.buffers && Where() == other.Where()
    {
      buffers := other.buffers;
      current, currentBuffer := other.current, other.currentBuffer;
      currentBufferPosition, position := other.currentBufferPosition, other.position;
    }

    /** `other - *this`: the distance by which to advance in order to meet `other`. */
    function DistanceTo(other: BuffersIterator): (n: int)
      requires Valid() && other.Valid() && buffers == other.buffers
      reads this, other
      ensures Moves(buffers, Where(), n, other.Where())
    {
      other.position - position
    }

    /** `operator==` compares positions only; on one list that is equality of cursors. */
    method Equal(other: BuffersIterator) returns (same: bool)
      requires Valid() && other.Valid() && buffers == other.buffers
      ensures same <==> Where() == other.Where()
    {
      same := position == other.position;
      if same { CursorIsUnique(buffers, Where(), other.Where()); }
    }
  }

  /** Iterating from `begin` to `end` visits exactly the bytes of the buffers, in order. */
  method CopyOut(buffers: Buffers) returns (bytes: seq<byte>)
    ensures bytes == AllBytes(buffers)
  {
    var iter := new BuffersIterator.Begin(buffers);
    var end := new BuffersIterator.End(buffers);
    bytes := [];
    while iter.position != end.position
      invariant iter.Valid() && iter.buffers == buffers && end.position == Total(buffers)
      invariant iter.position <= Total(buffers) && bytes == AllBytes(buffers)[..iter.position]
      decreases Total(buffers) - iter.position
    {
      CursorOnByte(buffers, iter.Where());
      var b := iter.Dereference();
      bytes := bytes + [b];
      iter.Increment();
    }
  }
}
