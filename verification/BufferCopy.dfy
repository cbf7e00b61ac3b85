/**
 `buffer_copy`: the family of scatter/gather copies. Memory is one array of bytes and a buffer
 is a region of it, so buffers may touch, be empty, or come in any order. As `memcpy` demands,
 no target region overlaps a source region or another target region.
 */
module BufferCopy {
  import opened Bytes

  /** `mutable_buffer` and `const_buffer`: where the bytes start and how many there are. */
  datatype Buffer = Buffer(data: nat, size: nat)

  type Memory = array<byte>

  /** `operator+`: skip `n` bytes, or all of them. */
  function Plus(b: Buffer, n: nat): Buffer {
    var offset := if n < b.size then n else b.size;
    Buffer(b.data + offset, b.size - offset)
  }

  /** `buffer(b, max)`: at most the first `max` bytes. */
  function Capped(b: Buffer, max: nat): Buffer {
    Buffer(b.data, if b.size < max then b.size else max)
  }

  /** The addresses of a buffer's bytes. */
  function Range(b: Buffer): (r: seq<nat>)
    ensures |r| == b.size
    ensures forall i :: 0 <= i < b.size ==> r[i] == b.data + i
  {
    seq(b.size, i requires 0 <= i < b.size => b.data + i)
  }

  /** The addresses of the bytes of the first `i` buffers, in order. */
  function AddressesBefore(bs: seq<Buffer>, i: nat): seq<nat>
    requires i <= |bs|
  {
    if i == 0 then [] else AddressesBefore(bs, i - 1) + Range(bs[i - 1])
  }

  /** The sizes of the first `i` buffers together. */
  function SizeBefore(bs: seq<Buffer>, i: nat): nat
    requires i <= |bs|
  {
    |AddressesBefore(bs, i)|
  }

  function Addresses(bs: seq<Buffer>): seq<nat> {
    AddressesBefore(bs, |bs|)
  }

  lemma {:induction false} AddressesPrefix(bs: seq<Buffer>, i: nat, j: nat)
    requires i <= j <= |bs|
    ensures AddressesBefore(bs, i) <= AddressesBefore(bs, j)
    decreases j
  {
    if i < j { AddressesPrefix(bs, i, j - 1); }
  }

  predicate Distinct(a: seq<nat>) {
    forall i, j :: 0 <= i < j < |a| ==> a[i] != a[j]
  }

  predicate Apart(a: seq<nat>, b: seq<nat>) {
    forall i, j :: 0 <= i < |a| && 0 <= j < |b| ==> a[i] != b[j]
  }

  /** What callers must guarantee about targets `t` and sources `s` in a memory of `size` bytes. */
  predicate Copyable(t: seq<nat>, s: seq<nat>, size: nat) {
    && (forall i :: 0 <= i < |t| ==> t[i] < size)
    && (forall i :: 0 <= i < |s| ==> s[i] < size)
    && Distinct(t) && Apart(t, s)
  }

  /** The flat specification: the first `n` target bytes become the first `n` source bytes, and
      every other byte of memory keeps its value. */
  predicate Copied(before: seq<byte>, after: seq<byte>, t: seq<nat>, s: seq<nat>, n: nat)
    requires Copyable(t, s, |before|)
  {
    && |after| == |before| && n <= |t| && n <= |s|
    && (forall i :: 0 <= i < n ==> after[t[i]] == before[s[i]])
    && (forall a :: 0 <= a < |before| && a !in t[..n] ==> after[a] == before[a])
  }

  /** The specification determines the result. So any two overloads called on buffers with the
      same bytes, and with caps that allow the same count, leave the same memory. */
  lemma CopyIsDetermined(before: seq<byte>, x: seq<byte>, y: seq<byte>, t: seq<nat>, s: seq<nat>, n: nat)
    requires Copyable(t, s, |before|)
    requires Copied(before, x, t, s, n) && Copied(before, y, t, s, n)
    ensures x == y
  {
    forall a | 0 <= a < |before| ensures x[a] == y[a] {
      if a in t[..n] {
        var i :| 0 <= i < n && t[i] == a;
      }
    }
  }

  /** The bytes at a list of addresses: what a list of buffers shows of a memory. */
  function Gather(m: seq<byte>, a: seq<nat>): seq<byte>
    requires forall i :: 0 <= i < |a| ==> a[i] < |m|
  {
    seq(|a|, i requires 0 <= i < |a| => m[a[i]])
  }

  /** What the specification means for whole lists of buffers: the concatenated targets now begin
      with the beginning of the concatenated sources and go on as before; the sources are intact. */
  lemma CopyJoined(before: seq<byte>, after: seq<byte>, t: seq<nat>, s: seq<nat>, n: nat)
    requires Copyable(t, s, |before|) && Copied(before, after, t, s, n)
    ensures Gather(after, t) == Gather(before, s)[..n] + Gather(before, t)[n..]
    ensures Gather(after, s) == Gather(before, s)
  {
    forall i | n <= i < |t| ensures after[t[i]] == before[t[i]] {
      assert t[i] !in t[..n];
    }
    forall i | 0 <= i < |s| ensures after[s[i]] == before[s[i]] {
      assert s[i] !in t[..n];
    }
  }

  /** One more piece of `k` bytes, copied on top of `n` bytes already copied. */
  lemma CopiedExtends(m0: seq<byte>, m1: seq<byte>, m2: seq<byte>, t: seq<nat>, s: seq<nat>, n: nat, k: nat)
    requires Copyable(t, s, |m0|) && Copied(m0, m1, t, s, n) && |m2| == |m0|
    requires n + k <= |t| && n + k <= |s|
    requires forall i :: n <= i < n + k ==> m2[t[i]] == m1[s[i]]
    requires forall a :: 0 <= a < |m0| && a !in t[n..n + k] ==> m2[a] == m1[a]
    ensures Copied(m0, m2, t, s, n + k)
  {
    forall i | 0 <= i < n + k ensures m2[t[i]] == m0[s[i]] {
      if i < n {
        assert t[i] !in t[n..n + k];
      } else {
        assert s[i] !in t[..n];
      }
    }
    forall a | 0 <= a < |m0| && a !in t[..n + k] ensures m2[a] == m0[a] {
      assert t[..n + k] == t[..n] + t[n..n + k];
    }
  }

  /** A piece given as two regions is a piece of the two address lists. */
  predicate PieceAt(a: seq<nat>, n: nat, b: Buffer) {
    n + b.size <= |a| && a[n..n + b.size] == Range(b)
  }

  lemma PieceIndex(a: seq<nat>, n: nat, b: Buffer, i: nat)
    requires PieceAt(a, n, b) && i < b.size
    ensures a[n + i] == b.data + i
  {
    assert a[n..n + b.size][i] == Range(b)[i];
  }

  /** `buffer_copy_1`: one `memcpy` of the smaller size. It is called here for the pieces at
      position `done` of a larger copy from `t` to `s` that began in memory `m0`. */
  method CopyOne(mem: Memory, target: Buffer, source: Buffer,
                 ghost m0: seq<byte>, ghost t: seq<nat>, ghost s: seq<nat>, ghost done: nat)
    returns (n: nat)
    requires |m0| == mem.Length && Copyable(t, s, |m0|) && Copied(m0, mem[..], t, s, done)
    requires PieceAt(t, done, target) && PieceAt(s, done, source)
    modifies mem
    ensures n == Min(target.size, source.size)
    ensures Copied(m0, mem[..], t, s, done + n)
  {
    n := if target.size < source.size then target.size else source.size;
    ghost var m1 := mem[..];
    InBounds(t, s, |m0|, done, target, source);
    if n > 0 {
      forall i | 0 <= i < n {
        mem[target.data + i] := mem[source.data + i];
      }
    }
    PieceCopied(m0, m1, mem[..], t, s, done, target, source, n);
  }

  lemma InRange(b: Buffer, n: nat, a: nat)
    requires n <= b.size
    ensures a in Range(b)[..n] <==> b.data <= a < b.data + n
  {
    if b.data <= a < b.data + n { assert Range(b)[..n][a - b.data] == a; }
  }

  /** A `memcpy` of `n` bytes between two pieces extends the larger copy by `n` bytes. */
  lemma PieceCopied(m0: seq<byte>, m1: seq<byte>, m2: seq<byte>, t: seq<nat>, s: seq<nat>, done: nat,
                    target: Buffer, source: Buffer, n: nat)
    requires Copyable(t, s, |m0|) && Copied(m0, m1, t, s, done) && |m2| == |m0|
    requires PieceAt(t, done, target) && PieceAt(s, done, source)
    requires n <= target.size && n <= source.size
    requires n > 0 ==> target.data + n <= |m0| && source.data + n <= |m0|
    requires forall a {:trigger m2[a]} :: 0 <= a < |m0| ==>
               m2[a] == if target.data <= a < target.data + n then m1[source.data + (a - target.data)] else m1[a]
    ensures Copied(m0, m2, t, s, done + n)
  {
    forall i | done <= i < done + n ensures m2[t[i]] == m1[s[i]] {
      PieceIndex(t, done, target, i - done);
      PieceIndex(s, done, source, i - done);
    }
    assert t[done..done + n] == t[done..done + target.size][..n] == Range(target)[..n];
    forall a | 0 <= a < |m0| && a !in t[done..done + n] ensures m2[a] == m1[a] {
      InRange(target, n, a);
      assert !(target.data <= a < target.data + n);
    }
    CopiedExtends(m0, m1, m2, t, s, done, n);
  }

  lemma InBounds(t: seq<nat>, s: seq<nat>, size: nat, done: nat, target: Buffer, source: Buffer)
    requires Copyable(t, s, size) && PieceAt(t, done, target) && PieceAt(s, done, source)
    ensures target.size > 0 ==> target.data + target.size <= size
    ensures source.size > 0 ==> source.data + source.size <= size
  {
    if target.size > 0 { assert t[done + (target.size - 1)] == Range(target)[target.size - 1]; }
    if source.size > 0 { assert s[done + (source.size - 1)] == Range(source)[source.size - 1]; }
  }

  /** `operator+` leaves the piece of the address list that follows the first `k` bytes of buffer
      `i`, or an empty piece at the buffer's end if it has no more than `k` bytes. */
  lemma RestIsPiece(bs: seq<Buffer>, i: nat, k: nat)
    requires i < |bs|
    ensures PieceAt(Addresses(bs), SizeBefore(bs, i) + Min(k, bs[i].size), Plus(bs[i], k))
    ensures Plus(bs[i], k).size == bs[i].size - Min(k, bs[i].size)
  {
    AddressesPrefix(bs, i + 1, |bs|);
    var a, n, offset := Addresses(bs), SizeBefore(bs, i), Min(k, bs[i].size);
    assert a[n..n + bs[i].size] == AddressesBefore(bs, i + 1)[n..] == Range(bs[i]);
    assert a[n + offset..n + bs[i].size] == a[n..n + bs[i].size][offset..] == Range(Plus(bs[i], k));
  }

  /** An index into a list of buffers and an offset into that buffer, `total` bytes in. */
  predicate At(bs: seq<Buffer>, i: nat, offset: nat, total: nat) {
    i <= |bs| && total == SizeBefore(bs, i) + offset && if i < |bs| then offset <= bs[i].size else offset == 0
  }

  /** The position after `n` more bytes of buffer `i`. */
  lemma AtAdvances(bs: seq<Buffer>, i: nat, offset: nat, total: nat, n: nat)
    requires At(bs, i, offset, total) && i < |bs| && n <= Plus(bs[i], offset).size
    ensures if n == Plus(bs[i], offset).size then At(bs, i + 1, 0, total + n) else At(bs, i, offset + n, total + n)
  {
  }

  lemma AtIsWithin(bs: seq<Buffer>, i: nat, offset: nat, total: nat)
    requires At(bs, i, offset, total)
    ensures total <= |Addresses(bs)| && (i == |bs| ==> total == |Addresses(bs)|)
  {
    if i < |bs| { AddressesPrefix(bs, i + 1, |bs|); }
  }

  lemma BufferIsPiece(bs: seq<Buffer>, i: nat)
    requires i < |bs|
    ensures PieceAt(Addresses(bs), SizeBefore(bs, i), bs[i])
  {
    RestIsPiece(bs, i, 0);
  }

  /** A piece of `n` bytes, taken from the start of buffer `i`, ends within it or at its end. */
  lemma WithinBuffer(bs: seq<Buffer>, i: nat, n: nat)
    requires i < |bs| && n <= bs[i].size
    ensures SizeBefore(bs, i + 1) == SizeBefore(bs, i) + bs[i].size
    ensures SizeBefore(bs, i) + n <= SizeBefore(bs, i + 1) <= |Addresses(bs)|
  {
    AddressesPrefix(bs, i + 1, |bs|);
  }

  lemma PositionIsPiece(bs: seq<Buffer>, i: nat, offset: nat, total: nat)
    requires At(bs, i, offset, total) && i < |bs|
    ensures PieceAt(Addresses(bs), total, Plus(bs[i], offset)) && Plus(bs[i], offset).size == bs[i].size - offset
  {
    RestIsPiece(bs, i, offset);
  }

  lemma CappedIsPiece(a: seq<nat>, n: nat, b: Buffer, max: nat)
    requires PieceAt(a, n, b)
    ensures PieceAt(a, n, Capped(b, max))
  {
    var c := Capped(b, max);
    assert a[n..n + c.size] == a[n..n + b.size][..c.size] == Range(c);
  }

  /** What is left of the first `m` bytes of a buffer after `n` of them. */
  lemma RestOfBuffer(b: Buffer, n: nat, m: nat)
    requires n <= m <= b.size
    ensures PieceAt(Range(b), n, Buffer(b.data + n, m - n))
  {
  }

  lemma OneBuffer(b: Buffer)
    ensures Addresses([b]) == Range(b) && SizeBefore([b], 1) == b.size
  {
    assert AddressesBefore([b], 0) == [];
  }

  /** A one-buffer copy and a many-buffer copy of the same two buffers agree in count and memory
      whenever the cap is no smaller than the data. */
  lemma SingletonsAgree(before: seq<byte>, x: seq<byte>, y: seq<byte>, target: Buffer, source: Buffer,
                        n: nat, total: nat, max: nat)
    requires Copyable(Range(target), Range(source), |before|) && Copyable(Addresses([target]), Addresses([source]), |before|)
    requires n == Min(target.size, source.size) && Copied(before, x, Range(target), Range(source), n)
    requires total == Min(Min(|Addresses([target])|, |Addresses([source])|), max)
    requires Copied(before, y, Addresses([target]), Addresses([source]), total)
    ensures n <= max ==> n == total && x == y
    ensures n == total <==> n <= max
  {
    OneBuffer(target);
    OneBuffer(source);
    if n <= max { CopyIsDetermined(before, x, y, Range(target), Range(source), n); }
  }

  /** `buffer_size` of a sequence. */
  method BufferSize(bs: seq<Buffer>) returns (total: nat)
    ensures total == |Addresses(bs)|
  {
    total := 0;
    for i := 0 to |bs|
      invariant total == SizeBefore(bs, i)
    {
      total := total + bs[i].size;
    }
  }

  // Every overload meets the same flat specification.

  method OneToOne(mem: Memory, target: Buffer, source: Buffer) returns (n: nat)
    requires Copyable(Range(target), Range(source), mem.Length)
    modifies mem
    ensures n == Min(target.size, source.size)
    ensures Copied(old(mem[..]), mem[..], Range(target), Range(source), n)
  {
    n := CopyOne(mem, target, source, mem[..], Range(target), Range(source), 0);
  }

  method OneToOneCapped(mem: Memory, target: Buffer, source: Buffer, max: nat) returns (n: nat)
    requires Copyable(Range(target), Range(source), mem.Length)
    modifies mem
    ensures n == Min(Min(target.size, source.size), max)
    ensures Copied(old(mem[..]), mem[..], Range(target), Range(source), n)
  {
    CappedIsPiece(Range(source), 0, source, max);
    n := CopyOne(mem, target, Capped(source, max), mem[..], Range(target), Range(source), 0);
  }

  method ManyToOne(mem: Memory, target: Buffer, sources: seq<Buffer>, max: nat) returns (total: nat)
    requires Copyable(Range(target), Addresses(sources), mem.Length)
    modifies mem
    ensures total == Min(Min(target.size, |Addresses(sources)|), max)
    ensures Copied(old(mem[..]), mem[..], Range(target), Addresses(sources), total)
  {
    ghost var m0, t, s := mem[..], Range(target), Addresses(sources);
    total := 0;
    var i := 0;
    var rest := Capped(target, max);
    while rest.size != 0 && i != |sources|
      invariant i <= |sources| && total <= SizeBefore(sources, i)
      invariant total <= Min(target.size, max) && rest == Buffer(target.data + total, Min(target.size, max) - total)
      invariant rest.size == 0 || total == SizeBefore(sources, i)
      invariant total <= |s| && Copied(m0, mem[..], t, s, total)
      decreases |sources| - i
    {
      BufferIsPiece(sources, i);
      RestOfBuffer(target, total, Min(target.size, max));
      var n := CopyOne(mem, rest, sources[i], m0, t, s, total);
      WithinBuffer(sources, i, n);
      total := total + n;
      rest := Plus(rest, n);
      i := i + 1;
    }
  }

  method OneToMany(mem: Memory, targets: seq<Buffer>, source: Buffer, max: nat) returns (total: nat)
    requires Copyable(Addresses(targets), Range(source), mem.Length)
    modifies mem
    ensures total == Min(Min(|Addresses(targets)|, source.size), max)
    ensures Copied(old(mem[..]), mem[..], Addresses(targets), Range(source), total)
  {
    ghost var m0, t, s := mem[..], Addresses(targets), Range(source);
    total := 0;
    var i := 0;
    var rest := Capped(source, max);
    while rest.size != 0 && i != |targets|
      invariant i <= |targets| && total <= SizeBefore(targets, i)
      invariant total <= Min(source.size, max) && rest == Buffer(source.data + total, Min(source.size, max) - total)
      invariant rest.size == 0 || total == SizeBefore(targets, i)
      invariant total <= |t| && Copied(m0, mem[..], t, s, total)
      decreases |targets| - i
    {
      BufferIsPiece(targets, i);
      RestOfBuffer(source, total, Min(source.size, max));
      var n := CopyOne(mem, targets[i], rest, m0, t, s, total);
      WithinBuffer(targets, i, n);
      total := total + n;
      rest := Plus(rest, n);
      i := i + 1;
    }
  }

  method ManyToMany(mem: Memory, targets: seq<Buffer>, sources: seq<Buffer>) returns (total: nat)
    requires Copyable(Addresses(targets), Addresses(sources), mem.Length)
    modifies mem
    ensures total == Min(|Addresses(targets)|, |Addresses(sources)|)
    ensures Copied(old(mem[..]), mem[..], Addresses(targets), Addresses(sources), total)
  {
    ghost var m0, t, s := mem[..], Addresses(targets), Addresses(sources);
    total := 0;
    var i, targetOffset := 0, 0;
    var j, sourceOffset := 0, 0;
    while i != |targets| && j != |sources|
      invariant At(targets, i, targetOffset, total) && At(sources, j, sourceOffset, total)
      invariant Copied(m0, mem[..], t, s, total)
      decreases |targets| - i + |sources| - j
    {
      var target := Plus(targets[i], targetOffset);
      var source := Plus(sources[j], sourceOffset);
      PositionIsPiece(targets, i, targetOffset, total);
      PositionIsPiece(sources, j, sourceOffset, total);
      var n := CopyOne(mem, target, source, m0, t, s, total);
      AtAdvances(targets, i, targetOffset, total, n);
      AtAdvances(sources, j, sourceOffset, total, n);
      total := total + n;
      if n == target.size { i, targetOffset := i + 1, 0; } else { targetOffset := targetOffset + n; }
      if n == source.size { j, sourceOffset := j + 1, 0; } else { sourceOffset := sourceOffset + n; }
    }
    AtIsWithin(targets, i, targetOffset, total);
    AtIsWithin(sources, j, sourceOffset, total);
  }

  /** The copy of one iteration below: at most `limit` bytes from the one position to the other. */
  method CopyAt(mem: Memory, targets: seq<Buffer>, i: nat, targetOffset: nat, sources: seq<Buffer>, j: nat,
                sourceOffset: nat, limit: nat, ghost m0: seq<byte>, ghost total: nat)
    returns (n: nat)
    requires |m0| == mem.Length && Copyable(Addresses(targets), Addresses(sources), |m0|)
    requires Copied(m0, mem[..], Addresses(targets), Addresses(sources), total)
    requires i < |targets| && At(targets, i, targetOffset, total) && j < |sources| && At(sources, j, sourceOffset, total)
    modifies mem
    ensures n == Min(Plus(targets[i], targetOffset).size, Min(Plus(sources[j], sourceOffset).size, limit))
    ensures Copied(m0, mem[..], Addresses(targets), Addresses(sources), total + n)
  {
    var target := Plus(targets[i], targetOffset);
    var source := Plus(sources[j], sourceOffset);
    PositionIsPiece(targets, i, targetOffset, total);
    PositionIsPiece(sources, j, sourceOffset, total);
    CappedIsPiece(Addresses(sources), total, source, limit);
    n := CopyOne(mem, target, Capped(source, limit), m0, Addresses(targets), Addresses(sources), total);
  }

  method ManyToManyCapped(mem: Memory, targets: seq<Buffer>, sources: seq<Buffer>, max: nat) returns (total: nat)
    requires Copyable(Addresses(targets), Addresses(sources), mem.Length)
    modifies mem
    ensures total == Min(Min(|Addresses(targets)|, |Addresses(sources)|), max)
    ensures Copied(old(mem[..]), mem[..], Addresses(targets), Addresses(sources), total)
  {
    ghost var m0 := mem[..];
    total := 0;
    var i, targetOffset := 0, 0;
    var j, sourceOffset := 0, 0;
    while total != max && i != |targets| && j != |sources|
      invariant At(targets, i, targetOffset, total) && At(sources, j, sourceOffset, total) && total <= max
      invariant Copied(m0, mem[..], Addresses(targets), Addresses(sources), total)
      decreases |targets| - i + |sources| - j, max - total
    {
      var n := CopyAt(mem, targets, i, targetOffset, sources, j, sourceOffset, max - total, m0, total);
      AtAdvances(targets, i, targetOffset, total, n);
      AtAdvances(sources, j, sourceOffset, total, n);
      total := total + n;
      if n == Plus(targets[i], targetOffset).size {
        i, targetOffset := i + 1, 0;
      } else {
        targetOffset := targetOffset + n;
      }
      if n == Plus(sources[j], sourceOffset).size {
        j, sourceOffset := j + 1, 0;
      } else {
        sourceOffset := sourceOffset + n;
      }
    }
    AtIsWithin(targets, i, targetOffset, total);
    AtIsWithin(sources, j, sourceOffset, total);
  }
}
