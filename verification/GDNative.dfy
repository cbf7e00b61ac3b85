/**
 `NetNode`: the script-facing packet writer and reader. Values are pushed on the end of the
 body and read back from its end, so a reader has to ask for them in reverse order.
 */
module GDNative {
  import opened Bytes
  import opened NetPacket
  import TCP = NetTCPConnection
  import Q = NetQueue

  const MAX_LEN: nat := 5120

  /** A double is its eight bytes; a string is its characters, one byte each. */
  datatype Value = Short(n: u16) | Long(m: u32) | LongLong(l: u64) | Double(bits: u64) | Text(chars: seq<byte>)

  datatype Kind = AShort | ALong | ALongLong | ADouble | AText

  function KindOf(v: Value): Kind {
    match v
    case Short(_) => AShort
    case Long(_) => ALong
    case LongLong(_) => ALongLong
    case Double(_) => ADouble
    case Text(_) => AText
  }

  /** Strings a reader can take: no NUL inside, and short enough for the local buffer. */
  predicate Readable(v: Value) {
    v.Text? ==> 0 !in v.chars && |v.chars| < MAX_LEN
  }

  /** The bytes a value adds to the body: a string is preceded by a NUL. */
  function Image(v: Value): seq<byte> {
    match v
    case Short(n) => Le16(n)
    case Long(m) => Le32(m)
    case LongLong(l) => Le64(l)
    case Double(b) => Le64(b)
    case Text(s) => [0] + s
  }

  function Write(p: Packet, v: Value): Packet {
    Push(p, Image(v))
  }

  /** The number that a numeric value stands for, a double by its bits. */
  function Numeral(v: Value): nat
    requires !v.Text?
  {
    match v
    case Short(n) => n
    case Long(m) => m
    case LongLong(l) => l
    case Double(b) => b
  }

  /** What every write does to the packet: command and padding stay, the size field becomes the new
      length cut to 32 bits, and behind the old body come a NUL and the characters of a string, or
      the 2, 4 or 8 bytes of a number, lowest first. */
  lemma WriteLayout(p: Packet, v: Value, i: nat)
    ensures var q := Write(p, v);
            && q.header.cmdID == p.header.cmdID && q.header.padding == p.header.padding
            && q.header.size == |q.body| % 0x1_0000_0000 && q.body[..|p.body|] == p.body
            && (v.Text? ==> q.body == p.body + [0] + v.chars)
            && (v.Short? ==> |q.body| == |p.body| + 2)
            && (v.Long? ==> |q.body| == |p.body| + 4)
            && (v.LongLong? || v.Double? ==> |q.body| == |p.body| + 8)
            && (!v.Text? && |p.body| + i < |q.body| ==> q.body[|p.body| + i] == Numeral(v) / Capacity(i) % 0x100)
  {
    if !v.Text? && i < |Image(v)| {
      LittleEndian(Numeral(v), |Image(v)|, i);
      assert Image(v) == ToLe(Numeral(v), |Image(v)|);
    }
  }

  /** The number of bytes after the last NUL. */
  function TailLength(body: seq<byte>): (n: nat)
    requires 0 in body
    ensures n < |body| && body[|body| - 1 - n] == 0 && 0 !in body[|body| - n..]
  {
    if body[|body| - 1] == 0 then 0 else 1 + TailLength(body[..|body| - 1])
  }

  /** The last NUL is found, so the tail length is determined by what surrounds it. */
  lemma {:induction false} TailIsUnique(body: seq<byte>, n: nat)
    requires n < |body| && body[|body| - 1 - n] == 0 && 0 !in body[|body| - n..]
    ensures 0 in body && TailLength(body) == n
    decreases |body|
  {
    if n > 0 {
      var init := body[..|body| - 1];
      var tail := body[|body| - n..];
      assert tail[n - 1] == body[|body| - 1];
      assert init[|init| - (n - 1)..] == body[|body| - n..|body| - 1] == tail[..n - 1];
      TailIsUnique(init, n - 1);
    }
  }

  /** What a read yields; `Undefined` stands for the reads whose C++ has no meaning: too few
      bytes, no NUL at all, or a string that overruns the local buffer. */
  datatype Outcome = Undefined | Got(value: Value, rest: Packet)

  function Width(k: Kind): nat {
    match k
    case AShort => 2
    case ALong => 4
    case ALongLong => 8
    case ADouble => 8
    case AText => 0
  }

  /** The number of the given kind that some bytes represent. */
  function Number(k: Kind, s: seq<byte>): Value
    requires k != AText && |s| == Width(k)
  {
    match k
    case AShort => Short(To16(s))
    case ALong => Long(To32(s))
    case ALongLong => LongLong(To64(s))
    case ADouble => Double(To64(s))
  }

  /** `ReadString` drops the characters and their NUL but leaves the size field alone. */
  function ReadText(p: Packet): Outcome {
    if 0 !in p.body then Undefined else
    var n := TailLength(p.body);
    if n >= MAX_LEN then Undefined
    else Got(Text(p.body[|p.body| - n..]), p.(body := p.body[..|p.body| - n - 1]))
  }

  function Read(p: Packet, k: Kind): Outcome {
    if k == AText then ReadText(p)
    else if |p.body| < Width(k) then Undefined
    else Got(Number(k, Top(p, Width(k))), Pop(p, Width(k)))
  }

  lemma NumberOfImage(v: Value)
    requires !v.Text?
    ensures |Image(v)| == Width(KindOf(v)) && Number(KindOf(v), Image(v)) == v
  {
    match v {
      case Short(n) => RoundTrip16(n, Le16(n));
      case Long(m) => RoundTrip32(m, Le32(m));
      case LongLong(l) => RoundTrip64(l, Le64(l));
      case Double(b) => RoundTrip64(b, Le64(b));
    }
  }

  lemma TextOfImage(body: seq<byte>, s: seq<byte>)
    requires 0 !in s
    ensures var b := body + ([0] + s); 0 in b && TailLength(b) == |s| && b[|b| - |s|..] == s && b[..|b| - |s| - 1] == body
  {
    var b := body + ([0] + s);
    assert b[|b| - |s|..] == s;
    TailIsUnique(b, |s|);
  }

  lemma ReadUndoesText(p: Packet, s: seq<byte>)
    requires 0 !in s && |s| < MAX_LEN
    ensures var q := Write(p, Text(s)); ReadText(q) == Got(Text(s), Packet(q.header, p.body))
  {
    TextOnTop(Write(p, Text(s)), p.body, s);
  }

  lemma TextOnTop(q: Packet, body: seq<byte>, s: seq<byte>)
    requires q.body == body + ([0] + s) && 0 !in s && |s| < MAX_LEN
    ensures ReadText(q) == Got(Text(s), Packet(q.header, body))
  {
    TextOfImage(body, s);
    TextAt(q, body, s);
  }

  lemma TextAt(q: Packet, body: seq<byte>, s: seq<byte>)
    requires 0 in q.body && TailLength(q.body) == |s| < MAX_LEN
    requires q.body[|q.body| - |s|..] == s && q.body[..|q.body| - |s| - 1] == body
    ensures ReadText(q) == Got(Text(s), Packet(q.header, body))
  {
  }

  lemma ReadUndoesNumber(p: Packet, v: Value)
    requires !v.Text?
    ensures var k := KindOf(v);
            Width(k) <= |Write(p, v).body| && Number(k, Top(Write(p, v), Width(k))) == v
            && Pop(Write(p, v), Width(k)) == Packet(p.header.(size := PacketLen(p.body)), p.body)
  {
    PopPush(p, Image(v));
    NumberOfImage(v);
  }

  lemma NumberRead(q: Packet, k: Kind)
    requires k != AText && |q.body| >= Width(k)
    ensures Read(q, k) == Got(Number(k, Top(q, Width(k))), Pop(q, Width(k)))
  {
  }

  /** Reading undoes the last write: the value comes back and the body is restored, even when
      the body before it holds NULs of its own. */
  lemma ReadUndoesWrite(p: Packet, v: Value)
    requires Readable(v)
    ensures var o := Read(Write(p, v), KindOf(v));
            o.Got? && o.value == v && o.rest.body == p.body
            && o.rest.header == if v.Text? then Write(p, v).header else p.header.(size := PacketLen(p.body))
  {
    if v.Text? {
      ReadUndoesText(p, v.chars);
    } else {
      ReadUndoesNumber(p, v);
      NumberRead(Write(p, v), KindOf(v));
    }
  }

  function WriteAll(p: Packet, vs: seq<Value>): Packet {
    if vs == [] then p else Write(WriteAll(p, vs[..|vs| - 1]), vs[|vs| - 1])
  }

  datatype Outcomes = AllUndefined | AllGot(values: seq<Value>, rest: Packet)

  /** Reads values of the given kinds, last kind first. */
  function ReadAll(p: Packet, ks: seq<Kind>): Outcomes
    decreases |ks|
  {
    if ks == [] then AllGot([], p) else
    match Read(p, ks[|ks| - 1])
    case Undefined => AllUndefined
    case Got(v, rest) =>
      match ReadAll(rest, ks[..|ks| - 1])
      case AllUndefined => AllUndefined
      case AllGot(vs, last) => AllGot(vs + [v], last)
  }

  function Kinds(vs: seq<Value>): seq<Kind> {
    seq(|vs|, i requires 0 <= i < |vs| => KindOf(vs[i]))
  }

  lemma ReadBody(p: Packet, q: Packet, k: Kind)
    requires p.body == q.body
    ensures var a, b := Read(p, k), Read(q, k);
            a.Undefined? == b.Undefined? && (a.Got? ==> a.value == b.value && a.rest.body == b.rest.body)
  {
  }

  /** Reading depends on the body only; the size field just travels along. */
  lemma {:induction false} ReadAllBody(p: Packet, q: Packet, ks: seq<Kind>)
    requires p.body == q.body
    ensures var a, b := ReadAll(p, ks), ReadAll(q, ks);
            a.AllUndefined? == b.AllUndefined?
            && (a.AllGot? ==> a.values == b.values && a.rest.body == b.rest.body)
    decreases |ks|
  {
    if ks != [] {
      var k := ks[|ks| - 1];
      ReadBody(p, q, k);
      if Read(p, k).Got? { ReadAllBody(Read(p, k).rest, Read(q, k).rest, ks[..|ks| - 1]); }
    }
  }

  lemma KindsLast(vs: seq<Value>)
    requires vs != []
    ensures Kinds(vs) == Kinds(vs[..|vs| - 1]) + [KindOf(vs[|vs| - 1])]
    ensures vs == vs[..|vs| - 1] + [vs[|vs| - 1]]
  {
  }

  lemma ReadAllLast(p: Packet, ks: seq<Kind>, k: Kind)
    requires Read(p, k).Got? && ReadAll(Read(p, k).rest, ks).AllGot?
    ensures var o := ReadAll(Read(p, k).rest, ks);
            ReadAll(p, ks + [k]) == AllGot(o.values + [Read(p, k).value], o.rest)
  {
    assert (ks + [k])[..|ks|] == ks;
  }

  /** Round trip: any list of values written onto any body is read back, in reverse order,
      completely, and the original body is restored. */
  lemma {:induction false} ReadAllUndoesWriteAll(p: Packet, vs: seq<Value>)
    requires forall v :: v in vs ==> Readable(v)
    ensures var o := ReadAll(WriteAll(p, vs), Kinds(vs));
            o.AllGot? && o.values == vs && o.rest.body == p.body
    decreases |vs|
  {
    if vs != [] {
      var init, last := vs[..|vs| - 1], vs[|vs| - 1];
      assert last in vs;
      KindsLast(vs);
      ReadUndoesWrite(WriteAll(p, init), last);
      ReadAllUndoesWriteAll(p, init);
      var rest := Read(WriteAll(p, vs), KindOf(last)).rest;
      ReadAllBody(rest, WriteAll(p, init), Kinds(init));
      ReadAllLast(WriteAll(p, vs), Kinds(init), KindOf(last));
    }
  }

  /** Every write leaves a framed packet if the body fits in 32 bits. */
  lemma WritesFrame(p: Packet, vs: seq<Value>)
    requires vs != [] && |WriteAll(p, vs).body| < 0x1_0000_0000
    ensures Framed(WriteAll(p, vs))
  {
    FramingRestored(WriteAll(p, vs[..|vs| - 1]), Image(vs[|vs| - 1]), 0);
  }

  /** A number read refreshes the size field and so frames the packet, whatever the field held
      before; a string read leaves the field alone and makes the body shorter. */
  lemma ReadFraming(p: Packet, k: Kind)
    requires |p.body| < 0x1_0000_0000 && Read(p, k).Got?
    ensures var q := Read(p, k).rest;
            && |q.body| <= |p.body|
            && (k != AText ==> Framed(q))
            && (k == AText ==> q.header == p.header && |q.body| < |p.body|)
  {
    if k != AText { FramingRestored(p, [], Width(k)); }
  }

  lemma LastRead(p: Packet, ks: seq<Kind>)
    requires ks != [] && ReadAll(p, ks).AllGot?
    ensures var n := |ks| - 1;
            && Read(p, ks[n]).Got? && ReadAll(Read(p, ks[n]).rest, ks[..n]).AllGot?
            && ReadAll(p, ks).rest == ReadAll(Read(p, ks[n]).rest, ks[..n]).rest
  {
  }

  predicate OnlyText(ks: seq<Kind>) {
    forall i :: 0 <= i < |ks| ==> ks[i] == AText
  }

  /** Where the `n`-th NUL from the end of a body is: the length left when `n` strings were read. */
  function NulFromEnd(body: seq<byte>, n: nat): nat {
    if n == 0 || 0 !in body then |body| else NulFromEnd(body[..|body| - TailLength(body) - 1], n - 1)
  }

  lemma TextRest(p: Packet)
    requires Read(p, AText).Got?
    ensures var q := Read(p, AText).rest;
            0 in p.body && q == Packet(p.header, p.body[..|p.body| - TailLength(p.body) - 1])
  {
  }

  lemma NulStep(body: seq<byte>, n: nat)
    requires n > 0 && 0 in body
    ensures NulFromEnd(body, n) == NulFromEnd(body[..|body| - TailLength(body) - 1], n - 1)
  {
  }

  /** A packet of which strings only were read keeps its size field and is cut at a NUL. */
  lemma {:induction false} ReadTexts(p: Packet, ks: seq<Kind>)
    requires ks != [] && OnlyText(ks) && ReadAll(p, ks).AllGot?
    ensures var q := ReadAll(p, ks).rest; q.header == p.header && |q.body| == NulFromEnd(p.body, |ks|) < |p.body|
    decreases |ks|
  {
    var n := |ks| - 1;
    var q := Read(p, ks[n]).rest;
    LastRead(p, ks);
    TextRest(p);
    NulStep(p.body, |ks|);
    if n > 0 {
      ReadTexts(q, ks[..n]);
    }
  }

  /** If the last read is a number, the packet it leaves is framed. */
  lemma {:induction false} NumberLastFrames(p: Packet, ks: seq<Kind>)
    requires |p.body| < 0x1_0000_0000 && ks != [] && ReadAll(p, ks).AllGot? && ks[0] != AText
    ensures Framed(ReadAll(p, ks).rest)
    decreases |ks|
  {
    var n := |ks| - 1;
    ReadFraming(p, ks[n]);
    if n > 0 { NumberLastFrames(Read(p, ks[n]).rest, ks[..n]); }
  }

  /** If the last read is a string, after some number, the packet it leaves is not framed. */
  lemma {:induction false} TextAfterNumber(p: Packet, ks: seq<Kind>)
    requires |p.body| < 0x1_0000_0000 && ks != [] && ReadAll(p, ks).AllGot? && ks[0] == AText && !OnlyText(ks)
    ensures !Framed(ReadAll(p, ks).rest)
    decreases |ks|
  {
    var n := |ks| - 1;
    LastRead(p, ks);
    var q, init := Read(p, ks[n]).rest, ks[..n];
    ReadFraming(p, ks[n]);
    if OnlyText(init) {
      assert ks[n] != AText && Framed(q);
      ReadTexts(q, init);
    } else {
      TextAfterNumber(q, init);
    }
  }

  /** Exactly when reading everything back leaves a framed packet, whatever the size field of the
      packet read was: when the read that came last, the one for the first value written, was not
      a string, or when nothing but strings was read and the field told in advance where the NUL
      of the last of them is. */
  lemma ReadBackFramedIff(p: Packet, ks: seq<Kind>)
    requires |p.body| < 0x1_0000_0000 && ks != [] && ReadAll(p, ks).AllGot?
    ensures Framed(ReadAll(p, ks).rest) <==>
            ks[0] != AText || (OnlyText(ks) && p.header.size == NulFromEnd(p.body, |ks|))
  {
    if ks[0] != AText {
      NumberLastFrames(p, ks);
    } else if OnlyText(ks) {
      ReadTexts(p, ks);
    } else {
      TextAfterNumber(p, ks);
    }
  }

  /** `PreparePacket` clears the body and keeps the size field. */
  function Cleared(p: Packet): Packet {
    p.(body := [])
  }

  /** A cleared packet may be sent as it is exactly when its size field was zero before; writing
      any value first always repairs it. */
  lemma ClearedFraming(p: Packet, v: Value)
    ensures Framed(Cleared(p)) <==> p.header.size == 0
    ensures |Image(v)| < 0x1_0000_0000 ==> Framed(Write(Cleared(p), v))
  {
    FramingRestored(Cleared(p), Image(v), 0);
  }

  // ---------- the node ----------

  /** What a `String(char*)` constructor takes from a buffer: everything before the first NUL. */
  function CString(s: seq<byte>): seq<byte> {
    if s == [] || s[0] == 0 then [] else [s[0]] + CString(s[1..])
  }

  lemma {:induction false} CStringStops(chars: seq<byte>, rest: seq<byte>)
    requires 0 !in chars && (rest == [] || rest[0] == 0)
    ensures CString(chars + rest) == chars
  {
    if chars == [] {
      assert chars + rest == rest;
    } else {
      assert (chars + rest)[1..] == chars[1..] + rest;
      CStringStops(chars[1..], rest);
    }
  }

  /** A string copied to the front of the zeroed local buffer is read off it unchanged. */
  lemma BufferText(chars: seq<byte>)
    requires 0 !in chars && |chars| < MAX_LEN
    ensures CString(chars + Zeros(MAX_LEN)[|chars|..]) == chars
  {
    CStringStops(chars, Zeros(MAX_LEN)[|chars|..]);
  }

  class NetNode {
    const client: TCP.TCPConnection
    const incoming: Q.NetQueue<OwnedPacket>
    const pktIn: PacketObject
    const pktOut: PacketObject

    constructor (client: TCP.TCPConnection)
      ensures this.client == client && incoming == client.pktIn && pktIn != pktOut && fresh(pktIn) && fresh(pktOut)
      ensures pktIn.Value() == EMPTY_PACKET && pktOut.Value() == EMPTY_PACKET
    {
      this.client, this.incoming := client, client.pktIn;
      pktIn := new PacketObject();
      pktOut := new PacketObject();
    }

    method PreparePacket() returns (ok: bool)
      modifies pktOut
      ensures ok == client.open
      ensures pktOut.Value() == if ok then Cleared(old(pktOut.Value())) else old(pktOut.Value())
    {
      if !client.open {
        return false;
      }
      pktOut.body := [];
      return true;
    }

    method WriteCmd(cmdID: u16)
      modifies pktOut
      ensures pktOut.Value() == old(pktOut.Value()).(header := old(pktOut.header).(cmdID := cmdID))
    {
      pktOut.header := pktOut.header.(cmdID := cmdID);
    }

    /** `SendToServer`: a packet prepared on a closed connection is dropped. */
    method SendPacket()
      modifies client
      ensures client.Sending() == if old(client.open) then TCP.PostSend(old(client.Sending()), pktOut.Value())
                                  else old(client.Sending())
    {
      if client.open {
        client.SendPacket(pktOut.Value());
      }
    }

    method WriteShort(data: u16)
      modifies pktOut
      ensures pktOut.Value() == Write(old(pktOut.Value()), Short(data))
    {
      pktOut.Append(Le16(data));
    }

    method WriteLong(data: u32)
      modifies pktOut
      ensures pktOut.Value() == Write(old(pktOut.Value()), Long(data))
    {
      pktOut.Append(Le32(data));
    }

    method WriteLongLong(data: u64)
      modifies pktOut
      ensures pktOut.Value() == Write(old(pktOut.Value()), LongLong(data))
    {
      pktOut.Append(Le64(data));
    }

    method WriteDouble(bits: u64)
      modifies pktOut
      ensures pktOut.Value() == Write(old(pktOut.Value()), Double(bits))
    {
      pktOut.Append(Le64(bits));
    }

    method WriteString(data: seq<byte>)
      modifies pktOut
      ensures pktOut.Value() == Write(old(pktOut.Value()), Text(data))
    {
      var oldBody := |pktOut.body|;
      pktOut.body := pktOut.body + Zeros(|data| + 1);
      pktOut.body := pktOut.body[oldBody := 0];
      pktOut.body := pktOut.body[..oldBody + 1] + data;
      pktOut.header := pktOut.header.(size := PacketLen(pktOut.body));
      assert pktOut.body == old(pktOut.body) + ([0] + data);
    }

    method ReadShort() returns (data: u16)
      requires |pktIn.body| >= 2
      modifies pktIn
      ensures Read(old(pktIn.Value()), AShort) == Got(Short(data), pktIn.Value())
    {
      var bytes := pktIn.Extract(2);
      data := To16(bytes);
    }

    method ReadLong() returns (data: u32)
      requires |pktIn.body| >= 4
      modifies pktIn
      ensures Read(old(pktIn.Value()), ALong) == Got(Long(data), pktIn.Value())
    {
      var bytes := pktIn.Extract(4);
      data := To32(bytes);
    }

    method ReadLongLong() returns (data: u64)
      requires |pktIn.body| >= 8
      modifies pktIn
      ensures Read(old(pktIn.Value()), ALongLong) == Got(LongLong(data), pktIn.Value())
    {
      var bytes := pktIn.Extract(8);
      data := To64(bytes);
    }

    method ReadDouble() returns (bits: u64)
      requires |pktIn.body| >= 8
      modifies pktIn
      ensures Read(old(pktIn.Value()), ADouble) == Got(Double(bits), pktIn.Value())
    {
      var bytes := pktIn.Extract(8);
      bits := To64(bytes);
    }

    /** The loop of `ReadString`: counts back from the end of the body to its last NUL. */
    method CountBack() returns (strlen: nat)
      requires 0 in pktIn.body
      ensures strlen == TailLength(pktIn.body)
    {
      var body := pktIn.body;
      strlen := 0;
      while body[|body| - 1 - strlen] != 0
        invariant strlen <= TailLength(body)
        invariant 0 !in body[|body| - strlen..]
        decreases |body| - strlen
      {
        assert body[|body| - (strlen + 1)..] == [body[|body| - 1 - strlen]] + body[|body| - strlen..];
        strlen := strlen + 1;
      }
      TailIsUnique(body, strlen);
    }

    /** Finds the NUL, copies what follows it into a zeroed local buffer, makes a string of that
        buffer, and cuts string and NUL off the body. */
    method ReadString() returns (text: seq<byte>)
      requires 0 in pktIn.body && TailLength(pktIn.body) < MAX_LEN
      modifies pktIn
      ensures Read(old(pktIn.Value()), AText) == Got(Text(text), pktIn.Value())
    {
      var data := Zeros(MAX_LEN);
      var oldBody := |pktIn.body|;
      var strlen := CountBack();
      var chars := pktIn.body[oldBody - strlen..];
      data := chars + data[strlen..];
      text := CString(data);
      BufferText(chars);
      TextAt(pktIn.Value(), pktIn.body[..oldBody - strlen - 1], chars);
      pktIn.body := pktIn.body[..oldBody - strlen - 1];
    }

    /** `_process`: while connected, the front packet is copied but stays queued. */
    method ProcessFrame() returns (received: bool)
      modifies pktIn
      ensures received == (client.open && incoming.deq != [])
      ensures pktIn.Value() == if received then incoming.deq[0].pkt else old(pktIn.Value())
    {
      received := false;
      if client.open {
        var empty := incoming.IsEmpty();
        if !empty {
          var front := incoming.GetFront();
          pktIn.Assign(front.pkt);
          received := true;
        }
      }
    }

    /** Drops the front packet and clears the copy, all but its size field. */
    method PrepareNextPkt()
      requires incoming.deq != []
      modifies incoming, pktIn
      ensures incoming.deq == old(incoming.deq)[1..]
      ensures pktIn.Value() == Cleared(old(pktIn.Value())).(header := old(pktIn.header).(cmdID := CMD_INVALID))
    {
      ghost var before := incoming.deq;
      var front := incoming.PopFront();
      assert incoming.deq == before[1..];
      pktIn.body := [];
      pktIn.header := pktIn.header.(cmdID := CMD_INVALID);
    }
  }
}
