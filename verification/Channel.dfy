/**
 Two connected `TCPConnection` objects and the byte stream between them.

 A `Channel` is one direction: the sender's write chain, the bytes in flight, and the
 receiver's read chain. A `Link` is both directions with the two sockets. Every list of
 events is a run: a event whose step is not enabled leaves the state as it is.
 */
module Channel {
  import opened Bytes
  import opened NetPacket
  import opened NetTCPConnection

  /** `sent` and `gone` are history: all packets posted, in posting order, and those already
      popped from `m_PktOut`. */
  datatype Channel = Channel(sent: seq<Packet>, gone: seq<Packet>, tx: Tx, wire: seq<byte>, rx: Rx)

  const CHANNEL_INIT: Channel := Channel([], [], TX_INIT, [], RX_INIT)

  datatype Step =
    | Post(p: Packet)        // SendPacket, from any thread
    | RunPost                // its lambda, on the io thread
    | WriteSome(k: nat)      // the socket takes k bytes of the outstanding write
    | WriteHeaderDone
    | WriteDataDone
    | WriteFails
    | StartReading           // ConnectToClient / ConnectToServer
    | ReadSome(k: nat)       // the socket gives k bytes to the outstanding read
    | ReadHeaderDone
    | ReadDataDone
    | ReadFails

  /** What the outstanding write still has to send. */
  function Unwritten(t: Tx): seq<byte>
    requires TxInv(t) && WriteOutstanding(t)
  {
    if t.write.WritingHeader?
    then EncodeHeader(t.pktOut[0].header)[t.write.done..]
    else t.pktOut[0].body[t.write.done..]
  }

  /** How many bytes the outstanding read still waits for. */
  function Missing(r: Rx): int
    requires ReadOutstanding(r)
  {
    (if r.read.ReadingHeader? then HEADER_SIZE else |r.tmp.body|) - |r.read.got|
  }

  /** `txOpen` and `rxOpen` say whether the sender's and the receiver's socket is still open.
      `TxInv` is no restriction: `RunInv` shows that it holds in every reachable state. */
  predicate Enabled(c: Channel, s: Step, txOpen: bool, rxOpen: bool) {
    TxInv(c.tx) &&
    match s
    case Post(_) => true
    case RunPost => c.tx.posted != []
    case WriteSome(k) => txOpen && WriteOutstanding(c.tx) && 1 <= k <= |Unwritten(c.tx)|
    case WriteHeaderDone => HeaderIsOut(c.tx)
    case WriteDataDone => DataIsOut(c.tx)
    case WriteFails => WriteOutstanding(c.tx)
    case StartReading => rxOpen && c.rx.read.NotReading?
    case ReadSome(k) => rxOpen && ReadOutstanding(c.rx) && 1 <= k <= |c.wire| && k <= Missing(c.rx)
    case ReadHeaderDone => HeaderIsIn(c.rx)
    case ReadDataDone => DataIsIn(c.rx)
    case ReadFails => ReadOutstanding(c.rx)
  }

  function Collect(r: Read, data: seq<byte>): Read
    requires r.ReadingHeader? || r.ReadingData?
  {
    if r.ReadingHeader? then ReadingHeader(r.got + data) else ReadingData(r.got + data)
  }

  function Advance(w: Write, k: nat): Write
    requires w.WritingHeader? || w.WritingData?
  {
    if w.WritingHeader? then WritingHeader(w.done + k) else WritingData(w.done + k)
  }

  /** The packets a sender step removes from the queue. */
  function Popped(before: Tx, after: Tx): seq<Packet>
    requires |after.pktOut| <= |before.pktOut|
  {
    before.pktOut[..|before.pktOut| - |after.pktOut|]
  }

  function Apply(c: Channel, s: Step): Channel
    requires Enabled(c, s, true, true)
  {
    match s
    case Post(p) => c.(sent := c.sent + [p], tx := PostSend(c.tx, p))
    case RunPost => c.(tx := RunPosted(c.tx))
    case WriteSome(k) => c.(wire := c.wire + Unwritten(c.tx)[..k],
                            tx := c.tx.(write := Advance(c.tx.write, k)))
    case WriteHeaderDone => var t := HeaderWritten(c.tx); c.(tx := t, gone := c.gone + Popped(c.tx, t))
    case WriteDataDone => c.(tx := NextPacket(c.tx), gone := c.gone + [c.tx.pktOut[0]])
    case WriteFails => c.(tx := WriteError(c.tx))
    case StartReading => c.(rx := StartRead(c.rx, ReadingHeader([])))
    case ReadSome(k) => c.(wire := c.wire[k..],
                           rx := c.rx.(read := Collect(c.rx.read, c.wire[..k])))
    case ReadHeaderDone => c.(rx := HeaderRead(c.rx))
    case ReadDataDone => c.(rx := DataRead(c.rx))
    case ReadFails => c.(rx := ReadError(c.rx))
  }

  // ---------- byte accounting ----------

  /** The bytes that a list of packets puts on the wire. */
  function Stream(ps: seq<Packet>): seq<byte> {
    if ps == [] then [] else Stream(ps[..|ps| - 1]) + PacketBytes(ps[|ps| - 1])
  }

  lemma StreamAppend(ps: seq<Packet>, p: Packet)
    ensures Stream(ps + [p]) == Stream(ps) + PacketBytes(p)
  {
    assert (ps + [p])[..|ps|] == ps;
  }

  lemma {:induction false} StreamPrefix(ps: seq<Packet>, n: nat)
    requires n <= |ps|
    ensures Stream(ps[..n]) <= Stream(ps)
    decreases |ps|
  {
    if n < |ps| {
      StreamPrefix(ps[..|ps| - 1], n);
      assert ps[..|ps| - 1][..n] == ps[..n];
    } else {
      assert ps[..n] == ps;
    }
  }

  /** The part of a received packet that came with it: stale bytes behind `size` are not part of it. */
  function Payload(p: Packet): seq<byte> {
    p.body[..Min(p.header.size, |p.body|)]
  }

  /** The bytes that a receiver consumed for one delivered packet. */
  function RawBytes(p: Packet): seq<byte> {
    EncodeHeader(p.header) + Payload(p)
  }

  /** The bytes that a receiver consumed for a list of delivered packets. */
  function Raw(ps: seq<Packet>): seq<byte> {
    if ps == [] then [] else Raw(ps[..|ps| - 1]) + RawBytes(ps[|ps| - 1])
  }

  lemma RawAppend(ps: seq<Packet>, p: Packet)
    ensures Raw(ps + [p]) == Raw(ps) + RawBytes(p)
  {
    assert (ps + [p])[..|ps|] == ps;
  }

  /** How many bytes of the front packet have left. */
  function WrittenCount(t: Tx): nat {
    match t.write
    case NoWrite => 0
    case WritingHeader(n) => n
    case WritingData(n) => HEADER_SIZE + n
    case WriteFailed(n) => n
  }

  /** The bytes of the front packet that have left. */
  function Written(t: Tx): seq<byte>
    requires TxInv(t)
  {
    if t.pktOut == [] then [] else PacketBytes(t.pktOut[0])[..WrittenCount(t)]
  }

  lemma SliceGrows(s: seq<byte>, i: nat, k: nat)
    requires i + k <= |s|
    ensures s[..i] + s[i..i + k] == s[..i + k]
  {
  }

  /** The outstanding write continues where the bytes already written end. */
  lemma UnwrittenFollows(t: Tx, k: nat)
    requires TxInv(t) && WriteOutstanding(t) && k <= |Unwritten(t)|
    ensures WrittenCount(t) + k <= |PacketBytes(t.pktOut[0])|
    ensures Unwritten(t)[..k] == PacketBytes(t.pktOut[0])[WrittenCount(t)..WrittenCount(t) + k]
  {
    var p := t.pktOut[0];
    assert PacketBytes(p)[..HEADER_SIZE] == EncodeHeader(p.header);
    assert PacketBytes(p)[HEADER_SIZE..] == p.body;
  }

  /** The bytes of a packet that is not complete yet. */
  function Partial(r: Rx): seq<byte> {
    match r.read
    case NotReading => []
    case ReadingHeader(got) => got
    case ReadingData(got) => EncodeHeader(r.tmp.header) + got
    case ReadFailed(got) => got
  }

  function RxBytes(r: Rx): seq<byte> {
    Raw(r.delivered) + Partial(r)
  }

  function BytesOut(c: Channel): seq<byte>
    requires TxInv(c.tx)
  {
    Stream(c.gone) + Written(c.tx)
  }

  function BytesIn(c: Channel): seq<byte> {
    RxBytes(c.rx)
  }

  /** What a delivered packet's body is: its own bytes, or, for size zero, the body that the
      packet before it left in `m_tmpPktIn`. */
  predicate BodyRule(ds: seq<Packet>, i: nat)
    requires i < |ds|
  {
    if ds[i].header.size > 0 then |ds[i].body| == ds[i].header.size
    else ds[i].body == if i == 0 then [] else ds[i - 1].body
  }

  predicate RxInv(r: Rx) {
    && (forall i :: 0 <= i < |r.delivered| ==> BodyRule(r.delivered, i))
    && ReadsCounted(r)
    && match r.read {
         case NotReading => r == RX_INIT
         case ReadingHeader(got) => |got| <= HEADER_SIZE
                                    && r.tmp.body == if r.delivered == [] then [] else r.delivered[|r.delivered| - 1].body
         case ReadingData(got) => |got| <= |r.tmp.body| == r.tmp.header.size && r.tmp.header.size > 0
         case ReadFailed(_) => true
       }
  }

  ghost predicate Inv(c: Channel) {
    && TxInv(c.tx)
    && RxInv(c.rx)
    && c.sent == c.gone + c.tx.pktOut + c.tx.posted
    && BytesOut(c) == BytesIn(c) + c.wire
  }

  lemma PostInv(c: Channel, p: Packet)
    requires Inv(c)
    ensures Inv(Apply(c, Post(p)))
  {
  }

  lemma WriteFailsInv(c: Channel)
    requires Inv(c) && Enabled(c, WriteFails, true, true)
    ensures Inv(Apply(c, WriteFails))
  {
  }

  lemma StartReadingInv(c: Channel)
    requires Inv(c) && Enabled(c, StartReading, true, true)
    ensures Inv(Apply(c, StartReading))
  {
  }

  lemma RunPostInv(c: Channel)
    requires Inv(c) && Enabled(c, RunPost, true, true)
    ensures Inv(Apply(c, RunPost))
  {
    var d := Apply(c, RunPost);
    assert c.tx.posted == [c.tx.posted[0]] + c.tx.posted[1..];
    assert c.sent == d.gone + d.tx.pktOut + d.tx.posted;
    if c.tx.pktOut == [] {
      assert Written(d.tx) == [];
    } else {
      assert d.tx.pktOut[0] == c.tx.pktOut[0];
    }
  }

  lemma WriteSomeWritten(t: Tx, k: nat)
    requires TxInv(t) && WriteOutstanding(t) && k <= |Unwritten(t)|
    ensures var u := t.(write := Advance(t.write, k));
            TxInv(u) && Written(u) == Written(t) + Unwritten(t)[..k]
  {
    UnwrittenFollows(t, k);
    SliceGrows(PacketBytes(t.pktOut[0]), WrittenCount(t), k);
  }

  lemma WriteSomeInv(c: Channel, k: nat)
    requires Inv(c) && Enabled(c, WriteSome(k), true, true)
    ensures Inv(Apply(c, WriteSome(k)))
  {
    var data := Unwritten(c.tx)[..k];
    WriteSomeWritten(c.tx, k);
    Associative(Stream(c.gone), Written(c.tx), data);
    Associative(BytesIn(c), c.wire, data);
  }

  lemma WriteHeaderDoneInv(c: Channel)
    requires Inv(c) && Enabled(c, WriteHeaderDone, true, true)
    ensures Inv(Apply(c, WriteHeaderDone))
  {
    var d := Apply(c, WriteHeaderDone);
    if c.tx.pktOut[0].body == [] {
      assert d.gone == c.gone + [c.tx.pktOut[0]];
      PopKeepsBytes(c, d);
    } else {
      assert d.gone == c.gone;
    }
  }

  lemma WriteDataDoneInv(c: Channel)
    requires Inv(c) && Enabled(c, WriteDataDone, true, true)
    ensures Inv(Apply(c, WriteDataDone))
  {
    PopKeepsBytes(c, Apply(c, WriteDataDone));
  }

  lemma PopKeepsBytes(c: Channel, d: Channel)
    requires Inv(c) && WriteOutstanding(c.tx) && d.tx == NextPacket(c.tx) && d.gone == c.gone + [c.tx.pktOut[0]]
    requires WrittenCount(c.tx) == |PacketBytes(c.tx.pktOut[0])|
    ensures TxInv(d.tx) && BytesOut(d) == BytesOut(c)
    ensures d.gone + d.tx.pktOut == c.gone + c.tx.pktOut
  {
    StreamAppend(c.gone, c.tx.pktOut[0]);
    assert Written(d.tx) == [];
  }

  lemma ReadSomeInv(c: Channel, k: nat)
    requires Inv(c) && Enabled(c, ReadSome(k), true, true)
    ensures Inv(Apply(c, ReadSome(k)))
  {
    var d := Apply(c, ReadSome(k));
    assert c.wire == c.wire[..k] + c.wire[k..];
    assert Partial(d.rx) == Partial(c.rx) + c.wire[..k];
    Associative(Raw(c.rx.delivered), Partial(c.rx), c.wire[..k]);
    Associative(BytesIn(c), c.wire[..k], c.wire[k..]);
  }

  lemma HeaderReadInv(r: Rx)
    requires RxInv(r) && HeaderIsIn(r)
    ensures RxInv(HeaderRead(r)) && RxBytes(HeaderRead(r)) == RxBytes(r)
  {
    var h := DecodeHeader(r.read.got);
    EncodeDecodeHeader(r.read.got);
    if h.size == 0 {
      var p := Packet(h, r.tmp.body);
      EmptyPayload(p);
      DeliverInv(r, p);
    } else {
      assert Partial(HeaderRead(r)) == EncodeHeader(h) + [] == r.read.got;
    }
  }

  lemma ReadHeaderDoneInv(c: Channel)
    requires Inv(c) && Enabled(c, ReadHeaderDone, true, true)
    ensures Inv(Apply(c, ReadHeaderDone))
  {
    HeaderReadInv(c.rx);
  }

  lemma ReadDataDoneInv(c: Channel)
    requires Inv(c) && Enabled(c, ReadDataDone, true, true)
    ensures Inv(Apply(c, ReadDataDone))
  {
    DeliverInv(c.rx, Packet(c.rx.tmp.header, c.rx.read.got));
  }

  /** `p` may be delivered next: it has the body that `BodyRule` asks for. */
  predicate FitsNext(ds: seq<Packet>, p: Packet) {
    if p.header.size > 0 then |p.body| == p.header.size
    else p.body == if ds == [] then [] else ds[|ds| - 1].body
  }

  lemma RulesAppend(ds: seq<Packet>, p: Packet)
    requires FitsNext(ds, p) && forall i :: 0 <= i < |ds| ==> BodyRule(ds, i)
    ensures forall i :: 0 <= i < |ds + [p]| ==> BodyRule(ds + [p], i)
  {
    forall i | 0 <= i < |ds + [p]| ensures BodyRule(ds + [p], i) {
      if i < |ds| { assert BodyRule(ds, i); }
    }
  }

  lemma DeliverInv(r: Rx, p: Packet)
    requires RxInv(r) && ReadOutstanding(r) && RawBytes(p) == Partial(r) && FitsNext(r.delivered, p)
    ensures RxInv(Deliver(EndRead(r).(tmp := p)))
    ensures Raw(r.delivered + [p]) == Raw(r.delivered) + Partial(r)
  {
    RawAppend(r.delivered, p);
    RulesAppend(r.delivered, p);
  }

  lemma EmptyPayload(p: Packet)
    requires p.header.size == 0
    ensures RawBytes(p) == EncodeHeader(p.header)
  {
  }

  lemma ReadFailsInv(c: Channel)
    requires Inv(c) && Enabled(c, ReadFails, true, true)
    ensures Inv(Apply(c, ReadFails))
  {
    assert Partial(Apply(c, ReadFails).rx) == Partial(c.rx);
  }

  // ---------- decoding is unambiguous ----------

  /** A delivered packet carries exactly what the sent one carried. */
  predicate Intact(d: Packet, s: Packet) {
    d.header == s.header && Payload(d) == s.body
  }

  ghost predicate AllIntact(ds: seq<Packet>, ss: seq<Packet>) {
    |ds| <= |ss| && forall i :: 0 <= i < |ds| ==> Intact(ds[i], ss[i])
  }

  predicate WholePayloads(ds: seq<Packet>) {
    forall i :: 0 <= i < |ds| ==> |ds[i].body| >= ds[i].header.size
  }

  lemma PrefixHead(a: seq<byte>, x: seq<byte>, b: seq<byte>, y: seq<byte>)
    requires a + x <= b + y && |a| == |b|
    ensures a == b && x <= y
  {
    assert a == (a + x)[..|a|] == (b + y)[..|b|] == b;
    assert x == (a + x)[|a|..] && y == (b + y)[|b|..];
  }

  /** A consumed packet that lines up with a framed sent packet is that packet. */
  lemma PacketHead(d: Packet, s: Packet, x: seq<byte>, y: seq<byte>)
    requires RawBytes(d) + x <= PacketBytes(s) + y
    requires |d.body| >= d.header.size && Framed(s)
    ensures Intact(d, s) && RawBytes(d) == PacketBytes(s)
  {
    assert RawBytes(d) + x == EncodeHeader(d.header) + (Payload(d) + x);
    assert PacketBytes(s) + y == EncodeHeader(s.header) + (s.body + y);
    PrefixHead(EncodeHeader(d.header), Payload(d) + x, EncodeHeader(s.header), s.body + y);
    HeaderInjective(d.header, s.header);
    PrefixHead(Payload(d), x, s.body, y);
  }

  lemma Continuation(whole: seq<byte>, a: seq<byte>, b: seq<byte>) returns (y: seq<byte>)
    requires a + b <= whole
    ensures whole == a + (b + y)
  {
    y := whole[|a + b|..];
    Associative(a, b, y);
  }

  lemma StreamSplit(ss: seq<Packet>, n: nat) returns (y: seq<byte>)
    requires n < |ss|
    ensures Stream(ss) == Stream(ss[..n]) + (PacketBytes(ss[n]) + y)
    ensures Stream(ss[..n + 1]) == Stream(ss[..n]) + PacketBytes(ss[n])
  {
    StreamPrefix(ss, n + 1);
    assert ss[..n + 1] == ss[..n] + [ss[n]];
    StreamAppend(ss[..n], ss[n]);
    y := Continuation(Stream(ss), Stream(ss[..n]), PacketBytes(ss[n]));
  }

  lemma OneMoreIntact(ds: seq<Packet>, ss: seq<Packet>, n: nat)
    requires |ds| == n + 1 && AllIntact(ds[..n], ss) && n < |ss| && Intact(ds[n], ss[n])
    ensures AllIntact(ds, ss)
  {
    forall i | 0 <= i < |ds| ensures Intact(ds[i], ss[i]) {
      if i < n { assert ds[..n][i] == ds[i]; }
    }
  }

  /** If the bytes consumed for `ds` start the bytes of `ss`, and the packets of `ss` in that
      range are framed, then `ds` is the beginning of `ss`. */
  lemma {:induction false} DecodePrefix(ds: seq<Packet>, ss: seq<Packet>)
    requires Raw(ds) <= Stream(ss) && WholePayloads(ds)
    requires forall i :: 0 <= i < |ds| && i < |ss| ==> Framed(ss[i])
    ensures AllIntact(ds, ss)
    ensures Raw(ds) == Stream(ss[..|ds|])
    decreases |ds|
  {
    if ds != [] {
      var n := |ds| - 1;
      DecodePrefix(ds[..n], ss);
      assert ss[..|ss|] == ss && |RawBytes(ds[n])| > 0;
      var y := StreamSplit(ss, n);
      PrefixHead(Raw(ds[..n]), RawBytes(ds[n]), Stream(ss[..n]), PacketBytes(ss[n]) + y);
      assert RawBytes(ds[n]) + [] == RawBytes(ds[n]);
      PacketHead(ds[n], ss[n], [], y);
      OneMoreIntact(ds, ss, n);
    }
  }

  lemma RulesGiveWholePayloads(ds: seq<Packet>)
    requires forall i :: 0 <= i < |ds| ==> BodyRule(ds, i)
    ensures WholePayloads(ds)
  {
    forall i | 0 <= i < |ds| ensures |ds[i].body| >= ds[i].header.size {
      assert BodyRule(ds, i);
    }
  }

  lemma ShorterPrefix(whole: seq<byte>, a: seq<byte>, x: seq<byte>, k: nat)
    requires a + x <= whole && k <= |x|
    ensures a + x[..k] <= whole
  {
    assert (a + x)[..|a| + k] == a + x[..k];
  }

  /** What has left the sender is a beginning of all that was ever posted. */
  lemma SentIsPrefix(c: Channel)
    requires Inv(c)
    ensures BytesOut(c) <= Stream(c.sent)
  {
    var n := |c.gone|;
    assert c.sent[..n] == c.gone;
    if c.tx.pktOut == [] {
      StreamPrefix(c.sent, n);
      assert Stream(c.gone) + [] == Stream(c.gone);
    } else {
      var p := c.tx.pktOut[0];
      assert c.sent[..n + 1] == c.gone + [p];
      StreamPrefix(c.sent, n + 1);
      StreamAppend(c.gone, p);
      ShorterPrefix(Stream(c.sent), Stream(c.gone), PacketBytes(p), WrittenCount(c.tx));
    }
  }

  lemma PrefixOfPrefix(whole: seq<byte>, a: seq<byte>, b: seq<byte>, w: seq<byte>)
    requires (a + b) + w <= whole
    ensures a + b <= whole && a <= whole
  {
  }

  /** Everything the receiver consumed is a beginning of everything ever posted. */
  lemma ConsumedIsPrefix(c: Channel)
    requires Inv(c)
    ensures BytesIn(c) <= Stream(c.sent) && Raw(c.rx.delivered) <= Stream(c.sent)
  {
    SentIsPrefix(c);
    PrefixOfPrefix(Stream(c.sent), Raw(c.rx.delivered), Partial(c.rx), c.wire);
  }

  // ---------- safety ----------

  /** Safety of one state. The delivered packets are the beginning of the posted ones, intact and
      in order, exactly when every posted packet at a delivered position was framed. */
  lemma DeliveredIntactIff(c: Channel)
    requires Inv(c)
    ensures AllIntact(c.rx.delivered, c.sent) <==>
            (forall i :: 0 <= i < |c.rx.delivered| && i < |c.sent| ==> Framed(c.sent[i]))
  {
    var ds, ss := c.rx.delivered, c.sent;
    if forall i :: 0 <= i < |ds| && i < |ss| ==> Framed(ss[i]) {
      ConsumedIsPrefix(c);
      RulesGiveWholePayloads(ds);
      DecodePrefix(ds, ss);
    }
    if AllIntact(ds, ss) {
      RulesGiveWholePayloads(ds);
      forall i | 0 <= i < |ds| && i < |ss| ensures Framed(ss[i]) {
        assert Intact(ds[i], ss[i]);
      }
    }
  }

  /** Among framed packets, a delivered packet equals the posted one in full, stale bytes
      included, exactly when no empty packet directly follows a non-empty one. */
  lemma DeliveredEqualIff(c: Channel)
    requires Inv(c) && forall p :: p in c.sent ==> Framed(p)
    ensures var n := |c.rx.delivered|;
            n <= |c.sent|
            && (c.rx.delivered == c.sent[..n] <==>
                forall i :: 0 < i < n && c.sent[i].body == [] ==> c.sent[i - 1].body == [])
  {
    DeliveredIntactIff(c);
    var ds, n := c.rx.delivered, |c.rx.delivered|;
    if forall i :: 0 < i < n && c.sent[i].body == [] ==> c.sent[i - 1].body == [] {
      forall i | 0 <= i < n ensures ds[i] == c.sent[i] { NoStaleBody(ds, c.sent, i); }
    }
    if ds == c.sent[..n] {
      forall i | 0 < i < n && c.sent[i].body == [] ensures c.sent[i - 1].body == [] {
        assert BodyRule(ds, i) && Framed(c.sent[i]);
        assert ds[i - 1] == c.sent[i - 1] && ds[i] == c.sent[i];
      }
    }
  }

  /** With no empty packet after a non-empty one, each delivered packet is the one sent. */
  lemma {:induction false} NoStaleBody(ds: seq<Packet>, ss: seq<Packet>, i: nat)
    requires i < |ds| && AllIntact(ds, ss)
    requires forall j :: 0 <= j < |ds| ==> BodyRule(ds, j) && Framed(ss[j])
    requires forall j :: 0 < j < |ds| && ss[j].body == [] ==> ss[j - 1].body == []
    ensures ds[i] == ss[i]
  {
    assert BodyRule(ds, i) && Intact(ds[i], ss[i]) && Framed(ss[i]);
    if i > 0 && ss[i].body == [] {
      NoStaleBody(ds, ss, i - 1);
    }
  }

  // ---------- both directions, over whole runs ----------

  /** `ab` carries A's packets to B and `ba` carries B's to A; each side has one socket. */
  datatype Link = Link(ab: Channel, ba: Channel, openA: bool, openB: bool)

  const LINK_INIT: Link := Link(CHANNEL_INIT, CHANNEL_INIT, true, true)

  datatype Event = OnAB(step: Step) | OnBA(step: Step) | CloseA | CloseB

  /** One step of the link. A failing handler closes its own side's socket, which stops both
      directions on that side; `Disconnect` closes it too. */
  function Next(l: Link, event: Event): Link {
    match event
    case OnAB(s) =>
      if Enabled(l.ab, s, l.openA, l.openB)
      then l.(ab := Apply(l.ab, s), openA := l.openA && !s.WriteFails?, openB := l.openB && !s.ReadFails?)
      else l
    case OnBA(s) =>
      if Enabled(l.ba, s, l.openB, l.openA)
      then l.(ba := Apply(l.ba, s), openB := l.openB && !s.WriteFails?, openA := l.openA && !s.ReadFails?)
      else l
    case CloseA => l.(openA := false)
    case CloseB => l.(openB := false)
  }

  lemma ApplyInv(c: Channel, s: Step)
    requires Inv(c) && Enabled(c, s, true, true)
    ensures Inv(Apply(c, s))
  {
    match s {
      case Post(p) => PostInv(c, p);
      case RunPost => RunPostInv(c);
      case WriteSome(k) => WriteSomeInv(c, k);
      case WriteHeaderDone => WriteHeaderDoneInv(c);
      case WriteDataDone => WriteDataDoneInv(c);
      case WriteFails => WriteFailsInv(c);
      case StartReading => StartReadingInv(c);
      case ReadSome(k) => ReadSomeInv(c, k);
      case ReadHeaderDone => ReadHeaderDoneInv(c);
      case ReadDataDone => ReadDataDoneInv(c);
      case ReadFails => ReadFailsInv(c);
    }
  }

  ghost predicate LinkInv(l: Link) {
    Inv(l.ab) && Inv(l.ba)
  }

  lemma OneWayInv(c: Channel, s: Step, txOpen: bool, rxOpen: bool)
    requires Inv(c) && Enabled(c, s, txOpen, rxOpen)
    ensures Enabled(c, s, true, true) && Inv(Apply(c, s))
  {
    ApplyInv(c, s);
  }

  lemma NextInv(l: Link, event: Event)
    requires LinkInv(l)
    ensures LinkInv(Next(l, event))
  {
    match event {
      case OnAB(s) => if Enabled(l.ab, s, l.openA, l.openB) { OneWayInv(l.ab, s, l.openA, l.openB); }
      case OnBA(s) => if Enabled(l.ba, s, l.openB, l.openA) { OneWayInv(l.ba, s, l.openB, l.openA); }
      case CloseA =>
      case CloseB =>
    }
  }

  /** The state after a run; every list of events is one. */
  function Run(events: seq<Event>): Link {
    if events == [] then LINK_INIT else Next(Run(events[..|events| - 1]), events[|events| - 1])
  }

  lemma {:induction false} RunInv(events: seq<Event>)
    ensures LinkInv(Run(events))
  {
    if events != [] {
      RunInv(events[..|events| - 1]);
      NextInv(Run(events[..|events| - 1]), events[|events| - 1]);
    }
  }

  ghost predicate Reachable(l: Link) {
    exists events :: Run(events) == l
  }

  lemma NextReachable(l: Link, event: Event)
    requires Reachable(l)
    ensures Reachable(Next(l, event))
  {
    var events :| Run(events) == l;
    assert (events + [event])[..|events|] == events;
    assert Run(events + [event]) == Next(l, event);
  }

  lemma ReachableInv(l: Link)
    requires Reachable(l)
    ensures LinkInv(l)
  {
    var events :| Run(events) == l;
    RunInv(events);
  }

  function PostedBy(event: Event): seq<Packet> {
    if event.OnAB? && event.step.Post? then [event.step.p] else []
  }

  /** The packets posted on A's side during a run. */
  function Posts(events: seq<Event>): seq<Packet> {
    if events == [] then [] else Posts(events[..|events| - 1]) + PostedBy(events[|events| - 1])
  }

  lemma NextSent(l: Link, event: Event)
    requires TxInv(l.ab.tx)
    ensures Next(l, event).ab.sent == l.ab.sent + PostedBy(event)
  {
  }

  lemma {:induction false} RunPosts(events: seq<Event>)
    ensures Run(events).ab.sent == Posts(events)
    decreases |events|
  {
    if events != [] {
      RunPosts(events[..|events| - 1]);
      RunInv(events[..|events| - 1]);
      NextSent(Run(events[..|events| - 1]), events[|events| - 1]);
    }
  }

  /** Main safety theorem. Whatever the interleaving of sends, partial transfers, failures and
      closes on either side, what B has delivered is an intact prefix of what A has posted,
      provided A posts framed packets only; a partly read packet is never delivered. */
  lemma DeliveryIsPrefix(events: seq<Event>)
    requires forall p :: p in Posts(events) ==> Framed(p)
    ensures AllIntact(Run(events).ab.rx.delivered, Posts(events))
  {
    RunPosts(events);
    RunInv(events);
    DeliveredIntactIff(Run(events).ab);
  }

  // ---------- the other direction ----------

  /** The same link with the names of its ends exchanged. */
  function Mirror(l: Link): Link {
    Link(l.ba, l.ab, l.openB, l.openA)
  }

  function MirrorEvent(e: Event): Event {
    match e
    case OnAB(s) => OnBA(s)
    case OnBA(s) => OnAB(s)
    case CloseA => CloseB
    case CloseB => CloseA
  }

  function Mirrored(events: seq<Event>): seq<Event> {
    seq(|events|, i requires 0 <= i < |events| => MirrorEvent(events[i]))
  }

  lemma NextMirrored(l: Link, e: Event)
    ensures Next(Mirror(l), MirrorEvent(e)) == Mirror(Next(l, e))
  {
  }

  /** All that holds of the direction from A to B over whole runs holds of the other one too. */
  lemma {:induction false} RunMirrored(events: seq<Event>)
    ensures Run(Mirrored(events)) == Mirror(Run(events))
    decreases |events|
  {
    if events != [] {
      var init := events[..|events| - 1];
      RunMirrored(init);
      NextMirrored(Run(init), events[|events| - 1]);
      assert Mirrored(events)[..|events| - 1] == Mirrored(init);
    }
  }

  /** The packets posted on B's side during a run. */
  function PostsBack(events: seq<Event>): seq<Packet> {
    Posts(Mirrored(events))
  }

  /** The main safety theorem from B to A. */
  lemma DeliveryBackIsPrefix(events: seq<Event>)
    requires forall p :: p in PostsBack(events) ==> Framed(p)
    ensures AllIntact(Run(events).ba.rx.delivered, PostsBack(events))
  {
    RunMirrored(events);
    DeliveryIsPrefix(Mirrored(events));
  }

  // ---------- one operation at a time ----------

  /** What a step does to the outstanding write: it starts at most one, and one only if none is
      under way or the one under way has just completed; otherwise the write goes on, or ends. */
  lemma WriteStartsWhenFree(c: Channel, s: Step)
    requires Inv(c) && Enabled(c, s, true, true)
    ensures var t, u := c.tx, Apply(c, s).tx;
            if u.started != t.started
            then u.started == t.started + 1 && (t.write.NoWrite? || HeaderIsOut(t) || DataIsOut(t))
                 && u.finished == t.finished + (if t.write.NoWrite? then 0 else 1)
            else !IsWriting(u.write) || u.write == t.write
                 || (s.WriteSome? && IsWriting(t.write) && u.write == Advance(t.write, s.k))
  {
  }

  /** The same for the outstanding read. */
  lemma ReadStartsWhenFree(c: Channel, s: Step)
    requires Inv(c) && Enabled(c, s, true, true)
    ensures var t, u := c.rx, Apply(c, s).rx;
            if u.started != t.started
            then u.started == t.started + 1 && (t.read.NotReading? || HeaderIsIn(t) || DataIsIn(t))
                 && u.finished == t.finished + (if t.read.NotReading? then 0 else 1)
            else !ReadOutstanding(u) || u.read == t.read
                 || (s.ReadSome? && ReadOutstanding(t) && u.read == Collect(t.read, c.wire[..s.k]))
  {
  }

  /** The write chain over whole runs: of all the writes ever started exactly one has not ended if
      the queue is non-empty and no write has failed, and none otherwise. */
  lemma {:induction false} OneWriteIffQueued(events: seq<Event>)
    ensures var t := Run(events).ab.tx;
            && t.started - t.finished == (if t.pktOut != [] && !t.write.WriteFailed? then 1 else 0)
            && (WriteOutstanding(t) <==> t.started != t.finished)
            && (t.write.NoWrite? <==> t.pktOut == [])
  {
    RunInv(events);
  }

  /** The read chain over whole runs: once reading has begun and as long as no read has failed,
      exactly one of all the reads ever started has not ended. */
  lemma {:induction false} OneReadUntilFailure(events: seq<Event>)
    ensures var r := Run(events).ab.rx;
            r.started - r.finished == if r.read.NotReading? || r.read.ReadFailed? then 0 else 1
  {
    RunInv(events);
  }

  /** The sending side of `d` has done no more than that of `c`, apart from queueing. */
  predicate NoMoreWritten(c: Channel, d: Channel) {
    && d.tx.started == c.tx.started
    && d.tx.write == c.tx.write && d.gone == c.gone && c.tx.pktOut <= d.tx.pktOut
  }

  lemma NextAfterFailure(l: Link, event: Event)
    requires l.ab.tx.write.WriteFailed?
    ensures NoMoreWritten(l.ab, Next(l, event).ab)
  {
  }

  /** After a failed write nothing is ever written or popped again, whatever else happens. */
  lemma {:induction false} WriteFailureIsFinal(before: seq<Event>, after: seq<Event>)
    requires Run(before).ab.tx.write.WriteFailed?
    ensures NoMoreWritten(Run(before).ab, Run(before + after).ab)
    decreases |after|
  {
    if after == [] {
      assert before + after == before;
    } else {
      var init := after[..|after| - 1];
      WriteFailureIsFinal(before, init);
      NextAfterFailure(Run(before + init), after[|after| - 1]);
      assert (before + after)[..|before + after| - 1] == before + init;
      assert (before + after)[|before + after| - 1] == after[|after| - 1];
    }
  }

  // ---------- progress ----------

  /** Steps of the protocol itself: no new send, no failure. */
  predicate IsProgress(s: Step) {
    !s.Post? && !s.WriteFails? && !s.ReadFails?
  }

  /** Upper bound on the work that unsent packets still cause: three per byte to be sent, plus
      `extra` per packet for the handlers. */
  function Cost(ps: seq<Packet>, extra: nat): nat {
    if ps == [] then 0 else 3 * (HEADER_SIZE + |ps[0].body|) + extra + Cost(ps[1..], extra)
  }

  lemma {:induction false} CostAppend(ps: seq<Packet>, p: Packet, extra: nat)
    ensures Cost(ps + [p], extra) == Cost(ps, extra) + 3 * (HEADER_SIZE + |p.body|) + extra
  {
    if ps != [] {
      CostAppend(ps[1..], p, extra);
      assert (ps + [p])[1..] == ps[1..] + [p];
    }
  }

  function TxMeasure(t: Tx): nat
    requires TxInv(t)
  {
    Cost(t.posted, 3) +
    match t.write
    case NoWrite => 0
    case WritingHeader(n) => Cost(t.pktOut[1..], 2) + 3 * (HEADER_SIZE - n) + 3 * |t.pktOut[0].body| + 2
    case WritingData(n) => Cost(t.pktOut[1..], 2) + 3 * (|t.pktOut[0].body| - n) + 1
    case WriteFailed(_) => Cost(t.pktOut, 2)
  }

  function RxMeasure(r: Rx): nat {
    match r.read
    case NotReading => 1
    case ReadingHeader(got) => |got|
    case ReadingData(got) => |got|
    case ReadFailed(_) => 0
  }

  function Measure(c: Channel): nat
    requires TxInv(c.tx)
  {
    TxMeasure(c.tx) + 2 * |c.wire| + RxMeasure(c.rx)
  }

  lemma RunPostDecreases(t: Tx)
    requires TxInv(t) && t.posted != [] && TxInv(RunPosted(t))
    ensures TxMeasure(RunPosted(t)) < TxMeasure(t)
  {
    var p := t.posted[0];
    if t.pktOut == [] {
      assert ([p])[1..] == [];
    } else {
      CostAppend(t.pktOut, p, 2);
      CostAppend(t.pktOut[1..], p, 2);
      assert (t.pktOut + [p])[1..] == t.pktOut[1..] + [p];
    }
  }

  lemma NextPacketDecreases(t: Tx)
    requires TxInv(t) && (DataIsOut(t) || (HeaderIsOut(t) && t.pktOut[0].body == []))
    ensures TxMeasure(NextPacket(t)) < TxMeasure(t)
  {
  }

  lemma WriteSomeDecreases(t: Tx, k: nat)
    requires TxInv(t) && WriteOutstanding(t) && 1 <= k <= |Unwritten(t)|
    ensures var u := t.(write := Advance(t.write, k)); TxInv(u) && TxMeasure(u) + 3 * k == TxMeasure(t)
  {
  }

  lemma HeaderWrittenDecreases(t: Tx)
    requires TxInv(t) && HeaderIsOut(t) && TxInv(HeaderWritten(t))
    ensures TxMeasure(HeaderWritten(t)) < TxMeasure(t)
  {
    if t.pktOut[0].body == [] { NextPacketDecreases(t); }
  }

  /** Every protocol step makes the remaining work strictly smaller. */
  lemma ProgressDecreases(c: Channel, s: Step)
    requires RxInv(c.rx) && Enabled(c, s, true, true) && IsProgress(s)
    requires TxInv(Apply(c, s).tx)
    ensures Measure(Apply(c, s)) < Measure(c)
  {
    match s {
      case RunPost => RunPostDecreases(c.tx);
      case WriteSome(k) => WriteSomeDecreases(c.tx, k);
      case WriteHeaderDone => HeaderWrittenDecreases(c.tx);
      case WriteDataDone => NextPacketDecreases(c.tx);
      case StartReading =>
      case ReadSome(k) =>
      case ReadHeaderDone =>
      case ReadDataDone =>
    }
  }

  ghost predicate AtRest(c: Channel)
    requires TxInv(c.tx)
  {
    forall s :: IsProgress(s) ==> !Enabled(c, s, true, true)
  }

  /** Nothing to send is left anywhere. */
  predicate Drained(t: Tx) {
    t.posted == [] && t.pktOut == [] && t.write.NoWrite?
  }

  ghost predicate Failed(c: Channel) {
    c.tx.write.WriteFailed? || c.rx.read.ReadFailed?
  }

  /** A sender rests only when it has nothing left to send. */
  lemma SenderAtRest(c: Channel)
    requires TxInv(c.tx) && AtRest(c) && !c.tx.write.WriteFailed?
    ensures Drained(c.tx)
  {
    assert !Enabled(c, RunPost, true, true);
    assert !Enabled(c, WriteSome(1), true, true);
    assert !Enabled(c, WriteHeaderDone, true, true);
    assert !Enabled(c, WriteDataDone, true, true);
  }

  /** A reader rests only when it waits for the rest of a packet and nothing is on the wire. */
  lemma ReceiverAtRest(c: Channel)
    requires TxInv(c.tx) && RxInv(c.rx) && AtRest(c) && !c.rx.read.ReadFailed?
    ensures c.wire == [] && ReadOutstanding(c.rx) && Missing(c.rx) > 0
  {
    assert !Enabled(c, StartReading, true, true);
    assert !Enabled(c, ReadSome(1), true, true);
    assert !Enabled(c, ReadHeaderDone, true, true);
    assert !Enabled(c, ReadDataDone, true, true);
  }

  /** A reader that holds all the bytes of a framed packet waits for nothing more. */
  lemma WholePacketHeld(r: Rx, p: Packet, y: seq<byte>)
    requires RxInv(r) && ReadOutstanding(r) && Framed(p)
    requires Partial(r) == PacketBytes(p) + y
    ensures Missing(r) <= 0
  {
    if r.read.ReadingData? {
      assert PacketBytes(p) + y == EncodeHeader(p.header) + (p.body + y);
      PrefixHead(EncodeHeader(r.tmp.header), r.read.got, EncodeHeader(p.header), p.body + y);
      HeaderInjective(p.header, r.tmp.header);
    }
  }

  /** A failure-free direction with open sockets and framed packets rests only when everything
      posted has been delivered, both queues are empty and the reader is at a header boundary. */
  lemma RestIsComplete(c: Channel)
    requires Inv(c) && AtRest(c) && !Failed(c) && forall p :: p in c.sent ==> Framed(p)
    ensures |c.rx.delivered| == |c.sent| && AllIntact(c.rx.delivered, c.sent)
    ensures Drained(c.tx) && c.wire == [] && c.rx.read == ReadingHeader([])
  {
    SenderAtRest(c);
    ReceiverAtRest(c);
    ConsumedIsPrefix(c);
    RulesGiveWholePayloads(c.rx.delivered);
    DecodePrefix(c.rx.delivered, c.sent);
    RestBytes(c);
    var ss, n := c.sent, |c.rx.delivered|;
    if n < |ss| {
      var y := StreamSplit(ss, n);
      assert ss[n] in ss;
      SameTail(Stream(ss[..n]), PacketBytes(ss[n]) + y, Partial(c.rx));
      WholePacketHeld(c.rx, ss[n], y);
    } else {
      assert ss[..n] == ss;
      SameTail(Stream(ss), [], Partial(c.rx));
    }
  }

  lemma SameTail(a: seq<byte>, x: seq<byte>, y: seq<byte>)
    requires a + x == a + y
    ensures x == y
  {
    assert x == (a + x)[|a|..] == (a + y)[|a|..] == y;
  }

  lemma RestBytes(c: Channel)
    requires Inv(c) && Drained(c.tx) && c.wire == []
    ensures BytesIn(c) == Stream(c.sent)
  {
    assert c.gone == c.sent;
    assert BytesOut(c) == Stream(c.sent) && BytesIn(c) + [] == BytesIn(c);
  }

  /** A run of protocol steps, each enabled when its turn comes. */
  ghost predicate ProgressRun(c: Channel, steps: seq<Step>)
    requires Inv(c)
    decreases |steps|
  {
    steps == [] ||
    (IsProgress(steps[0]) && Enabled(c, steps[0], true, true) &&
     (ApplyInv(c, steps[0]); ProgressRun(Apply(c, steps[0]), steps[1..])))
  }

  ghost function After(c: Channel, steps: seq<Step>): (d: Channel)
    requires Inv(c) && ProgressRun(c, steps)
    ensures Inv(d)
    decreases |steps|
  {
    if steps == [] then c else ApplyInv(c, steps[0]); After(Apply(c, steps[0]), steps[1..])
  }

  lemma SentUnchanged(c: Channel, s: Step)
    requires Inv(c) && !Failed(c) && Enabled(c, s, true, true) && IsProgress(s)
    ensures Apply(c, s).sent == c.sent && !Failed(Apply(c, s))
  {
  }

  /** Main progress theorem: no matter which enabled step is taken next, a run of protocol steps
      takes at most `Measure` steps, and when it can go no further everything is delivered. */
  lemma {:induction false} EveryRunCompletes(c: Channel, steps: seq<Step>)
    requires Inv(c) && !Failed(c) && ProgressRun(c, steps) && forall p :: p in c.sent ==> Framed(p)
    ensures |steps| <= Measure(c) - Measure(After(c, steps))
    ensures var d := After(c, steps);
            AtRest(d) ==> d.sent == c.sent && |d.rx.delivered| == |c.sent| && AllIntact(d.rx.delivered, c.sent)
                          && Drained(d.tx) && d.rx.read == ReadingHeader([])
    decreases |steps|
  {
    if steps == [] {
      if AtRest(c) { RestIsComplete(c); }
    } else {
      ApplyInv(c, steps[0]);
      ProgressDecreases(c, steps[0]);
      SentUnchanged(c, steps[0]);
      EveryRunCompletes(Apply(c, steps[0]), steps[1..]);
    }
  }
}
