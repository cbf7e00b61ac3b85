/**
 Runs in which what is delivered is not what was sent: a packet whose size field is not its
 body's length, and an empty packet after a non-empty one.
 */
module Misdelivery {
  import opened Bytes
  import opened NetPacket
  import opened NetTCPConnection
  import opened Channel

  // ---------- runs of one direction ----------

  /** The steps that are possible, one after the other, with both sockets open. */
  function Feed(c: Channel, steps: seq<Step>): Channel {
    if steps == [] then c else
      var d := Feed(c, steps[..|steps| - 1]);
      if Enabled(d, steps[|steps| - 1], true, true) then Apply(d, steps[|steps| - 1]) else d
  }

  predicate NoFailure(steps: seq<Step>) {
    forall s :: s in steps ==> !s.WriteFails? && !s.ReadFails?
  }

  function FromA(steps: seq<Step>): seq<Event> {
    seq(|steps|, i requires 0 <= i < |steps| => OnAB(steps[i]))
  }

  lemma {:induction false} RunFeeds(steps: seq<Step>)
    requires NoFailure(steps)
    ensures Run(FromA(steps)) == LINK_INIT.(ab := Feed(CHANNEL_INIT, steps))
    decreases |steps|
  {
    if steps != [] {
      var init := steps[..|steps| - 1];
      RunFeeds(init);
      assert FromA(steps)[..|steps| - 1] == FromA(init);
    }
  }

  lemma {:induction false} FeedAppend(c: Channel, a: seq<Step>, b: seq<Step>)
    ensures Feed(c, a + b) == Feed(Feed(c, a), b)
    decreases |b|
  {
    if b == [] {
      assert a + b == a;
    } else {
      FeedAppend(c, a, b[..|b| - 1]);
      assert (a + b)[..|a + b| - 1] == a + b[..|b| - 1];
    }
  }

  lemma FeedOne(c: Channel, s: Step)
    requires Enabled(c, s, true, true)
    ensures Feed(c, [s]) == Apply(c, s)
  {
    assert Feed(c, [s][..0]) == c;
  }

  lemma FeedTwo(c: Channel, s: Step, t: Step)
    requires Enabled(c, s, true, true) && Enabled(Apply(c, s), t, true, true)
    ensures Feed(c, [s, t]) == Apply(Apply(c, s), t)
  {
    FeedOne(c, s);
    FeedOne(Apply(c, s), t);
    FeedAppend(c, [s], [t]);
    assert [s] + [t] == [s, t];
  }

  // ---------- sending and receiving one packet ----------

  /** Posting a packet and writing all of its header, */
  function HeaderSteps(p: Packet): seq<Step> {
    [Post(p), RunPost] + [WriteSome(HEADER_SIZE), WriteHeaderDone]
  }

  /** and all of its body, if it has one. */
  function SendSteps(p: Packet): seq<Step> {
    HeaderSteps(p) + if p.body == [] then [] else [WriteSome(|p.body|), WriteDataDone]
  }

  /** The channel `d` is the idle channel `c` after the packet has been sent. */
  predicate HasSent(c: Channel, d: Channel, p: Packet) {
    && d.sent == c.sent + [p] && d.wire == c.wire + PacketBytes(p) && d.rx == c.rx
    && Drained(d.tx) && TxInv(d.tx)
  }

  lemma SendsHeader(c: Channel, p: Packet)
    requires Drained(c.tx) && TxInv(c.tx)
    ensures var d := Feed(c, HeaderSteps(p));
            && d.sent == c.sent + [p] && d.wire == c.wire + EncodeHeader(p.header) && d.rx == c.rx && TxInv(d.tx)
            && d.tx.posted == []
            && if p.body == [] then Drained(d.tx) else d.tx.pktOut == [p] && d.tx.write == WritingData(0)
  {
    FeedTwo(c, Post(p), RunPost);
    var d := Feed(c, [Post(p), RunPost]);
    assert d.tx.pktOut == [p] && d.tx.write == WritingHeader(0) && d.tx.posted == [];
    assert Unwritten(d.tx)[..HEADER_SIZE] == EncodeHeader(p.header);
    FeedTwo(d, WriteSome(HEADER_SIZE), WriteHeaderDone);
    FeedAppend(c, [Post(p), RunPost], [WriteSome(HEADER_SIZE), WriteHeaderDone]);
  }

  lemma Sends(c: Channel, p: Packet)
    requires Drained(c.tx) && TxInv(c.tx)
    ensures HasSent(c, Feed(c, SendSteps(p)), p)
  {
    SendsHeader(c, p);
    var d := Feed(c, HeaderSteps(p));
    if p.body == [] {
      assert SendSteps(p) == HeaderSteps(p);
      assert PacketBytes(p) == EncodeHeader(p.header);
    } else {
      assert Unwritten(d.tx)[..|p.body|] == p.body;
      FeedTwo(d, WriteSome(|p.body|), WriteDataDone);
      FeedAppend(c, HeaderSteps(p), [WriteSome(|p.body|), WriteDataDone]);
      Associative(c.wire, EncodeHeader(p.header), p.body);
    }
  }

  const READ_HEADER: seq<Step> := [ReadSome(HEADER_SIZE), ReadHeaderDone]

  lemma ReadsHeader(c: Channel, h: Header, rest: seq<byte>)
    requires TxInv(c.tx) && c.rx.read == ReadingHeader([]) && c.wire == EncodeHeader(h) + rest
    ensures Feed(c, READ_HEADER) == c.(wire := rest, rx := HeaderRead(c.rx.(read := ReadingHeader(EncodeHeader(h)))))
  {
    assert c.wire[..HEADER_SIZE] == EncodeHeader(h) && c.wire[HEADER_SIZE..] == rest;
    assert [] + c.wire[..HEADER_SIZE] == EncodeHeader(h);
    FeedTwo(c, ReadSome(HEADER_SIZE), ReadHeaderDone);
  }

  lemma ReadsBody(c: Channel, body: seq<byte>, rest: seq<byte>)
    requires TxInv(c.tx) && c.rx.read == ReadingData([]) && c.wire == body + rest
    requires |body| == |c.rx.tmp.body| > 0
    ensures Feed(c, [ReadSome(|body|), ReadDataDone]) ==
            c.(wire := rest, rx := DataRead(c.rx.(read := ReadingData(body))))
  {
    assert c.wire[..|body|] == body && c.wire[|body|..] == rest;
    assert [] + c.wire[..|body|] == body;
    FeedTwo(c, ReadSome(|body|), ReadDataDone);
  }

  /** Receiving a packet of size `|body|`, with these bytes following its header on the wire. */
  lemma Receives(c: Channel, h: Header, body: seq<byte>, rest: seq<byte>)
    requires TxInv(c.tx) && c.rx.read == ReadingHeader([]) && |body| == h.size > 0
    requires c.wire == EncodeHeader(h) + (body + rest)
    ensures var d := Feed(c, READ_HEADER + [ReadSome(|body|), ReadDataDone]);
            && d.sent == c.sent && d.tx == c.tx && d.wire == rest && d.rx.read == ReadingHeader([])
            && d.rx.tmp == Packet(h, body) && d.rx.delivered == c.rx.delivered + [Packet(h, body)]
  {
    DecodeEncodeHeader(h);
    ReadsHeader(c, h, body + rest);
    ReadsBody(Feed(c, READ_HEADER), body, rest);
    FeedAppend(c, READ_HEADER, [ReadSome(|body|), ReadDataDone]);
  }

  // ---------- the runs ----------

  /** Both packets are sent before anything is read; then one packet of size `n` is read. */
  function TwoSends(p: Packet, q: Packet): seq<Step> {
    [StartReading] + SendSteps(p) + SendSteps(q)
  }

  lemma BothSent(p: Packet, q: Packet)
    ensures var c := Feed(CHANNEL_INIT, TwoSends(p, q));
            && c.sent == [p, q] && c.wire == PacketBytes(p) + PacketBytes(q) && TxInv(c.tx)
            && c.rx.read == ReadingHeader([]) && c.rx.delivered == [] && c.rx.tmp == EMPTY_PACKET
  {
    FeedOne(CHANNEL_INIT, StartReading);
    var c := Feed(CHANNEL_INIT, [StartReading]);
    Sends(c, p);
    FeedAppend(CHANNEL_INIT, [StartReading], SendSteps(p));
    var d := Feed(c, SendSteps(p));
    Sends(d, q);
    FeedAppend(CHANNEL_INIT, [StartReading] + SendSteps(p), SendSteps(q));
    assert [] + PacketBytes(p) == PacketBytes(p);
  }

  function UnframedRun(p: Packet, q: Packet): seq<Step> {
    TwoSends(p, q) + (READ_HEADER + [ReadSome(p.header.size), ReadDataDone])
  }

  lemma QuietSends(p: Packet, q: Packet)
    ensures NoFailure(TwoSends(p, q))
  {
    assert NoFailure(SendSteps(p)) && NoFailure(SendSteps(q));
  }

  lemma UnframedDelivery(p: Packet, q: Packet)
    requires p.body == [] && 0 < p.header.size <= |PacketBytes(q)|
    ensures var d := Feed(CHANNEL_INIT, UnframedRun(p, q));
            d.sent == [p, q] && d.rx.delivered == [Packet(p.header, PacketBytes(q)[..p.header.size])]
  {
    var n := p.header.size;
    BothSent(p, q);
    assert PacketBytes(p) == EncodeHeader(p.header);
    assert PacketBytes(q) == PacketBytes(q)[..n] + PacketBytes(q)[n..];
    Receives(Feed(CHANNEL_INIT, TwoSends(p, q)), p.header, PacketBytes(q)[..n], PacketBytes(q)[n..]);
    FeedAppend(CHANNEL_INIT, TwoSends(p, q), READ_HEADER + [ReadSome(n), ReadDataDone]);
  }

  /** A packet that claims bytes it does not have is delivered with the first bytes of the next
      packet as its body, so what is delivered is not intact. */
  lemma UnframedTakesBytes(p: Packet, q: Packet)
    requires p.body == [] && 0 < p.header.size <= |PacketBytes(q)|
    ensures var events := FromA(UnframedRun(p, q));
            && Posts(events) == [p, q]
            && Run(events).ab.rx.delivered == [Packet(p.header, PacketBytes(q)[..p.header.size])]
            && !AllIntact(Run(events).ab.rx.delivered, Posts(events))
  {
    QuietSends(p, q);
    RunFeeds(UnframedRun(p, q));
    RunPosts(FromA(UnframedRun(p, q)));
    UnframedDelivery(p, q);
    NotIntact(p, q, PacketBytes(q)[..p.header.size]);
  }

  lemma NotIntact(p: Packet, q: Packet, body: seq<byte>)
    requires p.body == [] && |body| == p.header.size > 0
    ensures !AllIntact([Packet(p.header, body)], [p, q])
  {
    assert !Intact([Packet(p.header, body)][0], [p, q][0]);
  }

  /** Size 1 without a body, then an empty packet: the first byte of the second header, which is
      its command, is delivered as the body of the first packet. */
  lemma UnframedExample()
    ensures var p, q := Packet(Header(CMD_SERVER_MESSAGE, 0, 1), []), NewPacket(CMD_MESSAGE_ALL);
            var events := FromA(UnframedRun(p, q));
            && Run(events).ab.rx.delivered == [Packet(p.header, [CMD_MESSAGE_ALL])]
            && !AllIntact(Run(events).ab.rx.delivered, Posts(events))
  {
    var p, q := Packet(Header(CMD_SERVER_MESSAGE, 0, 1), []), NewPacket(CMD_MESSAGE_ALL);
    UnframedTakesBytes(p, q);
    assert PacketBytes(q)[..1] == Le16(CMD_MESSAGE_ALL)[..1] == [CMD_MESSAGE_ALL];
  }

  function StaleRun(p: Packet, h: Header): seq<Step> {
    TwoSends(p, Packet(h, [])) + (READ_HEADER + [ReadSome(p.header.size), ReadDataDone]) + READ_HEADER
  }

  /** What the reader has after both packets. */
  lemma StaleDelivery(p: Packet, h: Header)
    requires Framed(p) && p.body != [] && h.size == 0
    ensures var d := Feed(CHANNEL_INIT, StaleRun(p, h));
            d.sent == [p, Packet(h, [])] && d.rx.delivered == [p, Packet(h, p.body)]
  {
    var q := Packet(h, []);
    BothSent(p, q);
    var c := Feed(CHANNEL_INIT, TwoSends(p, q));
    Associative(EncodeHeader(p.header), p.body, PacketBytes(q));
    Receives(c, p.header, p.body, PacketBytes(q));
    var read := READ_HEADER + [ReadSome(p.header.size), ReadDataDone];
    FeedAppend(CHANNEL_INIT, TwoSends(p, q), read);
    ReceivesEmpty(Feed(c, read), h);
    FeedAppend(CHANNEL_INIT, TwoSends(p, q) + read, READ_HEADER);
  }

  /** Receiving a packet of size zero delivers the body that is left over. */
  lemma ReceivesEmpty(c: Channel, h: Header)
    requires TxInv(c.tx) && c.rx.read == ReadingHeader([]) && h.size == 0 && c.wire == PacketBytes(Packet(h, []))
    ensures var d := Feed(c, READ_HEADER);
            d.sent == c.sent && d.rx.delivered == c.rx.delivered + [Packet(h, c.rx.tmp.body)]
  {
    DecodeEncodeHeader(h);
    ReadsHeader(c, h, []);
  }

  /** An empty packet after any non-empty one is delivered with that one's body: intact on its zero
      bytes, but not the packet that was sent. */
  lemma StaleBody(p: Packet, h: Header)
    requires Framed(p) && p.body != [] && h.size == 0
    ensures var events := FromA(StaleRun(p, h));
            && Posts(events) == [p, Packet(h, [])]
            && Run(events).ab.rx.delivered == [p, Packet(h, p.body)]
            && AllIntact(Run(events).ab.rx.delivered, Posts(events))
            && Run(events).ab.rx.delivered != Posts(events)
  {
    QuietSends(p, Packet(h, []));
    RunFeeds(StaleRun(p, h));
    RunPosts(FromA(StaleRun(p, h)));
    StaleDelivery(p, h);
    StaleIntact(p, h);
  }

  lemma StaleIntact(p: Packet, h: Header)
    requires Framed(p) && p.body != [] && h.size == 0
    ensures AllIntact([p, Packet(h, p.body)], [p, Packet(h, [])]) && [p, Packet(h, p.body)] != [p, Packet(h, [])]
  {
    assert [p, Packet(h, p.body)][1] != [p, Packet(h, [])][1];
  }

  /** An empty packet that follows a one-byte packet is delivered with that byte in its body. */
  lemma StaleBodyExample()
    ensures var p, h := Packet(Header(CMD_PING, 0, 1), [7]), Header(CMD_MESSAGE_ALL, 0, 0);
            Run(FromA(StaleRun(p, h))).ab.rx.delivered == [p, Packet(h, [7])]
  {
    StaleBody(Packet(Header(CMD_PING, 0, 1), [7]), Header(CMD_MESSAGE_ALL, 0, 0));
  }
}
