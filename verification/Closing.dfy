/** What a closed socket means for a run: from then on its side neither sends nor takes a byte. */
module Closing {
  import opened Bytes
  import opened NetPacket
  import opened NetTCPConnection
  import opened Channel

  /** Apart from the transfer steps themselves, a step is one of the sender's or one of the
      receiver's, and leaves the wire alone. */
  lemma OneSideMoves(c: Channel, s: Step)
    requires Enabled(c, s, true, true) && !s.WriteSome? && !s.ReadSome?
    ensures var d := Apply(c, s);
            d.wire == c.wire && (d.rx == c.rx || (d.tx == c.tx && d.gone == c.gone))
  {
  }

  lemma Cancel(a: seq<byte>, b: seq<byte>, w: seq<byte>)
    requires a + w == b + w
    ensures a == b
  {
    assert |a + w| == |a| + |w| && |b + w| == |b| + |w|;
    assert a == (a + w)[..|a|] && b == (b + w)[..|b|];
  }

  /** Two states that balance, with the same wire and one side the same, have sent and taken the same. */
  lemma SameBalance(c: Channel, d: Channel)
    requires Inv(c) && Inv(d) && d.wire == c.wire && (d.rx == c.rx || (d.tx == c.tx && d.gone == c.gone))
    ensures BytesOut(d) == BytesOut(c) && BytesIn(d) == BytesIn(c)
  {
    if d.rx != c.rx {
      Cancel(BytesIn(d), BytesIn(c), c.wire);
    }
  }

  lemma QuietStep(c: Channel, s: Step)
    requires Inv(c) && Enabled(c, s, true, true) && !s.WriteSome? && !s.ReadSome?
    ensures Inv(Apply(c, s)) && BytesOut(Apply(c, s)) == BytesOut(c) && BytesIn(Apply(c, s)) == BytesIn(c)
  {
    ApplyInv(c, s);
    OneSideMoves(c, s);
    SameBalance(c, Apply(c, s));
  }

  /** Without an open socket on the sending side, no step changes what has left the sender; */
  lemma SenderIsDone(c: Channel, s: Step, rxOpen: bool)
    requires Inv(c) && Enabled(c, s, false, rxOpen)
    ensures Inv(Apply(c, s)) && BytesOut(Apply(c, s)) == BytesOut(c)
  {
    OneWayInv(c, s, false, rxOpen);
    if !s.ReadSome? { QuietStep(c, s); }
  }

  /** without one on the receiving side, none changes what the receiver has taken. */
  lemma ReceiverIsDone(c: Channel, s: Step, txOpen: bool)
    requires Inv(c) && Enabled(c, s, txOpen, false)
    ensures Inv(Apply(c, s)) && BytesIn(Apply(c, s)) == BytesIn(c)
  {
    OneWayInv(c, s, txOpen, false);
    if !s.WriteSome? { QuietStep(c, s); }
  }

  /** A's socket is closed, when A had sent `out` and taken `got`. */
  ghost predicate Ended(l: Link, out: seq<byte>, got: seq<byte>) {
    LinkInv(l) && !l.openA && BytesOut(l.ab) == out && BytesIn(l.ba) == got
  }

  lemma EndedStep(l: Link, e: Event, out: seq<byte>, got: seq<byte>)
    requires Ended(l, out, got)
    ensures Ended(Next(l, e), out, got)
  {
    match e {
      case OnAB(s) => if Enabled(l.ab, s, false, l.openB) { SenderIsDone(l.ab, s, l.openB); }
      case OnBA(s) => if Enabled(l.ba, s, l.openB, false) { ReceiverIsDone(l.ba, s, l.openB); }
      case CloseA =>
      case CloseB =>
    }
  }

  lemma RunOne(events: seq<Event>, e: Event)
    ensures Run(events + [e]) == Next(Run(events), e)
  {
    assert (events + [e])[..|events|] == events;
  }

  lemma EndedRunStep(events: seq<Event>, e: Event, out: seq<byte>, got: seq<byte>)
    requires Ended(Run(events), out, got)
    ensures Ended(Run(events + [e]), out, got)
  {
    RunOne(events, e);
    EndedStep(Run(events), e, out, got);
  }

  lemma {:induction false} EndedStays(before: seq<Event>, after: seq<Event>, out: seq<byte>, got: seq<byte>)
    requires Ended(Run(before), out, got)
    ensures Ended(Run(before + after), out, got)
    decreases |after|
  {
    if after == [] {
      assert before + after == before;
    } else {
      var init, e := after[..|after| - 1], after[|after| - 1];
      EndedStays(before, init, out, got);
      assert before + after == (before + init) + [e];
      EndedRunStep(before + init, e, out, got);
    }
  }

  /** The event ends A's side: a handler of A gets an error, or A disconnects. */
  predicate EndsA(l: Link, e: Event) {
    || e == CloseA
    || (e == OnAB(WriteFails) && TxInv(l.ab.tx) && WriteOutstanding(l.ab.tx))
    || (e == OnBA(ReadFails) && TxInv(l.ba.tx) && ReadOutstanding(l.ba.rx))
  }

  lemma WriteFailsQuiet(c: Channel)
    requires Inv(c) && WriteOutstanding(c.tx)
    ensures Enabled(c, WriteFails, true, true) && Inv(Apply(c, WriteFails)) && BytesOut(Apply(c, WriteFails)) == BytesOut(c)
  {
    QuietStep(c, WriteFails);
  }

  lemma ReadFailsQuiet(c: Channel)
    requires Inv(c) && ReadOutstanding(c.rx)
    ensures Enabled(c, ReadFails, true, true) && Inv(Apply(c, ReadFails)) && BytesIn(Apply(c, ReadFails)) == BytesIn(c)
  {
    QuietStep(c, ReadFails);
  }

  /** A failing handler closes the socket of its own side and does nothing else to the link. */
  lemma FailureCloses(l: Link)
    ensures Enabled(l.ab, WriteFails, true, true) ==>
              Next(l, OnAB(WriteFails)) == Link(Apply(l.ab, WriteFails), l.ba, false, l.openB)
    ensures Enabled(l.ba, ReadFails, true, true) ==>
              Next(l, OnBA(ReadFails)) == Link(l.ab, Apply(l.ba, ReadFails), false, l.openB)
  {
  }

  lemma EndingEnds(l: Link, e: Event)
    requires LinkInv(l) && EndsA(l, e)
    ensures Ended(Next(l, e), BytesOut(l.ab), BytesIn(l.ba))
  {
    FailureCloses(l);
    if e.OnAB? {
      WriteFailsQuiet(l.ab);
    } else if e.OnBA? {
      ReadFailsQuiet(l.ba);
    }
  }

  /** Over all runs: once a write or read of A has failed, or A has disconnected, A never sends nor
      takes another byte in either direction, whatever happens after. */
  lemma EndedSideIsDone(before: seq<Event>, e: Event, after: seq<Event>)
    requires EndsA(Run(before), e)
    ensures LinkInv(Run(before)) && LinkInv(Run(before + [e] + after))
    ensures var l, m := Run(before), Run(before + [e] + after);
            BytesOut(m.ab) == BytesOut(l.ab) && BytesIn(m.ba) == BytesIn(l.ba)
  {
    RunInv(before);
    EndingEnds(Run(before), e);
    RunOne(before, e);
    EndedStays(before + [e], after, BytesOut(Run(before).ab), BytesIn(Run(before).ba));
  }

  lemma MirrorSplit(before: seq<Event>, e: Event, after: seq<Event>)
    ensures Mirrored(before + [e] + after) == Mirrored(before) + [MirrorEvent(e)] + Mirrored(after)
  {
  }

  /** The same for B. */
  lemma EndedSideIsDoneB(before: seq<Event>, e: Event, after: seq<Event>)
    requires EndsA(Mirror(Run(before)), MirrorEvent(e))
    ensures LinkInv(Run(before)) && LinkInv(Run(before + [e] + after))
    ensures var l, m := Run(before), Run(before + [e] + after);
            BytesOut(m.ba) == BytesOut(l.ba) && BytesIn(m.ab) == BytesIn(l.ab)
  {
    RunInv(before);
    RunInv(before + [e] + after);
    RunMirrored(before);
    RunMirrored(before + [e] + after);
    MirrorSplit(before, e, after);
    EndedSideIsDone(Mirrored(before), MirrorEvent(e), Mirrored(after));
  }
}
