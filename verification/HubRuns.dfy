/** What the hub does, told from its events alone: its links, and what a `Process` call handles. */
module HubRuns {
  import opened Bytes
  import opened NetPacket
  import opened Channel
  import opened Delivery

  // ---------- links ----------

  predicate Accepted(events: seq<HubEvent>, c: nat) {
    exists i :: 0 <= i < |events| && events[i] == Accept(c)
  }

  /** What happens on the link of `c` once `c` has been accepted. */
  function LinkEvents(events: seq<HubEvent>, c: nat): seq<Event> {
    if events == [] then [] else
    var init, last := events[..|events| - 1], events[|events| - 1];
    LinkEvents(init, c) + if last.OnLink? && last.c == c && Accepted(init, c) then [last.event] else []
  }

  lemma AcceptedLast(events: seq<HubEvent>, c: nat)
    requires events != []
    ensures Accepted(events, c) <==> Accepted(events[..|events| - 1], c) || events[|events| - 1] == Accept(c)
  {
    var init := events[..|events| - 1];
    if Accepted(init, c) {
      var i :| 0 <= i < |init| && init[i] == Accept(c);
      assert events[i] == Accept(c);
    }
    if Accepted(events, c) && events[|events| - 1] != Accept(c) {
      var i :| 0 <= i < |events| && events[i] == Accept(c);
      assert init[i] == Accept(c);
    }
  }

  lemma RunNext(events: seq<Event>, e: Event)
    ensures Run(events + [e]) == Next(Run(events), e)
  {
    assert (events + [e])[..|events|] == events;
  }

  lemma NoEventsYet(events: seq<HubEvent>, c: nat)
    requires !Accepted(events, c)
    ensures LinkEvents(events, c) == []
    decreases |events|
  {
    if events != [] {
      AcceptedLast(events, c);
      NoEventsYet(events[..|events| - 1], c);
    }
  }

  /** The link of `c` is as it should be after these events. */
  predicate LinkIs(h: Hub, events: seq<HubEvent>, c: nat) {
    (c in h.links <==> Accepted(events, c)) && (c in h.links ==> h.links[c] == Run(LinkEvents(events, c)))
  }

  lemma LinkStep(h: Hub, events: seq<HubEvent>, c: nat)
    requires events != [] && LinkIs(h, events[..|events| - 1], c)
    ensures LinkIs(HubNext(h, events[|events| - 1]), events, c)
  {
    var init, last := events[..|events| - 1], events[|events| - 1];
    AcceptedLast(events, c);
    if last.OnLink? && last.c == c && Accepted(init, c) {
      RunNext(LinkEvents(init, c), last.event);
    } else {
      assert LinkEvents(events, c) == LinkEvents(init, c);
      if last == Accept(c) && !Accepted(init, c) { NoEventsYet(init, c); }
    }
  }

  /** Over all runs of the hub: there is a link for exactly the accepted clients, and each is where
      its own events since then have brought it, however the other clients' traffic and the
      `Process` calls are interleaved with them. */
  lemma {:induction false} LinksFollowEvents(events: seq<HubEvent>, c: nat)
    ensures var h := HubRun(events);
            && (c in h.links <==> Accepted(events, c))
            && (c in h.links ==> h.links[c] == Run(LinkEvents(events, c)))
    decreases |events|
  {
    if events != [] {
      LinksFollowEvents(events[..|events| - 1], c);
      LinkStep(HubRun(events[..|events| - 1]), events, c);
    }
  }

  /** Hence end to end, from the events alone: what was handled for `c`, then what is queued, is an
      intact beginning of the framed packets that `c` posted since it was accepted. */
  lemma HandledFromEvents(events: seq<HubEvent>, c: nat)
    requires forall p :: p in Posts(LinkEvents(events, c)) ==> Framed(p)
    ensures var h := HubRun(events);
            AllIntact(ForConn(h.handled, c) + ForConn(h.queue, c), Posts(LinkEvents(events, c)))
  {
    LinksFollowEvents(events, c);
    QueueConserves(events, c);
    if c in HubRun(events).links {
      DeliveryIsPrefix(LinkEvents(events, c));
    }
  }

  // ---------- one call ----------

  function Handles(n: nat): seq<HubEvent> {
    seq(n, i => HandleOne)
  }

  lemma HubRunOne(events: seq<HubEvent>, e: HubEvent)
    ensures HubRun(events + [e]) == HubNext(HubRun(events), e)
  {
    assert (events + [e])[..|events|] == events;
  }

  /** A call that began with `handled` and `queue` has handled the first `k` packets. */
  predicate HandledOf(h: Hub, handled: seq<OwnedPacket>, queue: seq<OwnedPacket>, maxPkt: nat, k: nat) {
    && k <= |queue|
    && h.handled == handled + queue[..k] && h.queue == queue[k..]
    && h.call == Processing(|handled|, maxPkt)
  }

  lemma HandleStep(h: Hub, handled: seq<OwnedPacket>, queue: seq<OwnedPacket>, maxPkt: nat, k: nat)
    requires HandledOf(h, handled, queue, maxPkt, k) && k <= maxPkt
    ensures HandledOf(HubNext(h, HandleOne), handled, queue, maxPkt, if k < maxPkt && k < |queue| then k + 1 else k)
  {
    if k < maxPkt && k < |queue| {
      assert queue[..k + 1] == queue[..k] + [queue[k]];
      Associative(handled, queue[..k], [queue[k]]);
    }
  }

  lemma Begins(before: seq<HubEvent>, maxPkt: nat)
    requires HubRun(before).call.NoCall?
    ensures var h := HubRun(before);
            HandledOf(HubRun(before + [BeginProcess(maxPkt)] + Handles(0)), h.handled, h.queue, maxPkt, 0)
  {
    var h := HubRun(before);
    HubRunOne(before, BeginProcess(maxPkt));
    assert before + [BeginProcess(maxPkt)] + Handles(0) == before + [BeginProcess(maxPkt)];
    assert h.handled + h.queue[..0] == h.handled;
  }

  lemma OneMore(events: seq<HubEvent>, n: nat)
    ensures HubRun(events + Handles(n + 1)) == HubNext(HubRun(events + Handles(n)), HandleOne)
  {
    HubRunOne(events + Handles(n), HandleOne);
    assert events + Handles(n + 1) == events + Handles(n) + [HandleOne];
  }

  lemma {:induction false} LoopHandles(before: seq<HubEvent>, maxPkt: nat, n: nat)
    requires HubRun(before).call.NoCall?
    ensures var h := HubRun(before);
            HandledOf(HubRun(before + [BeginProcess(maxPkt)] + Handles(n)), h.handled, h.queue, maxPkt,
                      Min(n, Min(maxPkt, |h.queue|)))
    decreases n
  {
    if n == 0 {
      Begins(before, maxPkt);
    } else {
      var h, begun := HubRun(before), before + [BeginProcess(maxPkt)];
      LoopHandles(before, maxPkt, n - 1);
      OneMore(begun, n - 1);
      HandleStep(HubRun(begun + Handles(n - 1)), h.handled, h.queue, maxPkt, Min(n - 1, Min(maxPkt, |h.queue|)));
    }
  }

  /** A `Process(max_pkt)` call after any run, while nothing else happens: after `n` turns of its loop
      it has handled the first min(n, max_pkt, size) packets in order, and it ends exactly when
      these are min(max_pkt, size). */
  lemma ProcessHandles(before: seq<HubEvent>, maxPkt: nat, n: nat)
    requires HubRun(before).call.NoCall?
    ensures var h, t := HubRun(before), HubRun(before + [BeginProcess(maxPkt)] + Handles(n) + [EndProcess]);
            var k := Min(n, Min(maxPkt, |h.queue|));
            && t.handled == h.handled + h.queue[..k] && t.queue == h.queue[k..]
            && (t.call.NoCall? <==> n >= Min(maxPkt, |h.queue|))
  {
    LoopHandles(before, maxPkt, n);
    HubRunOne(before + [BeginProcess(maxPkt)] + Handles(n), EndProcess);
  }
}
