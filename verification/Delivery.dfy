/**
 From many clients to the server's packet handler: every connection delivers into one shared
 queue, and `Process` calls take packets out of it while further packets arrive.
 */
module Delivery {
  import opened Bytes
  import opened NetPacket
  import opened NetTCPConnection
  import opened Channel

  /** A `Process` call under way: how many packets were handled before it, and its `max_pkt`. */
  datatype Call = NoCall | Processing(start: nat, maxPkt: nat)

  /** `arrived` is history: every push into the shared queue, in order. In each link, A is the
      client and B the server. */
  datatype Hub = Hub(links: map<nat, Link>, arrived: seq<OwnedPacket>, queue: seq<OwnedPacket>,
                     handled: seq<OwnedPacket>, call: Call)

  const HUB_INIT: Hub := Hub(map[], [], [], [], NoCall)

  datatype HubEvent =
    | Accept(c: nat)
    | OnLink(c: nat, event: Event)
    | BeginProcess(maxPkt: nat)
    | HandleOne
    | EndProcess

  predicate LoopGoesOn(h: Hub) {
    h.call.Processing? && |h.handled| - h.call.start < h.call.maxPkt && h.queue != []
  }

  /** One step; an event that is not possible leaves the hub as it is. */
  function HubNext(h: Hub, e: HubEvent): Hub {
    match e
    case Accept(c) =>
      if c in h.links then h else h.(links := h.links[c := LINK_INIT])
    case OnLink(c, event) =>
      if c !in h.links then h else
      MoveLink(h, c, Next(h.links[c], event))
    case BeginProcess(maxPkt) =>
      if h.call.NoCall? then h.(call := Processing(|h.handled|, maxPkt)) else h
    case HandleOne =>
      if LoopGoesOn(h) then h.(handled := h.handled + [h.queue[0]], queue := h.queue[1..]) else h
    case EndProcess =>
      if LoopGoesOn(h) then h else h.(call := NoCall)
  }

  /** The link of `c` moves to `l`; whatever the server's side of it delivered is queued. */
  function MoveLink(h: Hub, c: nat, l: Link): Hub
    requires c in h.links
  {
    var arriving := Own(Conn(c), NewlyDelivered(h.links[c], l));
    h.(links := h.links[c := l], arrived := h.arrived + arriving, queue := h.queue + arriving)
  }

  /** What a step of the link pushed on the server's side. */
  function NewlyDelivered(before: Link, after: Link): seq<Packet> {
    if |after.ab.rx.delivered| <= |before.ab.rx.delivered| then []
    else after.ab.rx.delivered[|before.ab.rx.delivered|..]
  }

  function HubRun(events: seq<HubEvent>): Hub {
    if events == [] then HUB_INIT else HubNext(HubRun(events[..|events| - 1]), events[|events| - 1])
  }

  /** The packets of connection `c` in a list, in order. */
  function ForConn(os: seq<OwnedPacket>, c: nat): seq<Packet> {
    if os == [] then [] else
      var last := os[|os| - 1];
      ForConn(os[..|os| - 1], c) + if last.connection == Conn(c) then [last.pkt] else []
  }

  lemma {:induction false} ForConnConcat(a: seq<OwnedPacket>, b: seq<OwnedPacket>, c: nat)
    ensures ForConn(a + b, c) == ForConn(a, c) + ForConn(b, c)
    decreases |b|
  {
    if b == [] {
      assert a + b == a;
    } else {
      ForConnConcat(a, b[..|b| - 1], c);
      assert (a + b)[..|a + b| - 1] == a + b[..|b| - 1];
    }
  }

  lemma {:induction false} ForConnOwn(c: nat, ps: seq<Packet>, d: nat)
    ensures ForConn(Own(Conn(c), ps), d) == if c == d then ps else []
    decreases |ps|
  {
    if ps != [] {
      ForConnOwn(c, ps[..|ps| - 1], d);
      assert Own(Conn(c), ps)[..|ps| - 1] == Own(Conn(c), ps[..|ps| - 1]);
      assert ps == ps[..|ps| - 1] + [ps[|ps| - 1]];
    }
  }

  ghost predicate HubInv(h: Hub) {
    LinksInv(h) && QueueInv(h)
  }

  ghost predicate LinksInv(h: Hub) {
    forall c :: c in h.links ==> Reachable(h.links[c])
  }

  /** Of every connection exactly what it delivered has arrived. */
  ghost predicate Accounted(links: map<nat, Link>, arrived: seq<OwnedPacket>) {
    forall c: nat :: ForConn(arrived, c) == if c in links then links[c].ab.rx.delivered else []
  }

  ghost predicate QueueInv(h: Hub) {
    && h.arrived == h.handled + h.queue
    && Accounted(h.links, h.arrived)
    && (h.call.Processing? ==> 0 <= |h.handled| - h.call.start <= h.call.maxPkt)
  }

  lemma DeliveredGrows(l: Link, event: Event)
    ensures l.ab.rx.delivered <= Next(l, event).ab.rx.delivered
  {
  }

  lemma AccountedMove(links: map<nat, Link>, arrived: seq<OwnedPacket>, c: nat, l: Link, news: seq<Packet>)
    requires Accounted(links, arrived) && c in links
    requires l.ab.rx.delivered == links[c].ab.rx.delivered + news
    ensures Accounted(links[c := l], arrived + Own(Conn(c), news))
  {
    var arriving := Own(Conn(c), news);
    forall d: nat ensures ForConn(arrived + arriving, d) == if d in links[c := l] then links[c := l][d].ab.rx.delivered else [] {
      ForConnConcat(arrived, arriving, d);
      ForConnOwn(c, news, d);
      assert ForConn(arrived, d) + [] == ForConn(arrived, d);
    }
  }

  lemma NewsExtend(before: Link, after: Link)
    requires before.ab.rx.delivered <= after.ab.rx.delivered
    ensures after.ab.rx.delivered == before.ab.rx.delivered + NewlyDelivered(before, after)
  {
  }

  lemma MoveLinkInv(h: Hub, c: nat, l: Link)
    requires QueueInv(h) && c in h.links && h.links[c].ab.rx.delivered <= l.ab.rx.delivered
    ensures QueueInv(MoveLink(h, c, l))
  {
    var news := NewlyDelivered(h.links[c], l);
    var arriving := Own(Conn(c), news);
    NewsExtend(h.links[c], l);
    AccountedMove(h.links, h.arrived, c, l, news);
    Associative(h.handled, h.queue, arriving);
  }

  lemma HandleOneInv(h: Hub)
    requires HubInv(h) && LoopGoesOn(h)
    ensures HubInv(HubNext(h, HandleOne))
  {
    assert h.handled + h.queue == (h.handled + [h.queue[0]]) + h.queue[1..];
  }

  lemma HubNextInv(h: Hub, e: HubEvent)
    requires HubInv(h)
    ensures HubInv(HubNext(h, e))
  {
    match e {
      case Accept(c) =>
        assert Run([]) == LINK_INIT;
      case OnLink(c, event) =>
        if c in h.links {
          DeliveredGrows(h.links[c], event);
          NextReachable(h.links[c], event);
          MoveLinkInv(h, c, Next(h.links[c], event));
        }
      case BeginProcess(_) =>
      case HandleOne => if LoopGoesOn(h) { HandleOneInv(h); }
      case EndProcess =>
    }
  }

  lemma {:induction false} HubRunInv(events: seq<HubEvent>)
    ensures HubInv(HubRun(events))
  {
    if events != [] {
      HubRunInv(events[..|events| - 1]);
      HubNextInv(HubRun(events[..|events| - 1]), events[|events| - 1]);
    }
  }

  /** What client `c` has posted so far. */
  function PostedTo(h: Hub, c: nat): seq<Packet> {
    if c in h.links then h.links[c].ab.sent else []
  }

  function PostedByEvent(h: Hub, e: HubEvent, c: nat): seq<Packet> {
    if e.OnLink? && e.c == c && c in h.links then PostedBy(e.event) else []
  }

  /** `PostedTo` really is the list of the client's sends: a step extends it by its own send only. */
  lemma PostedGrows(h: Hub, e: HubEvent, c: nat)
    requires HubInv(h)
    ensures PostedTo(HubNext(h, e), c) == PostedTo(h, c) + PostedByEvent(h, e, c)
  {
    if e.OnLink? && e.c in h.links {
      ReachableInv(h.links[e.c]);
      NextSent(h.links[e.c], e.event);
    }
  }

  /** Nothing is lost, duplicated or reordered between the connections and the handler: the
      handled packets of `c`, followed by those still queued, are what `c` delivered. */
  lemma QueueConserves(events: seq<HubEvent>, c: nat)
    ensures var h := HubRun(events);
            h.arrived == h.handled + h.queue
            && ForConn(h.handled, c) + ForConn(h.queue, c) ==
               if c in h.links then h.links[c].ab.rx.delivered else []
  {
    HubRunInv(events);
    var h := HubRun(events);
    ForConnConcat(h.handled, h.queue, c);
  }

  /** One `Process` call handles at most `max_pkt` packets, however many arrive meanwhile. */
  lemma ProcessIsBounded(before: seq<HubEvent>, during: seq<HubEvent>, maxPkt: nat)
    requires HubRun(before).call.NoCall?
    requires forall e :: e in during ==> !e.EndProcess?
    ensures |HubRun(before + [BeginProcess(maxPkt)] + during).handled| <= |HubRun(before).handled| + maxPkt
  {
    HubRunInv(before + [BeginProcess(maxPkt)] + during);
    CallContinues(before, during, maxPkt);
  }

  lemma {:induction false} CallContinues(before: seq<HubEvent>, during: seq<HubEvent>, maxPkt: nat)
    requires HubRun(before).call.NoCall?
    requires forall e :: e in during ==> !e.EndProcess?
    ensures HubRun(before + [BeginProcess(maxPkt)] + during).call == Processing(|HubRun(before).handled|, maxPkt)
    decreases |during|
  {
    var all := before + [BeginProcess(maxPkt)] + during;
    if during == [] {
      assert all[..|all| - 1] == before;
    } else {
      CallContinues(before, during[..|during| - 1], maxPkt);
      assert all[..|all| - 1] == before + [BeginProcess(maxPkt)] + during[..|during| - 1];
      assert all[|all| - 1] in during;
    }
  }

  /** End-to-end theorem: for any interleaving of all connections' traffic with `Process` calls,
      the packets handled for a client are an intact, in-order prefix of the packets that client
      posted, provided it posts framed packets. */
  lemma {:induction false} HandledIsPrefixOfPosted(events: seq<HubEvent>, c: nat)
    requires forall p :: p in PostedTo(HubRun(events), c) ==> Framed(p)
    ensures AllIntact(ForConn(HubRun(events).handled, c), PostedTo(HubRun(events), c))
  {
    var h := HubRun(events);
    HubRunInv(events);
    QueueConserves(events, c);
    if c in h.links {
      ReachableInv(h.links[c]);
      DeliveredIntactIff(h.links[c].ab);
      assert forall i :: 0 <= i < |ForConn(h.handled, c)| ==> ForConn(h.handled, c)[i] == h.links[c].ab.rx.delivered[i];
    }
  }
}
