/**
 Who is connected after a run of the server, told from its events alone: which clients were
 accepted, in which order, under which IDs, and which of them are still open.
 */
module Accepting {
  import opened Bytes
  import opened NetPacket
  import opened World
  import opened Roster
  import opened Traffic
  import opened Handlers

  /** The accepted clients in the order of their first acceptance. */
  function Newcomers(events: seq<Event>): seq<nat> {
    if events == [] then [] else
    var earlier := Newcomers(events[..|events| - 1]);
    match events[|events| - 1]
    case Accepted(c) => if c in earlier then earlier else earlier + [c]
    case _ => earlier
  }

  /** The clients whose socket is open: accepted, and not closed since. */
  function StillOpen(events: seq<Event>): set<nat> {
    if events == [] then {} else
    var init := events[..|events| - 1];
    match events[|events| - 1]
    case Accepted(c) => if c in Newcomers(init) then StillOpen(init) else StillOpen(init) + {c}
    case Closed(c) => StillOpen(init) - {c}
    case Received(_, _, _) => StillOpen(init)
  }

  /** The ID of the `i`-th client: the counter wraps at 32 bits. */
  function IdAt(idCnt: u32, i: nat): u32 {
    (idCnt + i) % 0x1_0000_0000
  }

  const GREETING: Packet := Packet(Header(1, 0, 0), [])

  function Conns(cs: seq<nat>): seq<ConnRef> {
    seq(|cs|, i requires 0 <= i < |cs| => Conn(cs[i]))
  }

  /** The clients `cs`, and nobody else, have the IDs that the counter gave them one by one. */
  ghost predicate Numbered(s: State, idCnt: u32, cs: seq<nat>) {
    && NoDuplicates(cs)
    && (forall c :: c in s.ids <==> c in cs)
    && (forall i :: 0 <= i < |cs| ==> cs[i] in s.ids && s.ids[cs[i]] == IdAt(idCnt, i))
    && s.idCnt == IdAt(idCnt, |cs|)
  }

  /** The first packet that each client was sent is the greeting. */
  ghost predicate Greeted(s: State) {
    forall c :: c in s.posted ==> [GREETING] <= s.posted[c]
  }

  /** The connection list is that of the clients `cs` with some left out. */
  ghost predicate InOrder(s: State, cs: seq<nat>) {
    exists members: set<nat> :: s.connections == LiveOnly(Conns(cs), members)
  }

  // ---------- accepting ----------

  lemma FreshAt(s: State, idCnt: u32, cs: seq<nat>)
    requires Numbered(s, idCnt, cs) && |cs| < 0x1_0000_0000
    ensures FreshId(s)
  {
    forall c | c in s.ids ensures s.ids[c] != s.idCnt {
      var i :| 0 <= i < |cs| && cs[i] == c;
      assert s.ids[cs[i]] == IdAt(idCnt, i);
      DistinctIds(idCnt, i, |cs|);
    }
  }

  lemma DistinctIds(idCnt: u32, i: nat, j: nat)
    requires i < j < 0x1_0000_0000
    ensures IdAt(idCnt, i) != IdAt(idCnt, j)
  {
  }

  lemma CountOn(idCnt: u32, n: nat)
    ensures (IdAt(idCnt, n) + 1) % 0x1_0000_0000 == IdAt(idCnt, n + 1)
  {
  }

  lemma AcceptNumbered(s: State, idCnt: u32, cs: seq<nat>, c: nat)
    requires Numbered(s, idCnt, cs) && c !in cs
    ensures Numbered(Accept(s, c), idCnt, cs + [c])
  {
    CountOn(idCnt, |cs|);
    var t, ds := Accept(s, c), cs + [c];
    forall i | 0 <= i < |ds| ensures ds[i] in t.ids && t.ids[ds[i]] == IdAt(idCnt, i) {
      if i < |cs| { assert ds[i] == cs[i] && cs[i] in cs; }
    }
  }

  lemma LiveOnlyAppend(rs: seq<ConnRef>, r: ConnRef, keep: set<nat>)
    ensures LiveOnly(rs + [r], keep) == LiveOnly(rs, keep) + if r.Conn? && r.ptr in keep then [r] else []
  {
    assert (rs + [r])[..|rs|] == rs;
  }

  lemma AcceptInOrder(s: State, cs: seq<nat>, c: nat)
    requires InOrder(s, cs) && c !in cs
    ensures InOrder(Accept(s, c), cs + [c])
  {
    var members: set<nat> :| s.connections == LiveOnly(Conns(cs), members);
    assert Conns(cs + [c]) == Conns(cs) + [Conn(c)];
    LiveOnlyAppend(Conns(cs), Conn(c), members + {c});
    SameKept(Conns(cs), members, members + {c});
    assert Accept(s, c).connections == LiveOnly(Conns(cs + [c]), members + {c});
  }

  // ---------- handling ----------

  lemma {:induction false} LiveOnlyTwice(rs: seq<ConnRef>, a: set<nat>, b: set<nat>)
    ensures LiveOnly(LiveOnly(rs, a), b) == LiveOnly(rs, a * b)
  {
    if rs != [] {
      var init, last := rs[..|rs| - 1], rs[|rs| - 1];
      LiveOnlyTwice(init, a, b);
      if last.Conn? && last.ptr in a {
        LiveOnlyAppend(LiveOnly(init, a), last, b);
      } else {
        assert LiveOnly(rs, a) == LiveOnly(init, a);
      }
    }
  }

  lemma LeaveInOrder(s: State, t: State, w: map<u32, Character>, gone: set<nat>, cs: seq<nat>)
    requires gone <= s.ids.Keys && Leave(s, t, w, gone) && InOrder(s, cs)
    ensures InOrder(t, cs)
  {
    var members: set<nat> :| s.connections == LiveOnly(Conns(cs), members);
    LiveOnlyTwice(Conns(cs), members, s.ids.Keys - gone);
    assert t.connections == LiveOnly(Conns(cs), members * (s.ids.Keys - gone));
  }

  lemma HandledInOrder(s: State, t: State, c: nat, pkt: Packet, order: seq<u32>, cs: seq<nat>)
    requires Base(s) && Keyed(s) && Handleable(s, c, pkt, order) && Handled(s, t, c, pkt, order) && InOrder(s, cs)
    ensures InOrder(t, cs)
  {
    if pkt.header.cmdID == 2 {
      LeaveInOrder(s, t, WithNewcomer(s, c), GoneAtEnter(s, c), cs);
    } else if pkt.header.cmdID == 6 && c !in s.open {
      LeaveInOrder(s, t, s.chaMap, {c}, cs);
    } else if pkt.header.cmdID == 7 {
      LeaveInOrder(s, t, s.chaMap, ListedAndClosed(s), cs);
    } else {
      assert t.connections == s.connections;
    }
  }

  /** Handlers only add to what was posted. */
  lemma HandledPosts(s: State, t: State, c: nat, pkt: Packet, order: seq<u32>, d: nat)
    requires Base(s) && Keyed(s) && Handleable(s, c, pkt, order) && Handled(s, t, c, pkt, order) && d in s.ids
    ensures d in t.posted && s.posted[d] <= t.posted[d]
  {
  }

  lemma HandledFrame(s: State, t: State, c: nat, pkt: Packet, order: seq<u32>)
    requires Base(s) && Keyed(s) && Handleable(s, c, pkt, order) && Handled(s, t, c, pkt, order)
    ensures SameSockets(s, t) && t.posted.Keys == s.posted.Keys
  {
    if pkt.header.cmdID == 2 {
      assert Entered(s, t, c, order);
    } else if pkt.header.cmdID == 5 && s.ids[c] in s.chaMap {
      assert MovedTo(s, t, s.ids[c], pkt.body);
    } else if pkt.header.cmdID == 6 {
      EchoFrame(s, t, c, pkt);
    } else if pkt.header.cmdID == 7 {
      assert Broadcast(s, t, c);
    }
  }

  lemma EchoFrame(s: State, t: State, c: nat, pkt: Packet)
    requires c in s.ids && c in s.posted && Echoed(s, t, c, pkt)
    ensures SameSockets(s, t) && t.posted.Keys == s.posted.Keys
  {
    assert c in s.open ==> t.posted.Keys == s.posted.Keys + {c};
  }

  lemma HandledGreeted(s: State, t: State, c: nat, pkt: Packet, order: seq<u32>)
    requires Base(s) && Keyed(s) && Handleable(s, c, pkt, order) && Handled(s, t, c, pkt, order) && Greeted(s)
    ensures Greeted(t)
  {
    HandledFrame(s, t, c, pkt, order);
    forall d | d in t.posted ensures [GREETING] <= t.posted[d] {
      HandledPosts(s, t, c, pkt, order, d);
    }
  }

  // ---------- runs ----------

  /** The state is what the events say of it. */
  ghost predicate Agrees(s: State, idCnt: u32, events: seq<Event>) {
    && Base(s) && Keyed(s)
    && Numbered(s, idCnt, Newcomers(events)) && s.open == StillOpen(events)
    && Greeted(s) && InOrder(s, Newcomers(events))
  }

  lemma HandledAgrees(s: State, t: State, idCnt: u32, events: seq<Event>, c: nat, pkt: Packet, order: seq<u32>)
    requires Agrees(s, idCnt, events) && Base(t) && Keyed(t)
    requires Handleable(s, c, pkt, order) && Handled(s, t, c, pkt, order)
    ensures Agrees(t, idCnt, events)
  {
    HandledFrame(s, t, c, pkt, order);
    HandledGreeted(s, t, c, pkt, order);
    HandledInOrder(s, t, c, pkt, order, Newcomers(events));
  }

  lemma ReceivedAgrees(s: State, idCnt: u32, events: seq<Event>, c: nat, pkt: Packet, order: seq<u32>)
    requires Agrees(s, idCnt, events)
    ensures Agrees(Next(s, Received(c, pkt, order)), idCnt, events)
  {
    NextBase(s, Received(c, pkt, order));
    NextKeyed(s, Received(c, pkt, order));
    EveryPacketHandled(s, c, pkt, order);
    if CanHandle(s, c, pkt, order) {
      HandledAgrees(s, OnPacket(s, c, pkt, order), idCnt, events, c, pkt, order);
    }
  }

  lemma ReceivingTellsNothing(s: State, idCnt: u32, events: seq<Event>, all: seq<Event>, e: Event)
    requires all == events + [e] && e.Received? && Agrees(s, idCnt, events)
    ensures Agrees(s, idCnt, all)
  {
    assert all[..|events|] == events;
  }

  lemma AcceptedAgrees(s: State, idCnt: u32, events: seq<Event>, all: seq<Event>, c: nat)
    requires all == events + [Accepted(c)] && Agrees(s, idCnt, events) && |Newcomers(all)| <= 0x1_0000_0000
    ensures Agrees(Next(s, Accepted(c)), idCnt, all)
  {
    assert all[..|events|] == events;
    NextBase(s, Accepted(c));
    NextKeyed(s, Accepted(c));
    if c !in Newcomers(events) {
      FreshAt(s, idCnt, Newcomers(events));
      AcceptNumbered(s, idCnt, Newcomers(events), c);
      AcceptInOrder(s, Newcomers(events), c);
    }
  }

  lemma ClosedAgrees(s: State, idCnt: u32, events: seq<Event>, all: seq<Event>, c: nat)
    requires all == events + [Closed(c)] && Agrees(s, idCnt, events)
    ensures Agrees(Next(s, Closed(c)), idCnt, all)
  {
    assert all[..|events|] == events;
    NextBase(s, Closed(c));
    NextKeyed(s, Closed(c));
    assert Next(s, Closed(c)).connections == s.connections;
  }

  lemma NewcomersGrow(events: seq<Event>)
    requires events != []
    ensures |Newcomers(events[..|events| - 1])| <= |Newcomers(events)|
  {
  }

  lemma {:induction false} RunAgrees(idCnt: u32, events: seq<Event>)
    requires |Newcomers(events)| <= 0x1_0000_0000
    ensures Agrees(Run(idCnt, events), idCnt, events)
    decreases |events|
  {
    if events == [] {
      assert Run(idCnt, events).connections == LiveOnly(Conns([]), {});
    } else {
      var init, e := events[..|events| - 1], events[|events| - 1];
      assert events == init + [e];
      NewcomersGrow(events);
      RunAgrees(idCnt, init);
      match e {
        case Accepted(c) => AcceptedAgrees(Run(idCnt, init), idCnt, init, events, c);
        case Closed(c) => ClosedAgrees(Run(idCnt, init), idCnt, init, events, c);
        case Received(c, pkt, order) =>
          ReceivedAgrees(Run(idCnt, init), idCnt, init, c, pkt, order);
          ReceivingTellsNothing(Run(idCnt, events), idCnt, init, events, e);
      }
    }
  }

  /** Over all runs with no more than 2^32 clients: exactly the accepted ones are known, under the IDs
      that the counter gave them in the order of their acceptance; those not closed since are open;
      each was greeted before it was sent anything else; and the list has them in that order. */
  lemma {:induction false} RunAccepts(idCnt: u32, events: seq<Event>)
    requires |Newcomers(events)| <= 0x1_0000_0000
    ensures var s, cs := Run(idCnt, events), Newcomers(events);
            && (forall c :: c in s.ids <==> c in cs)
            && (forall i :: 0 <= i < |cs| ==> cs[i] in s.ids && s.ids[cs[i]] == IdAt(idCnt, i))
            && s.open == StillOpen(events)
            && (forall c :: c in s.posted ==> [GREETING] <= s.posted[c])
            && InOrder(s, cs)
  {
    RunAgrees(idCnt, events);
  }
}
