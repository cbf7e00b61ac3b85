/** What the server's handlers keep and what they send: proofs about `World`, and whole runs. */
module Roster {
  import opened Bytes
  import opened NetPacket
  import opened World

  // ---------- every handler keeps the connection list and the world in step ----------

  lemma SendToAllInv(s: State, p: Packet, ignore: ConnRef)
    requires ConnectionsInv(s)
    ensures ConnectionsInv(SendToAll(s, p, ignore))
  {
    LiveOnlyMembers(s.connections, s.open);
    var rs := LiveOnly(s.connections, s.open);
    assert forall i :: 0 <= i < |rs| ==> rs[i] in s.connections;
  }

  /** After `SendToAll` the characters in the world are exactly those whose connection is open. */
  lemma SendToAllWorld(s: State, p: Packet, ignore: ConnRef)
    requires ConnectionsInv(s) && WorldInv(s)
    ensures WorldInv(SendToAll(s, p, ignore))
    ensures forall k: u32 :: k in SendToAll(s, p, ignore).chaMap <==> k in s.chaMap && s.chaMap[k].conn in s.open
  {
    var t := SendToAll(s, p, ignore);
    LiveOnlyMembers(s.connections, s.open);
    forall k: u32 ensures EntryOk(t, k) && (k in t.chaMap <==> k in s.chaMap && s.chaMap[k].conn in s.open) {
      assert EntryOk(s, k);
      if k in s.chaMap && s.chaMap[k].conn !in s.open {
        assert s.ids[s.chaMap[k].conn] in DeadIds(s);
      }
    }
  }

  lemma AddCharacterInv(s: State, c: nat)
    requires ConnectionsInv(s) && WorldInv(s) && c in s.ids && s.ids[c] < 0x1_0000
    ensures ConnectionsInv(AddCharacter(s, c)) && WorldInvExcept(AddCharacter(s, c), c)
  {
    var t := AddCharacter(s, c);
    forall k: u32 ensures EntryOk(t, k) || (k == s.ids[c] && t.chaMap[k].conn == c && t.chaMap[k].id == k) {
      assert EntryOk(s, k);
    }
  }

  /** A character may enter even though its client is already gone: the notifications or the reply
      notice the closed socket and take both out again. */
  lemma EnterWorldInv(s: State, c: nat, order: seq<u32>)
    requires ConnectionsInv(s) && WorldInv(s) && CanEnter(s, c, order) && s.ids[c] < 0x1_0000
    ensures ConnectionsInv(EnterWorld(s, c, order)) && WorldInv(EnterWorld(s, c, order))
  {
    var t := AddCharacter(s, c);
    var cs, news := NotifyList(t.chaMap, order), PushPlace(NewPacket(CMD_PLY_ENTER_WORLD), NewCharacter(s, c));
    var reply := EnterReply(t.chaMap, order, CharacterId(s, c));
    AddCharacterInv(s, c);
    NotifyInv(t, cs, news, c);
    SendToClientInv(Notify(t, cs, news), c, reply);
    SendToClientWorld(Notify(t, cs, news), c, reply, c);
  }

  lemma MovePlayerInv(s: State, c: nat, pkt: Packet, order: seq<u32>)
    requires ConnectionsInv(s) && WorldInv(s) && CanMove(s, c, pkt, order)
    ensures ConnectionsInv(MovePlayer(s, c, pkt, order)) && WorldInv(MovePlayer(s, c, pkt, order))
  {
    var t := MovePlayer(s, c, pkt, order);
    forall k: u32 ensures EntryOk(t, k) {
      assert EntryOk(s, k);
    }
  }

  lemma PostsOnly(s: State, c: nat, p: Packet)
    requires ConnectionsInv(s) && WorldInv(s) && c in s.ids
    ensures ConnectionsInv(SendToClient(s, c, p)) && WorldInv(SendToClient(s, c, p))
  {
    SendToClientInv(s, c, p);
    SendToClientWorld(s, c, p, c);
    var t := SendToClient(s, c, p);
    forall k: u32 ensures EntryOk(t, k) {
      assert EntryOk(s, k);
    }
  }

  lemma OnPacketInv(s: State, c: nat, pkt: Packet, order: seq<u32>)
    requires ConnectionsInv(s) && WorldInv(s) && CanHandle(s, c, pkt, order)
    requires pkt.header.cmdID == CMD_SELF_ENTER_WORLD ==> s.ids[c] < 0x1_0000
    ensures ConnectionsInv(OnPacket(s, c, pkt, order)) && WorldInv(OnPacket(s, c, pkt, order))
  {
    if pkt.header.cmdID == CMD_PING {
      PostsOnly(s, c, Push(Pop(pkt, 8), Le64(To64(Top(pkt, 8)))));
    } else if pkt.header.cmdID == CMD_MESSAGE_ALL {
      var p := Push(NewPacket(CMD_SERVER_MESSAGE), Le32(s.ids[c]));
      SendToAllInv(s, p, Conn(c));
      SendToAllWorld(s, p, Conn(c));
    } else if pkt.header.cmdID == CMD_SELF_ENTER_WORLD {
      EnterWorldInv(s, c, order);
    } else if pkt.header.cmdID == CMD_MOVE_PLAYER {
      MovePlayerInv(s, c, pkt, order);
    }
  }

  predicate SameSockets(s: State, t: State) {
    t.ids == s.ids && t.open == s.open && t.idCnt == s.idCnt
  }

  lemma EnterWorldFrame(s: State, c: nat, order: seq<u32>)
    requires CanEnter(s, c, order)
    ensures SameSockets(s, EnterWorld(s, c, order))
  {
  }

  lemma MovePlayerFrame(s: State, c: nat, pkt: Packet, order: seq<u32>)
    requires CanMove(s, c, pkt, order)
    ensures SameSockets(s, MovePlayer(s, c, pkt, order))
  {
  }

  /** Handlers never change IDs, sockets or the counter. */
  lemma OnPacketFrame(s: State, c: nat, pkt: Packet, order: seq<u32>)
    requires CanHandle(s, c, pkt, order)
    ensures SameSockets(s, OnPacket(s, c, pkt, order))
  {
    if pkt.header.cmdID == CMD_SELF_ENTER_WORLD {
      EnterWorldFrame(s, c, order);
    } else if pkt.header.cmdID == CMD_MOVE_PLAYER {
      MovePlayerFrame(s, c, pkt, order);
    }
  }

  lemma AcceptInv(s: State, c: nat)
    requires ConnectionsInv(s) && c !in s.ids && FreshId(s)
    ensures ConnectionsInv(Accept(s, c))
    ensures WorldKnown(s) ==> WorldKnown(Accept(s, c))
    ensures WorldInv(s) ==> WorldInv(Accept(s, c))
  {
    var t := Accept(s, c);
    if WorldInv(s) {
      forall k: u32 ensures EntryOk(t, k) {
        assert EntryOk(s, k);
      }
    }
  }

  // ---------- what holds whatever the IDs ----------

  ghost predicate Base(s: State) {
    ConnectionsInv(s) && WorldKnown(s)
  }

  lemma AddCharacterBase(s: State, c: nat)
    requires Base(s) && c in s.ids
    ensures Base(AddCharacter(s, c))
  {
  }

  lemma SendToClientBase(s: State, c: nat, p: Packet)
    requires Base(s) && c in s.ids
    ensures Base(SendToClient(s, c, p))
  {
    SendToClientInv(s, c, p);
  }

  lemma {:induction false} NotifyBase(s: State, cs: seq<nat>, p: Packet)
    requires Base(s) && Known(s, cs)
    ensures Base(Notify(s, cs, p))
  {
    if cs != [] {
      NotifyBase(s, cs[..|cs| - 1], p);
      SendToClientBase(Notify(s, cs[..|cs| - 1], p), cs[|cs| - 1], p);
    }
  }

  lemma EnterWorldBase(s: State, c: nat, order: seq<u32>)
    requires Base(s) && CanEnter(s, c, order)
    ensures Base(EnterWorld(s, c, order))
  {
    var t := AddCharacter(s, c);
    var cs, news := NotifyList(t.chaMap, order), PushPlace(NewPacket(CMD_PLY_ENTER_WORLD), NewCharacter(s, c));
    AddCharacterBase(s, c);
    NotifyBase(t, cs, news);
    SendToClientBase(Notify(t, cs, news), c, EnterReply(t.chaMap, order, CharacterId(s, c)));
  }

  lemma OnPacketBase(s: State, c: nat, pkt: Packet, order: seq<u32>)
    requires Base(s) && CanHandle(s, c, pkt, order)
    ensures Base(OnPacket(s, c, pkt, order))
  {
    if pkt.header.cmdID == CMD_PING {
      SendToClientBase(s, c, Push(Pop(pkt, 8), Le64(To64(Top(pkt, 8)))));
    } else if pkt.header.cmdID == CMD_MESSAGE_ALL {
      SendToAllInv(s, Push(NewPacket(CMD_SERVER_MESSAGE), Le32(s.ids[c])), Conn(c));
    } else if pkt.header.cmdID == CMD_SELF_ENTER_WORLD {
      EnterWorldBase(s, c, order);
    } else if pkt.header.cmdID == CMD_MOVE_PLAYER {
      MovePlayerBase(s, c, pkt, order);
    }
  }

  lemma MovePlayerBase(s: State, c: nat, pkt: Packet, order: seq<u32>)
    requires Base(s) && CanMove(s, c, pkt, order)
    ensures Base(MovePlayer(s, c, pkt, order))
  {
  }

  // ---------- entering ----------

  /** What entering needs: the connection's ID fits in a character's ID, or the cut ID is taken. */
  predicate EntersInStep(s: State, c: nat)
    requires c in s.ids
  {
    s.ids[c] < 0x1_0000 || CharacterId(s, c) in s.chaMap
  }

  /** Entering keeps connection list and world in step exactly when the client's ID fits in 16
      bits or its cut-off ID is already taken in the world; the client may be gone or not. */
  lemma EnterKeepsWorldIff(s: State, c: nat, order: seq<u32>)
    requires ConnectionsInv(s) && WorldInv(s) && CanEnter(s, c, order)
    ensures WorldInv(EnterWorld(s, c, order)) <==> EntersInStep(s, c)
  {
    if s.ids[c] < 0x1_0000 {
      EnterWorldInv(s, c, order);
    } else if CharacterId(s, c) in s.chaMap {
      EnterTakenKey(s, c, order);
    } else {
      EnterLeavesGhost(s, c, order);
      assert !EntryOk(EnterWorld(s, c, order), CharacterId(s, c));
    }
  }

  lemma EnterTakenKey(s: State, c: nat, order: seq<u32>)
    requires ConnectionsInv(s) && WorldInv(s) && CanEnter(s, c, order) && CharacterId(s, c) in s.chaMap
    ensures WorldInv(EnterWorld(s, c, order))
  {
    var cs, news := NotifyList(s.chaMap, order), PushPlace(NewPacket(CMD_PLY_ENTER_WORLD), NewCharacter(s, c));
    assert AddCharacter(s, c) == s;
    NotifyInv(s, cs, news, c);
    SendToClientWorld(Notify(s, cs, news), c, EnterReply(s.chaMap, order, CharacterId(s, c)), c);
  }

  /** Otherwise a character stays behind under a key that is not its connection's ID; if the client
      was already gone, its connection is not even listed. */
  lemma EnterLeavesGhost(s: State, c: nat, order: seq<u32>)
    requires ConnectionsInv(s) && WorldInv(s) && CanEnter(s, c, order) && !EntersInStep(s, c)
    ensures var u, k := EnterWorld(s, c, order), CharacterId(s, c);
            k in u.chaMap && u.chaMap[k].conn == c && u.ids[c] != k && (c !in s.open ==> !Listed(u, c))
  {
    var t, k := AddCharacter(s, c), CharacterId(s, c);
    var cs, news := NotifyList(t.chaMap, order), PushPlace(NewPacket(CMD_PLY_ENTER_WORLD), NewCharacter(s, c));
    forall i | 0 <= i < |cs| ensures s.ids[cs[i]] != k {
      assert EntryOk(s, order[i]);
    }
    NotifyKeepsGhost(t, cs, news, c, k);
    WithoutMembers(Notify(t, cs, news).connections, Conn(c));
  }

  /** The late enter-world packet of a client that is gone breaks the roster at once. */
  lemma LateEnterKeepsRosterIff(s: State, c: nat, order: seq<u32>)
    requires ConnectionsInv(s) && WorldInv(s) && CanEnter(s, c, order) && c !in s.open
    ensures RosterOk(EnterWorld(s, c, order)) <==> EntersInStep(s, c)
  {
    EnterKeepsWorldIff(s, c, order);
    if EntersInStep(s, c) {
      RosterFromWorld(EnterWorld(s, c, order));
    } else {
      EnterLeavesGhost(s, c, order);
    }
  }

  lemma DeadOrOpen(s: State, k: u32)
    requires k in s.chaMap && EntryOk(s, k)
    ensures k in DeadIds(s) || s.chaMap[k].conn in s.open
  {
    if s.chaMap[k].conn !in s.open { assert s.ids[s.chaMap[k].conn] in DeadIds(s); }
  }

  /** A character out of step whose client closes loses its connection to the next `SendToAll`, which
      erases another key, unless it happens to drop a client that has the cut-off ID as its own. */
  lemma GhostLosesConnectionIff(s: State, k: u32, p: Packet, ignore: ConnRef)
    requires ConnectionsInv(s) && k in s.chaMap && s.chaMap[k].conn in s.ids && s.chaMap[k].conn !in s.open
    requires forall j: u32 :: j != k ==> EntryOk(s, j)
    ensures RosterOk(SendToAll(s, p, ignore)) <==> k in DeadIds(s)
  {
    var t := SendToAll(s, p, ignore);
    LiveOnlyMembers(s.connections, s.open);
    if k in DeadIds(s) {
      forall j | j in t.chaMap ensures t.chaMap[j].id == j && Listed(t, t.chaMap[j].conn) {
        assert EntryOk(s, j);
        DeadOrOpen(s, j);
      }
    } else {
      assert k in t.chaMap && !Listed(t, t.chaMap[k].conn);
    }
  }

  lemma RosterFromWorld(s: State)
    requires WorldInv(s)
    ensures RosterOk(s)
  {
    forall k | k in s.chaMap ensures s.chaMap[k].id == k && Listed(s, s.chaMap[k].conn) {
      assert EntryOk(s, k);
    }
  }

  /** An entry of `c` under a key that is nobody's connection ID survives all notifications. */
  lemma {:induction false} NotifyKeepsGhost(s: State, cs: seq<nat>, p: Packet, c: nat, k: u32)
    requires Known(s, cs) && k in s.chaMap && s.chaMap[k].conn == c
    requires forall i :: 0 <= i < |cs| ==> s.ids[cs[i]] != k
    ensures k in Notify(s, cs, p).chaMap && Notify(s, cs, p).chaMap[k].conn == c
  {
    if cs != [] {
      NotifyKeepsGhost(s, cs[..|cs| - 1], p, c, k);
    }
  }

  // ---------- runs ----------

  /** A client is accepted, a socket closes, or a queued packet is handled, at any time after it
      was sent: the client may have been dropped meanwhile. */
  datatype Event =
    | Accepted(c: nat)
    | Closed(c: nat)
    | Received(c: nat, pkt: Packet, order: seq<u32>)

  /** One step; an event that is not possible leaves the state as it is. Clients are accepted as
      long as the counter has not come round to an ID that was given out before. */
  function Next(s: State, e: Event): State {
    match e
    case Accepted(c) => if c !in s.ids && FreshId(s) then Accept(s, c) else s
    case Closed(c) => s.(open := s.open - {c})
    case Received(c, pkt, order) => if CanHandle(s, c, pkt, order) then OnPacket(s, c, pkt, order) else s
  }

  function Run(idCnt: u32, events: seq<Event>): State {
    if events == [] then Init(idCnt) else Next(Run(idCnt, events[..|events| - 1]), events[|events| - 1])
  }

  lemma NextBase(s: State, e: Event)
    requires Base(s)
    ensures Base(Next(s, e))
  {
    match e {
      case Accepted(c) => if c !in s.ids && FreshId(s) { AcceptInv(s, c); }
      case Closed(c) =>
      case Received(c, pkt, order) => if CanHandle(s, c, pkt, order) { OnPacketBase(s, c, pkt, order); }
    }
  }

  /** Over all runs, whatever the IDs: the list holds every open connection, none twice, and every
      character's connection was accepted. */
  lemma {:induction false} RunBase(idCnt: u32, events: seq<Event>)
    ensures Base(Run(idCnt, events))
    decreases |events|
  {
    if events != [] {
      RunBase(idCnt, events[..|events| - 1]);
      NextBase(Run(idCnt, events[..|events| - 1]), events[|events| - 1]);
    }
  }

  /** The event does not let a client enter whose ID is too large and whose cut-off ID is free. */
  predicate StepsInStep(s: State, e: Event) {
    e.Received? && CanHandle(s, e.c, e.pkt, e.order) && e.pkt.header.cmdID == CMD_SELF_ENTER_WORLD ==>
      EntersInStep(s, e.c)
  }

  predicate AllEnterInStep(idCnt: u32, events: seq<Event>) {
    events == [] ||
    (AllEnterInStep(idCnt, events[..|events| - 1])
     && StepsInStep(Run(idCnt, events[..|events| - 1]), events[|events| - 1]))
  }

  /** The world is in step with the connection list, now and after every beginning of the run. */
  ghost predicate AlwaysInStep(idCnt: u32, events: seq<Event>) {
    WorldInv(Run(idCnt, events)) && (events == [] || AlwaysInStep(idCnt, events[..|events| - 1]))
  }

  lemma NextInStepIff(s: State, e: Event)
    requires Base(s) && WorldInv(s)
    ensures WorldInv(Next(s, e)) <==> StepsInStep(s, e)
  {
    match e {
      case Accepted(c) => if c !in s.ids && FreshId(s) { AcceptInv(s, c); }
      case Closed(c) =>
        forall k: u32 ensures EntryOk(Next(s, e), k) { assert EntryOk(s, k); }
      case Received(c, pkt, order) =>
        if CanHandle(s, c, pkt, order) {
          if pkt.header.cmdID == CMD_SELF_ENTER_WORLD {
            EnterKeepsWorldIff(s, c, order);
          } else {
            OnPacketInv(s, c, pkt, order);
          }
        }
    }
  }

  /** The exact condition over all runs: world and connection list stay in step throughout a run if
      and only if nobody enters with an ID that is too large while the cut-off ID is free. */
  lemma {:induction false} AlwaysInStepIff(idCnt: u32, events: seq<Event>)
    ensures AlwaysInStep(idCnt, events) <==> AllEnterInStep(idCnt, events)
    decreases |events|
  {
    if events == [] {
      assert Run(idCnt, events) == Init(idCnt);
    } else {
      var init := events[..|events| - 1];
      AlwaysInStepIff(idCnt, init);
      RunBase(idCnt, init);
      if AlwaysInStep(idCnt, init) {
        NextInStepIff(Run(idCnt, init), events[|events| - 1]);
      }
    }
  }

  lemma RunStep(idCnt: u32, events: seq<Event>, e: Event)
    ensures Run(idCnt, events + [e]) == Next(Run(idCnt, events), e)
  {
    assert (events + [e])[..|events|] == events;
  }

  // ---------- the roster, now and after anyone leaves ----------

  const PING: Packet := Packet(Header(CMD_PING, 0, 8), Zeros(8))

  /** The state after `c` has closed and a ping that it left behind has been handled. */
  function Gone(s: State, c: nat): State {
    Next(Next(s, Closed(c)), Received(c, PING, []))
  }

  /** The roster holds, and goes on to hold whichever client leaves next. */
  ghost predicate RosterLasts(s: State) {
    RosterOk(s) && forall c :: c in s.ids ==> RosterOk(Gone(s, c))
  }

  /** The leftover ping of a closed client unlists the client and erases its 32-bit ID. */
  lemma GoneDrops(s: State, c: nat)
    requires Base(s) && c in s.ids
    ensures var t := Gone(s, c);
            t.chaMap == s.chaMap - {s.ids[c]} && t.connections == Without(s.connections, Conn(c))
  {
    assert CanHandle(Next(s, Closed(c)), c, PING, []);
  }

  lemma InStepLasts(s: State, c: nat)
    requires Base(s) && WorldInv(s) && c in s.ids
    ensures RosterOk(Gone(s, c))
  {
    GoneDrops(s, c);
    WithoutMembers(s.connections, Conn(c));
    var t := Gone(s, c);
    forall k | k in t.chaMap ensures t.chaMap[k].id == k && Listed(t, t.chaMap[k].conn) {
      assert EntryOk(s, k);
    }
  }

  /** A character whose key is not its connection's ID: when its client leaves, the character stays
      without a listed connection. */
  lemma LeavingBreaksRoster(s: State, k: u32)
    requires Base(s) && k in s.chaMap && s.ids[s.chaMap[k].conn] != k
    ensures !RosterOk(Gone(s, s.chaMap[k].conn))
  {
    var c := s.chaMap[k].conn;
    GoneDrops(s, c);
    WithoutMembers(s.connections, Conn(c));
    assert k in Gone(s, c).chaMap && !Listed(Gone(s, c), c);
  }

  lemma LastsOnlyInStep(s: State, k: u32)
    requires Base(s) && RosterLasts(s)
    ensures EntryOk(s, k)
  {
    if k in s.chaMap && s.ids[s.chaMap[k].conn] != k {
      LeavingBreaksRoster(s, k);
    }
  }

  /** World and list are in step exactly when the roster holds now and after any client leaves:
      what `WorldInv` asks for beyond the roster is what the next disconnection needs. */
  lemma InStepIffRosterLasts(s: State)
    requires Base(s)
    ensures WorldInv(s) <==> RosterLasts(s)
  {
    if WorldInv(s) {
      RosterFromWorld(s);
      forall c | c in s.ids ensures RosterOk(Gone(s, c)) { InStepLasts(s, c); }
    }
    if RosterLasts(s) {
      forall k: u32 ensures EntryOk(s, k) { LastsOnlyInStep(s, k); }
    }
  }

  /** After every beginning of the run the roster holds, and so it does if any client then closes
      and leaves a ping behind. */
  ghost predicate RosterAlwaysLasts(idCnt: u32, events: seq<Event>) {
    RosterLasts(Run(idCnt, events)) && (events == [] || RosterAlwaysLasts(idCnt, events[..|events| - 1]))
  }

  /** The exact condition for the roster itself over all runs. */
  lemma {:induction false} RosterAlwaysLastsIff(idCnt: u32, events: seq<Event>)
    ensures RosterAlwaysLasts(idCnt, events) <==> AllEnterInStep(idCnt, events)
  {
    AlwaysInStepIff(idCnt, events);
    SameAlways(idCnt, events);
  }

  lemma {:induction false} SameAlways(idCnt: u32, events: seq<Event>)
    ensures RosterAlwaysLasts(idCnt, events) <==> AlwaysInStep(idCnt, events)
    decreases |events|
  {
    RunBase(idCnt, events);
    InStepIffRosterLasts(Run(idCnt, events));
    if events != [] {
      SameAlways(idCnt, events[..|events| - 1]);
    }
  }

  /** Leaving is two more events of the run. */
  lemma GoneIsRun(idCnt: u32, events: seq<Event>, c: nat)
    ensures Gone(Run(idCnt, events), c) == Run(idCnt, events + [Closed(c)] + [Received(c, PING, [])])
  {
    RunStep(idCnt, events, Closed(c));
    RunStep(idCnt, events + [Closed(c)], Received(c, PING, []));
  }

  /** Roster theorem, over all such runs: every character is keyed by its own ID and its connection
      is still in the list, every open connection is in the list, and nothing is listed twice. */
  lemma {:induction false} RosterHolds(idCnt: u32, events: seq<Event>)
    requires AllEnterInStep(idCnt, events)
    ensures var s := Run(idCnt, events);
            RosterOk(s) && NoDuplicates(s.connections) && forall c :: c in s.open ==> Listed(s, c)
  {
    AlwaysInStepIff(idCnt, events);
    RunBase(idCnt, events);
    RosterFromWorld(Run(idCnt, events));
  }

  predicate IdsBelow(s: State, n: nat) {
    s.idCnt <= n && forall c :: c in s.ids ==> s.ids[c] < s.idCnt
  }

  lemma NextIdsBelow(s: State, e: Event, n: nat)
    requires IdsBelow(s, n) && n < 0x1_0000
    ensures IdsBelow(Next(s, e), n + 1)
  {
    if e.Received? && CanHandle(s, e.c, e.pkt, e.order) {
      OnPacketFrame(s, e.c, e.pkt, e.order);
    }
  }

  lemma {:induction false} RunIdsBelow(idCnt: u32, events: seq<Event>)
    requires idCnt + |events| <= 0x1_0000
    ensures IdsBelow(Run(idCnt, events), idCnt + |events|)
    decreases |events|
  {
    if events != [] {
      var init := events[..|events| - 1];
      RunIdsBelow(idCnt, init);
      NextIdsBelow(Run(idCnt, init), events[|events| - 1], idCnt + |init|);
    }
  }

  /** A run too short for the counter to pass 65536 meets the condition. */
  lemma {:induction false} ShortRunsEnterInStep(idCnt: u32, events: seq<Event>)
    requires idCnt + |events| <= 0x1_0000
    ensures AllEnterInStep(idCnt, events)
    decreases |events|
  {
    if events != [] {
      ShortRunsEnterInStep(idCnt, events[..|events| - 1]);
      RunIdsBelow(idCnt, events[..|events| - 1]);
    }
  }

  // ---------- runs that fail ----------

  const ENTER: Packet := NewPacket(CMD_SELF_ENTER_WORLD)
  const MESSAGE: Packet := NewPacket(CMD_MESSAGE_ALL)

  lemma RunLast(idCnt: u32, events: seq<Event>, e: Event, all: seq<Event>)
    requires all == events + [e]
    ensures Run(idCnt, all) == Next(Run(idCnt, events), e)
  {
    RunStep(idCnt, events, e);
  }

  /** The first client gets ID 65536 and enters under key 0. */
  lemma FirstClientEnters()
    ensures var s := Run(0x1_0000, [Accepted(7)]);
            && 7 in s.open && s.ids == map[7 := 0x1_0000] && s.chaMap == map[]
            && CharacterId(s, 7) == 0 && CanEnter(s, 7, [0])
  {
    RunStep(0x1_0000, [], Accepted(7));
    assert [] + [Accepted(7)] == [Accepted(7)];
    var s := Run(0x1_0000, [Accepted(7)]);
    assert s == Accept(Init(0x1_0000), 7);
    var t := AddCharacter(s, 7);
    assert t.chaMap == map[0 := NewCharacter(s, 7)];
    assert IsOrder([0], t.chaMap.Keys);
    assert NotifyList(t.chaMap, [0]) == [7];
  }

  /** The roster fails if that client was gone when it entered, */
  lemma LateEnterBreaksRoster()
    ensures !RosterOk(Run(0x1_0000, [Accepted(7), Closed(7), Received(7, ENTER, [0])]))
  {
    var e0, e1, e2 := Accepted(7), Closed(7), Received(7, ENTER, [0]);
    FirstClientEnters();
    RunLast(0x1_0000, [e0], e1, [e0, e1]);
    RunLast(0x1_0000, [e0, e1], e2, [e0, e1, e2]);
    RunBase(0x1_0000, [e0, e1]);
    ClosedBeforeEnter(Run(0x1_0000, [e0]));
  }

  /** The step on which that run fails. */
  lemma ClosedBeforeEnter(s: State)
    requires Base(s) && s.ids == map[7 := 0x1_0000] && s.chaMap == map[] && CharacterId(s, 7) == 0 && CanEnter(s, 7, [0])
    ensures var t := Next(s, Closed(7)); Base(t) && !RosterOk(Next(t, Received(7, ENTER, [0])))
  {
    var t := Next(s, Closed(7));
    NextBase(s, Closed(7));
    assert AddCharacter(t, 7).chaMap == AddCharacter(s, 7).chaMap && CanEnter(t, 7, [0]);
    LateEnterKeepsRosterIff(t, 7, [0]);
  }

  /** and also if it enters while connected and closes before the next message to all. */
  lemma CloseAfterEnterBreaksRoster()
    ensures !RosterOk(Run(0x1_0000, [Accepted(7), Received(7, ENTER, [0]), Closed(7), Received(7, MESSAGE, [])]))
  {
    var e0, e1, e2, e3 := Accepted(7), Received(7, ENTER, [0]), Closed(7), Received(7, MESSAGE, []);
    FirstClientEnters();
    RunLast(0x1_0000, [e0], e1, [e0, e1]);
    RunLast(0x1_0000, [e0, e1], e2, [e0, e1, e2]);
    RunLast(0x1_0000, [e0, e1, e2], e3, [e0, e1, e2, e3]);
    RunBase(0x1_0000, [e0]);
    RunBase(0x1_0000, [e0, e1, e2]);
    MessageBreaksRoster(Run(0x1_0000, [e0]));
  }

  lemma EnterThenClose(s: State)
    requires CanEnter(s, 7, [0])
    ensures Next(Next(s, Received(7, ENTER, [0])), Closed(7)) == EnterWorld(s, 7, [0]).(open := s.open - {7})
  {
    EnterWorldFrame(s, 7, [0]);
  }

  lemma MessageIsSent(s: State)
    requires 7 in s.ids && 7 in s.posted
    ensures Next(s, Received(7, MESSAGE, [])) == SendToAll(s, Push(NewPacket(CMD_SERVER_MESSAGE), Le32(s.ids[7])), Conn(7))
  {
  }

  /** The steps on which that run fails. */
  lemma MessageBreaksRoster(s: State)
    requires Base(s) && s.ids == map[7 := 0x1_0000] && 7 in s.open && s.chaMap == map[] && CanEnter(s, 7, [0])
    ensures var u := Next(Next(s, Received(7, ENTER, [0])), Closed(7));
            Base(u) && !RosterOk(Next(u, Received(7, MESSAGE, [])))
  {
    var u := Next(Next(s, Received(7, ENTER, [0])), Closed(7));
    NextBase(s, Received(7, ENTER, [0]));
    NextBase(Next(s, Received(7, ENTER, [0])), Closed(7));
    EnterThenClose(s);
    ClosedAfterEnter(s);
    MessageIsSent(u);
    GhostLosesConnectionIff(u, 0, Push(NewPacket(CMD_SERVER_MESSAGE), Le32(0x1_0000)), Conn(7));
  }

  /** The state in which that client, number 65536, has entered and then closed. */
  lemma ClosedAfterEnter(s: State)
    requires Base(s) && s.ids == map[7 := 0x1_0000] && 7 in s.open && s.chaMap == map[] && CanEnter(s, 7, [0])
    ensures var u := EnterWorld(s, 7, [0]).(open := s.open - {7});
            && u.ids == s.ids && u.chaMap.Keys == {0} && u.chaMap[0].conn == 7 && DeadIds(u) <= {0x1_0000}
  {
    EnterLeavesGhost(s, 7, [0]);
    EnterWorldFrame(s, 7, [0]);
    OnlyGhost(s);
  }

  /** Notifying never adds a character. */
  lemma {:induction false} NotifyKeys(s: State, cs: seq<nat>, p: Packet)
    requires Known(s, cs)
    ensures Notify(s, cs, p).chaMap.Keys <= s.chaMap.Keys
  {
    if cs != [] {
      NotifyKeys(s, cs[..|cs| - 1], p);
    }
  }

  lemma OnlyGhost(s: State)
    requires CanEnter(s, 7, [0]) && s.chaMap == map[] && CharacterId(s, 7) == 0
    ensures EnterWorld(s, 7, [0]).chaMap.Keys <= {0}
  {
    var t := AddCharacter(s, 7);
    NotifyKeys(t, NotifyList(t.chaMap, [0]), PushPlace(NewPacket(CMD_PLY_ENTER_WORLD), NewCharacter(s, 7)));
  }
}
