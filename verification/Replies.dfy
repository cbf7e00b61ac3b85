/**
 From the server back to its clients: every packet that the server sends is framed, so the
 direction from server to client needs no assumption about framing.
 */
module Replies {
  import opened Bytes
  import opened NetPacket
  import opened World
  import opened Roster
  import Traffic
  import C = Channel
  import TCP = NetTCPConnection

  ghost predicate AllFramed(ps: seq<Packet>) {
    forall p :: p in ps ==> Framed(p)
  }

  ghost predicate PostedFramed(s: State) {
    forall c :: c in s.posted ==> AllFramed(s.posted[c])
  }

  // ---------- the handlers ----------

  lemma SendToClientFramed(s: State, c: nat, p: Packet)
    requires PostedFramed(s) && c in s.ids && c in s.posted && Framed(p)
    ensures PostedFramed(SendToClient(s, c, p))
  {
    var t := SendToClient(s, c, p);
    forall d | d in t.posted ensures AllFramed(t.posted[d]) {
      assert AllFramed(s.posted[d]);
    }
  }

  lemma {:induction false} NotifyFramed(s: State, cs: seq<nat>, p: Packet)
    requires PostedFramed(s) && Known(s, cs) && Framed(p)
    ensures PostedFramed(Notify(s, cs, p))
  {
    if cs != [] {
      NotifyFramed(s, cs[..|cs| - 1], p);
      SendToClientFramed(Notify(s, cs[..|cs| - 1], p), cs[|cs| - 1], p);
    }
  }

  lemma SendToAllFramed(s: State, p: Packet, ignore: ConnRef)
    requires PostedFramed(s) && Framed(p)
    ensures PostedFramed(SendToAll(s, p, ignore))
  {
    var t := SendToAll(s, p, ignore);
    forall c | c in t.posted ensures AllFramed(t.posted[c]) {
      assert AllFramed(s.posted[c]);
    }
  }

  lemma {:induction false} TellOthersFramed(s: State, order: seq<u32>, mover: Character, p: Packet)
    requires forall i :: 0 <= i < |order| ==> order[i] in s.chaMap && s.chaMap[order[i]].conn in s.posted
    requires PostedFramed(s) && Framed(p)
    ensures PostedFramed(TellOthers(s, order, mover, p))
  {
    if order != [] {
      var init := order[..|order| - 1];
      TellOthersFramed(s, init, mover, p);
      var t, u := TellOthers(s, init, mover, p), TellOthers(s, order, mover, p);
      forall c | c in u.posted ensures AllFramed(u.posted[c]) {
        assert AllFramed(t.posted[c]);
      }
    }
  }

  lemma PlaceFramed(cmdID: u16, cha: Character)
    ensures Framed(PushPlace(NewPacket(cmdID), cha))
  {
    FramingRestored(Push(Push(NewPacket(cmdID), Le16(cha.id)), Le64(cha.posX)), Le64(cha.posY), 0);
  }

  /** The reply to a client that enters is framed, however full the world. */
  lemma ReplyFramed(s: State, c: nat, order: seq<u32>)
    requires Base(s) && CanEnter(s, c, order)
    ensures Framed(EnterReply(AddCharacter(s, c).chaMap, order, CharacterId(s, c)))
  {
    Traffic.EnterReplyReadsBack(s, c, order);
    ShortReplyFramed(AddCharacter(s, c).chaMap, order, CharacterId(s, c));
  }

  lemma ShortReplyFramed(world: map<u32, Character>, order: seq<u32>, own: u16)
    requires Traffic.InMap(world, order) && |EnterReply(world, order, own).body| < 0x1_0000_0000
    ensures Framed(EnterReply(world, order, own))
  {
    var count: u32 := |world| % 0x1_0000_0000;
    FramingRestored(Push(PlacesPacket(NewPacket(CMD_SELF_ENTER_WORLD), world, order), Le32(count)), Le16(own), 0);
  }

  lemma EnterWorldFramed(s: State, c: nat, order: seq<u32>)
    requires Base(s) && PostedFramed(s) && CanEnter(s, c, order)
    ensures PostedFramed(EnterWorld(s, c, order))
  {
    var t := AddCharacter(s, c);
    var cs, news := NotifyList(t.chaMap, order), PushPlace(NewPacket(CMD_PLY_ENTER_WORLD), NewCharacter(s, c));
    PlaceFramed(CMD_PLY_ENTER_WORLD, NewCharacter(s, c));
    ReplyFramed(s, c, order);
    NotifyFramed(t, cs, news);
    SendToClientFramed(Notify(t, cs, news), c, EnterReply(t.chaMap, order, CharacterId(s, c)));
  }

  lemma MovePlayerFramed(s: State, c: nat, pkt: Packet, order: seq<u32>)
    requires PostedFramed(s) && CanMove(s, c, pkt, order)
    ensures PostedFramed(MovePlayer(s, c, pkt, order))
  {
    if s.ids[c] in s.chaMap {
      var cha := Moved(s.chaMap[s.ids[c]], pkt);
      PlaceFramed(CMD_MOVE_PLAYER, cha);
      TellOthersFramed(s.(chaMap := s.chaMap[s.ids[c] := cha]), order, cha, PushPlace(NewPacket(CMD_MOVE_PLAYER), cha));
    }
  }

  /** A ping is echoed framed if its body fits in 32 bits, whatever its size field says. */
  lemma OnPacketFramed(s: State, c: nat, pkt: Packet, order: seq<u32>)
    requires Base(s) && PostedFramed(s) && CanHandle(s, c, pkt, order) && |pkt.body| < 0x1_0000_0000
    ensures PostedFramed(OnPacket(s, c, pkt, order))
  {
    if pkt.header.cmdID == CMD_PING {
      var time := Le64(To64(Top(pkt, 8)));
      FramingRestored(Pop(pkt, 8), time, 0);
      SendToClientFramed(s, c, Push(Pop(pkt, 8), time));
    } else if pkt.header.cmdID == CMD_MESSAGE_ALL {
      FramingRestored(NewPacket(CMD_SERVER_MESSAGE), Le32(s.ids[c]), 0);
      SendToAllFramed(s, Push(NewPacket(CMD_SERVER_MESSAGE), Le32(s.ids[c])), Conn(c));
    } else if pkt.header.cmdID == CMD_SELF_ENTER_WORLD {
      EnterWorldFramed(s, c, order);
    } else if pkt.header.cmdID == CMD_MOVE_PLAYER {
      MovePlayerFramed(s, c, pkt, order);
    }
  }

  lemma AcceptFramed(s: State, c: nat)
    requires PostedFramed(s)
    ensures PostedFramed(Accept(s, c))
  {
    var t := Accept(s, c);
    forall d | d in t.posted ensures AllFramed(t.posted[d]) {
      if d != c { assert AllFramed(s.posted[d]); }
    }
  }

  // ---------- whole runs ----------

  /** The bodies of received packets fit in 32 bits, as `DeliveredBodiesFit` says they do. */
  predicate BodiesFit(events: seq<Event>) {
    forall e :: e in events && e.Received? ==> |e.pkt.body| < 0x1_0000_0000
  }

  /** What a connection delivers has a body that its 32-bit size field allows, stale or not. */
  lemma {:induction false} DeliveredBodiesFit(r: TCP.Rx, i: nat)
    requires C.RxInv(r) && i < |r.delivered|
    ensures |r.delivered[i].body| < 0x1_0000_0000
  {
    assert C.BodyRule(r.delivered, i);
    if r.delivered[i].header.size == 0 && i > 0 {
      DeliveredBodiesFit(r, i - 1);
    }
  }

  /** Over all runs, whatever the IDs, every packet posted to any client is framed. */
  lemma {:induction false} PostedIsFramed(idCnt: u32, events: seq<Event>)
    requires BodiesFit(events)
    ensures PostedFramed(Run(idCnt, events))
    decreases |events|
  {
    if events != [] {
      var init, e := events[..|events| - 1], events[|events| - 1];
      PostedIsFramed(idCnt, init);
      RunBase(idCnt, init);
      assert e in events;
      var s := Run(idCnt, init);
      match e {
        case Accepted(c) => if c !in s.ids && FreshId(s) { AcceptFramed(s, c); }
        case Closed(c) =>
        case Received(c, pkt, order) => if CanHandle(s, c, pkt, order) { OnPacketFramed(s, c, pkt, order); }
      }
    }
  }

  /** From the server's handlers to the client: if the server's end of a link has posted what the
      server asked it to send to `c`, or a beginning of that, then what the client's end delivers
      is an intact prefix of it, over all runs of the link and of the server. */
  lemma RepliesArrive(idCnt: u32, events: seq<Event>, c: nat, link: seq<C.Event>)
    requires BodiesFit(events) && c in Run(idCnt, events).posted
    requires C.PostsBack(link) <= Run(idCnt, events).posted[c]
    ensures C.AllIntact(C.Run(link).ba.rx.delivered, Run(idCnt, events).posted[c])
  {
    PostedIsFramed(idCnt, events);
    assert AllFramed(Run(idCnt, events).posted[c]);
    C.DeliveryBackIsPrefix(link);
  }
}
