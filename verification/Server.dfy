/**
 The server as the object that its handlers update in place: `ServerApp`, `Server` and `World`.
 Each method is proved against the function of the same handler in `World`.

 A loop over the `unordered_map` of characters visits them in the order `order`.
 */
module Server {
  import opened Bytes
  import opened NetPacket
  import opened World
  import Roster
  import Q = NetQueue

  // ---------- the scan of SendToAll ----------

  predicate IsLive(r: ConnRef, open: set<nat>) {
    r.Conn? && r.ptr in open
  }

  /** The list when the scan has passed its first `n` elements: the dead ones among them are null. */
  function Scanned(rs: seq<ConnRef>, open: set<nat>, n: nat): (r: seq<ConnRef>)
    requires n <= |rs|
    ensures |r| == |rs|
  {
    seq(|rs|, i requires 0 <= i < |rs| => if i < n && !IsLive(rs[i], open) then Null else rs[i])
  }

  /** Erasing the nulls that the scan left keeps exactly the live connections, in order. */
  lemma {:induction false} ErasedIsLive(rs: seq<ConnRef>, open: set<nat>)
    ensures Without(Scanned(rs, open, |rs|), Null) == LiveOnly(rs, open)
  {
    if rs != [] {
      var init := rs[..|rs| - 1];
      ErasedIsLive(init, open);
      assert Scanned(rs, open, |rs|)[..|rs| - 1] == Scanned(init, open, |init|);
    }
  }

  lemma ScannedStep(rs: seq<ConnRef>, open: set<nat>, n: nat)
    requires n < |rs|
    ensures Scanned(rs, open, n)[n] == rs[n]
    ensures Scanned(rs, open, n + 1) == if IsLive(rs[n], open) then Scanned(rs, open, n) else Scanned(rs, open, n)[n := Null]
  {
  }

  predicate AllLive(rs: seq<ConnRef>, open: set<nat>, n: nat)
    requires n <= |rs|
  {
    forall j :: 0 <= j < n ==> IsLive(rs[j], open)
  }

  /** If no dead connection was found there is nothing to erase. */
  lemma {:induction false} NothingErased(rs: seq<ConnRef>, open: set<nat>)
    requires AllLive(rs, open, |rs|)
    ensures Scanned(rs, open, |rs|) == rs == LiveOnly(rs, open)
  {
    if rs != [] {
      var n := |rs| - 1;
      NothingErased(rs[..n], open);
      assert rs == rs[..n] + [rs[n]];
    }
  }

  /** The state whose list is only the first `n` connections. */
  function Upto(s: State, n: nat): State
    requires n <= |s.connections|
  {
    s.(connections := s.connections[..n])
  }

  /** The scan when it has passed `n` connections: `SendToAll` on the part of the list passed so far. */
  function ScanState(s: State, p: Packet, ignore: ConnRef, n: nat): State
    requires n <= |s.connections|
  {
    World.SendToAll(Upto(s, n), p, ignore).(connections := Scanned(s.connections, s.open, n))
  }

  lemma NothingScanned(s: State, p: Packet, ignore: ConnRef)
    ensures ScanState(s, p, ignore, 0) == s
  {
    assert forall c :: c in s.posted ==> s.posted[c] + [] == s.posted[c];
  }

  predicate IsNext(s: State, n: nat, c: nat) {
    n < |s.connections| && s.connections[n] == Conn(c) && Conn(c) !in s.connections[..n] && c in s.ids && c in s.posted
  }

  /** Each of the first `n` elements is a known connection that does not occur before it. */
  predicate Scannable(s: State, n: nat) {
    n == 0 || (Scannable(s, n - 1) && n <= |s.connections|
               && s.connections[n - 1].Conn? && IsNext(s, n - 1, s.connections[n - 1].ptr))
  }

  lemma {:induction false} ListIsScannable(s: State, n: nat)
    requires ConnectionsInv(s) && n <= |s.connections|
    ensures Scannable(s, n)
  {
    if n > 0 { ListIsScannable(s, n - 1); }
  }

  lemma {:induction false} NextConnection(s: State, n: nat, i: nat)
    requires Scannable(s, n) && i < n <= |s.connections|
    ensures s.connections[i].Conn? && IsNext(s, i, s.connections[i].ptr)
  {
    if i < n - 1 { NextConnection(s, n - 1, i); }
  }

  /** What the scan does not change. */
  lemma ScanKeeps(s: State, p: Packet, ignore: ConnRef, n: nat)
    requires n <= |s.connections|
    ensures var t := ScanState(s, p, ignore, n); |t.connections| == |s.connections| && t.open == s.open
  {
  }

  lemma ListedNext(s: State, n: nat, c: nat, d: nat)
    requires IsNext(s, n, c)
    ensures Listed(Upto(s, n + 1), d) <==> Listed(Upto(s, n), d) || d == c
    ensures !Listed(Upto(s, n), c)
  {
    assert s.connections[..n + 1] == s.connections[..n] + [Conn(c)];
  }

  /** What the scan posts at one connection. */
  lemma ScanPosts(s: State, p: Packet, ignore: ConnRef, n: nat, c: nat)
    requires IsNext(s, n, c)
    ensures var t, u := World.SendToAll(Upto(s, n), p, ignore).posted, World.SendToAll(Upto(s, n + 1), p, ignore).posted;
            c in t && u == if c in s.open && Conn(c) != ignore then t[c := t[c] + [p]] else t
  {
    var t, u := World.SendToAll(Upto(s, n), p, ignore).posted, World.SendToAll(Upto(s, n + 1), p, ignore).posted;
    forall d | d in s.posted
      ensures u[d] == if d == c && c in s.open && Conn(c) != ignore then t[d] + [p] else t[d]
    {
      ListedNext(s, n, c, d);
      assert s.posted[d] + [] == s.posted[d];
    }
  }

  /** Whom the scan takes out of the world at one connection. */
  lemma ScanRemoves(s: State, p: Packet, ignore: ConnRef, n: nat, c: nat)
    requires IsNext(s, n, c)
    ensures var t, u := World.SendToAll(Upto(s, n), p, ignore).chaMap, World.SendToAll(Upto(s, n + 1), p, ignore).chaMap;
            u == if c in s.open then t else t - {s.ids[c]}
  {
    forall d ensures Listed(Upto(s, n + 1), d) <==> Listed(Upto(s, n), d) || d == c {
      ListedNext(s, n, c, d);
    }
    assert DeadIds(Upto(s, n + 1)) == if c in s.open then DeadIds(Upto(s, n)) else DeadIds(Upto(s, n)) + {s.ids[c]};
  }

  /** One iteration of the scan. */
  lemma ScanStep(s: State, p: Packet, ignore: ConnRef, n: nat, c: nat)
    requires IsNext(s, n, c)
    ensures var t, u := ScanState(s, p, ignore, n), ScanState(s, p, ignore, n + 1);
            && c in t.ids && c in t.posted && t.connections[n] == Conn(c)
            && u == if c !in s.open then Disconnect(t, c).(connections := t.connections[n := Null])
                    else if Conn(c) == ignore then t else Post(t, c, p)
  {
    ScanPosts(s, p, ignore, n, c);
    ScanRemoves(s, p, ignore, n, c);
    ScannedStep(s.connections, s.open, n);
  }

  // ---------- a Process call as a function ----------

  predicate CanTake(s: State, o: OwnedPacket, order: seq<u32>) {
    o.connection.Conn? && CanHandle(s, o.connection.ptr, o.pkt, order)
  }

  /** Handles the packets one after the other, each with its own visiting order. */
  function HandleAll(s: State, pkts: seq<OwnedPacket>, orders: seq<seq<u32>>): State
    requires |orders| == |pkts|
  {
    if pkts == [] then s else
      var n := |pkts| - 1;
      var t := HandleAll(s, pkts[..n], orders[..n]);
      if CanTake(t, pkts[n], orders[n]) then World.OnPacket(t, pkts[n].connection.ptr, pkts[n].pkt, orders[n]) else t
  }

  /** No packet was skipped: each one could be handled in the state that its predecessors left. */
  predicate NoneSkipped(s: State, pkts: seq<OwnedPacket>, orders: seq<seq<u32>>)
    requires |orders| == |pkts|
  {
    pkts == [] ||
      var n := |pkts| - 1;
      NoneSkipped(s, pkts[..n], orders[..n]) && CanTake(HandleAll(s, pkts[..n], orders[..n]), pkts[n], orders[n])
  }

  lemma HandleOneMore(s: State, q: seq<OwnedPacket>, n: nat, orders: seq<seq<u32>>, order: seq<u32>)
    requires |orders| == n < |q| && NoneSkipped(s, q[..n], orders)
    requires CanTake(HandleAll(s, q[..n], orders), q[n], order)
    ensures q[n..][0] == q[n] && q[n..][1..] == q[n + 1..]
    ensures NoneSkipped(s, q[..n + 1], orders + [order])
    ensures HandleAll(s, q[..n + 1], orders + [order])
            == World.OnPacket(HandleAll(s, q[..n], orders), q[n].connection.ptr, q[n].pkt, order)
  {
    var ps, os := q[..n + 1], orders + [order];
    assert ps[..n] == q[..n] && os[..n] == orders;
  }

  /** A handled packet leaves the queue's other packets as good as they were. */
  lemma TakeKeepsInv(s: State, o: OwnedPacket, order: seq<u32>)
    requires Roster.Base(s) && CanTake(s, o, order)
    ensures var t := World.OnPacket(s, o.connection.ptr, o.pkt, order); Roster.Base(t) && t.ids == s.ids
  {
    Roster.OnPacketBase(s, o.connection.ptr, o.pkt, order);
    Roster.OnPacketFrame(s, o.connection.ptr, o.pkt, order);
  }

  lemma TakeKeepsWorld(s: State, o: OwnedPacket, order: seq<u32>)
    requires Roster.Base(s) && WorldInv(s) && CanTake(s, o, order)
    requires o.pkt.header.cmdID == CMD_SELF_ENTER_WORLD ==> s.ids[o.connection.ptr] < 0x1_0000
    ensures WorldInv(World.OnPacket(s, o.connection.ptr, o.pkt, order))
  {
    Roster.OnPacketInv(s, o.connection.ptr, o.pkt, order);
  }

  /** All the known clients that ask to enter have IDs that fit in 16 bits. */
  predicate EnterIdsFit(ids: map<nat, u32>, os: seq<OwnedPacket>) {
    forall o :: o in os && o.pkt.header.cmdID == CMD_SELF_ENTER_WORLD && o.connection.Conn? && o.connection.ptr in ids ==>
      ids[o.connection.ptr] < 0x1_0000
  }

  /** A handled list of packets keeps connection list and world in step if all who enter have IDs
      that fit in 16 bits. */
  lemma {:induction false} HandleAllKeepsWorld(s: State, pkts: seq<OwnedPacket>, orders: seq<seq<u32>>)
    requires |orders| == |pkts| && Roster.Base(s) && WorldInv(s)
    requires EnterIdsFit(s.ids, pkts)
    ensures var t := HandleAll(s, pkts, orders); Roster.Base(t) && WorldInv(t) && t.ids == s.ids
    decreases |pkts|
  {
    if pkts != [] {
      var n := |pkts| - 1;
      HandleAllKeepsWorld(s, pkts[..n], orders[..n]);
      var t := HandleAll(s, pkts[..n], orders[..n]);
      if CanTake(t, pkts[n], orders[n]) {
        assert pkts[n] in pkts;
        TakeKeepsInv(t, pkts[n], orders[n]);
        TakeKeepsWorld(t, pkts[n], orders[n]);
      }
    }
  }

  lemma ProcessKeepsWorld(s: State, q: seq<OwnedPacket>, n: nat, orders: seq<seq<u32>>)
    requires Roster.Base(s) && |orders| == n <= |q|
    ensures WorldInv(s) && EnterIdsFit(s.ids, q) ==> WorldInv(HandleAll(s, q[..n], orders))
  {
    if WorldInv(s) && EnterIdsFit(s.ids, q) {
      HandleAllKeepsWorld(s, q[..n], orders);
    }
  }

  /** What `Process` expects of a queued packet: an accepted sender, and the bytes that its handler
      pops. */
  predicate Queueable(ids: map<nat, u32>, o: OwnedPacket) {
    && o.connection.Conn? && o.connection.ptr in ids
    && (o.pkt.header.cmdID == CMD_PING ==> |o.pkt.body| >= 8)
    && (o.pkt.header.cmdID == CMD_MOVE_PLAYER ==> |o.pkt.body| >= 18)
  }

  predicate AllQueueable(ids: map<nat, u32>, os: seq<OwnedPacket>) {
    forall o :: o in os ==> Queueable(ids, o)
  }

  lemma QueueableAt(ids: map<nat, u32>, os: seq<OwnedPacket>, n: nat)
    requires AllQueueable(ids, os) && n < |os|
    ensures os[n..][0] == os[n] && Queueable(ids, os[n])
  {
    assert os[n] in os;
  }

  /** In order, any visiting order of the characters lets the packet be handled. */
  lemma AnyOrderWorks(s: State, o: OwnedPacket, order: seq<u32>)
    requires Roster.Base(s) && Queueable(s.ids, o)
    requires o.pkt.header.cmdID == CMD_SELF_ENTER_WORLD ==> IsOrder(order, AddCharacter(s, o.connection.ptr).chaMap.Keys)
    requires o.pkt.header.cmdID == CMD_MOVE_PLAYER ==> IsOrder(order, s.chaMap.Keys)
    ensures CanHandle(s, o.connection.ptr, o.pkt, order)
  {
    var c := o.connection.ptr;
    if o.pkt.header.cmdID == CMD_SELF_ENTER_WORLD {
      var t := AddCharacter(s, c);
      var cs := NotifyList(t.chaMap, order);
      forall i | 0 <= i < |cs| ensures cs[i] in t.ids && cs[i] in t.posted {
        assert order[i] in t.chaMap.Keys;
      }
    } else if o.pkt.header.cmdID == CMD_MOVE_PLAYER {
      assert forall k :: k in s.chaMap ==> s.chaMap[k].conn in s.posted;
    }
  }

  /** Some order in which to visit the keys. */
  method VisitingOrder(keys: set<u32>) returns (order: seq<u32>)
    ensures IsOrder(order, keys)
  {
    order := [];
    var rest := keys;
    while rest != {}
      invariant NoDuplicates(order)
      invariant forall k :: k in keys <==> k in rest || k in order
      invariant forall i :: 0 <= i < |order| ==> order[i] !in rest && order[i] in keys
      decreases rest
    {
      var k :| k in rest;
      order := order + [k];
      rest := rest - {k};
    }
  }

  /** One iteration of the loop of `FlagMoveUpdate`. */
  lemma TellOneMore(s: State, order: seq<u32>, i: nat, mover: Character, p: Packet)
    requires i < |order| && forall j :: 0 <= j < |order| ==> order[j] in s.chaMap && s.chaMap[order[j]].conn in s.posted
    ensures var t, other := TellOthers(s, order[..i], mover, p), s.chaMap[order[i]];
            && other.conn in t.posted
            && TellOthers(s, order[..i + 1], mover, p) == if other.id == mover.id then t else Post(t, other.conn, p)
  {
    assert order[..i + 1][..i] == order[..i];
  }

  // ---------- the server ----------

  class Server {
    var ids: map<nat, u32>
    var open: set<nat>
    var posted: map<nat, seq<Packet>>
    var connections: seq<ConnRef>
    var idCnt: u32
    var chaMap: map<u32, Character>
    const pktIn: Q.NetQueue<OwnedPacket>

    function View(): State
      reads this
    {
      State(ids, open, posted, connections, idCnt, chaMap)
    }

    constructor (idCnt: u32)
      ensures View() == Init(idCnt) && fresh(pktIn) && pktIn.deq == []
    {
      ids, open, posted, connections, chaMap := map[], {}, map[], [], map[];
      this.idCnt := idCnt;
      pktIn := new Q.NetQueue();
    }

    /** `TCPConnection::SendPacket` on a connection of this server. */
    method SendPacket(c: nat, p: Packet)
      requires c in posted
      modifies `posted
      ensures View() == Post(old(View()), c, p)
    {
      posted := posted[c := posted[c] + [p]];
    }

    method OnClientDisconnect(c: nat)
      requires c in ids
      modifies `chaMap
      ensures View() == Disconnect(old(View()), c)
    {
      chaMap := chaMap - {ids[c]};
    }

    /** `erase(remove(...))` on the connection list. */
    method EraseConnections(r: ConnRef)
      modifies `connections
      ensures connections == Without(old(connections), r)
    {
      var kept, i := [], 0;
      while i < |connections|
        invariant i <= |connections| && connections == old(connections)
        invariant kept == Without(connections[..i], r)
      {
        assert connections[..i + 1][..i] == connections[..i];
        if connections[i] != r {
          kept := kept + [connections[i]];
        }
        i := i + 1;
      }
      assert connections[..i] == connections;
      connections := kept;
    }

    /** The caller's reference is null afterwards if the client was found dead. */
    method SendToClient(client: ConnRef, p: Packet) returns (after: ConnRef)
      requires client.Conn? && client.ptr in ids && client.ptr in posted
      modifies `posted, `connections, `chaMap
      ensures View() == World.SendToClient(old(View()), client.ptr, p)
      ensures after == if client.ptr in open then client else Null
    {
      if client.Conn? && client.ptr in open {
        SendPacket(client.ptr, p);
        after := client;
      } else {
        OnClientDisconnect(client.ptr);
        EraseConnections(client);
        after := Null;
      }
    }

    /** The body of the loop of `SendToAll`, in a scan that began in state `s`. */
    method ScanOne(i: nat, p: Packet, ignore: ConnRef, ghost s: State) returns (dead: bool)
      requires i < |s.connections| && s.connections[i].Conn? && IsNext(s, i, s.connections[i].ptr)
      requires View() == ScanState(s, p, ignore, i)
      modifies `posted, `connections, `chaMap
      ensures View() == ScanState(s, p, ignore, i + 1)
      ensures dead <==> !IsLive(s.connections[i], s.open)
    {
      ScanStep(s, p, ignore, i, s.connections[i].ptr);
      var client := connections[i];
      dead := false;
      if client.Conn? && client.ptr in open {
        if client != ignore {
          SendPacket(client.ptr, p);
        }
      } else {
        OnClientDisconnect(client.ptr);
        connections := connections[i := Null];
        dead := true;
      }
    }

    /** Sends to the live connections of the list, nulling the dead ones. */
    method ScanConnections(p: Packet, ignore: ConnRef) returns (invalidClientExists: bool)
      requires Scannable(View(), |connections|)
      modifies `posted, `connections, `chaMap
      ensures View() == ScanState(old(View()), p, ignore, |old(connections)|)
      ensures !invalidClientExists ==> AllLive(old(connections), open, |old(connections)|)
    {
      ghost var s := View();
      invalidClientExists := false;
      var i := 0;
      NothingScanned(s, p, ignore);
      while i < |connections|
        invariant i <= |connections| == |s.connections|
        invariant View() == ScanState(s, p, ignore, i)
        invariant !invalidClientExists ==> AllLive(s.connections, s.open, i)
      {
        NextConnection(s, |s.connections|, i);
        ScanKeeps(s, p, ignore, i + 1);
        var dead := ScanOne(i, p, ignore, s);
        invalidClientExists := invalidClientExists || dead;
        i := i + 1;
      }
    }

    /** Scans the list and then erases the nulls. */
    method SendToAll(p: Packet, ignore: ConnRef)
      requires ConnectionsInv(View())
      modifies `posted, `connections, `chaMap
      ensures View() == World.SendToAll(old(View()), p, ignore)
    {
      ghost var rs := connections;
      ListIsScannable(View(), |connections|);
      var invalidClientExists := ScanConnections(p, ignore);
      assert Upto(old(View()), |rs|) == old(View());
      if invalidClientExists {
        ErasedIsLive(rs, open);
        EraseConnections(Null);
      } else {
        NothingErased(rs, open);
      }
    }

    /** The accept handler: `OnClientConnect` greets the client, then it is listed and numbered. */
    method Accept(c: nat)
      requires c !in ids && c !in posted
      modifies this
      ensures View() == World.Accept(old(View()), c)
    {
      open := open + {c};
      posted := posted[c := []];
      SendPacket(c, NewPacket(CMD_ACCEPT_TCP_CONNECTION));
      assert posted[c] == [AcceptPacket()];
      connections := connections + [Conn(c)];
      ids := ids[c := idCnt];
      idCnt := (idCnt + 1) % 0x1_0000_0000;
    }

    method OnPing(client: ConnRef, pkt: PacketObject)
      requires client.Conn? && client.ptr in ids && client.ptr in posted && |pkt.body| >= 8
      modifies `posted, `connections, `chaMap, pkt
      ensures View() == World.Ping(old(View()), client.ptr, old(pkt.Value()))
    {
      var bytes := pkt.Extract(8);
      var timeRec := To64(bytes);
      pkt.Append(Le64(timeRec));
      var _ := SendToClient(client, pkt.Value());
    }

    method OnMessageAll(client: ConnRef)
      requires client.Conn? && client.ptr in ids && ConnectionsInv(View())
      modifies `posted, `connections, `chaMap
      ensures View() == World.MessageAll(old(View()), client.ptr)
    {
      var pkt := new PacketObject();
      pkt.Assign(NewPacket(CMD_SERVER_MESSAGE));
      pkt.Append(Le32(ids[client.ptr]));
      SendToAll(pkt.Value(), client);
    }

    method AddChaToWorld(id: u32, cha: Character)
      modifies `chaMap
      ensures chaMap == if id in old(chaMap) then old(chaMap) else old(chaMap)[id := cha]
    {
      if id !in chaMap {
        chaMap := chaMap[id := cha];
      }
    }

    method AppendPlace(pkt: PacketObject, cha: Character)
      modifies pkt
      ensures pkt.Value() == PushPlace(old(pkt.Value()), cha)
    {
      pkt.Append(Le16(cha.id));
      pkt.Append(Le64(cha.posX));
      pkt.Append(Le64(cha.posY));
    }

    /** A packet that tells where a character is. */
    method PlaceNews(cmdID: u16, cha: Character) returns (p: Packet)
      ensures p == PushPlace(NewPacket(cmdID), cha)
    {
      var pkt := new PacketObject();
      pkt.Assign(NewPacket(cmdID));
      AppendPlace(pkt, cha);
      p := pkt.Value();
    }

    /** Lists every character in the packet and collects their connections. */
    method ListWorld(pkt: PacketObject, order: seq<u32>) returns (notifyList: seq<nat>)
      requires IsOrder(order, chaMap.Keys)
      modifies pkt
      ensures pkt.Value() == PlacesPacket(old(pkt.Value()), chaMap, order)
      ensures notifyList == NotifyList(chaMap, order)
    {
      notifyList := [];
      var i := 0;
      while i < |order|
        invariant i <= |order|
        invariant pkt.Value() == PlacesPacket(old(pkt.Value()), chaMap, order[..i])
        invariant notifyList == NotifyList(chaMap, order)[..i]
      {
        assert order[..i + 1][..i] == order[..i];
        AppendPlace(pkt, chaMap[order[i]]);
        notifyList := notifyList + [chaMap[order[i]].conn];
        i := i + 1;
      }
      assert order[..i] == order;
    }

    method NotifyAll(notifyList: seq<nat>, p: Packet)
      requires Known(View(), notifyList)
      modifies `posted, `connections, `chaMap
      ensures View() == Notify(old(View()), notifyList, p)
    {
      ghost var s := View();
      var i := 0;
      while i < |notifyList|
        invariant i <= |notifyList| && Known(s, notifyList[..i])
        invariant View() == Notify(s, notifyList[..i], p)
      {
        assert notifyList[..i + 1][..i] == notifyList[..i];
        var _ := SendToClient(Conn(notifyList[i]), p);
        i := i + 1;
      }
      assert notifyList[..i] == notifyList;
    }

    /** The reply to a client that enters, and whom to tell about it. */
    method BuildReply(cha: Character, order: seq<u32>) returns (reply: Packet, notifyList: seq<nat>)
      requires IsOrder(order, chaMap.Keys)
      ensures reply == EnterReply(chaMap, order, cha.id) && notifyList == NotifyList(chaMap, order)
    {
      var pkt := new PacketObject();
      pkt.Assign(NewPacket(CMD_SELF_ENTER_WORLD));
      notifyList := ListWorld(pkt, order);
      pkt.Append(Le32(|chaMap| % 0x1_0000_0000));
      pkt.Append(Le16(cha.id));
      reply := pkt.Value();
    }

    method OnSelfEnterWorld(client: ConnRef, order: seq<u32>)
      requires client.Conn? && CanEnter(View(), client.ptr, order)
      modifies `posted, `connections, `chaMap
      ensures View() == World.EnterWorld(old(View()), client.ptr, order)
    {
      var cha := Character(ids[client.ptr] % 0x1_0000, client.ptr, 0, 0);
      AddChaToWorld(cha.id, cha);
      assert View() == AddCharacter(old(View()), client.ptr);
      var reply, notifyList := BuildReply(cha, order);
      var news := PlaceNews(CMD_PLY_ENTER_WORLD, cha);
      NotifyAll(notifyList, news);
      var _ := SendToClient(client, reply);
    }

    /** The loop of `FlagMoveUpdate`. */
    method TellAllOthers(order: seq<u32>, cha: Character, move: Packet)
      requires forall i :: 0 <= i < |order| ==> order[i] in chaMap && chaMap[order[i]].conn in posted
      modifies `posted
      ensures View() == TellOthers(old(View()), order, cha, move)
    {
      ghost var s := View();
      var i := 0;
      while i < |order|
        invariant i <= |order|
        invariant View() == TellOthers(s, order[..i], cha, move)
      {
        TellOneMore(s, order, i, cha, move);
        if chaMap[order[i]].id != cha.id {
          SendPacket(chaMap[order[i]].conn, move);
        }
        i := i + 1;
      }
      assert order[..i] == order;
    }

    method FlagMoveUpdate(cha: Character, order: seq<u32>)
      requires IsOrder(order, chaMap.Keys) && forall k :: k in chaMap ==> chaMap[k].conn in posted
      modifies `posted
      ensures View() == TellOthers(old(View()), order, cha, PushPlace(NewPacket(CMD_MOVE_PLAYER), cha))
    {
      var move := PlaceNews(CMD_MOVE_PLAYER, cha);
      TellAllOthers(order, cha, move);
    }

    method OnMovePlayer(client: ConnRef, pkt: PacketObject, order: seq<u32>)
      requires client.Conn? && CanMove(View(), client.ptr, pkt.Value(), order)
      modifies `posted, `chaMap, pkt
      ensures View() == World.MovePlayer(old(View()), client.ptr, old(pkt.Value()), order)
    {
      var me := ids[client.ptr];
      if me in chaMap {
        var y := pkt.Extract(8);
        var x := pkt.Extract(8);
        var _ := pkt.Extract(2);
        var cha := chaMap[me].(posX := To64(x), posY := To64(y));
        chaMap := chaMap[me := cha];
        FlagMoveUpdate(cha, order);
      }
    }

    method OnPacket(client: ConnRef, pkt: PacketObject, order: seq<u32>)
      requires client.Conn? && ConnectionsInv(View()) && CanHandle(View(), client.ptr, pkt.Value(), order)
      modifies `posted, `connections, `chaMap, pkt
      ensures View() == World.OnPacket(old(View()), client.ptr, old(pkt.Value()), order)
    {
      if pkt.header.cmdID == CMD_PING {
        OnPing(client, pkt);
      } else if pkt.header.cmdID == CMD_MESSAGE_ALL {
        OnMessageAll(client);
      } else if pkt.header.cmdID == CMD_SELF_ENTER_WORLD {
        OnSelfEnterWorld(client, order);
      } else if pkt.header.cmdID == CMD_MOVE_PLAYER {
        OnMovePlayer(client, pkt, order);
      }
    }

    /** The visiting order that the map gives the handler of this packet. */
    method OrderFor(o: OwnedPacket) returns (order: seq<u32>)
      requires Roster.Base(View()) && Queueable(ids, o)
      ensures CanTake(View(), o, order)
    {
      var c := o.connection.ptr;
      var keys := if o.pkt.header.cmdID == CMD_SELF_ENTER_WORLD then chaMap.Keys + {CharacterId(View(), c) as u32}
                  else chaMap.Keys;
      order := VisitingOrder(keys);
      assert o.pkt.header.cmdID == CMD_SELF_ENTER_WORLD ==> keys == AddCharacter(View(), c).chaMap.Keys;
      AnyOrderWorks(View(), o, order);
    }

    /** The body of the loop of `Process`. */
    method ProcessOne() returns (ghost order: seq<u32>)
      requires Roster.Base(View()) && pktIn.deq != [] && Queueable(ids, pktIn.deq[0])
      modifies `posted, `connections, `chaMap, pktIn
      ensures Roster.Base(View()) && ids == old(ids) && pktIn.deq == old(pktIn.deq)[1..]
      ensures var o := old(pktIn.deq)[0];
              && CanTake(old(View()), o, order)
              && View() == World.OnPacket(old(View()), o.connection.ptr, o.pkt, order)
    {
      ghost var before := pktIn.deq;
      var o := pktIn.PopFront();
      assert [o] + pktIn.deq == before;
      var visiting := OrderFor(o);
      order := visiting;
      TakeKeepsInv(View(), o, order);
      var pkt := new PacketObject();
      pkt.Assign(o.pkt);
      OnPacket(o.connection, pkt, visiting);
    }

    /** Takes at most `maxPkt` packets off the queue and handles each of them, in queue order,
        keeping the connection list in order, and the world in step with it if those who enter
        have small enough IDs. */
    method Process(maxPkt: nat) returns (ghost orders: seq<seq<u32>>)
      requires Roster.Base(View())
      requires AllQueueable(ids, pktIn.deq)
      modifies `posted, `connections, `chaMap, pktIn
      ensures Roster.Base(View())
      ensures |orders| == Min(maxPkt, |old(pktIn.deq)|)
      ensures pktIn.deq == old(pktIn.deq)[|orders|..]
      ensures NoneSkipped(old(View()), old(pktIn.deq)[..|orders|], orders)
      ensures View() == HandleAll(old(View()), old(pktIn.deq)[..|orders|], orders)
      ensures old(WorldInv(View()) && EnterIdsFit(ids, pktIn.deq)) ==> WorldInv(View())
    {
      ghost var s, q := View(), pktIn.deq;
      orders := [];
      var messageCount := 0;
      var empty := pktIn.IsEmpty();
      while messageCount < maxPkt && !empty
        invariant messageCount <= Min(maxPkt, |q|) && |orders| == messageCount
        invariant pktIn.deq == q[messageCount..] && (empty <==> pktIn.deq == [])
        invariant Roster.Base(View()) && ids == s.ids
        invariant NoneSkipped(s, q[..messageCount], orders)
        invariant View() == HandleAll(s, q[..messageCount], orders)
        decreases maxPkt - messageCount
      {
        QueueableAt(s.ids, q, messageCount);
        ghost var order := ProcessOne();
        HandleOneMore(s, q, messageCount, orders, order);
        orders := orders + [order];
        messageCount := messageCount + 1;
        empty := pktIn.IsEmpty();
      }
      ProcessKeepsWorld(s, q, messageCount, orders);
    }
  }
}
