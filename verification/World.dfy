/**
 The server's state as a value: its connection list, its world of characters, and what it has
 asked every connection to send. The functions say what each handler makes of that state.

 A connection object is known by its identity, a number; `ids`, `open` and `posted` are its
 `m_sID`, `IsConnected()` and the packets given to its `SendPacket`. Iterating over the
 `unordered_map` of characters visits them in some order, which is a parameter.
 */
module World {
  import opened Bytes
  import opened NetPacket

  datatype Character = Character(id: u16, conn: nat, posX: u64, posY: u64)

  datatype State = State(ids: map<nat, u32>, open: set<nat>, posted: map<nat, seq<Packet>>,
                         connections: seq<ConnRef>, idCnt: u32, chaMap: map<u32, Character>)

  /** The connection counter has no initial value in the code: any start is possible. */
  function Init(idCnt: u32): State {
    State(map[], {}, map[], [], idCnt, map[])
  }

  // ---------- invariants ----------

  predicate Listed(s: State, c: nat) {
    Conn(c) in s.connections
  }

  predicate NoDuplicates<T(==)>(a: seq<T>) {
    forall i, j :: 0 <= i < j < |a| ==> a[i] != a[j]
  }

  /** The connection list holds real, distinct connections, among them every open one, and no two
      connections have the same ID. */
  ghost predicate ConnectionsInv(s: State) {
    && s.posted.Keys == s.ids.Keys && s.open <= s.ids.Keys
    && (forall i :: 0 <= i < |s.connections| ==> s.connections[i].Conn? && s.connections[i].ptr in s.ids)
    && NoDuplicates(s.connections)
    && (forall c :: c in s.open ==> Listed(s, c))
    && (forall c, d :: c in s.ids && d in s.ids && s.ids[c] == s.ids[d] ==> c == d)
  }

  /** A map entry is in order: keyed by its character's ID, which is its connection's ID, and the
      connection is still listed. */
  predicate EntryOk(s: State, k: u32) {
    k in s.chaMap ==>
      s.chaMap[k].id == k && s.chaMap[k].conn in s.ids && s.ids[s.chaMap[k].conn] == k && Listed(s, s.chaMap[k].conn)
  }

  /** The roster: every character in the world is keyed by its own ID and has a listed connection. */
  ghost predicate RosterOk(s: State) {
    forall k :: k in s.chaMap ==> s.chaMap[k].id == k && Listed(s, s.chaMap[k].conn)
  }

  ghost predicate WorldInv(s: State) {
    forall k: u32 :: EntryOk(s, k)
  }

  /** What holds of the world whatever the IDs: every character has a connection that was accepted,
      and every key fits in the 16 bits of a character's ID. */
  ghost predicate WorldKnown(s: State) {
    forall k :: k in s.chaMap ==> k < 0x1_0000 && s.chaMap[k].conn in s.ids
  }

  /** No connection has the ID that the counter would give to the next one. */
  predicate FreshId(s: State) {
    forall c :: c in s.ids ==> s.ids[c] != s.idCnt
  }

  // ---------- sending ----------

  function Post(s: State, c: nat, p: Packet): State
    requires c in s.posted
  {
    s.(posted := s.posted[c := s.posted[c] + [p]])
  }

  function Without(rs: seq<ConnRef>, r: ConnRef): seq<ConnRef> {
    if rs == [] then [] else Without(rs[..|rs| - 1], r) + if rs[|rs| - 1] == r then [] else [rs[|rs| - 1]]
  }

  /** `OnClientDisconnect`: the character goes by the connection's 32-bit ID. */
  function Disconnect(s: State, c: nat): State
    requires c in s.ids
  {
    s.(chaMap := s.chaMap - {s.ids[c]})
  }

  function SendToClient(s: State, c: nat, p: Packet): State
    requires c in s.ids && c in s.posted
  {
    if c in s.open then Post(s, c, p)
    else Disconnect(s, c).(connections := Without(s.connections, Conn(c)))
  }

  /** The connections of a list that are still open, in order. */
  function LiveOnly(rs: seq<ConnRef>, open: set<nat>): seq<ConnRef> {
    if rs == [] then [] else
      var last := rs[|rs| - 1];
      LiveOnly(rs[..|rs| - 1], open) + if last.Conn? && last.ptr in open then [last] else []
  }

  predicate Receives(s: State, c: nat, ignore: ConnRef) {
    c in s.open && Listed(s, c) && Conn(c) != ignore
  }

  /** The IDs of the listed connections that are no longer open. */
  function DeadIds(s: State): set<u32> {
    set c | c in s.ids && Listed(s, c) && c !in s.open :: s.ids[c]
  }

  /** `SendToAll`: one copy to every open, listed, not ignored connection; the dead ones leave the
      list and their characters the world. */
  function SendToAll(s: State, p: Packet, ignore: ConnRef): State {
    s.(posted := map c | c in s.posted :: s.posted[c] + if Receives(s, c, ignore) then [p] else [],
       connections := LiveOnly(s.connections, s.open),
       chaMap := s.chaMap - DeadIds(s))
  }

  // ---------- handlers ----------

  predicate IsOrder(order: seq<u32>, keys: set<u32>) {
    NoDuplicates(order) && (forall i :: 0 <= i < |order| ==> order[i] in keys) && forall k :: k in keys ==> k in order
  }

  function AcceptPacket(): Packet {
    NewPacket(CMD_ACCEPT_TCP_CONNECTION)
  }

  /** The accept handler: greet, list, and number the new connection. */
  function Accept(s: State, c: nat): State {
    State(s.ids[c := s.idCnt], s.open + {c}, s.posted[c := [AcceptPacket()]],
          s.connections + [Conn(c)], (s.idCnt + 1) % 0x1_0000_0000, s.chaMap)
  }

  /** A ping is echoed: the time field is popped and pushed back. */
  function Ping(s: State, c: nat, pkt: Packet): State
    requires c in s.ids && c in s.posted && |pkt.body| >= 8
  {
    SendToClient(s, c, Push(Pop(pkt, 8), Le64(To64(Top(pkt, 8)))))
  }

  function MessageAll(s: State, c: nat): State
    requires c in s.ids
  {
    SendToAll(s, Push(NewPacket(CMD_SERVER_MESSAGE), Le32(s.ids[c])), Conn(c))
  }

  /** `SetID(GetID())` cuts the connection's ID to 16 bits. */
  function CharacterId(s: State, c: nat): u16
    requires c in s.ids
  {
    s.ids[c] % 0x1_0000
  }

  function NewCharacter(s: State, c: nat): Character
    requires c in s.ids
  {
    Character(CharacterId(s, c), c, 0, 0)
  }

  /** `AddChaToWorld`: `insert` does nothing if the key is taken. */
  function AddCharacter(s: State, c: nat): State
    requires c in s.ids
  {
    var k := CharacterId(s, c);
    if k in s.chaMap then s else s.(chaMap := s.chaMap[k := NewCharacter(s, c)])
  }

  /** ID and position, in the order in which they are pushed. */
  function PushPlace(p: Packet, cha: Character): Packet {
    Push(Push(Push(p, Le16(cha.id)), Le64(cha.posX)), Le64(cha.posY))
  }

  function PlacesPacket(p: Packet, chaMap: map<u32, Character>, order: seq<u32>): Packet
    requires forall i :: 0 <= i < |order| ==> order[i] in chaMap
  {
    if order == [] then p
    else PushPlace(PlacesPacket(p, chaMap, order[..|order| - 1]), chaMap[order[|order| - 1]])
  }

  /** The reply to `SelfEnterWorld`: every character, their number, and the client's own ID. */
  function EnterReply(chaMap: map<u32, Character>, order: seq<u32>, own: u16): Packet
    requires forall i :: 0 <= i < |order| ==> order[i] in chaMap
  {
    Push(Push(PlacesPacket(NewPacket(CMD_SELF_ENTER_WORLD), chaMap, order), Le32(|chaMap| % 0x1_0000_0000)), Le16(own))
  }

  function NotifyList(chaMap: map<u32, Character>, order: seq<u32>): seq<nat>
    requires forall i :: 0 <= i < |order| ==> order[i] in chaMap
  {
    seq(|order|, i requires 0 <= i < |order| => chaMap[order[i]].conn)
  }

  predicate Known(s: State, cs: seq<nat>) {
    forall i :: 0 <= i < |cs| ==> cs[i] in s.ids && cs[i] in s.posted
  }

  function Notify(s: State, cs: seq<nat>, p: Packet): (t: State)
    requires Known(s, cs)
    ensures t.ids == s.ids && t.posted.Keys == s.posted.Keys && t.open == s.open && t.idCnt == s.idCnt
  {
    if cs == [] then s else SendToClient(Notify(s, cs[..|cs| - 1], p), cs[|cs| - 1], p)
  }

  predicate CanEnter(s: State, c: nat, order: seq<u32>) {
    && c in s.ids && c in s.posted
    && var t := AddCharacter(s, c);
    && IsOrder(order, t.chaMap.Keys) && Known(t, NotifyList(t.chaMap, order))
  }

  function EnterWorld(s: State, c: nat, order: seq<u32>): State
    requires CanEnter(s, c, order)
  {
    var t := AddCharacter(s, c);
    var news := PushPlace(NewPacket(CMD_PLY_ENTER_WORLD), NewCharacter(s, c));
    SendToClient(Notify(t, NotifyList(t.chaMap, order), news), c, EnterReply(t.chaMap, order, CharacterId(s, c)))
  }

  /** `FlagMoveUpdate`: sends without asking whether the connection is open. */
  function TellOthers(s: State, order: seq<u32>, mover: Character, p: Packet): (t: State)
    requires forall i :: 0 <= i < |order| ==> order[i] in s.chaMap && s.chaMap[order[i]].conn in s.posted
    ensures t == s.(posted := t.posted) && t.posted.Keys == s.posted.Keys
  {
    if order == [] then s else
      var t := TellOthers(s, order[..|order| - 1], mover, p);
      var other := s.chaMap[order[|order| - 1]];
      if other.id == mover.id then t else Post(t, other.conn, p)
  }

  /** The character after a move packet was popped: y, then x, then an ID that is only checked. */
  function Moved(cha: Character, pkt: Packet): Character
    requires |pkt.body| >= 18
  {
    var afterY := Pop(pkt, 8);
    cha.(posX := To64(Top(afterY, 8)), posY := To64(Top(pkt, 8)))
  }

  predicate CanMove(s: State, c: nat, pkt: Packet, order: seq<u32>) {
    c in s.ids && (s.ids[c] in s.chaMap ==>
      |pkt.body| >= 18 && IsOrder(order, s.chaMap.Keys)
      && forall k :: k in s.chaMap ==> s.chaMap[k].conn in s.posted)
  }

  function MovePlayer(s: State, c: nat, pkt: Packet, order: seq<u32>): State
    requires CanMove(s, c, pkt, order)
  {
    if s.ids[c] !in s.chaMap then s else
      var cha := Moved(s.chaMap[s.ids[c]], pkt);
      var t := s.(chaMap := s.chaMap[s.ids[c] := cha]);
      TellOthers(t, order, cha, PushPlace(NewPacket(CMD_MOVE_PLAYER), cha))
  }

  /** The packet has the bytes that its handler pops, and `order` is an order in which the
      handler may visit the characters. */
  predicate CanHandle(s: State, c: nat, pkt: Packet, order: seq<u32>) {
    && c in s.ids && c in s.posted
    && (pkt.header.cmdID == CMD_PING ==> |pkt.body| >= 8)
    && (pkt.header.cmdID == CMD_SELF_ENTER_WORLD ==> CanEnter(s, c, order))
    && (pkt.header.cmdID == CMD_MOVE_PLAYER ==> CanMove(s, c, pkt, order))
  }

  function OnPacket(s: State, c: nat, pkt: Packet, order: seq<u32>): State
    requires CanHandle(s, c, pkt, order)
  {
    if pkt.header.cmdID == CMD_PING then Ping(s, c, pkt)
    else if pkt.header.cmdID == CMD_MESSAGE_ALL then MessageAll(s, c)
    else if pkt.header.cmdID == CMD_SELF_ENTER_WORLD then EnterWorld(s, c, order)
    else if pkt.header.cmdID == CMD_MOVE_PLAYER then MovePlayer(s, c, pkt, order)
    else s
  }

  // ---------- the lists ----------

  lemma {:induction false} WithoutMembers(rs: seq<ConnRef>, r: ConnRef)
    ensures forall x :: x in Without(rs, r) <==> x in rs && x != r
    ensures NoDuplicates(rs) ==> NoDuplicates(Without(rs, r))
  {
    if rs != [] {
      var init, last := rs[..|rs| - 1], rs[|rs| - 1];
      WithoutMembers(init, r);
      assert rs == init + [last];
      if NoDuplicates(rs) { assert last !in init; }
    }
  }

  lemma {:induction false} LiveOnlyMembers(rs: seq<ConnRef>, open: set<nat>)
    ensures forall x :: x in LiveOnly(rs, open) <==> x in rs && x.Conn? && x.ptr in open
    ensures NoDuplicates(rs) ==> NoDuplicates(LiveOnly(rs, open))
  {
    if rs != [] {
      var init, last := rs[..|rs| - 1], rs[|rs| - 1];
      LiveOnlyMembers(init, open);
      assert rs == init + [last];
      if NoDuplicates(rs) { assert last !in init; }
    }
  }

  // ---------- preservation ----------

  /** All entries are in order, except perhaps one of connection `c` under `c`'s own ID. */
  ghost predicate WorldInvExcept(s: State, c: nat)
    requires c in s.ids
  {
    forall k: u32 :: EntryOk(s, k) || (k == s.ids[c] && s.chaMap[k].conn == c && s.chaMap[k].id == k)
  }

  lemma SendToClientInv(s: State, c: nat, p: Packet)
    requires ConnectionsInv(s) && c in s.ids
    ensures ConnectionsInv(SendToClient(s, c, p))
    ensures forall x :: x in SendToClient(s, c, p).connections <==> x in s.connections && (c in s.open || x != Conn(c))
  {
    WithoutMembers(s.connections, Conn(c));
    var rs := Without(s.connections, Conn(c));
    assert forall i :: 0 <= i < |rs| ==> rs[i] in s.connections;
  }

  lemma SendToClientWorld(s: State, c: nat, p: Packet, d: nat)
    requires ConnectionsInv(s) && c in s.ids && d in s.ids && WorldInvExcept(s, d)
    ensures WorldInvExcept(SendToClient(s, c, p), d)
    ensures c == d && (d !in s.open || Listed(s, d)) ==> WorldInv(SendToClient(s, c, p))
  {
    SendToClientInv(s, c, p);
  }

  lemma {:induction false} NotifyInv(s: State, cs: seq<nat>, p: Packet, d: nat)
    requires ConnectionsInv(s) && Known(s, cs) && d in s.ids && WorldInvExcept(s, d)
    ensures ConnectionsInv(Notify(s, cs, p)) && WorldInvExcept(Notify(s, cs, p), d)
    ensures forall x :: x in Notify(s, cs, p).connections ==> x in s.connections
  {
    if cs != [] {
      NotifyInv(s, cs[..|cs| - 1], p, d);
      var t := Notify(s, cs[..|cs| - 1], p);
      SendToClientInv(t, cs[|cs| - 1], p);
      SendToClientWorld(t, cs[|cs| - 1], p, d);
    }
  }
}
