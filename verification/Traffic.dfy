/** What the server's handlers send, to whom, and how it reads back. */
module Traffic {
  import opened Bytes
  import opened NetPacket
  import opened World
  import opened Roster

  // ---------- how many copies ----------

  /** How often a packet list grew by exactly `added`. */
  predicate Got(before: State, after: State, c: nat, added: seq<Packet>) {
    c in before.posted && c in after.posted && after.posted[c] == before.posted[c] + added
  }

  /** `SendToAll` reaches each open connection except the ignored one exactly once and nobody else;
      the list keeps its old order and loses exactly the dead connections. */
  lemma SendToAllDelivers(s: State, p: Packet, ignore: ConnRef, c: nat)
    requires ConnectionsInv(s) && c in s.ids
    ensures var t := SendToAll(s, p, ignore);
            && Got(s, t, c, if c in s.open && Conn(c) != ignore then [p] else [])
            && (Listed(t, c) <==> c in s.open)
            && Subsequence(t.connections, s.connections)
  {
    LiveOnlyMembers(s.connections, s.open);
    LiveOnlySubsequence(s.connections, s.open);
    assert s.posted[c] + [] == s.posted[c];
  }

  /** `a` is `b` with some elements left out. */
  predicate Subsequence<T(==)>(a: seq<T>, b: seq<T>)
    decreases |b|
  {
    if b == [] then a == []
    else Subsequence(a, b[..|b| - 1])
         || (a != [] && a[|a| - 1] == b[|b| - 1] && Subsequence(a[..|a| - 1], b[..|b| - 1]))
  }

  lemma {:induction false} LiveOnlySubsequence(rs: seq<ConnRef>, open: set<nat>)
    ensures Subsequence(LiveOnly(rs, open), rs)
  {
    if rs != [] {
      var init := rs[..|rs| - 1];
      LiveOnlySubsequence(init, open);
      var live := LiveOnly(rs, open);
      if live != LiveOnly(init, open) {
        assert live[..|live| - 1] == LiveOnly(init, open);
      }
    }
  }

  /** Notifying a list of distinct connections sends one copy to each open one. */
  lemma {:induction false} NotifyDelivers(s: State, cs: seq<nat>, p: Packet, c: nat)
    requires Known(s, cs) && NoDuplicates(cs) && c in s.posted
    ensures Got(s, Notify(s, cs, p), c, if c in cs && c in s.open then [p] else [])
  {
    if cs == [] {
      assert s.posted[c] + [] == s.posted[c];
    } else {
      var init, last := cs[..|cs| - 1], cs[|cs| - 1];
      NotifyDelivers(s, init, p, c);
      assert cs == init + [last];
      assert last !in init;
      assert s.posted[c] + [] == s.posted[c];
    }
  }

  /** Whether `c` is the connection of a character in the world. */
  predicate InWorld(s: State, c: nat) {
    c in s.ids && s.ids[c] in s.chaMap && s.chaMap[s.ids[c]].conn == c
  }

  lemma NotifyListMembers(s: State, d: nat, order: seq<u32>)
    requires ConnectionsInv(s) && d in s.ids && WorldInvExcept(s, d) && IsOrder(order, s.chaMap.Keys)
    ensures var cs := NotifyList(s.chaMap, order);
            NoDuplicates(cs) && forall c :: c in cs <==> InWorld(s, c)
  {
    var cs := NotifyList(s.chaMap, order);
    forall i | 0 <= i < |cs| ensures cs[i] in s.ids && s.ids[cs[i]] == order[i] {
      assert EntryOk(s, order[i]) || order[i] == s.ids[d];
    }
    forall c | InWorld(s, c) ensures c in cs {
      var i :| 0 <= i < |order| && order[i] == s.ids[c];
      assert cs[i] == c;
    }
  }

  lemma GotBoth(s: State, t: State, u: State, c: nat, a: seq<Packet>, b: seq<Packet>)
    requires Got(s, t, c, a) && Got(t, u, c, b)
    ensures Got(s, u, c, a + b)
  {
    assert s.posted[c] + a + b == s.posted[c] + (a + b);
  }

  lemma SendDelivers(s: State, c: nat, p: Packet, d: nat)
    requires c in s.ids && c in s.posted && d in s.posted
    ensures Got(s, SendToClient(s, c, p), d, if d == c && c in s.open then [p] else [])
  {
    assert s.posted[d] + [] == s.posted[d];
  }

  function NewsOf(s: State, c: nat): Packet
    requires c in s.ids
  {
    PushPlace(NewPacket(CMD_PLY_ENTER_WORLD), NewCharacter(s, c))
  }

  /** Entering the world: every open connection with a character, the newcomer's included, is told
      once; the newcomer then gets the reply, if it is still there. */
  lemma EnterWorldDelivers(s: State, c: nat, order: seq<u32>, d: nat)
    requires ConnectionsInv(s) && WorldInv(s) && CanEnter(s, c, order) && s.ids[c] < 0x1_0000 && d in s.ids
    ensures var t := AddCharacter(s, c);
            var told := if InWorld(t, d) && d in s.open then [NewsOf(s, c)] else [];
            var replied := if d == c && c in s.open then [EnterReply(t.chaMap, order, CharacterId(s, c))] else [];
            Got(s, EnterWorld(s, c, order), d, told + replied)
  {
    var t := AddCharacter(s, c);
    var cs := NotifyList(t.chaMap, order);
    var u := Notify(t, cs, NewsOf(s, c));
    AddCharacterInv(s, c);
    NotifyListMembers(t, c, order);
    NotifyDelivers(t, cs, NewsOf(s, c), d);
    SendDelivers(u, c, EnterReply(t.chaMap, order, CharacterId(s, c)), d);
    GotBoth(t, u, EnterWorld(s, c, order), d,
            if InWorld(t, d) && d in s.open then [NewsOf(s, c)] else [],
            if d == c && c in s.open then [EnterReply(t.chaMap, order, CharacterId(s, c))] else []);
  }

  lemma {:induction false} TellOthersDelivers(s: State, order: seq<u32>, mover: Character, p: Packet, c: nat)
    requires forall i :: 0 <= i < |order| ==> order[i] in s.chaMap && s.chaMap[order[i]].conn in s.posted
    requires NoDuplicates(order) && c in s.posted && c in s.ids
    requires forall i :: 0 <= i < |order| && s.chaMap[order[i]].conn == c ==> order[i] == s.ids[c]
    ensures Got(s, TellOthers(s, order, mover, p), c,
                if s.ids[c] in order && s.chaMap[s.ids[c]].conn == c && s.chaMap[s.ids[c]].id != mover.id then [p] else [])
  {
    if order == [] {
      assert s.posted[c] + [] == s.posted[c];
    } else {
      var init, last := order[..|order| - 1], order[|order| - 1];
      assert order == init + [last];
      assert last !in init;
      TellOthersDelivers(s, init, mover, p, c);
      assert s.posted[c] + [] == s.posted[c];
    }
  }

  /** Moving changes the mover's position and nothing else in the world, and sends exactly one
      packet to every other character's connection and none to the mover's. */
  lemma MovePlayerDelivers(s: State, c: nat, pkt: Packet, order: seq<u32>, d: nat)
    requires ConnectionsInv(s) && WorldInv(s) && CanMove(s, c, pkt, order) && d in s.ids
    requires s.ids[c] in s.chaMap
    ensures var t, me := MovePlayer(s, c, pkt, order), s.ids[c];
            && t.chaMap == s.chaMap[me := Moved(s.chaMap[me], pkt)]
            && t.connections == s.connections
            && Got(s, t, d, if InWorld(s, d) && d != s.chaMap[me].conn
                            then [PushPlace(NewPacket(CMD_MOVE_PLAYER), Moved(s.chaMap[me], pkt))] else [])
  {
    var me := s.ids[c];
    var cha := Moved(s.chaMap[me], pkt);
    var t := s.(chaMap := s.chaMap[me := cha]);
    forall i | 0 <= i < |order| ensures order[i] in t.chaMap && t.chaMap[order[i]].conn == s.chaMap[order[i]].conn && s.ids[s.chaMap[order[i]].conn] == order[i] == t.chaMap[order[i]].id {
      assert EntryOk(s, order[i]);
    }
    assert EntryOk(s, me);
    assert EntryOk(s, s.ids[d]);
    TellOthersDelivers(t, order, cha, PushPlace(NewPacket(CMD_MOVE_PLAYER), cha), d);
  }

  // ---------- how it reads back ----------

  /** The relayed move packet carries exactly the last 18 bytes that the client sent if and only if
      the ID among them is the server's ID for that client; the positions are relayed either way. */
  lemma RelayedBodyIff(cha: Character, pkt: Packet)
    requires |pkt.body| >= 18
    ensures var sent := pkt.body[|pkt.body| - 18..];
            var relayed := PushPlace(NewPacket(CMD_MOVE_PLAYER), Moved(cha, pkt)).body;
            && (relayed == sent <==> To16(sent[..2]) == cha.id)
            && relayed[2..] == sent[2..]
  {
    var sent := pkt.body[|pkt.body| - 18..];
    var x, y := sent[2..10], sent[10..];
    assert Top(pkt, 8) == y && Top(Pop(pkt, 8), 8) == x;
    RoundTrip16(cha.id, sent[..2]);
    RoundTrip64(0, x);
    RoundTrip64(0, y);
    var relayed := PushPlace(NewPacket(CMD_MOVE_PLAYER), Moved(cha, pkt)).body;
    assert relayed == Le16(cha.id) + x + y;
    assert sent == sent[..2] + x + y;
    assert relayed[..2] == Le16(cha.id);
  }

  /** A framed ping comes back exactly as it was sent. */
  lemma PingEchoes(s: State, c: nat, pkt: Packet)
    requires ConnectionsInv(s) && c in s.open && |pkt.body| >= 8 && Framed(pkt)
    ensures Got(s, Ping(s, c, pkt), c, [pkt])
  {
    RoundTrip64(0, Top(pkt, 8));
    PushPop(pkt, 8);
  }

  /** What a client reads of one character. */
  datatype Place = Place(id: u16, x: u64, y: u64)

  function PlaceOf(cha: Character): Place {
    Place(cha.id, cha.posX, cha.posY)
  }

  /** Pops `n` characters: y, x and ID of the last one pushed first. */
  function PopPlaces(p: Packet, n: nat): (r: (seq<Place>, Packet))
    requires |p.body| >= 18 * n
    decreases n
  {
    if n == 0 then ([], p) else
      var p1 := Pop(p, 8);
      var p2 := Pop(p1, 8);
      var (places, rest) := PopPlaces(Pop(p2, 2), n - 1);
      (places + [Place(To16(Top(p2, 2)), To64(Top(p1, 8)), To64(Top(p, 8)))], rest)
  }

  lemma PopPlaceUndoesPush(p: Packet, cha: Character)
    ensures var q := PushPlace(p, cha);
            && Pop(Pop(Pop(q, 8), 8), 2).body == p.body
            && Top(q, 8) == Le64(cha.posY) && Top(Pop(q, 8), 8) == Le64(cha.posX) && Top(Pop(Pop(q, 8), 8), 2) == Le16(cha.id)
  {
    var p1 := Push(p, Le16(cha.id));
    var p2 := Push(p1, Le64(cha.posX));
    PopPush(p, Le16(cha.id));
    PopPush(p1, Le64(cha.posX));
    PopPush(p2, Le64(cha.posY));
  }

  /** Popping looks at the body only. */
  lemma {:induction false} PopPlacesBody(p: Packet, q: Packet, n: nat)
    requires p.body == q.body && |p.body| >= 18 * n
    ensures PopPlaces(p, n).0 == PopPlaces(q, n).0 && PopPlaces(p, n).1.body == PopPlaces(q, n).1.body
    decreases n
  {
    if n > 0 { PopPlacesBody(Pop(Pop(Pop(p, 8), 8), 2), Pop(Pop(Pop(q, 8), 8), 2), n - 1); }
  }

  predicate InMap(chaMap: map<u32, Character>, order: seq<u32>) {
    forall i :: 0 <= i < |order| ==> order[i] in chaMap
  }

  function Places(chaMap: map<u32, Character>, order: seq<u32>): seq<Place>
    requires InMap(chaMap, order)
  {
    seq(|order|, i requires 0 <= i < |order| => PlaceOf(chaMap[order[i]]))
  }

  /** Popping one more character than `q` holds room for reads the one pushed on top of it. */
  lemma PlaceReadsBack(q: Packet, cha: Character, n: nat)
    requires |q.body| >= 18 * n
    ensures var p := PushPlace(q, cha);
            && |p.body| == |q.body| + 18
            && PopPlaces(p, n + 1).0 == PopPlaces(q, n).0 + [PlaceOf(cha)]
            && PopPlaces(p, n + 1).1.body == PopPlaces(q, n).1.body
  {
    var p := PushPlace(q, cha);
    PopPlaceUndoesPush(q, cha);
    RoundTrip16(cha.id, [0, 0]);
    RoundTrip64(cha.posX, Zeros(8));
    RoundTrip64(cha.posY, Zeros(8));
    PopPlacesBody(Pop(Pop(Pop(p, 8), 8), 2), q, n);
  }

  lemma PlacesLast(chaMap: map<u32, Character>, order: seq<u32>)
    requires InMap(chaMap, order) && order != []
    ensures Places(chaMap, order) == Places(chaMap, order[..|order| - 1]) + [PlaceOf(chaMap[order[|order| - 1]])]
  {
  }

  lemma {:induction false} PlacesReadBack(p: Packet, chaMap: map<u32, Character>, order: seq<u32>)
    requires InMap(chaMap, order)
    ensures var q := PlacesPacket(p, chaMap, order);
            && |q.body| == |p.body| + 18 * |order|
            && PopPlaces(q, |order|).0 == Places(chaMap, order)
            && PopPlaces(q, |order|).1.body == p.body
    decreases |order|
  {
    if order != [] {
      var init := order[..|order| - 1];
      PlacesReadBack(p, chaMap, init);
      PlacesLast(chaMap, order);
      PlaceReadsBack(PlacesPacket(p, chaMap, init), chaMap[order[|order| - 1]], |init|);
    }
  }

  /** How a client reads the reply: own ID, number of characters, and that many places. */
  datatype Reply = Malformed | Reply(own: u16, count: u32, places: seq<Place>, rest: seq<byte>)

  function ReadReply(p: Packet): Reply {
    if |p.body| < 6 then Malformed else
    var count := To32(Top(Pop(p, 2), 4));
    if |p.body| < 6 + 18 * count then Malformed else
    var (places, rest) := PopPlaces(Pop(Pop(p, 2), 4), count);
    Reply(To16(Top(p, 2)), count, places, rest.body)
  }

  lemma {:induction false} OrderHasSize(order: seq<u32>, keys: set<u32>)
    requires IsOrder(order, keys)
    ensures |order| == |keys|
    decreases |order|
  {
    if order == [] {
      assert keys == {};
    } else {
      var init, last := order[..|order| - 1], order[|order| - 1];
      assert order == init + [last];
      assert last !in init;
      forall k | k in keys - {last} ensures k in init { assert k in order; }
      forall i | 0 <= i < |init| ensures init[i] in keys - {last} { assert init[i] == order[i]; }
      OrderHasSize(init, keys - {last});
    }
  }

  lemma {:induction false} BoundedSetSize(keys: set<u32>, n: nat)
    requires forall k :: k in keys ==> k < n
    ensures |keys| <= n
    decreases n
  {
    if n == 0 {
      assert keys == {};
    } else {
      BoundedSetSize(keys - {n - 1}, n - 1);
      if n - 1 in keys { assert keys == (keys - {n - 1}) + {n - 1}; } else { assert keys == keys - {n - 1}; }
    }
  }

  /** Own ID and count come off the top of the reply and leave the places. */
  lemma ReplyHead(p0: Packet, count: u32, own: u16)
    ensures var p := Push(Push(p0, Le32(count)), Le16(own));
            && |p.body| == |p0.body| + 6
            && To16(Top(p, 2)) == own && To32(Top(Pop(p, 2), 4)) == count && Pop(Pop(p, 2), 4).body == p0.body
  {
    var p1 := Push(p0, Le32(count));
    PopPush(p0, Le32(count));
    PopPush(p1, Le16(own));
    RoundTrip16(own, [0, 0]);
    RoundTrip32(count, Zeros(4));
    var q := Pop(Push(p1, Le16(own)), 2);
    assert q.body == p1.body && Top(q, 4) == Top(p1, 4) && Pop(q, 4).body == Pop(p1, 4).body;
  }

  /** The packet decodes to `own` and the given characters, consuming all its 18 * count + 6 bytes. */
  predicate DecodesTo(p: Packet, own: u16, world: map<u32, Character>, order: seq<u32>) {
    && InMap(world, order) && |order| == |world| <= 0x1_0000
    && |p.body| == 18 * |world| + 6
    && ReadReply(p) == Reply(own, |world|, Places(world, order), [])
  }

  lemma ReplyReadsBack(world: map<u32, Character>, order: seq<u32>, own: u16)
    requires InMap(world, order) && |order| == |world| <= 0x1_0000
    ensures DecodesTo(EnterReply(world, order, own), own, world, order)
  {
    var p0 := PlacesPacket(NewPacket(CMD_SELF_ENTER_WORLD), world, order);
    var n: u32 := |world| % 0x1_0000_0000;
    assert n == |world|;
    var p := Push(Push(p0, Le32(n)), Le16(own));
    assert EnterReply(world, order, own) == p;
    PlacesReadBack(NewPacket(CMD_SELF_ENTER_WORLD), world, order);
    ReplyHead(p0, n, own);
    PopPlacesBody(Pop(Pop(p, 2), 4), p0, |order|);
  }

  /** The world is never larger than the 16-bit IDs allow, whatever the connections' IDs. */
  lemma WorldSize(s: State, c: nat, order: seq<u32>)
    requires Base(s) && CanEnter(s, c, order)
    ensures |order| == |AddCharacter(s, c).chaMap| <= 0x1_0000
  {
    var t := AddCharacter(s, c);
    AddCharacterBase(s, c);
    OrderHasSize(order, t.chaMap.Keys);
    BoundedSetSize(t.chaMap.Keys, 0x1_0000);
  }

  /** The reply to a client that enters decodes to the world as it then was: the client's own ID,
      the number of characters, and the ID and position of each; all 18 * count + 6 bytes of the
      body are consumed, however many characters there are. */
  lemma EnterReplyReadsBack(s: State, c: nat, order: seq<u32>)
    requires Base(s) && CanEnter(s, c, order)
    ensures var world := AddCharacter(s, c).chaMap;
            && IsOrder(order, world.Keys)
            && DecodesTo(EnterReply(world, order, CharacterId(s, c)), CharacterId(s, c), world, order)
  {
    WorldSize(s, c, order);
    ReplyReadsBack(AddCharacter(s, c).chaMap, order, CharacterId(s, c));
  }
}
