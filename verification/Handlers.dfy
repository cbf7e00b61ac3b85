/**
 What the dispatcher does with each command, said about the state before and after alone: who is in
 the world, who is listed, and what every client is sent. Commands are given by their numbers.
 */
module Handlers {
  import opened Bytes
  import opened NetPacket
  import opened World
  import opened Roster
  import opened Traffic

  // ---------- the world by keys ----------

  /** The key under which a client's character would stand: its ID cut to 16 bits. */
  function Key(s: State, c: nat): u16
    requires c in s.ids
  {
    s.ids[c] % 0x1_0000
  }

  /** Every character stands under its own ID, which is the cut-off ID of its connection. */
  ghost predicate Keyed(s: State) {
    forall k :: k in s.chaMap ==>
      s.chaMap[k].id == k && s.chaMap[k].conn in s.ids && Key(s, s.chaMap[k].conn) == k
  }

  /** The character of `c` is in the world `w`. */
  predicate HasCharacter(s: State, w: map<u32, Character>, c: nat) {
    c in s.ids && Key(s, c) in w && w[Key(s, c)].conn == c
  }

  /** The world with a character of `c` at position 0, 0 under `c`'s key, unless the key is taken. */
  function WithNewcomer(s: State, c: nat): map<u32, Character>
    requires c in s.ids
  {
    var k := Key(s, c);
    if k in s.chaMap then s.chaMap else s.chaMap[k := Character(k, c, 0, 0)]
  }

  /** The entries of open clients. */
  function OpenPart(w: map<u32, Character>, open: set<nat>): map<u32, Character> {
    map k | k in w && w[k].conn in open :: w[k]
  }

  function IdsOf(s: State, cs: set<nat>): set<u32>
    requires cs <= s.ids.Keys
  {
    set c | c in cs :: s.ids[c]
  }

  // ---------- the effect of each command ----------

  /** `gone` leave: the list keeps the others in order, the world `w` loses what stands under their
      32-bit IDs. */
  predicate Leave(s: State, t: State, w: map<u32, Character>, gone: set<nat>)
    requires gone <= s.ids.Keys
  {
    t.connections == LiveOnly(s.connections, s.ids.Keys - gone) && t.chaMap == w - IdsOf(s, gone)
  }

  /** Closed connections that are written to when `c` enters. */
  function GoneAtEnter(s: State, c: nat): set<nat>
    requires c in s.ids
  {
    set d | d in s.ids && d !in s.open && (d == c || HasCharacter(s, WithNewcomer(s, c), d))
  }

  function News(k: u16): Packet {
    Packet(Header(3, 0, 18), Le16(k) + Le64(0) + Le64(0))
  }

  /** What `d` is told of `c`'s entering: one packet if it is open and has a character itself. */
  function Told(s: State, c: nat, d: nat): seq<Packet>
    requires c in s.ids
  {
    if d in s.open && HasCharacter(s, WithNewcomer(s, c), d) then [News(Key(s, c))] else []
  }

  /** ID, x and y of every character, in the given order. */
  function Roll(w: map<u32, Character>, order: seq<u32>): seq<byte>
    requires InMap(w, order)
  {
    if order == [] then [] else
    var cha := w[order[|order| - 1]];
    Roll(w, order[..|order| - 1]) + (Le16(cha.id) + Le64(cha.posX) + Le64(cha.posY))
  }

  /** The packets after those of `s` in the list of `c` are `told` and one reply: it lists the world
      `w` in the given order, then their number and the ID of `c`, and reads back as that. */
  predicate Replied(s: State, t: State, c: nat, told: seq<Packet>, w: map<u32, Character>, order: seq<u32>)
    requires c in s.ids
  {
    && c in s.posted && c in t.posted && t.posted[c] != []
    && var reply := t.posted[c][|t.posted[c]| - 1];
    && Got(s, t, c, told + [reply])
    && reply.header.cmdID == 2 && reply.header.padding == 0 && Framed(reply)
    && InMap(w, order) && reply.body == Roll(w, order) + Le32(|w| % 0x1_0000_0000) + Le16(Key(s, c))
    && DecodesTo(reply, Key(s, c), w, order)
  }

  ghost predicate Entered(s: State, t: State, c: nat, order: seq<u32>)
    requires c in s.ids
  {
    && SameSockets(s, t) && t.posted.Keys == s.posted.Keys
    && Leave(s, t, WithNewcomer(s, c), GoneAtEnter(s, c))
    && (forall d :: d in s.ids && (d != c || c !in s.open) ==> Got(s, t, d, Told(s, c, d)))
    && (c in s.open ==> Replied(s, t, c, Told(s, c, c), WithNewcomer(s, c), order))
  }

  /** The mover's new position is the last sixteen bytes of the packet: x, then y. */
  function At(me: u16, conn: nat, body: seq<byte>): Character
    requires |body| >= 18
  {
    Character(me, conn, To64(body[|body| - 16..|body| - 8]), To64(body[|body| - 8..]))
  }

  /** The same sixteen bytes go to the others, behind the mover's ID. */
  function Relayed(me: u16, body: seq<byte>): Packet
    requires |body| >= 18
  {
    Packet(Header(5, 0, 18), Le16(me) + body[|body| - 16..])
  }

  /** Only the mover's place changes, and the clients of all other characters are told once. */
  ghost predicate MovedTo(s: State, t: State, me: u16, body: seq<byte>)
    requires me in s.chaMap && |body| >= 18
  {
    && t == s.(posted := t.posted, chaMap := s.chaMap[me := At(me, s.chaMap[me].conn, body)])
    && t.posted.Keys == s.posted.Keys
    && forall d :: d in s.ids ==>
         Got(s, t, d, if HasCharacter(s, s.chaMap, d) && Key(s, d) != me then [Relayed(me, body)] else [])
  }

  /** The packet comes back with its size field set right; a closed sender is dropped instead. */
  ghost predicate Echoed(s: State, t: State, c: nat, pkt: Packet)
    requires c in s.ids && c in s.posted
  {
    if c in s.open
    then t == s.(posted := s.posted[c := s.posted[c] + [pkt.(header := pkt.header.(size := PacketLen(pkt.body)))]])
    else t.posted == s.posted && SameSockets(s, t) && Leave(s, t, s.chaMap, {c})
  }

  function ListedAndClosed(s: State): set<nat> {
    set d | d in s.ids && d !in s.open && Listed(s, d)
  }

  /** Everybody else who is open hears the sender's ID once. */
  ghost predicate Broadcast(s: State, t: State, c: nat)
    requires c in s.ids
  {
    && SameSockets(s, t) && t.posted.Keys == s.posted.Keys
    && Leave(s, t, s.chaMap, ListedAndClosed(s))
    && forall d :: d in s.ids ==>
         Got(s, t, d, if d in s.open && d != c then [Packet(Header(4, 0, 4), Le32(s.ids[c]))] else [])
  }

  /** The packet has the bytes its handler takes, and `order` lists the keys of the world. */
  predicate Handleable(s: State, c: nat, pkt: Packet, order: seq<u32>) {
    && c in s.ids
    && (pkt.header.cmdID == 6 ==> |pkt.body| >= 8)
    && (pkt.header.cmdID == 5 && s.ids[c] in s.chaMap ==> |pkt.body| >= 18 && IsOrder(order, s.chaMap.Keys))
    && (pkt.header.cmdID == 2 ==> IsOrder(order, s.chaMap.Keys + {Key(s, c)}))
  }

  /** What becomes of the state when `c`'s packet is handled, for every command. */
  ghost predicate Handled(s: State, t: State, c: nat, pkt: Packet, order: seq<u32>)
    requires ConnectionsInv(s) && WorldKnown(s) && Handleable(s, c, pkt, order)
  {
    match pkt.header.cmdID
    case 2 => Entered(s, t, c, order)
    case 5 => if s.ids[c] in s.chaMap then MovedTo(s, t, s.ids[c], pkt.body) else t == s
    case 6 => Echoed(s, t, c, pkt)
    case 7 => Broadcast(s, t, c)
    case _ => t == s
  }

  // ---------- lists ----------

  lemma {:induction false} KeepAll(rs: seq<ConnRef>, keep: set<nat>)
    requires forall i :: 0 <= i < |rs| ==> rs[i].Conn? && rs[i].ptr in keep
    ensures LiveOnly(rs, keep) == rs
  {
    if rs != [] {
      KeepAll(rs[..|rs| - 1], keep);
      assert rs == rs[..|rs| - 1] + [rs[|rs| - 1]];
    }
  }

  lemma WithoutOfAppend(rs: seq<ConnRef>, x: ConnRef, r: ConnRef)
    ensures Without(rs + [x], r) == Without(rs, r) + if x == r then [] else [x]
  {
    assert (rs + [x])[..|rs|] == rs;
  }

  lemma {:induction false} WithoutOfKept(rs: seq<ConnRef>, keep: set<nat>, c: nat)
    ensures Without(LiveOnly(rs, keep), Conn(c)) == LiveOnly(rs, keep - {c})
  {
    if rs != [] {
      var init, last := rs[..|rs| - 1], rs[|rs| - 1];
      WithoutOfKept(init, keep, c);
      if last.Conn? && last.ptr in keep {
        WithoutOfAppend(LiveOnly(init, keep), last, Conn(c));
      } else {
        assert LiveOnly(rs, keep) == LiveOnly(init, keep);
      }
    }
  }

  lemma {:induction false} SameKept(rs: seq<ConnRef>, a: set<nat>, b: set<nat>)
    requires forall i :: 0 <= i < |rs| && rs[i].Conn? ==> (rs[i].ptr in a <==> rs[i].ptr in b)
    ensures LiveOnly(rs, a) == LiveOnly(rs, b)
  {
    if rs != [] {
      SameKept(rs[..|rs| - 1], a, b);
    }
  }

  // ---------- sending to one client, and to a list ----------

  /** One more closed connection is written to after `gone` have left. */
  lemma SendLeaves(s: State, t: State, w: map<u32, Character>, gone: set<nat>, c: nat, p: Packet)
    requires c in s.ids && c in t.posted && gone <= s.ids.Keys && t.ids == s.ids && t.open == s.open
    requires Leave(s, t, w, gone)
    ensures Leave(s, SendToClient(t, c, p), w, if c in s.open then gone else gone + {c})
  {
    if c !in s.open {
      WithoutOfKept(s.connections, s.ids.Keys - gone, c);
      assert s.ids.Keys - gone - {c} == s.ids.Keys - (gone + {c});
      assert IdsOf(s, gone + {c}) == IdsOf(s, gone) + {s.ids[c]};
      assert w - IdsOf(s, gone) - {s.ids[c]} == w - (IdsOf(s, gone) + {s.ids[c]});
    }
  }

  function ClosedIn(s: State, cs: seq<nat>): set<nat> {
    set d | d in cs && d !in s.open
  }

  lemma NobodyLeaves(s: State)
    requires ConnectionsInv(s)
    ensures Leave(s, s, s.chaMap, {})
  {
    KeepAll(s.connections, s.ids.Keys);
    assert s.ids.Keys - {} == s.ids.Keys;
    assert IdsOf(s, {}) == {};
    assert s.chaMap - {} == s.chaMap;
  }

  lemma KnownAreIds(s: State, cs: seq<nat>)
    requires Known(s, cs)
    ensures ClosedIn(s, cs) <= s.ids.Keys
  {
  }

  lemma ClosedInAppend(s: State, cs: seq<nat>, c: nat)
    ensures ClosedIn(s, cs + [c]) == if c in s.open then ClosedIn(s, cs) else ClosedIn(s, cs) + {c}
  {
  }

  lemma NotifyLeavesStep(s: State, cs: seq<nat>, c: nat, p: Packet, t: State)
    requires ConnectionsInv(s) && c in s.ids && c in t.posted && t.ids == s.ids && t.open == s.open
    requires ClosedIn(s, cs) <= s.ids.Keys && Leave(s, t, s.chaMap, ClosedIn(s, cs))
    ensures ClosedIn(s, cs + [c]) <= s.ids.Keys && Leave(s, SendToClient(t, c, p), s.chaMap, ClosedIn(s, cs + [c]))
  {
    SendLeaves(s, t, s.chaMap, ClosedIn(s, cs), c, p);
    ClosedInAppend(s, cs, c);
  }

  lemma {:induction false} NotifyLeaves(s: State, cs: seq<nat>, p: Packet)
    requires ConnectionsInv(s) && Known(s, cs)
    ensures ClosedIn(s, cs) <= s.ids.Keys && Leave(s, Notify(s, cs, p), s.chaMap, ClosedIn(s, cs))
  {
    KnownAreIds(s, cs);
    if cs == [] {
      NobodyLeaves(s);
      assert ClosedIn(s, cs) == {};
    } else {
      var init, last := cs[..|cs| - 1], cs[|cs| - 1];
      NotifyLeaves(s, init, p);
      NotifyLeavesStep(s, init, last, p, Notify(s, init, p));
      assert cs == init + [last];
    }
  }

  // ---------- entering ----------

  lemma NewcomerAdded(s: State, c: nat)
    requires c in s.ids
    ensures AddCharacter(s, c) == s.(chaMap := WithNewcomer(s, c))
  {
  }

  lemma NewcomerKeys(s: State, c: nat)
    requires c in s.ids
    ensures WithNewcomer(s, c).Keys == s.chaMap.Keys + {Key(s, c)}
  {
  }

  lemma NewcomerKeyed(s: State, c: nat)
    requires Base(s) && Keyed(s) && c in s.ids
    ensures Base(s.(chaMap := WithNewcomer(s, c))) && Keyed(s.(chaMap := WithNewcomer(s, c)))
  {
  }

  /** The clients notified are the characters' own, each once. */
  lemma NotifiedOnce(s: State, order: seq<u32>)
    requires Keyed(s) && IsOrder(order, s.chaMap.Keys)
    ensures NoDuplicates(NotifyList(s.chaMap, order))
    ensures forall d :: d in NotifyList(s.chaMap, order) <==> HasCharacter(s, s.chaMap, d)
  {
    var cs := NotifyList(s.chaMap, order);
    forall i | 0 <= i < |cs| ensures cs[i] in s.ids && Key(s, cs[i]) == order[i] && HasCharacter(s, s.chaMap, cs[i]) {
      assert order[i] in s.chaMap;
    }
    forall d | HasCharacter(s, s.chaMap, d) ensures d in cs {
      var i :| 0 <= i < |order| && order[i] == Key(s, d);
      assert cs[i] == d;
    }
  }

  lemma CanEnterNow(s: State, c: nat, order: seq<u32>)
    requires Base(s) && c in s.ids && IsOrder(order, s.chaMap.Keys + {Key(s, c)})
    ensures CanEnter(s, c, order) && IsOrder(order, WithNewcomer(s, c).Keys)
  {
    NewcomerAdded(s, c);
    NewcomerKeys(s, c);
    AddCharacterBase(s, c);
    forall i | 0 <= i < |order| ensures order[i] in AddCharacter(s, c).chaMap {}
  }

  lemma NewsIs(s: State, c: nat)
    requires c in s.ids
    ensures PushPlace(NewPacket(CMD_PLY_ENTER_WORLD), NewCharacter(s, c)) == News(Key(s, c))
  {
  }

  lemma {:induction false} PlacesHeader(p: Packet, w: map<u32, Character>, order: seq<u32>)
    requires InMap(w, order)
    ensures |PlacesPacket(p, w, order).body| == |p.body| + 18 * |order|
    ensures PlacesPacket(p, w, order).header.cmdID == p.header.cmdID
    ensures PlacesPacket(p, w, order).header.padding == p.header.padding
    decreases |order|
  {
    if order != [] {
      PlacesHeader(p, w, order[..|order| - 1]);
    }
  }

  lemma PlaceBody(p: Packet, cha: Character)
    ensures PushPlace(p, cha).body == p.body + (Le16(cha.id) + Le64(cha.posX) + Le64(cha.posY))
  {
  }

  lemma {:induction false} PlacesBody(p: Packet, w: map<u32, Character>, order: seq<u32>)
    requires InMap(w, order)
    ensures PlacesPacket(p, w, order).body == p.body + Roll(w, order)
    decreases |order|
  {
    if order == [] {
      assert p.body + [] == p.body;
    } else {
      var init, cha := order[..|order| - 1], w[order[|order| - 1]];
      PlacesBody(p, w, init);
      PlaceBody(PlacesPacket(p, w, init), cha);
      Associative(p.body, Roll(w, init), Le16(cha.id) + Le64(cha.posX) + Le64(cha.posY));
    }
  }

  lemma ReplyBody(w: map<u32, Character>, order: seq<u32>, own: u16)
    requires InMap(w, order)
    ensures EnterReply(w, order, own).body == Roll(w, order) + Le32(|w| % 0x1_0000_0000) + Le16(own)
  {
    PlacesBody(NewPacket(CMD_SELF_ENTER_WORLD), w, order);
  }

  lemma PushedTwice(p: Packet, a: seq<byte>, b: seq<byte>)
    ensures var q := Push(Push(p, a), b);
            && q.header == p.header.(size := PacketLen(q.body)) && |q.body| == |p.body| + |a| + |b|
  {
  }

  lemma ReplyHeader(w: map<u32, Character>, order: seq<u32>, own: u16)
    requires InMap(w, order) && |order| == |w| <= 0x1_0000
    ensures var reply := EnterReply(w, order, own);
            reply.header.cmdID == 2 && reply.header.padding == 0 && Framed(reply)
  {
    var p := NewPacket(CMD_SELF_ENTER_WORLD);
    PlacesHeader(p, w, order);
    PushedTwice(PlacesPacket(p, w, order), Le32(|w| % 0x1_0000_0000), Le16(own));
  }

  lemma GoneIs(s: State, c: nat, order: seq<u32>)
    requires Base(s) && Keyed(s) && c in s.ids && IsOrder(order, WithNewcomer(s, c).Keys)
    ensures var cs := NotifyList(WithNewcomer(s, c), order);
            GoneAtEnter(s, c) == ClosedIn(s, cs) + if c in s.open then {} else {c}
  {
    NewcomerKeyed(s, c);
    NotifiedOnce(s.(chaMap := WithNewcomer(s, c)), order);
  }

  /** A list of clients is told, then one is answered. */
  function Answer(t: State, cs: seq<nat>, news: Packet, c: nat, reply: Packet): State
    requires Known(t, cs) && c in t.ids && c in t.posted
  {
    SendToClient(Notify(t, cs, news), c, reply)
  }

  lemma AnswerLeaves(t: State, cs: seq<nat>, news: Packet, c: nat, reply: Packet)
    requires ConnectionsInv(t) && Known(t, cs) && c in t.ids
    ensures ClosedIn(t, cs) <= t.ids.Keys
    ensures Leave(t, Answer(t, cs, news, c, reply), t.chaMap, ClosedIn(t, cs) + if c in t.open then {} else {c})
  {
    NotifyLeaves(t, cs, news);
    SendLeaves(t, Notify(t, cs, news), t.chaMap, ClosedIn(t, cs), c, reply);
    assert ClosedIn(t, cs) + {} == ClosedIn(t, cs);
  }

  lemma AnswerSends(t: State, cs: seq<nat>, news: Packet, c: nat, reply: Packet, d: nat, told: seq<Packet>)
    requires Known(t, cs) && NoDuplicates(cs) && c in t.ids && c in t.posted && d in t.posted
    requires told == if d in cs && d in t.open then [news] else []
    ensures Got(t, Answer(t, cs, news, c, reply), d, told + if d == c && c in t.open then [reply] else [])
  {
    var u := Notify(t, cs, news);
    NotifyDelivers(t, cs, news, d);
    SendDelivers(u, c, reply, d);
    GotBoth(t, u, Answer(t, cs, news, c, reply), d, told, if d == c && c in t.open then [reply] else []);
  }

  lemma EnterAnswers(s: State, c: nat, order: seq<u32>)
    requires CanEnter(s, c, order)
    ensures var t := s.(chaMap := WithNewcomer(s, c));
            && InMap(t.chaMap, order) && Known(t, NotifyList(t.chaMap, order))
            && EnterWorld(s, c, order)
               == Answer(t, NotifyList(t.chaMap, order), News(Key(s, c)), c, EnterReply(t.chaMap, order, Key(s, c)))
  {
    NewcomerAdded(s, c);
    NewsIs(s, c);
  }

  lemma EnterLeaves(s: State, c: nat, order: seq<u32>)
    requires Base(s) && Keyed(s) && CanEnter(s, c, order) && IsOrder(order, WithNewcomer(s, c).Keys)
    ensures Leave(s, EnterWorld(s, c, order), WithNewcomer(s, c), GoneAtEnter(s, c))
  {
    var t := s.(chaMap := WithNewcomer(s, c));
    EnterAnswers(s, c, order);
    NewcomerKeyed(s, c);
    GoneIs(s, c, order);
    AnswerLeaves(t, NotifyList(t.chaMap, order), News(Key(s, c)), c, EnterReply(t.chaMap, order, Key(s, c)));
  }

  lemma ToldIs(s: State, c: nat, order: seq<u32>, d: nat)
    requires Base(s) && Keyed(s) && c in s.ids && IsOrder(order, WithNewcomer(s, c).Keys)
    ensures var cs := NotifyList(WithNewcomer(s, c), order);
            && NoDuplicates(cs)
            && Told(s, c, d) == if d in cs && d in s.open then [News(Key(s, c))] else []
  {
    NewcomerKeyed(s, c);
    NotifiedOnce(s.(chaMap := WithNewcomer(s, c)), order);
  }

  /** What the newcomer and everybody else is sent. */
  lemma EnterSends(s: State, c: nat, order: seq<u32>, d: nat)
    requires Base(s) && Keyed(s) && CanEnter(s, c, order) && IsOrder(order, WithNewcomer(s, c).Keys) && d in s.ids
    ensures InMap(WithNewcomer(s, c), order)
    ensures Got(s, EnterWorld(s, c, order), d,
                Told(s, c, d) + if d == c && c in s.open then [EnterReply(WithNewcomer(s, c), order, Key(s, c))] else [])
  {
    var t := s.(chaMap := WithNewcomer(s, c));
    EnterAnswers(s, c, order);
    ToldIs(s, c, order, d);
    AnswerSends(t, NotifyList(t.chaMap, order), News(Key(s, c)), c, EnterReply(t.chaMap, order, Key(s, c)), d, Told(s, c, d));
  }

  lemma NewcomerReply(s: State, c: nat, order: seq<u32>)
    requires Base(s) && CanEnter(s, c, order)
    ensures InMap(WithNewcomer(s, c), order)
    ensures var reply := EnterReply(WithNewcomer(s, c), order, Key(s, c));
            && reply.header.cmdID == 2 && reply.header.padding == 0 && Framed(reply)
            && reply.body == Roll(WithNewcomer(s, c), order) + Le32(|WithNewcomer(s, c)| % 0x1_0000_0000) + Le16(Key(s, c))
            && DecodesTo(reply, Key(s, c), WithNewcomer(s, c), order)
  {
    WorldSize(s, c, order);
    NewcomerAdded(s, c);
    ReplyHeader(WithNewcomer(s, c), order, Key(s, c));
    ReplyBody(WithNewcomer(s, c), order, Key(s, c));
    ReplyReadsBack(WithNewcomer(s, c), order, Key(s, c));
  }

  lemma EnterReplies(s: State, c: nat, order: seq<u32>)
    requires Base(s) && Keyed(s) && CanEnter(s, c, order) && IsOrder(order, WithNewcomer(s, c).Keys) && c in s.open
    ensures Replied(s, EnterWorld(s, c, order), c, Told(s, c, c), WithNewcomer(s, c), order)
  {
    EnterSends(s, c, order, c);
    NewcomerReply(s, c, order);
  }

  lemma EnterTells(s: State, c: nat, order: seq<u32>, d: nat)
    requires Base(s) && Keyed(s) && CanEnter(s, c, order) && IsOrder(order, WithNewcomer(s, c).Keys) && d in s.ids
    requires d != c || c !in s.open
    ensures Got(s, EnterWorld(s, c, order), d, Told(s, c, d))
  {
    EnterSends(s, c, order, d);
    assert Told(s, c, d) + [] == Told(s, c, d);
  }

  lemma EnterFrame(s: State, c: nat, order: seq<u32>)
    requires CanEnter(s, c, order)
    ensures SameSockets(s, EnterWorld(s, c, order)) && EnterWorld(s, c, order).posted.Keys == s.posted.Keys
  {
    EnterAnswers(s, c, order);
  }

  lemma EnterTellsAll(s: State, c: nat, order: seq<u32>)
    requires Base(s) && Keyed(s) && CanEnter(s, c, order) && IsOrder(order, WithNewcomer(s, c).Keys)
    ensures forall d :: d in s.ids && (d != c || c !in s.open) ==> Got(s, EnterWorld(s, c, order), d, Told(s, c, d))
  {
    forall d | d in s.ids && (d != c || c !in s.open) ensures Got(s, EnterWorld(s, c, order), d, Told(s, c, d)) {
      EnterTells(s, c, order, d);
    }
  }

  lemma EnterHandled(s: State, c: nat, order: seq<u32>)
    requires Base(s) && Keyed(s) && c in s.ids && IsOrder(order, s.chaMap.Keys + {Key(s, c)})
    ensures CanEnter(s, c, order) && Entered(s, EnterWorld(s, c, order), c, order)
  {
    CanEnterNow(s, c, order);
    EnterFrame(s, c, order);
    EnterLeaves(s, c, order);
    EnterTellsAll(s, c, order);
    if c in s.open { EnterReplies(s, c, order); }
  }

  // ---------- moving ----------

  /** Both coordinates are relayed byte by byte. */
  lemma RelayIs(me: u16, conn: nat, body: seq<byte>)
    requires |body| >= 18
    ensures PushPlace(NewPacket(CMD_MOVE_PLAYER), At(me, conn, body)) == Relayed(me, body)
  {
    var x, y := body[|body| - 16..|body| - 8], body[|body| - 8..];
    RoundTrip64(0, x);
    RoundTrip64(0, y);
    assert Le16(me) + x + y == Le16(me) + body[|body| - 16..];
  }

  lemma MovedIs(cha: Character, pkt: Packet)
    requires |pkt.body| >= 18 && cha.id < 0x1_0000
    ensures Moved(cha, pkt) == At(cha.id, cha.conn, pkt.body)
  {
    var n := |pkt.body|;
    assert Top(Pop(pkt, 8), 8) == pkt.body[n - 16..n - 8];
  }

  /** The world after a move. */
  function Relocated(s: State, me: u16, cha: Character): State {
    s.(chaMap := s.chaMap[me := cha])
  }

  lemma RelocatedKeyed(s: State, me: u16, cha: Character)
    requires Keyed(s) && me in s.chaMap && cha.id == me && cha.conn == s.chaMap[me].conn
    ensures Keyed(Relocated(s, me, cha)) && Relocated(s, me, cha).chaMap.Keys == s.chaMap.Keys
    ensures forall d :: HasCharacter(s, Relocated(s, me, cha).chaMap, d) <==> HasCharacter(s, s.chaMap, d)
  {
  }

  lemma MoveIs(s: State, c: nat, pkt: Packet, order: seq<u32>, me: u16)
    requires CanMove(s, c, pkt, order) && s.ids[c] == me && me in s.chaMap && s.chaMap[me].id == me
    ensures var cha := At(me, s.chaMap[me].conn, pkt.body);
            MovePlayer(s, c, pkt, order) == TellOthers(Relocated(s, me, cha), order, cha, Relayed(me, pkt.body))
  {
    MovedIs(s.chaMap[me], pkt);
    RelayIs(me, s.chaMap[me].conn, pkt.body);
  }

  lemma MoveTells(s: State, me: u16, cha: Character, order: seq<u32>, p: Packet, d: nat)
    requires Base(s) && Keyed(s) && me in s.chaMap && cha.id == me && cha.conn == s.chaMap[me].conn
    requires IsOrder(order, s.chaMap.Keys) && d in s.ids
    ensures var t := Relocated(s, me, cha);
            && (forall i :: 0 <= i < |order| ==> order[i] in t.chaMap && t.chaMap[order[i]].conn in t.posted)
            && Got(s, TellOthers(t, order, cha, p), d, if HasCharacter(s, s.chaMap, d) && Key(s, d) != me then [p] else [])
  {
    RelocatedKeyed(s, me, cha);
    TellsOthers(Relocated(s, me, cha), order, cha, p, d);
  }

  lemma CanMoveNow(s: State, c: nat, pkt: Packet, order: seq<u32>)
    requires Base(s) && Keyed(s) && Handleable(s, c, pkt, order) && pkt.header.cmdID == 5
    ensures CanMove(s, c, pkt, order)
    ensures s.ids[c] in s.chaMap ==> s.ids[c] < 0x1_0000 && s.chaMap[s.ids[c]].id == s.ids[c]
  {
  }

  lemma MoveHandled(s: State, c: nat, pkt: Packet, order: seq<u32>, me: u16)
    requires Base(s) && Keyed(s) && CanMove(s, c, pkt, order) && s.ids[c] == me && me in s.chaMap && s.chaMap[me].id == me
    ensures MovedTo(s, MovePlayer(s, c, pkt, order), me, pkt.body)
  {
    var cha := At(me, s.chaMap[me].conn, pkt.body);
    MoveIs(s, c, pkt, order, me);
    forall d | d in s.ids
      ensures Got(s, MovePlayer(s, c, pkt, order), d,
                  if HasCharacter(s, s.chaMap, d) && Key(s, d) != me then [Relayed(me, pkt.body)] else []) {
      MoveTells(s, me, cha, order, Relayed(me, pkt.body), d);
    }
  }

  lemma {:induction false} TellsOthers(s: State, order: seq<u32>, mover: Character, p: Packet, c: nat)
    requires Keyed(s) && s.posted.Keys == s.ids.Keys && NoDuplicates(order) && c in s.ids
    requires forall i :: 0 <= i < |order| ==> order[i] in s.chaMap
    ensures Got(s, TellOthers(s, order, mover, p), c,
                if HasCharacter(s, s.chaMap, c) && Key(s, c) in order && Key(s, c) != mover.id then [p] else [])
  {
    if order == [] {
      assert s.posted[c] + [] == s.posted[c];
    } else {
      var init, last := order[..|order| - 1], order[|order| - 1];
      assert order == init + [last];
      assert last !in init;
      assert last in s.chaMap;
      TellsOthers(s, init, mover, p, c);
      assert s.posted[c] + [] == s.posted[c];
    }
  }

  // ---------- pings and messages ----------

  lemma PingIs(pkt: Packet)
    requires |pkt.body| >= 8
    ensures Push(Pop(pkt, 8), Le64(To64(Top(pkt, 8)))) == pkt.(header := pkt.header.(size := PacketLen(pkt.body)))
  {
    RoundTrip64(0, Top(pkt, 8));
    assert Pop(pkt, 8).body + Top(pkt, 8) == pkt.body;
  }

  lemma PingHandled(s: State, c: nat, pkt: Packet)
    requires Base(s) && c in s.ids && |pkt.body| >= 8
    ensures Echoed(s, Ping(s, c, pkt), c, pkt)
  {
    PingIs(pkt);
    NobodyLeaves(s);
    SendLeaves(s, s, s.chaMap, {}, c, Push(Pop(pkt, 8), Le64(To64(Top(pkt, 8)))));
    assert {} + {c} == {c};
  }

  lemma MessageLeaves(s: State, p: Packet, ignore: ConnRef)
    requires ConnectionsInv(s)
    ensures Leave(s, SendToAll(s, p, ignore), s.chaMap, ListedAndClosed(s))
  {
    SameKept(s.connections, s.open, s.ids.Keys - ListedAndClosed(s));
    assert IdsOf(s, ListedAndClosed(s)) == DeadIds(s);
  }

  lemma MessageHandled(s: State, c: nat)
    requires Base(s) && c in s.ids
    ensures Broadcast(s, MessageAll(s, c), c)
  {
    var p := Push(NewPacket(CMD_SERVER_MESSAGE), Le32(s.ids[c]));
    assert p == Packet(Header(4, 0, 4), Le32(s.ids[c]));
    MessageLeaves(s, p, Conn(c));
    forall d | d in s.ids
      ensures Got(s, MessageAll(s, c), d, if d in s.open && d != c then [p] else []) {
      SendToAllDelivers(s, p, Conn(c), d);
    }
  }

  // ---------- the dispatcher ----------

  lemma CanHandleIff(s: State, c: nat, pkt: Packet, order: seq<u32>)
    requires Base(s) && Keyed(s)
    ensures CanHandle(s, c, pkt, order) <==> Handleable(s, c, pkt, order)
  {
    if Handleable(s, c, pkt, order) {
      if pkt.header.cmdID == 2 { CanEnterNow(s, c, order); }
      if pkt.header.cmdID == 5 { CanMoveNow(s, c, pkt, order); }
    }
    if CanHandle(s, c, pkt, order) && pkt.header.cmdID == 2 {
      NewcomerAdded(s, c);
      NewcomerKeys(s, c);
    }
  }

  /** The dispatcher, for every command and every client, gone or not and whatever its ID: exactly
      the packets with the bytes their handler takes are handled, with exactly this effect. */
  lemma EveryPacketHandled(s: State, c: nat, pkt: Packet, order: seq<u32>)
    requires Base(s) && Keyed(s)
    ensures CanHandle(s, c, pkt, order) <==> Handleable(s, c, pkt, order)
    ensures Handleable(s, c, pkt, order) ==> Handled(s, OnPacket(s, c, pkt, order), c, pkt, order)
  {
    CanHandleIff(s, c, pkt, order);
    if Handleable(s, c, pkt, order) {
      if pkt.header.cmdID == 2 {
        EnterHandled(s, c, order);
      } else if pkt.header.cmdID == 5 {
        if s.ids[c] in s.chaMap { MoveHandled(s, c, pkt, order, s.ids[c]); }
      } else if pkt.header.cmdID == 6 {
        PingHandled(s, c, pkt);
      } else if pkt.header.cmdID == 7 {
        MessageHandled(s, c);
      }
    }
  }

  // ---------- over runs ----------

  lemma LeaveKeyed(s: State, t: State, w: map<u32, Character>, gone: set<nat>)
    requires gone <= s.ids.Keys && Leave(s, t, w, gone) && t.ids == s.ids && Keyed(s.(chaMap := w))
    ensures Keyed(t)
  {
  }

  lemma HandledKeyed(s: State, t: State, c: nat, pkt: Packet, order: seq<u32>)
    requires Base(s) && Keyed(s) && Handleable(s, c, pkt, order) && Handled(s, t, c, pkt, order)
    ensures Keyed(t)
  {
    if pkt.header.cmdID == 2 {
      NewcomerKeyed(s, c);
      LeaveKeyed(s, t, WithNewcomer(s, c), GoneAtEnter(s, c));
    } else if pkt.header.cmdID == 5 {
      if s.ids[c] in s.chaMap { RelocatedKeyed(s, s.ids[c], At(s.ids[c], s.chaMap[s.ids[c]].conn, pkt.body)); }
    } else if pkt.header.cmdID == 6 {
      if c !in s.open { LeaveKeyed(s, t, s.chaMap, {c}); }
    } else if pkt.header.cmdID == 7 {
      LeaveKeyed(s, t, s.chaMap, ListedAndClosed(s));
    }
  }

  lemma NextKeyed(s: State, e: Event)
    requires Base(s) && Keyed(s)
    ensures Keyed(Next(s, e))
  {
    if e.Received? {
      EveryPacketHandled(s, e.c, e.pkt, e.order);
      if CanHandle(s, e.c, e.pkt, e.order) { HandledKeyed(s, Next(s, e), e.c, e.pkt, e.order); }
    }
  }

  /** Over all runs: no two characters share a connection, and each stands under its own ID. */
  lemma {:induction false} RunKeyed(idCnt: u32, events: seq<Event>)
    ensures Keyed(Run(idCnt, events))
    decreases |events|
  {
    if events != [] {
      RunBase(idCnt, events[..|events| - 1]);
      RunKeyed(idCnt, events[..|events| - 1]);
      NextKeyed(Run(idCnt, events[..|events| - 1]), events[|events| - 1]);
    }
  }

  /** The dispatcher over all runs: after any run, a packet that can be handled has its effect on the
      state, and any other leaves it alone. */
  lemma {:induction false} RunHandles(idCnt: u32, events: seq<Event>, c: nat, pkt: Packet, order: seq<u32>)
    ensures Base(Run(idCnt, events)) && Keyed(Run(idCnt, events))
    ensures var s, t := Run(idCnt, events), Run(idCnt, events + [Received(c, pkt, order)]);
            if Handleable(s, c, pkt, order) then Handled(s, t, c, pkt, order) else t == s
  {
    RunBase(idCnt, events);
    RunKeyed(idCnt, events);
    RunStep(idCnt, events, Received(c, pkt, order));
    EveryPacketHandled(Run(idCnt, events), c, pkt, order);
  }

  // ---------- in step ----------

  /** While world and list are in step, the leaving of closed clients leaves exactly the open ones'
      characters, */
  lemma LeaveInStep(s: State, t: State, w: map<u32, Character>, gone: set<nat>)
    requires gone <= s.ids.Keys && Leave(s, t, w, gone) && ConnectionsInv(s)
    requires forall k :: k in w ==> w[k].conn in s.ids && s.ids[w[k].conn] == k
    requires forall d :: d in gone ==> d !in s.open
    requires forall k :: k in w && w[k].conn !in s.open ==> w[k].conn in gone
    ensures t.chaMap == OpenPart(w, s.open)
  {
  }

  lemma NewcomerInStep(s: State, c: nat)
    requires ConnectionsInv(s) && WorldInv(s) && c in s.ids && s.ids[c] < 0x1_0000
    ensures var w := WithNewcomer(s, c);
            && HasCharacter(s, w, c)
            && forall k :: k in w ==> w[k].conn in s.ids && s.ids[w[k].conn] == k && HasCharacter(s, w, w[k].conn)
  {
    var w := WithNewcomer(s, c);
    forall k | k in w ensures w[k].conn in s.ids && s.ids[w[k].conn] == k && HasCharacter(s, w, w[k].conn) {
      assert EntryOk(s, k);
    }
    assert EntryOk(s, s.ids[c]);
  }

  /** so that a client that enters with an ID below 65536 stands in the world if it is open, as a new
      character at 0, 0 or as the one it had, and all open clients' characters are as they were. */
  lemma EnteredInStep(s: State, t: State, c: nat)
    requires ConnectionsInv(s) && WorldInv(s) && c in s.ids && s.ids[c] < 0x1_0000
    requires Leave(s, t, WithNewcomer(s, c), GoneAtEnter(s, c))
    ensures t.chaMap == OpenPart(WithNewcomer(s, c), s.open)
    ensures c in s.open ==> s.ids[c] in t.chaMap && t.chaMap[s.ids[c]].conn == c
    ensures c in s.open ==> Told(s, c, c) == [News(s.ids[c])]
  {
    NewcomerInStep(s, c);
    LeaveInStep(s, t, WithNewcomer(s, c), GoneAtEnter(s, c));
  }

  lemma BroadcastInStep(s: State, t: State, c: nat)
    requires ConnectionsInv(s) && WorldInv(s) && c in s.ids && Broadcast(s, t, c)
    ensures t.chaMap == OpenPart(s.chaMap, s.open)
  {
    forall k | k in s.chaMap ensures s.chaMap[k].conn in s.ids && s.ids[s.chaMap[k].conn] == k && Listed(s, s.chaMap[k].conn) {
      assert EntryOk(s, k);
    }
    LeaveInStep(s, t, s.chaMap, ListedAndClosed(s));
  }

  /** Entering over all runs in which everybody enters in step: an open client with an ID below 65536
      is in the world afterwards, is told so once and is answered with the whole world. */
  lemma {:induction false} RunEnters(idCnt: u32, events: seq<Event>, c: nat, pkt: Packet, order: seq<u32>)
    requires AllEnterInStep(idCnt, events) && pkt.header.cmdID == 2
    requires var s := Run(idCnt, events);
             c in s.open && c in s.ids && s.ids[c] < 0x1_0000 && IsOrder(order, s.chaMap.Keys + {Key(s, c)})
    ensures var s, t := Run(idCnt, events), Run(idCnt, events + [Received(c, pkt, order)]);
            var k := s.ids[c];
            && t.chaMap == OpenPart(WithNewcomer(s, c), s.open) && k in t.chaMap
            && t.chaMap[k] == (if k in s.chaMap then s.chaMap[k] else Character(k, c, 0, 0))
            && Replied(s, t, c, [News(k)], WithNewcomer(s, c), order)
  {
    AlwaysInStepIff(idCnt, events);
    RunHandles(idCnt, events, c, pkt, order);
    EnteredInStep(Run(idCnt, events), Run(idCnt, events + [Received(c, pkt, order)]), c);
  }
}
