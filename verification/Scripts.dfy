/**
 What a client's script sends: any sequence of calls of the node's `PreparePacket`, `WriteCmd`,
 `WriteShort` and the other writes, and `SendPacket`, while the connection comes and goes.
 */
module Scripts {
  import opened Bytes
  import opened NetPacket
  import opened GDNative
  import Channel

  datatype Call = Prepare | Cmd(cmdID: u16) | Put(v: Value) | Send | Connected | Disconnected

  /** The packet being written, what was sent so far, and whether the client is connected. */
  datatype Node = Node(pktOut: Packet, sent: seq<Packet>, online: bool)

  function Step(n: Node, call: Call): Node {
    match call
    case Prepare => if n.online then n.(pktOut := Cleared(n.pktOut)) else n
    case Cmd(c) => n.(pktOut := n.pktOut.(header := n.pktOut.header.(cmdID := c)))
    case Put(v) => n.(pktOut := Write(n.pktOut, v))
    case Send => if n.online then n.(sent := n.sent + [n.pktOut]) else n
    case Connected => n.(online := true)
    case Disconnected => n.(online := false)
  }

  function Play(calls: seq<Call>): Node {
    if calls == [] then Node(EMPTY_PACKET, [], false)
    else Step(Play(calls[..|calls| - 1]), calls[|calls| - 1])
  }

  // ---------- what can be told from the script alone ----------

  /** Whether the script has written any value. */
  predicate Wrote(calls: seq<Call>) {
    calls != [] && (calls[|calls| - 1].Put? || Wrote(calls[..|calls| - 1]))
  }

  predicate Online(calls: seq<Call>) {
    calls != [] &&
    match calls[|calls| - 1]
    case Connected => true
    case Disconnected => false
    case _ => Online(calls[..|calls| - 1])
  }

  /** A packet was prepared and nothing written since, though something was written before. */
  predicate Stale(calls: seq<Call>) {
    calls != [] &&
    var init := calls[..|calls| - 1];
    match calls[|calls| - 1]
    case Put(_) => false
    case Prepare => if Online(init) then Wrote(init) else Stale(init)
    case _ => Stale(init)
  }

  /** No packet is sent in that situation. */
  predicate WritesBeforeSends(calls: seq<Call>) {
    calls == [] ||
    var init := calls[..|calls| - 1];
    WritesBeforeSends(init) && !(calls[|calls| - 1].Send? && Online(init) && Stale(init))
  }

  /** The bytes of all values that the script writes. */
  function Written(calls: seq<Call>): nat {
    if calls == [] then 0 else
      var last := calls[|calls| - 1];
      Written(calls[..|calls| - 1]) + if last.Put? then |Image(last.v)| else 0
  }

  /** The command set last, if any. */
  function LastCmd(calls: seq<Call>): u16 {
    if calls == [] then 0
    else if calls[|calls| - 1].Cmd? then calls[|calls| - 1].cmdID
    else LastCmd(calls[..|calls| - 1])
  }

  /** The values written since a packet was last prepared while online, in order. */
  function Current(calls: seq<Call>): seq<Value> {
    if calls == [] then [] else
    var init := calls[..|calls| - 1];
    match calls[|calls| - 1]
    case Put(v) => Current(init) + [v]
    case Prepare => if Online(init) then [] else Current(init)
    case _ => Current(init)
  }

  function Images(vs: seq<Value>): seq<byte> {
    if vs == [] then [] else Images(vs[..|vs| - 1]) + Image(vs[|vs| - 1])
  }

  /** The length of the body after the last write, if there was one. */
  function LastLength(calls: seq<Call>): nat {
    if calls == [] then 0
    else if calls[|calls| - 1].Put? then |Images(Current(calls))|
    else LastLength(calls[..|calls| - 1])
  }

  /** The packet a `Send` at the end of these calls gives to the connection. */
  function Outgoing(calls: seq<Call>): Packet {
    Packet(Header(LastCmd(calls), 0, LastLength(calls) % 0x1_0000_0000), Images(Current(calls)))
  }

  /** One packet for each `Send` while online. */
  function Sends(calls: seq<Call>): seq<Packet> {
    if calls == [] then [] else
    var init := calls[..|calls| - 1];
    Sends(init) + if calls[|calls| - 1].Send? && Online(init) then [Outgoing(init)] else []
  }

  // ---------- what is sent ----------

  lemma ImagesLast(vs: seq<Value>, v: Value)
    ensures Images(vs + [v]) == Images(vs) + Image(v)
  {
    assert (vs + [v])[..|vs|] == vs;
  }

  lemma PutOutgoing(init: seq<Call>, calls: seq<Call>, v: Value)
    requires calls == init + [Put(v)]
    ensures Outgoing(calls) == Write(Outgoing(init), v)
  {
    assert calls[..|calls| - 1] == init;
    ImagesLast(Current(init), v);
    WriteLayout(Outgoing(init), v, 0);
  }

  lemma OtherOutgoing(init: seq<Call>, calls: seq<Call>, call: Call)
    requires calls == init + [call] && !call.Put?
    ensures Outgoing(calls) == Outgoing(init).(
              header := Outgoing(init).header.(cmdID := if call.Cmd? then call.cmdID else LastCmd(init)),
              body := if call.Prepare? && Online(init) then [] else Outgoing(init).body)
  {
    assert calls[..|calls| - 1] == init;
  }

  lemma SendsLast(init: seq<Call>, calls: seq<Call>, call: Call)
    requires calls == init + [call]
    ensures Sends(calls) == if call.Send? && Online(init) then Sends(init) + [Outgoing(init)] else Sends(init)
    ensures Online(calls) == (call.Connected? || (Online(init) && !call.Disconnected?))
  {
    assert calls[..|calls| - 1] == init;
  }

  lemma StepMatches(n: Node, init: seq<Call>, calls: seq<Call>, call: Call)
    requires calls == init + [call] && n == Node(Outgoing(init), Sends(init), Online(init))
    ensures Step(n, call) == Node(Outgoing(calls), Sends(calls), Online(calls))
  {
    SendsLast(init, calls, call);
    if call.Put? {
      PutOutgoing(init, calls, call.v);
    } else {
      OtherOutgoing(init, calls, call);
    }
  }

  /** Every script sends exactly the packets that can be told from its calls: each `Send` while online
      sends one, with the command set last before it, and as its body the images of the values
      written since the last `PreparePacket`, in order. */
  lemma {:induction false} ScriptSends(calls: seq<Call>)
    ensures Play(calls) == Node(Outgoing(calls), Sends(calls), Online(calls))
    decreases |calls|
  {
    if calls == [] {
      assert Images([]) == [];
    } else {
      var init := calls[..|calls| - 1];
      ScriptSends(init);
      StepMatches(Play(init), init, calls, calls[|calls| - 1]);
    }
  }

  // ---------- when the packets are framed ----------

  /** What a script's history says about the packet being written. */
  predicate Agrees(n: Node, calls: seq<Call>) {
    && n.online == Online(calls)
    && |n.pktOut.body| <= Written(calls)
    && (n.pktOut.header.size > 0 <==> Wrote(calls))
    && (Framed(n.pktOut) <==> !Stale(calls))
    && (Stale(calls) ==> Wrote(calls) && n.pktOut.body == [])
  }

  lemma ImageNotEmpty(v: Value)
    ensures |Image(v)| > 0
  {
  }

  lemma WriteAgrees(p: Packet, v: Value)
    requires |p.body| + |Image(v)| < 0x1_0000_0000
    ensures Framed(Write(p, v)) && Write(p, v).header.size > 0
  {
    ImageNotEmpty(v);
    FramingRestored(p, Image(v), 0);
  }

  lemma {:induction false} PlayAgrees(calls: seq<Call>)
    requires Written(calls) < 0x1_0000_0000
    ensures Agrees(Play(calls), calls)
    decreases |calls|
  {
    if calls != [] {
      var init := calls[..|calls| - 1];
      PlayAgrees(init);
      if calls[|calls| - 1].Put? { WriteAgrees(Play(init).pktOut, calls[|calls| - 1].v); }
    }
  }

  /** The exact condition for a script: all packets that it sends are framed if and only if it never
      sends a packet that it has prepared and not written to, once it has written anything. */
  lemma {:induction false} SentFramedIff(calls: seq<Call>)
    requires Written(calls) < 0x1_0000_0000
    ensures (forall p :: p in Play(calls).sent ==> Framed(p)) <==> WritesBeforeSends(calls)
    decreases |calls|
  {
    if calls != [] {
      var init := calls[..|calls| - 1];
      SentFramedIff(init);
      PlayAgrees(init);
      assert forall p :: p in Play(init).sent ==> p in Play(calls).sent;
    }
  }

  /** From script to server: what a well-behaved script sends is delivered as an intact prefix, with
      no assumption about framing. */
  lemma ScriptArrives(calls: seq<Call>, events: seq<Channel.Event>)
    requires Written(calls) < 0x1_0000_0000 && WritesBeforeSends(calls)
    requires Channel.Posts(events) <= Play(calls).sent
    ensures Channel.AllIntact(Channel.Run(events).ab.rx.delivered, Play(calls).sent)
  {
    SentFramedIff(calls);
    Channel.DeliveryIsPrefix(events);
  }
}
