/** Packets, their header image on the wire, and the LIFO `<<` / `>>` operators. */
module NetPacket {
  import opened Bytes

  // enum class CMD : uint16_t
  const CMD_INVALID: u16 := 0
  const CMD_ACCEPT_TCP_CONNECTION: u16 := 1
  const CMD_SELF_ENTER_WORLD: u16 := 2
  const CMD_PLY_ENTER_WORLD: u16 := 3
  const CMD_SERVER_MESSAGE: u16 := 4
  const CMD_MOVE_PLAYER: u16 := 5
  const CMD_PING: u16 := 6
  const CMD_MESSAGE_ALL: u16 := 7

  /** `PacketHeader<CMD>`: the padding between the two fields travels with them. */
  datatype Header = Header(cmdID: u16, padding: u16, size: u32)

  /** A packet as a value: what the queues copy and store. */
  datatype Packet = Packet(header: Header, body: seq<byte>)

  const HEADER_SIZE: nat := 8

  const EMPTY_PACKET: Packet := Packet(Header(CMD_INVALID, 0, 0), [])

  /** A fresh packet with only its command set. */
  function NewPacket(cmdID: u16): Packet {
    Packet(Header(cmdID, 0, 0), [])
  }

  /** The protocol's framing assumption: the advertised size is the body's length. */
  predicate Framed(p: Packet) {
    p.header.size == |p.body|
  }

  /** `get_packet_len`: the body length cut to 32 bits. */
  function PacketLen(body: seq<byte>): u32 {
    |body| % 0x1_0000_0000
  }

  /** The eight header bytes handed to the socket. */
  function EncodeHeader(h: Header): (s: seq<byte>)
    ensures |s| == HEADER_SIZE
  {
    Le16(h.cmdID) + Le16(h.padding) + Le32(h.size)
  }

  /** The header that eight received bytes make. */
  function DecodeHeader(s: seq<byte>): Header
    requires |s| == HEADER_SIZE
  {
    Header(To16(s[..2]), To16(s[2..4]), To32(s[4..]))
  }

  lemma DecodeEncodeHeader(h: Header)
    ensures DecodeHeader(EncodeHeader(h)) == h
  {
    var s := EncodeHeader(h);
    assert s[..2] == Le16(h.cmdID) && s[2..4] == Le16(h.padding) && s[4..] == Le32(h.size);
    RoundTrip16(h.cmdID, s[..2]); RoundTrip16(h.padding, s[2..4]); RoundTrip32(h.size, s[4..]);
  }

  lemma EncodeDecodeHeader(s: seq<byte>)
    requires |s| == HEADER_SIZE
    ensures EncodeHeader(DecodeHeader(s)) == s
  {
    RoundTrip16(0, s[..2]); RoundTrip16(0, s[2..4]); RoundTrip32(0, s[4..]);
    assert s == s[..2] + s[2..4] + s[4..];
  }

  /** Two headers with the same image are the same header. */
  lemma HeaderInjective(g: Header, h: Header)
    requires EncodeHeader(g) == EncodeHeader(h)
    ensures g == h
  {
    DecodeEncodeHeader(g); DecodeEncodeHeader(h);
  }

  /** The eight bytes are command, padding and size, each with its lowest byte first. */
  lemma HeaderLayout(h: Header, i: nat)
    requires i < HEADER_SIZE
    ensures EncodeHeader(h)[i] ==
            if i < 2 then h.cmdID / Capacity(i) % 0x100
            else if i < 4 then h.padding / Capacity(i - 2) % 0x100
            else h.size / Capacity(i - 4) % 0x100
  {
    if i < 2 { LittleEndian(h.cmdID, 2, i); }
    else if i < 4 { LittleEndian(h.padding, 2, i - 2); }
    else { LittleEndian(h.size, 4, i - 4); }
  }

  /** `pkt << data`, where `data` is the memory image of the pushed value. */
  function Push(p: Packet, data: seq<byte>): Packet {
    Packet(p.header.(size := PacketLen(p.body + data)), p.body + data)
  }

  /** What `pkt >> x` copies into an `x` of `k` bytes. */
  function Top(p: Packet, k: nat): (data: seq<byte>)
    requires k <= |p.body|
    ensures |data| == k
  {
    p.body[|p.body| - k..]
  }

  /** The packet `pkt >> x` leaves. */
  function Pop(p: Packet, k: nat): Packet
    requires k <= |p.body|
  {
    var rest := p.body[..|p.body| - k];
    Packet(p.header.(size := PacketLen(rest)), rest)
  }

  /** A pop undoes the last push: value, body, and (for a framed packet) the size as well. */
  lemma PopPush(p: Packet, data: seq<byte>)
    ensures Top(Push(p, data), |data|) == data
    ensures Pop(Push(p, data), |data|).body == p.body
    ensures Framed(p) ==> Pop(Push(p, data), |data|) == p
  {
    assert Pop(Push(p, data), |data|).body == p.body;
  }

  /** A push undoes a pop. */
  lemma PushPop(p: Packet, k: nat)
    requires k <= |p.body| && Framed(p)
    ensures Push(Pop(p, k), Top(p, k)) == p
  {
    assert Pop(p, k).body + Top(p, k) == p.body;
  }

  /** Both operators re-establish framing exactly when the new body length fits in 32 bits,
      whatever the size field held before. */
  lemma FramingRestored(p: Packet, data: seq<byte>, k: nat)
    ensures Framed(Push(p, data)) <==> |p.body| + |data| < 0x1_0000_0000
    ensures k <= |p.body| ==> (Framed(Pop(p, k)) <==> |p.body| - k < 0x1_0000_0000)
  {
    assert forall n: nat :: n % 0x1_0000_0000 == n <==> n < 0x1_0000_0000;
  }

  /** A `shared_ptr<TCPConnection>`: null, or the identity of a connection object. */
  datatype ConnRef = Null | Conn(ptr: nat)

  /** A received packet together with the connection it came from. */
  datatype OwnedPacket = OwnedPacket(connection: ConnRef, pkt: Packet)

  /** A packet as the object that `<<` and `>>` update in place. */
  class PacketObject {
    var header: Header
    var body: seq<byte>

    function Value(): Packet
      reads this
    {
      Packet(header, body)
    }

    constructor ()
      ensures Value() == EMPTY_PACKET
    {
      header := Header(CMD_INVALID, 0, 0);
      body := [];
    }

    method Assign(p: Packet)
      modifies this
      ensures Value() == p
    {
      header := p.header;
      body := p.body;
    }

    /** `operator <<`: grow the body, copy the bytes in, refresh the size. */
    method Append(data: seq<byte>)
      modifies this
      ensures Value() == Push(old(Value()), data)
    {
      var i := |body|;
      body := body + Zeros(|data|);
      body := body[..i] + data;
      header := header.(size := PacketLen(body));
    }

    /** `operator >>`: copy the last `k` bytes out, shrink the body, refresh the size. */
    method Extract(k: nat) returns (data: seq<byte>)
      requires k <= |body|
      modifies this
      ensures data == Top(old(Value()), k)
      ensures Value() == Pop(old(Value()), k)
    {
      var i := |body| - k;
      data := body[i..];
      body := body[..i];
      header := header.(size := PacketLen(body));
    }
  }
}
