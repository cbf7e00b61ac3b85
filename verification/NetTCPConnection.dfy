/**
 One TCP connection object: the chain of at most one outstanding write, the chain of
 at most one outstanding read, and the handlers that advance them.

 The functions describe a handler's effect on values; the class runs the handlers in
 place. An `async_write`/`async_read` moves its bytes in arbitrary chunks and then
 completes, or fails; a handler is atomic because a single thread runs the `io_context`.
 */
module NetTCPConnection {
  import opened Bytes
  import opened NetPacket
  import Q = NetQueue

  // ---------- sending ----------

  /** The outstanding `async_write` and how many of its bytes have left. A failed write
      remembers how much of the front packet (header and body together) had left. */
  datatype Write = NoWrite | WritingHeader(done: nat) | WritingData(done: nat) | WriteFailed(left: nat)

  /** `posted` are the `SendPacket` lambdas not yet run, `pktOut` is `m_PktOut`. `started` and
      `finished` count the `async_write` calls made and those that have completed or failed. */
  datatype Tx = Tx(posted: seq<Packet>, pktOut: seq<Packet>, write: Write, started: nat, finished: nat)

  const TX_INIT: Tx := Tx([], [], NoWrite, 0, 0)

  /** All the bytes of one packet as they travel. */
  function PacketBytes(p: Packet): (s: seq<byte>)
    ensures |s| == HEADER_SIZE + |p.body|
  {
    EncodeHeader(p.header) + p.body
  }

  predicate IsWriting(w: Write) {
    w.WritingHeader? || w.WritingData?
  }

  /** The write chain: a write is outstanding (or has failed for good) exactly while the
      queue is non-empty, so the front that a write or its handler reads always exists; and no
      more than that one write has been started without having ended. */
  predicate TxInv(t: Tx) {
    && (t.write.NoWrite? <==> t.pktOut == [])
    && t.started == t.finished + (if IsWriting(t.write) then 1 else 0)
    && match t.write {
         case NoWrite => true
         case WritingHeader(n) => n <= HEADER_SIZE
         case WritingData(n) => n <= |t.pktOut[0].body| && |t.pktOut[0].body| > 0
         case WriteFailed(n) => n <= HEADER_SIZE + |t.pktOut[0].body|
       }
  }

  function PostSend(t: Tx, p: Packet): Tx {
    t.(posted := t.posted + [p])
  }

  /** A call of `async_write`. There must be no other one under way. */
  function StartWrite(t: Tx, w: Write): Tx
    requires t.write.NoWrite? && IsWriting(w)
  {
    t.(write := w, started := t.started + 1)
  }

  /** The outstanding write is complete and its handler is called. */
  function EndWrite(t: Tx): Tx
    requires IsWriting(t.write)
  {
    t.(write := NoWrite, finished := t.finished + 1)
  }

  /** The lambda of `SendPacket`: it starts a write only if the queue was empty. */
  function RunPosted(t: Tx): Tx
    requires t.posted != [] && TxInv(t)
  {
    var u := t.(posted := t.posted[1..], pktOut := t.pktOut + [t.posted[0]]);
    if t.pktOut == [] then StartWrite(u, WritingHeader(0)) else u
  }

  /** The write of the front packet ended: drop it and go on with the next one, if any. */
  function NextPacket(t: Tx): Tx
    requires t.pktOut != [] && IsWriting(t.write)
  {
    var u := EndWrite(t).(pktOut := t.pktOut[1..]);
    if u.pktOut == [] then u else StartWrite(u, WritingHeader(0))
  }

  predicate HeaderIsOut(t: Tx) {
    t.pktOut != [] && t.write == WritingHeader(HEADER_SIZE)
  }

  /** Completion of `WriteHeader`; it decides on the body's length, not on the size field. */
  function HeaderWritten(t: Tx): Tx
    requires HeaderIsOut(t)
  {
    if |t.pktOut[0].body| > 0 then StartWrite(EndWrite(t), WritingData(0)) else NextPacket(t)
  }

  predicate DataIsOut(t: Tx) {
    t.pktOut != [] && t.write == WritingData(|t.pktOut[0].body|)
  }

  predicate WriteOutstanding(t: Tx) {
    t.pktOut != [] && IsWriting(t.write)
  }

  /** A failed write: the queue is left as it is and no handler will ever pop it. */
  function WriteError(t: Tx): Tx
    requires WriteOutstanding(t)
  {
    EndWrite(t).(write := WriteFailed(if t.write.WritingHeader? then t.write.done else HEADER_SIZE + t.write.done))
  }

  // ---------- receiving ----------

  /** The outstanding `async_read` and the bytes it has collected so far. */
  datatype Read = NotReading | ReadingHeader(got: seq<byte>) | ReadingData(got: seq<byte>) | ReadFailed(got: seq<byte>)

  /** `tmp` is `m_tmpPktIn`; `delivered` lists everything this connection has pushed. `started` and
      `finished` count the `async_read` calls made and those that have completed or failed. */
  datatype Rx = Rx(tmp: Packet, read: Read, delivered: seq<Packet>, started: nat, finished: nat)

  const RX_INIT: Rx := Rx(EMPTY_PACKET, NotReading, [], 0, 0)

  /** A call of `async_read`; `read` shows the newest one. */
  function StartRead(r: Rx, op: Read): Rx {
    r.(read := op, started := r.started + 1)
  }

  /** The outstanding read is complete and its handler is called. */
  function EndRead(r: Rx): Rx {
    r.(read := NotReading, finished := r.finished + 1)
  }

  predicate ReadsCounted(r: Rx) {
    r.started == r.finished + (if ReadOutstanding(r) then 1 else 0)
  }

  /** A further call of `ConnectToClient` leaves more than one read outstanding exactly when there
      is one already. */
  lemma StartReadAloneIff(r: Rx)
    requires ReadsCounted(r)
    ensures var s := StartRead(r, ReadingHeader([]));
            (s.started - s.finished == 1 <==> !ReadOutstanding(r)) && s.started - s.finished <= 2
  {
  }

  /** `PushToIncomingQueue`: a copy of `m_tmpPktIn` goes out and the next header read starts. */
  function Deliver(r: Rx): Rx {
    StartRead(r.(delivered := r.delivered + [r.tmp]), ReadingHeader([]))
  }

  predicate HeaderIsIn(r: Rx) {
    r.read.ReadingHeader? && |r.read.got| == HEADER_SIZE
  }

  /** Completion of `ReadHeader`; it decides on the received size field. When that is zero the
      body of `m_tmpPktIn` keeps whatever the previous packet left there. */
  function HeaderRead(r: Rx): Rx
    requires HeaderIsIn(r)
  {
    var h := DecodeHeader(r.read.got);
    if h.size > 0 then
      StartRead(EndRead(r).(tmp := Packet(h, Resize(r.tmp.body, h.size))), ReadingData([]))
    else
      Deliver(EndRead(r).(tmp := Packet(h, r.tmp.body)))
  }

  predicate DataIsIn(r: Rx) {
    r.read.ReadingData? && |r.read.got| == |r.tmp.body|
  }

  /** Completion of `ReadData`: the body buffer now holds the bytes read. */
  function DataRead(r: Rx): Rx
    requires DataIsIn(r)
  {
    Deliver(EndRead(r).(tmp := Packet(r.tmp.header, r.read.got)))
  }

  predicate ReadOutstanding(r: Rx) {
    r.read.ReadingHeader? || r.read.ReadingData?
  }

  function ReadError(r: Rx): Rx
    requires ReadOutstanding(r)
  {
    EndRead(r).(read := ReadFailed(match r.read case ReadingHeader(g) => g case ReadingData(g) => EncodeHeader(r.tmp.header) + g))
  }

  // ---------- the object ----------

  datatype ConnectType = Server | Client

  class TCPConnection {
    const self: nat            // identity of this object
    const connectType: ConnectType
    const pktIn: Q.NetQueue<OwnedPacket> // the application's queue, shared by its connections
    const pktOut: Q.NetQueue<Packet>
    var id: u32
    var open: bool             // m_Socket.is_open()
    var posted: seq<Packet>
    var write: Write
    var tmpPktIn: Packet
    var read: Read
    ghost var delivered: seq<Packet>
    ghost var writeOps: (nat, nat) // async_write calls started and finished
    ghost var readOps: (nat, nat)  // async_read calls started and finished

    ghost function Sending(): Tx
      reads this, pktOut
    {
      Tx(posted, pktOut.deq, write, writeOps.0, writeOps.1)
    }

    ghost function Receiving(): Rx
      reads this
    {
      Rx(tmpPktIn, read, delivered, readOps.0, readOps.1)
    }

    constructor (self: nat, connectType: ConnectType, id: u32, receiver: Q.NetQueue<OwnedPacket>)
      ensures this.self == self && this.connectType == connectType && pktIn == receiver && open && fresh(pktOut)
      ensures Sending() == TX_INIT && Receiving() == RX_INIT
    {
      this.self, this.connectType, this.id, this.pktIn := self, connectType, id, receiver;
      open, posted, write := true, [], NoWrite;
      pktOut := new Q.NetQueue<Packet>();
      tmpPktIn, read, delivered := EMPTY_PACKET, NotReading, [];
      writeOps, readOps := (0, 0), (0, 0);
    }

    method ConnectToClient(clientID: u32)
      modifies this
      ensures if old(connectType.Server? && open)
              then id == clientID && Receiving() == StartRead(old(Receiving()), ReadingHeader([]))
              else id == old(id) && Receiving() == old(Receiving())
      ensures Sending() == old(Sending()) && open == old(open)
    {
      if connectType.Server? {
        if open {
          id := clientID;
          ReadHeader();
        }
      }
    }

    method SendPacket(p: Packet)
      modifies this
      ensures Sending() == PostSend(old(Sending()), p)
      ensures Receiving() == old(Receiving()) && open == old(open) && id == old(id)
    {
      posted := posted + [p];
    }

    /** The lambda posted by `SendPacket`. */
    method OnPosted()
      requires posted != [] && TxInv(Sending())
      modifies this, pktOut
      ensures Sending() == RunPosted(old(Sending())) && TxInv(Sending())
      ensures Receiving() == old(Receiving()) && open == old(open) && id == old(id)
    {
      var pkt := posted[0];
      posted := posted[1..];
      var idle := pktOut.IsEmpty();
      pktOut.PushBack(pkt);
      if idle {
        WriteHeader();
      }
    }

    /** `async_write` of the front header; no other write may be under way. */
    method WriteHeader()
      requires pktOut.deq != [] && write.NoWrite?
      modifies this`write, this`writeOps
      ensures Sending() == StartWrite(old(Sending()), WritingHeader(0))
    {
      write, writeOps := WritingHeader(0), (writeOps.0 + 1, writeOps.1);
    }

    /** `async_write` of the front body; no other write may be under way. */
    method WriteData()
      requires pktOut.deq != [] && write.NoWrite?
      modifies this`write, this`writeOps
      ensures Sending() == StartWrite(old(Sending()), WritingData(0))
    {
      write, writeOps := WritingData(0), (writeOps.0 + 1, writeOps.1);
    }

    /** The outstanding write is over; `after` is `NoWrite`, or tells of its failure. */
    method WriteEnded(after: Write)
      requires IsWriting(write)
      modifies this`write, this`writeOps
      ensures Sending() == EndWrite(old(Sending())).(write := after)
    {
      write, writeOps := after, (writeOps.0, writeOps.1 + 1);
    }

    /** The outstanding read is over; `after` is `NotReading`, or tells of its failure. */
    method ReadEnded(after: Read)
      modifies this`read, this`readOps
      ensures Receiving() == EndRead(old(Receiving())).(read := after)
    {
      read, readOps := after, (readOps.0, readOps.1 + 1);
    }

    /** Drop the front packet and start on the next one, if there is one. */
    method NextOrStop()
      requires pktOut.deq != [] && write.NoWrite?
      modifies this`write, this`writeOps, pktOut
      ensures Sending() == var u := old(Sending()).(pktOut := old(pktOut.deq)[1..]);
                           if u.pktOut == [] then u else StartWrite(u, WritingHeader(0))
    {
      ghost var before := pktOut.deq;
      var sent := pktOut.PopFront();
      assert pktOut.deq == before[1..];
      var empty := pktOut.IsEmpty();
      if !empty {
        WriteHeader();
      }
    }

    /** Handler of `WriteHeader`. */
    method OnHeaderWritten(error: bool)
      requires TxInv(Sending())
      requires if error then write.WritingHeader? else HeaderIsOut(Sending())
      modifies this, pktOut
      ensures TxInv(Sending())
      ensures Sending() == if error then WriteError(old(Sending())) else HeaderWritten(old(Sending()))
      ensures open == (old(open) && !error)
      ensures Receiving() == old(Receiving()) && id == old(id)
    {
      if !error {
        WriteEnded(NoWrite);
        var front := pktOut.GetFront();
        if |front.body| > 0 {
          WriteData();
        } else {
          NextOrStop();
        }
      } else {
        WriteEnded(WriteFailed(write.done));
        open := false;
      }
    }

    /** Handler of `WriteData`. */
    method OnDataWritten(error: bool)
      requires TxInv(Sending())
      requires if error then write.WritingData? else DataIsOut(Sending())
      modifies this, pktOut
      ensures TxInv(Sending())
      ensures Sending() == if error then WriteError(old(Sending())) else NextPacket(old(Sending()))
      ensures open == (old(open) && !error)
      ensures Receiving() == old(Receiving()) && id == old(id)
    {
      if !error {
        WriteEnded(NoWrite);
        NextOrStop();
      } else {
        WriteEnded(WriteFailed(HEADER_SIZE + write.done));
        open := false;
      }
    }

    method ReadHeader()
      modifies this`read, this`readOps
      ensures Receiving() == StartRead(old(Receiving()), ReadingHeader([]))
    {
      read, readOps := ReadingHeader([]), (readOps.0 + 1, readOps.1);
    }

    method ReadData()
      modifies this`read, this`readOps
      ensures Receiving() == StartRead(old(Receiving()), ReadingData([]))
    {
      read, readOps := ReadingData([]), (readOps.0 + 1, readOps.1);
    }

    /** Handler of `ReadHeader`; a reset by the peer and any other error both close the socket. */
    method OnHeaderRead(error: bool)
      requires if error then read.ReadingHeader? else HeaderIsIn(Receiving())
      modifies this, pktIn
      ensures Receiving() == if error then ReadError(old(Receiving())) else HeaderRead(old(Receiving()))
      ensures pktIn.deq == old(pktIn.deq) + Own(if connectType.Server? then Conn(self) else Null, delivered[|old(delivered)|..])
      ensures open == (old(open) && !error)
      ensures Sending() == old(Sending()) && id == old(id)
    {
      if !error {
        tmpPktIn := Packet(DecodeHeader(read.got), tmpPktIn.body);
        ReadEnded(NotReading);
        if tmpPktIn.header.size > 0 {
          tmpPktIn := Packet(tmpPktIn.header, Resize(tmpPktIn.body, tmpPktIn.header.size));
          ReadData();
        } else {
          PushToIncomingQueue();
        }
      } else {
        ReadEnded(ReadFailed(read.got));
        open := false;
      }
    }

    /** Handler of `ReadData`. */
    method OnDataRead(error: bool)
      requires if error then read.ReadingData? else DataIsIn(Receiving())
      modifies this, pktIn
      ensures Receiving() == if error then ReadError(old(Receiving())) else DataRead(old(Receiving()))
      ensures pktIn.deq == old(pktIn.deq) + Own(if connectType.Server? then Conn(self) else Null, delivered[|old(delivered)|..])
      ensures open == (old(open) && !error)
      ensures Sending() == old(Sending()) && id == old(id)
    {
      if !error {
        tmpPktIn := Packet(tmpPktIn.header, read.got);
        ReadEnded(NotReading);
        PushToIncomingQueue();
      } else {
        ReadEnded(ReadFailed(EncodeHeader(tmpPktIn.header) + read.got));
        open := false;
      }
    }

    method PushToIncomingQueue()
      modifies this`read, this`readOps, this`delivered, pktIn
      ensures Receiving() == Deliver(old(Receiving()))
      ensures pktIn.deq == old(pktIn.deq) + Own(if connectType.Server? then Conn(self) else Null, [tmpPktIn])
      ensures delivered == old(delivered) + [tmpPktIn]
    {
      pktIn.PushBack(OwnedPacket(if connectType.Server? then Conn(self) else Null, tmpPktIn));
      delivered := delivered + [tmpPktIn];
      ReadHeader();
    }
  }

  /** Packets tagged with the connection they came from. */
  function Own(owner: ConnRef, ps: seq<Packet>): (os: seq<OwnedPacket>)
    ensures |os| == |ps|
    ensures forall i :: 0 <= i < |ps| ==> os[i] == OwnedPacket(owner, ps[i])
  {
    seq(|ps|, i requires 0 <= i < |ps| => OwnedPacket(owner, ps[i]))
  }
}
