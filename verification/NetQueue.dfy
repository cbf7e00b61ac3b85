/**
 `NetQueue`: a deque behind one mutex, with a second mutex and a condition variable for a
 consumer that waits. The class gives each operation's effect; the machine below it steps
 any number of producers and one consumer through the two mutexes.
 */
module NetQueue {

  class NetQueue<T> {
    var deq: seq<T>

    constructor ()
      ensures deq == []
    {
      deq := [];
    }

    method GetFront() returns (t: T)
      requires deq != []
      ensures t == deq[0]
    {
      t := deq[0];
    }

    method PopFront() returns (t: T)
      requires deq != []
      modifies this
      ensures [t] + deq == old(deq)
    {
      t := deq[0];
      deq := deq[1..];
    }

    method PushBack(item: T)
      modifies this
      ensures deq == old(deq) + [item]
    {
      deq := deq + [item];
    }

    method IsEmpty() returns (empty: bool)
      ensures empty <==> |deq| == 0
    {
      empty := deq == [];
    }
  }

  // ---------- the locking protocol ----------

  /** Where a producer stands in `push_back`. */
  datatype Producer<T> =
    | Idle
    | WantQueue(item: T)   // about to lock m_muxQueue
    | WantBlock(item: T)   // holds m_muxQueue, about to lock m_muxBlock
    | Ready(item: T)       // holds both
    | Pushed               // holds both, item is in the deque
    | Notified             // holds both, the waiter has been signalled
    | Leaving              // m_muxBlock released, m_muxQueue still held

  /** Where the consumer stands in `Process(max_pkt, wait)`. */
  datatype Consumer =
    | Resting
    | WaitTest             // wait(): is_empty() is about to lock m_muxQueue
    | WaitTestHeld         // ... and holds it
    | WaitLock             // saw an empty queue, about to lock m_muxBlock
    | WaitHeld             // holds m_muxBlock, about to wait on the condition variable
    | Sleeping             // in cv.wait, m_muxBlock released
    | Woken                // signalled, about to relock m_muxBlock
    | WokenHeld            // holds m_muxBlock, about to release it and test again
    | LoopTop              // the while condition of Process
    | LoopTest             // its is_empty() is about to lock m_muxQueue
    | LoopTestHeld
    | PopLock              // pop_front() is about to lock m_muxQueue
    | PopHeld

  datatype Thread = Nobody | TheConsumer | TheProducer(i: nat)

  /** `pushed` and `handled` are history; `waited` says that this Process call began with wait(). */
  datatype State<T> = State(deq: seq<T>, muxQueue: Thread, muxBlock: Thread,
                            producers: seq<Producer<T>>, consumer: Consumer,
                            count: nat, maxPkt: nat, waited: bool,
                            pushed: seq<T>, handled: seq<T>)

  function Init<T>(n: nat): State<T> {
    State([], Nobody, Nobody, seq(n, i => Idle), Resting, 0, 0, false, [], [])
  }

  datatype Event<T> =
    | Push(i: nat, item: T)                // producer i calls push_back
    | Process(maxPkt: nat, wait: bool)     // the consumer calls Process
    | ProducerSteps(i: nat)
    | ConsumerSteps
    | SpuriousWakeup

  function WithProducer<T>(s: State<T>, i: nat, p: Producer<T>): State<T>
    requires i < |s.producers|
  {
    s.(producers := s.producers[i := p])
  }

  /** The mutex a producer is about to lock must be free. */
  predicate ProducerCanStep<T>(s: State<T>, i: nat) {
    i < |s.producers| &&
    match s.producers[i]
    case Idle => false
    case WantQueue(_) => s.muxQueue == Nobody
    case WantBlock(_) => s.muxBlock == Nobody
    case _ => true
  }

  function ProducerNext<T>(s: State<T>, i: nat): State<T>
    requires ProducerCanStep(s, i)
  {
    match s.producers[i]
    case WantQueue(x) => WithProducer(s, i, WantBlock(x)).(muxQueue := TheProducer(i))
    case WantBlock(x) => WithProducer(s, i, Ready(x)).(muxBlock := TheProducer(i))
    case Ready(x) => WithProducer(s, i, Pushed).(deq := s.deq + [x], pushed := s.pushed + [x])
    case Pushed => WithProducer(s, i, Notified).(consumer := if s.consumer.Sleeping? then Woken else s.consumer)
    case Notified => WithProducer(s, i, Leaving).(muxBlock := Nobody)
    case Leaving => WithProducer(s, i, Idle).(muxQueue := Nobody)
  }

  predicate ConsumerCanStep<T>(s: State<T>) {
    match s.consumer
    case Resting => false
    case Sleeping => false
    case WaitTest => s.muxQueue == Nobody
    case LoopTest => s.muxQueue == Nobody
    case PopLock => s.muxQueue == Nobody
    case WaitLock => s.muxBlock == Nobody
    case Woken => s.muxBlock == Nobody
    case _ => true
  }

  /** `pop_front` on an empty deque is undefined behaviour, so its step demands a packet. */
  predicate PopIsDefined<T>(s: State<T>) {
    s.consumer.PopHeld? ==> s.deq != []
  }

  function ConsumerNext<T>(s: State<T>): State<T>
    requires ConsumerCanStep(s) && PopIsDefined(s)
  {
    match s.consumer
    case WaitTest => s.(consumer := WaitTestHeld, muxQueue := TheConsumer)
    case WaitTestHeld => s.(consumer := if s.deq == [] then WaitLock else LoopTop, muxQueue := Nobody)
    case WaitLock => s.(consumer := WaitHeld, muxBlock := TheConsumer)
    case WaitHeld => s.(consumer := Sleeping, muxBlock := Nobody)
    case Woken => s.(consumer := WokenHeld, muxBlock := TheConsumer)
    case WokenHeld => s.(consumer := WaitTest, muxBlock := Nobody)
    case LoopTop => s.(consumer := if s.count < s.maxPkt then LoopTest else Resting)
    case LoopTest => s.(consumer := LoopTestHeld, muxQueue := TheConsumer)
    case LoopTestHeld => s.(consumer := if s.deq == [] then Resting else PopLock, muxQueue := Nobody)
    case PopLock => s.(consumer := PopHeld, muxQueue := TheConsumer)
    case PopHeld => s.(consumer := LoopTop, muxQueue := Nobody, count := s.count + 1,
                       deq := s.deq[1..], handled := s.handled + [s.deq[0]])
  }

  /** One step; an event that is not possible leaves the state as it is. */
  function Next<T>(s: State<T>, e: Event<T>): State<T> {
    match e
    case Push(i, x) =>
      if i < |s.producers| && s.producers[i].Idle? then WithProducer(s, i, WantQueue(x)) else s
    case Process(m, w) =>
      if s.consumer.Resting?
      then s.(consumer := if w then WaitTest else LoopTop, count := 0, maxPkt := m, waited := w) else s
    case ProducerSteps(i) => if ProducerCanStep(s, i) then ProducerNext(s, i) else s
    case ConsumerSteps => if ConsumerCanStep(s) && PopIsDefined(s) then ConsumerNext(s) else s
    case SpuriousWakeup => if s.consumer.Sleeping? then s.(consumer := Woken) else s
  }

  function Run<T>(n: nat, events: seq<Event<T>>): State<T> {
    if events == [] then Init(n) else Next(Run(n, events[..|events| - 1]), events[|events| - 1])
  }

  predicate ProducerHoldsQueue<T>(p: Producer<T>) {
    p.WantBlock? || p.Ready? || p.Pushed? || p.Notified? || p.Leaving?
  }

  predicate ProducerHoldsBlock<T>(p: Producer<T>) {
    p.Ready? || p.Pushed? || p.Notified?
  }

  predicate ConsumerHoldsQueue(c: Consumer) {
    c.WaitTestHeld? || c.LoopTestHeld? || c.PopHeld?
  }

  predicate ConsumerHoldsBlock(c: Consumer) {
    c.WaitHeld? || c.WokenHeld?
  }

  predicate InLoop(c: Consumer) {
    c.LoopTop? || c.LoopTest? || c.LoopTestHeld? || c.PopLock? || c.PopHeld?
  }

  /** Mutual exclusion: each mutex is held by exactly the thread whose position says so. */
  ghost predicate LockInv<T>(s: State<T>) {
    && (forall i :: 0 <= i < |s.producers| ==>
          (s.muxQueue == TheProducer(i) <==> ProducerHoldsQueue(s.producers[i])))
    && (forall i :: 0 <= i < |s.producers| ==>
          (s.muxBlock == TheProducer(i) <==> ProducerHoldsBlock(s.producers[i])))
    && (s.muxQueue.TheProducer? ==> s.muxQueue.i < |s.producers|)
    && (s.muxBlock.TheProducer? ==> s.muxBlock.i < |s.producers|)
    && (s.muxQueue == TheConsumer <==> ConsumerHoldsQueue(s.consumer))
    && (s.muxBlock == TheConsumer <==> ConsumerHoldsBlock(s.consumer))
  }

  /** The deque's history, and what the consumer knows about emptiness. */
  predicate DequeInv<T(==)>(s: State<T>) {
    && s.pushed == s.handled + s.deq
    && s.count <= s.maxPkt
    && (s.consumer.LoopTest? || s.consumer.LoopTestHeld? || s.consumer.PopLock? || s.consumer.PopHeld? ==> s.count < s.maxPkt)
    && (s.consumer.PopLock? || s.consumer.PopHeld? ==> s.deq != [])
    && (s.waited && s.count == 0 && InLoop(s.consumer) ==> s.deq != [])
    && (s.waited && s.consumer.Resting? && s.maxPkt > 0 ==> s.count > 0)
    && (!s.consumer.Resting? && !InLoop(s.consumer) ==> s.waited && s.count == 0)
  }

  ghost predicate Inv<T>(s: State<T>) {
    LockInv(s) && DequeInv(s)
  }

  lemma ProducerKeepsLocks<T>(s: State<T>, i: nat)
    requires LockInv(s) && ProducerCanStep(s, i)
    ensures LockInv(ProducerNext(s, i))
  {
  }

  lemma ProducerKeepsDeque<T>(s: State<T>, i: nat)
    requires DequeInv(s) && ProducerCanStep(s, i)
    ensures DequeInv(ProducerNext(s, i))
  {
  }

  lemma ConsumerKeepsLocks<T>(s: State<T>)
    requires LockInv(s) && ConsumerCanStep(s) && PopIsDefined(s)
    ensures LockInv(ConsumerNext(s))
  {
  }

  lemma ConsumerKeepsDeque<T>(s: State<T>)
    requires DequeInv(s) && ConsumerCanStep(s)
    ensures DequeInv(ConsumerNext(s))
  {
    if s.consumer.PopHeld? {
      assert s.handled + s.deq == (s.handled + [s.deq[0]]) + s.deq[1..];
    }
  }

  lemma NextInv<T>(s: State<T>, e: Event<T>)
    requires Inv(s)
    ensures Inv(Next(s, e))
  {
    match e {
      case ProducerSteps(i) => if ProducerCanStep(s, i) { ProducerKeepsLocks(s, i); ProducerKeepsDeque(s, i); }
      case ConsumerSteps => if ConsumerCanStep(s) { ConsumerKeepsLocks(s); ConsumerKeepsDeque(s); }
      case Push(_, _) =>
      case Process(_, _) =>
      case SpuriousWakeup =>
    }
  }

  lemma {:induction false} RunInv<T>(n: nat, events: seq<Event<T>>)
    ensures Inv(Run(n, events))
    decreases |events|
  {
    if events != [] {
      RunInv(n, events[..|events| - 1]);
      NextInv(Run(n, events[..|events| - 1]), events[|events| - 1]);
    }
  }

  // ---------- what the protocol guarantees ----------

  /** Whatever the interleaving: packets leave in the order they were pushed, none lost and none
      twice; `pop_front` always finds one; a call handles at most `max_pkt` packets; and when
      `wait` has returned, the queue is non-empty until the first pop. */
  lemma QueueIsSafe<T>(n: nat, events: seq<Event<T>>)
    ensures var s := Run(n, events);
            s.pushed == s.handled + s.deq
            && (s.consumer.PopLock? || s.consumer.PopHeld? ==> s.deq != [])
            && s.count <= s.maxPkt
            && (s.waited && s.count == 0 && InLoop(s.consumer) ==> s.deq != [])
  {
    RunInv(n, events);
  }

  /** A finished `Process` call that waited has handled at least one packet, unless `max_pkt` is 0. */
  lemma WaitingProcessHandlesOne<T>(n: nat, events: seq<Event<T>>)
    requires var s := Run(n, events); s.waited && s.consumer.Resting? && s.maxPkt > 0
    ensures Run(n, events).count > 0
  {
    RunInv(n, events);
  }

  predicate IsThread<T>(s: State<T>, t: Thread) {
    t == TheConsumer || (t.TheProducer? && t.i < |s.producers|)
  }

  /** Inside a call and not asleep on the condition variable. */
  predicate Active<T>(s: State<T>, t: Thread)
    requires IsThread(s, t)
  {
    if t.TheConsumer? then !s.consumer.Resting? && !s.consumer.Sleeping? else !s.producers[t.i].Idle?
  }

  predicate CanStep<T>(s: State<T>, t: Thread)
    requires IsThread(s, t)
  {
    if t.TheConsumer? then ConsumerCanStep(s) else ProducerCanStep(s, t.i)
  }

  /** The thread that holds the mutex `t` is waiting for. */
  function WaitsFor<T>(s: State<T>, t: Thread): Thread
    requires IsThread(s, t)
  {
    if t.TheConsumer? then
      match s.consumer
      case WaitTest => s.muxQueue
      case LoopTest => s.muxQueue
      case PopLock => s.muxQueue
      case WaitLock => s.muxBlock
      case Woken => s.muxBlock
      case _ => Nobody
    else
      match s.producers[t.i]
      case WantQueue(_) => s.muxQueue
      case WantBlock(_) => s.muxBlock
      case _ => Nobody
  }

  /** Lock order: the holder of `m_muxBlock` waits for nothing (in particular never for
      `m_muxQueue`), so chains of waiting threads have length at most two and never close. */
  lemma WaitChainsAreShort<T>(n: nat, events: seq<Event<T>>, t: Thread)
    requires IsThread(Run(n, events), t)
    ensures var s := Run(n, events);
            && (s.muxBlock == t ==> WaitsFor(s, t) == Nobody)
            && var u := WaitsFor(s, t);
            && (u != Nobody ==> IsThread(s, u) && u != t)
            && (u != Nobody && WaitsFor(s, u) != Nobody ==>
                  IsThread(s, WaitsFor(s, u)) && WaitsFor(s, WaitsFor(s, u)) == Nobody)
  {
    RunInv(n, events);
  }

  /** No deadlock: whenever some thread is inside a call and not asleep, some thread can step. */
  lemma NoDeadlock<T>(n: nat, events: seq<Event<T>>, t: Thread) returns (u: Thread)
    requires IsThread(Run(n, events), t) && Active(Run(n, events), t)
    ensures IsThread(Run(n, events), u) && Active(Run(n, events), u) && CanStep(Run(n, events), u)
  {
    RunInv(n, events);
    var s := Run(n, events);
    u := if s.muxBlock != Nobody then s.muxBlock else if s.muxQueue != Nobody then s.muxQueue else t;
  }
}
