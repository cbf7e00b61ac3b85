/**
 What the machine of `NetQueue` does for its callers: every push of every producer reaches the
 deque, an undisturbed call does all its work, and where a wake-up can be lost.
 */
module NetQueueRuns {
  import opened Bytes
  import opened NetQueue

  // ---------- nothing that a producer pushed is lost ----------

  /** An item that says which producer pushed it. */
  datatype Tagged<T> = Tagged(from: nat, item: T)

  predicate WellTagged<T>(events: seq<Event<Tagged<T>>>) {
    forall i :: 0 <= i < |events| ==> events[i].Push? ==> events[i].item.from == events[i].i
  }

  /** The items of producer `i` in a list, in order. */
  function Of<T>(xs: seq<Tagged<T>>, i: nat): seq<T> {
    if xs == [] then [] else
      var last := xs[|xs| - 1];
      Of(xs[..|xs| - 1], i) + if last.from == i then [last.item] else []
  }

  lemma OfSnoc<T>(xs: seq<Tagged<T>>, x: Tagged<T>, i: nat)
    ensures Of(xs + [x], i) == Of(xs, i) + if x.from == i then [x.item] else []
  {
    assert (xs + [x])[..|xs|] == xs;
  }

  /** Read off the events: what producer `i` was asked to push, a call counting when the producer
      was idle. */
  function Asked<T>(n: nat, events: seq<Event<Tagged<T>>>, i: nat): seq<T> {
    if events == [] then [] else
      var init, e := events[..|events| - 1], events[|events| - 1];
      Asked(n, init, i) +
      if e.Push? && e.i == i && i < |Run(n, init).producers| && Run(n, init).producers[i].Idle? then [e.item.item] else []
  }

  /** The item that a producer has not put into the deque yet. */
  function InFlight<T>(p: Producer<Tagged<T>>): seq<Tagged<T>> {
    match p
    case WantQueue(x) => [x]
    case WantBlock(x) => [x]
    case Ready(x) => [x]
    case _ => []
  }

  predicate OwnTag<T>(s: State<Tagged<T>>, i: nat)
    requires i < |s.producers|
  {
    InFlight(s.producers[i]) != [] ==> InFlight(s.producers[i])[0].from == i
  }

  /** All that producer `i` has pushed: handled, waiting in the deque, or in flight. */
  function Progress<T>(s: State<Tagged<T>>, i: nat): seq<T>
    requires i < |s.producers|
  {
    Of(s.handled + s.deq, i) + Of(InFlight(s.producers[i]), i)
  }

  lemma OfOne<T>(x: Tagged<T>, i: nat)
    ensures Of([x], i) == if x.from == i then [x.item] else []
  {
    assert [x] == [] + [x];
    OfSnoc([], x, i);
  }

  predicate Tags<T>(s: State<Tagged<T>>) {
    forall j :: 0 <= j < |s.producers| ==> OwnTag(s, j)
  }

  lemma OfNone<T>(i: nat)
    ensures Of<T>([], i) == []
  {
  }

  lemma PushProgress<T>(s: State<Tagged<T>>, j: nat, x: Tagged<T>, i: nat)
    requires i < |s.producers| && Tags(s) && x.from == j && j < |s.producers| && s.producers[j].Idle?
    ensures var t := WithProducer(s, j, WantQueue(x));
            Tags(t) && Progress(t, i) == Progress(s, i) + if j == i then [x.item] else []
  {
    var t := WithProducer(s, j, WantQueue(x));
    forall k | 0 <= k < |t.producers| ensures OwnTag(t, k) { assert OwnTag(s, k); }
    OfOne(x, i);
    OfNone<T>(i);
    assert Progress(s, i) + [] == Progress(s, i);
  }

  /** Only producer `j` moved, from `p` to where it now is. */
  lemma MoveTags<T>(s: State<Tagged<T>>, t: State<Tagged<T>>, j: nat)
    requires Tags(s) && j < |s.producers| == |t.producers| && t.producers == s.producers[j := t.producers[j]]
    requires InFlight(t.producers[j]) == InFlight(s.producers[j]) || InFlight(t.producers[j]) == []
    ensures Tags(t)
  {
    forall k | 0 <= k < |t.producers| ensures OwnTag(t, k) { assert OwnTag(s, k); }
  }

  /** The producer's step that puts its item into the deque, */
  lemma ArriveProgress<T>(s: State<Tagged<T>>, j: nat, i: nat)
    requires i < |s.producers| && Tags(s) && j < |s.producers| && s.producers[j].Ready?
    ensures Tags(ProducerNext(s, j)) && Progress(ProducerNext(s, j), i) == Progress(s, i)
  {
    var t, x := ProducerNext(s, j), s.producers[j].item;
    MoveTags(s, t, j);
    assert OwnTag(s, j);
    assert t.handled + t.deq == (s.handled + s.deq) + [x];
    OfSnoc(s.handled + s.deq, x, i);
    OfOne(x, i);
    OfNone<T>(i);
    Rearrange(Of(s.handled + s.deq, i), Of([x], i));
  }

  lemma Rearrange<T>(a: seq<T>, b: seq<T>)
    ensures (a + b) + [] == a + b && a + [] == a
  {
  }

  lemma ProducerMoves<T>(s: State<Tagged<T>>, j: nat)
    requires ProducerCanStep(s, j) && !s.producers[j].Ready?
    ensures var t := ProducerNext(s, j);
            && t.producers == s.producers[j := t.producers[j]] && t.deq == s.deq && t.handled == s.handled
            && InFlight(t.producers[j]) == InFlight(s.producers[j])
  {
  }

  /** and the others. */
  lemma ProducerProgress<T>(s: State<Tagged<T>>, j: nat, i: nat)
    requires i < |s.producers| && Tags(s) && ProducerCanStep(s, j) && !s.producers[j].Ready?
    ensures Tags(ProducerNext(s, j)) && Progress(ProducerNext(s, j), i) == Progress(s, i)
  {
    ProducerMoves(s, j);
    MoveTags(s, ProducerNext(s, j), j);
  }

  lemma ConsumerProgress<T>(s: State<Tagged<T>>, i: nat)
    requires i < |s.producers| && Tags(s) && ConsumerCanStep(s) && PopIsDefined(s)
    ensures Tags(ConsumerNext(s)) && Progress(ConsumerNext(s), i) == Progress(s, i)
  {
    var t := ConsumerNext(s);
    forall k | 0 <= k < |t.producers| ensures OwnTag(t, k) { assert OwnTag(s, k); }
    if s.consumer.PopHeld? {
      assert s.handled + s.deq == (s.handled + [s.deq[0]]) + s.deq[1..];
    }
  }

  lemma StepProgress<T>(s: State<Tagged<T>>, e: Event<Tagged<T>>, i: nat)
    requires i < |s.producers| && Tags(s) && (e.Push? ==> e.item.from == e.i)
    ensures var t := Next(s, e);
            && |t.producers| == |s.producers| && Tags(t)
            && Progress(t, i) == Progress(s, i) +
               if e.Push? && e.i == i && s.producers[i].Idle? then [e.item.item] else []
  {
    assert Progress(s, i) + [] == Progress(s, i);
    match e {
      case Push(j, x) =>
        if j < |s.producers| && s.producers[j].Idle? { PushProgress(s, j, x, i); }
      case Process(_, _) =>
        SameProducers(s, Next(s, e), i);
      case ProducerSteps(j) =>
        if ProducerCanStep(s, j) {
          if s.producers[j].Ready? { ArriveProgress(s, j, i); } else { ProducerProgress(s, j, i); }
        }
      case ConsumerSteps =>
        if ConsumerCanStep(s) && PopIsDefined(s) { ConsumerProgress(s, i); }
      case SpuriousWakeup =>
        SameProducers(s, Next(s, e), i);
    }
  }

  lemma SameProducers<T>(s: State<Tagged<T>>, t: State<Tagged<T>>, i: nat)
    requires i < |s.producers| && Tags(s)
    requires t.producers == s.producers && t.handled == s.handled && t.deq == s.deq
    ensures Tags(t) && Progress(t, i) == Progress(s, i)
  {
    forall k | 0 <= k < |t.producers| ensures OwnTag(t, k) { assert OwnTag(s, k); }
  }

  lemma {:induction false} RunProgress<T>(n: nat, events: seq<Event<Tagged<T>>>, i: nat)
    requires i < n && WellTagged(events)
    ensures var s := Run(n, events);
            && |s.producers| == n && Tags(s)
            && Progress(s, i) == Asked(n, events, i)
    decreases |events|
  {
    if events == [] {
      assert Run(n, events) == Init<Tagged<T>>(n);
    } else {
      RunProgress(n, events[..|events| - 1], i);
      StepProgress(Run(n, events[..|events| - 1]), events[|events| - 1], i);
    }
  }

  /** Every push arrives: over all runs, the items of producer `i` among those handled and those in
      the deque, followed by the one it still holds, are exactly what it was asked to push, in this
      order; and when the producer is idle again, all of them are handled or in the deque. */
  lemma {:induction false} PushesArrive<T>(n: nat, events: seq<Event<Tagged<T>>>, i: nat)
    requires i < n && WellTagged(events)
    ensures var s := Run(n, events);
            && |s.producers| == n
            && Of(s.handled + s.deq, i) + Of(InFlight(s.producers[i]), i) == Asked(n, events, i)
            && (s.producers[i].Idle? ==> Of(s.handled + s.deq, i) == Asked(n, events, i))
  {
    RunProgress(n, events, i);
    var s := Run(n, events);
    if s.producers[i].Idle? {
      assert Of<T>([], i) == [];
      assert Progress(s, i) == Of(s.handled + s.deq, i);
    }
  }

  // ---------- undisturbed calls ----------

  function Iterate<S>(f: S -> S, s: S, k: nat): S {
    if k == 0 then s else f(Iterate(f, s, k - 1))
  }

  lemma {:induction false} IterateAdd<S>(f: S -> S, s: S, j: nat, k: nat)
    ensures Iterate(f, Iterate(f, s, j), k) == Iterate(f, s, j + k)
    decreases k
  {
    if k > 0 { IterateAdd(f, s, j, k - 1); }
  }

  lemma IterateTwo<S>(f: S -> S, s: S, t: S, u: S)
    requires f(s) == t && f(t) == u
    ensures Iterate(f, s, 1) == t && Iterate(f, s, 2) == u
  {
    assert Iterate(f, s, 0) == s;
    assert Iterate(f, s, 1) == f(Iterate(f, s, 0));
  }

  function Stepping<T>(e: Event<T>): State<T> -> State<T> {
    s => Next(s, e)
  }

  /** `k` steps of one thread, with nobody else moving. */
  function Times<T>(s: State<T>, e: Event<T>, k: nat): State<T> {
    Iterate(Stepping(e), s, k)
  }

  lemma TimesAdd<T>(s: State<T>, e: Event<T>, j: nat, k: nat, t: State<T>)
    requires Times(s, e, j) == t
    ensures Times(s, e, j + k) == Times(t, e, k)
  {
    IterateAdd(Stepping(e), s, j, k);
  }

  lemma Consumes<T>(s: State<T>)
    requires ConsumerCanStep(s) && PopIsDefined(s)
    ensures Stepping(ConsumerSteps)(s) == ConsumerNext(s)
  {
  }

  lemma Produces<T>(s: State<T>, i: nat)
    requires ProducerCanStep(s, i)
    ensures Stepping(ProducerSteps(i))(s) == ProducerNext(s, i)
  {
  }

  predicate LocksFree<T>(s: State<T>) {
    s.muxQueue == Nobody && s.muxBlock == Nobody
  }

  /** Locking both mutexes, */
  lemma PushLocks<T>(s: State<T>, i: nat, x: T)
    requires i < |s.producers| && s.producers[i] == WantQueue(x) && LocksFree(s)
    ensures Times(s, ProducerSteps(i), 2) ==
            s.(producers := s.producers[i := Ready(x)], muxQueue := TheProducer(i), muxBlock := TheProducer(i))
  {
    Produces(s, i);
    var t := ProducerNext(s, i);
    Produces(t, i);
    assert ProducerNext(t, i).producers == s.producers[i := Ready(x)];
    IterateTwo(Stepping(ProducerSteps(i)), s, t, ProducerNext(t, i));
  }

  /** putting the item in and signalling, */
  lemma PushWorks<T>(s: State<T>, i: nat, x: T)
    requires i < |s.producers| && s.producers[i] == Ready(x)
    ensures Times(s, ProducerSteps(i), 2) ==
            s.(producers := s.producers[i := Notified], deq := s.deq + [x], pushed := s.pushed + [x],
               consumer := if s.consumer.Sleeping? then Woken else s.consumer)
  {
    Produces(s, i);
    var t := ProducerNext(s, i);
    Produces(t, i);
    assert ProducerNext(t, i).producers == s.producers[i := Notified];
    IterateTwo(Stepping(ProducerSteps(i)), s, t, ProducerNext(t, i));
  }

  /** and releasing them again. */
  lemma PushUnlocks<T>(s: State<T>, i: nat)
    requires i < |s.producers| && s.producers[i] == Notified
    ensures Times(s, ProducerSteps(i), 2) == s.(producers := s.producers[i := Idle], muxBlock := Nobody, muxQueue := Nobody)
  {
    Produces(s, i);
    var t := ProducerNext(s, i);
    Produces(t, i);
    assert ProducerNext(t, i).producers == s.producers[i := Idle];
    IterateTwo(Stepping(ProducerSteps(i)), s, t, ProducerNext(t, i));
  }

  /** `push_back` with nobody in the way: six steps of the producer put the item at the back, wake a
      sleeping consumer, release both mutexes, and change nothing else. */
  lemma PushAlone<T>(s: State<T>, i: nat, x: T)
    requires i < |s.producers| && s.producers[i].Idle? && LocksFree(s)
    ensures Times(Next(s, Push(i, x)), ProducerSteps(i), 6) ==
            s.(deq := s.deq + [x], pushed := s.pushed + [x],
               consumer := if s.consumer.Sleeping? then Woken else s.consumer)
  {
    var e: Event<T> := ProducerSteps(i);
    var a := Next(s, Push(i, x));
    PushLocks(a, i, x);
    var b := Times(a, e, 2);
    PushWorks(b, i, x);
    var c := Times(b, e, 2);
    PushUnlocks(c, i);
    IterateAdd(Stepping(e), a, 2, 2);
    IterateAdd(Stepping(e), a, 4, 2);
    assert Times(c, e, 2).producers == s.producers;
  }

  /** The test at the top of the loop of `Process`, with nobody in the way, */
  lemma LoopTests<T>(s: State<T>)
    requires s.consumer == LoopTop && s.muxQueue == Nobody && s.count < s.maxPkt
    ensures Times(s, ConsumerSteps, 2) == s.(consumer := LoopTestHeld, muxQueue := TheConsumer)
  {
    Consumes(s);
    Consumes(ConsumerNext(s));
    IterateTwo(Stepping<T>(ConsumerSteps), s, ConsumerNext(s), ConsumerNext(ConsumerNext(s)));
  }

  lemma LoopDecides<T>(s: State<T>)
    requires s.consumer == LoopTestHeld && s.muxQueue == TheConsumer
    ensures Times(s, ConsumerSteps, 1) == s.(consumer := if s.deq == [] then Resting else PopLock, muxQueue := Nobody)
  {
    Consumes(s);
    assert Iterate(Stepping<T>(ConsumerSteps), s, 0) == s;
  }

  lemma LoopPops<T>(s: State<T>)
    requires s.consumer == PopLock && s.muxQueue == Nobody && s.deq != []
    ensures Times(s, ConsumerSteps, 2) ==
            s.(consumer := LoopTop, deq := s.deq[1..], handled := s.handled + [s.deq[0]], count := s.count + 1)
  {
    Consumes(s);
    Consumes(ConsumerNext(s));
    IterateTwo(Stepping<T>(ConsumerSteps), s, ConsumerNext(s), ConsumerNext(ConsumerNext(s)));
  }

  function AfterRound<T>(s: State<T>): State<T>
    requires s.deq != []
  {
    s.(deq := s.deq[1..], handled := s.handled + [s.deq[0]], count := s.count + 1)
  }

  /** One round of the loop, */
  lemma OneRound<T>(s: State<T>)
    requires s.consumer == LoopTop && s.muxQueue == Nobody && s.count < s.maxPkt && s.deq != []
    ensures Times(s, ConsumerSteps, 5) == AfterRound(s)
  {
    var e: Event<T> := ConsumerSteps;
    LoopTests(s);
    LoopDecides(Times(s, e, 2));
    IterateAdd(Stepping(e), s, 2, 1);
    LoopPops(Times(s, e, 3));
    IterateAdd(Stepping(e), s, 3, 2);
  }

  /** and the last: the count is used up, or the deque is found empty. */
  lemma LastRound<T>(s: State<T>)
    requires s.consumer == LoopTop && s.muxQueue == Nobody && (s.count >= s.maxPkt || s.deq == [])
    ensures Times(s, ConsumerSteps, if s.count >= s.maxPkt then 1 else 3) == s.(consumer := Resting)
  {
    var e: Event<T> := ConsumerSteps;
    if s.count >= s.maxPkt {
      Consumes(s);
      assert Iterate(Stepping(e), s, 0) == s;
    } else {
      LoopTests(s);
      LoopDecides(Times(s, e, 2));
      IterateAdd(Stepping(e), s, 2, 1);
    }
  }

  /** The state in which a call has handled `n` more packets and is over. */
  function HandledAll<T>(s: State<T>, n: nat): State<T>
    requires n <= |s.deq|
  {
    s.(consumer := Resting, deq := s.deq[n..], handled := s.handled + s.deq[..n], count := s.count + n)
  }

  lemma HandledOneMore<T>(s: State<T>, n: nat)
    requires n < |s.deq|
    ensures HandledAll(AfterRound(s), n) == HandledAll(s, n + 1)
  {
    assert s.deq[..n + 1] == [s.deq[0]] + s.deq[1..][..n];
    Associative(s.handled, [s.deq[0]], s.deq[1..][..n]);
    assert s.deq[n + 1..] == s.deq[1..][n..];
  }

  lemma LoopEnds<T>(s: State<T>)
    requires s.consumer == LoopTop && s.muxQueue == Nobody && (s.count >= s.maxPkt || s.deq == [])
    ensures Times(s, ConsumerSteps, if s.count >= s.maxPkt then 1 else 3) == HandledAll(s, 0)
  {
    LastRound(s);
    assert s.deq[0..] == s.deq && s.handled + s.deq[..0] == s.handled;
  }

  lemma LoopContinues<T>(s: State<T>, rest: nat, n: nat)
    requires s.consumer == LoopTop && s.muxQueue == Nobody && s.count < s.maxPkt && n < |s.deq|
    requires Times(AfterRound(s), ConsumerSteps, rest) == HandledAll(AfterRound(s), n)
    ensures Times(s, ConsumerSteps, 5 + rest) == HandledAll(s, n + 1)
  {
    OneRound(s);
    HandledOneMore(s, n);
    TimesAdd(s, ConsumerSteps, 5, rest, AfterRound(s));
  }

  /** The loop with nobody in the way handles as many packets as it may and as there are. */
  lemma {:induction false} LoopAlone<T>(s: State<T>) returns (k: nat)
    requires s.consumer == LoopTop && s.muxQueue == Nobody && s.count <= s.maxPkt
    ensures Times(s, ConsumerSteps, k) == HandledAll(s, Min(s.maxPkt - s.count, |s.deq|))
    decreases |s.deq|
  {
    if s.count >= s.maxPkt || s.deq == [] {
      LoopEnds(s);
      k := if s.count >= s.maxPkt then 1 else 3;
    } else {
      var rest := LoopAlone(AfterRound(s));
      LoopContinues(s, rest, Min(s.maxPkt - (s.count + 1), |s.deq| - 1));
      k := 5 + rest;
    }
  }

  /** `wait` returns at once on a queue that is not empty. */
  lemma SeesSome<T>(s: State<T>)
    requires s.consumer == WaitTest && s.muxQueue == Nobody && s.deq != []
    ensures Times(s, ConsumerSteps, 2) == s.(consumer := LoopTop)
  {
    Consumes(s);
    Consumes(ConsumerNext(s));
    IterateTwo(Stepping<T>(ConsumerSteps), s, ConsumerNext(s), ConsumerNext(ConsumerNext(s)));
  }

  lemma SameEnd<T>(s: State<T>, c: Consumer, n: nat)
    requires n <= |s.deq|
    ensures HandledAll(s.(consumer := c), n) == HandledAll(s, n)
  {
  }

  lemma TestHandles<T>(s: State<T>) returns (k: nat)
    requires s.consumer == WaitTest && s.muxQueue == Nobody && s.deq != [] && s.count <= s.maxPkt
    ensures Times(s, ConsumerSteps, k) == HandledAll(s, Min(s.maxPkt - s.count, |s.deq|))
  {
    SeesSome(s);
    var rest := LoopAlone(s.(consumer := LoopTop));
    SameEnd(s, LoopTop, Min(s.maxPkt - s.count, |s.deq|));
    TimesAdd(s, ConsumerSteps, 2, rest, s.(consumer := LoopTop));
    k := 2 + rest;
  }

  /** `Process(max_pkt, wait)` with nobody in the way: after some number of its steps the call is
      over and has handled exactly the first min(max_pkt, size) packets, in order. */
  lemma ProcessAlone<T>(s: State<T>, maxPkt: nat, wait: bool) returns (k: nat)
    requires s.consumer == Resting && s.muxQueue == Nobody && (wait ==> s.deq != [])
    ensures var t, n := Times(Next(s, Process(maxPkt, wait)), ConsumerSteps, k), Min(maxPkt, |s.deq|);
            && t.consumer == Resting && t.count == n
            && t.handled == s.handled + s.deq[..n] && t.deq == s.deq[n..]
            && t.muxQueue == s.muxQueue && t.muxBlock == s.muxBlock && t.producers == s.producers
  {
    var start := Next(s, Process(maxPkt, wait));
    if wait {
      k := TestHandles(start);
    } else {
      k := LoopAlone(start);
    }
  }

  /** With others in the way, a call still ends only when its count is used up or, at that moment,
      the deque is empty. */
  lemma {:induction false} CallEndsOnlyThen<T>(n: nat, events: seq<Event<T>>, e: Event<T>)
    requires !Run(n, events).consumer.Resting? && Next(Run(n, events), e).consumer.Resting?
    ensures var s := Run(n, events); s.count == s.maxPkt || s.deq == []
  {
    RunInv(n, events);
  }

  // ---------- waking up ----------

  /** While a producer has signalled and still holds the mutexes, the consumer is not asleep. */
  predicate Signalled<T>(s: State<T>) {
    forall i :: 0 <= i < |s.producers| && s.producers[i].Notified? ==> !s.consumer.Sleeping?
  }

  lemma NextSignalled<T>(s: State<T>, e: Event<T>)
    requires Inv(s) && Signalled(s)
    ensures Signalled(Next(s, e))
  {
    if e.ConsumerSteps? && s.consumer.WaitHeld? {
      assert s.muxBlock == TheConsumer;
      forall i | 0 <= i < |s.producers| ensures !s.producers[i].Notified? {
        assert s.muxBlock == TheProducer(i) <==> ProducerHoldsBlock(s.producers[i]);
      }
    }
  }

  /** A push wakes the consumer: over all runs, once the producer has signalled, the consumer is no
      longer asleep, and it cannot fall asleep before the producer is done signalling. */
  lemma {:induction false} SignalWakes<T>(n: nat, events: seq<Event<T>>)
    ensures Signalled(Run(n, events))
    decreases |events|
  {
    if events != [] {
      SignalWakes(n, events[..|events| - 1]);
      RunInv(n, events[..|events| - 1]);
      NextSignalled(Run(n, events[..|events| - 1]), events[|events| - 1]);
    }
  }

  /** The consumer of `Process(1, true)` on an empty queue, up to where it has seen that it is empty, */
  lemma SeesEmpty<T>(s: State<T>)
    requires s.consumer == WaitTest && s.muxQueue == Nobody && s.deq == []
    ensures Times(s, ConsumerSteps, 2) == s.(consumer := WaitLock)
  {
    Consumes(s);
    Consumes(ConsumerNext(s));
    IterateTwo(Stepping<T>(ConsumerSteps), s, ConsumerNext(s), ConsumerNext(ConsumerNext(s)));
  }

  /** and from there to its sleep. */
  lemma FallsAsleep<T>(s: State<T>)
    requires s.consumer == WaitLock && s.muxBlock == Nobody
    ensures Times(s, ConsumerSteps, 2) == s.(consumer := Sleeping)
  {
    Consumes(s);
    Consumes(ConsumerNext(s));
    IterateTwo(Stepping<T>(ConsumerSteps), s, ConsumerNext(s), ConsumerNext(ConsumerNext(s)));
  }

  /** A wake-up can be lost: a whole push between the consumer's test and its lock leaves it asleep
      although the queue is not empty. */
  lemma WakeUpIsLost<T>(x: T)
    ensures var tested := Times(Next(Init<T>(1), Process(1, true)), ConsumerSteps, 2);
            var pushed := Times(Next(tested, Push(0, x)), ProducerSteps(0), 6);
            var s := Times(pushed, ConsumerSteps, 2);
            s.consumer == Sleeping && s.deq == [x] && s.producers == [Idle] && LocksFree(s)
  {
    var start := Next(Init<T>(1), Process(1, true));
    SeesEmpty(start);
    PushAlone(start.(consumer := WaitLock), 0, x);
    FallsAsleep(start.(consumer := WaitLock, deq := start.deq + [x], pushed := start.pushed + [x]));
  }

  /** A consumer that was woken tests again and returns to its test of the queue. */
  lemma Rechecks<T>(s: State<T>)
    requires s.consumer == Woken && s.muxBlock == Nobody
    ensures Times(s, ConsumerSteps, 2) == s.(consumer := WaitTest)
  {
    Consumes(s);
    Consumes(ConsumerNext(s));
    IterateTwo(Stepping<T>(ConsumerSteps), s, ConsumerNext(s), ConsumerNext(ConsumerNext(s)));
  }

  lemma WokenHandles<T>(s: State<T>) returns (k: nat)
    requires s.consumer == Woken && LocksFree(s) && s.deq != [] && s.count <= s.maxPkt
    ensures Times(s, ConsumerSteps, k) == HandledAll(s, Min(s.maxPkt - s.count, |s.deq|))
  {
    Rechecks(s);
    var rest := TestHandles(s.(consumer := WaitTest));
    SameEnd(s, WaitTest, Min(s.maxPkt - s.count, |s.deq|));
    TimesAdd(s, ConsumerSteps, 2, rest, s.(consumer := WaitTest));
    k := 2 + rest;
  }

  /** The next push, or a spurious wake-up, makes good for it: the consumer then handles what has
      been waiting, and what was pushed, as far as `max_pkt` allows. */
  lemma WakeUpIsMadeGood<T>(s: State<T>, i: nat, x: T) returns (k: nat, m: nat)
    requires s.consumer == Sleeping && LocksFree(s) && s.count <= s.maxPkt
    requires i < |s.producers| && s.producers[i].Idle?
    ensures var t := Times(Times(Next(s, Push(i, x)), ProducerSteps(i), 6), ConsumerSteps, k);
            var n := Min(s.maxPkt - s.count, |s.deq| + 1);
            t.consumer == Resting && t.handled == s.handled + (s.deq + [x])[..n] && t.deq == (s.deq + [x])[n..]
    ensures s.deq != [] ==>
              var t := Times(Next(s, SpuriousWakeup), ConsumerSteps, m);
              var n := Min(s.maxPkt - s.count, |s.deq|);
              t.consumer == Resting && t.handled == s.handled + s.deq[..n] && t.deq == s.deq[n..]
  {
    PushAlone(s, i, x);
    k := WokenHandles(s.(deq := s.deq + [x], pushed := s.pushed + [x], consumer := Woken));
    m := 0;
    if s.deq != [] {
      m := WokenHandles(s.(consumer := Woken));
    }
  }
}
