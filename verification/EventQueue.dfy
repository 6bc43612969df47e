/**
 * The event queues between the watcher and the pod manager: producers append
 * under a lock; the single consumer reads length and head outside it and takes
 * the lock only to drop the head. Both queues of the pod manager follow it.
 */
module EventQueue {

  datatype Owner = Free | ByProducer(thread: nat) | ByConsumer

  datatype Producer<T> =
    | Ready
    | Locking(item: T)
    | Loading(item: T)                    // lock held, about to load the slice
    | Appending(item: T, loaded: seq<T>)  // about to store the longer slice
    | Unlocking

  datatype Consumer<T> =
    | Polling                             // about to test the length
    | Peeking                             // about to read the head, no lock held
    | Waiting(item: T)                    // about to take the lock
    | Slicing(item: T)                    // lock held, about to load the slice
    | Dropping(item: T, loaded: seq<T>)   // about to store the tail
    | Leaving(item: T)                    // about to release the lock
    | Dispatching(item: T)                // about to hand the item to a goroutine

  /**
   * `enqueued`, `removed` and `handled` record the stores that added (with
   * their thread), the stores that dropped, and the dispatches.
   */
  datatype State<T> = State(queue: seq<T>, owner: Owner, producers: map<nat, Producer<T>>, consumer: Consumer<T>,
                            enqueued: seq<(nat, T)>, removed: seq<T>, handled: seq<T>) {
    function At(t: nat): Producer<T> {
      if t in producers then producers[t] else Ready
    }

    function Move(t: nat, p: Producer<T>): State<T> {
      this.(producers := producers[t := p])
    }
  }

  datatype Event<T> = Arrive(thread: nat, item: T) | ProducerStep(thread: nat) | ConsumerStep

  function Initial<T>(): State<T> {
    State([], Free, map[], Polling, [], [], [])
  }

  function Apply<T>(s: State<T>, e: Event<T>): State<T> {
    match e
    case Arrive(t, item) => if s.At(t).Ready? then s.Move(t, Locking(item)) else s
    case ProducerStep(t) => ProducerMoves(s, t)
    case ConsumerStep => ConsumerMoves(s)
  }

  function ProducerMoves<T>(s: State<T>, t: nat): State<T> {
    match s.At(t)
    case Ready => s
    case Locking(item) => if s.owner.Free? then s.(owner := ByProducer(t)).Move(t, Loading(item)) else s
    case Loading(item) => s.Move(t, Appending(item, s.queue))
    case Appending(item, loaded) =>
      s.(queue := loaded + [item], enqueued := s.enqueued + [(t, item)]).Move(t, Unlocking)
    case Unlocking => s.(owner := Free).Move(t, Ready)
  }

  /** Reading the head of an empty slice would panic; `Healthy` below shows it cannot happen. */
  function ConsumerMoves<T>(s: State<T>): State<T> {
    match s.consumer
    case Polling => if |s.queue| > 0 then s.(consumer := Peeking) else s
    case Peeking => if |s.queue| > 0 then s.(consumer := Waiting(s.queue[0])) else s
    case Waiting(item) => if s.owner.Free? then s.(owner := ByConsumer, consumer := Slicing(item)) else s
    case Slicing(item) => s.(consumer := Dropping(item, s.queue))
    case Dropping(item, loaded) =>
      if |loaded| == 0 then s
      else s.(queue := loaded[1..], removed := s.removed + [loaded[0]], consumer := Leaving(item))
    case Leaving(item) => s.(owner := Free, consumer := Dispatching(item))
    case Dispatching(item) => s.(handled := s.handled + [item], consumer := Polling)
  }

  function Run<T>(s: State<T>, es: seq<Event<T>>): State<T> {
    if es == [] then s else Apply(Run(s, es[..|es| - 1]), es[|es| - 1])
  }

  function Items<T>(log: seq<(nat, T)>): seq<T> {
    if log == [] then [] else Items(log[..|log| - 1]) + [log[|log| - 1].1]
  }

  function ItemsBy<T>(log: seq<(nat, T)>, t: nat): seq<T> {
    if log == [] then []
    else ItemsBy(log[..|log| - 1], t) + if log[|log| - 1].0 == t then [log[|log| - 1].1] else []
  }

  function Taken<T>(c: Consumer<T>): seq<T> {
    match c
    case Leaving(item) => [item]
    case Dispatching(item) => [item]
    case _ => []
  }

  ghost predicate ProducerOk<T>(s: State<T>, t: nat) {
    && (s.owner == ByProducer(t) <==> s.At(t).Loading? || s.At(t).Appending? || s.At(t).Unlocking?)
    && (s.At(t).Appending? ==> s.At(t).loaded == s.queue)
  }

  ghost predicate ConsumerOk<T>(s: State<T>) {
    && (s.owner == ByConsumer <==> s.consumer.Slicing? || s.consumer.Dropping? || s.consumer.Leaving?)
    && (s.consumer.Peeking? ==> |s.queue| > 0)
    && (s.consumer.Waiting? || s.consumer.Slicing? || s.consumer.Dropping? ==>
          |s.queue| > 0 && s.queue[0] == s.consumer.item)
    && (s.consumer.Dropping? ==> s.consumer.loaded == s.queue)
  }

  /** Mutual exclusion, loaded slices still current, the read element still the head, nothing lost or reordered. */
  ghost predicate Healthy<T>(s: State<T>) {
    && (forall t :: ProducerOk(s, t))
    && ConsumerOk(s)
    && s.removed + s.queue == Items(s.enqueued)
    && s.handled + Taken(s.consumer) == s.removed
  }

  lemma ProducerKeepsHealthy<T>(s: State<T>, t: nat)
    requires Healthy(s)
    ensures Healthy(ProducerMoves(s, t))
  {
    var s' := ProducerMoves(s, t);
    assert ProducerOk(s, t);
    forall u ensures ProducerOk(s', u) {
      assert ProducerOk(s, u);
    }
    if s.At(t).Appending? {
      assert s.removed + (s.queue + [s.At(t).item]) == (s.removed + s.queue) + [s.At(t).item];
      assert (s.enqueued + [(t, s.At(t).item)])[..|s.enqueued|] == s.enqueued;
    }
  }

  lemma ConsumerKeepsHealthy<T>(s: State<T>)
    requires Healthy(s)
    ensures Healthy(ConsumerMoves(s))
  {
    var s' := ConsumerMoves(s);
    forall u ensures ProducerOk(s', u) {
      assert ProducerOk(s, u);
    }
    if s.consumer.Dropping? {
      HeadMoves(s.removed, s.queue);
    }
  }

  lemma HeadMoves<T>(removed: seq<T>, queue: seq<T>)
    requires queue != []
    ensures (removed + [queue[0]]) + queue[1..] == removed + queue
  {
  }

  lemma {:induction false} AlwaysHealthy<T>(es: seq<Event<T>>)
    ensures Healthy(Run(Initial<T>(), es))
  {
    if es != [] {
      var before := Run(Initial<T>(), es[..|es| - 1]);
      AlwaysHealthy(es[..|es| - 1]);
      match es[|es| - 1] {
        case Arrive(t, item) =>
          forall u ensures ProducerOk(Apply(before, Arrive(t, item)), u) {
            assert ProducerOk(before, u);
          }
        case ProducerStep(t) => ProducerKeepsHealthy(before, t);
        case ConsumerStep => ConsumerKeepsHealthy(before);
      }
    }
  }

  /**
   * Queue integrity: over every interleaving, the events handled, the one in
   * the consumer's hands and those still queued are the enqueued events in
   * order; the element read outside the lock is the element dropped inside it.
   */
  lemma NothingLostOrReordered<T>(es: seq<Event<T>>)
    ensures var s := Run(Initial<T>(), es);
            && s.handled + Taken(s.consumer) + s.queue == Items(s.enqueued)
            && (s.consumer.Waiting? ==> |s.queue| > 0 && s.queue[0] == s.consumer.item)
            && (s.consumer.Dropping? ==> |s.consumer.loaded| > 0 && s.consumer.loaded[0] == s.consumer.item)
            && (s.consumer.Peeking? ==> |s.queue| > 0)
  {
    AlwaysHealthy(es);
  }

  // ----- every event a producer was given is enqueued once

  function GivenNow<T>(s: State<T>, e: Event<T>, t: nat): seq<T> {
    if e.Arrive? && e.thread == t && s.At(t).Ready? then [e.item] else []
  }

  /** The events thread `t` was given while ready for one. */
  function Given<T>(es: seq<Event<T>>, t: nat): seq<T> {
    if es == [] then []
    else
      var before := es[..|es| - 1];
      Given(before, t) + GivenNow(Run(Initial<T>(), before), es[|es| - 1], t)
  }

  function Carried<T>(p: Producer<T>): seq<T> {
    match p
    case Locking(item) => [item]
    case Loading(item) => [item]
    case Appending(item, _) => [item]
    case _ => []
  }

  lemma ItemsByAppend<T>(log: seq<(nat, T)>, t: nat, item: T, u: nat)
    ensures ItemsBy(log + [(t, item)], u) == ItemsBy(log, u) + if t == u then [item] else []
  {
    assert (log + [(t, item)])[..|log|] == log;
  }

  lemma ProducerStepDelivers<T>(s: State<T>, t: nat, u: nat)
    ensures var s' := ProducerMoves(s, t);
            ItemsBy(s.enqueued, u) + Carried(s.At(u)) == ItemsBy(s'.enqueued, u) + Carried(s'.At(u))
  {
    hide ItemsBy;
    if s.At(t).Appending? {
      ItemsByAppend(s.enqueued, t, s.At(t).item, u);
    }
  }

  lemma OneEventDelivers<T>(s: State<T>, e: Event<T>, t: nat)
    ensures var s' := Apply(s, e);
            ItemsBy(s.enqueued, t) + Carried(s.At(t)) + GivenNow(s, e, t) == ItemsBy(s'.enqueued, t) + Carried(s'.At(t))
  {
    hide ProducerMoves, ItemsBy;
    if e.ProducerStep? {
      ProducerStepDelivers(s, e.thread, t);
    }
  }

  /** What a producer has enqueued, followed by what it still carries, is exactly what it was given, in order. */
  lemma {:induction false} EachEventEnqueuedOnce<T>(es: seq<Event<T>>, t: nat)
    ensures var s := Run(Initial<T>(), es);
            Given(es, t) == ItemsBy(s.enqueued, t) + Carried(s.At(t))
  {
    if es != [] {
      hide Apply, ItemsBy, Carried, GivenNow;
      EachEventEnqueuedOnce(es[..|es| - 1], t);
      OneEventDelivers(Run(Initial<T>(), es[..|es| - 1]), es[|es| - 1], t);
    }
  }
  // ----- nothing gets stuck

  ghost predicate Leads<T(!new)>(s: State<T>, s': State<T>) {
    exists es :: Run(s, es) == s'
  }

  lemma LeadsHere<T(!new)>(s: State<T>)
    ensures Leads(s, s)
  {
    assert Run(s, []) == s;
  }

  lemma LeadsBy<T(!new)>(s: State<T>, s': State<T>, e: Event<T>)
    requires Leads(s, s')
    ensures Leads(s, Apply(s', e))
  {
    var es :| Run(s, es) == s';
    assert (es + [e])[..|es|] == es;
    assert Run(s, es + [e]) == Apply(s', e);
  }

  /** One step of a producer, as part of a run. */
  lemma ProducerGoes<T(!new)>(start: State<T>, s: State<T>, t: nat) returns (s': State<T>)
    requires Leads(start, s) && Healthy(s)
    ensures s' == ProducerMoves(s, t) && Leads(start, s') && Healthy(s')
  {
    hide Leads, Healthy;
    LeadsBy(start, s, ProducerStep(t));
    ProducerKeepsHealthy(s, t);
    s' := ProducerMoves(s, t);
  }

  lemma ConsumerGoes<T(!new)>(start: State<T>, s: State<T>) returns (s': State<T>)
    requires Leads(start, s) && Healthy(s)
    ensures s' == ConsumerMoves(s) && Leads(start, s') && Healthy(s')
  {
    hide Leads, Healthy;
    LeadsBy(start, s, ConsumerStep);
    ConsumerKeepsHealthy(s);
    s' := ConsumerMoves(s);
  }

  lemma OwnerHolds<T>(s: State<T>)
    requires Healthy(s)
    ensures s.owner.ByProducer? ==>
              var p := s.At(s.owner.thread); p.Loading? || p.Appending? || p.Unlocking?
    ensures s.owner == ByConsumer <==> s.consumer.Slicing? || s.consumer.Dropping? || s.consumer.Leaving?
    ensures s.consumer.Peeking? || s.consumer.Waiting? ==> |s.queue| > 0
    ensures s.consumer.Dropping? ==> s.consumer.loaded == s.queue && |s.queue| > 0
    ensures s.consumer.Polling? ==> s.handled + s.queue == Items(s.enqueued)
  {
    if s.owner.ByProducer? {
      assert ProducerOk(s, s.owner.thread);
    }
    if s.consumer.Polling? {
      assert s.handled + [] == s.handled;
    }
  }

  /** A producer that holds the lock can go on to release it. */
  lemma ProducerReleases<T(!new)>(start: State<T>, s: State<T>) returns (s': State<T>)
    requires Leads(start, s) && Healthy(s) && s.owner.ByProducer?
    ensures Leads(start, s') && Healthy(s') && s'.owner == Free
    ensures s'.consumer == s.consumer && s.enqueued <= s'.enqueued
    ensures forall u :: u != s.owner.thread ==> s'.At(u) == s.At(u)
  {
    hide Leads, Healthy;
    var t := s.owner.thread;
    OwnerHolds(s);
    s' := s;
    if s'.At(t).Loading? {
      s' := ProducerGoes(start, s', t);
    }
    if s'.At(t).Appending? {
      s' := ProducerGoes(start, s', t);
    }
    s' := ProducerGoes(start, s', t);
  }

  /** A consumer about to read the head can go on to take the lock and drop it. */
  lemma ConsumerDrops<T(!new)>(start: State<T>, s: State<T>) returns (s': State<T>)
    requires Leads(start, s) && Healthy(s) && !s.owner.ByProducer?
    requires var c := s.consumer; c.Peeking? || c.Waiting? || c.Slicing? || c.Dropping?
    ensures Leads(start, s') && Healthy(s') && s'.consumer.Leaving?
    ensures s'.enqueued == s.enqueued && s'.producers == s.producers && |s'.queue| == |s.queue| - 1
  {
    hide Leads, Healthy;
    OwnerHolds(s);
    s' := s;
    if s'.consumer.Peeking? {
      s' := ConsumerGoes(start, s');
      OwnerHolds(s');
    }
    if s'.consumer.Waiting? {
      s' := ConsumerGoes(start, s');
      OwnerHolds(s');
    }
    if s'.consumer.Slicing? {
      s' := ConsumerGoes(start, s');
      OwnerHolds(s');
    }
    s' := ConsumerGoes(start, s');
  }

  /** A consumer no producer keeps waiting can go on to its next poll, and drops the event it is about to take. */
  lemma ConsumerReturns<T(!new)>(start: State<T>, s: State<T>) returns (s': State<T>)
    requires Leads(start, s) && Healthy(s) && !s.owner.ByProducer?
    ensures Leads(start, s') && Healthy(s') && s'.owner == Free && s'.consumer == Polling
    ensures s'.enqueued == s.enqueued && s'.producers == s.producers
    ensures var c := s.consumer;
            |s'.queue| == |s.queue| - if c.Peeking? || c.Waiting? || c.Slicing? || c.Dropping? then 1 else 0
  {
    hide Leads, Healthy;
    s' := s;
    if s.consumer.Peeking? || s.consumer.Waiting? || s.consumer.Slicing? || s.consumer.Dropping? {
      s' := ConsumerDrops(start, s);
    }
    if s'.consumer.Leaving? {
      s' := ConsumerGoes(start, s');
    }
    OwnerHolds(s');
    if s'.consumer.Dispatching? {
      s' := ConsumerGoes(start, s');
    }
    OwnerHolds(s');
  }

  lemma {:induction false} ConsumerEmpties<T(!new)>(start: State<T>, s: State<T>) returns (s': State<T>)
    requires Leads(start, s) && Healthy(s) && s.owner == Free && s.consumer == Polling
    ensures Leads(start, s') && Healthy(s') && s'.consumer == Polling && s'.queue == [] && s'.enqueued == s.enqueued
    decreases |s.queue|
  {
    hide Leads, Healthy;
    s' := s;
    if s.queue != [] {
      var peeked := ConsumerGoes(start, s);
      var polled := ConsumerReturns(start, peeked);
      s' := ConsumerEmpties(start, polled);
    }
  }

  /** From every reachable state some run gives the lock back. */
  lemma LockIsReleased<T(!new)>(es: seq<Event<T>>) returns (s': State<T>)
    ensures var s := Run(Initial<T>(), es);
            && Leads(s, s') && Healthy(s') && s'.owner == Free && s.enqueued <= s'.enqueued
            && (!s.owner.ByProducer? ==> s'.producers == s.producers)
            && (s.owner.ByProducer? ==> forall u :: u != s.owner.thread ==> s'.At(u) == s.At(u))
  {
    hide Leads, Healthy, Run;
    var s := Run(Initial<T>(), es);
    AlwaysHealthy(es);
    LeadsHere(s);
    if s.owner.ByProducer? {
      s' := ProducerReleases(s, s);
    } else {
      s' := ConsumerReturns(s, s);
    }
  }

  /** From every reachable state some run handles all events enqueued so far, and leaves the queue empty. */
  lemma AllCanBeHandled<T(!new)>(es: seq<Event<T>>) returns (s': State<T>)
    ensures var s := Run(Initial<T>(), es);
            Leads(s, s') && s.enqueued <= s'.enqueued && s'.queue == [] && s'.handled == Items(s'.enqueued)
  {
    hide Leads, Healthy, Run;
    var s := Run(Initial<T>(), es);
    var free := LockIsReleased(es);
    var polled := ConsumerReturns(s, free);
    s' := ConsumerEmpties(s, polled);
    OwnerHolds(s');
    assert s'.handled + [] == s'.handled;
  }

  /** A producer waiting for the lock with an event can come to enqueue it. */
  lemma GivenCanBeEnqueued<T(!new)>(es: seq<Event<T>>, t: nat) returns (s': State<T>)
    requires Run(Initial<T>(), es).At(t).Locking?
    ensures var s := Run(Initial<T>(), es);
            && Leads(s, s') && s.enqueued <= s'.enqueued && s'.enqueued != []
            && s'.enqueued[|s'.enqueued| - 1] == (t, s.At(t).item)
  {
    hide Leads, Healthy, Run;
    var s := Run(Initial<T>(), es);
    AlwaysHealthy(es);
    OwnerHolds(s);
    s' := LockIsReleased(es);
    s' := ProducerGoes(s, s', t);
    s' := ProducerGoes(s, s', t);
    s' := ProducerGoes(s, s', t);
  }
}
