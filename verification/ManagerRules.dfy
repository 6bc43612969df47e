/** What the goroutines of the handshake never do: other pods' work, work twice, or work after a failure. */
module ManagerRules {
  import opened Pods
  import opened PodMaps
  import opened GpuAccounting
  import opened Handshake
  import opened FileLoop

  // ----- failed calls

  /**
   * A call of the pod manager that fails leaves everything shared as it was.
   * After a failed write the loop goes on; after any other failure, or when no
   * status ever comes, the goroutine is over.
   */
  lemma FailedCallChangesNothing(c: Cluster, s: State, g: nat, statuses: Option<seq<Status>>)
    requires g in s.managers
    requires var m := s.managers[g];
             m.Filing? || m.MakingDir? || m.Fetching? || m.MarkingReady? || (m.AwaitingStatus? && statuses.None?)
    ensures var s', m := Apply(c, s, ManagerStep(g, false, statuses)), s.managers[g];
            s' == s.(managers := s.managers[g := if m.Filing? then Writing(m.pod, m.uids, m.next + 1) else Ended])
  {
  }

  /** A failed poll, charge or update ends an allocation, and nothing is charged or marked by that step. */
  lemma FailedAllocationChangesNothing(c: Cluster, s: State, a: nat)
    requires a in s.allocators
    ensures Apply(c, s, AllocatorStep(a, false)) == s.(allocators := s.allocators[a := Returned])
  {
  }

  /** What is over stays over. */
  lemma EndedStays(c: Cluster, s: State, id: nat, ok: bool, statuses: Option<seq<Status>>)
    ensures id in s.managers && s.managers[id].Ended? ==> Apply(c, s, ManagerStep(id, ok, statuses)) == s
    ensures id in s.allocators && s.allocators[id].Returned? ==> Apply(c, s, AllocatorStep(id, ok)) == s
  {
    assert id in s.managers ==> s.managers[id := s.managers[id]] == s.managers;
    assert id in s.allocators ==> s.allocators[id := s.allocators[id]] == s.allocators;
  }

  /** An event without annotations is dropped. */
  lemma UnannotatedIsDropped(c: Cluster, s: State, g: nat, ok: bool, statuses: Option<seq<Status>>)
    requires g in s.managers && (s.managers[g].Starting? || s.managers[g].Removing?) && !s.managers[g].snap.annotated
    ensures Apply(c, s, ManagerStep(g, ok, statuses)) == s.(managers := s.managers[g := Ended])
  {
  }

  // ----- deletion

  /**
   * A removal deletes if and only if the pod carried the assigned annotation,
   * whatever its value, and had been visited: then all its files go and all
   * others stay. Otherwise nothing happens.
   */
  lemma RemovalDecides(c: Cluster, s: State, g: nat, ok: bool, statuses: Option<seq<Status>>)
    requires g in s.managers && s.managers[g].Removing?
    ensures var s', snap := Apply(c, s, ManagerStep(g, ok, statuses)), s.managers[g].snap;
            if snap.annotated && snap.flag != Absent && snap.pod in s.maps.visited && s.maps.visited[snap.pod] then
              && s'.maps == Delete(s.maps, snap.pod) && s'.gone == s.gone + {snap.pod} && s'.api == s.api
              && (forall k :: k in s'.files <==> k in s.files && k.0 != snap.pod)
              && (forall k :: k in s'.files ==> s'.files[k] == s.files[k])
            else s' == s.(managers := s.managers[g := Ended])
  {
    hide Delete;
  }

  /** The snapshots of the pods removed so far. */
  function RemovedNow(s: State, e: Event): seq<Snapshot> {
    if e.Removed? && e.pod in s.api then
      [Snapshot(e.pod, e.annotated, if e.annotated then s.api[e.pod].flag else Absent)]
    else []
  }

  function RemovedSoFar(c: Cluster, s: State, es: seq<Event>): seq<Snapshot> {
    if es == [] then []
    else
      var before := es[..|es| - 1];
      RemovedSoFar(c, s, before) + RemovedNow(Run(c, s, before), es[|es| - 1])
  }

  predicate MarkedRemoval(log: seq<Snapshot>, pod: string) {
    exists i :: 0 <= i < |log| && log[i].pod == pod && log[i].annotated && log[i].flag != Absent
  }

  /** Queued removals and those being handled are removals that happened. */
  ghost predicate RemovalsLogged(s: State, log: seq<Snapshot>) {
    && (forall i :: 0 <= i < |s.removals| ==> s.removals[i] in log)
    && (forall g :: g in s.managers && s.managers[g].Removing? ==> s.managers[g].snap in log)
    && (forall p :: p in s.gone ==> MarkedRemoval(log, p))
  }

  lemma MarkedGoesOn(log: seq<Snapshot>, more: seq<Snapshot>, pod: string)
    requires MarkedRemoval(log, pod)
    ensures MarkedRemoval(log + more, pod)
  {
    var i :| 0 <= i < |log| && log[i].pod == pod && log[i].annotated && log[i].flag != Absent;
    assert (log + more)[i] == log[i];
  }

  lemma LoggedGoesOn(s: State, log: seq<Snapshot>, more: seq<Snapshot>)
    requires RemovalsLogged(s, log)
    ensures RemovalsLogged(s, log + more)
  {
    hide MarkedRemoval;
    forall p | p in s.gone ensures MarkedRemoval(log + more, p) {
      MarkedGoesOn(log, more, p);
    }
  }

  lemma ManagerNextLogged(c: Cluster, s: State, m: Manager, ok: bool, statuses: Option<seq<Status>>, log: seq<Snapshot>)
    requires (forall p :: p in s.gone ==> MarkedRemoval(log, p)) && (m.Removing? ==> m.snap in log)
    ensures var (s', m') := ManagerNext(c, s, m, ok, statuses);
            && s'.removals == s.removals && !m'.Removing?
            && forall p :: p in s'.gone ==> MarkedRemoval(log, p)
  {
    hide RecordAll, Delete, StoreRequest, MarkVisited, MarkDone, ConfigOf, Requests, AnyStarted;
    if m.Removing? {
      var i :| 0 <= i < |log| && log[i] == m.snap;
    }
  }

  lemma StepLogged(c: Cluster, s: State, e: Event, log: seq<Snapshot>)
    requires RemovalsLogged(s, log)
    ensures RemovalsLogged(Apply(c, s, e), log + RemovedNow(s, e))
  {
    hide ManagerNext, AllocatorNext, Confirmed, MarkedRemoval;
    LoggedGoesOn(s, log, RemovedNow(s, e));
    NothingNew(log);
    if e.ManagerStep? && e.g in s.managers {
      ManagerNextLogged(c, s, s.managers[e.g], e.ok, e.statuses, log);
      Untouched(c, s, s.managers[e.g], e.ok, e.statuses);
    } else if e.AllocatorStep? && e.a in s.allocators {
      AllocatorLeavesRest(c, s, s.allocators[e.a], e.ok);
      AllocatorLeavesGone(c, s, s.allocators[e.a], e.ok);
    }
  }

  /**
   * Entries are deleted only for pods that were removed carrying the assigned
   * annotation; those of a pod removed before it was assigned stay for good.
   */
  lemma {:induction false} OnlyMarkedPodsAreForgotten(c: Cluster, gpus: seq<GpuRecord>, es: seq<Event>)
    ensures RemovalsLogged(Run(c, Initial(gpus), es), RemovedSoFar(c, Initial(gpus), es))
  {
    if es != [] {
      hide Apply, RemovalsLogged, RemovedNow;
      var start, before := Initial(gpus), es[..|es| - 1];
      OnlyMarkedPodsAreForgotten(c, gpus, before);
      StepLogged(c, Run(c, start, before), es[|es| - 1], RemovedSoFar(c, start, before));
    }
  }

  // ----- only pods that request resources

  predicate Working(m: Manager) {
    !m.Starting? && !m.Removing? && !m.Ended?
  }

  ghost predicate MapsRequesting(c: Cluster, m: Maps) {
    && (forall p :: p in m.visited ==> Requests(c.Spec(p))) && (forall p :: p in m.done ==> Requests(c.Spec(p)))
    && (forall p :: p in m.uidsOfPod ==> Requests(c.Spec(p)))
    && (forall p :: p in m.coreRequest ==> Requests(c.Spec(p)))
  }

  ghost predicate ManagersRequesting(c: Cluster, managers: map<nat, Manager>) {
    forall g :: g in managers && Working(managers[g]) ==> Requests(c.Spec(managers[g].pod))
  }

  ghost predicate AllRequesting(c: Cluster, s: State) {
    && MapsRequesting(c, s.maps) && ManagersRequesting(c, s.managers)
    && (forall p :: p in s.api && s.api[p].ready ==> Requests(c.Spec(p)))
    && (forall k :: k in s.files ==> Requests(c.Spec(k.0)))
    && (forall a :: a in s.allocators && (s.allocators[a].Charging? || s.allocators[a].MarkingAssigned?) ==>
          Requests(c.Spec(s.allocators[a].pod)))
    && (forall i :: 0 <= i < |s.charges| ==> Requests(c.Spec(s.charges[i].pod)))
  }

  lemma ManagerMapsRequesting(c: Cluster, s: State, m: Manager, ok: bool, statuses: Option<seq<Status>>)
    requires MapsRequesting(c, s.maps) && (Working(m) ==> Requests(c.Spec(m.pod)))
    ensures MapsRequesting(c, ManagerNext(c, s, m, ok, statuses).0.maps)
  {
    hide RecordAll, Delete, CoreQuota, MemQuota, ConfigOf, Requests, AnyStarted, StartedUids;
    if m.Recording? {
      RecordListsStarted(s.maps, m.pod, m.statuses);
    } else if m.Removing? && Lookup(s.maps.visited, m.snap.pod, false) {
      DeleteByMap(s.maps, m.snap.pod);
    }
  }

  lemma ManagerNextRequesting(c: Cluster, s: State, m: Manager, ok: bool, statuses: Option<seq<Status>>)
    requires AllRequesting(c, s) && (Working(m) ==> Requests(c.Spec(m.pod)))
    ensures var (s', m') := ManagerNext(c, s, m, ok, statuses);
            && (Working(m') ==> Requests(c.Spec(m'.pod)))
            && (forall p :: p in s'.api && s'.api[p].ready ==> Requests(c.Spec(p)))
            && (forall k :: k in s'.files ==> Requests(c.Spec(k.0)))
  {
    hide RecordAll, Delete, StoreRequest, MarkVisited, MarkDone, ConfigOf, Requests, AnyStarted, MapsRequesting;
  }

  lemma ManagerRequesting(c: Cluster, s: State, g: nat, ok: bool, statuses: Option<seq<Status>>)
    requires AllRequesting(c, s) && g in s.managers
    ensures AllRequesting(c, ManagerMoves(c, s, g, s.managers[g], ok, statuses))
  {
    hide ManagerNext, MapsRequesting, Requests;
    ManagerMapsRequesting(c, s, s.managers[g], ok, statuses);
    ManagerNextRequesting(c, s, s.managers[g], ok, statuses);
    Untouched(c, s, s.managers[g], ok, statuses);
  }

  lemma AllocatorRequesting(c: Cluster, s: State, a: nat, ok: bool)
    requires AllRequesting(c, s) && a in s.allocators
    ensures AllRequesting(c, AllocatorMoves(c, s, a, s.allocators[a], ok))
  {
    hide AllocatorNext, MapsRequesting, ManagersRequesting, Requests;
    AllocatorKeepsRequesting(c, s, s.allocators[a], ok);
    AllocatorLeavesRest(c, s, s.allocators[a], ok);
    AllocatorKeepsAllocators(c, s, s.allocators[a], ok);
  }

  lemma AllocatorKeepsAllocators(c: Cluster, s: State, l: Allocator, ok: bool)
    ensures AllocatorNext(c, s, l, ok).0.allocators == s.allocators
  {
    hide Sum, Choose, Grant;
  }

  lemma AllocatorKeepsRequesting(c: Cluster, s: State, l: Allocator, ok: bool)
    requires AllRequesting(c, s) && (l.Charging? || l.MarkingAssigned? ==> Requests(c.Spec(l.pod)))
    ensures var (s', l') := AllocatorNext(c, s, l, ok);
            && (l'.Charging? || l'.MarkingAssigned? ==> Requests(c.Spec(l'.pod)))
            && (forall p :: p in s'.api && s'.api[p].ready ==> Requests(c.Spec(p)))
            && (forall i :: 0 <= i < |s'.charges| ==> Requests(c.Spec(s'.charges[i].pod)))
  {
    hide Sum, Choose, Grant, Requests, MapsRequesting, ManagersRequesting;
  }

  lemma EnvironmentRequesting(c: Cluster, s: State, e: Event)
    requires AllRequesting(c, s) && !e.ManagerStep? && !e.AllocatorStep?
    ensures AllRequesting(c, Apply(c, s, e))
  {
    hide Confirmed, MapsRequesting, Requests;
  }

  /**
   * Pods without resource requests are left alone: over every interleaving
   * only pods with a requesting container are visited, recorded, stored,
   * marked ready, charged or filed.
   */
  lemma {:induction false} OnlyRequestingPods(c: Cluster, gpus: seq<GpuRecord>, es: seq<Event>)
    ensures AllRequesting(c, Run(c, Initial(gpus), es))
  {
    hide ManagerMoves, AllocatorMoves, AllRequesting;
    if es == [] {
      InitialRequesting(c, gpus);
    } else {
      var s, e := Run(c, Initial(gpus), es[..|es| - 1]), es[|es| - 1];
      OnlyRequestingPods(c, gpus, es[..|es| - 1]);
      match e {
        case ManagerStep(g, ok, statuses) => if g in s.managers { ManagerRequesting(c, s, g, ok, statuses); }
        case AllocatorStep(a, ok) => if a in s.allocators { AllocatorRequesting(c, s, a, ok); }
        case _ => EnvironmentRequesting(c, s, e);
      }
    }
  }

  lemma InitialRequesting(c: Cluster, gpus: seq<GpuRecord>)
    ensures AllRequesting(c, Initial(gpus))
  {
  }

  /** In particular a pod none of whose containers declares requests never gets a mark, a charge or a file. */
  lemma PodWithoutRequestsIsLeftAlone(c: Cluster, gpus: seq<GpuRecord>, es: seq<Event>, p: string)
    requires !SomeRequested(c.Spec(p))
    ensures var s := Run(c, Initial(gpus), es);
            && p !in s.maps.visited && p !in s.maps.uidsOfPod && p !in s.maps.coreRequest
            && (p in s.api ==> !s.api[p].ready)
            && (forall i :: 0 <= i < |s.charges| ==> s.charges[i].pod != p)
            && (forall key :: (p, key) !in s.files)
  {
    hide Run;
    OnlyRequestingPods(c, gpus, es);
    var files := Run(c, Initial(gpus), es).files;
    RequestsMeans(c.Spec(p));
    forall key ensures (p, key) !in files {
      var k := (p, key);
      assert k in files ==> Requests(c.Spec(k.0));
    }
  }

  // ----- once

  /** Going through registration: visiting, storing, or marking ready. */
  predicate Registering(m: Manager) {
    m.Visiting? || m.MakingDir? || m.Storing? || m.Fetching? || m.MarkingReady?
  }

  /** Going through the files: polling, recording, listing, writing, or marking done. */
  predicate Filling(m: Manager) {
    m.AwaitingStatus? || m.Recording? || m.Listing? || InLoop(m) || m.Finishing?
  }

  /** Goroutines other than the given ones do not register pod `p`, nor, if it is done, fill its files. */
  ghost predicate LeftAlone(s: State, before: set<nat>, p: string, done: bool) {
    forall g :: g in s.managers && g !in before ==>
      && !(Registering(s.managers[g]) && s.managers[g].pod == p)
      && (done ==> !(Filling(s.managers[g]) && s.managers[g].pod == p))
  }

  predicate Settled(m: Maps, p: string, done: bool) {
    Lookup(m.visited, p, false) && (done ==> Lookup(m.done, p, false))
  }

  lemma SettledStep(c: Cluster, s: State, m: Manager, ok: bool, statuses: Option<seq<Status>>, p: string, done: bool)
    requires Settled(s.maps, p, done)
    requires !(Registering(m) && m.pod == p) && (done ==> !(Filling(m) && m.pod == p))
    ensures var m' := ManagerNext(c, s, m, ok, statuses).1;
            !(Registering(m') && m'.pod == p) && (done ==> !(Filling(m') && m'.pod == p))
  {
    hide RecordAll, Delete, StoreRequest, MarkVisited, MarkDone, ConfigOf, Requests, AnyStarted;
  }

  /** The pod's entries are not deleted in this step. */
  predicate Spares(c: Cluster, s: State, e: Event, p: string) {
    e.ManagerStep? && e.g in s.managers && s.managers[e.g].Removing? ==> s.managers[e.g].snap.pod != p
  }

  ghost predicate SparedThroughout(c: Cluster, s: State, es: seq<Event>, p: string) {
    es == [] || (SparedThroughout(c, s, es[..|es| - 1], p) && Spares(c, Run(c, s, es[..|es| - 1]), es[|es| - 1], p))
  }

  lemma StepLeavesAlone(c: Cluster, s: State, e: Event, before: set<nat>, p: string, done: bool)
    requires Settled(s.maps, p, done) && LeftAlone(s, before, p, done) && Spares(c, s, e, p)
    ensures Settled(Apply(c, s, e).maps, p, done) && LeftAlone(Apply(c, s, e), before, p, done)
  {
    hide ManagerNext, AllocatorNext, Confirmed, Settled, Registering, Filling;
    NeitherAtStart();
    if e.ManagerStep? && e.g in s.managers {
      SparesSettled(c, s, s.managers[e.g], e.ok, e.statuses, p, done);
      Untouched(c, s, s.managers[e.g], e.ok, e.statuses);
      if e.g !in before {
        SettledStep(c, s, s.managers[e.g], e.ok, e.statuses, p, done);
      }
    } else if e.AllocatorStep? && e.a in s.allocators {
      AllocatorLeavesRest(c, s, s.allocators[e.a], e.ok);
    }
  }

  lemma NeitherAtStart()
    ensures forall snap: Snapshot :: !Registering(Starting(snap)) && !Filling(Starting(snap))
    ensures forall snap: Snapshot :: !Registering(Removing(snap)) && !Filling(Removing(snap))
  {
  }

  lemma SparesSettled(c: Cluster, s: State, m: Manager, ok: bool, statuses: Option<seq<Status>>, p: string, done: bool)
    requires Settled(s.maps, p, done) && (m.Removing? ==> m.snap.pod != p)
    ensures Settled(ManagerNext(c, s, m, ok, statuses).0.maps, p, done)
  {
    hide RecordAll, Delete, CoreQuota, MemQuota, ConfigOf, Requests, AnyStarted, StartedUids;
    if m.Recording? {
      RecordListsStarted(s.maps, m.pod, m.statuses);
    } else if m.Removing? && Lookup(s.maps.visited, m.snap.pod, false) {
      DeleteByMap(s.maps, m.snap.pod);
    }
  }

  /**
   * Handled once: from a state in which a pod is visited, no goroutine started
   * later registers it again, and if it is also done none fills its files
   * again, for as long as no removal of the pod is handled.
   */
  lemma {:induction false} HandledOnce(c: Cluster, s: State, es: seq<Event>, p: string, done: bool)
    requires Settled(s.maps, p, done) && SparedThroughout(c, s, es, p)
    ensures Settled(Run(c, s, es).maps, p, done) && LeftAlone(Run(c, s, es), s.managers.Keys, p, done)
  {
    if es != [] {
      hide Apply, Settled, LeftAlone, Spares;
      HandledOnce(c, s, es[..|es| - 1], p, done);
      StepLeavesAlone(c, Run(c, s, es[..|es| - 1]), es[|es| - 1], s.managers.Keys, p, done);
    }
  }

  // ----- in order

  function EnqueuedNow(s: State, e: Event): seq<Snapshot> {
    if e.Modified? && e.pod in s.api then
      [Snapshot(e.pod, e.annotated, if e.annotated then s.api[e.pod].flag else Absent)]
    else []
  }

  /** The snapshots of the changes seen so far. */
  function Enqueued(c: Cluster, s: State, es: seq<Event>): seq<Snapshot> {
    if es == [] then []
    else
      var before := es[..|es| - 1];
      Enqueued(c, s, before) + EnqueuedNow(Run(c, s, before), es[|es| - 1])
  }

  /** The snapshot a new goroutine was started with, of a change or of a removal. */
  function HandedNow(s: State, s': State, e: Event, removal: bool): seq<Snapshot> {
    if e.Dispatch? && !removal && e.g !in s.managers && e.g in s'.managers && s'.managers[e.g].Starting? then
      [s'.managers[e.g].snap]
    else if e.DispatchRemoval? && removal && e.g !in s.managers && e.g in s'.managers && s'.managers[e.g].Removing? then
      [s'.managers[e.g].snap]
    else []
  }

  function Handed(c: Cluster, s: State, es: seq<Event>, removal: bool): seq<Snapshot> {
    if es == [] then []
    else
      var before := es[..|es| - 1];
      Handed(c, s, before, removal) + HandedNow(Run(c, s, before), Run(c, s, es), es[|es| - 1], removal)
  }

  lemma HeadAndTail<T>(queue: seq<T>)
    requires queue != []
    ensures [queue[0]] + queue[1..] == queue
  {
  }

  /** What an event does to the two queues. */
  lemma QueuesAfter(c: Cluster, s: State, e: Event)
    ensures var s' := Apply(c, s, e);
            && (e.Modified? ==> s'.events == s.events + EnqueuedNow(s, e) && s'.removals == s.removals)
            && (e.Removed? ==> s'.removals == s.removals + RemovedNow(s, e) && s'.events == s.events)
            && (!e.Modified? && !e.Dispatch? && !e.Removed? && !e.DispatchRemoval? ==>
                  s'.events == s.events && s'.removals == s.removals)
  {
    hide ManagerNext, AllocatorNext, Confirmed;
    if e.ManagerStep? && e.g in s.managers {
      Untouched(c, s, s.managers[e.g], e.ok, e.statuses);
      RemovalsUntouched(c, s, s.managers[e.g], e.ok, e.statuses);
    } else if e.AllocatorStep? && e.a in s.allocators {
      AllocatorLeavesRest(c, s, s.allocators[e.a], e.ok);
    }
    assert s.events + [] == s.events && s.removals + [] == s.removals;
  }

  lemma DispatchInOrder(c: Cluster, s: State, g: nat)
    ensures var s' := Apply(c, s, Dispatch(g));
            s.events == HandedNow(s, s', Dispatch(g), false) + s'.events && s'.removals == s.removals
  {
    if s.events != [] {
      HeadAndTail(s.events);
    }
    assert [] + s.events == s.events;
  }

  lemma DispatchRemovalInOrder(c: Cluster, s: State, g: nat)
    ensures var s' := Apply(c, s, DispatchRemoval(g));
            s.removals == HandedNow(s, s', DispatchRemoval(g), true) + s'.removals && s'.events == s.events
  {
    if s.removals != [] {
      HeadAndTail(s.removals);
    }
    assert [] + s.removals == s.removals;
  }

  lemma StepInOrder(c: Cluster, s: State, e: Event)
    ensures var s' := Apply(c, s, e);
            && s.events + EnqueuedNow(s, e) == HandedNow(s, s', e, false) + s'.events
            && s.removals + RemovedNow(s, e) == HandedNow(s, s', e, true) + s'.removals
  {
    hide Apply;
    var s' := Apply(c, s, e);
    Neutral(s.events);
    Neutral(s.removals);
    Neutral(s'.events);
    Neutral(s'.removals);
    match e {
      case Dispatch(g) => DispatchInOrder(c, s, g);
      case DispatchRemoval(g) => DispatchRemovalInOrder(c, s, g);
      case _ => QueuesAfter(c, s, e);
    }
  }

  lemma Neutral<T>(queue: seq<T>)
    ensures [] + queue == queue + [] == queue
  {
  }

  lemma RemovalsUntouched(c: Cluster, s: State, m: Manager, ok: bool, statuses: Option<seq<Status>>)
    ensures ManagerNext(c, s, m, ok, statuses).0.removals == s.removals
  {
  }

  /** Every change and every removal seen is handed to a goroutine once, in the order seen, or still queued. */
  lemma {:induction false} HandedInOrder(c: Cluster, gpus: seq<GpuRecord>, es: seq<Event>)
    ensures var start := Initial(gpus);
            && Handed(c, start, es, false) + Run(c, start, es).events == Enqueued(c, start, es)
            && Handed(c, start, es, true) + Run(c, start, es).removals == RemovedSoFar(c, start, es)
  {
    if es != [] {
      hide Apply, EnqueuedNow, RemovedNow, HandedNow;
      var start, before, e := Initial(gpus), es[..|es| - 1], es[|es| - 1];
      var s, s' := Run(c, start, before), Apply(c, Run(c, start, before), e);
      HandedInOrder(c, gpus, before);
      StepInOrder(c, s, e);
      Shifts(Handed(c, start, before, false), s.events, EnqueuedNow(s, e), HandedNow(s, s', e, false), s'.events);
      Shifts(Handed(c, start, before, true), s.removals, RemovedNow(s, e), HandedNow(s, s', e, true), s'.removals);
    }
  }

  lemma Shifts<T>(handed: seq<T>, queue: seq<T>, new_: seq<T>, handing: seq<T>, rest: seq<T>)
    requires queue + new_ == handing + rest
    ensures (handed + queue) + new_ == (handed + handing) + rest
  {
    assert (handed + queue) + new_ == handed + (queue + new_);
    assert handed + (handing + rest) == (handed + handing) + rest;
  }
}
