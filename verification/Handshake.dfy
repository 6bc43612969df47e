/**
 * The allocation handshake. The pod manager and the allocator never talk to
 * each other directly: they read and write pod annotations at the API server.
 * Every goroutine is a sequence of atomic steps; any number of them run for
 * the same pod, in any interleaving.
 */
module Handshake {
  import opened Arith
  import opened Pods
  import opened PodMaps
  import opened GpuAccounting
  import PodMatching

  /** The annotation `gpu-assigned`. */
  datatype Mark = Absent | SaysFalse | SaysTrue

  datatype Annotations = Annotations(ready: bool, flag: Mark)

  /** A pod as a watch event carries it. */
  datatype Snapshot = Snapshot(pod: string, annotated: bool, flag: Mark)

  /** What a run is about: each pod's immutable containers, the cgroup version, and the code's two readings. */
  datatype Cluster = Cluster(pods: map<string, Containers>, cgroupV2: bool, labels: Labels, paths: Paths) {
    function Spec(pod: string): Containers {
      if pod in pods then pods[pod] else []
    }
  }

  /** The quota file of one container: memory in bytes as an unsigned 64-bit value, utilisation as a C int. */
  datatype Config = Config(memory: nat, utilization: int)

  const MEMORY_BLOCK: nat := 268435456
  const UINT64: nat := 0x1_0000_0000_0000_0000

  function ConfigOf(core: int, mem: int): Config {
    Config(mem * MEMORY_BLOCK % UINT64, Wrap32(core))
  }

  /** The memory quota in bytes is kept modulo 2 to the 64, the core quota modulo 2 to the 32. */
  lemma ConfigOfExact(core: int, mem: int)
    ensures var f := ConfigOf(core, mem);
            && 0 <= f.memory < 18446744073709551616 && (mem * 268435456 - f.memory) % 18446744073709551616 == 0
            && FitsInt(f.utilization) && (core - f.utilization) % 4294967296 == 0
  {
    Wrap32Exact(core);
  }

  /** `creatVcudaServer` and `deletePodPath`, by program point. */
  datatype Manager =
    | Starting(snap: Snapshot)
    | AwaitingStatus(pod: string)
    | Recording(pod: string, statuses: seq<Status>)
    | Listing(pod: string)
    | Writing(pod: string, uids: seq<string>, next: nat)
    | Reading(pod: string, uids: seq<string>, next: nat, key: string)
    | Filing(pod: string, uids: seq<string>, next: nat, key: string, core: int, mem: int)
    | Finishing(pod: string)
    | CheckingVisited(pod: string)
    | Visiting(pod: string)
    | MakingDir(pod: string)
    | Storing(pod: string)
    | Fetching(pod: string)
    | MarkingReady(pod: string, copy: Annotations)
    | Removing(snap: Snapshot)
    | Ended

  /** `Allocate` after the matching loops, by program point. */
  datatype Allocator =
    | AwaitingReady(pod: string)
    | Charging(pod: string, copy: Annotations)
    | MarkingAssigned(pod: string, copy: Annotations)
    | Returned

  datatype ChargeEntry = ChargeEntry(pod: string, device: nat, core: int, mem: int)

  /**
   * `charges`, `marked` and `gone` are history: the successful charges, the
   * pods ever marked assigned, and the pods whose entries have been deleted.
   */
  datatype State = State(
    api: map<string, Annotations>,
    events: seq<Snapshot>,
    removals: seq<Snapshot>,
    managers: map<nat, Manager>,
    allocators: map<nat, Allocator>,
    maps: Maps,
    gpus: seq<GpuRecord>,
    files: map<(string, string), Config>,
    created: set<string>,
    charges: seq<ChargeEntry>,
    marked: set<string>,
    gone: set<string>)

  /** The listing and the device count of an allocation request are arbitrary here, which only adds runs. */
  datatype Event =
    | Create(pod: string, flag: Mark)
    | Modified(pod: string, annotated: bool)
    | Removed(pod: string, annotated: bool)
    | Dispatch(g: nat)
    | DispatchRemoval(g: nat)
    | ManagerStep(g: nat, ok: bool, statuses: Option<seq<Status>>)
    | Allocate(a: nat, pending: seq<string>, devices: nat)
    | AllocatorStep(a: nat, ok: bool)

  function Initial(gpus: seq<GpuRecord>): State {
    State(map[], [], [], map[], map[], EMPTY_MAPS, gpus, map[], {}, [], {}, {})
  }

  predicate Requests(cs: Containers) {
    exists i :: 0 <= i < |cs| && cs[i].requested
  }

  lemma RequestsMeans(cs: Containers)
    ensures Requests(cs) <==> SomeRequested(cs)
  {
  }

  predicate AnyStarted(sts: seq<Status>) {
    exists i :: 0 <= i < |sts| && sts[i].uid != "" && sts[i].name != ""
  }

  // ----- steps

  function Take(s: State, pod: string, annotated: bool): Snapshot
    requires pod in s.api
  {
    Snapshot(pod, annotated, if annotated then s.api[pod].flag else Absent)
  }

  function Apply(c: Cluster, s: State, e: Event): State {
    match e
    case Create(pod, flag) =>
      if pod in s.created || flag.SaysTrue? then s
      else s.(api := s.api[pod := Annotations(false, flag)], created := s.created + {pod})
    case Modified(pod, annotated) =>
      if pod in s.api then s.(events := s.events + [Take(s, pod, annotated)]) else s
    case Removed(pod, annotated) =>
      if pod in s.api then s.(api := s.api - {pod}, removals := s.removals + [Take(s, pod, annotated)]) else s
    case Dispatch(g) =>
      if s.events == [] || g in s.managers then s
      else s.(events := s.events[1..], managers := s.managers[g := Starting(s.events[0])])
    case DispatchRemoval(g) =>
      if s.removals == [] || g in s.managers then s
      else s.(removals := s.removals[1..], managers := s.managers[g := Removing(s.removals[0])])
    case ManagerStep(g, ok, statuses) =>
      if g in s.managers then ManagerMoves(c, s, g, s.managers[g], ok, statuses) else s
    case Allocate(a, pending, devices) =>
      if a in s.allocators then s else s.(allocators := s.allocators[a := Confirmed(c, pending, devices)])
    case AllocatorStep(a, ok) =>
      if a in s.allocators then AllocatorMoves(c, s, a, s.allocators[a], ok) else s
  }

  function Specs(c: Cluster, pending: seq<string>): (pods: PodMatching.Pending)
    ensures |pods| == |pending|
    ensures forall i :: 0 <= i < |pods| ==> pods[i] == c.Spec(pending[i])
  {
    seq(|pending|, i requires 0 <= i < |pending| => c.Spec(pending[i]))
  }

  /** `Allocate` up to its wait: for these pods and this device count, the pod the matching loops confirm, if any. */
  function Confirmed(c: Cluster, pending: seq<string>, devices: nat): (l: Allocator)
    ensures l.AwaitingReady? || l.Returned?
  {
    match PodMatching.Matches(Specs(c, pending), devices)
    case Some(i) => AwaitingReady(pending[i])
    case None => Returned
  }

  /** `ok` is the outcome of the fallible call at this point, `statuses` what the status poll finally saw. */
  function ManagerMoves(c: Cluster, s: State, g: nat, m: Manager, ok: bool, statuses: Option<seq<Status>>): State {
    var (s', m') := ManagerNext(c, s, m, ok, statuses);
    s'.(managers := s.managers[g := m'])
  }

  function ManagerNext(c: Cluster, s: State, m: Manager, ok: bool, statuses: Option<seq<Status>>): (State, Manager) {
    match m
    case Starting(snap) =>
      if !snap.annotated || !Requests(c.Spec(snap.pod)) then (s, Ended)
      else if snap.flag.SaysTrue? && !Lookup(s.maps.done, snap.pod, false) then (s, AwaitingStatus(snap.pod))
      else (s, CheckingVisited(snap.pod))
    case AwaitingStatus(pod) =>
      (s, if statuses.Some? then Recording(pod, statuses.value) else Ended)
    case Recording(pod, sts) =>
      (s.(maps := RecordAll(s.maps, pod, sts)), if AnyStarted(sts) then Listing(pod) else Ended)
    case Listing(pod) =>
      (s, Writing(pod, Lookup(s.maps.uidsOfPod, pod, []), 0))
    case Writing(pod, uids, next) =>
      if next >= |uids| then (s, Finishing(pod))
      else
        var key := if c.cgroupV2 then Lookup(s.maps.nameByUid, uids[next], "") else uids[next];
        (s, Reading(pod, uids, next, key))
    case Reading(pod, uids, next, key) =>
      (s, Filing(pod, uids, next, key, Lookup(s.maps.coreRequest, pod, 0), Lookup(s.maps.memRequest, pod, 0)))
    case Filing(pod, uids, next, key, core, mem) =>
      (if ok then s.(files := s.files[(pod, key) := ConfigOf(core, mem)]) else s, Writing(pod, uids, next + 1))
    case Finishing(pod) =>
      (s.(maps := MarkDone(s.maps, pod)), CheckingVisited(pod))
    case CheckingVisited(pod) =>
      (s, if Lookup(s.maps.visited, pod, false) then Ended else Visiting(pod))
    case Visiting(pod) =>
      (s.(maps := MarkVisited(s.maps, pod, c.Spec(pod))), MakingDir(pod))
    case MakingDir(pod) =>
      (s, if ok then Storing(pod) else Ended)
    case Storing(pod) =>
      (s.(maps := StoreRequest(s.maps, pod, c.paths, c.Spec(pod))), Fetching(pod))
    case Fetching(pod) =>
      (s, if ok && pod in s.api then MarkingReady(pod, s.api[pod]) else Ended)
    case MarkingReady(pod, copy) =>
      (if ok && pod in s.api then s.(api := s.api[pod := copy.(ready := true)]) else s, Ended)
    case Removing(snap) =>
      if !snap.annotated || snap.flag.Absent? then (s, Ended)
      else if !Lookup(s.maps.visited, snap.pod, false) then (s, Ended)
      else
        (s.(maps := Delete(s.maps, snap.pod), gone := s.gone + {snap.pod},
            files := map k | k in s.files && k.0 != snap.pod :: s.files[k]), Ended)
    case Ended => (s, Ended)
  }

  function AllocatorMoves(c: Cluster, s: State, a: nat, l: Allocator, ok: bool): State {
    var (s', l') := AllocatorNext(c, s, l, ok);
    s'.(allocators := s.allocators[a := l'])
  }

  /** A failed poll leaves the allocator waiting; giving up and failing are the `!ok` outcomes. */
  function AllocatorNext(c: Cluster, s: State, l: Allocator, ok: bool): (State, Allocator) {
    match l
    case AwaitingReady(pod) =>
      if !ok then (s, Returned)
      else if pod in s.api && s.api[pod].ready then (s, Charging(pod, s.api[pod]))
      else (s, l)
    case Charging(pod, copy) =>
      var core, mem := Sum(c.Spec(pod), GpuCore), Sum(c.Spec(pod), GpuMemory);
      var choice := Choose(c.labels, s.gpus, core, mem);
      if choice.NoMatch? || !ok then (s, Returned)
      else
        (s.(gpus := Grant(c.labels, s.gpus, core, mem),
            charges := s.charges + [ChargeEntry(pod, choice.index, core, mem)]), MarkingAssigned(pod, copy))
    case MarkingAssigned(pod, copy) =>
      if ok && pod in s.api then
        (s.(api := s.api[pod := copy.(flag := SaysTrue)], marked := s.marked + {pod}), Returned)
      else (s, Returned)
    case Returned => (s, Returned)
  }

  function Run(c: Cluster, s: State, es: seq<Event>): State {
    if es == [] then s else Apply(c, Run(c, s, es[..|es| - 1]), es[|es| - 1])
  }

  // ----- the invariant

  predicate Stored(c: Cluster, m: Maps, pod: string) {
    && pod in m.coreRequest && m.coreRequest[pod] == CoreQuota(c.paths, c.Spec(pod))
    && pod in m.memRequest && m.memRequest[pod] == MemQuota(c.paths, c.Spec(pod))
  }

  function FullConfig(c: Cluster, pod: string): Config {
    ConfigOf(CoreQuota(c.paths, c.Spec(pod)), MemQuota(c.paths, c.Spec(pod)))
  }

  ghost predicate Charged(charges: seq<ChargeEntry>, pod: string) {
    exists i :: 0 <= i < |charges| && charges[i].pod == pod
  }

  /** The full request is on record (or the pod's entries have been deleted). */
  ghost predicate HasRequest(c: Cluster, s: State, pod: string) {
    pod in s.gone || Stored(c, s.maps, pod)
  }

  /** Request on record, then charged, then marked. */
  ghost predicate Assigned(c: Cluster, s: State, pod: string) {
    HasRequest(c, s, pod) && Charged(s.charges, pod) && pod in s.marked
  }

  ghost predicate AnnotationsOk(c: Cluster, s: State, pod: string, a: Annotations) {
    (a.ready ==> HasRequest(c, s, pod)) && (a.flag.SaysTrue? ==> Assigned(c, s, pod))
  }

  ghost predicate SnapshotOk(c: Cluster, s: State, snap: Snapshot) {
    snap.flag.SaysTrue? ==> Assigned(c, s, snap.pod)
  }

  ghost predicate ManagerOk(c: Cluster, s: State, m: Manager) {
    match m
    case Starting(snap) => SnapshotOk(c, s, snap)
    case AwaitingStatus(pod) => Assigned(c, s, pod)
    case Recording(pod, _) => Assigned(c, s, pod)
    case Listing(pod) => Assigned(c, s, pod)
    case Writing(pod, _, _) => Assigned(c, s, pod)
    case Reading(pod, _, _, _) => Assigned(c, s, pod)
    case Filing(pod, _, _, _, core, mem) =>
      && Assigned(c, s, pod)
      && (pod in s.gone || (core == CoreQuota(c.paths, c.Spec(pod)) && mem == MemQuota(c.paths, c.Spec(pod))))
    case Fetching(pod) => HasRequest(c, s, pod)
    case MarkingReady(pod, copy) => HasRequest(c, s, pod) && AnnotationsOk(c, s, pod, copy)
    case _ => true
  }

  ghost predicate AllocatorOk(c: Cluster, s: State, l: Allocator) {
    match l
    case Charging(pod, copy) => HasRequest(c, s, pod) && AnnotationsOk(c, s, pod, copy)
    case MarkingAssigned(pod, copy) =>
      HasRequest(c, s, pod) && Charged(s.charges, pod) && AnnotationsOk(c, s, pod, copy)
    case _ => true
  }

  ghost predicate FileOk(c: Cluster, s: State, pod: string, config: Config) {
    && Charged(s.charges, pod) && pod in s.marked
    && (pod in s.gone || config == FullConfig(c, pod))
  }

  ghost predicate Inv(c: Cluster, s: State) {
    && (forall p :: p in s.api ==> AnnotationsOk(c, s, p, s.api[p]))
    && (forall i :: 0 <= i < |s.events| ==> SnapshotOk(c, s, s.events[i]))
    && (forall g :: g in s.managers ==> ManagerOk(c, s, s.managers[g]))
    && (forall a :: a in s.allocators ==> AllocatorOk(c, s, s.allocators[a]))
    && (forall k :: k in s.files ==> FileOk(c, s, k.0, s.files[k]))
    && (forall p :: p in s.marked ==> Charged(s.charges, p))
  }

  // ----- steps only add to what is known

  /** `s'` keeps every fact the invariant rests on. */
  ghost predicate Grows(c: Cluster, s: State, s': State) {
    && s.gone <= s'.gone && s.marked <= s'.marked && s.charges <= s'.charges
    && forall p :: HasRequest(c, s, p) ==> HasRequest(c, s', p)
  }

  lemma ChargedGrows(charges: seq<ChargeEntry>, more: seq<ChargeEntry>, pod: string)
    requires charges <= more && Charged(charges, pod)
    ensures Charged(more, pod)
  {
    var i :| 0 <= i < |charges| && charges[i].pod == pod;
    assert more[i].pod == pod;
  }

  lemma FactsCarryOver(c: Cluster, s: State, s': State)
    requires Grows(c, s, s')
    ensures forall p :: Charged(s.charges, p) ==> Charged(s'.charges, p)
    ensures forall p :: Assigned(c, s, p) ==> Assigned(c, s', p)
    ensures forall p, a :: AnnotationsOk(c, s, p, a) ==> AnnotationsOk(c, s', p, a)
    ensures forall snap :: SnapshotOk(c, s, snap) ==> SnapshotOk(c, s', snap)
    ensures forall m :: ManagerOk(c, s, m) ==> ManagerOk(c, s', m)
    ensures forall l :: AllocatorOk(c, s, l) ==> AllocatorOk(c, s', l)
    ensures forall p, f :: FileOk(c, s, p, f) ==> FileOk(c, s', p, f)
  {
    hide Stored;
    forall p | Charged(s.charges, p) ensures Charged(s'.charges, p) {
      ChargedGrows(s.charges, s'.charges, p);
    }
  }

  lemma DeleteKeepsOthers(c: Cluster, m: Maps, pod: string, other: string)
    requires other != pod && Stored(c, m, other)
    ensures Stored(c, Delete(m, pod), other)
  {
    hide Delete, ForgetAll, CoreQuota, MemQuota;
    if Lookup(m.visited, pod, false) {
      DeleteByMap(m, pod);
    } else {
      NothingToDelete(m, pod);
    }
  }

  lemma {:induction false} RecordKeepsRequests(m: Maps, pod: string, sts: seq<Status>)
    ensures RecordAll(m, pod, sts).coreRequest == m.coreRequest && RecordAll(m, pod, sts).memRequest == m.memRequest
  {
    if sts != [] {
      RecordKeepsRequests(m, pod, sts[..|sts| - 1]);
    }
  }

  lemma ManagerGrows(c: Cluster, s: State, m: Manager, ok: bool, statuses: Option<seq<Status>>)
    ensures Grows(c, s, ManagerNext(c, s, m, ok, statuses).0)
  {
    hide RecordAll, Delete, CoreQuota, MemQuota, ConfigOf;
    if m.Recording? {
      RecordKeepsRequests(s.maps, m.pod, m.statuses);
    } else if m.Removing? {
      forall p | HasRequest(c, s, p) ensures HasRequest(c, ManagerNext(c, s, m, ok, statuses).0, p) {
        if p != m.snap.pod && p !in s.gone {
          DeleteKeepsOthers(c, s.maps, m.snap.pod, p);
        }
      }
    }
  }

  lemma ManagerPointOk(c: Cluster, s: State, m: Manager, ok: bool, statuses: Option<seq<Status>>)
    requires Inv(c, s) && ManagerOk(c, s, m)
    ensures var (s', m') := ManagerNext(c, s, m, ok, statuses);
            ManagerOk(c, s', m')
  {
    hide RecordAll, Delete, CoreQuota, MemQuota, ConfigOf, FileOk, AllocatorOk;
    ManagerGrows(c, s, m, ok, statuses);
    var (s', m') := ManagerNext(c, s, m, ok, statuses);
    FactsCarryOver(c, s, s');
  }

  lemma ManagerAnnotationsOk(c: Cluster, s: State, m: Manager, ok: bool, statuses: Option<seq<Status>>)
    requires Inv(c, s) && ManagerOk(c, s, m)
    ensures var s' := ManagerNext(c, s, m, ok, statuses).0;
            forall p :: p in s'.api ==> AnnotationsOk(c, s', p, s'.api[p])
  {
    hide RecordAll, Delete, Stored, ConfigOf, FileOk, AllocatorOk, Charged;
    ManagerGrows(c, s, m, ok, statuses);
    FactsCarryOver(c, s, ManagerNext(c, s, m, ok, statuses).0);
  }

  lemma ManagerFilesOk(c: Cluster, s: State, m: Manager, ok: bool, statuses: Option<seq<Status>>)
    requires Inv(c, s) && ManagerOk(c, s, m)
    ensures var s' := ManagerNext(c, s, m, ok, statuses).0;
            forall k :: k in s'.files ==> FileOk(c, s', k.0, s'.files[k])
  {
    hide RecordAll, Delete, CoreQuota, MemQuota, ConfigOf, AllocatorOk, Charged, Stored;
    ManagerGrows(c, s, m, ok, statuses);
    FactsCarryOver(c, s, ManagerNext(c, s, m, ok, statuses).0);
  }

  lemma ManagerKeepsInv(c: Cluster, s: State, g: nat, ok: bool, statuses: Option<seq<Status>>)
    requires Inv(c, s) && g in s.managers
    ensures Inv(c, ManagerMoves(c, s, g, s.managers[g], ok, statuses))
  {
    var m := s.managers[g];
    var (mid, m') := ManagerNext(c, s, m, ok, statuses);
    var s' := ManagerMoves(c, s, g, m, ok, statuses);
    ManagerGrows(c, s, m, ok, statuses);
    ManagerPointOk(c, s, m, ok, statuses);
    ManagerAnnotationsOk(c, s, m, ok, statuses);
    ManagerFilesOk(c, s, m, ok, statuses);
    assert Grows(c, mid, s');
    assert Grows(c, s, s');
    hide ManagerNext, ManagerOk, AllocatorOk, FileOk, SnapshotOk, AnnotationsOk, HasRequest;
    FactsCarryOver(c, s, s');
    FactsCarryOver(c, mid, s');
    Untouched(c, s, m, ok, statuses);
  }

  lemma Untouched(c: Cluster, s: State, m: Manager, ok: bool, statuses: Option<seq<Status>>)
    ensures var s' := ManagerNext(c, s, m, ok, statuses).0;
            s'.events == s.events && s'.allocators == s.allocators && s'.managers == s.managers
            && s'.marked == s.marked && s'.charges == s.charges && s'.gpus == s.gpus
  {
  }

  /** One allocator step: it only adds facts, and its next point and the annotations stay sound. */
  lemma AllocatorNextOk(c: Cluster, s: State, l: Allocator, ok: bool)
    requires Inv(c, s) && AllocatorOk(c, s, l)
    ensures var (s', l') := AllocatorNext(c, s, l, ok);
            && Grows(c, s, s') && AllocatorOk(c, s', l')
            && s' == s.(api := s'.api, gpus := s'.gpus, charges := s'.charges, marked := s'.marked)
            && (forall p :: p in s'.api ==> AnnotationsOk(c, s', p, s'.api[p]))
            && (forall p :: p in s'.marked ==> Charged(s'.charges, p))
  {
    hide Sum, Choose, Grant, CoreQuota, MemQuota;
    var (s', l') := AllocatorNext(c, s, l, ok);
    if l.Charging? && s'.charges != s.charges {
      assert s'.charges[|s.charges|].pod == l.pod;
    }
    FactsCarryOver(c, s, s');
  }

  lemma AllocatorKeepsInv(c: Cluster, s: State, a: nat, ok: bool)
    requires Inv(c, s) && a in s.allocators
    ensures Inv(c, AllocatorMoves(c, s, a, s.allocators[a], ok))
  {
    var (mid, l') := AllocatorNext(c, s, s.allocators[a], ok);
    var s' := AllocatorMoves(c, s, a, s.allocators[a], ok);
    AllocatorNextOk(c, s, s.allocators[a], ok);
    hide AllocatorNext, ManagerOk, AllocatorOk, FileOk, SnapshotOk, AnnotationsOk, Charged, Stored;
    assert Grows(c, mid, s');
    assert Grows(c, s, s');
    FactsCarryOver(c, s, s');
    FactsCarryOver(c, mid, s');
  }

  lemma EnvironmentKeepsInv(c: Cluster, s: State, e: Event)
    requires Inv(c, s) && !e.ManagerStep? && !e.AllocatorStep?
    ensures Inv(c, Apply(c, s, e))
  {
    hide Confirmed;
    var s' := Apply(c, s, e);
    assert Grows(c, s, s');
    hide Stored, Charged, FileOk;
    FactsCarryOver(c, s, s');
  }

  lemma InitialInv(c: Cluster, gpus: seq<GpuRecord>)
    ensures Inv(c, Initial(gpus))
  {
  }

  lemma {:induction false} RunKeepsInv(c: Cluster, gpus: seq<GpuRecord>, es: seq<Event>)
    ensures Inv(c, Run(c, Initial(gpus), es))
  {
    hide ManagerMoves, AllocatorMoves, Inv;
    if es == [] {
      InitialInv(c, gpus);
    } else {
      var s, e := Run(c, Initial(gpus), es[..|es| - 1]), es[|es| - 1];
      RunKeepsInv(c, gpus, es[..|es| - 1]);
      match e {
        case ManagerStep(g, ok, statuses) => if g in s.managers { ManagerKeepsInv(c, s, g, ok, statuses); }
        case AllocatorStep(a, ok) => if a in s.allocators { AllocatorKeepsInv(c, s, a, ok); }
        case _ => EnvironmentKeepsInv(c, s, e);
      }
    }
  }

  // ----- never a partial quota

  /** Both totals are stored, in full, or neither is. */
  predicate FullOrAbsent(c: Cluster, m: Maps, pod: string) {
    Stored(c, m, pod) || (pod !in m.coreRequest && pod !in m.memRequest)
  }

  predicate FullOrZero(c: Cluster, pod: string, core: int, mem: int) {
    (core == CoreQuota(c.paths, c.Spec(pod)) && mem == MemQuota(c.paths, c.Spec(pod))) || (core == 0 && mem == 0)
  }

  predicate FullOrZeroFile(c: Cluster, pod: string, config: Config) {
    config == FullConfig(c, pod) || config == ConfigOf(0, 0)
  }

  ghost predicate MapsFull(c: Cluster, m: Maps) {
    forall p :: FullOrAbsent(c, m, p)
  }

  predicate ManagerFull(c: Cluster, m: Manager) {
    m.Filing? ==> FullOrZero(c, m.pod, m.core, m.mem)
  }

  ghost predicate ManagersFull(c: Cluster, managers: map<nat, Manager>) {
    forall g :: g in managers ==> ManagerFull(c, managers[g])
  }

  ghost predicate FilesFull(c: Cluster, files: map<(string, string), Config>) {
    forall k :: k in files ==> FullOrZeroFile(c, k.0, files[k])
  }

  ghost predicate NeverPartial(c: Cluster, s: State) {
    MapsFull(c, s.maps) && ManagersFull(c, s.managers) && FilesFull(c, s.files)
  }

  lemma DeleteKeepsFullOrAbsent(c: Cluster, m: Maps, pod: string)
    requires MapsFull(c, m)
    ensures MapsFull(c, Delete(m, pod))
  {
    hide Delete, CoreQuota, MemQuota;
    if Lookup(m.visited, pod, false) {
      DeleteByMap(m, pod);
      forall p ensures FullOrAbsent(c, Delete(m, pod), p) {
        assert FullOrAbsent(c, m, p);
      }
    } else {
      NothingToDelete(m, pod);
    }
  }

  lemma ManagerMapsFull(c: Cluster, s: State, m: Manager, ok: bool, statuses: Option<seq<Status>>)
    requires MapsFull(c, s.maps)
    ensures MapsFull(c, ManagerNext(c, s, m, ok, statuses).0.maps)
  {
    hide RecordAll, Delete, CoreQuota, MemQuota, ConfigOf, MapsFull;
    var maps := ManagerNext(c, s, m, ok, statuses).0.maps;
    if m.Removing? {
      DeleteKeepsFullOrAbsent(c, s.maps, m.snap.pod);
    } else {
      if m.Recording? {
        RecordKeepsRequests(s.maps, m.pod, m.statuses);
      }
      RequestsKeepFull(c, s.maps, maps, if m.Storing? then m.pod else "");
    }
  }

  /** Only `pod`'s entries may differ, and then they are full. */
  lemma RequestsKeepFull(c: Cluster, m: Maps, m': Maps, pod: string)
    requires MapsFull(c, m)
    requires || (m'.coreRequest == m.coreRequest && m'.memRequest == m.memRequest)
             || (m'.coreRequest == m.coreRequest[pod := CoreQuota(c.paths, c.Spec(pod))]
                 && m'.memRequest == m.memRequest[pod := MemQuota(c.paths, c.Spec(pod))])
    ensures MapsFull(c, m')
  {
    hide CoreQuota, MemQuota;
    forall p ensures FullOrAbsent(c, m', p) {
      assert FullOrAbsent(c, m, p);
    }
  }

  lemma ManagerNextFull(c: Cluster, s: State, m: Manager, ok: bool, statuses: Option<seq<Status>>)
    requires MapsFull(c, s.maps)
    ensures ManagerFull(c, ManagerNext(c, s, m, ok, statuses).1)
  {
    hide RecordAll, Delete, CoreQuota, MemQuota, ConfigOf;
    if m.Reading? {
      assert FullOrAbsent(c, s.maps, m.pod);
    }
  }

  lemma ManagerFilesFull(c: Cluster, s: State, m: Manager, ok: bool, statuses: Option<seq<Status>>)
    requires FilesFull(c, s.files) && ManagerFull(c, m)
    ensures FilesFull(c, ManagerNext(c, s, m, ok, statuses).0.files)
  {
    hide RecordAll, Delete, CoreQuota, MemQuota, ConfigOf;
  }

  lemma ManagerNeverPartial(c: Cluster, s: State, g: nat, ok: bool, statuses: Option<seq<Status>>)
    requires NeverPartial(c, s) && g in s.managers
    ensures NeverPartial(c, ManagerMoves(c, s, g, s.managers[g], ok, statuses))
  {
    hide ManagerNext, MapsFull, ManagerFull, FilesFull;
    ManagerMapsFull(c, s, s.managers[g], ok, statuses);
    ManagerNextFull(c, s, s.managers[g], ok, statuses);
    ManagerFilesFull(c, s, s.managers[g], ok, statuses);
  }

  lemma OthersNeverPartial(c: Cluster, s: State, e: Event)
    requires NeverPartial(c, s) && !e.ManagerStep?
    ensures NeverPartial(c, Apply(c, s, e))
  {
    hide ManagerMoves, AllocatorNext, MapsFull, FilesFull, Confirmed;
    if e.AllocatorStep? && e.a in s.allocators {
      AllocatorLeavesRest(c, s, s.allocators[e.a], e.ok);
    }
  }

  lemma {:induction false} RunNeverPartial(c: Cluster, gpus: seq<GpuRecord>, es: seq<Event>)
    ensures NeverPartial(c, Run(c, Initial(gpus), es))
  {
    if es != [] {
      hide ManagerMoves, AllocatorMoves, NeverPartial;
      var s, e := Run(c, Initial(gpus), es[..|es| - 1]), es[|es| - 1];
      RunNeverPartial(c, gpus, es[..|es| - 1]);
      if e.ManagerStep? {
        if e.g in s.managers {
          ManagerNeverPartial(c, s, e.g, e.ok, e.statuses);
        }
      } else {
        OthersNeverPartial(c, s, e);
      }
    }
  }

  lemma AllocatorLeavesRest(c: Cluster, s: State, l: Allocator, ok: bool)
    ensures var s' := AllocatorNext(c, s, l, ok).0;
            s'.maps == s.maps && s'.managers == s.managers && s'.files == s.files && s'.events == s.events
            && s'.removals == s.removals && s'.created == s.created && s'.api.Keys == s.api.Keys
  {
    hide Sum, Choose, Grant;
  }

  /**
   * Handshake safety: over every interleaving a quota file carries the pod's
   * full summed core and memory limits or none of them, never a part; it can
   * be empty only once the pod's entries have been deleted; and its pod has
   * been marked assigned, and before that charged.
   */
  lemma FilesCarryFullQuota(c: Cluster, gpus: seq<GpuRecord>, es: seq<Event>, pod: string, key: string)
    requires (pod, key) in Run(c, Initial(gpus), es).files
    ensures var s := Run(c, Initial(gpus), es);
            && Charged(s.charges, pod) && pod in s.marked
            && FullOrZeroFile(c, pod, s.files[(pod, key)])
            && (pod !in s.gone ==> s.files[(pod, key)] == FullConfig(c, pod))
  {
    hide ConfigOf, CoreQuota, MemQuota;
    RunKeepsInv(c, gpus, es);
    RunNeverPartial(c, gpus, es);
    var s := Run(c, Initial(gpus), es);
    assert FileOk(c, s, (pod, key).0, s.files[(pod, key)]);
    assert FullOrZeroFile(c, (pod, key).0, s.files[(pod, key)]);
  }

  /** The order behind it: an assigned mark means a charge and a stored request, a ready mark a stored request. */
  lemma MarksAreOrdered(c: Cluster, gpus: seq<GpuRecord>, es: seq<Event>, pod: string)
    ensures var s := Run(c, Initial(gpus), es);
            && (pod in s.marked ==> Charged(s.charges, pod))
            && (pod in s.api && pod !in s.gone ==>
                  && (s.api[pod].ready ==> Stored(c, s.maps, pod))
                  && (s.api[pod].flag.SaysTrue? ==> Stored(c, s.maps, pod) && Charged(s.charges, pod)))
  {
    RunKeepsInv(c, gpus, es);
    var s := Run(c, Initial(gpus), es);
    if pod in s.api {
      assert AnnotationsOk(c, s, pod, s.api[pod]);
    }
  }
}
