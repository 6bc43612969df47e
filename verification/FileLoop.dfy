/** The loop that files the quotas: every container a goroutine listed is attempted, in order, and under its own key. */
module FileLoop {
  import opened Pods
  import opened PodMaps
  import opened GpuAccounting
  import opened Handshake

  /** A container of a pod, as the loop sees it. */
  datatype Target = Target(pod: string, uid: string)

  /** One attempt to write a quota file, and its outcome. */
  datatype Attempt = Attempt(target: Target, key: string, ok: bool)

  /** The event moves goroutine `g`. */
  predicate Steps(s: State, e: Event, g: nat) {
    e.ManagerStep? && e.g == g && g in s.managers
  }

  function AttemptNow(s: State, e: Event, g: nat): (now: seq<Attempt>)
    ensures |now| <= 1
  {
    if Steps(s, e, g) && s.managers[g].Filing? && s.managers[g].next < |s.managers[g].uids| then
      var m := s.managers[g];
      [Attempt(Target(m.pod, m.uids[m.next]), m.key, e.ok)]
    else []
  }

  /** What goroutine `g` has tried to write, in order. */
  function Attempts(c: Cluster, s: State, es: seq<Event>, g: nat): seq<Attempt> {
    if es == [] then []
    else
      var before := es[..|es| - 1];
      Attempts(c, s, before, g) + AttemptNow(Run(c, s, before), es[|es| - 1], g)
  }

  function Targets(pod: string, uids: seq<string>): (ts: seq<Target>)
    ensures |ts| == |uids|
    ensures forall i :: 0 <= i < |uids| ==> ts[i] == Target(pod, uids[i])
  {
    seq(|uids|, i requires 0 <= i < |uids| => Target(pod, uids[i]))
  }

  function ListedNow(s: State, e: Event, g: nat): seq<Target> {
    if Steps(s, e, g) && s.managers[g].Listing? then
      Targets(s.managers[g].pod, Lookup(s.maps.uidsOfPod, s.managers[g].pod, []))
    else []
  }

  /** The containers goroutine `g` read from its pod's list. */
  function Listed(c: Cluster, s: State, es: seq<Event>, g: nat): seq<Target> {
    if es == [] then []
    else
      var before := es[..|es| - 1];
      Listed(c, s, before, g) + ListedNow(Run(c, s, before), es[|es| - 1], g)
  }

  // ----- the loop attempts what was listed

  /** The attempts are for the first `n` listed containers, in order. */
  predicate Covers(log: seq<Attempt>, listed: seq<Target>, n: nat) {
    |log| == n <= |listed| && forall i :: 0 <= i < n ==> log[i].target == listed[i]
  }

  /** Not yet at the list. */
  predicate Early(m: Manager) {
    m.Starting? || m.AwaitingStatus? || m.Recording? || m.Listing? || m.Removing?
  }

  predicate InLoop(m: Manager) {
    m.Writing? || m.Reading? || m.Filing?
  }

  /** Nothing before the list; in the loop, what lies before its position is attempted; after it, everything. */
  predicate OnTrack(s: State, g: nat, log: seq<Attempt>, listed: seq<Target>) {
    if g !in s.managers || Early(s.managers[g]) then log == [] && listed == []
    else if InLoop(s.managers[g]) then InsideLoop(s.managers[g], log, listed)
    else Covers(log, listed, |listed|)
  }

  predicate InsideLoop(m: Manager, log: seq<Attempt>, listed: seq<Target>)
    requires InLoop(m)
  {
    && listed == Targets(m.pod, m.uids) && Covers(log, listed, m.next)
    && (!m.Writing? ==> m.next < |m.uids|)
  }

  /** One step of a goroutine, as far as the loop is concerned. */
  lemma LoopStep(c: Cluster, s: State, m: Manager, ok: bool, statuses: Option<seq<Status>>)
    ensures var m' := ManagerNext(c, s, m, ok, statuses).1;
            match m
            case Listing(pod) => m' == Writing(pod, Lookup(s.maps.uidsOfPod, pod, []), 0)
            case Writing(pod, uids, next) =>
              if next < |uids| then m'.Reading? && m'.pod == pod && m'.uids == uids && m'.next == next
              else m' == Finishing(pod)
            case Reading(pod, uids, next, key) =>
              m'.Filing? && m'.pod == pod && m'.uids == uids && m'.next == next && m'.key == key
            case Filing(pod, uids, next, _, _, _) => m' == Writing(pod, uids, next + 1)
            case _ => if Early(m) then Early(m') || (!InLoop(m') && !m'.Finishing?) else !Early(m') && !InLoop(m')
  {
    hide RecordAll, Delete, StoreRequest, MarkVisited, MarkDone, ConfigOf, Requests;
  }

  /** Other events leave a goroutine where it is, or start it. */
  lemma OthersLeave(c: Cluster, s: State, e: Event, g: nat)
    requires !Steps(s, e, g)
    ensures var s' := Apply(c, s, e);
            if g in s.managers then g in s'.managers && s'.managers[g] == s.managers[g]
            else g in s'.managers ==> Early(s'.managers[g])
  {
    hide ManagerNext, AllocatorNext, Confirmed;
    if e.ManagerStep? && e.g in s.managers {
      Untouched(c, s, s.managers[e.g], e.ok, e.statuses);
    } else if e.AllocatorStep? && e.a in s.allocators {
      AllocatorLeavesRest(c, s, s.allocators[e.a], e.ok);
    }
  }

  lemma OwnStep(c: Cluster, s: State, e: Event, g: nat)
    requires Steps(s, e, g)
    ensures var s' := Apply(c, s, e);
            g in s'.managers && s'.managers[g] == ManagerNext(c, s, s.managers[g], e.ok, e.statuses).1
  {
    hide ManagerNext;
  }

  lemma NothingNew<T>(log: seq<T>)
    ensures log + [] == log
  {
  }

  lemma CoversOneMore(log: seq<Attempt>, listed: seq<Target>, a: Attempt)
    requires Covers(log, listed, |log|) && |log| < |listed| && a.target == listed[|log|]
    ensures Covers(log + [a], listed, |log| + 1)
  {
  }

  /** What one step of a goroutine adds to its two records. */
  lemma OwnRecords(c: Cluster, s: State, e: Event, g: nat, log: seq<Attempt>, listed: seq<Target>)
    requires Steps(s, e, g) && OnTrack(s, g, log, listed)
    ensures var m' := ManagerNext(c, s, s.managers[g], e.ok, e.statuses).1;
            var log', listed' := log + AttemptNow(s, e, g), listed + ListedNow(s, e, g);
            if Early(m') then log' == [] && listed' == []
            else if InLoop(m') then InsideLoop(m', log', listed')
            else Covers(log', listed', |listed'|)
  {
    hide ManagerNext, Covers, Targets;
    var m := s.managers[g];
    LoopStep(c, s, m, e.ok, e.statuses);
    NothingNew(log);
    NothingNew(listed);
    NothingCovered();
    if InLoop(m) {
      CoversSize(log, listed, m.next);
    }
    if m.Filing? {
      CoversOneMore(log, listed, AttemptNow(s, e, g)[0]);
    } else if m.Listing? {
      assert [] + ListedNow(s, e, g) == ListedNow(s, e, g);
    }
  }

  lemma NothingCovered()
    ensures forall listed :: Covers([], listed, 0)
  {
  }

  lemma CoversSize(log: seq<Attempt>, listed: seq<Target>, n: nat)
    requires Covers(log, listed, n)
    ensures |log| == n <= |listed|
  {
  }

  lemma StepOnTrack(c: Cluster, s: State, e: Event, g: nat, log: seq<Attempt>, listed: seq<Target>)
    requires OnTrack(s, g, log, listed)
    ensures OnTrack(Apply(c, s, e), g, log + AttemptNow(s, e, g), listed + ListedNow(s, e, g))
  {
    hide ManagerNext, Apply, InsideLoop, Covers, Early, InLoop;
    if Steps(s, e, g) {
      OwnRecords(c, s, e, g, log, listed);
      OwnStep(c, s, e, g);
    } else {
      OthersLeave(c, s, e, g);
      NothingNew(log);
      NothingNew(listed);
    }
  }

  lemma {:induction false} RunOnTrack(c: Cluster, gpus: seq<GpuRecord>, es: seq<Event>, g: nat)
    ensures OnTrack(Run(c, Initial(gpus), es), g, Attempts(c, Initial(gpus), es, g), Listed(c, Initial(gpus), es, g))
  {
    if es != [] {
      hide Apply, OnTrack, AttemptNow, ListedNow;
      var start, before := Initial(gpus), es[..|es| - 1];
      RunOnTrack(c, gpus, before, g);
      StepOnTrack(c, Run(c, start, before), es[|es| - 1], g,
                  Attempts(c, start, before, g), Listed(c, start, before, g));
    }
  }

  /**
   * Over every interleaving, a goroutine that has reached the end of the loop,
   * or gone beyond it, has attempted the file of each container it listed, in
   * order and once; inside the loop, of those before its position.
   */
  lemma EveryListedIsAttempted(c: Cluster, gpus: seq<GpuRecord>, es: seq<Event>, g: nat)
    ensures var s, log := Run(c, Initial(gpus), es), Attempts(c, Initial(gpus), es, g);
            var listed := Listed(c, Initial(gpus), es, g);
            && |log| <= |listed| && (forall i :: 0 <= i < |log| ==> log[i].target == listed[i])
            && (g in s.managers && s.managers[g].Writing? ==> |log| == s.managers[g].next)
            && (g in s.managers && !InLoop(s.managers[g]) ==> |log| == |listed|)
  {
    hide Run, Attempts, Listed;
    RunOnTrack(c, gpus, es, g);
  }

  // ----- a successful attempt leaves the full file

  /** The file of a successful attempt is there, unless its pod's entries have been deleted. */
  predicate Left(s: State, a: Attempt) {
    a.ok && a.target.pod !in s.gone ==> (a.target.pod, a.key) in s.files
  }

  lemma StepKeepsFiles(c: Cluster, s: State, e: Event)
    ensures var s' := Apply(c, s, e);
            && s.gone <= s'.gone
            && forall k :: k in s.files && k.0 !in s'.gone ==> k in s'.files
  {
    hide AllocatorNext, Confirmed, ConfigOf, RecordAll, Delete, StoreRequest, MarkVisited, MarkDone, Requests;
    if e.ManagerStep? && e.g in s.managers {
      ManagerKeepsFiles(c, s, s.managers[e.g], e.ok, e.statuses);
    } else if e.AllocatorStep? && e.a in s.allocators {
      AllocatorLeavesGone(c, s, s.allocators[e.a], e.ok);
    }
  }

  lemma ManagerKeepsFiles(c: Cluster, s: State, m: Manager, ok: bool, statuses: Option<seq<Status>>)
    ensures var s' := ManagerNext(c, s, m, ok, statuses).0;
            && s.gone <= s'.gone
            && forall k :: k in s.files && k.0 !in s'.gone ==> k in s'.files
  {
    hide ConfigOf, RecordAll, Delete, StoreRequest, MarkVisited, MarkDone, Requests;
  }

  lemma AllocatorLeavesGone(c: Cluster, s: State, l: Allocator, ok: bool)
    ensures var s' := AllocatorNext(c, s, l, ok).0; s'.gone == s.gone && s'.files == s.files && s'.maps == s.maps
  {
    hide Sum, Choose, Grant;
  }

  lemma AttemptLeaves(c: Cluster, s: State, e: Event, g: nat)
    requires AttemptNow(s, e, g) != []
    ensures Left(Apply(c, s, e), AttemptNow(s, e, g)[0])
  {
    hide ConfigOf;
  }

  predicate AllLeft(s: State, log: seq<Attempt>) {
    forall i :: 0 <= i < |log| ==> Left(s, log[i])
  }

  lemma AllLeftStays(s: State, s': State, log: seq<Attempt>)
    requires AllLeft(s, log) && s.gone <= s'.gone
    requires forall k :: k in s.files && k.0 !in s'.gone ==> k in s'.files
    ensures AllLeft(s', log)
  {
    forall i | 0 <= i < |log| ensures Left(s', log[i]) {
      assert Left(s, log[i]);
      var k := (log[i].target.pod, log[i].key);
      assert k in s.files && k.0 !in s'.gone ==> k in s'.files;
    }
  }

  lemma AllLeftAppend(s: State, log: seq<Attempt>, now: seq<Attempt>)
    requires AllLeft(s, log) && |now| <= 1 && (now != [] ==> Left(s, now[0]))
    ensures AllLeft(s, log + now)
  {
  }

  lemma {:induction false} AttemptsLeft(c: Cluster, gpus: seq<GpuRecord>, es: seq<Event>, g: nat)
    ensures AllLeft(Run(c, Initial(gpus), es), Attempts(c, Initial(gpus), es, g))
  {
    if es != [] {
      hide Apply, AttemptNow, Left, AllLeft;
      var start, before, last := Initial(gpus), es[..|es| - 1], es[|es| - 1];
      var s := Run(c, start, before);
      var now := AttemptNow(s, last, g);
      AttemptsLeft(c, gpus, before, g);
      StepKeepsFiles(c, s, last);
      AllLeftStays(s, Apply(c, s, last), Attempts(c, start, before, g));
      if now != [] {
        AttemptLeaves(c, s, last, g);
      }
      AllLeftAppend(Apply(c, s, last), Attempts(c, start, before, g), now);
    }
  }

  // ----- under its own key

  /** What the statuses show is what the world is, for the pod that polls them. */
  ghost predicate ObservedNow(w: World, s: State, e: Event) {
    e.ManagerStep? && e.g in s.managers && s.managers[e.g].AwaitingStatus? && e.statuses.Some? ==>
      Observable(w, s.managers[e.g].pod, e.statuses.value)
  }

  ghost predicate Observed(c: Cluster, w: World, s: State, es: seq<Event>) {
    es == [] || (Observed(c, w, s, es[..|es| - 1]) && ObservedNow(w, Run(c, s, es[..|es| - 1]), es[|es| - 1]))
  }

  /** A container's own key: its id under cgroup v1, its name under v2. */
  function OwnKey(c: Cluster, w: World, uid: string): string {
    if c.cgroupV2 then Lookup(w.name, uid, "") else uid
  }

  /** The statuses to record are real, the listed uids still listed, and the key at hand the container's own. */
  ghost predicate Faithful(c: Cluster, w: World, s: State, m: Manager) {
    match m
    case Recording(pod, sts) => Observable(w, pod, sts)
    case Writing(pod, uids, _) => StillListed(s, pod, uids)
    case Reading(pod, uids, next, key) => StillListed(s, pod, uids) && OwnKeyAt(c, w, s, pod, uids, next, key)
    case Filing(pod, uids, next, key, _, _) => OwnKeyAt(c, w, s, pod, uids, next, key) && StillListed(s, pod, uids)
    case _ => true
  }

  predicate StillListed(s: State, pod: string, uids: seq<string>) {
    pod !in s.gone ==> forall i :: 0 <= i < |uids| ==> uids[i] in Lookup(s.maps.uidsOfPod, pod, [])
  }

  predicate OwnKeyAt(c: Cluster, w: World, s: State, pod: string, uids: seq<string>, next: nat, key: string) {
    pod !in s.gone && next < |uids| ==> key == OwnKey(c, w, uids[next])
  }

  ghost predicate WorldInv(c: Cluster, w: World, s: State) {
    Consistent(w, s.maps) && forall g :: g in s.managers ==> Faithful(c, w, s, s.managers[g])
  }

  /** Lists of pods whose entries remain only grow. */
  ghost predicate ListsGrow(s: State, s': State) {
    && s.gone <= s'.gone
    && forall p, u :: p !in s'.gone && u in Lookup(s.maps.uidsOfPod, p, []) ==> u in Lookup(s'.maps.uidsOfPod, p, [])
  }

  lemma FaithfulCarries(c: Cluster, w: World, s: State, s': State, m: Manager)
    requires ListsGrow(s, s') && Faithful(c, w, s, m)
    ensures Faithful(c, w, s', m)
  {
    hide Observable, OwnKey;
  }

  lemma ManagerListsGrow(c: Cluster, s: State, m: Manager, ok: bool, statuses: Option<seq<Status>>)
    ensures ListsGrow(s, ManagerNext(c, s, m, ok, statuses).0)
  {
    hide RecordAll, Delete, CoreQuota, MemQuota, ConfigOf, Requests, StartedUids;
    if m.Recording? {
      RecordListsStarted(s.maps, m.pod, m.statuses);
    } else if m.Removing? && Lookup(s.maps.visited, m.snap.pod, false) {
      DeleteByMap(s.maps, m.snap.pod);
    }
  }

  lemma ManagerConsistent(c: Cluster, w: World, s: State, m: Manager, ok: bool, statuses: Option<seq<Status>>)
    requires Consistent(w, s.maps) && Faithful(c, w, s, m)
    ensures Consistent(w, ManagerNext(c, s, m, ok, statuses).0.maps)
  {
    hide RecordAll, Delete, CoreQuota, MemQuota, ConfigOf, Requests, Observable;
    if m.Recording? {
      RecordKeepsConsistent(w, s.maps, m.pod, m.statuses);
    } else if m.Removing? {
      DeleteKeepsConsistent(w, s.maps, m.snap.pod);
    }
  }

  lemma ListedHasName(w: World, m: Maps, pod: string, uid: string)
    requires Consistent(w, m) && uid in Lookup(m.uidsOfPod, pod, [])
    ensures Lookup(m.nameByUid, uid, "") == Lookup(w.name, uid, "")
  {
  }

  lemma ManagerFaithful(c: Cluster, w: World, s: State, m: Manager, ok: bool, statuses: Option<seq<Status>>)
    requires Consistent(w, s.maps) && Faithful(c, w, s, m)
    requires m.AwaitingStatus? && statuses.Some? ==> Observable(w, m.pod, statuses.value)
    ensures var (s', m') := ManagerNext(c, s, m, ok, statuses); Faithful(c, w, s', m')
  {
    hide RecordAll, Delete, CoreQuota, MemQuota, ConfigOf, Requests, Observable, Consistent;
    if m.Writing? && m.next < |m.uids| && m.pod !in s.gone {
      ListedHasName(w, s.maps, m.pod, m.uids[m.next]);
    }
  }

  lemma OtherEvent(c: Cluster, w: World, s: State, e: Event)
    requires WorldInv(c, w, s) && !e.ManagerStep?
    ensures WorldInv(c, w, Apply(c, s, e))
  {
    hide AllocatorNext, Confirmed, Consistent, Observable, OwnKey;
    if e.AllocatorStep? && e.a in s.allocators {
      AllocatorLeavesRest(c, s, s.allocators[e.a], e.ok);
      AllocatorLeavesGone(c, s, s.allocators[e.a], e.ok);
    }
  }

  lemma ManagerEvent(c: Cluster, w: World, s: State, e: Event)
    requires WorldInv(c, w, s) && e.ManagerStep? && e.g in s.managers && ObservedNow(w, s, e)
    ensures WorldInv(c, w, Apply(c, s, e))
  {
    hide ManagerNext, Consistent, Observable, Faithful;
    var m := s.managers[e.g];
    var (mid, m') := ManagerNext(c, s, m, e.ok, e.statuses);
    var s' := Apply(c, s, e);
    ManagerListsGrow(c, s, m, e.ok, e.statuses);
    ManagerConsistent(c, w, s, m, e.ok, e.statuses);
    ManagerFaithful(c, w, s, m, e.ok, e.statuses);
    Untouched(c, s, m, e.ok, e.statuses);
    FaithfulCarries(c, w, mid, s', m');
    forall g | g in s.managers ensures Faithful(c, w, s', s.managers[g]) {
      FaithfulCarries(c, w, s, s', s.managers[g]);
    }
  }

  lemma {:induction false} RunWorldInv(c: Cluster, w: World, gpus: seq<GpuRecord>, es: seq<Event>)
    requires Observed(c, w, Initial(gpus), es)
    ensures WorldInv(c, w, Run(c, Initial(gpus), es))
  {
    if es != [] {
      hide Apply, WorldInv, ObservedNow;
      var s, e := Run(c, Initial(gpus), es[..|es| - 1]), es[|es| - 1];
      RunWorldInv(c, w, gpus, es[..|es| - 1]);
      if !e.ManagerStep? {
        OtherEvent(c, w, s, e);
      } else if e.g in s.managers {
        ManagerEvent(c, w, s, e);
      } else {
        NothingHappens(c, s, e);
      }
    }
  }

  lemma NothingHappens(c: Cluster, s: State, e: Event)
    requires e.ManagerStep? && e.g !in s.managers
    ensures Apply(c, s, e) == s
  {
  }

  /** The attempt is made under the container's own key, unless its pod's entries have been deleted. */
  predicate OwnKeyed(c: Cluster, w: World, s: State, a: Attempt) {
    a.target.pod !in s.gone ==> a.key == OwnKey(c, w, a.target.uid)
  }

  lemma AttemptKeyed(c: Cluster, w: World, s: State, e: Event, g: nat)
    requires WorldInv(c, w, s) && AttemptNow(s, e, g) != []
    ensures OwnKeyed(c, w, s, AttemptNow(s, e, g)[0])
  {
    hide Consistent;
  }

  ghost predicate AllKeyed(c: Cluster, w: World, s: State, log: seq<Attempt>) {
    forall i :: 0 <= i < |log| ==> OwnKeyed(c, w, s, log[i])
  }

  lemma AllKeyedGoesOn(c: Cluster, w: World, s: State, s': State, log: seq<Attempt>, now: seq<Attempt>)
    requires AllKeyed(c, w, s, log) && s.gone <= s'.gone
    requires |now| <= 1 && (now != [] ==> OwnKeyed(c, w, s, now[0]))
    ensures AllKeyed(c, w, s', log + now)
  {
    forall i | 0 <= i < |log + now| ensures OwnKeyed(c, w, s', (log + now)[i]) {
      assert i < |log| ==> OwnKeyed(c, w, s, log[i]);
    }
  }

  lemma {:induction false} AttemptsKeyed(c: Cluster, w: World, gpus: seq<GpuRecord>, es: seq<Event>, g: nat)
    requires Observed(c, w, Initial(gpus), es)
    ensures AllKeyed(c, w, Run(c, Initial(gpus), es), Attempts(c, Initial(gpus), es, g))
  {
    if es != [] {
      hide Apply, AttemptNow, WorldInv, OwnKeyed, ObservedNow, AllKeyed;
      var start, before, last := Initial(gpus), es[..|es| - 1], es[|es| - 1];
      var s := Run(c, start, before);
      AttemptsKeyed(c, w, gpus, before, g);
      RunWorldInv(c, w, gpus, before);
      StepKeepsFiles(c, s, last);
      if AttemptNow(s, last, g) != [] {
        AttemptKeyed(c, w, s, last, g);
      }
      AllKeyedGoesOn(c, w, s, Apply(c, s, last), Attempts(c, start, before, g), AttemptNow(s, last, g));
    } else {
      assert Attempts(c, Initial(gpus), es, g) == [];
    }
  }

  /**
   * No container is left out: over every interleaving, once a goroutine is past
   * the loop and its pod's entries have not been deleted, each container it
   * listed whose write succeeded has a file, under its own key, with the pod's
   * full quota.
   */
  lemma EveryListedIsFiled(c: Cluster, w: World, gpus: seq<GpuRecord>, es: seq<Event>, g: nat, i: nat)
    requires Observed(c, w, Initial(gpus), es)
    requires var s := Run(c, Initial(gpus), es); g in s.managers && !InLoop(s.managers[g])
    requires i < |Listed(c, Initial(gpus), es, g)|
    ensures i < |Attempts(c, Initial(gpus), es, g)|
    ensures var s, a := Run(c, Initial(gpus), es), Attempts(c, Initial(gpus), es, g)[i];
            var t := Listed(c, Initial(gpus), es, g)[i];
            && a.target == t
            && (t.pod !in s.gone && a.ok ==>
                  (t.pod, OwnKey(c, w, t.uid)) in s.files
                  && s.files[(t.pod, OwnKey(c, w, t.uid))] == FullConfig(c, t.pod))
  {
    hide Run, Attempts, Listed, Observed, FullConfig, OwnKey, FullOrZeroFile;
    EveryListedIsAttempted(c, gpus, es, g);
    AttemptsLeft(c, gpus, es, g);
    AttemptsKeyed(c, w, gpus, es, g);
    var s, a := Run(c, Initial(gpus), es), Attempts(c, Initial(gpus), es, g)[i];
    if a.target.pod !in s.gone && a.ok {
      FilesCarryFullQuota(c, gpus, es, a.target.pod, a.key);
    }
  }
  // ----- from the polled statuses on

  function PolledNow(s: State, e: Event, g: nat): seq<Target> {
    if Steps(s, e, g) && s.managers[g].Recording? then
      Targets(s.managers[g].pod, StartedUids(s.managers[g].statuses))
    else []
  }

  /** The started containers in the statuses goroutine `g` recorded. */
  function Polled(c: Cluster, s: State, es: seq<Event>, g: nat): seq<Target> {
    if es == [] then []
    else
      var before := es[..|es| - 1];
      Polled(c, s, before, g) + PolledNow(Run(c, s, before), es[|es| - 1], g)
  }

  /** Until the list is read the polled containers are on it; from then on they are among those read. */
  predicate PolledOk(s: State, g: nat, polled: seq<Target>, listed: seq<Target>) {
    if g !in s.managers then polled == []
    else if s.managers[g].Listing? then AreListed(s, s.managers[g].pod, polled)
    else if Early(s.managers[g]) then polled == []
    else AreRead(s, polled, listed)
  }

  predicate AreListed(s: State, pod: string, polled: seq<Target>) {
    forall i :: 0 <= i < |polled| ==>
      polled[i].pod == pod && (pod !in s.gone ==> polled[i].uid in Lookup(s.maps.uidsOfPod, pod, []))
  }

  predicate AreRead(s: State, polled: seq<Target>, listed: seq<Target>) {
    forall i :: 0 <= i < |polled| ==> polled[i].pod !in s.gone ==> polled[i] in listed
  }

  lemma RecordingLists(c: Cluster, s: State, m: Manager, ok: bool, statuses: Option<seq<Status>>)
    requires m.Recording?
    ensures var (s', m') := ManagerNext(c, s, m, ok, statuses);
            && AreListed(s', m.pod, Targets(m.pod, StartedUids(m.statuses)))
            && (if StartedUids(m.statuses) != [] then m' == Listing(m.pod) else m' == Ended)
  {
    hide RecordAll, StartedUids;
    RecordListsStarted(s.maps, m.pod, m.statuses);
    StartedUidsIff(m.statuses);
  }

  lemma {:induction false} StartedUidsIff(sts: seq<Status>)
    ensures StartedUids(sts) != [] <==> AnyStarted(sts)
  {
    if sts != [] {
      var n := |sts| - 1;
      StartedUidsIff(sts[..n]);
      if AnyStarted(sts[..n]) {
        var i :| 0 <= i < n && sts[..n][i].uid != "" && sts[..n][i].name != "";
        assert sts[i].uid != "" && sts[i].name != "";
      }
      if AnyStarted(sts) {
        var i :| 0 <= i < |sts| && sts[i].uid != "" && sts[i].name != "";
        if i < n {
          assert sts[..n][i] == sts[i];
        }
      }
    }
  }

  lemma ListingReads(s: State, e: Event, g: nat, polled: seq<Target>)
    requires Steps(s, e, g) && s.managers[g].Listing? && AreListed(s, s.managers[g].pod, polled)
    ensures AreRead(s, polled, ListedNow(s, e, g))
  {
    var pod := s.managers[g].pod;
    var uids := Lookup(s.maps.uidsOfPod, pod, []);
    forall i | 0 <= i < |polled| && polled[i].pod !in s.gone ensures polled[i] in ListedNow(s, e, g) {
      var k :| 0 <= k < |uids| && uids[k] == polled[i].uid;
      assert ListedNow(s, e, g)[k] == polled[i];
    }
  }

  lemma ReadGoesOn(s: State, s': State, polled: seq<Target>, listed: seq<Target>, more: seq<Target>)
    requires AreRead(s, polled, listed) && s.gone <= s'.gone
    ensures AreRead(s', polled, listed + more)
  {
  }

  lemma ListedGoesOn(s: State, s': State, pod: string, polled: seq<Target>)
    requires AreListed(s, pod, polled) && ListsGrow(s, s')
    ensures AreListed(s', pod, polled)
  {
  }

  lemma StepListsGrow(c: Cluster, s: State, e: Event)
    ensures ListsGrow(s, Apply(c, s, e))
  {
    hide ManagerNext, AllocatorNext, Confirmed, ListsGrow;
    if e.ManagerStep? && e.g in s.managers {
      var mid := ManagerNext(c, s, s.managers[e.g], e.ok, e.statuses).0;
      ManagerListsGrow(c, s, s.managers[e.g], e.ok, e.statuses);
      SameLists(s, mid, Apply(c, s, e));
    } else {
      if e.AllocatorStep? && e.a in s.allocators {
        AllocatorLeavesGone(c, s, s.allocators[e.a], e.ok);
      }
      GrowsByNothing(s, Apply(c, s, e));
    }
  }

  lemma SameLists(s: State, mid: State, s': State)
    requires ListsGrow(s, mid) && s'.maps == mid.maps && s'.gone == mid.gone
    ensures ListsGrow(s, s')
  {
  }

  lemma GrowsByNothing(s: State, s': State)
    requires s'.maps == s.maps && s'.gone == s.gone
    ensures ListsGrow(s, s')
  {
  }

  /** The goroutine's own step. */
  lemma OwnPolled(c: Cluster, s: State, e: Event, g: nat, polled: seq<Target>, listed: seq<Target>)
    requires Steps(s, e, g) && PolledOk(s, g, polled, listed)
    ensures PolledOk(Apply(c, s, e), g, polled + PolledNow(s, e, g), listed + ListedNow(s, e, g))
  {
    hide ManagerNext, Apply, AreListed, AreRead, ListsGrow, Targets, StartedUids;
    var m, s' := s.managers[g], Apply(c, s, e);
    NothingNew(polled);
    NothingNew(listed);
    OwnStep(c, s, e, g);
    LoopStep(c, s, m, e.ok, e.statuses);
    StepListsGrow(c, s, e);
    GoneGrows(s, s');
    NothingRead(s', listed);
    if m.Recording? {
      var mid := ManagerNext(c, s, m, e.ok, e.statuses).0;
      RecordingLists(c, s, m, e.ok, e.statuses);
      OwnState(c, s, e, g);
      SameListed(mid, s', m.pod, PolledNow(s, e, g));
      assert [] + PolledNow(s, e, g) == PolledNow(s, e, g);
    } else if m.Listing? {
      ListingReads(s, e, g, polled);
      ReadAmong(s, s', polled, listed, ListedNow(s, e, g));
    } else if !Early(m) {
      ReadGoesOn(s, s', polled, listed, []);
    } else {
      EarlyStep(c, s, m, e.ok, e.statuses);
    }
  }

  lemma EarlyStep(c: Cluster, s: State, m: Manager, ok: bool, statuses: Option<seq<Status>>)
    requires m.Starting? || m.AwaitingStatus? || m.Removing?
    ensures !ManagerNext(c, s, m, ok, statuses).1.Listing?
  {
    hide Delete, Requests;
  }

  lemma GoneGrows(s: State, s': State)
    requires ListsGrow(s, s')
    ensures s.gone <= s'.gone
  {
  }

  lemma NothingRead(s: State, listed: seq<Target>)
    ensures AreRead(s, [], listed)
  {
  }

  lemma OwnState(c: Cluster, s: State, e: Event, g: nat)
    requires Steps(s, e, g)
    ensures var mid := ManagerNext(c, s, s.managers[g], e.ok, e.statuses).0;
            Apply(c, s, e).maps == mid.maps && Apply(c, s, e).gone == mid.gone
  {
    hide ManagerNext;
  }

  lemma SameListed(mid: State, s': State, pod: string, polled: seq<Target>)
    requires AreListed(mid, pod, polled) && s'.maps == mid.maps && s'.gone == mid.gone
    ensures AreListed(s', pod, polled)
  {
  }

  lemma ReadAmong(s: State, s': State, polled: seq<Target>, listed: seq<Target>, more: seq<Target>)
    requires AreRead(s, polled, more) && s.gone <= s'.gone
    ensures AreRead(s', polled, listed + more)
  {
  }

  lemma StepPolled(c: Cluster, s: State, e: Event, g: nat, polled: seq<Target>, listed: seq<Target>)
    requires PolledOk(s, g, polled, listed)
    ensures PolledOk(Apply(c, s, e), g, polled + PolledNow(s, e, g), listed + ListedNow(s, e, g))
  {
    if Steps(s, e, g) {
      OwnPolled(c, s, e, g, polled, listed);
    } else {
      hide ManagerNext, Apply, AreListed, AreRead, ListsGrow;
      OthersLeave(c, s, e, g);
      NothingNew(polled);
      NothingNew(listed);
      StepListsGrow(c, s, e);
      GoneGrows(s, Apply(c, s, e));
      NothingListed(Apply(c, s, e));
      if g in s.managers && s.managers[g].Listing? {
        ListedGoesOn(s, Apply(c, s, e), s.managers[g].pod, polled);
      } else if g in s.managers && !Early(s.managers[g]) {
        ReadGoesOn(s, Apply(c, s, e), polled, listed, []);
      }
    }
  }

  lemma NothingListed(s: State)
    ensures forall pod :: AreListed(s, pod, [])
  {
  }

  lemma {:induction false} RunPolled(c: Cluster, gpus: seq<GpuRecord>, es: seq<Event>, g: nat)
    ensures PolledOk(Run(c, Initial(gpus), es), g, Polled(c, Initial(gpus), es, g), Listed(c, Initial(gpus), es, g))
  {
    if es != [] {
      hide Apply, PolledOk, PolledNow, ListedNow;
      var start, before := Initial(gpus), es[..|es| - 1];
      RunPolled(c, gpus, before, g);
      StepPolled(c, Run(c, start, before), es[|es| - 1], g, Polled(c, start, before, g), Listed(c, start, before, g));
    }
  }

  /**
   * From the statuses to the files: over every interleaving, once a goroutine
   * is past the loop and its pod's entries have not been deleted, the file of
   * each started container it saw has been attempted, and each successful
   * attempt has left the pod's full quota under the container's own key.
   */
  lemma EveryStartedIsFiled(c: Cluster, w: World, gpus: seq<GpuRecord>, es: seq<Event>, g: nat, t: Target)
      returns (i: nat)
    requires Observed(c, w, Initial(gpus), es)
    requires var s := Run(c, Initial(gpus), es); g in s.managers && !InLoop(s.managers[g]) && !Early(s.managers[g])
    requires t in Polled(c, Initial(gpus), es, g) && t.pod !in Run(c, Initial(gpus), es).gone
    ensures i < |Attempts(c, Initial(gpus), es, g)|
    ensures var s, a := Run(c, Initial(gpus), es), Attempts(c, Initial(gpus), es, g)[i];
            && a.target == t
            && (a.ok ==> (t.pod, OwnKey(c, w, t.uid)) in s.files
                         && s.files[(t.pod, OwnKey(c, w, t.uid))] == FullConfig(c, t.pod))
  {
    hide Run, Attempts, Listed, Polled, Observed, FullConfig, OwnKey;
    RunPolled(c, gpus, es, g);
    i :| 0 <= i < |Listed(c, Initial(gpus), es, g)| && Listed(c, Initial(gpus), es, g)[i] == t;
    EveryListedIsFiled(c, w, gpus, es, g, i);
  }
}
