/** Runs of the handshake: to a quota file, to an empty one, and to an oversold device under the labels as written. */
module HandshakeRuns {
  import opened Arith
  import opened Pods
  import opened PodMaps
  import opened GpuAccounting
  import opened Handshake
  import opened DeviceQuota
  import PodMatching

  // ----- runs whose allocation requests are ones kubelet makes

  /** A container of a listed pod limits its cores to that many devices. */
  ghost predicate AskedByContainer(c: Cluster, pending: seq<string>, devices: nat) {
    exists i, k :: 0 <= i < |pending| && 0 <= k < |c.Spec(pending[i])|
                   && c.Spec(pending[i])[k].Limit(GpuCore) == devices > 0
  }

  /**
   * An allocation request is for the devices of one container of a pending
   * pod, and the listing is taken from the API server.
   */
  ghost predicate Genuine(c: Cluster, s: State, e: Event) {
    e.Allocate? ==>
      && Distinct(e.pending) && (forall i :: 0 <= i < |e.pending| ==> e.pending[i] in s.api)
      && AskedByContainer(c, e.pending, e.devices)
  }

  ghost predicate GenuineRun(c: Cluster, s: State, es: seq<Event>) {
    es == [] || (GenuineRun(c, s, es[..|es| - 1]) && Genuine(c, Run(c, s, es[..|es| - 1]), es[|es| - 1]))
  }

  ghost predicate Reaches(c: Cluster, s: State, s': State) {
    exists es :: Run(c, s, es) == s' && GenuineRun(c, s, es)
  }

  lemma Start(c: Cluster, s: State)
    ensures Reaches(c, s, s)
  {
    assert Run(c, s, []) == s;
  }

  lemma Then(c: Cluster, s: State, s': State, e: Event)
    requires Reaches(c, s, s') && Genuine(c, s', e)
    ensures Reaches(c, s, Apply(c, s', e))
  {
    hide Genuine, Apply;
    var es :| Run(c, s, es) == s' && GenuineRun(c, s, es);
    assert (es + [e])[..|es|] == es;
    assert Run(c, s, es + [e]) == Apply(c, s', e);
  }

  lemma {:induction false} RunSplits(c: Cluster, s: State, es: seq<Event>, more: seq<Event>)
    ensures Run(c, s, es + more) == Run(c, Run(c, s, es), more)
    ensures GenuineRun(c, s, es) && GenuineRun(c, Run(c, s, es), more) ==> GenuineRun(c, s, es + more)
  {
    if more == [] {
      assert es + more == es;
    } else {
      hide Genuine, Apply;
      assert (es + more)[..|es + more| - 1] == es + more[..|more| - 1];
      RunSplits(c, s, es, more[..|more| - 1]);
    }
  }

  lemma ReachesOn(c: Cluster, s1: State, s2: State, s3: State)
    requires Reaches(c, s1, s2) && Reaches(c, s2, s3)
    ensures Reaches(c, s1, s3)
  {
    hide Run, GenuineRun;
    var es :| Run(c, s1, es) == s2 && GenuineRun(c, s1, es);
    var more :| Run(c, s2, more) == s3 && GenuineRun(c, s2, more);
    RunSplits(c, s1, es, more);
  }

  // ----- the request that confirms a pod

  /** A request for the devices of container `container` of the pod at `at` in the listing. */
  datatype Ask = Ask(pending: seq<string>, at: nat, container: nat)

  /**
   * The request confirms its own pod `p`: the listed pods are at the API
   * server, those before `p` ask for no cores, and neither do the other
   * containers of `p`.
   */
  ghost predicate ConfirmsItself(c: Cluster, api: set<string>, p: string, q: Ask) {
    && Distinct(q.pending) && (forall i :: 0 <= i < |q.pending| ==> q.pending[i] in api)
    && PodMatching.AllNonNegative(Specs(c, q.pending))
    && q.at < |q.pending| && q.pending[q.at] == p && PodMatching.NoCores(Specs(c, q.pending), 0, q.at)
    && q.container < |c.Spec(p)| && c.Spec(p)[q.container].Limit(GpuCore) > 0
    && OthersAskNothing(c.Spec(p), q.container, GpuCore)
  }

  function RequestEvent(c: Cluster, a: nat, p: string, q: Ask): Event
    requires q.container < |c.Spec(p)| && c.Spec(p)[q.container].Limit(GpuCore) > 0
  {
    Allocate(a, q.pending, c.Spec(p)[q.container].Limit(GpuCore))
  }

  lemma RequestConfirms(c: Cluster, s: State, a: nat, p: string, q: Ask)
    requires ConfirmsItself(c, s.api.Keys, p, q)
    ensures Genuine(c, s, RequestEvent(c, a, p, q))
    ensures Confirmed(c, q.pending, c.Spec(p)[q.container].Limit(GpuCore)) == AwaitingReady(p)
  {
    hide PodMatching.Matches, PodMatching.Confirms;
    var pods := Specs(c, q.pending);
    PodMatching.ConfirmsRequesterIff(pods, q.at, q.container);
    PodMatching.MatchesExact(pods, pods[q.at][q.container].Limit(GpuCore), q.at);
  }

  /** A pod pending alone, with all its cores in one container, is confirmed by that container's request. */
  lemma AloneConfirms(c: Cluster, api: set<string>, p: string, k: nat)
    requires p in api && NonNegative(c.Spec(p)) && k < |c.Spec(p)|
    requires c.Spec(p)[k].Limit(GpuCore) > 0 && OthersAskNothing(c.Spec(p), k, GpuCore)
    ensures ConfirmsItself(c, api, p, Ask([p], 0, k))
  {
  }

  /** Nothing in the state knows the pod or the goroutines yet, and no event is queued. */
  predicate Fresh(s: State, p: string, g1: nat, g2: nat, a: nat) {
    && p !in s.created && p !in s.maps.visited && p !in s.maps.done && p !in s.maps.uidsOfPod
    && g1 != g2 && g1 !in s.managers && g2 !in s.managers && a !in s.allocators
    && s.events == []
  }

  function Registered(c: Cluster, s: State, p: string, g: nat): State {
    s.(api := s.api[p := Annotations(true, Absent)],
       created := s.created + {p},
       managers := s.managers[g := Ended],
       maps := StoreRequest(MarkVisited(s.maps, p, c.Spec(p)), p, c.paths, c.Spec(p)))
  }

  function Visited(c: Cluster, s: State, p: string, g: nat): State {
    s.(api := s.api[p := Annotations(false, Absent)],
       created := s.created + {p},
       managers := s.managers[g := Storing(p)],
       maps := MarkVisited(s.maps, p, c.Spec(p)))
  }

  lemma Visits(c: Cluster, s: State, p: string, g: nat)
    requires p !in s.created && p !in s.maps.visited && g !in s.managers && s.events == []
    requires Requests(c.Spec(p))
    ensures Reaches(c, s, Visited(c, s, p, g))
  {
    hide Run, Requests, MarkVisited, Reaches;
    Start(c, s);
    var s1 := Arrives(c, s, s, p, g, Absent);
    var step := ManagerStep(g, true, None);
    Then(c, s, s1, step);
    var s2 := Apply(c, s1, step);
    assert s2 == s1.(managers := s1.managers[g := CheckingVisited(p)]);
    VisitsUnseen(c, s2, p, g);
    assert s2.managers[g := Storing(p)] == s.managers[g := Storing(p)];
    ReachesOn(c, s, s2, Visited(c, s, p, g));
  }

  lemma VisitsUnseen(c: Cluster, s: State, p: string, g: nat)
    requires g in s.managers && s.managers[g] == CheckingVisited(p) && p !in s.maps.visited
    ensures Reaches(c, s, s.(managers := s.managers[g := Storing(p)], maps := MarkVisited(s.maps, p, c.Spec(p))))
  {
    hide Run, MarkVisited, Reaches;
    var step := ManagerStep(g, true, None);
    Start(c, s);
    Then(c, s, s, step);
    var s1 := Apply(c, s, step);
    Then(c, s, s1, step);
    var s2 := Apply(c, s1, step);
    Then(c, s, s2, step);
    assert Apply(c, s2, step).managers == s.managers[g := Storing(p)];
  }

  lemma StoresAndMarks(c: Cluster, s: State, p: string, g: nat)
    requires g in s.managers && s.managers[g] == Storing(p) && p in s.api
    ensures Reaches(c, s, s.(api := s.api[p := s.api[p].(ready := true)], managers := s.managers[g := Ended],
                             maps := StoreRequest(s.maps, p, c.paths, c.Spec(p))))
  {
    hide Run, StoreRequest, Reaches;
    var step := ManagerStep(g, true, None);
    Start(c, s);
    Then(c, s, s, step);
    var s1 := Apply(c, s, step);
    assert s1.managers[g] == Fetching(p);
    Then(c, s, s1, step);
    var s2 := Apply(c, s1, step);
    assert s2.managers[g] == MarkingReady(p, s.api[p]);
    Then(c, s, s2, step);
    var s3 := Apply(c, s2, step);
    assert s3.managers == s.managers[g := Ended];
  }

  /** A pod is created, its first event is handled, its request is stored and it is marked ready. */
  lemma Registers(c: Cluster, s: State, p: string, g1: nat, g2: nat, a: nat)
    requires Fresh(s, p, g1, g2, a) && Requests(c.Spec(p))
    ensures Reaches(c, s, Registered(c, s, p, g1))
  {
    hide Run, Requests, StoreRequest, MarkVisited, Reaches;
    var mid := Visited(c, s, p, g1);
    Visits(c, s, p, g1);
    StoresAndMarks(c, mid, p, g1);
    assert mid.managers[g1 := Ended] == s.managers[g1 := Ended];
    assert mid.api[p := mid.api[p].(ready := true)] == s.api[p := Annotations(true, Absent)];
    ReachesOn(c, s, mid, Registered(c, s, p, g1));
  }

  /** The pod is created, and its event is queued and handed to goroutine `g`. */
  lemma Arrives(c: Cluster, from: State, s: State, p: string, g: nat, mark: Mark) returns (s': State)
    requires Reaches(c, from, s)
    requires p !in s.created && g !in s.managers && s.events == [] && !mark.SaysTrue?
    ensures Reaches(c, from, s')
    ensures s' == s.(api := s.api[p := Annotations(false, mark)], created := s.created + {p},
                     managers := s.managers[g := Starting(Snapshot(p, true, mark))])
  {
    hide Run, Reaches;
    Then(c, from, s, Create(p, mark));
    var s1 := Apply(c, s, Create(p, mark));
    s' := Notifies(c, from, s1, p, g);
  }

  lemma Notifies(c: Cluster, from: State, s: State, p: string, g: nat) returns (s': State)
    requires Reaches(c, from, s)
    requires p in s.api && g !in s.managers && s.events == []
    ensures Reaches(c, from, s')
    ensures s' == s.(managers := s.managers[g := Starting(Snapshot(p, true, s.api[p].flag))])
  {
    hide Run, Reaches;
    Then(c, from, s, Modified(p, true));
    var s1 := Apply(c, s, Modified(p, true));
    Then(c, from, s1, Dispatch(g));
    s' := Apply(c, s1, Dispatch(g));
    assert s'.events == [];
  }

  function Placed(c: Cluster, s: State, p: string, a: nat): State {
    var core, mem := Sum(c.Spec(p), GpuCore), Sum(c.Spec(p), GpuMemory);
    var choice := Choose(c.labels, s.gpus, core, mem);
    if choice.NoMatch? then s
    else
      s.(api := s.api[p := Annotations(true, SaysTrue)],
         gpus := Grant(c.labels, s.gpus, core, mem),
         charges := s.charges + [ChargeEntry(p, choice.index, core, mem)],
         marked := s.marked + {p},
         allocators := s.allocators[a := Returned])
  }

  /** The pod's request arrives; the allocator sees the ready mark, charges a device and marks the pod assigned. */
  lemma Charges(c: Cluster, s: State, p: string, a: nat, q: Ask)
    requires a !in s.allocators && p in s.api && s.api[p] == Annotations(true, Absent)
    requires ConfirmsItself(c, s.api.Keys, p, q)
    requires Choose(c.labels, s.gpus, Sum(c.Spec(p), GpuCore), Sum(c.Spec(p), GpuMemory)).Device?
    ensures Reaches(c, s, Placed(c, s, p, a))
  {
    hide Run, Choose, Grant, Sum, Reaches, Confirmed, Specs, ConfirmsItself, AskedByContainer;
    RequestIsPossible(c, s.api.Keys, p, q);
    var ask := RequestEvent(c, a, p, q);
    RequestConfirms(c, s, a, p, q);
    Start(c, s);
    Then(c, s, s, ask);
    ChargesOnceAsked(c, s, Apply(c, s, ask), p, a);
  }

  lemma RequestIsPossible(c: Cluster, api: set<string>, p: string, q: Ask)
    requires ConfirmsItself(c, api, p, q)
    ensures q.container < |c.Spec(p)| && c.Spec(p)[q.container].Limit(GpuCore) > 0
  {
  }

  lemma ChargesOnceAsked(c: Cluster, s: State, s1: State, p: string, a: nat)
    requires p in s.api && s.api[p] == Annotations(true, Absent)
    requires Reaches(c, s, s1) && s1 == s.(allocators := s.allocators[a := AwaitingReady(p)])
    requires Choose(c.labels, s.gpus, Sum(c.Spec(p), GpuCore), Sum(c.Spec(p), GpuMemory)).Device?
    ensures Reaches(c, s, Placed(c, s, p, a))
  {
    hide Run, Choose, Grant, Sum, Reaches;
    var step := AllocatorStep(a, true);
    Then(c, s, s1, step);
    var s2 := Apply(c, s1, step);
    assert s2.allocators[a] == Charging(p, s.api[p]);
    Then(c, s, s2, step);
    var s3 := Apply(c, s2, step);
    assert s3.allocators[a] == MarkingAssigned(p, s.api[p]);
    Then(c, s, s3, step);
    var s4 := Apply(c, s3, step);
    assert s4.allocators == s.allocators[a := Returned];
    assert s4 == Placed(c, s, p, a);
  }

  /** The keys under which the listed containers are filed. */
  function KeysOf(c: Cluster, names: map<string, string>, uids: seq<string>): (keys: seq<string>)
    ensures |keys| == |uids|
    ensures forall i :: 0 <= i < |uids| ==> keys[i] == if c.cgroupV2 then Lookup(names, uids[i], "") else uids[i]
  {
    seq(|uids|, i requires 0 <= i < |uids| => if c.cgroupV2 then Lookup(names, uids[i], "") else uids[i])
  }

  function FileAll(c: Cluster, files: map<(string, string), Config>, p: string, keys: seq<string>)
      : map<(string, string), Config> {
    if keys == [] then files
    else FileAll(c, files, p, keys[..|keys| - 1])[(p, keys[|keys| - 1]) := FullConfig(c, p)]
  }

  /** Exactly the given keys are filed, in full. */
  ghost predicate FiledExactly(c: Cluster, files: map<(string, string), Config>, all: map<(string, string), Config>,
                               p: string, keys: seq<string>) {
    && (forall key :: key in keys ==> (p, key) in all && all[(p, key)] == FullConfig(c, p))
    && (forall k :: k in files && (k.0 != p || k.1 !in keys) ==> k in all && all[k] == files[k])
    && (forall k :: k in all ==> k in files || (k.0 == p && k.1 in keys))
  }

  lemma MembersSplit(keys: seq<string>, key: string)
    requires keys != []
    ensures key in keys <==> key in keys[..|keys| - 1] || key == keys[|keys| - 1]
  {
  }

  lemma OneMoreFiled(c: Cluster, files: map<(string, string), Config>, all: map<(string, string), Config>,
                     p: string, keys: seq<string>)
    requires keys != [] && FiledExactly(c, files, all, p, keys[..|keys| - 1])
    ensures FiledExactly(c, files, all[(p, keys[|keys| - 1]) := FullConfig(c, p)], p, keys)
  {
    hide FullConfig;
    forall key ensures key in keys <==> key in keys[..|keys| - 1] || key == keys[|keys| - 1] {
      MembersSplit(keys, key);
    }
  }

  lemma {:induction false} FileAllExact(c: Cluster, files: map<(string, string), Config>, p: string, keys: seq<string>)
    ensures FiledExactly(c, files, FileAll(c, files, p, keys), p, keys)
  {
    if keys != [] {
      hide FullConfig, FiledExactly;
      FileAllExact(c, files, p, keys[..|keys| - 1]);
      OneMoreFiled(c, files, FileAll(c, files, p, keys[..|keys| - 1]), p, keys);
    }
  }

  function Filed(c: Cluster, s: State, p: string, g: nat, sts: seq<Status>): State {
    var maps := RecordAll(s.maps, p, sts);
    s.(managers := s.managers[g := Ended], maps := MarkDone(maps, p),
       files := FileAll(c, s.files, p, KeysOf(c, maps.nameByUid, StartedUids(sts))))
  }

  /** The status poll sees the containers, and the started ones are recorded. */
  lemma Records(c: Cluster, s: State, p: string, g: nat, sts: seq<Status>)
    requires g !in s.managers && s.events == [] && p in s.api && s.api[p].flag.SaysTrue?
    requires Requests(c.Spec(p)) && p !in s.maps.done && AnyStarted(sts)
    ensures Reaches(c, s, s.(managers := s.managers[g := Listing(p)], maps := RecordAll(s.maps, p, sts)))
  {
    hide Run, Requests, RecordAll, Reaches, AnyStarted;
    Start(c, s);
    var s1 := Notifies(c, s, s, p, g);
    var step, polled := ManagerStep(g, true, None), ManagerStep(g, true, Some(sts));
    Then(c, s, s1, step);
    var s2 := Apply(c, s1, step);
    assert s2.managers[g] == AwaitingStatus(p);
    Then(c, s, s2, polled);
    var s3 := Apply(c, s2, polled);
    assert s3.managers[g] == Recording(p, sts);
    Then(c, s, s3, step);
    var s4 := Apply(c, s3, step);
    assert s4.managers == s.managers[g := Listing(p)];
  }

  /** One round of the loop: the next listed container's file is written from the stored request. */
  lemma WritesOne(c: Cluster, s: State, p: string, g: nat, uids: seq<string>, next: nat)
    requires g in s.managers && s.managers[g] == Writing(p, uids, next) && next < |uids| && Stored(c, s.maps, p)
    ensures var key := KeysOf(c, s.maps.nameByUid, uids)[next];
            Reaches(c, s, s.(managers := s.managers[g := Writing(p, uids, next + 1)],
                             files := s.files[(p, key) := FullConfig(c, p)]))
  {
    hide Run, CoreQuota, MemQuota, ConfigOf, Reaches;
    var key := KeysOf(c, s.maps.nameByUid, uids)[next];
    var step := ManagerStep(g, true, None);
    Start(c, s);
    Then(c, s, s, step);
    var s1 := Apply(c, s, step);
    assert s1.managers[g] == Reading(p, uids, next, key);
    Then(c, s, s1, step);
    var s2 := Apply(c, s1, step);
    assert s2.managers[g] == Filing(p, uids, next, key, CoreQuota(c.paths, c.Spec(p)), MemQuota(c.paths, c.Spec(p)));
    Then(c, s, s2, step);
    var s3 := Apply(c, s2, step);
    assert s3.managers == s.managers[g := Writing(p, uids, next + 1)];
  }

  lemma {:induction false} WritesUpTo(c: Cluster, s: State, p: string, g: nat, uids: seq<string>, n: nat)
    requires g in s.managers && s.managers[g] == Writing(p, uids, 0) && n <= |uids| && Stored(c, s.maps, p)
    ensures Reaches(c, s, s.(managers := s.managers[g := Writing(p, uids, n)],
                             files := FileAll(c, s.files, p, KeysOf(c, s.maps.nameByUid, uids)[..n])))
  {
    hide Run, Reaches, Stored, FullConfig, KeysOf;
    var keys := KeysOf(c, s.maps.nameByUid, uids);
    if n == 0 {
      Start(c, s);
      assert s.managers[g := Writing(p, uids, 0)] == s.managers;
    } else {
      var mid := s.(managers := s.managers[g := Writing(p, uids, n - 1)],
                    files := FileAll(c, s.files, p, keys[..n - 1]));
      WritesUpTo(c, s, p, g, uids, n - 1);
      WritesOne(c, mid, p, g, uids, n - 1);
      assert keys[..n][..n - 1] == keys[..n - 1];
      assert mid.managers[g := Writing(p, uids, n)] == s.managers[g := Writing(p, uids, n)];
      ReachesOn(c, s, mid, s.(managers := s.managers[g := Writing(p, uids, n)],
                              files := FileAll(c, s.files, p, keys[..n])));
    }
  }

  /** The goroutine lists the pod's containers and comes to the loop. */
  lemma Lists(c: Cluster, s: State, p: string, g: nat)
    requires g in s.managers && s.managers[g] == Listing(p)
    ensures Reaches(c, s, s.(managers := s.managers[g := Writing(p, Lookup(s.maps.uidsOfPod, p, []), 0)]))
  {
    hide Run, Reaches;
    Start(c, s);
    Then(c, s, s, ManagerStep(g, true, None));
    assert Apply(c, s, ManagerStep(g, true, None)).managers ==
           s.managers[g := Writing(p, Lookup(s.maps.uidsOfPod, p, []), 0)];
  }

  /** Past the last container the pod is marked done, and being visited it needs no more. */
  lemma Finishes(c: Cluster, s: State, p: string, g: nat, uids: seq<string>)
    requires g in s.managers && s.managers[g] == Writing(p, uids, |uids|) && Lookup(s.maps.visited, p, false)
    ensures Reaches(c, s, s.(managers := s.managers[g := Ended], maps := MarkDone(s.maps, p)))
  {
    hide Run, Reaches;
    var step := ManagerStep(g, true, None);
    Start(c, s);
    Then(c, s, s, step);
    var s1 := Apply(c, s, step);
    assert s1.managers[g] == Finishing(p);
    Then(c, s, s1, step);
    var s2 := Apply(c, s1, step);
    assert s2.managers[g] == CheckingVisited(p);
    Then(c, s, s2, step);
    assert Apply(c, s2, step).managers == s.managers[g := Ended];
  }

  /** From the statuses to the end of the loop. */
  lemma RecordsAndWrites(c: Cluster, s: State, p: string, g: nat, sts: seq<Status>)
    requires g !in s.managers && s.events == [] && p in s.api && s.api[p].flag.SaysTrue?
    requires Requests(c.Spec(p)) && p !in s.maps.done && p !in s.maps.uidsOfPod
    requires Stored(c, s.maps, p) && AnyStarted(sts)
    ensures var maps, uids := RecordAll(s.maps, p, sts), StartedUids(sts);
            Reaches(c, s, s.(managers := s.managers[g := Writing(p, uids, |uids|)], maps := maps,
                             files := FileAll(c, s.files, p, KeysOf(c, maps.nameByUid, uids))))
  {
    hide Run, Requests, RecordAll, CoreQuota, MemQuota, FullConfig, Reaches, KeysOf, FileAll;
    hide AnyStarted, StartedUids;
    var maps, uids := RecordAll(s.maps, p, sts), StartedUids(sts);
    RecordListsStarted(s.maps, p, sts);
    var s1 := s.(managers := s.managers[g := Listing(p)], maps := maps);
    Records(c, s, p, g, sts);
    assert Lookup(maps.uidsOfPod, p, []) == uids;
    Lists(c, s1, p, g);
    var s2 := s1.(managers := s1.managers[g := Writing(p, uids, 0)]);
    WritesUpTo(c, s2, p, g, uids, |uids|);
    var keys := KeysOf(c, maps.nameByUid, uids);
    assert keys[..|uids|] == keys;
    var s3 := s2.(managers := s2.managers[g := Writing(p, uids, |uids|)], files := FileAll(c, s.files, p, keys));
    assert s3.managers == s.managers[g := Writing(p, uids, |uids|)];
    ReachesOn(c, s, s1, s2);
    ReachesOn(c, s, s2, s3);
  }

  /** A second event of the pod, now assigned, makes the manager write the quota file of each started container. */
  lemma Files(c: Cluster, s: State, p: string, g: nat, sts: seq<Status>)
    requires g !in s.managers && s.events == [] && p in s.api && s.api[p].flag.SaysTrue?
    requires Requests(c.Spec(p)) && p !in s.maps.done && p !in s.maps.uidsOfPod && Stored(c, s.maps, p)
    requires Lookup(s.maps.visited, p, false) && AnyStarted(sts)
    ensures Reaches(c, s, Filed(c, s, p, g, sts))
  {
    hide Run, Requests, RecordAll, Stored, Reaches, KeysOf, FileAll, MarkDone, AnyStarted, StartedUids;
    var maps, uids := RecordAll(s.maps, p, sts), StartedUids(sts);
    RecordListsStarted(s.maps, p, sts);
    RecordsAndWrites(c, s, p, g, sts);
    var mid := s.(managers := s.managers[g := Writing(p, uids, |uids|)], maps := maps,
                  files := FileAll(c, s.files, p, KeysOf(c, maps.nameByUid, uids)));
    Finishes(c, mid, p, g, uids);
    assert mid.managers[g := Ended] == s.managers[g := Ended];
    ReachesOn(c, s, mid, Filed(c, s, p, g, sts));
  }

  /** The state after a pod ran through the whole handshake alone. */
  function Completed(c: Cluster, s: State, p: string, g1: nat, g2: nat, a: nat, sts: seq<Status>): State {
    Filed(c, Placed(c, Registered(c, s, p, g1), p, a), p, g2, sts)
  }

  lemma CompletesAlone(c: Cluster, s: State, p: string, g1: nat, g2: nat, a: nat, q: Ask, sts: seq<Status>)
    requires Fresh(s, p, g1, g2, a) && Requests(c.Spec(p)) && AnyStarted(sts)
    requires ConfirmsItself(c, s.api.Keys + {p}, p, q)
    requires Choose(c.labels, s.gpus, Sum(c.Spec(p), GpuCore), Sum(c.Spec(p), GpuMemory)).Device?
    ensures Reaches(c, s, Completed(c, s, p, g1, g2, a, sts))
  {
    hide Run, Reaches, Choose, Grant, Sum, CoreQuota, MemQuota, Requests, ConfirmsItself, Filed, AnyStarted;
    var s1 := Registered(c, s, p, g1);
    var s2 := Placed(c, s1, p, a);
    Registers(c, s, p, g1, g2, a);
    assert s1.api.Keys == s.api.Keys + {p};
    Charges(c, s1, p, a, q);
    Files(c, s2, p, g2, sts);
    ReachesOn(c, s, s1, s2);
    ReachesOn(c, s, s2, Completed(c, s, p, g1, g2, a, sts));
  }

  // ----- a pod not yet created is new to every part of a reachable state

  function PodsAt(m: Manager): set<string> {
    match m
    case Starting(snap) => {snap.pod}
    case Removing(snap) => {snap.pod}
    case Ended => {}
    case _ => {m.pod}
  }

  ghost predicate MapsKnow(m: Maps, pods: set<string>) {
    m.visited.Keys <= pods && m.done.Keys <= pods && m.uidsOfPod.Keys <= pods
  }

  ghost predicate SnapshotsKnow(snaps: seq<Snapshot>, pods: set<string>) {
    forall i :: 0 <= i < |snaps| ==> snaps[i].pod in pods
  }

  ghost predicate ManagersKnow(managers: map<nat, Manager>, pods: set<string>) {
    forall g :: g in managers ==> PodsAt(managers[g]) <= pods
  }

  /** Every pod that queues, goroutines and maps speak of has been created. */
  ghost predicate OnlyCreated(s: State) {
    && s.api.Keys <= s.created && MapsKnow(s.maps, s.created)
    && SnapshotsKnow(s.events, s.created) && SnapshotsKnow(s.removals, s.created)
    && ManagersKnow(s.managers, s.created)
  }

  lemma {:induction false} RecordsKnown(m: Maps, pods: set<string>, pod: string, sts: seq<Status>)
    requires MapsKnow(m, pods) && pod in pods
    ensures MapsKnow(RecordAll(m, pod, sts), pods)
  {
    if sts != [] {
      RecordsKnown(m, pods, pod, sts[..|sts| - 1]);
    }
  }

  lemma DeleteKnown(m: Maps, pods: set<string>, pod: string)
    requires MapsKnow(m, pods) && pod in pods
    ensures MapsKnow(Delete(m, pod), pods)
  {
    hide Delete, ForgetAll;
    if Lookup(m.visited, pod, false) {
      DeleteByMap(m, pod);
    } else {
      NothingToDelete(m, pod);
    }
  }

  /** One manager step leaves the queues alone and goes on with the same pod. */
  lemma ManagerShape(c: Cluster, s: State, m: Manager, ok: bool, statuses: Option<seq<Status>>)
    requires PodsAt(m) <= s.created
    ensures var (s', m') := ManagerNext(c, s, m, ok, statuses);
            && s' == s.(api := s'.api, maps := s'.maps, files := s'.files, gone := s'.gone)
            && s'.api.Keys == s.api.Keys && PodsAt(m') <= s.created
  {
    hide RecordAll, Delete, CoreQuota, MemQuota, ConfigOf, Requests, AnyStarted;
  }

  lemma ManagerMapsKnow(c: Cluster, s: State, m: Manager, ok: bool, statuses: Option<seq<Status>>)
    requires MapsKnow(s.maps, s.created) && PodsAt(m) <= s.created
    ensures MapsKnow(ManagerNext(c, s, m, ok, statuses).0.maps, s.created)
  {
    hide RecordAll, Delete, CoreQuota, MemQuota, ConfigOf, Requests, AnyStarted;
    if m.Recording? {
      RecordsKnown(s.maps, s.created, m.pod, m.statuses);
    } else if m.Removing? {
      DeleteKnown(s.maps, s.created, m.snap.pod);
    }
  }

  lemma ManagerStepKnown(c: Cluster, s: State, g: nat, ok: bool, statuses: Option<seq<Status>>)
    requires OnlyCreated(s) && g in s.managers
    ensures OnlyCreated(ManagerMoves(c, s, g, s.managers[g], ok, statuses))
  {
    hide ManagerNext, MapsKnow, SnapshotsKnow, PodsAt;
    ManagerShape(c, s, s.managers[g], ok, statuses);
    ManagerMapsKnow(c, s, s.managers[g], ok, statuses);
  }

  lemma AllocatorStepKnown(c: Cluster, s: State, a: nat, ok: bool)
    requires OnlyCreated(s) && a in s.allocators
    ensures OnlyCreated(AllocatorMoves(c, s, a, s.allocators[a], ok))
  {
    hide AllocatorNext, MapsKnow, SnapshotsKnow, ManagersKnow;
    AllocatorLeavesRest(c, s, s.allocators[a], ok);
  }

  lemma CreationKnown(s: State, pod: string)
    requires OnlyCreated(s)
    ensures OnlyCreated(s.(created := s.created + {pod}))
  {
  }

  lemma OneMoreSnapshot(snaps: seq<Snapshot>, pods: set<string>, snap: Snapshot)
    requires SnapshotsKnow(snaps, pods) && snap.pod in pods
    ensures SnapshotsKnow(snaps + [snap], pods)
  {
  }

  /** Handing the head of a queue to a goroutine. */
  lemma HandOver(snaps: seq<Snapshot>, pods: set<string>, managers: map<nat, Manager>, g: nat)
    requires snaps != [] && SnapshotsKnow(snaps, pods) && ManagersKnow(managers, pods)
    ensures SnapshotsKnow(snaps[1..], pods)
    ensures ManagersKnow(managers[g := Starting(snaps[0])], pods)
    ensures ManagersKnow(managers[g := Removing(snaps[0])], pods)
  {
  }

  lemma EnvironmentKnown(c: Cluster, s: State, e: Event)
    requires OnlyCreated(s) && !e.ManagerStep? && !e.AllocatorStep?
    ensures OnlyCreated(Apply(c, s, e))
  {
    hide MapsKnow, SnapshotsKnow, ManagersKnow;
    match e {
      case Create(pod, _) => CreationKnown(s, pod);
      case Modified(pod, annotated) =>
        if pod in s.api { OneMoreSnapshot(s.events, s.created, Take(s, pod, annotated)); }
      case Removed(pod, annotated) =>
        if pod in s.api { OneMoreSnapshot(s.removals, s.created, Take(s, pod, annotated)); }
      case Dispatch(g) => if s.events != [] { HandOver(s.events, s.created, s.managers, g); }
      case DispatchRemoval(g) => if s.removals != [] { HandOver(s.removals, s.created, s.managers, g); }
      case Allocate(_, _, _) =>
    }
  }

  lemma {:induction false} RunKnown(c: Cluster, gpus: seq<GpuRecord>, es: seq<Event>)
    ensures OnlyCreated(Run(c, Initial(gpus), es))
  {
    if es != [] {
      hide ManagerMoves, AllocatorMoves, OnlyCreated;
      var s, e := Run(c, Initial(gpus), es[..|es| - 1]), es[|es| - 1];
      RunKnown(c, gpus, es[..|es| - 1]);
      match e {
        case ManagerStep(g, ok, statuses) => if g in s.managers { ManagerStepKnown(c, s, g, ok, statuses); }
        case AllocatorStep(a, ok) => if a in s.allocators { AllocatorStepKnown(c, s, a, ok); }
        case _ => EnvironmentKnown(c, s, e);
      }
    }
  }

  lemma Unused(ids: set<nat>) returns (id: nat)
    ensures forall i :: i in ids ==> i < id
  {
    id := 0;
    if ids != {} {
      var i :| i in ids;
      var rest := Unused(ids - {i});
      id := if rest <= i then i + 1 else rest;
      assert forall j :: j in ids ==> j == i || j in ids - {i};
    }
  }

  /** Every queued event can be handed to a goroutine of its own, which then need not move. */
  lemma {:induction false} Drains(c: Cluster, s: State) returns (s': State)
    ensures Reaches(c, s, s') && s'.events == [] && s'.removals == []
    ensures s' == s.(events := [], removals := [], managers := s'.managers)
    decreases |s.events| + |s.removals|
  {
    hide Run, Reaches;
    Start(c, s);
    var g := Unused(s.managers.Keys);
    if s.events != [] {
      Then(c, s, s, Dispatch(g));
      s' := Drains(c, Apply(c, s, Dispatch(g)));
      ReachesOn(c, s, Apply(c, s, Dispatch(g)), s');
    } else if s.removals != [] {
      Then(c, s, s, DispatchRemoval(g));
      s' := Drains(c, Apply(c, s, DispatchRemoval(g)));
      ReachesOn(c, s, Apply(c, s, DispatchRemoval(g)), s');
    } else {
      s' := s;
    }
  }

  /** Every reachable state leads to one with empty queues in which the pod and three goroutines are new. */
  lemma MakesRoom(c: Cluster, gpus: seq<GpuRecord>, es: seq<Event>, p: string) returns (s': State, g: nat, a: nat)
    requires p !in Run(c, Initial(gpus), es).created
    ensures Reaches(c, Run(c, Initial(gpus), es), s')
    ensures Fresh(s', p, g, g + 1, a) && g + 2 !in s'.managers && s'.removals == []
    ensures var s := Run(c, Initial(gpus), es); s' == s.(events := [], removals := [], managers := s'.managers)
  {
    hide Run, Reaches;
    var s := Run(c, Initial(gpus), es);
    RunKnown(c, gpus, es);
    s' := Drains(c, s);
    g := Unused(s'.managers.Keys);
    a := Unused(s'.allocators.Keys);
  }

  /** The key of a container: its id under cgroup v1, its name under v2. */
  function KeyOf(c: Cluster, st: Status): string {
    if c.cgroupV2 then st.name else st.uid
  }

  predicate IsKeyOfStarted(c: Cluster, sts: seq<Status>, key: string) {
    exists i :: 0 <= i < |sts| && IsStarted(sts[i]) && KeyOf(c, sts[i]) == key
  }

  /** What the run does for a new pod: one charge, and a full quota file for each started container and no other. */
  ghost predicate Served(c: Cluster, s: State, s': State, p: string, sts: seq<Status>) {
    var core, mem := Sum(c.Spec(p), GpuCore), Sum(c.Spec(p), GpuMemory);
    var choice := Choose(c.labels, s.gpus, core, mem);
    && choice.Device? && s'.gpus == Grant(c.labels, s.gpus, core, mem)
    && s'.charges == s.charges + [ChargeEntry(p, choice.index, core, mem)]
    && s'.gone == s.gone && FilesAdded(c, s.files, s'.files, p, sts)
  }

  ghost predicate FilesAdded(c: Cluster, files: map<(string, string), Config>, files': map<(string, string), Config>,
                             p: string, sts: seq<Status>) {
    && (forall i :: 0 <= i < |sts| && IsStarted(sts[i]) ==>
          (p, KeyOf(c, sts[i])) in files' && files'[(p, KeyOf(c, sts[i]))] == FullConfig(c, p))
    && (forall k :: k in files && (k.0 != p || !IsKeyOfStarted(c, sts, k.1)) ==> k in files' && files'[k] == files[k])
    && (forall k :: k in files' ==> k in files || (k.0 == p && IsKeyOfStarted(c, sts, k.1)))
  }

  lemma KeysAreOfStarted(c: Cluster, m: Maps, p: string, sts: seq<Status>, key: string)
    requires OneName(sts)
    ensures key in KeysOf(c, RecordAll(m, p, sts).nameByUid, StartedUids(sts)) <==> IsKeyOfStarted(c, sts, key)
  {
    hide RecordAll, StartedUids;
    var names, uids := RecordAll(m, p, sts).nameByUid, StartedUids(sts);
    var keys := KeysOf(c, names, uids);
    if key in keys {
      var j :| 0 <= j < |keys| && keys[j] == key;
      StartedUidsAre(sts, uids[j]);
      var i :| 0 <= i < |sts| && IsStarted(sts[i]) && sts[i].uid == uids[j];
      NameRecorded(m, p, sts, i);
    }
    if IsKeyOfStarted(c, sts, key) {
      var i :| 0 <= i < |sts| && IsStarted(sts[i]) && KeyOf(c, sts[i]) == key;
      StartedUidsAre(sts, sts[i].uid);
      var j :| 0 <= j < |uids| && uids[j] == sts[i].uid;
      NameRecorded(m, p, sts, i);
      assert keys[j] == key;
    }
  }

  lemma FilesAreAdded(c: Cluster, files: map<(string, string), Config>, m: Maps, p: string, sts: seq<Status>)
    requires OneName(sts)
    ensures var keys := KeysOf(c, RecordAll(m, p, sts).nameByUid, StartedUids(sts));
            FilesAdded(c, files, FileAll(c, files, p, keys), p, sts)
  {
    hide RecordAll, StartedUids, KeysOf, FileAll, FullConfig;
    var keys := KeysOf(c, RecordAll(m, p, sts).nameByUid, StartedUids(sts));
    FileAllExact(c, files, p, keys);
    forall key ensures key in keys <==> IsKeyOfStarted(c, sts, key) {
      KeysAreOfStarted(c, m, p, sts, key);
    }
    forall i | 0 <= i < |sts| && IsStarted(sts[i]) ensures KeyOf(c, sts[i]) in keys {
      assert IsKeyOfStarted(c, sts, KeyOf(c, sts[i]));
    }
  }

  /**
   * The handshake can always complete: from every reachable state a new pod
   * that some device can take, and that the request of one of its containers
   * confirms, gets the files of all its started containers.
   */
  lemma Completes(c: Cluster, gpus: seq<GpuRecord>, es: seq<Event>, p: string, q: Ask, sts: seq<Status>)
      returns (s': State)
    requires var s := Run(c, Initial(gpus), es);
             && p !in s.created && ConfirmsItself(c, s.api.Keys + {p}, p, q)
             && Choose(c.labels, s.gpus, Sum(c.Spec(p), GpuCore), Sum(c.Spec(p), GpuMemory)).Device?
    requires SomeRequested(c.Spec(p))
    requires AnyStarted(sts) && OneName(sts)
    ensures Reaches(c, Run(c, Initial(gpus), es), s')
    ensures Served(c, Run(c, Initial(gpus), es), s', p, sts)
  {
    RequestsMeans(c.Spec(p));
    hide SomeRequested;
    hide Run, Reaches, Choose, Grant, Sum, FullConfig, Requests, ConfirmsItself, FilesAdded, FileAll, KeysOf;
    hide RecordAll, StartedUids, AnyStarted, OneName, CoreQuota, MemQuota;
    var s := Run(c, Initial(gpus), es);
    var mid, g, a := MakesRoom(c, gpus, es, p);
    CompletesAlone(c, mid, p, g, g + 1, a, q, sts);
    s' := Completed(c, mid, p, g, g + 1, a, sts);
    ReachesOn(c, s, mid, s');
    FilesAreAdded(c, s.files, Placed(c, Registered(c, mid, p, g), p, a).maps, p, sts);
  }

  // ----- exactly which sole pod is served

  ghost predicate HasFile(s: State, p: string) {
    exists key :: (p, key) in s.files
  }

  /** Only `p` asks for cores. */
  predicate SoleAsker(c: Cluster, p: string) {
    forall o :: o in c.pods && o != p ==> Sum(c.pods[o], GpuCore) == 0
  }

  /** All the cores of the pod are asked by one container. */
  predicate CoresInOneContainer(cs: Containers) {
    exists k :: 0 <= k < |cs| && cs[k].Limit(GpuCore) > 0 && OthersAskNothing(cs, k, GpuCore)
  }

  lemma {:induction false} SoleCores(pods: PodMatching.Pending, i: nat)
    requires forall j :: 0 <= j < |pods| && j != i ==> Sum(pods[j], GpuCore) == 0
    ensures PodMatching.Cores(pods) == if i < |pods| then Sum(pods[i], GpuCore) else 0
  {
    if pods != [] {
      hide Sum;
      var n := |pods| - 1;
      assert forall j :: 0 <= j < n ==> pods[..n][j] == pods[j];
      SoleCores(pods[..n], i);
    }
  }

  /** Where only pod `i` asks for cores, the loops confirm a positive count only if it is that pod's total. */
  lemma OnlyTotalMatches(pods: PodMatching.Pending, devices: nat, i: nat, j: nat)
    requires devices > 0 && PodMatching.Confirms(pods, devices, j)
    requires forall m :: 0 <= m < |pods| && m != i ==> Sum(pods[m], GpuCore) == 0
    ensures i < |pods| && Sum(pods[i], GpuCore) == devices
  {
    hide Sum;
    var f := PodMatching.FirstLimited(pods);
    var slice := pods[f..j + 1];
    if f <= i {
      SoleCores(slice, i - f);
    } else {
      SoleCores(slice, |slice|);
    }
  }

  /** Every request in such a cluster is for a container of `p`, and never for its total if `p` is split. */
  lemma SplitPodNotConfirmed(c: Cluster, p: string, s: State, e: Event)
    requires NonNegativePods(c) && SoleAsker(c, p) && !CoresInOneContainer(c.Spec(p))
    requires e.Allocate? && Genuine(c, s, e)
    ensures Confirmed(c, e.pending, e.devices).Returned?
  {
    hide Sum, PodMatching.Confirms, PodMatching.Matches;
    var pods := Specs(c, e.pending);
    var i, k :| 0 <= i < |e.pending| && 0 <= k < |c.Spec(e.pending[i])|
                && c.Spec(e.pending[i])[k].Limit(GpuCore) == e.devices > 0;
    LimitWithinSum(pods[i], k, GpuCore);
    assert e.pending[i] == p;
    forall m | 0 <= m < |pods| && m != i ensures Sum(pods[m], GpuCore) == 0 {
      assert e.pending[m] != p;
      NothingOutside(c, e.pending[m]);
    }
    if j: nat :| PodMatching.Confirms(pods, e.devices, j) {
      OnlyTotalMatches(pods, e.devices, i, j);
    }
    if PodMatching.Matches(pods, e.devices).Some? {
      PodMatching.MatchesExact(pods, e.devices, PodMatching.Matches(pods, e.devices).value);
    }
  }

  lemma NothingOutside(c: Cluster, p: string)
    ensures p !in c.pods ==> Sum(c.Spec(p), GpuCore) == 0
  {
  }

  /** Nothing was ever confirmed or charged. */
  ghost predicate Unserved(s: State) {
    s.charges == [] && forall a :: a in s.allocators ==> s.allocators[a].Returned?
  }

  lemma StepUnserved(c: Cluster, p: string, s: State, e: Event)
    requires NonNegativePods(c) && SoleAsker(c, p) && !CoresInOneContainer(c.Spec(p))
    requires Unserved(s) && Genuine(c, s, e)
    ensures Unserved(Apply(c, s, e))
  {
    hide ManagerNext, Confirmed, Genuine, SoleAsker, CoresInOneContainer, NonNegativePods;
    if e.Allocate? {
      SplitPodNotConfirmed(c, p, s, e);
    } else if e.ManagerStep? && e.g in s.managers {
      Untouched(c, s, s.managers[e.g], e.ok, e.statuses);
    }
  }

  lemma {:induction false} SplitPodUnserved(c: Cluster, p: string, gpus: seq<GpuRecord>, es: seq<Event>)
    requires NonNegativePods(c) && SoleAsker(c, p) && !CoresInOneContainer(c.Spec(p))
    requires GenuineRun(c, Initial(gpus), es)
    ensures Unserved(Run(c, Initial(gpus), es))
  {
    if es != [] {
      hide Apply, Genuine, SoleAsker, CoresInOneContainer, NonNegativePods, Unserved;
      SplitPodUnserved(c, p, gpus, es[..|es| - 1]);
      StepUnserved(c, p, Run(c, Initial(gpus), es[..|es| - 1]), es[|es| - 1]);
    }
  }

  /**
   * When only one pod asks for cores and a device can take it, some run gives
   * it a quota file exactly when all its cores are asked by one container:
   * each request is for one container, and is compared with the pod's total.
   */
  lemma SoleAskerServedIff(c: Cluster, p: string, gpus: seq<GpuRecord>)
    requires NonNegativePods(c) && SoleAsker(c, p) && Requests(c.Spec(p))
    requires Choose(c.labels, gpus, Sum(c.Spec(p), GpuCore), Sum(c.Spec(p), GpuMemory)).Device?
    ensures (exists es :: GenuineRun(c, Initial(gpus), es) && HasFile(Run(c, Initial(gpus), es), p))
            <==> CoresInOneContainer(c.Spec(p))
  {
    hide Run, Reaches, Choose, Sum, GenuineRun, Requests, SoleAsker, NonNegativePods;
    if CoresInOneContainer(c.Spec(p)) {
      SoleAskerServed(c, p, gpus);
    } else {
      forall es | GenuineRun(c, Initial(gpus), es) ensures !HasFile(Run(c, Initial(gpus), es), p) {
        SplitPodUnserved(c, p, gpus, es);
        NothingFiled(c, gpus, es, p);
      }
    }
  }

  lemma NothingFiled(c: Cluster, gpus: seq<GpuRecord>, es: seq<Event>, p: string)
    requires Unserved(Run(c, Initial(gpus), es))
    ensures !HasFile(Run(c, Initial(gpus), es), p)
  {
    hide Run;
    if key :| (p, key) in Run(c, Initial(gpus), es).files {
      FilesCarryFullQuota(c, gpus, es, p, key);
    }
  }

  lemma SoleAskerServed(c: Cluster, p: string, gpus: seq<GpuRecord>)
    requires NonNegativePods(c) && Requests(c.Spec(p)) && CoresInOneContainer(c.Spec(p))
    requires Choose(c.labels, gpus, Sum(c.Spec(p), GpuCore), Sum(c.Spec(p), GpuMemory)).Device?
    ensures exists es :: GenuineRun(c, Initial(gpus), es) && HasFile(Run(c, Initial(gpus), es), p)
  {
    RequestsMeans(c.Spec(p));
    hide SomeRequested;
    hide Choose, Sum, GenuineRun, Requests, ConfirmsItself, FullConfig, Grant;
    var start := Initial(gpus);
    var k :| 0 <= k < |c.Spec(p)| && c.Spec(p)[k].Limit(GpuCore) > 0 && OthersAskNothing(c.Spec(p), k, GpuCore);
    assert Run(c, start, []) == start;
    AloneConfirms(c, start.api.Keys + {p}, p, k);
    var sts := [Status("uid", "name")];
    assert IsStarted(sts[0]);
    var s' := Completes(c, gpus, [], p, Ask([p], 0, k), sts);
    var es :| Run(c, start, es) == s' && GenuineRun(c, start, es);
    assert (p, KeyOf(c, sts[0])) in s'.files;
  }

  // ----- an empty quota file

  /** The pod is deleted at the API server, and a goroutine deletes its entries. */
  lemma Deletes(c: Cluster, s: State, p: string, g: nat)
    requires g !in s.managers && s.removals == [] && p in s.api && s.api[p].flag.SaysTrue?
    requires Lookup(s.maps.visited, p, false)
    ensures Reaches(c, s, s.(api := s.api - {p}, managers := s.managers[g := Ended], maps := Delete(s.maps, p),
                             gone := s.gone + {p}, files := map k | k in s.files && k.0 != p :: s.files[k]))
  {
    hide Run, Reaches, Delete;
    Start(c, s);
    Then(c, s, s, Removed(p, true));
    var s1 := Apply(c, s, Removed(p, true));
    Then(c, s, s1, DispatchRemoval(g));
    var s2 := Apply(c, s1, DispatchRemoval(g));
    assert s2.removals == [] && s2.managers[g] == Removing(Snapshot(p, true, SaysTrue));
    var step := ManagerStep(g, true, None);
    Then(c, s, s2, step);
    var s3 := Apply(c, s2, step);
    assert s3.managers == s.managers[g := Ended];
  }

  /** The key under which a container is filed once its name is forgotten. */
  function LateKey(c: Cluster, uid: string): string {
    if c.cgroupV2 then "" else uid
  }

  /** A goroutine that has already listed the pod's container writes its file after the deletion. */
  lemma WritesLate(c: Cluster, s: State, p: string, g: nat, uid: string)
    requires g in s.managers && s.managers[g] == Writing(p, [uid], 0)
    requires p !in s.maps.coreRequest && p !in s.maps.memRequest && uid !in s.maps.nameByUid
    ensures Reaches(c, s, s.(managers := s.managers[g := Writing(p, [uid], 1)],
                             files := s.files[(p, LateKey(c, uid)) := ConfigOf(0, 0)]))
  {
    hide Run, Reaches, ConfigOf;
    var step := ManagerStep(g, true, None);
    Start(c, s);
    Then(c, s, s, step);
    var s1 := Apply(c, s, step);
    assert s1.managers[g] == Reading(p, [uid], 0, LateKey(c, uid));
    Then(c, s, s1, step);
    var s2 := Apply(c, s1, step);
    assert s2.managers[g] == Filing(p, [uid], 0, LateKey(c, uid), 0, 0);
    Then(c, s, s2, step);
    var s3 := Apply(c, s2, step);
    assert s3.managers == s.managers[g := Writing(p, [uid], 1)];
  }

  /** The goroutine that will write late has listed the container when the pod's entries are deleted. */
  lemma DeletedWhileListed(c: Cluster, s: State, p: string, g: nat, g3: nat, uid: string) returns (s': State)
    requires g in s.managers && s.managers[g] == Listing(p) && g3 !in s.managers && s.removals == []
    requires p in s.api && s.api[p].flag.SaysTrue? && Lookup(s.maps.visited, p, false)
    requires p in s.maps.uidsOfPod && s.maps.uidsOfPod[p] == [uid]
    ensures Reaches(c, s, s') && g in s'.managers && s'.managers[g] == Writing(p, [uid], 0)
    ensures p in s'.gone && p !in s'.maps.coreRequest && p !in s'.maps.memRequest && uid !in s'.maps.nameByUid
    ensures s'.charges == s.charges
  {
    hide Run, Reaches, Delete, ForgetAll;
    var step := ManagerStep(g, true, None);
    Start(c, s);
    Then(c, s, s, step);
    var s1 := Apply(c, s, step);
    assert s1.managers[g] == Writing(p, [uid], 0);
    Deletes(c, s1, p, g3);
    DeleteByMap(s1.maps, p);
    ForgetsIt(s1.maps, uid);
    s' := s1.(api := s1.api - {p}, managers := s1.managers[g3 := Ended], maps := Delete(s1.maps, p),
              gone := s1.gone + {p}, files := map k | k in s1.files && k.0 != p :: s1.files[k]);
    ReachesOn(c, s, s1, s');
  }

  lemma ForgetsIt(m: Maps, uid: string)
    ensures uid !in ForgetAll(m, [uid]).nameByUid
  {
    assert [uid][..0] == [];
  }

  /** A new pod goes through to the point where its container is listed but its file not yet written. */
  lemma ReachesListing(c: Cluster, s: State, p: string, g1: nat, g2: nat, a: nat, q: Ask, uid: string, name: string)
      returns (s': State)
    requires Fresh(s, p, g1, g2, a) && Requests(c.Spec(p)) && uid != "" && name != ""
    requires ConfirmsItself(c, s.api.Keys + {p}, p, q)
    requires Choose(c.labels, s.gpus, Sum(c.Spec(p), GpuCore), Sum(c.Spec(p), GpuMemory)).Device?
    ensures Reaches(c, s, s') && Charged(s'.charges, p)
    ensures s'.managers == s.managers[g1 := Ended][g2 := Listing(p)] && s'.removals == s.removals
    ensures p in s'.api && s'.api[p].flag.SaysTrue? && Lookup(s'.maps.visited, p, false)
    ensures p in s'.maps.uidsOfPod && s'.maps.uidsOfPod[p] == [uid]
  {
    hide Run, Reaches, Choose, Grant, Sum, CoreQuota, MemQuota, Requests, ConfirmsItself;
    var s1 := Registered(c, s, p, g1);
    var s2 := Placed(c, s1, p, a);
    Registers(c, s, p, g1, g2, a);
    assert s1.api.Keys == s.api.Keys + {p};
    Charges(c, s1, p, a, q);
    var sts := [Status(uid, name)];
    RecordSingle(s2.maps, p, uid, name);
    Records(c, s2, p, g2, sts);
    ReachesOn(c, s, s1, s2);
    s' := s2.(managers := s2.managers[g2 := Listing(p)], maps := RecordAll(s2.maps, p, sts));
    ReachesOn(c, s, s2, s');
    assert s'.charges[|s.charges|].pod == p;
  }

  /**
   * Why the full quota is promised only until the deletion: from every
   * reachable state such a pod has a run, through its deletion, to a quota
   * file holding zero on both axes. Under cgroup v2 it is filed under the
   * empty name, the container's own name being forgotten by then.
   */
  lemma LateWriterFilesZero(c: Cluster, gpus: seq<GpuRecord>, es: seq<Event>, p: string, q: Ask,
                            uid: string, name: string) returns (s': State)
    requires var s := Run(c, Initial(gpus), es);
             && p !in s.created && ConfirmsItself(c, s.api.Keys + {p}, p, q)
             && Choose(c.labels, s.gpus, Sum(c.Spec(p), GpuCore), Sum(c.Spec(p), GpuMemory)).Device?
    requires SomeRequested(c.Spec(p))
    requires uid != "" && name != ""
    ensures Reaches(c, Run(c, Initial(gpus), es), s')
    ensures var key := if c.cgroupV2 then "" else uid;
            p in s'.gone && Charged(s'.charges, p) && (p, key) in s'.files && s'.files[(p, key)] == ConfigOf(0, 0)
  {
    RequestsMeans(c.Spec(p));
    hide SomeRequested;
    hide Run, Reaches, Choose, Grant, Sum, ConfigOf, Requests, Charged, ConfirmsItself;
    var start := Run(c, Initial(gpus), es);
    var s0, g, a := MakesRoom(c, gpus, es, p);
    var s1 := ReachesListing(c, s0, p, g, g + 1, a, q, uid, name);
    var s2 := DeletedWhileListed(c, s1, p, g + 1, g + 2, uid);
    WritesLate(c, s2, p, g + 1, uid);
    s' := s2.(managers := s2.managers[g + 1 := Writing(p, [uid], 1)],
              files := s2.files[(p, LateKey(c, uid)) := ConfigOf(0, 0)]);
    ReachesOn(c, start, s0, s1);
    ReachesOn(c, start, s1, s2);
    ReachesOn(c, start, s2, s');
  }

  // ----- a lost mark

  /** Two goroutines are started for the new pod before either has moved. */
  lemma StartsTwo(c: Cluster, s: State, p: string, g1: nat, g2: nat, a: nat) returns (s': State)
    requires Fresh(s, p, g1, g2, a)
    ensures Reaches(c, s, s')
    ensures var snap := Snapshot(p, true, Absent);
            s' == s.(api := s.api[p := Annotations(false, Absent)], created := s.created + {p},
                     managers := s.managers[g1 := Starting(snap)][g2 := Starting(snap)])
  {
    hide Run, Reaches;
    Start(c, s);
    var s1 := Arrives(c, s, s, p, g1, Absent);
    s' := Notifies(c, s, s1, p, g2);
  }

  lemma ComesToVisit(c: Cluster, s: State, p: string, g: nat)
    requires g in s.managers && s.managers[g] == Starting(Snapshot(p, true, Absent))
    requires Requests(c.Spec(p)) && p !in s.maps.visited
    ensures Reaches(c, s, s.(managers := s.managers[g := Visiting(p)]))
  {
    hide Run, Reaches, Requests;
    var step := ManagerStep(g, true, None);
    Start(c, s);
    Then(c, s, s, step);
    var s1 := Apply(c, s, step);
    assert s1.managers[g] == CheckingVisited(p);
    Then(c, s, s1, step);
    assert Apply(c, s1, step).managers == s.managers[g := Visiting(p)];
  }

  /** From the visit to the fetched copy of the pod. */
  lemma VisitsAndFetches(c: Cluster, s: State, p: string, g: nat)
    requires g in s.managers && s.managers[g] == Visiting(p) && p in s.api
    ensures Reaches(c, s, s.(managers := s.managers[g := MarkingReady(p, s.api[p])],
                             maps := StoreRequest(MarkVisited(s.maps, p, c.Spec(p)), p, c.paths, c.Spec(p))))
  {
    hide Run, Reaches, StoreRequest, MarkVisited;
    var step := ManagerStep(g, true, None);
    Start(c, s);
    Then(c, s, s, step);
    var s1 := Apply(c, s, step);
    assert s1.managers[g] == MakingDir(p);
    Then(c, s, s1, step);
    var s2 := Apply(c, s1, step);
    assert s2.managers[g] == Storing(p);
    Then(c, s, s2, step);
    var s3 := Apply(c, s2, step);
    assert s3.managers[g] == Fetching(p);
    Then(c, s, s3, step);
    assert Apply(c, s3, step).managers == s.managers[g := MarkingReady(p, s.api[p])];
  }

  /** The copy, marked ready, replaces whatever annotations the pod has by now. */
  lemma Marks(c: Cluster, s: State, p: string, g: nat, copy: Annotations)
    requires g in s.managers && s.managers[g] == MarkingReady(p, copy) && p in s.api
    ensures Reaches(c, s, s.(api := s.api[p := copy.(ready := true)], managers := s.managers[g := Ended]))
  {
    hide Run, Reaches;
    Start(c, s);
    Then(c, s, s, ManagerStep(g, true, None));
  }

  /** Both goroutines have found the new pod unvisited. */
  lemma BothVisit(c: Cluster, s: State, p: string, g1: nat, g2: nat, a: nat) returns (s': State)
    requires Fresh(s, p, g1, g2, a) && Requests(c.Spec(p))
    ensures Reaches(c, s, s')
    ensures s' == s.(api := s.api[p := Annotations(false, Absent)], created := s.created + {p},
                     managers := s.managers[g1 := Visiting(p)][g2 := Visiting(p)])
  {
    hide Run, Reaches, Requests;
    var s1 := StartsTwo(c, s, p, g1, g2, a);
    ComesToVisit(c, s1, p, g1);
    var s2 := s1.(managers := s1.managers[g1 := Visiting(p)]);
    ComesToVisit(c, s2, p, g2);
    s' := s2.(managers := s2.managers[g2 := Visiting(p)]);
    assert s'.managers == s.managers[g1 := Visiting(p)][g2 := Visiting(p)];
    ReachesOn(c, s, s1, s2);
    ReachesOn(c, s, s2, s');
  }

  /** A goroutine about to visit goes on to mark the pod ready. */
  lemma VisitsAndMarks(c: Cluster, s: State, p: string, g: nat)
    requires g in s.managers && s.managers[g] == Visiting(p) && p in s.api
    ensures Reaches(c, s, s.(api := s.api[p := s.api[p].(ready := true)], managers := s.managers[g := Ended],
                             maps := StoreRequest(MarkVisited(s.maps, p, c.Spec(p)), p, c.paths, c.Spec(p))))
  {
    hide Run, Reaches, StoreRequest, MarkVisited;
    VisitsAndFetches(c, s, p, g);
    var mid := s.(managers := s.managers[g := MarkingReady(p, s.api[p])],
                  maps := StoreRequest(MarkVisited(s.maps, p, c.Spec(p)), p, c.paths, c.Spec(p)));
    Marks(c, mid, p, g, s.api[p]);
    assert mid.managers[g := Ended] == s.managers[g := Ended];
    ReachesOn(c, s, mid, mid.(api := s.api[p := s.api[p].(ready := true)], managers := mid.managers[g := Ended]));
  }

  /** Both goroutines hold a copy of the unmarked pod, and the first has marked it ready. */
  lemma BothFetch(c: Cluster, s: State, p: string, g1: nat, g2: nat, a: nat) returns (s': State)
    requires Fresh(s, p, g1, g2, a) && Requests(c.Spec(p))
    ensures Reaches(c, s, s') && g2 in s'.managers && s'.managers[g2] == MarkingReady(p, Annotations(false, Absent))
    ensures s'.api == s.api[p := Annotations(true, Absent)] && s'.gpus == s.gpus && s'.allocators == s.allocators
  {
    hide Run, Reaches, Requests, StoreRequest, MarkVisited;
    var s1 := BothVisit(c, s, p, g1, g2, a);
    VisitsAndFetches(c, s1, p, g2);
    var s2 := s1.(managers := s1.managers[g2 := MarkingReady(p, s1.api[p])],
                  maps := StoreRequest(MarkVisited(s1.maps, p, c.Spec(p)), p, c.paths, c.Spec(p)));
    VisitsAndMarks(c, s2, p, g1);
    s' := s2.(api := s2.api[p := s2.api[p].(ready := true)], managers := s2.managers[g1 := Ended],
              maps := StoreRequest(MarkVisited(s2.maps, p, c.Spec(p)), p, c.paths, c.Spec(p)));
    ReachesOn(c, s, s1, s2);
    ReachesOn(c, s, s2, s');
  }

  /**
   * Updates replace all annotations, and one can undo another: from every
   * reachable state a new pod has a run in which it is charged and marked
   * assigned, and then a second goroutine writes its older copy back, so that
   * the assigned mark is gone.
   */
  lemma MarkCanBeLost(c: Cluster, gpus: seq<GpuRecord>, es: seq<Event>, p: string, q: Ask) returns (s': State)
    requires var s := Run(c, Initial(gpus), es);
             && p !in s.created && ConfirmsItself(c, s.api.Keys + {p}, p, q)
             && Choose(c.labels, s.gpus, Sum(c.Spec(p), GpuCore), Sum(c.Spec(p), GpuMemory)).Device?
    requires SomeRequested(c.Spec(p))
    ensures Reaches(c, Run(c, Initial(gpus), es), s')
    ensures Charged(s'.charges, p) && p in s'.marked && p in s'.api && s'.api[p] == Annotations(true, Absent)
  {
    RequestsMeans(c.Spec(p));
    hide SomeRequested;
    hide Run, Reaches, Choose, Grant, Sum, Requests, ConfirmsItself;
    var start := Run(c, Initial(gpus), es);
    var s0, g, a := MakesRoom(c, gpus, es, p);
    var s1 := BothFetch(c, s0, p, g, g + 1, a);
    assert s1.api.Keys == s0.api.Keys + {p};
    Charges(c, s1, p, a, q);
    var s2 := Placed(c, s1, p, a);
    assert s2.charges[|s1.charges|].pod == p;
    Marks(c, s2, p, g + 1, Annotations(false, Absent));
    s' := s2.(api := s2.api[p := Annotations(true, Absent)], managers := s2.managers[g + 1 := Ended]);
    ReachesOn(c, start, s0, s1);
    ReachesOn(c, start, s1, s2);
    ReachesOn(c, start, s2, s');
  }

  // ----- the device as written is oversold end to end

  function Asking(core: int, mem: int): Containers {
    [Container(map[GpuCore := core, GpuMemory := mem], true)]
  }

  /** Three single-container pods. */
  const THREE_PODS :=
    Cluster(map["p1" := Asking(50, 10), "p2" := Asking(50, 10), "p3" := Asking(40, 0)], false, AsWritten, Unescaped)

  /** Core devices the plugin advertises for each card. */
  const CORES_PER_CARD: nat := 100

  /** A fresh card of 100 cores and 60 memory blocks. */
  function Card(uuid: string): GpuRecord {
    GpuRecord(uuid, 100, 60, 0, 0)
  }

  lemma AskingTotals(core: int, mem: int)
    ensures Sum(Asking(core, mem), GpuCore) == core && Sum(Asking(core, mem), GpuMemory) == mem
    ensures CoreQuota(Unescaped, Asking(core, mem)) == core && MemQuota(Unescaped, Asking(core, mem)) == 0
    ensures Requests(Asking(core, mem))
  {
    var cs := Asking(core, mem);
    assert cs[..0] == [];
    assert cs[0].requested;
  }

  lemma AskingConfirms(api: set<string>, p: string, core: nat, mem: nat)
    requires p in THREE_PODS.pods && THREE_PODS.pods[p] == Asking(core, mem) && core > 0
    ensures ConfirmsItself(THREE_PODS, api + {p}, p, Ask([p], 0, 0))
  {
    assert Asking(core, mem)[0].Limit(GpuCore) == core;
    AloneConfirms(THREE_PODS, api + {p}, p, 0);
  }

  lemma PlacedFacts(s: State, p: string, g1: nat, a: nat, r: GpuRecord, spare: GpuRecord, core: nat, mem: nat)
    requires THREE_PODS.Spec(p) == Asking(core, mem)
    requires s.gpus == [r, spare] && Choose(AsWritten, s.gpus, core, mem) == Device(0)
    requires Grant(AsWritten, s.gpus, core, mem) == [r.Charge(core, mem), spare]
    ensures var s' := Placed(THREE_PODS, Registered(THREE_PODS, s, p, g1), p, a);
            && s'.gpus == [r.Charge(core, mem), spare] && s'.charges == s.charges + [ChargeEntry(p, 0, core, mem)]
            && s'.files == s.files && s'.gone == s.gone && s'.events == s.events
            && s'.created == s.created + {p} && s'.maps.done == s.maps.done
            && s'.maps.visited.Keys == s.maps.visited.Keys + {p} && s'.maps.uidsOfPod == s.maps.uidsOfPod
            && s'.managers.Keys == s.managers.Keys + {g1} && s'.allocators.Keys == s.allocators.Keys + {a}
  {
    hide Choose, Grant, Sum, CoreQuota, MemQuota, Asking;
    AskingTotals(core, mem);
  }

  /** What a pod that went through alone leaves behind, for a single-container pod the first of two cards takes. */
  lemma CompletedFacts(s: State, p: string, g1: nat, g2: nat, a: nat, uid: string,
                       r: GpuRecord, spare: GpuRecord, core: nat, mem: nat)
    requires THREE_PODS.Spec(p) == Asking(core, mem) && core <= INT_MAX && uid != "" && p !in s.maps.uidsOfPod
    requires s.gpus == [r, spare] && Choose(AsWritten, s.gpus, core, mem) == Device(0)
    requires Grant(AsWritten, s.gpus, core, mem) == [r.Charge(core, mem), spare]
    ensures var s' := Completed(THREE_PODS, s, p, g1, g2, a, [Status(uid, "main")]);
            && s'.gpus == [r.Charge(core, mem), spare] && s'.charges == s.charges + [ChargeEntry(p, 0, core, mem)]
            && s'.files == s.files[(p, uid) := ConfigOf(core, 0)] && s'.gone == s.gone && s'.events == s.events
            && s'.created == s.created + {p} && s'.maps.done.Keys == s.maps.done.Keys + {p}
            && s'.maps.visited.Keys == s.maps.visited.Keys + {p}
            && s'.maps.uidsOfPod.Keys == s.maps.uidsOfPod.Keys + {p}
            && s'.managers.Keys == s.managers.Keys + {g1, g2} && s'.allocators.Keys == s.allocators.Keys + {a}
  {
    hide Choose, Grant, FullConfig, ConfigOf, Asking, RecordAll, KeysOf, FileAll, StartedUids, Placed, Registered;
    var mid := Placed(THREE_PODS, Registered(THREE_PODS, s, p, g1), p, a);
    PlacedFacts(s, p, g1, a, r, spare, core, mem);
    AskingConfig(p, core, mem);
    OneContainer(mid, p, uid);
  }

  lemma AskingConfig(p: string, core: int, mem: int)
    requires THREE_PODS.Spec(p) == Asking(core, mem)
    ensures FullConfig(THREE_PODS, p) == ConfigOf(core, 0)
  {
    hide Asking, ConfigOf;
    AskingTotals(core, mem);
  }

  lemma RecordSingle(m: Maps, p: string, uid: string, name: string)
    requires uid != "" && name != ""
    ensures RecordAll(m, p, [Status(uid, name)]) == RecordOne(m, p, Status(uid, name))
    ensures StartedUids([Status(uid, name)]) == [uid] && AnyStarted([Status(uid, name)])
  {
    var sts := [Status(uid, name)];
    assert sts[..0] == [] && sts[0] == Status(uid, name);
  }

  lemma FileSingle(c: Cluster, files: map<(string, string), Config>, p: string, key: string)
    ensures FileAll(c, files, p, [key]) == files[(p, key) := FullConfig(c, p)]
  {
    assert [key][..0] == [];
  }

  lemma KeySingle(names: map<string, string>, uid: string)
    ensures KeysOf(THREE_PODS, names, [uid]) == [uid]
  {
  }

  /** With one started container the loop writes one file. */
  lemma OneContainer(s: State, p: string, uid: string)
    requires uid != ""
    ensures var maps := RecordAll(s.maps, p, [Status(uid, "main")]);
            && FileAll(THREE_PODS, s.files, p, KeysOf(THREE_PODS, maps.nameByUid, StartedUids([Status(uid, "main")])))
               == s.files[(p, uid) := FullConfig(THREE_PODS, p)]
            && maps.visited == s.maps.visited && maps.done == s.maps.done
            && maps.uidsOfPod.Keys == s.maps.uidsOfPod.Keys + {p}
  {
    hide FullConfig, RecordAll, StartedUids, KeysOf, FileAll;
    RecordSingle(s.maps, p, uid, "main");
    KeySingle(RecordAll(s.maps, p, [Status(uid, "main")]).nameByUid, uid);
    FileSingle(THREE_PODS, s.files, p, uid);
  }

  /** One pod of the example goes through: the first card is charged and the quota file carries its cores. */
  lemma NextTenant(s: State, p: string, g1: nat, g2: nat, a: nat, uid: string,
                   r: GpuRecord, spare: GpuRecord, core: nat, mem: nat) returns (s': State)
    requires Fresh(s, p, g1, g2, a) && uid != ""
    requires p in THREE_PODS.pods && THREE_PODS.pods[p] == Asking(core, mem) && 0 < core <= INT_MAX
    requires s.gpus == [r, spare] && Feasible(AsWritten, r, core, mem) && r.Slack() <= spare.Slack() < SENTINEL
    ensures Reaches(THREE_PODS, s, s')
    ensures s'.gpus == [r.Charge(core, mem), spare] && s'.charges == s.charges + [ChargeEntry(p, 0, core, mem)]
    ensures s'.files == s.files[(p, uid) := ConfigOf(core, 0)] && s'.gone == s.gone && s'.events == []
    ensures s'.created == s.created + {p} && s'.maps.done.Keys == s.maps.done.Keys + {p}
    ensures s'.maps.visited.Keys == s.maps.visited.Keys + {p} && s'.maps.uidsOfPod.Keys == s.maps.uidsOfPod.Keys + {p}
    ensures s'.managers.Keys == s.managers.Keys + {g1, g2} && s'.allocators.Keys == s.allocators.Keys + {a}
  {
    hide Run, Reaches, Choose, Grant, Sum, Requests, Feasible, ConfigOf, Asking, ConfirmsItself, Completed;
    AskingTotals(core, mem);
    FirstCardTaken(r, spare, core, mem);
    AskingConfirms(s.api.Keys, p, core, mem);
    RecordSingle(s.maps, p, uid, "main");
    CompletesAlone(THREE_PODS, s, p, g1, g2, a, Ask([p], 0, 0), [Status(uid, "main")]);
    CompletedFacts(s, p, g1, g2, a, uid, r, spare, core, mem);
    s' := Completed(THREE_PODS, s, p, g1, g2, a, [Status(uid, "main")]);
  }

  /** What is left of the state for the next pod to be new to it. */
  predicate Knows(s: State, pods: set<string>, goroutines: nat, allocators: nat) {
    && s.created == pods && s.maps.visited.Keys == pods && s.maps.uidsOfPod.Keys == pods && s.maps.done.Keys == pods
    && (forall g :: g in s.managers ==> g < goroutines) && (forall a :: a in s.allocators ==> a < allocators)
    && s.events == [] && s.gone == {}
  }

  lemma TenantAfter(start: State, s: State, n: nat, pods: set<string>, p: string, uid: string,
                    r: GpuRecord, spare: GpuRecord, core: nat, mem: nat) returns (s': State)
    requires Reaches(THREE_PODS, start, s) && Knows(s, pods, 2 * n, n) && p !in pods && uid != ""
    requires p in THREE_PODS.pods && THREE_PODS.pods[p] == Asking(core, mem) && 0 < core <= INT_MAX
    requires s.gpus == [r, spare] && Feasible(AsWritten, r, core, mem) && r.Slack() <= spare.Slack() < SENTINEL
    ensures Reaches(THREE_PODS, start, s') && Knows(s', pods + {p}, 2 * (n + 1), n + 1)
    ensures s'.gpus == [r.Charge(core, mem), spare] && s'.charges == s.charges + [ChargeEntry(p, 0, core, mem)]
    ensures s'.files == s.files[(p, uid) := ConfigOf(core, 0)]
  {
    hide Run, Reaches, Feasible, Asking, ConfigOf;
    s' := NextTenant(s, p, 2 * n, 2 * n + 1, n, uid, r, spare, core, mem);
    ReachesOn(THREE_PODS, start, s, s');
  }

  lemma NothingKnown(gpus: seq<GpuRecord>)
    ensures Knows(Initial(gpus), {}, 0, 0)
  {
  }

  /** What the example's pods ask for. */
  lemma ThreeSpecs()
    ensures "p1" in THREE_PODS.pods && THREE_PODS.pods["p1"] == Asking(50, 10)
    ensures "p2" in THREE_PODS.pods && THREE_PODS.pods["p2"] == Asking(50, 10)
    ensures "p3" in THREE_PODS.pods && THREE_PODS.pods["p3"] == Asking(40, 0)
    ensures "p1" != "p2" && "p1" != "p3" && "p2" != "p3"
  {
    assert "p1"[1] != "p2"[1] && "p1"[1] != "p3"[1] && "p2"[1] != "p3"[1];
  }

  lemma FirstTwoTenants(card: GpuRecord, spare: GpuRecord) returns (s: State)
    requires card.coreCap == spare.coreCap == 100 && card.memCap == spare.memCap == 60
    requires card.coreUsed == spare.coreUsed == card.memUsed == spare.memUsed == 0
    ensures Reaches(THREE_PODS, Initial([card, spare]), s) && Knows(s, {"p1", "p2"}, 4, 2)
    ensures s.gpus == [card.Charge(100, 20), spare]
    ensures s.charges == [ChargeEntry("p1", 0, 50, 10), ChargeEntry("p2", 0, 50, 10)]
    ensures s.files == map[("p1", "u1") := ConfigOf(50, 0), ("p2", "u2") := ConfigOf(50, 0)]
  {
    hide Run, Reaches, Asking, ConfigOf, Knows, Feasible;
    var start := Initial([card, spare]);
    ThreeSpecs();
    FeasibleMeans(card, 50, 10);
    FeasibleMeans(card.Charge(50, 10), 50, 10);
    Start(THREE_PODS, start);
    NothingKnown([card, spare]);
    var s1 := TenantAfter(start, start, 0, {}, "p1", "u1", card, spare, 50, 10);
    assert {} + {"p1"} == {"p1"} && {"p1"} + {"p2"} == {"p1", "p2"};
    s := TenantAfter(start, s1, 1, {"p1"}, "p2", "u2", card.Charge(50, 10), spare, 50, 10);
  }

  /**
   * Under the labels as written the handshake can hand out 140 percent of one
   * device: on two fresh cards, the quota files of three live pods on the first
   * sum to 140 and the second stays free. The pods ask for no more core devices
   * than the cards advertise.
   */
  lemma AsWrittenOversellsDevice(first: string, second: string) returns (s: State)
    ensures Reaches(THREE_PODS, Initial([Card(first), Card(second)]), s)
    ensures Tenants(s, 0, ["p1", "p2", "p3"], ["u1", "u2", "u3"]) && s.gone == {}
    ensures UtilisationSum(s.files, ["p1", "p2", "p3"], ["u1", "u2", "u3"]) == 140
    ensures s.gpus == [Card(first).Charge(140, 20), Card(second)]
    ensures RequestSum(THREE_PODS, ["p1", "p2", "p3"], GpuCore) <= CORES_PER_CARD * |s.gpus|
  {
    hide Run, Reaches, Asking, ConfigOf, Tenants, UtilisationSum, RequestSum, Feasible;
    var card, spare := Card(first), Card(second);
    s := FirstTwoTenants(card, spare);
    ThreeSpecs();
    FeasibleMeans(card.Charge(100, 20), 40, 0);
    s := TenantAfter(Initial([card, spare]), s, 2, {"p1", "p2"}, "p3", "u3", card.Charge(100, 20), spare, 40, 0);
    ThreeFiles(s);
    ThreeRequests();
  }

  lemma ThreeRequests()
    ensures RequestSum(THREE_PODS, ["p1", "p2", "p3"], GpuCore) == 140
  {
    hide Sum, Asking;
    var ps := ["p1", "p2", "p3"];
    ThreeSpecs();
    assert ps[..2] == ["p1", "p2"] && ps[..2][..1] == ["p1"] && ps[..2][..1][..0] == [];
    AskingTotals(50, 10);
    AskingTotals(40, 0);
    assert RequestSum(THREE_PODS, ["p1"], GpuCore) == 50;
    assert RequestSum(THREE_PODS, ["p1", "p2"], GpuCore) == 100;
  }

  lemma ThreeFiles(s: State)
    requires s.charges == [ChargeEntry("p1", 0, 50, 10), ChargeEntry("p2", 0, 50, 10), ChargeEntry("p3", 0, 40, 0)]
    requires s.files == map[("p1", "u1") := ConfigOf(50, 0), ("p2", "u2") := ConfigOf(50, 0),
                            ("p3", "u3") := ConfigOf(40, 0)]
    requires s.gone == {}
    ensures Tenants(s, 0, ["p1", "p2", "p3"], ["u1", "u2", "u3"])
    ensures UtilisationSum(s.files, ["p1", "p2", "p3"], ["u1", "u2", "u3"]) == 140
  {
    var ps, keys := ["p1", "p2", "p3"], ["u1", "u2", "u3"];
    assert s.charges[0].pod == "p1" && s.charges[1].pod == "p2" && s.charges[2].pod == "p3";
    assert PlacedOn(s.charges, "p1", 0) && PlacedOn(s.charges, "p2", 0) && PlacedOn(s.charges, "p3", 0);
    assert "p1"[1] != "p2"[1] && "p1"[1] != "p3"[1] && "p2"[1] != "p3"[1];
    assert ps[..2] == ["p1", "p2"] && ps[..2][..1] == ["p1"] && ps[..2][..1][..0] == [];
    assert keys[..2] == ["u1", "u2"] && keys[..2][..1] == ["u1"] && keys[..2][..1][..0] == [];
    assert UtilisationSum(s.files, ["p1"], ["u1"]) == 50;
    assert UtilisationSum(s.files, ["p1", "p2"], ["u1", "u2"]) == 100;
  }
}
