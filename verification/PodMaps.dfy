/** The pod manager's eight maps, the critical sections that update them, and their consistency. */
module PodMaps {
  import opened Pods

  /** One entry of a pod's container statuses; the id is empty until the container has started. */
  datatype Status = Status(uid: string, name: string)

  datatype Maps = Maps(
    podByUid: map<string, Containers>,
    nameByUid: map<string, string>,
    uidByName: map<string, string>,
    uidsOfPod: map<string, seq<string>>,
    visited: map<string, bool>,
    done: map<string, bool>,
    coreRequest: map<string, int>,
    memRequest: map<string, int>)

  const EMPTY_MAPS := Maps(map[], map[], map[], map[], map[], map[], map[], map[])

  /** A Go map read: the zero value when the key is missing. */
  function Lookup<K, V>(m: map<K, V>, k: K, zero: V): V {
    if k in m then m[k] else zero
  }

  // ----- a pod's request, as the manager sums it

  /**
   * How the manager's JSON paths name the GPU memory and MLU limits. The code
   * writes the dot of `iscas.cn` unescaped, which steps into a nested object
   * that limits do not have, so the limit is never found; with the dot escaped,
   * as in its path for GPU cores, it is.
   */
  datatype Paths = Unescaped | Escaped

  function MemLimit(paths: Paths, c: Container): int {
    if paths.Escaped? then c.Limit(GpuMemory) else 0
  }

  predicate FindsMlu(paths: Paths, c: Container) {
    paths.Escaped? && MluCore in c.limits && MluMemory in c.limits
  }

  function CoreShare(paths: Paths, c: Container): int {
    if GpuCore in c.limits then c.Limit(GpuCore)
    else if FindsMlu(paths, c) then c.Limit(MluCore)
    else 0
  }

  function MemShare(paths: Paths, c: Container): int {
    if GpuCore in c.limits then MemLimit(paths, c)
    else if FindsMlu(paths, c) then c.Limit(MluMemory)
    else 0
  }

  function CoreQuota(paths: Paths, cs: Containers): int {
    if cs == [] then 0 else CoreQuota(paths, cs[..|cs| - 1]) + CoreShare(paths, cs[|cs| - 1])
  }

  function MemQuota(paths: Paths, cs: Containers): int {
    if cs == [] then 0 else MemQuota(paths, cs[..|cs| - 1]) + MemShare(paths, cs[|cs| - 1])
  }

  /** No container of a GPU pod carries the MLU limits instead of a GPU core limit. */
  predicate NoMlu(cs: Containers) {
    forall i :: 0 <= i < |cs| ==> GpuCore in cs[i].limits || MluCore !in cs[i].limits || MluMemory !in cs[i].limits
  }

  /** Every container limiting GPU memory also has a GPU core limit. */
  predicate MemoryWithCore(cs: Containers) {
    forall i :: 0 <= i < |cs| && cs[i].Limit(GpuMemory) != 0 ==> GpuCore in cs[i].limits
  }

  /**
   * For a GPU pod the manager's core total is the one the allocator charges.
   * Its memory total is never more than the allocator's. With escaped paths it
   * is the same exactly when no container limits memory without cores; as
   * written it is always zero.
   */
  lemma {:induction false} ManagerAndAllocatorAgree(paths: Paths, cs: Containers)
    requires paths.Unescaped? || NoMlu(cs)
    ensures CoreQuota(paths, cs) == Sum(cs, GpuCore)
    ensures paths.Escaped? && MemoryWithCore(cs) ==> MemQuota(paths, cs) == Sum(cs, GpuMemory)
    ensures NonNegative(cs) ==> 0 <= MemQuota(paths, cs) <= Sum(cs, GpuMemory)
    ensures paths.Escaped? && NonNegative(cs) && MemQuota(paths, cs) == Sum(cs, GpuMemory) ==> MemoryWithCore(cs)
    ensures paths.Unescaped? ==> MemQuota(paths, cs) == 0
  {
    if cs != [] {
      var n := |cs| - 1;
      assert forall i :: 0 <= i < n ==> cs[..n][i] == cs[i];
      ManagerAndAllocatorAgree(paths, cs[..n]);
      assert MemoryWithCore(cs) <==>
             MemoryWithCore(cs[..n]) && (cs[n].Limit(GpuMemory) != 0 ==> GpuCore in cs[n].limits);
      assert NonNegative(cs) ==> cs[n].Limit(GpuMemory) >= 0;
    }
  }

  /**
   * An MLU pod whose containers limit both MLU resources or neither gets its
   * MLU totals with escaped paths, and nothing as written.
   */
  lemma {:induction false} MluQuota(paths: Paths, cs: Containers)
    requires forall i :: 0 <= i < |cs| ==>
               GpuCore !in cs[i].limits && (MluCore in cs[i].limits <==> MluMemory in cs[i].limits)
    ensures paths.Escaped? ==> CoreQuota(paths, cs) == Sum(cs, MluCore) && MemQuota(paths, cs) == Sum(cs, MluMemory)
    ensures paths.Unescaped? ==> CoreQuota(paths, cs) == 0 && MemQuota(paths, cs) == 0
  {
    if cs != [] {
      assert forall i :: 0 <= i < |cs| - 1 ==> cs[..|cs| - 1][i] == cs[i];
      MluQuota(paths, cs[..|cs| - 1]);
    }
  }

  /** What one container adds: its GPU limits if it limits GPU cores, else its MLU limits if both are found. */
  lemma QuotaOfContainer(paths: Paths, c: Container)
    ensures GpuCore in c.limits ==>
              CoreQuota(paths, [c]) == c.limits[GpuCore]
              && MemQuota(paths, [c]) == if paths.Escaped? then c.Limit(GpuMemory) else 0
    ensures GpuCore !in c.limits && paths.Escaped? && MluCore in c.limits && MluMemory in c.limits ==>
              CoreQuota(paths, [c]) == c.limits[MluCore] && MemQuota(paths, [c]) == c.limits[MluMemory]
    ensures GpuCore !in c.limits && (paths.Unescaped? || MluCore !in c.limits || MluMemory !in c.limits) ==>
              CoreQuota(paths, [c]) == 0 && MemQuota(paths, [c]) == 0
  {
    assert [c][..0] == [];
  }

  /** Containers add up, also in pods that mix GPU and MLU limits. */
  lemma {:induction false} QuotasAddUp(paths: Paths, a: Containers, b: Containers)
    ensures CoreQuota(paths, a + b) == CoreQuota(paths, a) + CoreQuota(paths, b)
    ensures MemQuota(paths, a + b) == MemQuota(paths, a) + MemQuota(paths, b)
  {
    if b == [] {
      assert a + b == a;
    } else {
      hide CoreShare, MemShare;
      assert (a + b)[..|a + b| - 1] == a + b[..|b| - 1];
      QuotasAddUp(paths, a, b[..|b| - 1]);
    }
  }

  // ----- the critical sections, on values

  function RecordOne(m: Maps, pod: string, st: Status): Maps {
    if st.uid == "" || st.name == "" then m
    else m.(nameByUid := m.nameByUid[st.uid := st.name],
            uidByName := m.uidByName[st.name := st.uid],
            uidsOfPod := m.uidsOfPod[pod := Lookup(m.uidsOfPod, pod, []) + [st.uid]])
  }

  function RecordAll(m: Maps, pod: string, sts: seq<Status>): Maps {
    if sts == [] then m else RecordOne(RecordAll(m, pod, sts[..|sts| - 1]), pod, sts[|sts| - 1])
  }

  function ForgetOne(m: Maps, uid: string): Maps {
    m.(nameByUid := m.nameByUid - {uid},
       uidByName := m.uidByName - {Lookup(m.nameByUid, uid, "")})
  }

  function ForgetAll(m: Maps, uids: seq<string>): Maps {
    if uids == [] then m else ForgetOne(ForgetAll(m, uids[..|uids| - 1]), uids[|uids| - 1])
  }

  function MarkVisited(m: Maps, pod: string, cs: Containers): Maps {
    m.(visited := m.visited[pod := true], podByUid := m.podByUid[pod := cs])
  }

  function StoreRequest(m: Maps, pod: string, paths: Paths, cs: Containers): Maps {
    m.(coreRequest := m.coreRequest[pod := CoreQuota(paths, cs)],
       memRequest := m.memRequest[pod := MemQuota(paths, cs)])
  }

  function MarkDone(m: Maps, pod: string): Maps {
    m.(done := m.done[pod := true])
  }

  function Delete(m: Maps, pod: string): Maps {
    if !Lookup(m.visited, pod, false) then m
    else
      var cleared := m.(visited := m.visited[pod := false],
                        coreRequest := m.coreRequest - {pod},
                        memRequest := m.memRequest - {pod},
                        podByUid := m.podByUid - {pod},
                        done := m.done - {pod});
      var forgot := ForgetAll(cleared, Lookup(m.uidsOfPod, pod, []));
      forgot.(uidsOfPod := forgot.uidsOfPod - {pod})
  }

  // ----- the manager object

  class VirtualManager {
    var podByUid: map<string, Containers>
    var nameByUid: map<string, string>
    var uidByName: map<string, string>
    var uidsOfPod: map<string, seq<string>>
    var visited: map<string, bool>
    var done: map<string, bool>
    var coreRequest: map<string, int>
    var memRequest: map<string, int>

    ghost function State(): Maps
      reads this
    {
      Maps(podByUid, nameByUid, uidByName, uidsOfPod, visited, done, coreRequest, memRequest)
    }

    constructor ()
      ensures State() == EMPTY_MAPS
    {
      podByUid, nameByUid, uidByName, uidsOfPod := map[], map[], map[], map[];
      visited, done, coreRequest, memRequest := map[], map[], map[], map[];
    }

    /** Record the containers that have started; tells whether there was any. */
    method RecordContainers(pod: string, sts: seq<Status>) returns (found: bool)
      modifies this
      ensures State() == RecordAll(old(State()), pod, sts)
      ensures found == exists i :: 0 <= i < |sts| && sts[i].uid != "" && sts[i].name != ""
      ensures forall w :: Consistent(w, old(State())) && Observable(w, pod, sts) ==> Consistent(w, State())
    {
      found := false;
      for i := 0 to |sts|
        invariant State() == RecordAll(old(State()), pod, sts[..i])
        invariant found == exists j :: 0 <= j < i && sts[j].uid != "" && sts[j].name != ""
      {
        assert sts[..i + 1][..i] == sts[..i];
        var uid, name := sts[i].uid, sts[i].name;
        if uid != "" && name != "" {
          nameByUid := nameByUid[uid := name];
          uidByName := uidByName[name := uid];
          uidsOfPod := uidsOfPod[pod := Lookup(uidsOfPod, pod, []) + [uid]];
          found := true;
        }
      }
      assert sts[..|sts|] == sts;
      forall w | Consistent(w, old(State())) && Observable(w, pod, sts) ensures Consistent(w, State()) {
        RecordKeepsConsistent(w, old(State()), pod, sts);
      }
    }

    method Visit(pod: string, cs: Containers)
      modifies this
      ensures State() == MarkVisited(old(State()), pod, cs)
      ensures forall w :: Consistent(w, old(State())) ==> Consistent(w, State())
    {
      visited := visited[pod := true];
      podByUid := podByUid[pod := cs];
    }

    method Finish(pod: string)
      modifies this
      ensures State() == MarkDone(old(State()), pod)
      ensures forall w :: Consistent(w, old(State())) ==> Consistent(w, State())
    {
      done := done[pod := true];
    }

    /** Sum the containers' limits and store both totals. */
    method Store(pod: string, paths: Paths, cs: Containers)
      modifies this
      ensures State() == StoreRequest(old(State()), pod, paths, cs)
      ensures forall w :: Consistent(w, old(State())) ==> Consistent(w, State())
    {
      var core, mem := 0, 0;
      for i := 0 to |cs|
        invariant core == CoreQuota(paths, cs[..i]) && mem == MemQuota(paths, cs[..i])
      {
        assert cs[..i + 1][..i] == cs[..i];
        var c := cs[i];
        if GpuCore in c.limits {
          core, mem := core + c.Limit(GpuCore), mem + MemLimit(paths, c);
        } else if FindsMlu(paths, c) {
          core, mem := core + c.Limit(MluCore), mem + c.Limit(MluMemory);
        }
      }
      assert cs[..|cs|] == cs;
      coreRequest := coreRequest[pod := core];
      memRequest := memRequest[pod := mem];
    }

    /** The locked section of the pod deletion. */
    method DeletePod(pod: string)
      modifies this
      ensures State() == Delete(old(State()), pod)
      ensures forall w :: Consistent(w, old(State())) ==> Consistent(w, State())
    {
      hide Consistent, Observable;
      if !Lookup(visited, pod, false) {
        return;
      }
      visited := visited[pod := false];
      coreRequest := coreRequest - {pod};
      memRequest := memRequest - {pod};
      podByUid := podByUid - {pod};
      done := done - {pod};
      var uids := Lookup(uidsOfPod, pod, []);
      ghost var cleared := State();
      for i := 0 to |uids|
        invariant State() == ForgetAll(cleared, uids[..i])
      {
        assert uids[..i + 1][..i] == uids[..i];
        var name := Lookup(nameByUid, uids[i], "");
        nameByUid := nameByUid - {uids[i]};
        uidByName := uidByName - {name};
      }
      assert uids[..|uids|] == uids;
      uidsOfPod := uidsOfPod - {pod};
      forall w | Consistent(w, old(State())) ensures Consistent(w, State()) {
        DeleteKeepsConsistent(w, old(State()), pod);
      }
    }
  }

  // ----- consistency

  /** The world the manager observes: each container uid has one name and one owner pod. */
  datatype World = World(name: map<string, string>, owner: map<string, string>)

  ghost predicate Observable(w: World, pod: string, sts: seq<Status>) {
    forall i :: 0 <= i < |sts| && sts[i].uid != "" && sts[i].name != "" ==>
      && sts[i].uid in w.name && w.name[sts[i].uid] == sts[i].name
      && sts[i].uid in w.owner && w.owner[sts[i].uid] == pod
  }

  ghost predicate RealNames(w: World, m: Maps) {
    forall u :: u in m.nameByUid ==> u in w.name && m.nameByUid[u] == w.name[u] != ""
  }

  ghost predicate Inverse(m: Maps) {
    forall n :: n in m.uidByName ==> m.uidByName[n] in m.nameByUid && m.nameByUid[m.uidByName[n]] == n
  }

  ghost predicate OwnUids(w: World, m: Maps) {
    forall p, u :: p in m.uidsOfPod && u in m.uidsOfPod[p] ==> u in m.nameByUid && u in w.owner && w.owner[u] == p
  }

  /** Names by uid are the real ones, uids by name invert them, and every listed uid is named and owned by its pod. */
  ghost predicate Consistent(w: World, m: Maps) {
    RealNames(w, m) && Inverse(m) && OwnUids(w, m)
  }

  lemma RecordOneKeepsConsistent(w: World, m: Maps, pod: string, st: Status)
    requires Consistent(w, m) && Observable(w, pod, [st])
    ensures Consistent(w, RecordOne(m, pod, st))
  {
    assert [st][0] == st;
    var m' := RecordOne(m, pod, st);
    if m' != m {
      forall p, u | p in m'.uidsOfPod && u in m'.uidsOfPod[p]
        ensures u in m'.nameByUid && u in w.owner && w.owner[u] == p
      {
      }
    }
  }

  lemma {:induction false} RecordKeepsConsistent(w: World, m: Maps, pod: string, sts: seq<Status>)
    requires Consistent(w, m) && Observable(w, pod, sts)
    ensures Consistent(w, RecordAll(m, pod, sts))
  {
    if sts != [] {
      hide Consistent, RecordOne;
      var n := |sts| - 1;
      RecordKeepsConsistent(w, m, pod, sts[..n]);
      RecordOneKeepsConsistent(w, RecordAll(m, pod, sts[..n]), pod, sts[n]);
    }
  }

  lemma {:induction false} ForgetAllExact(w: World, m: Maps, uids: seq<string>)
    requires RealNames(w, m) && Inverse(m)
    ensures var f := ForgetAll(m, uids);
      && (forall u :: u in f.nameByUid <==> u in m.nameByUid && u !in uids)
      && (forall u :: u in f.nameByUid ==> f.nameByUid[u] == m.nameByUid[u])
      && (forall n :: n in f.uidByName ==> n in m.uidByName && f.uidByName[n] == m.uidByName[n])
      && (forall n :: n in f.uidByName ==> f.uidByName[n] in f.nameByUid)
  {
    if uids != [] {
      ForgetAllExact(w, m, uids[..|uids| - 1]);
    }
  }

  lemma {:induction false} ForgetIgnoresRest(m: Maps, m': Maps, uids: seq<string>)
    requires m.nameByUid == m'.nameByUid && m.uidByName == m'.uidByName
    ensures var f := ForgetAll(m, uids);
            ForgetAll(m', uids) == m'.(nameByUid := f.nameByUid, uidByName := f.uidByName)
  {
    if uids != [] {
      ForgetIgnoresRest(m, m', uids[..|uids| - 1]);
    }
  }

  /** A deletion, map by map. */
  lemma DeleteByMap(m: Maps, pod: string)
    requires Lookup(m.visited, pod, false)
    ensures var f := ForgetAll(m, Lookup(m.uidsOfPod, pod, []));
            Delete(m, pod) ==
            Maps(m.podByUid - {pod}, f.nameByUid, f.uidByName, m.uidsOfPod - {pod}, m.visited[pod := false],
                 m.done - {pod}, m.coreRequest - {pod}, m.memRequest - {pod})
  {
    hide ForgetAll;
    ForgetIgnoresRest(m, m.(visited := m.visited[pod := false],
                            coreRequest := m.coreRequest - {pod},
                            memRequest := m.memRequest - {pod},
                            podByUid := m.podByUid - {pod},
                            done := m.done - {pod}), Lookup(m.uidsOfPod, pod, []));
  }

  /** A deletion keeps the maps consistent even with repeated uids and names shared between pods. */
  lemma DeleteKeepsConsistent(w: World, m: Maps, pod: string)
    requires Consistent(w, m)
    ensures Consistent(w, Delete(m, pod))
  {
    hide Delete, ForgetAll;
    if Lookup(m.visited, pod, false) {
      var d, uids := Delete(m, pod), Lookup(m.uidsOfPod, pod, []);
      DeleteByMap(m, pod);
      ForgetAllExact(w, m, uids);
      forall p, u | p in d.uidsOfPod && u in d.uidsOfPod[p]
        ensures u in d.nameByUid && u in w.owner && w.owner[u] == p
      {
        assert p != pod && u in m.uidsOfPod[p] && w.owner[u] == p;
        assert u !in uids;
      }
    } else {
      NothingToDelete(m, pod);
    }
  }

  lemma NothingToDelete(m: Maps, pod: string)
    requires !Lookup(m.visited, pod, false)
    ensures Delete(m, pod) == m
  {
  }

  /** A deleted pod leaves nothing but its cleared visited flag, and takes nothing of any other pod. */
  lemma DeleteIsExact(w: World, m: Maps, pod: string, other: string)
    requires Consistent(w, m) && Lookup(m.visited, pod, false) && other != pod
    ensures var d := Delete(m, pod);
      && d.visited == m.visited[pod := false]
      && pod !in d.podByUid && pod !in d.done && pod !in d.coreRequest && pod !in d.memRequest && pod !in d.uidsOfPod
      && (forall u :: u in Lookup(m.uidsOfPod, pod, []) ==> u !in d.nameByUid)
      && (forall n :: n in d.uidByName ==> d.uidByName[n] !in Lookup(m.uidsOfPod, pod, []))
      && Lookup(d.uidsOfPod, other, []) == Lookup(m.uidsOfPod, other, [])
      && (forall u :: u in Lookup(m.uidsOfPod, other, []) ==> u in d.nameByUid && d.nameByUid[u] == m.nameByUid[u])
      && Lookup(d.coreRequest, other, 0) == Lookup(m.coreRequest, other, 0)
      && Lookup(d.memRequest, other, 0) == Lookup(m.memRequest, other, 0)
  {
    hide Delete, ForgetAll;
    var uids := Lookup(m.uidsOfPod, pod, []);
    DeleteByMap(m, pod);
    ForgetAllExact(w, m, uids);
    forall u | u in Lookup(m.uidsOfPod, other, []) ensures u in m.nameByUid && u !in uids {
      assert u in w.owner && w.owner[u] == other;
    }
  }

  // ----- what recording does

  predicate IsStarted(st: Status) {
    st.uid != "" && st.name != ""
  }

  /** The uids of the started containers, in order. */
  function StartedUids(sts: seq<Status>): seq<string> {
    if sts == [] then []
    else
      StartedUids(sts[..|sts| - 1]) + if IsStarted(sts[|sts| - 1]) then [sts[|sts| - 1].uid] else []
  }

  /** Container `i` has started, and no later started one has its uid. */
  predicate LastOfUid(sts: seq<Status>, i: int) {
    && 0 <= i < |sts| && IsStarted(sts[i])
    && forall j :: i < j < |sts| && IsStarted(sts[j]) ==> sts[j].uid != sts[i].uid
  }

  /** Container `i` has started, and no later started one has its name. */
  predicate LastOfName(sts: seq<Status>, i: int) {
    && 0 <= i < |sts| && IsStarted(sts[i])
    && forall j :: i < j < |sts| && IsStarted(sts[j]) ==> sts[j].name != sts[i].name
  }

  predicate SomeUid(sts: seq<Status>, uid: string) {
    exists i :: 0 <= i < |sts| && IsStarted(sts[i]) && sts[i].uid == uid
  }

  predicate SomeName(sts: seq<Status>, name: string) {
    exists i :: 0 <= i < |sts| && IsStarted(sts[i]) && sts[i].name == name
  }

  /** The pod's list grows by the started uids in order; no other list, and none of the other five maps, changes. */
  lemma {:induction false} RecordListsStarted(m: Maps, pod: string, sts: seq<Status>)
    ensures var r := RecordAll(m, pod, sts);
            && Lookup(r.uidsOfPod, pod, []) == Lookup(m.uidsOfPod, pod, []) + StartedUids(sts)
            && (pod in r.uidsOfPod <==> pod in m.uidsOfPod || StartedUids(sts) != [])
            && (forall q :: q != pod ==>
                  (q in r.uidsOfPod <==> q in m.uidsOfPod) && (q in r.uidsOfPod ==> r.uidsOfPod[q] == m.uidsOfPod[q]))
            && r == m.(nameByUid := r.nameByUid, uidByName := r.uidByName, uidsOfPod := r.uidsOfPod)
  {
    if sts != [] {
      RecordListsStarted(m, pod, sts[..|sts| - 1]);
    }
  }

  /** A started uid maps to the name it came with last; all other uids keep what they had. */
  ghost predicate NamesFollow(sts: seq<Status>, before: map<string, string>, names: map<string, string>) {
    && (forall i :: LastOfUid(sts, i) ==> sts[i].uid in names && names[sts[i].uid] == sts[i].name)
    && (forall u :: !SomeUid(sts, u) ==>
          (u in names <==> u in before) && (u in names ==> names[u] == before[u]))
  }

  /** A started name maps to the uid it came with last; all other names keep what they had. */
  ghost predicate UidsFollow(sts: seq<Status>, before: map<string, string>, uids: map<string, string>) {
    && (forall i :: LastOfName(sts, i) ==> sts[i].name in uids && uids[sts[i].name] == sts[i].uid)
    && (forall n :: !SomeName(sts, n) ==>
          (n in uids <==> n in before) && (n in uids ==> uids[n] == before[n]))
  }

  lemma LastOfUidBefore(sts: seq<Status>, i: int)
    requires LastOfUid(sts, i)
    ensures 0 <= i < |sts|
    ensures var n := |sts| - 1;
            i < n ==>
              LastOfUid(sts[..n], i) && sts[..n][i] == sts[i] && (IsStarted(sts[n]) ==> sts[n].uid != sts[i].uid)
    ensures i == |sts| - 1 ==> IsStarted(sts[i])
  {
  }

  lemma NoUidBefore(sts: seq<Status>, x: string)
    requires sts != [] && !SomeUid(sts, x)
    ensures !SomeUid(sts[..|sts| - 1], x)
    ensures IsStarted(sts[|sts| - 1]) ==> sts[|sts| - 1].uid != x
  {
  }

  lemma LastOfNameBefore(sts: seq<Status>, i: int)
    requires LastOfName(sts, i)
    ensures 0 <= i < |sts|
    ensures var n := |sts| - 1;
            i < n ==>
              LastOfName(sts[..n], i) && sts[..n][i] == sts[i] && (IsStarted(sts[n]) ==> sts[n].name != sts[i].name)
    ensures i == |sts| - 1 ==> IsStarted(sts[i])
  {
  }

  lemma NoNameBefore(sts: seq<Status>, x: string)
    requires sts != [] && !SomeName(sts, x)
    ensures !SomeName(sts[..|sts| - 1], x)
    ensures IsStarted(sts[|sts| - 1]) ==> sts[|sts| - 1].name != x
  {
  }

  lemma NamesGoOn(sts: seq<Status>, before: map<string, string>, names: map<string, string>)
    requires sts != [] && NamesFollow(sts[..|sts| - 1], before, names)
    ensures var st := sts[|sts| - 1];
            NamesFollow(sts, before, if IsStarted(st) then names[st.uid := st.name] else names)
  {
    hide LastOfUid, SomeUid, IsStarted;
    var st := sts[|sts| - 1];
    var names' := if IsStarted(st) then names[st.uid := st.name] else names;
    forall i | LastOfUid(sts, i)
      ensures 0 <= i < |sts| && sts[i].uid in names' && names'[sts[i].uid] == sts[i].name
    {
      LastOfUidBefore(sts, i);
    }
    forall u | !SomeUid(sts, u) ensures (u in names' <==> u in before) && (u in names' ==> names'[u] == before[u]) {
      NoUidBefore(sts, u);
    }
  }

  lemma UidsGoOn(sts: seq<Status>, before: map<string, string>, uids: map<string, string>)
    requires sts != [] && UidsFollow(sts[..|sts| - 1], before, uids)
    ensures var st := sts[|sts| - 1];
            UidsFollow(sts, before, if IsStarted(st) then uids[st.name := st.uid] else uids)
  {
    hide LastOfName, SomeName, IsStarted;
    var st := sts[|sts| - 1];
    var uids' := if IsStarted(st) then uids[st.name := st.uid] else uids;
    forall i | LastOfName(sts, i)
      ensures 0 <= i < |sts| && sts[i].name in uids' && uids'[sts[i].name] == sts[i].uid
    {
      LastOfNameBefore(sts, i);
    }
    forall x | !SomeName(sts, x) ensures (x in uids' <==> x in before) && (x in uids' ==> uids'[x] == before[x]) {
      NoNameBefore(sts, x);
    }
  }

  lemma {:induction false} RecordNamesStarted(m: Maps, pod: string, sts: seq<Status>)
    ensures NamesFollow(sts, m.nameByUid, RecordAll(m, pod, sts).nameByUid)
    ensures UidsFollow(sts, m.uidByName, RecordAll(m, pod, sts).uidByName)
  {
    if sts != [] {
      hide NamesFollow, UidsFollow;
      var before := RecordAll(m, pod, sts[..|sts| - 1]);
      RecordNamesStarted(m, pod, sts[..|sts| - 1]);
      NamesGoOn(sts, m.nameByUid, before.nameByUid);
      UidsGoOn(sts, m.uidByName, before.uidByName);
    }
  }

  lemma {:induction false} StartedUidsAre(sts: seq<Status>, uid: string)
    ensures uid in StartedUids(sts) <==> SomeUid(sts, uid)
  {
    if sts != [] {
      var n := |sts| - 1;
      StartedUidsAre(sts[..n], uid);
      if SomeUid(sts[..n], uid) {
        var i :| 0 <= i < n && IsStarted(sts[..n][i]) && sts[..n][i].uid == uid;
        assert sts[i].uid == uid;
      }
      if SomeUid(sts, uid) {
        var i :| 0 <= i < |sts| && IsStarted(sts[i]) && sts[i].uid == uid;
        if i < n {
          assert sts[..n][i] == sts[i];
        }
      }
    }
  }

  /** No container comes with two names. */
  predicate OneName(sts: seq<Status>) {
    forall i, j :: 0 <= i < |sts| && 0 <= j < |sts| && IsStarted(sts[i]) && IsStarted(sts[j]) ==>
      sts[i].uid == sts[j].uid ==> sts[i].name == sts[j].name
  }

  lemma {:induction false} LastExists(sts: seq<Status>, uid: string) returns (i: nat)
    requires SomeUid(sts, uid)
    ensures LastOfUid(sts, i) && sts[i].uid == uid
  {
    var n := |sts| - 1;
    if IsStarted(sts[n]) && sts[n].uid == uid {
      i := n;
    } else {
      var k :| 0 <= k < |sts| && IsStarted(sts[k]) && sts[k].uid == uid;
      assert sts[..n][k] == sts[k];
      i := LastExists(sts[..n], uid);
      forall j | i < j < |sts| && IsStarted(sts[j]) ensures sts[j].uid != sts[i].uid {
        if j < n {
          assert sts[..n][j] == sts[j];
        }
      }
    }
  }

  lemma NameRecorded(m: Maps, pod: string, sts: seq<Status>, i: nat)
    requires i < |sts| && IsStarted(sts[i]) && OneName(sts)
    ensures Lookup(RecordAll(m, pod, sts).nameByUid, sts[i].uid, "") == sts[i].name
  {
    hide RecordAll;
    var last := LastExists(sts, sts[i].uid);
    RecordNamesStarted(m, pod, sts);
  }

  // ----- over whole histories

  datatype Section =
    | RecordSection(pod: string, sts: seq<Status>)
    | VisitSection(pod: string, cs: Containers)
    | StoreSection(pod: string, paths: Paths, cs: Containers)
    | DoneSection(pod: string)
    | DeleteSection(pod: string)

  function Perform(m: Maps, s: Section): Maps {
    match s
    case RecordSection(pod, sts) => RecordAll(m, pod, sts)
    case VisitSection(pod, cs) => MarkVisited(m, pod, cs)
    case StoreSection(pod, paths, cs) => StoreRequest(m, pod, paths, cs)
    case DoneSection(pod) => MarkDone(m, pod)
    case DeleteSection(pod) => Delete(m, pod)
  }

  function PerformAll(m: Maps, ss: seq<Section>): Maps {
    if ss == [] then m else Perform(PerformAll(m, ss[..|ss| - 1]), ss[|ss| - 1])
  }

  /** Any interleaving of the critical sections of any number of goroutines keeps the maps consistent. */
  lemma {:induction false} AlwaysConsistent(w: World, ss: seq<Section>)
    requires forall i :: 0 <= i < |ss| && ss[i].RecordSection? ==> Observable(w, ss[i].pod, ss[i].sts)
    ensures Consistent(w, PerformAll(EMPTY_MAPS, ss))
  {
    if ss != [] {
      var n := |ss| - 1;
      assert forall i :: 0 <= i < n ==> ss[..n][i] == ss[i];
      AlwaysConsistent(w, ss[..n]);
      var m := PerformAll(EMPTY_MAPS, ss[..n]);
      match ss[n] {
        case RecordSection(pod, sts) => RecordKeepsConsistent(w, m, pod, sts);
        case DeleteSection(pod) => DeleteKeepsConsistent(w, m, pod);
        case _ =>
      }
    }
  }
  // ----- what the history says of a pod

  /** What the sections performed so far amount to for one pod. */
  datatype PodHistory = PodHistory(visited: bool, done: bool, requests: Option<(int, int)>, uids: seq<string>,
                                   pod: Option<Containers>)

  const NO_HISTORY := PodHistory(false, false, None, [], None)

  /** The pod's containers recorded, its visit, its requests and its mark, all since its last deletion. */
  function History(ss: seq<Section>, pod: string): PodHistory {
    if ss == [] then NO_HISTORY
    else
      var h := History(ss[..|ss| - 1], pod);
      match ss[|ss| - 1]
      case RecordSection(p, sts) => if p == pod then h.(uids := h.uids + StartedUids(sts)) else h
      case VisitSection(p, cs) => if p == pod then h.(visited := true, pod := Some(cs)) else h
      case StoreSection(p, paths, cs) =>
        if p == pod then h.(requests := Some((CoreQuota(paths, cs), MemQuota(paths, cs)))) else h
      case DoneSection(p) => if p == pod then h.(done := true) else h
      case DeleteSection(p) => if p == pod && h.visited then NO_HISTORY else h
  }

  predicate Recorded(m: Maps, pod: string, h: PodHistory) {
    && Lookup(m.visited, pod, false) == h.visited
    && Lookup(m.done, pod, false) == h.done
    && Lookup(m.uidsOfPod, pod, []) == h.uids
    && (match h.requests
        case Some(r) =>
          pod in m.coreRequest && m.coreRequest[pod] == r.0 && pod in m.memRequest && m.memRequest[pod] == r.1
        case None => pod !in m.coreRequest && pod !in m.memRequest)
    && (match h.pod
        case Some(cs) => pod in m.podByUid && m.podByUid[pod] == cs
        case None => pod !in m.podByUid)
  }

  lemma RecordSectionRecorded(m: Maps, p: string, sts: seq<Status>, pod: string, h: PodHistory)
    requires Recorded(m, pod, h)
    ensures Recorded(RecordAll(m, p, sts), pod, if p == pod then h.(uids := h.uids + StartedUids(sts)) else h)
  {
    hide RecordAll, StartedUids;
    RecordListsStarted(m, p, sts);
  }

  lemma DeleteSectionRecorded(m: Maps, p: string, pod: string, h: PodHistory)
    requires Recorded(m, pod, h)
    ensures Recorded(Delete(m, p), pod, if p == pod && h.visited then NO_HISTORY else h)
  {
    hide Delete, ForgetAll;
    if Lookup(m.visited, p, false) {
      DeleteByMap(m, p);
    } else {
      NothingToDelete(m, p);
    }
  }

  lemma VisitSectionRecorded(m: Maps, p: string, cs: Containers, pod: string, h: PodHistory)
    requires Recorded(m, pod, h)
    ensures Recorded(MarkVisited(m, p, cs), pod, if p == pod then h.(visited := true, pod := Some(cs)) else h)
  {
  }

  lemma StoreSectionRecorded(m: Maps, p: string, paths: Paths, cs: Containers, pod: string, h: PodHistory)
    requires Recorded(m, pod, h)
    ensures var r := (CoreQuota(paths, cs), MemQuota(paths, cs));
            Recorded(StoreRequest(m, p, paths, cs), pod, if p == pod then h.(requests := Some(r)) else h)
  {
    hide CoreQuota, MemQuota;
  }

  lemma DoneSectionRecorded(m: Maps, p: string, pod: string, h: PodHistory)
    requires Recorded(m, pod, h)
    ensures Recorded(MarkDone(m, p), pod, if p == pod then h.(done := true) else h)
  {
  }

  lemma SectionRecorded(m: Maps, s: Section, pod: string, ss: seq<Section>)
    requires ss != [] && ss[|ss| - 1] == s && Recorded(m, pod, History(ss[..|ss| - 1], pod))
    ensures Recorded(Perform(m, s), pod, History(ss, pod))
  {
    hide RecordAll, Delete, MarkVisited, StoreRequest, MarkDone, StartedUids, CoreQuota, MemQuota, Recorded;
    var h := History(ss[..|ss| - 1], pod);
    match s {
      case RecordSection(p, sts) => RecordSectionRecorded(m, p, sts, pod, h);
      case VisitSection(p, cs) => VisitSectionRecorded(m, p, cs, pod, h);
      case StoreSection(p, paths, cs) => StoreSectionRecorded(m, p, paths, cs, pod, h);
      case DoneSection(p) => DoneSectionRecorded(m, p, pod, h);
      case DeleteSection(p) => DeleteSectionRecorded(m, p, pod, h);
    }
  }

  /** The maps hold exactly what the history says of each pod, whatever sections of other pods come between. */
  lemma {:induction false} MapsFollowHistory(ss: seq<Section>, pod: string)
    ensures Recorded(PerformAll(EMPTY_MAPS, ss), pod, History(ss, pod))
  {
    if ss != [] {
      hide Recorded, Perform;
      MapsFollowHistory(ss[..|ss| - 1], pod);
      SectionRecorded(PerformAll(EMPTY_MAPS, ss[..|ss| - 1]), ss[|ss| - 1], pod, ss);
    }
  }

  /** Every uid recorded for a visited pod since its last deletion loses its name in the next one. */
  lemma DeletionForgetsAll(w: World, ss: seq<Section>, pod: string, uid: string)
    requires forall i :: 0 <= i < |ss| && ss[i].RecordSection? ==> Observable(w, ss[i].pod, ss[i].sts)
    requires History(ss, pod).visited && uid in History(ss, pod).uids
    ensures uid in PerformAll(EMPTY_MAPS, ss).nameByUid
    ensures uid !in PerformAll(EMPTY_MAPS, ss + [DeleteSection(pod)]).nameByUid
  {
    hide Delete, ForgetAll, History;
    var m := PerformAll(EMPTY_MAPS, ss);
    MapsFollowHistory(ss, pod);
    AlwaysConsistent(w, ss);
    DeleteByMap(m, pod);
    ForgetAllExact(w, m, Lookup(m.uidsOfPod, pod, []));
    assert (ss + [DeleteSection(pod)])[..|ss|] == ss;
  }
}
