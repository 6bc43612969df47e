/** Pods as the daemon sees them: immutable container limits plus identity. */
module Pods {

  datatype Resource = GpuCore | GpuMemory | MluCore | MluMemory

  /** `requested` tells whether the container declares resource requests at all. */
  datatype Container = Container(limits: map<Resource, int>, requested: bool) {
    /** A missing limit reads as the zero quantity. */
    function Limit(r: Resource): int {
      if r in limits then limits[r] else 0
    }
  }

  datatype Option<T> = None | Some(value: T)

  type Containers = seq<Container>

  /** Some container declares resource requests. */
  predicate SomeRequested(cs: Containers) {
    exists i :: 0 <= i < |cs| && cs[i].requested
  }

  function Sum(cs: Containers, r: Resource): int {
    if cs == [] then 0 else Sum(cs[..|cs| - 1], r) + cs[|cs| - 1].Limit(r)
  }

  predicate NonNegative(cs: Containers) {
    forall i, r :: 0 <= i < |cs| && r in cs[i].limits ==> cs[i].limits[r] >= 0
  }

  lemma {:induction false} SumNonNegative(cs: Containers, r: Resource)
    requires NonNegative(cs)
    ensures Sum(cs, r) >= 0
  {
    if cs != [] {
      SumNonNegative(cs[..|cs| - 1], r);
    }
  }

  predicate OthersAskNothing(cs: Containers, k: nat, r: Resource) {
    forall i :: 0 <= i < |cs| && i != k ==> cs[i].Limit(r) == 0
  }

  /** One container's limit is at most the pod's total, and is the total exactly when no other container asks. */
  lemma {:induction false} LimitWithinSum(cs: Containers, k: nat, r: Resource)
    requires NonNegative(cs) && k < |cs|
    ensures 0 <= cs[k].Limit(r) <= Sum(cs, r)
    ensures Sum(cs, r) == cs[k].Limit(r) <==> OthersAskNothing(cs, k, r)
  {
    var n := |cs| - 1;
    assert forall i :: 0 <= i < n ==> cs[..n][i] == cs[i];
    if k < n {
      LimitWithinSum(cs[..n], k, r);
      assert OthersAskNothing(cs, k, r) <==> OthersAskNothing(cs[..n], k, r) && cs[n].Limit(r) == 0;
    } else {
      SumNonNegative(cs[..n], r);
      SumZeroIff(cs[..n], r);
    }
  }

  lemma {:induction false} SumZeroIff(cs: Containers, r: Resource)
    requires NonNegative(cs)
    ensures Sum(cs, r) == 0 <==> forall i :: 0 <= i < |cs| ==> cs[i].Limit(r) == 0
  {
    if cs != [] {
      var n := |cs| - 1;
      assert forall i :: 0 <= i < n ==> cs[..n][i] == cs[i];
      SumZeroIff(cs[..n], r);
      SumNonNegative(cs[..n], r);
    }
  }

  predicate HasCoreLimit(cs: Containers) {
    exists i :: 0 <= i < |cs| && GpuCore in cs[i].limits
  }

  lemma {:induction false} NoLimitNoCores(cs: Containers)
    requires !HasCoreLimit(cs)
    ensures Sum(cs, GpuCore) == 0
  {
    if cs != [] {
      NoLimitNoCores(cs[..|cs| - 1]);
      assert forall i :: 0 <= i < |cs| - 1 ==> cs[..|cs| - 1][i] == cs[i];
    }
  }
}

/** Which pending pod an allocation request is taken to be for. */
module PodMatching {
  import opened Pods

  /** A pending pod is represented by its containers; its place in the list identifies it. */
  type Pending = seq<Containers>

  /** Index of the first pending pod with a core limit; the length if there is none. */
  function FirstLimited(pods: Pending): nat {
    if pods == [] then 0
    else
      var f := FirstLimited(pods[..|pods| - 1]);
      if f < |pods| - 1 || HasCoreLimit(pods[|pods| - 1]) then f else |pods|
  }

  lemma {:induction false} FirstLimitedExact(pods: Pending)
    ensures FirstLimited(pods) <= |pods|
    ensures FirstLimited(pods) < |pods| ==> HasCoreLimit(pods[FirstLimited(pods)])
    ensures forall j :: 0 <= j < FirstLimited(pods) ==> !HasCoreLimit(pods[j])
  {
    if pods != [] {
      FirstLimitedExact(pods[..|pods| - 1]);
      assert forall j :: 0 <= j < |pods| - 1 ==> pods[..|pods| - 1][j] == pods[j];
    }
  }

  /** Core total of several pods together. */
  function Cores(pods: Pending): int {
    if pods == [] then 0 else Cores(pods[..|pods| - 1]) + Sum(pods[|pods| - 1], GpuCore)
  }

  predicate AllNonNegative(pods: Pending) {
    forall j :: 0 <= j < |pods| ==> NonNegative(pods[j])
  }

  /** The running total after pod `i`, counted from the first core-limited pod and never reset. */
  function RunningTotal(pods: Pending, i: nat): int
    requires FirstLimited(pods) <= i < |pods|
  {
    Cores(pods[FirstLimited(pods)..i + 1])
  }

  /** Pod `i` is the one the matching loop confirms for `devices` requested devices. */
  ghost predicate Confirms(pods: Pending, devices: nat, i: nat) {
    && FirstLimited(pods) <= i < |pods|
    && RunningTotal(pods, i) == devices
    && forall j :: FirstLimited(pods) <= j < i ==> RunningTotal(pods, j) != devices
  }

  /** The flag after scanning one pod's containers: once set it stays set. */
  method ScanContainers(cs: Containers, before: bool) returns (flag: bool)
    ensures flag == (before || HasCoreLimit(cs))
  {
    flag := before;
    for c := 0 to |cs|
      invariant flag == before
      invariant forall i :: 0 <= i < c ==> GpuCore !in cs[i].limits
    {
      if GpuCore in cs[c].limits {
        return true;
      }
    }
  }

  /** The candidate loop; `flag` is declared outside it and never reset. */
  method CollectCandidates(pods: Pending) returns (candidates: seq<nat>)
    ensures FirstLimited(pods) <= |pods|
    ensures |candidates| == |pods| - FirstLimited(pods)
    ensures forall k :: 0 <= k < |candidates| ==> candidates[k] == FirstLimited(pods) + k
  {
    candidates := [];
    var flag := false;
    for p := 0 to |pods|
      invariant FirstLimited(pods[..p]) <= p
      invariant flag == (FirstLimited(pods[..p]) < p)
      invariant |candidates| == p - FirstLimited(pods[..p])
      invariant forall k :: 0 <= k < |candidates| ==> candidates[k] == FirstLimited(pods[..p]) + k
    {
      assert pods[..p + 1][..p] == pods[..p];
      flag := ScanContainers(pods[p], flag);
      if flag {
        candidates := candidates + [p];
      }
    }
    assert pods[..|pods|] == pods;
  }

  method AddCores(cs: Containers, before: int) returns (total: int)
    ensures total == before + Sum(cs, GpuCore)
  {
    total := before;
    for c := 0 to |cs|
      invariant total == before + Sum(cs[..c], GpuCore)
    {
      assert cs[..c + 1][..c] == cs[..c];
      total := total + cs[c].Limit(GpuCore);
    }
    assert cs[..|cs|] == cs;
  }

  /** The matching loops of `Allocate`; `reqDevCount` is declared outside them and never reset. */
  method ConfirmPod(pods: Pending, devices: nat) returns (confirmed: Option<nat>)
    ensures confirmed.Some? ==> Confirms(pods, devices, confirmed.value)
    ensures confirmed.None? ==> forall i :: 0 <= i < |pods| ==> !Confirms(pods, devices, i)
  {
    var candidates := CollectCandidates(pods);
    var reqDevCount := 0;
    ghost var f := FirstLimited(pods);
    for k := 0 to |candidates|
      invariant reqDevCount == Cores(pods[f..f + k])
      invariant forall j :: f <= j < f + k ==> RunningTotal(pods, j) != devices
    {
      RunningTotalSplits(pods, f + k);
      reqDevCount := AddCores(pods[candidates[k]], reqDevCount);
      if reqDevCount == devices {
        return Some(candidates[k]);
      }
    }
    return None;
  }

  lemma CoresSnoc(pods: Pending, f: nat, i: nat)
    requires f <= i < |pods|
    ensures Cores(pods[f..i + 1]) == Cores(pods[f..i]) + Sum(pods[i], GpuCore)
  {
    hide Sum;
    var slice := pods[f..i + 1];
    assert slice[..|slice| - 1] == pods[f..i];
    assert slice[|slice| - 1] == pods[i];
  }

  lemma RunningTotalSplits(pods: Pending, i: nat)
    requires FirstLimited(pods) <= i < |pods|
    ensures RunningTotal(pods, i) == Cores(pods[FirstLimited(pods)..i]) + Sum(pods[i], GpuCore)
    ensures FirstLimited(pods) < i ==> RunningTotal(pods, i - 1) == Cores(pods[FirstLimited(pods)..i])
  {
    CoresSnoc(pods, FirstLimited(pods), i);
  }

  /** A positive request is never matched to a pod without core limits, although `flag` stays set. */
  lemma NeverConfirmsUnlimitedPod(pods: Pending, devices: nat, i: nat)
    requires devices > 0
    requires Confirms(pods, devices, i)
    ensures HasCoreLimit(pods[i])
  {
    FirstLimitedExact(pods);
    RunningTotalSplits(pods, i);
    if !HasCoreLimit(pods[i]) {
      NoLimitNoCores(pods[i]);
    }
  }

  lemma {:induction false} CoresZeroIff(pods: Pending)
    requires AllNonNegative(pods)
    ensures Cores(pods) >= 0
    ensures Cores(pods) == 0 <==> forall j :: 0 <= j < |pods| ==> Sum(pods[j], GpuCore) == 0
  {
    if pods != [] {
      var n := |pods| - 1;
      assert forall j :: 0 <= j < n ==> pods[..n][j] == pods[j];
      CoresZeroIff(pods[..n]);
      SumNonNegative(pods[n], GpuCore);
    }
  }

  predicate NoCores(pods: Pending, from: nat, to: nat)
    requires from <= to <= |pods|
  {
    forall j :: from <= j < to ==> Sum(pods[j], GpuCore) == 0
  }

  lemma SliceZeroIff(pods: Pending, from: nat, to: nat)
    requires AllNonNegative(pods) && from <= to <= |pods|
    ensures Cores(pods[from..to]) >= 0
    ensures Cores(pods[from..to]) == 0 <==> NoCores(pods, from, to)
  {
    var slice := pods[from..to];
    CoresZeroIff(slice);
    if Cores(slice) == 0 {
      forall j | from <= j < to ensures Sum(pods[j], GpuCore) == 0 {
        assert slice[j - from] == pods[j];
      }
    }
  }

  lemma EarlierCores(pods: Pending, i: nat)
    requires AllNonNegative(pods) && FirstLimited(pods) <= i < |pods|
    ensures Cores(pods[FirstLimited(pods)..i]) >= 0
    ensures Cores(pods[FirstLimited(pods)..i]) == 0 <==> NoCores(pods, 0, i)
  {
    var f := FirstLimited(pods);
    FirstLimitedExact(pods);
    SliceZeroIff(pods, f, i);
    forall j | 0 <= j < f ensures Sum(pods[j], GpuCore) == 0 {
      NoLimitNoCores(pods[j]);
    }
  }

  /** A pod whose total reaches the count is confirmed exactly when it equals it and earlier pods ask for no cores. */
  lemma ConfirmsTotalIff(pods: Pending, devices: nat, i: nat)
    requires devices > 0 && AllNonNegative(pods)
    requires i < |pods| && Sum(pods[i], GpuCore) >= devices
    ensures Confirms(pods, devices, i) <==> NoCores(pods, 0, i) && Sum(pods[i], GpuCore) == devices
  {
    FirstLimitedExact(pods);
    if i < FirstLimited(pods) {
      NoLimitNoCores(pods[i]);
    }
    RunningTotalSplits(pods, i);
    EarlierCores(pods, i);
    if NoCores(pods, 0, i) {
      forall j | FirstLimited(pods) <= j < i ensures RunningTotal(pods, j) != devices {
        RunningTotalSplits(pods, j);
        EarlierCores(pods, j);
      }
    }
  }

  /**
   * A request is for the devices of one container. Its own pod is confirmed
   * exactly when no earlier pending pod and no other container of the pod
   * asks for cores.
   */
  lemma ConfirmsRequesterIff(pods: Pending, i: nat, k: nat)
    requires AllNonNegative(pods) && i < |pods| && k < |pods[i]| && pods[i][k].Limit(GpuCore) > 0
    ensures Confirms(pods, pods[i][k].Limit(GpuCore), i)
            <==> NoCores(pods, 0, i) && OthersAskNothing(pods[i], k, GpuCore)
  {
    LimitWithinSum(pods[i], k, GpuCore);
    ConfirmsTotalIff(pods, pods[i][k].Limit(GpuCore), i);
  }

  /** A sole core-limited pending pod is confirmed exactly for its own total, whatever containers make it up. */
  lemma SoleLimitedPodConfirmed(pods: Pending, devices: nat, i: nat)
    requires devices > 0 && AllNonNegative(pods) && i < |pods|
    requires forall j :: 0 <= j < |pods| && j != i ==> !HasCoreLimit(pods[j])
    ensures Confirms(pods, devices, i) <==> Sum(pods[i], GpuCore) == devices
  {
    forall j | 0 <= j < i ensures Sum(pods[j], GpuCore) == 0 {
      NoLimitNoCores(pods[j]);
    }
    if Sum(pods[i], GpuCore) >= devices {
      ConfirmsTotalIff(pods, devices, i);
    } else if FirstLimited(pods) <= i {
      RunningTotalSplits(pods, i);
      EarlierCores(pods, i);
    }
  }

  // ----- the outcome of a request

  /** The candidate loop from pod `i` on, with the running total so far. */
  function MatchFrom(pods: Pending, devices: int, i: nat, total: int): (m: Option<nat>)
    ensures m.Some? ==> i <= m.value < |pods|
    decreases |pods| - i
  {
    if i >= |pods| then None
    else
      var next := total + Sum(pods[i], GpuCore);
      if next == devices then Some(i) else MatchFrom(pods, devices, i + 1, next)
  }

  function Matches(pods: Pending, devices: int): (m: Option<nat>)
    ensures m.Some? ==> m.value < |pods|
  {
    MatchFrom(pods, devices, FirstLimited(pods), 0)
  }

  lemma {:induction false} MatchFromExact(pods: Pending, devices: nat, i: nat)
    requires FirstLimited(pods) <= i <= |pods|
    requires forall j :: FirstLimited(pods) <= j < i ==> RunningTotal(pods, j) != devices
    ensures var m := MatchFrom(pods, devices, i, Cores(pods[FirstLimited(pods)..i]));
            if m.Some? then Confirms(pods, devices, m.value) else forall j: nat :: !Confirms(pods, devices, j)
    decreases |pods| - i
  {
    if i < |pods| {
      hide Sum, FirstLimited;
      RunningTotalSplits(pods, i);
      if RunningTotal(pods, i) != devices {
        MatchFromExact(pods, devices, i + 1);
      }
    }
  }

  /** The confirmed pod is the only one the loops can confirm. */
  lemma MatchesExact(pods: Pending, devices: nat, i: nat)
    ensures Matches(pods, devices) == Some(i) <==> Confirms(pods, devices, i)
  {
    hide Sum, Cores, FirstLimited;
    FirstLimitedExact(pods);
    assert pods[FirstLimited(pods)..FirstLimited(pods)] == [];
    NoPodsNoCores();
    MatchFromExact(pods, devices, FirstLimited(pods));
  }

  lemma NoPodsNoCores()
    ensures Cores([]) == 0
  {
  }

  function OneContainer(cores: int): Containers {
    [Container(map[GpuCore := cores], true)]
  }

  /** Two pending pods of 30 and 20 cores: a request for 50 is matched to the second, one for 20 to none. */
  lemma RunningTotalMismatches(pods: Pending)
    requires pods == [OneContainer(30), OneContainer(20)]
    ensures Confirms(pods, 50, 1) && Sum(pods[1], GpuCore) == 20
    ensures forall i :: 0 <= i < |pods| ==> !Confirms(pods, 20, i)
  {
    assert pods[..1] == [OneContainer(30)] && pods[..1][..0] == [];
    assert OneContainer(30)[..0] == [] && OneContainer(20)[..0] == [];
    assert HasCoreLimit(OneContainer(30)) by { assert GpuCore in OneContainer(30)[0].limits; }
    assert FirstLimited(pods[..1]) == 0;
    assert FirstLimited(pods) == 0;
    assert pods[0..1] == pods[..1] && pods[0..2] == pods;
    assert Sum(pods[0], GpuCore) == 30 && Sum(pods[1], GpuCore) == 20;
    RunningTotalSplits(pods, 0);
    RunningTotalSplits(pods, 1);
  }
  /** One pending pod with containers of 30 and 20 cores: neither container's own request is matched to it. */
  lemma SplitPodMismatches(pods: Pending)
    requires pods == [[Container(map[GpuCore := 30], true), Container(map[GpuCore := 20], true)]]
    ensures !Confirms(pods, 30, 0) && !Confirms(pods, 20, 0) && NoCores(pods, 0, 0)
  {
    assert pods[0][0].Limit(GpuCore) == 30 && pods[0][1].Limit(GpuCore) == 20;
    ConfirmsRequesterIff(pods, 0, 0);
    ConfirmsRequesterIff(pods, 0, 1);
  }
}
