/** End to end: how much of a device the quota files of the pods placed on it hand out. */
module DeviceQuota {
  import opened Pods
  import opened PodMaps
  import opened GpuAccounting
  import opened Handshake

  function CoreOn(charges: seq<ChargeEntry>, device: nat): int {
    if charges == [] then 0
    else
      var last := charges[|charges| - 1];
      CoreOn(charges[..|charges| - 1], device) + if last.device == device then last.core else 0
  }

  function MemOn(charges: seq<ChargeEntry>, device: nat): int {
    if charges == [] then 0
    else
      var last := charges[|charges| - 1];
      MemOn(charges[..|charges| - 1], device) + if last.device == device then last.mem else 0
  }

  predicate NonNegativePods(c: Cluster) {
    forall p :: p in c.pods ==> NonNegative(c.pods[p])
  }

  /** Every pod asks for as many memory blocks as core percent. */
  predicate BalancedPods(c: Cluster) {
    forall p :: p in c.pods ==> Sum(c.pods[p], GpuCore) == Sum(c.pods[p], GpuMemory)
  }

  ghost predicate ChargesOk(c: Cluster, charges: seq<ChargeEntry>, devices: nat) {
    forall i :: 0 <= i < |charges| ==>
      && charges[i].device < devices
      && charges[i].core == Sum(c.Spec(charges[i].pod), GpuCore) >= 0
      && charges[i].mem == Sum(c.Spec(charges[i].pod), GpuMemory) >= 0
  }

  /** Each record is its first version plus the charges made to it. */
  ghost predicate Ledger(gpus: seq<GpuRecord>, now: seq<GpuRecord>, charges: seq<ChargeEntry>) {
    && |now| == |gpus|
    && forall d :: 0 <= d < |gpus| ==> now[d] == gpus[d].Charge(CoreOn(charges, d), MemOn(charges, d))
  }

  ghost predicate Safe(c: Cluster, gpus: seq<GpuRecord>) {
    Sound(gpus) && (c.labels.Matched? || BalancedPods(c) ==> AllAxisSafe(gpus))
  }

  lemma SpecNonNegative(c: Cluster, pod: string, r: Resource)
    requires NonNegativePods(c)
    ensures Sum(c.Spec(pod), r) >= 0
  {
    if pod in c.pods {
      SumNonNegative(c.pods[pod], r);
    }
  }

  lemma OnAppend(charges: seq<ChargeEntry>, e: ChargeEntry, d: nat)
    ensures CoreOn(charges + [e], d) == CoreOn(charges, d) + if e.device == d then e.core else 0
    ensures MemOn(charges + [e], d) == MemOn(charges, d) + if e.device == d then e.mem else 0
  {
    assert (charges + [e])[..|charges|] == charges;
  }

  lemma ChargesAppend(c: Cluster, charges: seq<ChargeEntry>, devices: nat, e: ChargeEntry)
    requires ChargesOk(c, charges, devices) && e.device < devices
    requires e.core == Sum(c.Spec(e.pod), GpuCore) >= 0 && e.mem == Sum(c.Spec(e.pod), GpuMemory) >= 0
    ensures ChargesOk(c, charges + [e], devices)
  {
    hide Sum;
    var more := charges + [e];
    forall i | 0 <= i < |more|
      ensures more[i].device < devices && more[i].core == Sum(c.Spec(more[i].pod), GpuCore) >= 0
      ensures more[i].mem == Sum(c.Spec(more[i].pod), GpuMemory) >= 0
    {
      if i < |charges| {
        assert more[i] == charges[i];
      }
    }
  }

  lemma LedgerAppend(labels: Labels, gpus: seq<GpuRecord>, now: seq<GpuRecord>,
                     charges: seq<ChargeEntry>, e: ChargeEntry)
    requires Ledger(gpus, now, charges) && Sound(now) && e.core >= 0 && e.mem >= 0
    requires Choose(labels, now, e.core, e.mem) == Device(e.device)
    ensures Ledger(gpus, Grant(labels, now, e.core, e.mem), charges + [e])
  {
    hide Choose, Grant, Sound, CoreOn, MemOn;
    GrantIsLocal(labels, now, e.core, e.mem);
    forall d | 0 <= d < |gpus|
      ensures Grant(labels, now, e.core, e.mem)[d] ==
              gpus[d].Charge(CoreOn(charges + [e], d), MemOn(charges + [e], d))
    {
      OnAppend(charges, e, d);
      assert now[d] == gpus[d].Charge(CoreOn(charges, d), MemOn(charges, d));
    }
  }

  lemma GrantKeepsSound(labels: Labels, rs: seq<GpuRecord>, core: nat, mem: nat)
    requires Sound(rs)
    ensures Sound(Grant(labels, rs, core, mem))
  {
    hide Choose, Grant;
    GrantIsLocal(labels, rs, core, mem);
  }

  lemma GrantKeepsAxes(labels: Labels, rs: seq<GpuRecord>, core: nat, mem: nat)
    requires Sound(rs) && AllAxisSafe(rs) && (labels.Matched? || core == mem)
    ensures AllAxisSafe(Grant(labels, rs, core, mem))
  {
    hide Choose, Grant;
    GrantIsLocal(labels, rs, core, mem);
  }

  lemma GrantKeepsSafe(c: Cluster, rs: seq<GpuRecord>, pod: string)
    requires NonNegativePods(c) && Safe(c, rs)
    ensures Safe(c, Grant(c.labels, rs, Sum(c.Spec(pod), GpuCore), Sum(c.Spec(pod), GpuMemory)))
  {
    hide Sum, Choose, Grant, Sound, AllAxisSafe;
    SpecNonNegative(c, pod, GpuCore);
    SpecNonNegative(c, pod, GpuMemory);
    var core, mem := Sum(c.Spec(pod), GpuCore), Sum(c.Spec(pod), GpuMemory);
    GrantKeepsSound(c.labels, rs, core, mem);
    if c.labels.Matched? || BalancedPods(c) {
      if pod !in c.pods {
        NothingAsked(c, pod);
      }
      GrantKeepsAxes(c.labels, rs, core, mem);
    }
  }

  lemma NothingAsked(c: Cluster, pod: string)
    requires pod !in c.pods
    ensures Sum(c.Spec(pod), GpuCore) == Sum(c.Spec(pod), GpuMemory)
  {
  }

  /** One successful charge: the store stays safe and the ledger records it. */
  lemma ChargeKept(c: Cluster, gpus: seq<GpuRecord>, now: seq<GpuRecord>, charges: seq<ChargeEntry>, pod: string)
    requires NonNegativePods(c) && ChargesOk(c, charges, |gpus|) && Ledger(gpus, now, charges) && Safe(c, now)
    requires Choose(c.labels, now, Sum(c.Spec(pod), GpuCore), Sum(c.Spec(pod), GpuMemory)).Device?
    ensures var core, mem := Sum(c.Spec(pod), GpuCore), Sum(c.Spec(pod), GpuMemory);
            var e := ChargeEntry(pod, Choose(c.labels, now, core, mem).index, core, mem);
            var now' := Grant(c.labels, now, core, mem);
            ChargesOk(c, charges + [e], |gpus|) && Ledger(gpus, now', charges + [e]) && Safe(c, now')
  {
    hide Choose, Grant, Sum, Sound, AllAxisSafe, ChargesOk, BalancedPods, NonNegativePods, Feasible;
    SpecNonNegative(c, pod, GpuCore);
    SpecNonNegative(c, pod, GpuMemory);
    var core, mem := Sum(c.Spec(pod), GpuCore), Sum(c.Spec(pod), GpuMemory);
    var e := ChargeEntry(pod, Choose(c.labels, now, core, mem).index, core, mem);
    GrantIsLocal(c.labels, now, core, mem);
    ChargesAppend(c, charges, |gpus|, e);
    LedgerAppend(c.labels, gpus, now, charges, e);
    GrantKeepsSafe(c, now, pod);
  }

  /** The pod a step charges, if it is a charging step whose record update succeeds. */
  function ChargedBy(s: State, e: Event): Option<string> {
    if e.AllocatorStep? && e.ok && e.a in s.allocators && s.allocators[e.a].Charging? then Some(s.allocators[e.a].pod)
    else None
  }

  /** Only a charging step touches the records, and it appends one entry when a device is found. */
  lemma OnlyChargesTouchRecords(c: Cluster, s: State, e: Event)
    ensures var s' := Apply(c, s, e);
            match ChargedBy(s, e)
            case None => s'.gpus == s.gpus && s'.charges == s.charges
            case Some(pod) =>
              var core, mem := Sum(c.Spec(pod), GpuCore), Sum(c.Spec(pod), GpuMemory);
              var choice := Choose(c.labels, s.gpus, core, mem);
              if choice.NoMatch? then s'.gpus == s.gpus && s'.charges == s.charges
              else
                && s'.gpus == Grant(c.labels, s.gpus, core, mem)
                && s'.charges == s.charges + [ChargeEntry(pod, choice.index, core, mem)]
  {
    hide Sum, Choose, Grant, ManagerNext;
    if e.ManagerStep? && e.g in s.managers {
      Untouched(c, s, s.managers[e.g], e.ok, e.statuses);
    }
  }

  lemma {:induction false} LedgerKept(c: Cluster, gpus: seq<GpuRecord>, es: seq<Event>)
    requires NonNegativePods(c) && Safe(c, gpus)
    ensures var s := Run(c, Initial(gpus), es);
            ChargesOk(c, s.charges, |gpus|) && Ledger(gpus, s.gpus, s.charges) && Safe(c, s.gpus)
  {
    if es != [] {
      hide Sum, Choose, Grant, Apply, ChargesOk, Ledger, Safe, NonNegativePods, ChargedBy;
      var s, e := Run(c, Initial(gpus), es[..|es| - 1]), es[|es| - 1];
      LedgerKept(c, gpus, es[..|es| - 1]);
      OnlyChargesTouchRecords(c, s, e);
      if ChargedBy(s, e).Some? {
        var pod := ChargedBy(s, e).value;
        if Choose(c.labels, s.gpus, Sum(c.Spec(pod), GpuCore), Sum(c.Spec(pod), GpuMemory)).Device? {
          ChargeKept(c, gpus, s.gpus, s.charges, pod);
        }
      }
    }
  }

  // ----- distinct pods charged to one device

  ghost predicate PlacedOn(charges: seq<ChargeEntry>, pod: string, device: nat) {
    exists i :: 0 <= i < |charges| && charges[i].pod == pod && charges[i].device == device
  }

  predicate Distinct(ps: seq<string>) {
    forall i, j :: 0 <= i < j < |ps| ==> ps[i] != ps[j]
  }

  function RequestSum(c: Cluster, ps: seq<string>, r: Resource): int {
    if ps == [] then 0 else RequestSum(c, ps[..|ps| - 1], r) + Sum(c.Spec(ps[|ps| - 1]), r)
  }

  lemma RequestSumAppend(c: Cluster, ps: seq<string>, p: string, r: Resource)
    ensures RequestSum(c, ps + [p], r) == RequestSum(c, ps, r) + Sum(c.Spec(p), r)
  {
    assert (ps + [p])[..|ps|] == ps;
  }

  lemma WithoutKeepsLast<T>(s: seq<T>, i: nat)
    requires i < |s| - 1
    ensures s[..i] + s[i + 1..] == (s[..|s| - 1][..i] + s[..|s| - 1][i + 1..]) + [s[|s| - 1]]
  {
  }

  lemma WithoutLast<T>(s: seq<T>)
    requires s != []
    ensures s[..|s| - 1] + s[|s|..] == s[..|s| - 1]
  {
  }

  lemma {:induction false} RemoveOne(c: Cluster, ps: seq<string>, i: nat, r: Resource)
    requires i < |ps|
    ensures RequestSum(c, ps, r) == RequestSum(c, ps[..i] + ps[i + 1..], r) + Sum(c.Spec(ps[i]), r)
  {
    hide Sum;
    var n := |ps| - 1;
    if i == n {
      WithoutLast(ps);
    } else {
      var init := ps[..n];
      assert RequestSum(c, ps, r) == RequestSum(c, init, r) + Sum(c.Spec(ps[n]), r);
      assert init[i] == ps[i];
      hide RequestSum;
      RemoveOne(c, init, i, r);
      WithoutKeepsLast(ps, i);
      RequestSumAppend(c, init[..i] + init[i + 1..], ps[n], r);
    }
  }

  /** Each distinct pod placed on a device was charged to it at least once. */
  lemma {:induction false} PlacedPodsWereCharged(c: Cluster, charges: seq<ChargeEntry>, devices: nat,
                                                 d: nat, ps: seq<string>)
    requires ChargesOk(c, charges, devices) && Distinct(ps)
    requires forall i :: 0 <= i < |ps| ==> PlacedOn(charges, ps[i], d)
    ensures 0 <= RequestSum(c, ps, GpuCore) <= CoreOn(charges, d)
    ensures 0 <= RequestSum(c, ps, GpuMemory) <= MemOn(charges, d)
    decreases |charges|
  {
    hide Sum;
    if charges == [] {
      NothingPlaced(d);
    } else {
      var n := |charges| - 1;
      var before, last := charges[..n], charges[n];
      if k :| 0 <= k < |ps| && ps[k] == last.pod && last.device == d {
        var rest := ps[..k] + ps[k + 1..];
        RemoveOne(c, ps, k, GpuCore);
        RemoveOne(c, ps, k, GpuMemory);
        forall i | 0 <= i < |rest| ensures PlacedOn(before, rest[i], d) {
          assert rest[i] != last.pod;
          EarlierPlacement(charges, rest[i], d);
        }
        PlacedPodsWereCharged(c, before, devices, d, rest);
      } else {
        forall i | 0 <= i < |ps| ensures PlacedOn(before, ps[i], d) {
          EarlierPlacement(charges, ps[i], d);
        }
        PlacedPodsWereCharged(c, before, devices, d, ps);
      }
    }
  }

  lemma NothingPlaced(d: nat)
    ensures forall pod :: !PlacedOn([], pod, d)
  {
  }

  lemma EarlierPlacement(charges: seq<ChargeEntry>, pod: string, d: nat)
    requires charges != [] && PlacedOn(charges, pod, d)
    requires charges[|charges| - 1].pod != pod || charges[|charges| - 1].device != d
    ensures PlacedOn(charges[..|charges| - 1], pod, d)
  {
    var i :| 0 <= i < |charges| && charges[i].pod == pod && charges[i].device == d;
    assert charges[..|charges| - 1][i] == charges[i];
  }

  // ----- the quota files

  /** Distinct pods placed on one device, one quota file of each. */
  ghost predicate Tenants(s: State, d: nat, ps: seq<string>, keys: seq<string>) {
    && |ps| == |keys| && Distinct(ps)
    && forall i :: 0 <= i < |ps| ==> (ps[i], keys[i]) in s.files && PlacedOn(s.charges, ps[i], d)
  }

  /** None of the pods has had its entries deleted. */
  predicate Live(s: State, ps: seq<string>) {
    forall i :: 0 <= i < |ps| ==> ps[i] !in s.gone
  }

  function UtilisationSum(files: map<(string, string), Config>, ps: seq<string>, keys: seq<string>): int
    requires |ps| == |keys|
  {
    if ps == [] then 0
    else
      var n := |ps| - 1;
      UtilisationSum(files, ps[..n], keys[..n])
      + if (ps[n], keys[n]) in files then files[(ps[n], keys[n])].utilization else 0
  }

  function MemorySum(files: map<(string, string), Config>, ps: seq<string>, keys: seq<string>): int
    requires |ps| == |keys|
  {
    if ps == [] then 0
    else
      var n := |ps| - 1;
      MemorySum(files, ps[..n], keys[..n])
      + if (ps[n], keys[n]) in files then files[(ps[n], keys[n])].memory else 0
  }

  /** No pod whose MLU limits the manager would find; as written it finds none. */
  predicate GpuOnly(c: Cluster) {
    c.paths.Unescaped? || forall p :: p in c.pods ==> NoMlu(c.pods[p])
  }

  /** The manager finds every memory limit: the paths are escaped and no container limits memory without cores. */
  predicate PairedLimits(c: Cluster) {
    c.paths.Escaped? && forall p :: p in c.pods ==> MemoryWithCore(c.pods[p])
  }

  /** When the manager's memory quota is the pod's whole memory request. */
  predicate QuotaMeetsRequest(c: Cluster, pod: string) {
    match c.paths
    case Escaped => MemQuota(c.paths, c.Spec(pod)) == Sum(c.Spec(pod), GpuMemory) <==> MemoryWithCore(c.Spec(pod))
    case Unescaped => MemQuota(c.paths, c.Spec(pod)) == 0
  }

  lemma QuotaIsRequest(c: Cluster, pod: string)
    requires NonNegativePods(c) && GpuOnly(c)
    ensures CoreQuota(c.paths, c.Spec(pod)) == Sum(c.Spec(pod), GpuCore) >= 0
    ensures 0 <= MemQuota(c.paths, c.Spec(pod)) <= Sum(c.Spec(pod), GpuMemory)
    ensures QuotaMeetsRequest(c, pod)
  {
    SpecNonNegative(c, pod, GpuCore);
    if pod in c.pods {
      ManagerAndAllocatorAgree(c.paths, c.pods[pod]);
    }
  }

  lemma ConfigIsExact(core: nat, mem: nat)
    requires core < SENTINEL && mem < SENTINEL
    ensures ConfigOf(core, mem) == Config(mem * MEMORY_BLOCK, core)
  {
  }

  /** What a pod placed on a device asks for fits on the device, hence below the sentinel. */
  lemma PlacedRequestIsSmall(c: Cluster, gpus: seq<GpuRecord>, es: seq<Event>, d: nat, pod: string)
    requires NonNegativePods(c) && Safe(c, gpus) && d < |gpus| && PlacedOn(Run(c, Initial(gpus), es).charges, pod, d)
    ensures 0 <= Sum(c.Spec(pod), GpuCore) < SENTINEL && 0 <= Sum(c.Spec(pod), GpuMemory) < SENTINEL
  {
    hide Sum, Run, CoreOn, MemOn;
    var s := Run(c, Initial(gpus), es);
    LedgerKept(c, gpus, es);
    PlacedPodsWereCharged(c, s.charges, |gpus|, d, [pod]);
    assert [pod][..0] == [];
    assert RequestSum(c, [pod], GpuCore) == Sum(c.Spec(pod), GpuCore);
    assert RequestSum(c, [pod], GpuMemory) == Sum(c.Spec(pod), GpuMemory);
    assert s.gpus[d] == gpus[d].Charge(CoreOn(s.charges, d), MemOn(s.charges, d));
  }

  /**
   * A placed pod's quota file holds its core request and the memory quota in
   * bytes, truncated by neither field's width, or zero on both once its
   * entries have been deleted. The memory quota is never more than the memory
   * request; with escaped paths it is the same exactly when no container limits
   * memory without cores, and as written it is zero.
   */
  lemma TenantQuota(c: Cluster, gpus: seq<GpuRecord>, es: seq<Event>, d: nat, pod: string, key: string)
    requires NonNegativePods(c) && GpuOnly(c) && Safe(c, gpus) && d < |gpus|
    requires var s := Run(c, Initial(gpus), es); (pod, key) in s.files && PlacedOn(s.charges, pod, d)
    ensures 0 <= MemQuota(c.paths, c.Spec(pod)) <= Sum(c.Spec(pod), GpuMemory)
    ensures QuotaMeetsRequest(c, pod)
    ensures var s := Run(c, Initial(gpus), es);
            var full := Config(MemQuota(c.paths, c.Spec(pod)) * MEMORY_BLOCK, Sum(c.Spec(pod), GpuCore));
            s.files[(pod, key)] == full || (pod in s.gone && s.files[(pod, key)] == Config(0, 0))
  {
    hide Sum, CoreQuota, MemQuota, Run, ConfigOf, PlacedOn, Safe, NonNegativePods, GpuOnly, MemoryWithCore;
    FilesCarryFullQuota(c, gpus, es, pod, key);
    QuotaIsRequest(c, pod);
    PlacedRequestIsSmall(c, gpus, es, d, pod);
    ConfigIsExact(CoreQuota(c.paths, c.Spec(pod)), MemQuota(c.paths, c.Spec(pod)));
    ConfigIsExact(0, 0);
  }

  /** The quota files of tenants add up to at most their requests; to exactly them while the pods live. */
  lemma {:induction false} FilesWithinRequests(c: Cluster, gpus: seq<GpuRecord>, es: seq<Event>,
                                               d: nat, ps: seq<string>, keys: seq<string>)
    requires NonNegativePods(c) && GpuOnly(c) && Safe(c, gpus) && d < |gpus|
    requires Tenants(Run(c, Initial(gpus), es), d, ps, keys)
    ensures var s := Run(c, Initial(gpus), es);
            && 0 <= UtilisationSum(s.files, ps, keys) <= RequestSum(c, ps, GpuCore)
            && 0 <= MemorySum(s.files, ps, keys) <= RequestSum(c, ps, GpuMemory) * MEMORY_BLOCK
            && (Live(s, ps) ==> UtilisationSum(s.files, ps, keys) == RequestSum(c, ps, GpuCore))
            && (Live(s, ps) && PairedLimits(c) ==>
                  MemorySum(s.files, ps, keys) == RequestSum(c, ps, GpuMemory) * MEMORY_BLOCK)
    decreases |ps|
  {
    if ps != [] {
      hide Sum, MemQuota, Run, PlacedOn, Safe, NonNegativePods, GpuOnly, MemoryWithCore, PairedLimits;
      var n := |ps| - 1;
      TenantQuota(c, gpus, es, d, ps[n], keys[n]);
      SpecNonNegative(c, ps[n], GpuCore);
      PairedPod(c, ps[n]);
      FilesWithinRequests(c, gpus, es, d, ps[..n], keys[..n]);
    }
  }

  lemma PairedPod(c: Cluster, pod: string)
    ensures PairedLimits(c) ==> c.paths.Escaped? && MemoryWithCore(c.Spec(pod))
  {
  }

  lemma TenantTotals(c: Cluster, gpus: seq<GpuRecord>, es: seq<Event>, d: nat, ps: seq<string>, keys: seq<string>)
    requires NonNegativePods(c) && GpuOnly(c) && Safe(c, gpus) && d < |gpus|
    requires Tenants(Run(c, Initial(gpus), es), d, ps, keys)
    ensures var s := Run(c, Initial(gpus), es);
            && 0 <= RequestSum(c, ps, GpuCore) <= CoreOn(s.charges, d)
            && 0 <= RequestSum(c, ps, GpuMemory) <= MemOn(s.charges, d)
            && |s.gpus| == |gpus| && s.gpus[d] == gpus[d].Charge(CoreOn(s.charges, d), MemOn(s.charges, d))
            && Safe(c, s.gpus)
  {
    hide Sum, Run, CoreOn, MemOn, Safe, NonNegativePods;
    LedgerKept(c, gpus, es);
    PlacedPodsWereCharged(c, Run(c, Initial(gpus), es).charges, |gpus|, d, ps);
  }

  /**
   * The code as written: over every interleaving the utilisation and memory
   * quotas of distinct pods on one device stay, together, within what was free
   * on its two axes; so do their requests.
   */
  lemma CombinedQuotaBound(c: Cluster, gpus: seq<GpuRecord>, es: seq<Event>, d: nat, ps: seq<string>, keys: seq<string>)
    requires NonNegativePods(c) && GpuOnly(c) && Safe(c, gpus) && d < |gpus|
    requires Tenants(Run(c, Initial(gpus), es), d, ps, keys)
    ensures var files := Run(c, Initial(gpus), es).files;
            && UtilisationSum(files, ps, keys) * MEMORY_BLOCK + MemorySum(files, ps, keys)
               <= gpus[d].Slack() * MEMORY_BLOCK
            && UtilisationSum(files, ps, keys) + RequestSum(c, ps, GpuMemory) <= gpus[d].Slack()
  {
    hide Sum, Run, RequestSum, UtilisationSum, MemorySum, CoreOn, MemOn;
    hide PairedLimits, Tenants, NonNegativePods, GpuOnly;
    FilesWithinRequests(c, gpus, es, d, ps, keys);
    TenantTotals(c, gpus, es, d, ps, keys);
  }

  /**
   * With matched labels, or with pods asking as much memory as cores, neither
   * axis of a device is oversold: on 100 free cores the utilisation quotas of
   * distinct pods sum to at most 100, and their memory quotas to at most the
   * free memory.
   */
  lemma AxisQuotaBound(c: Cluster, gpus: seq<GpuRecord>, es: seq<Event>, d: nat, ps: seq<string>, keys: seq<string>)
    requires NonNegativePods(c) && GpuOnly(c) && Sound(gpus) && AllAxisSafe(gpus) && d < |gpus|
    requires c.labels.Matched? || BalancedPods(c)
    requires Tenants(Run(c, Initial(gpus), es), d, ps, keys)
    ensures var files := Run(c, Initial(gpus), es).files;
            && UtilisationSum(files, ps, keys) <= gpus[d].CoreSlack()
            && MemorySum(files, ps, keys) <= gpus[d].MemSlack() * MEMORY_BLOCK
            && (gpus[d].coreCap == 100 && gpus[d].coreUsed == 0 ==> UtilisationSum(files, ps, keys) <= 100)
  {
    hide Sum, Run, RequestSum, UtilisationSum, MemorySum, CoreOn, MemOn, BalancedPods, PairedLimits, Tenants, GpuOnly;
    FilesWithinRequests(c, gpus, es, d, ps, keys);
    TenantTotals(c, gpus, es, d, ps, keys);
  }
}
