/**
 * Device accounting: the GPU records kept at the API server, the best-fit
 * choice over them, and the charge of the chosen record.
 */
module GpuAccounting {

  /** A GPU record: capacity and used amounts per axis, in percent of cores and blocks of memory. */
  datatype GpuRecord = GpuRecord(uuid: string, coreCap: int, memCap: int, coreUsed: int, memUsed: int) {
    function CoreSlack(): int { coreCap - coreUsed }
    function MemSlack(): int { memCap - memUsed }
    function Slack(): int { CoreSlack() + MemSlack() }
    predicate AxisSafe() { CoreSlack() >= 0 && MemSlack() >= 0 }
    function Charge(core: int, mem: int): GpuRecord {
      this.(coreUsed := coreUsed + core, memUsed := memUsed + mem)
    }
  }

  /**
   * How the listing labels the two axes. The code reads the core axis into the
   * fields named mem* and the memory axis into those named core*, and then
   * compares by field name; `Matched` is the labelling the charge assumes.
   */
  datatype Labels = AsWritten | Matched

  /** A listed device, under the code's field names. */
  datatype Listed = Listed(memTotal: int, coreTotal: int, memUsed: int, coreUsed: int)

  datatype Choice = NoMatch | Device(index: nat)
  datatype Outcome = Granted(uuid: string) | NoGpuMatch | UpdateFailed

  const SENTINEL: int := 99999

  function List(labels: Labels, r: GpuRecord): Listed {
    match labels
    case AsWritten => Listed(r.coreCap, r.memCap, r.coreUsed, r.memUsed)
    case Matched => Listed(r.memCap, r.coreCap, r.memUsed, r.coreUsed)
  }

  predicate Feasible(labels: Labels, r: GpuRecord, core: int, mem: int) {
    var d := List(labels, r);
    d.coreTotal - d.coreUsed >= core && d.memTotal - d.memUsed >= mem
  }

  /** Indices of the feasible devices among the first `n`, in order. */
  function FeasibleUpTo(labels: Labels, rs: seq<GpuRecord>, core: int, mem: int, n: nat): seq<nat>
    requires n <= |rs|
  {
    if n == 0 then []
    else FeasibleUpTo(labels, rs, core, mem, n - 1) + if Feasible(labels, rs[n - 1], core, mem) then [n - 1] else []
  }

  predicate Indices(rs: seq<GpuRecord>, candidates: seq<nat>) {
    forall k :: 0 <= k < |candidates| ==> candidates[k] < |rs|
  }

  ghost predicate Increasing(c: seq<nat>) {
    forall j, k :: 0 <= j < k < |c| ==> c[j] < c[k]
  }

  lemma {:induction false} FeasibleUpToExact(labels: Labels, rs: seq<GpuRecord>, core: int, mem: int, n: nat)
    requires n <= |rs|
    ensures var c := FeasibleUpTo(labels, rs, core, mem, n);
      && Indices(rs, c)
      && (forall k :: 0 <= k < |c| ==> c[k] < n && Feasible(labels, rs[c[k]], core, mem))
      && (forall i :: 0 <= i < n && Feasible(labels, rs[i], core, mem) ==> i in c)
      && Increasing(c)
  {
    if n > 0 {
      hide Feasible;
      FeasibleUpToExact(labels, rs, core, mem, n - 1);
    }
  }

  /** The scan's running minimum and candidate after the given devices. */
  function Scan(rs: seq<GpuRecord>, candidates: seq<nat>): (int, nat)
    requires Indices(rs, candidates)
  {
    if candidates == [] then (SENTINEL, 0)
    else
      var v := candidates[|candidates| - 1];
      var (sum, pick) := Scan(rs, candidates[..|candidates| - 1]);
      if rs[v].Slack() < sum then (rs[v].Slack(), v) else (sum, pick)
  }

  function Choose(labels: Labels, rs: seq<GpuRecord>, core: int, mem: int): Choice {
    FeasibleUpToExact(labels, rs, core, mem, |rs|);
    var feasible := FeasibleUpTo(labels, rs, core, mem, |rs|);
    if feasible == [] then NoMatch else Device(Scan(rs, feasible).1)
  }

  function ListAll(labels: Labels, rs: seq<GpuRecord>): (ds: seq<Listed>)
    ensures |ds| == |rs|
    ensures forall i :: 0 <= i < |rs| ==> ds[i] == List(labels, rs[i])
  {
    seq(|rs|, i requires 0 <= i < |rs| => List(labels, rs[i]))
  }

  /** The first loop: collect the indices of the feasible devices. */
  method CollectFeasible(labels: Labels, listed: seq<Listed>, ghost rs: seq<GpuRecord>, core: int, mem: int)
      returns (satisfied: seq<nat>)
    requires listed == ListAll(labels, rs)
    ensures satisfied == FeasibleUpTo(labels, rs, core, mem, |rs|)
  {
    satisfied := [];
    for i := 0 to |listed|
      invariant satisfied == FeasibleUpTo(labels, rs, core, mem, i)
    {
      var d := listed[i];
      if d.coreTotal - d.coreUsed >= core && d.memTotal - d.memUsed >= mem {
        satisfied := satisfied + [i];
      }
    }
  }

  /** The second loop: keep the strictly smallest combined slack seen so far. */
  method ScanCandidates(labels: Labels, listed: seq<Listed>, ghost rs: seq<GpuRecord>, satisfied: seq<nat>)
      returns (candidate: nat)
    requires listed == ListAll(labels, rs) && Indices(rs, satisfied)
    ensures candidate == Scan(rs, satisfied).1
  {
    var sum := SENTINEL;
    candidate := 0;
    for k := 0 to |satisfied|
      invariant (sum, candidate) == Scan(rs, satisfied[..k])
    {
      assert satisfied[..k + 1][..k] == satisfied[..k];
      var d := listed[satisfied[k]];
      var slack := d.coreTotal - d.coreUsed + d.memTotal - d.memUsed;
      if slack < sum {
        sum, candidate := slack, satisfied[k];
      }
    }
    assert satisfied[..|satisfied|] == satisfied;
  }

  method ChooseDevice(labels: Labels, rs: seq<GpuRecord>, core: int, mem: int) returns (choice: Choice)
    ensures choice == Choose(labels, rs, core, mem)
  {
    hide FeasibleUpTo, Scan, List;
    var listed := ListAll(labels, rs);
    var satisfied := CollectFeasible(labels, listed, rs, core, mem);
    FeasibleUpToExact(labels, rs, core, mem, |rs|);
    if |satisfied| == 0 {
      return NoMatch;
    }
    var candidate := ScanCandidates(labels, listed, rs, satisfied);
    return Device(candidate);
  }

  // ----- best fit

  /** Device `i` is feasible, none feasible has less combined slack, and none before it has as little. */
  ghost predicate BestFit(labels: Labels, rs: seq<GpuRecord>, core: int, mem: int, i: nat) {
    && i < |rs| && Feasible(labels, rs[i], core, mem)
    && (forall j :: 0 <= j < |rs| && Feasible(labels, rs[j], core, mem) ==> rs[i].Slack() <= rs[j].Slack())
    && (forall j :: 0 <= j < i && Feasible(labels, rs[j], core, mem) ==> rs[i].Slack() < rs[j].Slack())
  }

  /** `sum` is at most every candidate's slack, and below that of the candidates listed before `pick`. */
  ghost predicate LeastSoFar(rs: seq<GpuRecord>, c: seq<nat>, sum: int, pick: nat)
    requires Indices(rs, c)
  {
    forall k :: 0 <= k < |c| ==> sum <= rs[c[k]].Slack() && (c[k] < pick ==> sum < rs[c[k]].Slack())
  }

  lemma {:induction false} ScanFindsMinimum(rs: seq<GpuRecord>, c: seq<nat>)
    requires Indices(rs, c) && Increasing(c)
    ensures var (sum, pick) := Scan(rs, c);
            && LeastSoFar(rs, c, sum, pick)
            && if sum == SENTINEL then pick == 0 else pick in c && sum == rs[pick].Slack() < SENTINEL
  {
    if c != [] {
      var n := |c| - 1;
      ScanFindsMinimum(rs, c[..n]);
      var (sum, pick) := Scan(rs, c);
      forall k | 0 <= k < |c|
        ensures sum <= rs[c[k]].Slack() && (c[k] < pick ==> sum < rs[c[k]].Slack())
      {
        if k < n {
          assert c[..n][k] == c[k];
        }
      }
    }
  }

  ghost predicate SomeFeasibleBelow(labels: Labels, rs: seq<GpuRecord>, core: int, mem: int, bound: int) {
    exists i :: 0 <= i < |rs| && Feasible(labels, rs[i], core, mem) && rs[i].Slack() < bound
  }

  ghost predicate SomeFeasible(labels: Labels, rs: seq<GpuRecord>, core: int, mem: int) {
    exists i :: 0 <= i < |rs| && Feasible(labels, rs[i], core, mem)
  }

  lemma ChoiceRefusesIff(labels: Labels, rs: seq<GpuRecord>, core: int, mem: int)
    ensures Choose(labels, rs, core, mem).NoMatch? <==> !SomeFeasible(labels, rs, core, mem)
  {
    FeasibleUpToExact(labels, rs, core, mem, |rs|);
    var c := FeasibleUpTo(labels, rs, core, mem, |rs|);
    if c != [] {
      assert Feasible(labels, rs[c[0]], core, mem);
    }
  }

  /**
   * The choice refuses exactly when no device is feasible. It is the best fit
   * as soon as some feasible device has combined slack below the sentinel;
   * when all of them are at or above it, device 0 is taken whether feasible or not.
   */
  lemma ChoiceCharacterised(labels: Labels, rs: seq<GpuRecord>, core: int, mem: int)
    ensures Choose(labels, rs, core, mem).NoMatch? <==> !SomeFeasible(labels, rs, core, mem)
    ensures SomeFeasibleBelow(labels, rs, core, mem, SENTINEL) ==>
              Choose(labels, rs, core, mem).Device?
              && BestFit(labels, rs, core, mem, Choose(labels, rs, core, mem).index)
    ensures SomeFeasible(labels, rs, core, mem) && !SomeFeasibleBelow(labels, rs, core, mem, SENTINEL) ==>
              Choose(labels, rs, core, mem) == Device(0)
  {
    ChoiceRefusesIff(labels, rs, core, mem);
    var c := FeasibleUpTo(labels, rs, core, mem, |rs|);
    FeasibleUpToExact(labels, rs, core, mem, |rs|);
    ScanFindsMinimum(rs, c);
    var (sum, pick) := Scan(rs, c);
    forall j | 0 <= j < |rs| && Feasible(labels, rs[j], core, mem)
      ensures sum <= rs[j].Slack() && (j < pick ==> sum < rs[j].Slack())
    {
      assert j in c;
      var k :| 0 <= k < |c| && c[k] == j;
    }
    if sum < SENTINEL {
      var k :| 0 <= k < |c| && c[k] == pick;
    }
  }

  /**
   * When the choice is the best fit, if some device is feasible at all: exactly
   * when one of them has combined slack below the sentinel, or device 0
   * happens to be the best fit.
   */
  lemma ChoosesBestFitIff(labels: Labels, rs: seq<GpuRecord>, core: int, mem: int)
    requires SomeFeasible(labels, rs, core, mem)
    ensures Choose(labels, rs, core, mem).Device?
    ensures BestFit(labels, rs, core, mem, Choose(labels, rs, core, mem).index)
            <==> SomeFeasibleBelow(labels, rs, core, mem, SENTINEL) || BestFit(labels, rs, core, mem, 0)
  {
    hide Choose, BestFit, SomeFeasible, SomeFeasibleBelow;
    ChoiceCharacterised(labels, rs, core, mem);
  }

  /**
   * Sentinel failure: next to a fully charged card, a fresh card with combined
   * slack 99999 is the only feasible one, and the full card is chosen.
   */
  lemma SentinelPicksInfeasible(blocks: nat, core: nat, mem: nat)
    requires 1 <= core <= 99899 && 1 <= mem <= 100
    ensures var rs := [GpuRecord("a", 100, blocks, 100, blocks), GpuRecord("b", 100, 99899, 0, 0)];
            && BestFit(AsWritten, rs, core, mem, 1)
            && Choose(AsWritten, rs, core, mem) == Device(0) && !Feasible(AsWritten, rs[0], core, mem)
  {
    var rs := [GpuRecord("a", 100, blocks, 100, blocks), GpuRecord("b", 100, 99899, 0, 0)];
    hide Choose;
    assert Feasible(AsWritten, rs[1], core, mem);
    assert !Feasible(AsWritten, rs[0], core, mem);
    ChoiceCharacterised(AsWritten, rs, core, mem);
  }

  /** One block less and the fresh card is chosen: the sentinel decides at exactly 99999. */
  lemma SentinelIsExact(blocks: nat, core: nat, mem: nat)
    requires 1 <= core <= 99898 && 1 <= mem <= 100
    ensures var rs := [GpuRecord("a", 100, blocks, 100, blocks), GpuRecord("b", 100, 99898, 0, 0)];
            Choose(AsWritten, rs, core, mem) == Device(1)
  {
    var rs := [GpuRecord("a", 100, blocks, 100, blocks), GpuRecord("b", 100, 99898, 0, 0)];
    hide Choose;
    assert Feasible(AsWritten, rs[1], core, mem);
    assert !Feasible(AsWritten, rs[0], core, mem);
    ChoiceCharacterised(AsWritten, rs, core, mem);
  }

  // ----- the store

  /** What the charge does to the records when the update succeeds. */
  function Grant(labels: Labels, rs: seq<GpuRecord>, core: int, mem: int): seq<GpuRecord> {
    match Choose(labels, rs, core, mem)
    case NoMatch => rs
    case Device(i) => if i < |rs| then rs[i := rs[i].Charge(core, mem)] else rs
  }

  lemma ChoiceInRange(labels: Labels, rs: seq<GpuRecord>, core: int, mem: int)
    ensures Choose(labels, rs, core, mem).Device? ==> Choose(labels, rs, core, mem).index < |rs|
  {
    ChoiceCharacterised(labels, rs, core, mem);
  }

  /** The GPU records at the API server; calls are serial. */
  class GpuStore {
    var records: seq<GpuRecord>

    constructor (initial: seq<GpuRecord>)
      ensures records == initial
    {
      records := initial;
    }

    /** `updateOk` is the API server's answer to the update of the chosen record. */
    method GetGpuResource(labels: Labels, core: int, mem: int, updateOk: bool) returns (outcome: Outcome)
      modifies this
      ensures outcome == NoGpuMatch <==> !SomeFeasible(labels, old(records), core, mem)
      ensures outcome.Granted? ==>
                updateOk &&
                var choice := Choose(labels, old(records), core, mem);
                && choice.Device? && choice.index < |old(records)|
                && records == Grant(labels, old(records), core, mem)
                && outcome.uuid == old(records)[choice.index].uuid
      ensures !outcome.Granted? ==> records == old(records)
      ensures outcome == UpdateFailed ==> !updateOk
    {
      var choice := ChooseDevice(labels, records, core, mem);
      ChoiceCharacterised(labels, records, core, mem);
      if choice.NoMatch? {
        return NoGpuMatch;
      }
      if !updateOk {
        return UpdateFailed;
      }
      ChoiceInRange(labels, records, core, mem);
      records := records[choice.index := records[choice.index].Charge(core, mem)];
      return Granted(records[choice.index].uuid);
    }
  }

  // ----- accounting over whole histories

  datatype Request = Request(core: nat, mem: nat, updateOk: bool)

  function Serve(labels: Labels, rs: seq<GpuRecord>, q: Request): seq<GpuRecord> {
    if q.updateOk then Grant(labels, rs, q.core, q.mem) else rs
  }

  function ServeAll(labels: Labels, rs: seq<GpuRecord>, qs: seq<Request>): seq<GpuRecord> {
    if qs == [] then rs
    else Serve(labels, ServeAll(labels, rs, qs[..|qs| - 1]), qs[|qs| - 1])
  }

  predicate IsGranted(labels: Labels, rs: seq<GpuRecord>, q: Request) {
    q.updateOk && Choose(labels, rs, q.core, q.mem).Device?
  }

  /** The requests of a history that were granted, in order. */
  function GrantedOf(labels: Labels, rs: seq<GpuRecord>, qs: seq<Request>): seq<Request> {
    if qs == [] then []
    else
      var before := qs[..|qs| - 1];
      GrantedOf(labels, rs, before) +
      if IsGranted(labels, ServeAll(labels, rs, before), qs[|qs| - 1]) then [qs[|qs| - 1]] else []
  }

  function Used(rs: seq<GpuRecord>): (int, int) {
    if rs == [] then (0, 0)
    else
      var (core, mem) := Used(rs[..|rs| - 1]);
      (core + rs[|rs| - 1].coreUsed, mem + rs[|rs| - 1].memUsed)
  }

  function Asked(qs: seq<Request>): (int, int) {
    if qs == [] then (0, 0)
    else
      var (core, mem) := Asked(qs[..|qs| - 1]);
      (core + qs[|qs| - 1].core, mem + qs[|qs| - 1].mem)
  }

  lemma {:induction false} UsedUpdate(rs: seq<GpuRecord>, i: nat, core: int, mem: int)
    requires i < |rs|
    ensures Used(rs[i := rs[i].Charge(core, mem)]) == (Used(rs).0 + core, Used(rs).1 + mem)
  {
    var n := |rs| - 1;
    var rs' := rs[i := rs[i].Charge(core, mem)];
    if i == n {
      assert rs'[..n] == rs[..n];
    } else {
      assert rs'[..n] == rs[..n][i := rs[i].Charge(core, mem)];
      UsedUpdate(rs[..n], i, core, mem);
    }
  }

  lemma ServeUses(labels: Labels, rs: seq<GpuRecord>, q: Request)
    ensures Used(Serve(labels, rs, q)) ==
            if IsGranted(labels, rs, q) then (Used(rs).0 + q.core, Used(rs).1 + q.mem) else Used(rs)
  {
    hide Used, Choose;
    ChoiceInRange(labels, rs, q.core, q.mem);
    if IsGranted(labels, rs, q) {
      UsedUpdate(rs, Choose(labels, rs, q.core, q.mem).index, q.core, q.mem);
    }
  }

  lemma AskedAppend(qs: seq<Request>, q: Request)
    ensures Asked(qs + [q]) == (Asked(qs).0 + q.core, Asked(qs).1 + q.mem)
  {
    assert (qs + [q])[..|qs|] == qs;
  }

  /** Nothing is charged that was not granted, and everything granted is charged once. */
  lemma {:induction false} UsedIsSumOfGrants(labels: Labels, rs: seq<GpuRecord>, qs: seq<Request>)
    ensures Used(ServeAll(labels, rs, qs)).0 == Used(rs).0 + Asked(GrantedOf(labels, rs, qs)).0
    ensures Used(ServeAll(labels, rs, qs)).1 == Used(rs).1 + Asked(GrantedOf(labels, rs, qs)).1
  {
    if qs != [] {
      hide Used, Asked, Serve, IsGranted;
      var before, q := qs[..|qs| - 1], qs[|qs| - 1];
      var now, granted := ServeAll(labels, rs, before), GrantedOf(labels, rs, before);
      UsedIsSumOfGrants(labels, rs, before);
      ServeUses(labels, now, q);
      if IsGranted(labels, now, q) {
        AskedAppend(granted, q);
        assert GrantedOf(labels, rs, qs) == granted + [q];
      } else {
        assert GrantedOf(labels, rs, qs) == granted + [] == granted;
      }
    }
  }

  /** The records a daemon makes: non-negative counters, capacity below the sentinel, combined slack left. */
  ghost predicate Sound(rs: seq<GpuRecord>) {
    forall i :: 0 <= i < |rs| ==>
      rs[i].coreUsed >= 0 && rs[i].memUsed >= 0 && rs[i].Slack() >= 0 && rs[i].coreCap + rs[i].memCap < SENTINEL
  }

  ghost predicate AllAxisSafe(rs: seq<GpuRecord>) {
    forall i :: 0 <= i < |rs| ==> rs[i].AxisSafe()
  }

  /** In a sound store the charged device is feasible, and it is the only record that changes. */
  lemma GrantIsLocal(labels: Labels, rs: seq<GpuRecord>, core: nat, mem: nat)
    requires Sound(rs)
    ensures var choice := Choose(labels, rs, core, mem);
            var rs' := Grant(labels, rs, core, mem);
            && |rs'| == |rs|
            && (choice.NoMatch? ==> rs' == rs)
            && (choice.Device? ==>
                  && choice.index < |rs|
                  && Feasible(labels, rs[choice.index], core, mem)
                  && rs'[choice.index] == rs[choice.index].Charge(core, mem)
                  && forall j :: 0 <= j < |rs| && j != choice.index ==> rs'[j] == rs[j])
  {
    ChoiceCharacterised(labels, rs, core, mem);
  }

  /** Under either labelling no sequence of calls drives the combined slack of any device below zero. */
  lemma {:induction false} CombinedSlackKept(labels: Labels, rs: seq<GpuRecord>, qs: seq<Request>)
    requires Sound(rs)
    ensures Sound(ServeAll(labels, rs, qs)) && |ServeAll(labels, rs, qs)| == |rs|
  {
    if qs != [] {
      var before, q := qs[..|qs| - 1], qs[|qs| - 1];
      CombinedSlackKept(labels, rs, before);
      GrantIsLocal(labels, ServeAll(labels, rs, before), q.core, q.mem);
    }
  }

  predicate Balanced(qs: seq<Request>) {
    forall i :: 0 <= i < |qs| ==> qs[i].core == qs[i].mem
  }

  /** Per-axis safety: always under matched labels; as written when every request asks as much core as memory. */
  lemma {:induction false} AxesKept(labels: Labels, rs: seq<GpuRecord>, qs: seq<Request>)
    requires Sound(rs) && AllAxisSafe(rs)
    requires labels.Matched? || Balanced(qs)
    ensures AllAxisSafe(ServeAll(labels, rs, qs))
  {
    if qs != [] {
      var before, q := qs[..|qs| - 1], qs[|qs| - 1];
      AxesKept(labels, rs, before);
      CombinedSlackKept(labels, rs, before);
      GrantIsLocal(labels, ServeAll(labels, rs, before), q.core, q.mem);
    }
  }

  // ----- the records the daemon writes

  /** The records created at start-up: 100 cores, nothing used. */
  predicate FreshRecords(rs: seq<GpuRecord>) {
    forall i :: 0 <= i < |rs| ==>
      rs[i].coreCap == 100 && rs[i].memCap >= 0 && rs[i].coreUsed == 0 && rs[i].memUsed == 0
      && rs[i].coreCap + rs[i].memCap < SENTINEL
  }

  /** What some history of calls, labels as written, makes of fresh records. */
  ghost predicate Written(rs: seq<GpuRecord>) {
    exists start, qs :: FreshRecords(start) && rs == ServeAll(AsWritten, start, qs)
  }

  predicate HundredCores(rs: seq<GpuRecord>) {
    forall i :: 0 <= i < |rs| ==> rs[i].coreCap == 100
  }

  lemma {:induction false} CapacityKept(labels: Labels, rs: seq<GpuRecord>, qs: seq<Request>)
    requires Sound(rs) && HundredCores(rs)
    ensures HundredCores(ServeAll(labels, rs, qs))
  {
    if qs != [] {
      hide Choose, Grant, Sound;
      var before, q := qs[..|qs| - 1], qs[|qs| - 1];
      var now := ServeAll(labels, rs, before);
      CapacityKept(labels, rs, before);
      CombinedSlackKept(labels, rs, before);
      GrantIsLocal(labels, now, q.core, q.mem);
      assert HundredCores(Grant(labels, now, q.core, q.mem));
    }
  }

  lemma WrittenIsSound(rs: seq<GpuRecord>)
    requires Written(rs)
    ensures Sound(rs) && HundredCores(rs)
  {
    hide ServeAll;
    var start, qs :| FreshRecords(start) && rs == ServeAll(AsWritten, start, qs);
    CombinedSlackKept(AsWritten, start, qs);
    CapacityKept(AsWritten, start, qs);
  }

  /** A request served on a store of one feasible record. */
  lemma ServedAlone(r: GpuRecord, core: nat, mem: nat)
    requires Feasible(AsWritten, r, core, mem) && r.Slack() < SENTINEL
    ensures Grant(AsWritten, [r], core, mem) == [r.Charge(core, mem)]
  {
    assert Feasible(AsWritten, [r][0], core, mem);
    ChoiceCharacterised(AsWritten, [r], core, mem);
  }

  lemma UnsafeAlone(r: GpuRecord)
    requires !r.AxisSafe()
    ensures !AllAxisSafe([r])
  {
    assert [r][0] == r;
  }

  /**
   * A store the request oversells: a fresh card with as many blocks as cores
   * are asked, or a card on which `mem` cores are left.
   */
  lemma TightStore(core: nat, mem: nat) returns (rs: seq<GpuRecord>)
    requires core != mem && mem <= 100 && core <= SENTINEL - 101
    ensures Written(rs) && AllAxisSafe(rs) && !AllAxisSafe(Grant(AsWritten, rs, core, mem))
  {
    hide Choose, Grant;
    if core < mem {
      var card := GpuRecord("a", 100, core, 0, 0);
      rs := [card];
      assert ServeAll(AsWritten, rs, []) == rs && FreshRecords(rs);
      ServedAlone(card, core, mem);
      UnsafeAlone(card.Charge(core, mem));
    } else {
      var blocks := if core < 100 - mem then 100 - mem else core;
      var card, q := GpuRecord("a", 100, blocks, 0, 0), Request(100 - mem, 0, true);
      var used := card.Charge(100 - mem, 0);
      ServedAlone(card, 100 - mem, 0);
      rs := [used];
      assert [q][..0] == [] && ServeAll(AsWritten, [card], []) == [card];
      assert ServeAll(AsWritten, [card], [q]) == rs && FreshRecords([card]);
      ServedAlone(used, core, mem);
      UnsafeAlone(used.Charge(core, mem));
    }
  }

  /**
   * Exactly which requests the labels as written serve safely on every store
   * the daemon can have written: those asking equal amounts, and those no card
   * of 100 cores can be chosen for.
   */
  lemma AsWrittenSafeIff(core: nat, mem: nat)
    ensures (forall rs :: Written(rs) && AllAxisSafe(rs) ==> AllAxisSafe(Grant(AsWritten, rs, core, mem)))
            <==> core == mem || mem > 100 || core > SENTINEL - 101
  {
    hide Choose, Grant, Written;
    if core == mem || mem > 100 || core > SENTINEL - 101 {
      forall rs | Written(rs) && AllAxisSafe(rs) ensures AllAxisSafe(Grant(AsWritten, rs, core, mem)) {
        WrittenIsSound(rs);
        GrantIsLocal(AsWritten, rs, core, mem);
      }
    } else {
      var rs := TightStore(core, mem);
    }
  }

  // ----- a failing history

  /** The first of two cards is the only one with less slack, or the first of equals. */
  lemma FirstCardTaken(r: GpuRecord, other: GpuRecord, core: nat, mem: nat)
    requires Feasible(AsWritten, r, core, mem) && r.Slack() <= other.Slack() && r.Slack() < SENTINEL
    ensures Choose(AsWritten, [r, other], core, mem) == Device(0)
    ensures Grant(AsWritten, [r, other], core, mem) == [r.Charge(core, mem), other]
  {
    hide Choose;
    var rs := [r, other];
    assert Feasible(AsWritten, rs[0], core, mem);
    ChoiceCharacterised(AsWritten, rs, core, mem);
    assert BestFit(AsWritten, rs, core, mem, Choose(AsWritten, rs, core, mem).index);
    assert rs[0] == r && rs[1] == other;
  }

  /**
   * As written, on two fresh cards of 100 cores, three requests for 140 cores
   * in all go to the first card, and leave the second one free.
   */
  lemma AsWrittenOversells(first: string, second: string, q: Request, last: Request)
    requires q == Request(50, 10, true) && last == Request(40, 0, true)
    ensures var card, other := GpuRecord(first, 100, 60, 0, 0), GpuRecord(second, 100, 60, 0, 0);
            ServeAll(AsWritten, [card, other], [q, q, last]) == [card.Charge(140, 20), other]
  {
    hide ServeAll, Feasible;
    var card, other := GpuRecord(first, 100, 60, 0, 0), GpuRecord(second, 100, 60, 0, 0);
    var s1, s2 := card.Charge(50, 10), card.Charge(100, 20);
    FeasibleMeans(card, 50, 10);
    FeasibleMeans(s1, 50, 10);
    FeasibleMeans(s2, 40, 0);
    ThreeServed(card, s1, s2, other, q, q, last);
  }

  lemma ThreeServed(r0: GpuRecord, r1: GpuRecord, r2: GpuRecord, other: GpuRecord,
                    q0: Request, q1: Request, q2: Request)
    requires q0.updateOk && q1.updateOk && q2.updateOk
    requires r1 == r0.Charge(q0.core, q0.mem) && r2 == r1.Charge(q1.core, q1.mem)
    requires r0.Slack() <= other.Slack() && r0.Slack() < SENTINEL
    requires Feasible(AsWritten, r0, q0.core, q0.mem)
    requires Feasible(AsWritten, r1, q1.core, q1.mem)
    requires Feasible(AsWritten, r2, q2.core, q2.mem)
    ensures ServeAll(AsWritten, [r0, other], [q0, q1, q2]) == [r2.Charge(q2.core, q2.mem), other]
  {
    hide ServeAll, Feasible;
    NothingServed([r0, other]);
    FirstCardServes([r0, other], [], r0, other, q0);
    FirstCardServes([r0, other], [] + [q0], r1, other, q1);
    FirstCardServes([r0, other], [] + [q0] + [q1], r2, other, q2);
    assert [] + [q0] + [q1] + [q2] == [q0, q1, q2];
  }

  /** As written the memory left is compared with the cores asked, and the cores left with the memory asked. */
  lemma FeasibleMeans(r: GpuRecord, core: int, mem: int)
    ensures Feasible(AsWritten, r, core, mem) <==> r.MemSlack() >= core && r.CoreSlack() >= mem
    ensures Feasible(Matched, r, core, mem) <==> r.CoreSlack() >= core && r.MemSlack() >= mem
  {
  }

  lemma NothingServed(rs: seq<GpuRecord>)
    ensures ServeAll(AsWritten, rs, []) == rs
  {
  }

  lemma FirstCardServes(rs: seq<GpuRecord>, qs: seq<Request>, r: GpuRecord, other: GpuRecord, q: Request)
    requires ServeAll(AsWritten, rs, qs) == [r, other] && q.updateOk
    requires Feasible(AsWritten, r, q.core, q.mem) && r.Slack() <= other.Slack() && r.Slack() < SENTINEL
    ensures ServeAll(AsWritten, rs, qs + [q]) == [r.Charge(q.core, q.mem), other]
  {
    hide Choose, Grant;
    assert (qs + [q])[..|qs|] == qs;
    FirstCardTaken(r, other, q.core, q.mem);
  }
}
