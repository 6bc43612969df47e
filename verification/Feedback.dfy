/**
 * The feedback step of the compute controller: from the quota, the measured
 * utilisation and the previous share it computes the next share.
 */
module Feedback {
  import opened Arith

  /** The hardware attributes the step reads from its globals. */
  datatype Device =
    | Gpu(smNum: nat, maxThreadPerSm: nat)
    | Mlu(coreCount: nat)

  const THREADS_PER_MLU_CORE: nat := 256

  function Units(d: Device): nat {
    if d.Gpu? then d.smNum else d.coreCount
  }

  function ThreadsPerUnit(d: Device): nat {
    if d.Gpu? then d.maxThreadPerSm else THREADS_PER_MLU_CORE
  }

  function TotalCores(d: Device): nat {
    Units(d) * ThreadsPerUnit(d) * 32
  }

  function Weight(d: Device): nat {
    Units(d) * Units(d) * ThreadsPerUnit(d)
  }

  function Divisor(d: Device): nat {
    if d.Gpu? then 2560 else 256
  }

  function Gap(limit: nat, used: nat): nat {
    Max(5, Abs(limit - used))
  }

  function BaseStep(d: Device, gap: nat): nat {
    Weight(d) * gap / Divisor(d)
  }

  function Rescaled(base: nat, limit: nat, gap: nat): nat {
    base * gap * 2 / (limit + 1)
  }

  function Boosted(base: nat, limit: nat, gap: nat): nat {
    if gap > limit / 2 then Rescaled(base, limit, gap) else base
  }

  function Step(d: Device, limit: nat, gap: nat): nat {
    Boosted(BaseStep(d, gap), limit, gap)
  }

  /** `delta_for_gpu` and `delta_for_mlu`, over unbounded integers. */
  function Delta(d: Device, limit: nat, used: nat, share: int): int {
    var step := Step(d, limit, Gap(limit, used));
    if used <= limit then Min(TotalCores(d), share + step)
    else Max(0, share - step)
  }

  /** The smallest base step: the utilisation gap is never taken below 5. */
  function MinStep(d: Device): nat {
    BaseStep(d, 5)
  }

  // ----- the value of the step

  /** The larger of 5 and the distance from quota to sample. */
  predicate IsGap(gap: nat, limit: nat, used: nat) {
    && gap >= 5 && gap >= limit - used && gap >= used - limit
    && (gap == 5 || gap == limit - used || gap == used - limit)
  }

  /** The base amount `base` is rescaled when the gap is more than half the quota. */
  predicate IsStep(step: nat, base: nat, limit: nat, gap: nat) {
    if 2 * gap > limit then IsQuotient(step, base * gap * 2, limit + 1) else step == base
  }

  /** The share moves by the step toward the measured side and is clipped at `total` and at zero. */
  predicate IsNextShare(next: int, total: nat, limit: nat, used: nat, share: int, step: nat) {
    if used <= limit then next == (if share + step > total then total else share + step)
    else next == (if share - step < 0 then 0 else share - step)
  }

  lemma StepValue(d: Device, limit: nat, gap: nat)
    ensures IsStep(Step(d, limit, gap), BaseStep(d, gap), limit, gap)
  {
    if gap > limit / 2 {
      QuotientIs(BaseStep(d, gap) * gap * 2, limit + 1);
    }
  }

  lemma BaseStepValue(d: Device, gap: nat)
    ensures IsQuotient(BaseStep(d, gap), Weight(d) * gap, Divisor(d))
  {
    QuotientIs(Weight(d) * gap, Divisor(d));
  }

  /**
   * What the GPU step computes: the base is the squared multiprocessor count
   * times threads times gap over 2560, rounded down.
   */
  lemma GpuDeltaValue(sm: nat, threads: nat, limit: nat, used: nat, share: int)
      returns (gap: nat, base: nat, step: nat)
    ensures IsGap(gap, limit, used) && IsQuotient(base, sm * sm * threads * gap, 2560) && IsStep(step, base, limit, gap)
    ensures IsNextShare(Delta(Gpu(sm, threads), limit, used, share), sm * threads * 32, limit, used, share, step)
  {
    var d := Gpu(sm, threads);
    gap := Gap(limit, used);
    base, step := BaseStep(d, gap), Step(d, limit, gap);
    BaseStepValue(d, gap);
    StepValue(d, limit, gap);
    hide IsQuotient, IsStep, BaseStep, Step;
  }

  /** What the MLU step computes: 256 threads a core, and 256 in the divisor. */
  lemma MluDeltaValue(cores: nat, limit: nat, used: nat, share: int) returns (gap: nat, base: nat, step: nat)
    ensures IsGap(gap, limit, used) && IsQuotient(base, cores * cores * 256 * gap, 256)
    ensures IsStep(step, base, limit, gap)
    ensures IsNextShare(Delta(Mlu(cores), limit, used, share), cores * 256 * 32, limit, used, share, step)
  {
    var d := Mlu(cores);
    gap := Gap(limit, used);
    base, step := BaseStep(d, gap), Step(d, limit, gap);
    BaseStepValue(d, gap);
    StepValue(d, limit, gap);
    hide IsQuotient, IsStep, BaseStep, Step;
  }

  /** The boost at work: at 20 percent of a quota of 50, a card of 40 by 1024 starts at 22588 instead of 19200. */
  lemma BoostExample()
    ensures Delta(Gpu(40, 1024), 50, 20, 0) == 22588
  {
    assert Weight(Gpu(40, 1024)) == 1638400;
    assert BaseStep(Gpu(40, 1024), 30) == 19200;
  }

  // ----- order of the step

  lemma BaseStepMonotone(d: Device, g1: nat, g2: nat)
    requires g1 <= g2
    ensures BaseStep(d, g1) <= BaseStep(d, g2)
  {
    MulMono(g1, g2, Weight(d));
    DivMono(Weight(d) * g1, Weight(d) * g2, Divisor(d));
  }

  /** Past half the quota the step is rescaled, and never below the plain one. */
  lemma BoostNeverShrinks(d: Device, limit: nat, gap: nat)
    ensures BaseStep(d, gap) <= Step(d, limit, gap)
  {
    if gap > limit / 2 {
      var base := BaseStep(d, gap);
      assert gap * 2 >= limit + 1;
      MulMono(limit + 1, gap * 2, base);
      assert base * gap * 2 == (gap * 2) * base;
      DivLower(base * gap * 2, limit + 1, base);
    }
  }

  /** The step grows with the gap, also across the threshold of the rescaling. */
  lemma StepMonotone(d: Device, limit: nat, g1: nat, g2: nat)
    requires g1 <= g2
    ensures Step(d, limit, g1) <= Step(d, limit, g2)
  {
    BaseStepMonotone(d, g1, g2);
    var b1, b2 := BaseStep(d, g1), BaseStep(d, g2);
    if g1 > limit / 2 {
      MulMonoBoth(b1, b2, g1, g2);
      DivMono(b1 * g1 * 2, b2 * g2 * 2, limit + 1);
    } else {
      BoostNeverShrinks(d, limit, g2);
    }
  }

  lemma StepAtLeastMin(d: Device, limit: nat, used: nat)
    ensures MinStep(d) <= Step(d, limit, Gap(limit, used))
  {
    BaseStepMonotone(d, 5, Gap(limit, used));
    BoostNeverShrinks(d, limit, Gap(limit, used));
  }

  lemma DeltaInRange(d: Device, limit: nat, used: nat, share: int)
    requires 0 <= share <= TotalCores(d)
    ensures 0 <= Delta(d, limit, used, share) <= TotalCores(d)
    ensures used <= limit ==> Delta(d, limit, used, share) >= Min(TotalCores(d), share + MinStep(d))
    ensures used > limit ==> Delta(d, limit, used, share) <= Max(0, share - MinStep(d))
  {
    StepAtLeastMin(d, limit, used);
  }

  /**
   * More measured utilisation never yields a larger share, and a larger
   * previous share never yields a smaller one.
   */
  lemma DeltaMonotone(d: Device, limit: nat, used1: nat, used2: nat, share1: int, share2: int)
    requires used2 <= used1
    requires 0 <= share1 <= share2 <= TotalCores(d)
    ensures Delta(d, limit, used1, share1) <= Delta(d, limit, used2, share2)
  {
    if used1 <= limit {
      StepMonotone(d, limit, Gap(limit, used1), Gap(limit, used2));
    } else if used2 > limit {
      StepMonotone(d, limit, Gap(limit, used2), Gap(limit, used1));
    }
  }

  // ----- convergence of the share

  /** The share after a sequence of ticks that all reach `change_token`. */
  function ShareAfter(d: Device, limit: nat, samples: seq<nat>, share: int): int {
    if samples == [] then share
    else Delta(d, limit, samples[|samples| - 1], ShareAfter(d, limit, samples[..|samples| - 1], share))
  }

  /** A tick whose sample is in this band raises the share; below it the bucket is overwritten instead. */
  predicate InBand(limit: nat, used: nat) {
    limit / 10 <= used <= limit
  }

  lemma {:induction false} ShareRises(d: Device, limit: nat, samples: seq<nat>, share: int)
    requires 0 <= share <= TotalCores(d)
    requires forall i :: 0 <= i < |samples| ==> InBand(limit, samples[i])
    ensures Min(TotalCores(d), share + |samples| * MinStep(d)) <= ShareAfter(d, limit, samples, share) <= TotalCores(d)
  {
    if samples != [] {
      var n := |samples| - 1;
      ShareRises(d, limit, samples[..n], share);
      DeltaInRange(d, limit, samples[n], ShareAfter(d, limit, samples[..n], share));
      Successor(n, MinStep(d));
    }
  }

  lemma {:induction false} ShareFalls(d: Device, limit: nat, samples: seq<nat>, share: int)
    requires 0 <= share <= TotalCores(d)
    requires forall i :: 0 <= i < |samples| ==> samples[i] > limit
    ensures 0 <= ShareAfter(d, limit, samples, share) <= Max(0, share - |samples| * MinStep(d))
    ensures ShareAfter(d, limit, samples, share) <= TotalCores(d)
  {
    if samples != [] {
      var n := |samples| - 1;
      ShareFalls(d, limit, samples[..n], share);
      DeltaInRange(d, limit, samples[n], ShareAfter(d, limit, samples[..n], share));
      Successor(n, MinStep(d));
    }
  }

  /** Both directions of the controller settle within ceil(total / least step) ticks. */
  lemma Converges(d: Device, limit: nat, samples: seq<nat>, share: int)
    requires MinStep(d) >= 1
    requires 0 <= share <= TotalCores(d)
    requires |samples| >= CeilDiv(TotalCores(d), MinStep(d))
    ensures (forall i :: 0 <= i < |samples| ==> InBand(limit, samples[i])) ==>
              ShareAfter(d, limit, samples, share) == TotalCores(d)
    ensures (forall i :: 0 <= i < |samples| ==> samples[i] > limit) ==>
              ShareAfter(d, limit, samples, share) == 0
  {
    MulMono(CeilDiv(TotalCores(d), MinStep(d)), |samples|, MinStep(d));
    if forall i :: 0 <= i < |samples| ==> InBand(limit, samples[i]) {
      ShareRises(d, limit, samples, share);
    }
    if forall i :: 0 <= i < |samples| ==> samples[i] > limit {
      ShareFalls(d, limit, samples, share);
    }
  }

  /** For an MLU the least step is five times the squared core count, so the bound depends on the core count alone. */
  lemma MluBound(cores: nat)
    requires cores >= 1
    ensures MinStep(Mlu(cores)) == 5 * cores * cores
    ensures CeilDiv(TotalCores(Mlu(cores)), MinStep(Mlu(cores))) == CeilDiv(8192, 5 * cores)
  {
    var step := 5 * cores * cores;
    assert Weight(Mlu(cores)) * 5 == step * 256;
    CeilDivScales(8192, 5 * cores, cores);
  }

  lemma CeilDivScales(distance: nat, step: nat, factor: nat)
    requires step >= 1 && factor >= 1 && step * factor >= 1
    ensures CeilDiv(distance * factor, step * factor) == CeilDiv(distance, step)
  {
    var n, m := CeilDiv(distance * factor, step * factor), CeilDiv(distance, step);
    MulMono(distance, m * step, factor);
    Reorder(m, step, factor);
    Reorder(n, step, factor);
    if n * step < distance {
      MulMono(n * step + 1, distance, factor);
    }
  }

  lemma Reorder(n: nat, step: nat, factor: nat)
    ensures n * (step * factor) == (n * step) * factor
  {
  }

  /** The share a controller holds after `n` ticks measured exactly at the quota. */
  function AtQuota(limit: nat, n: nat): seq<nat> {
    seq(n, _ => limit)
  }

  /**
   * On hardware so small that the least step truncates to zero, a share
   * measured at the quota never moves. This is the only case in which the
   * full share is not reached.
   */
  lemma ReachesFullShareIffStepPositive(d: Device, limit: nat)
    requires TotalCores(d) > 0
    ensures (exists n: nat :: ShareAfter(d, limit, AtQuota(limit, n), 0) == TotalCores(d))
            <==> Weight(d) * 5 >= Divisor(d)
  {
    if Weight(d) * 5 >= Divisor(d) {
      DivLower(Weight(d) * 5, Divisor(d), 1);
      var n := CeilDiv(TotalCores(d), MinStep(d));
      Converges(d, limit, AtQuota(limit, n), 0);
    } else {
      forall n: nat ensures ShareAfter(d, limit, AtQuota(limit, n), 0) == 0 {
        StuckAtZero(d, limit, n);
      }
    }
  }

  lemma {:induction false} StuckAtZero(d: Device, limit: nat, n: nat)
    requires Weight(d) * 5 < Divisor(d)
    ensures ShareAfter(d, limit, AtQuota(limit, n), 0) == 0
  {
    if n > 0 {
      assert AtQuota(limit, n)[..n - 1] == AtQuota(limit, n - 1);
      StuckAtZero(d, limit, n - 1);
      assert Gap(limit, limit) == 5 && BaseStep(d, 5) == 0;
    }
  }
}
