/** When the feedback step and the token arithmetic are exact in C's 32-bit `int`. */
module IntWidth {
  import opened Arith
  import opened Feedback

  /** The step from the weight product on, each C operation reduced to 32 bits in evaluation order. */
  function Step32(weight: int, divisor: nat, limit: nat, gap: int): int
    requires divisor > 0 && limit <= INT_MAX
  {
    Boosted32(TruncDiv(Wrap32(weight * gap), divisor), limit, gap)
  }

  function Boosted32(base: int, limit: nat, gap: int): int
    requires limit <= INT_MAX
  {
    if gap > limit / 2 then Rescaled32(base, limit, gap) else base
  }

  function Rescaled32(base: int, limit: nat, gap: int): int
    requires limit <= INT_MAX
  {
    TruncDiv(Wrap32(Wrap32(base * gap) * 2), Wrap32(limit + 1))
  }

  function Weight32(d: Device): int {
    Wrap32(Wrap32(Units(d) * Units(d)) * ThreadsPerUnit(d))
  }

  function Gap32(limit: nat, used: int): int {
    var difference := Wrap32(limit - used);
    if Abs(difference) < 5 then 5 else Wrap32(Abs(difference))
  }

  function Total32(d: Device): int {
    Wrap32(Wrap32(Units(d) * ThreadsPerUnit(d)) * 32)
  }

  /** `delta_for_gpu` and `delta_for_mlu` in 32-bit arithmetic; the call converts the unsigned sample to `int`. */
  function Delta32(d: Device, limit: nat, used: nat, share: int): int
    requires limit <= INT_MAX
  {
    var sample := Wrap32(used);
    var step := Step32(Weight32(d), Divisor(d), limit, Gap32(limit, sample));
    if sample <= limit then
      (if Wrap32(share + step) > Total32(d) then Total32(d) else Wrap32(share + step))
    else
      (if Wrap32(share - step) < 0 then 0 else Wrap32(share - step))
  }

  /** Every intermediate value of one evaluation lies in the range of `int`. */
  predicate ExactStep(d: Device, limit: nat, used: nat, share: int) {
    var gap := Gap(limit, used);
    var step := Step(d, limit, gap);
    && FitsInt(used) && FitsInt(limit - used) && FitsInt(gap)
    && FitsInt(Units(d) * Units(d)) && FitsInt(Weight(d))
    && ExactScaling(Weight(d), Divisor(d), limit, gap)
    && FitsInt(Units(d) * ThreadsPerUnit(d)) && FitsInt(TotalCores(d))
    && FitsInt(if used <= limit then share + step else share - step)
  }

  predicate ExactScaling(weight: nat, divisor: nat, limit: nat, gap: nat)
    requires divisor > 0
  {
    var base := weight * gap / divisor;
    && FitsInt(weight * gap)
    && (gap > limit / 2 ==> FitsInt(base * gap) && FitsInt(base * gap * 2) && FitsInt(limit + 1))
  }

  lemma RescaledAgrees(base: nat, limit: nat, gap: nat)
    requires limit < INT_MAX && FitsInt(base * gap) && FitsInt(base * gap * 2)
    ensures Rescaled32(base, limit, gap) == Rescaled(base, limit, gap)
  {
  }

  lemma BoostedAgrees(base: nat, limit: nat, gap: nat)
    requires gap > limit / 2 ==> limit < INT_MAX && FitsInt(base * gap) && FitsInt(base * gap * 2)
    requires limit <= INT_MAX
    ensures Boosted32(base, limit, gap) == Boosted(base, limit, gap)
  {
    hide Rescaled32, Rescaled;
    if gap > limit / 2 {
      RescaledAgrees(base, limit, gap);
    }
  }

  lemma ExactScalingAgrees(weight: nat, divisor: nat, limit: nat, gap: nat)
    requires divisor > 0 && limit <= INT_MAX
    requires ExactScaling(weight, divisor, limit, gap)
    ensures Step32(weight, divisor, limit, gap) == Boosted(weight * gap / divisor, limit, gap)
  {
    hide Boosted32, Boosted, Wrap32, TruncDiv;
    BaseAgrees(weight, divisor, gap);
    BoostedAgrees(weight * gap / divisor, limit, gap);
  }

  lemma BaseAgrees(weight: nat, divisor: nat, gap: nat)
    requires divisor > 0 && FitsInt(weight * gap)
    ensures TruncDiv(Wrap32(weight * gap), divisor) == weight * gap / divisor
  {
  }

  /** With all intermediates in range, the 32-bit result is the mathematical one. */
  lemma ExactStepAgrees(d: Device, limit: nat, used: nat, share: int)
    requires limit <= INT_MAX
    requires ExactStep(d, limit, used, share)
    ensures Delta32(d, limit, used, share) == Delta(d, limit, used, share)
  {
    var gap := Gap(limit, used);
    assert Gap32(limit, used) == gap;
    assert Weight32(d) == Weight(d);
    assert Total32(d) == TotalCores(d);
    ExactScalingAgrees(Weight(d), Divisor(d), limit, gap);
    assert Step32(Weight32(d), Divisor(d), limit, Gap32(limit, used)) == Step(d, limit, gap);
  }

  /** The widest utilisation gap when samples range over 0..maxUsed. */
  function WidestGap(limit: nat, maxUsed: nat): nat {
    Max(Gap(limit, 0), Gap(limit, maxUsed))
  }

  /** Closed-form range condition: three bounds, each at the worst sample. */
  predicate RangeCondition(d: Device, limit: nat, maxUsed: nat) {
    var g := WidestGap(limit, maxUsed);
    && limit < INT_MAX && maxUsed <= INT_MAX
    && Weight(d) * g <= INT_MAX
    && BaseStep(d, g) * g * 2 <= INT_MAX
    && TotalCores(d) + Step(d, limit, Gap(limit, 0)) <= INT_MAX
  }

  lemma WidestGapIsWidest(limit: nat, used: nat, maxUsed: nat)
    requires used <= maxUsed
    ensures 5 <= Gap(limit, used) <= WidestGap(limit, maxUsed)
    ensures WidestGap(limit, maxUsed) > limit / 2
  {
  }

  lemma RangeConditionSuffices(d: Device, limit: nat, maxUsed: nat, used: nat, share: int)
    requires Units(d) >= 1 && ThreadsPerUnit(d) >= 1
    requires RangeCondition(d, limit, maxUsed)
    requires used <= maxUsed && 0 <= share <= TotalCores(d)
    ensures ExactStep(d, limit, used, share)
  {
    hide Weight, TotalCores, BaseStep, Step;
    var gap := Gap(limit, used);
    FactorsBelowWeight(d);
    ScalingSuffices(d, limit, maxUsed, used);
    if used <= limit {
      StepMonotone(d, limit, gap, Gap(limit, 0));
    }
  }

  lemma ScalingSuffices(d: Device, limit: nat, maxUsed: nat, used: nat)
    requires RangeCondition(d, limit, maxUsed) && used <= maxUsed
    ensures FitsInt(Weight(d)) && FitsInt(Step(d, limit, Gap(limit, used)))
    ensures ExactScaling(Weight(d), Divisor(d), limit, Gap(limit, used))
  {
    hide Weight, TotalCores, Step;
    var gap, widest := Gap(limit, used), WidestGap(limit, maxUsed);
    WidestGapIsWidest(limit, used, maxUsed);
    MulMono(1, gap, Weight(d));
    MulMono(gap, widest, Weight(d));
    BaseStepMonotone(d, gap, widest);
    ScaledProductMonotone(BaseStep(d, gap), BaseStep(d, widest), gap, widest);
    StepBelowProduct(d, limit, gap);
  }

  lemma ScaledProductMonotone(a: nat, b: nat, g: nat, h: nat)
    requires a <= b && g <= h
    ensures a * g <= a * g * 2 <= b * h * 2
  {
    MulMonoBoth(a, b, g, h);
  }

  lemma FactorsBelowWeight(d: Device)
    requires Units(d) >= 1 && ThreadsPerUnit(d) >= 1
    ensures Units(d) * Units(d) <= Weight(d)
    ensures Units(d) * ThreadsPerUnit(d) <= TotalCores(d)
  {
    MulMono(1, ThreadsPerUnit(d), Units(d) * Units(d));
  }

  lemma StepBelowProduct(d: Device, limit: nat, gap: nat)
    requires gap >= 1
    ensures Step(d, limit, gap) <= BaseStep(d, gap) * gap * 2
  {
    var base := BaseStep(d, gap);
    MulMono(1, gap * 2, base);
    assert base * gap * 2 == (gap * 2) * base;
    if gap > limit / 2 {
      QuotientBelow(base * gap * 2, limit + 1);
    }
  }

  lemma QuotientBelow(x: nat, d: nat)
    requires d >= 1
    ensures x / d <= x
  {
    MulMono(1, d, x / d);
  }

  /**
   * The closed form is exact: it holds precisely when no sample up to
   * `maxUsed` and no share in range can leave the 32-bit range anywhere in
   * the expression.
   */
  lemma RangeConditionExact(d: Device, limit: nat, maxUsed: nat)
    requires Units(d) >= 1 && ThreadsPerUnit(d) >= 1
    ensures RangeCondition(d, limit, maxUsed)
            <==> forall used: nat, share: nat :: used <= maxUsed && share <= TotalCores(d) ==>
                                                 ExactStep(d, limit, used, share)
  {
    if RangeCondition(d, limit, maxUsed) {
      forall used: nat, share: nat | used <= maxUsed && share <= TotalCores(d)
        ensures ExactStep(d, limit, used, share)
      {
        RangeConditionSuffices(d, limit, maxUsed, used, share);
      }
    }
    if forall used: nat, share: nat :: used <= maxUsed && share <= TotalCores(d) ==> ExactStep(d, limit, used, share) {
      assert ExactStep(d, limit, 0, TotalCores(d));
      assert ExactStep(d, limit, maxUsed, 0);
      WidestGapIsWidest(limit, 0, maxUsed);
    }
  }

  /** Whatever the hardware, the two products are what a 32-bit register keeps of the mathematical ones. */
  lemma ProductsWrap(d: Device)
    ensures FitsInt(Weight32(d)) && (Weight(d) - Weight32(d)) % 4294967296 == 0
    ensures FitsInt(Total32(d)) && (TotalCores(d) - Total32(d)) % 4294967296 == 0
  {
    WrapTwice(Units(d) * Units(d), ThreadsPerUnit(d));
    WrapTwice(Units(d) * ThreadsPerUnit(d), 32);
  }

  lemma WrapTwice(x: int, y: nat)
    ensures FitsInt(Wrap32(Wrap32(x) * y)) && (x * y - Wrap32(Wrap32(x) * y)) % 4294967296 == 0
  {
    hide Wrap32;
    Wrap32Exact(x);
    Wrap32Exact(Wrap32(x) * y);
    CongruentTimes(x, Wrap32(x), y);
    CongruentOn(x * y, Wrap32(x) * y, Wrap32(Wrap32(x) * y));
  }

  lemma CongruentTimes(a: int, b: int, y: nat)
    requires (a - b) % 4294967296 == 0
    ensures (a * y - b * y) % 4294967296 == 0
  {
    var k := (a - b) / 4294967296;
    assert a == b + k * 4294967296;
    assert a * y - b * y == (a - b) * y == k * 4294967296 * y == (k * y) * 4294967296;
  }

  lemma CongruentOn(a: int, b: int, c: int)
    requires (a - b) % 4294967296 == 0 && (b - c) % 4294967296 == 0
    ensures (a - c) % 4294967296 == 0
  {
  }

  // ----- a Tesla T4: 40 multiprocessors of 1024 threads

  const TESLA_T4: Device := Gpu(40, 1024)

  /** Each process adds at most 270 to a sample: four processes are always safe, six never are. */
  lemma TeslaT4Range(limit: nat, processes: nat)
    requires limit <= 100
    ensures processes <= 4 ==> RangeCondition(TESLA_T4, limit, 270 * processes)
    ensures processes >= 6 ==> !RangeCondition(TESLA_T4, limit, 270 * processes)
  {
    assert Weight(TESLA_T4) == 1638400;
    var g := WidestGap(limit, 270 * processes);
    if processes <= 4 {
      assert g <= 1080;
      assert BaseStep(TESLA_T4, g) == 640 * g;
      MulMonoBoth(640 * g, 640 * 1080, g, 1080);
      BaseStepMonotone(TESLA_T4, Gap(limit, 0), 100);
      StepBelowProduct(TESLA_T4, limit, Gap(limit, 0));
      assert BaseStep(TESLA_T4, Gap(limit, 0)) == 640 * Gap(limit, 0);
      MulMonoBoth(640 * Gap(limit, 0), 64000, Gap(limit, 0), 100);
    } else if processes >= 6 {
      assert g >= 1520;
    }
  }
  /**
   * Out of range the controller is turned around: with five or six processes
   * at full load on a quota of 50, far above it, the share should drop to zero
   * but is raised by more than 41 million, past the whole accelerator.
   */
  lemma OverflowRaisesShare(share: nat)
    requires share <= TotalCores(TESLA_T4)
    ensures Delta(TESLA_T4, 50, 1350, share) == 0 && Delta(TESLA_T4, 50, 1620, share) == 0
    ensures Delta32(TESLA_T4, 50, 1350, share) == share + 41799358
    ensures Delta32(TESLA_T4, 50, 1620, share) == share + 41430822
    ensures TotalCores(TESLA_T4) == 1310720
  {
    T4Numbers();
    assert BaseStep(TESLA_T4, 1300) == 832000 && BaseStep(TESLA_T4, 1570) == 1004800;
    assert Rescaled(832000, 50, 1300) == 42415686;
    assert Rescaled32(832000, 50, 1300) == -41799358;
    assert TruncDiv(Wrap32(1638400 * 1570), 2560) == -672921;
    assert Rescaled32(-672921, 50, 1570) == -41430822;
  }

  lemma T4Numbers()
    ensures Weight(TESLA_T4) == Weight32(TESLA_T4) == 1638400
    ensures TotalCores(TESLA_T4) == Total32(TESLA_T4) == 1310720
  {
  }
}
