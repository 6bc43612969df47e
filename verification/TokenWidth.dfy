/** The token machine on C's 32-bit `int`: under the range condition it has exactly the runs of the mathematical one. */
module TokenWidth {
  import opened Arith
  import opened TokenBucket
  import Feedback
  import IntWidth

  /** One event of the machine, with every addition, subtraction and feedback step reduced to 32 bits. */
  function Apply32(cfg: Setup, s: State, e: Event): State
    requires cfg.limit <= INT_MAX
  {
    match e
    case Start =>
      if s.controller.Starting? then s.(total := IntWidth.Total32(cfg.device), controller := Sampling) else s
    case Sample(used) =>
      if !s.controller.Sampling? then s else
      var next := IntWidth.Delta32(cfg.device, cfg.limit, used, s.share);
      if LowUtilisation(cfg, used) then s.(controller := Storing(next))
      else s.(share := next, controller := Reading)
    case ControllerStep =>
      if s.controller.Reading? then
        var sum := Wrap32(s.cur + s.share);
        s.(controller := Swapping(s.cur, if sum > s.total then s.total else sum))
      else Apply(cfg, s, e)
    case LauncherStep(thread) =>
      if s.At(thread).Spending? && s.cur == s.At(thread).before then
        s.(cur := Wrap32(s.cur - s.At(thread).kernel)).Move(thread, Idle)
      else Apply(cfg, s, e)
    case Call(_, _) => Apply(cfg, s, e)
  }

  function Run32(cfg: Setup, s: State, es: seq<Event>): State
    requires cfg.limit <= INT_MAX
  {
    if es == [] then s else Apply32(cfg, Run32(cfg, s, es[..|es| - 1]), es[|es| - 1])
  }

  /** Hardware, quota, samples and kernels whose arithmetic stays within an `int`. */
  predicate InRange(cfg: Setup, g: nat, maxUsed: nat) {
    && Feedback.Units(cfg.device) >= 1 && Feedback.ThreadsPerUnit(cfg.device) >= 1
    && IntWidth.RangeCondition(cfg.device, cfg.limit, maxUsed)
    && 2 * cfg.Total() <= INT_MAX && g <= -INT_MIN
  }

  lemma TotalAgrees(d: Feedback.Device)
    requires Feedback.Units(d) >= 1 && Feedback.ThreadsPerUnit(d) >= 1 && Feedback.TotalCores(d) <= INT_MAX
    ensures IntWidth.Total32(d) == Feedback.TotalCores(d)
  {
    IntWidth.FactorsBelowWeight(d);
  }

  lemma DeltaAgrees(cfg: Setup, g: nat, maxUsed: nat, used: nat, share: int)
    requires InRange(cfg, g, maxUsed) && used <= maxUsed && 0 <= share <= cfg.Total()
    ensures IntWidth.Delta32(cfg.device, cfg.limit, used, share) == Feedback.Delta(cfg.device, cfg.limit, used, share)
  {
    hide IntWidth.ExactStep, IntWidth.Delta32, Feedback.Delta;
    IntWidth.RangeConditionSuffices(cfg.device, cfg.limit, maxUsed, used, share);
    IntWidth.ExactStepAgrees(cfg.device, cfg.limit, used, share);
  }

  /** In a sound state no sum or difference the machine forms can wrap. */
  lemma StepAgrees(cfg: Setup, g: nat, maxUsed: nat, s: State, e: Event)
    requires InRange(cfg, g, maxUsed) && Inv(cfg, g, s)
    requires e.Sample? ==> e.used <= maxUsed
    ensures Apply32(cfg, s, e) == Apply(cfg, s, e)
  {
    hide IntWidth.RangeCondition, IntWidth.Delta32, IntWidth.Total32, Feedback.Delta, Feedback.TotalCores;
    TotalAgrees(cfg.device);
    if e.Sample? && s.controller.Sampling? {
      DeltaAgrees(cfg, g, maxUsed, e.used, s.share);
    }
  }

  /** Over every interleaving, in range, the 32-bit machine goes through the states of the mathematical one. */
  lemma {:induction false} RunsAgree(cfg: Setup, g: nat, maxUsed: nat, es: seq<Event>)
    requires InRange(cfg, g, maxUsed) && KernelsUpTo(es, g) && SamplesUpTo(es, maxUsed)
    ensures Run32(cfg, INITIAL, es) == Run(cfg, INITIAL, es)
  {
    if es != [] {
      hide Apply, Apply32, IntWidth.RangeCondition, Inv, Feedback.TotalCores;
      var before := es[..|es| - 1];
      RunsAgree(cfg, g, maxUsed, before);
      InitialInv(cfg, g);
      RunKeepsInv(cfg, g, INITIAL, before);
      StepAgrees(cfg, g, maxUsed, Run(cfg, INITIAL, before), es[|es| - 1]);
    }
  }
  /**
   * Out of range the machines part: one sample of six fully loaded processes,
   * and the 32-bit share passes the whole accelerator where the mathematical
   * one is zero.
   */
  lemma RunsPart()
    ensures var cfg := Setup(IntWidth.TESLA_T4, 50);
            var es := [Start, Sample(1620)];
            Run(cfg, INITIAL, es).share == 0 && Run32(cfg, INITIAL, es).share == 41430822
  {
    hide IntWidth.Delta32, Feedback.Delta, IntWidth.Total32, Feedback.TotalCores;
    var cfg := Setup(IntWidth.TESLA_T4, 50);
    var es := [Start, Sample(1620)];
    assert es[..1] == [Start] && [Start][..0] == [];
    IntWidth.OverflowRaisesShare(0);
    assert Run(cfg, INITIAL, [Start]) == INITIAL.(total := cfg.Total(), controller := Sampling);
    assert Run32(cfg, INITIAL, [Start]) == INITIAL.(total := IntWidth.Total32(cfg.device), controller := Sampling);
  }

  /** A credit wraps as C's `int` does, outside the range of `RunsAgree`. */
  lemma CreditWraps(cfg: Setup, s: State)
    requires cfg.limit <= INT_MAX && s.controller == Reading && s.cur == s.share == s.total == 2000000000
    ensures Apply32(cfg, s, ControllerStep).controller == Swapping(2000000000, -294967296)
    ensures Apply(cfg, s, ControllerStep).controller == Swapping(2000000000, 2000000000)
  {
  }
}
