/** Conservation, rate and recovery bounds of the token bucket over whole runs. */
module TokenRate {
  import opened Arith
  import opened TokenBucket
  import opened TokenRefinement
  import Feedback

  // ----- conservation

  function Spent(ops: seq<Op>): int {
    if ops == [] then 0
    else Spent(ops[..|ops| - 1]) + var op := ops[|ops| - 1]; if op.Spend? then op.kernel else 0
  }

  function Credited(ops: seq<Op>): int {
    if ops == [] then 0
    else Credited(ops[..|ops| - 1]) + var op := ops[|ops| - 1]; if op.Credit? then op.amount else 0
  }

  function Resets(ops: seq<Op>): nat {
    if ops == [] then 0
    else Resets(ops[..|ops| - 1]) + if ops[|ops| - 1].Reset? then 1 else 0
  }

  function Credits(ops: seq<Op>): nat {
    if ops == [] then 0
    else Credits(ops[..|ops| - 1]) + if ops[|ops| - 1].Credit? then 1 else 0
  }

  /** What the controller really added: credits after capping plus the jumps of the overwrites. */
  function Gained(total: int, level: int, ops: seq<Op>): int {
    if ops == [] then 0
    else
      var before := PerformAll(total, level, ops[..|ops| - 1]);
      var op := ops[|ops| - 1];
      Gained(total, level, ops[..|ops| - 1]) + if op.Spend? then 0 else Perform(total, before, op) - before
  }

  lemma {:induction false} LedgerBalances(total: int, level: int, ops: seq<Op>)
    ensures PerformAll(total, level, ops) == level + Gained(total, level, ops) - Spent(ops)
  {
    if ops != [] {
      LedgerBalances(total, level, ops[..|ops| - 1]);
    }
  }

  /** Blocks launched in any window are the start level plus the real gains minus the end level. */
  lemma Conservation(cfg: Setup, g: nat, s: State, es: seq<Event>)
    requires Inv(cfg, g, s) && KernelsUpTo(es, g)
    ensures Spent(Trace(cfg, s, es)) == s.cur + Gained(cfg.Total(), s.cur, Trace(cfg, s, es)) - Run(cfg, s, es).cur
  {
    Refines(cfg, g, s, es);
    LedgerBalances(cfg.Total(), s.cur, Trace(cfg, s, es));
  }

  lemma SumsAppend(ops: seq<Op>, more: seq<Op>)
    requires |more| <= 1
    ensures Spent(ops + more) == Spent(ops) + Spent(more)
    ensures Credited(ops + more) == Credited(ops) + Credited(more)
    ensures Resets(ops + more) == Resets(ops) + Resets(more)
    ensures Credits(ops + more) == Credits(ops) + Credits(more)
  {
    if more == [] {
      assert ops + more == ops;
    } else {
      assert (ops + more)[..|ops|] == ops && more[..0] == [];
    }
  }

  lemma SumsOne(op: Op)
    ensures Spent([op]) == if op.Spend? then op.kernel else 0
    ensures Credited([op]) == if op.Credit? then op.amount else 0
    ensures Resets([op]) == if op.Reset? then 1 else 0
    ensures Credits([op]) == if op.Credit? then 1 else 0
  {
    assert [op][..0] == [];
  }

  predicate RateHolds(perReset: nat, start: int, end: int, ops: seq<Op>) {
    Spent(ops) + end <= start + Credited(ops) + perReset * Resets(ops)
  }

  lemma OneStepRate(cfg: Setup, g: nat, s: State, e: Event)
    requires Inv(cfg, g, s)
    ensures RateHolds(cfg.Total() + g, s.cur, Apply(cfg, s, e).cur, Completes(s, e))
  {
    hide Feedback.TotalCores, Feedback.Delta, Apply, Completes;
    OneStepRefines(cfg, g, s, e);
    StepKeepsLevel(cfg, g, s, e);
    if Completes(s, e) != [] {
      SumsOne(Completes(s, e)[0]);
    }
  }

  lemma StepKeepsLevel(cfg: Setup, g: nat, s: State, e: Event)
    requires Inv(cfg, g, s)
    ensures Apply(cfg, s, e).cur <= cfg.Total()
    ensures s.cur >= 0 ==> Apply(cfg, s, e).cur >= 0 || Completes(s, e) != []
    ensures Completes(s, e) != [] && Completes(s, e)[0].Reset? ==> Apply(cfg, s, e).cur >= 0
  {
  }

  lemma {:induction false} RateInvariant(cfg: Setup, g: nat, s: State, es: seq<Event>)
    requires Inv(cfg, g, s) && KernelsUpTo(es, g)
    ensures RateHolds(cfg.Total() + g, s.cur, Run(cfg, s, es).cur, Trace(cfg, s, es))
  {
    if es != [] {
      hide Apply, Completes, Feedback.TotalCores, Inv, RateHolds;
      var before := es[..|es| - 1];
      var now := Run(cfg, s, before);
      var ops, done := Trace(cfg, s, before), Completes(now, es[|es| - 1]);
      RateInvariant(cfg, g, s, before);
      RunKeepsInv(cfg, g, s, before);
      OneStepRate(cfg, g, now, es[|es| - 1]);
      AtMostOne(now, es[|es| - 1]);
      RateStep(cfg.Total() + g, s.cur, now.cur, Run(cfg, s, es).cur, ops, done);
    }
  }

  lemma RateStep(perReset: nat, start: int, mid: int, end: int, ops: seq<Op>, done: seq<Op>)
    requires |done| <= 1
    requires RateHolds(perReset, start, mid, ops) && RateHolds(perReset, mid, end, done)
    ensures RateHolds(perReset, start, end, ops + done)
  {
    SumsAppend(ops, done);
  }

  /**
   * The launch rate is limited: between any two points of any run the blocks
   * launched are at most the start level, plus the shares credited, plus
   * total + g for each overwrite, plus one kernel of debt.
   */
  lemma RateBound(cfg: Setup, g: nat, history: seq<Event>, window: seq<Event>)
    requires KernelsUpTo(history, g) && KernelsUpTo(window, g)
    ensures var s := Run(cfg, INITIAL, history);
            var ops := Trace(cfg, s, window);
            && Trace(cfg, INITIAL, history + window) == Trace(cfg, INITIAL, history) + ops
            && Spent(ops) <= s.cur + Credited(ops) + (cfg.Total() + g) * Resets(ops) + g
  {
    hide Apply, Completes, Feedback.TotalCores;
    InitialInv(cfg, g);
    RunKeepsInv(cfg, g, INITIAL, history);
    var s := Run(cfg, INITIAL, history);
    TraceSplits(cfg, INITIAL, history, window);
    RateInvariant(cfg, g, s, window);
    RunKeepsInv(cfg, g, s, window);
    InvFacts(cfg, g, Run(cfg, s, window));
  }

  // ----- recovery from debt

  /** What the first `n` fresh ticks are guaranteed to add when the share rises by at least `inc` a tick. */
  function Ladder(total: nat, inc: nat, n: nat): nat {
    if n == 0 then 0 else Ladder(total, inc, n - 1) + Min(total, n * inc)
  }

  ghost predicate NegativeThroughout(cfg: Setup, s: State, es: seq<Event>) {
    forall i :: 0 <= i <= |es| ==> Run(cfg, s, es[..i]).cur < 0
  }

  function OpenCredit(s: State): nat {
    if s.controller.Reading? || s.controller.Swapping? then 1 else 0
  }

  /** Credits completed in the run whose sample was also taken in the run. */
  function FreshCredits(cfg: Setup, s: State, es: seq<Event>): nat {
    Max(0, Credits(Trace(cfg, s, es)) - OpenCredit(s))
  }

  /** While the bucket is negative no launcher can change it, and a controller step only raises it. */
  lemma DebtNeverDeepens(cfg: Setup, g: nat, s: State, e: Event)
    requires Inv(cfg, g, s) && s.cur < 0
    ensures Apply(cfg, s, e).cur >= s.cur
    ensures e.LauncherStep? ==> Apply(cfg, s, e).cur == s.cur
    ensures Resets(Completes(s, e)) > 0 ==> Apply(cfg, s, e).cur >= 0
    ensures Apply(cfg, s, e).cur < 0 ==>
              Apply(cfg, s, e).cur == s.cur + if Credits(Completes(s, e)) > 0 then s.share else 0
  {
    hide Feedback.TotalCores, Feedback.Delta;
    if Completes(s, e) != [] {
      SumsOne(Completes(s, e)[0]);
    }
  }

  lemma ShareClimbs(cfg: Setup, g: nat, s: State, e: Event)
    requires Inv(cfg, g, s)
    requires e.Sample? ==> e.used <= cfg.limit
    ensures var next := Apply(cfg, s, e);
            var raises := OpenCredit(next) + Credits(Completes(s, e)) - OpenCredit(s);
            && 0 <= raises <= 1
            && next.share >= Min(cfg.Total(), s.share + if raises == 1 then Feedback.MinStep(cfg.device) else 0)
  {
    hide Feedback.TotalCores, Feedback.Delta, Feedback.MinStep;
    if e.Sample? {
      Feedback.DeltaInRange(cfg.device, cfg.limit, e.used, s.share);
    }
    if Completes(s, e) != [] {
      SumsOne(Completes(s, e)[0]);
    }
  }

  /** The state of the climb after `credits` completed credits, `open` of them pending now and `was` at the start. */
  predicate Climbed(total: nat, inc: nat, start: int, was: nat, cur: int, share: int, open: nat, credits: nat) {
    && credits + open >= was
    && share >= Min(total, (credits + open - was) * inc)
    && cur >= start + Ladder(total, inc, Max(0, credits - was))
  }

  lemma ClimbStep(total: nat, inc: nat, start: int, was: nat,
                  cur: int, share: int, open: nat, credits: nat,
                  cur': int, share': int, open': nat, credit: nat)
    requires was <= 1 && credit <= open <= 1 && open' <= 1 && 0 <= share
    requires Climbed(total, inc, start, was, cur, share, open, credits)
    requires cur' == cur + if credit > 0 then share else 0
    requires 0 <= open' + credit - open <= 1
    requires share' >= Min(total, share + if open' + credit - open == 1 then inc else 0)
    ensures Climbed(total, inc, start, was, cur', share', open', credits + credit)
  {
    Successor(credits + open - was, inc);
  }

  lemma ClimbStart(total: nat, inc: nat, start: int, open: nat, share: nat)
    ensures Climbed(total, inc, start, open, start, share, open, 0)
  {
  }

  /** As long as the bucket stays negative, every fresh credit is at least its rung of the ladder. */
  lemma {:induction false} DebtShrinks(cfg: Setup, g: nat, s: State, es: seq<Event>)
    requires Inv(cfg, g, s) && KernelsUpTo(es, g) && SamplesUpTo(es, cfg.limit)
    requires NegativeThroughout(cfg, s, es)
    ensures Resets(Trace(cfg, s, es)) == 0
    ensures var now := Run(cfg, s, es);
            Climbed(cfg.Total(), Feedback.MinStep(cfg.device), s.cur, OpenCredit(s),
                    now.cur, now.share, OpenCredit(now), Credits(Trace(cfg, s, es)))
  {
    hide Apply, Completes, Feedback.MinStep, Feedback.TotalCores, Inv, Climbed, NegativeThroughout;
    if es == [] {
      InvFacts(cfg, g, s);
      ClimbStart(cfg.Total(), Feedback.MinStep(cfg.device), s.cur, OpenCredit(s), s.share);
    } else {
      var before, last := es[..|es| - 1], es[|es| - 1];
      var now, next := Run(cfg, s, before), Run(cfg, s, es);
      NegativePrefix(cfg, s, es);
      DebtShrinks(cfg, g, s, before);
      RunKeepsInv(cfg, g, s, before);
      InvFacts(cfg, g, now);
      DebtNeverDeepens(cfg, g, now, last);
      ShareClimbs(cfg, g, now, last);
      AtMostOne(now, last);
      OnlyOpenCredits(now, last);
      SumsAppend(Trace(cfg, s, before), Completes(now, last));
      ClimbStep(cfg.Total(), Feedback.MinStep(cfg.device), s.cur, OpenCredit(s),
                now.cur, now.share, OpenCredit(now), Credits(Trace(cfg, s, before)),
                next.cur, next.share, OpenCredit(next), Credits(Completes(now, last)));
    }
  }

  lemma InvFacts(cfg: Setup, g: nat, s: State)
    requires Inv(cfg, g, s)
    ensures s.share >= 0 && s.cur >= -(g as int)
  {
  }

  lemma NegativePrefix(cfg: Setup, s: State, es: seq<Event>)
    requires es != [] && NegativeThroughout(cfg, s, es)
    ensures NegativeThroughout(cfg, s, es[..|es| - 1])
    ensures Run(cfg, s, es).cur < 0 && Run(cfg, s, es[..|es| - 1]).cur < 0
  {
    hide Run;
    var n := |es| - 1;
    assert es[..|es|] == es;
    forall i | 0 <= i <= n ensures Run(cfg, s, es[..n][..i]).cur < 0 {
      PrefixOfPrefix(es, n, i);
    }
  }

  lemma PrefixOfPrefix<T>(es: seq<T>, n: nat, i: nat)
    requires i <= n <= |es|
    ensures es[..n][..i] == es[..i]
  {
  }

  lemma OnlyOpenCredits(s: State, e: Event)
    ensures Credits(Completes(s, e)) <= OpenCredit(s)
  {
    if Completes(s, e) != [] {
      SumsOne(Completes(s, e)[0]);
    }
  }

  /** A run that never leaves debt has no overwrite and too few fresh credits to cover the largest kernel. */
  lemma DebtMeansTooFewCredits(cfg: Setup, g: nat, s: State, es: seq<Event>)
    requires Inv(cfg, g, s) && KernelsUpTo(es, g) && SamplesUpTo(es, cfg.limit)
    requires NegativeThroughout(cfg, s, es)
    ensures Resets(Trace(cfg, s, es)) == 0
    ensures Ladder(cfg.Total(), Feedback.MinStep(cfg.device), FreshCredits(cfg, s, es)) < g
  {
    hide Inv, Apply, Ladder, Feedback.TotalCores, Feedback.MinStep, Trace, Climbed, NegativeThroughout, Run;
    DebtShrinks(cfg, g, s, es);
    InvFacts(cfg, g, s);
    var end := Run(cfg, s, es);
    ClimbedLevel(cfg.Total(), Feedback.MinStep(cfg.device), s.cur, OpenCredit(s),
                 end.cur, end.share, OpenCredit(end), Credits(Trace(cfg, s, es)));
    NegativeAtEnd(cfg, s, es);
  }

  lemma NegativeAtEnd(cfg: Setup, s: State, es: seq<Event>)
    requires NegativeThroughout(cfg, s, es)
    ensures Run(cfg, s, es).cur < 0 && s.cur < 0
  {
    assert es[..|es|] == es && es[..0] == [];
  }

  /**
   * From any reachable debt, with every sample at most the quota, the bucket
   * has been non-negative at some point of every run that either contains an
   * overwrite or completes enough fresh credits for the ladder to cover the
   * largest kernel.
   */
  lemma CreditsEndDebt(cfg: Setup, g: nat, history: seq<Event>, es: seq<Event>)
    requires KernelsUpTo(history, g) && KernelsUpTo(es, g) && SamplesUpTo(es, cfg.limit)
    requires var s := Run(cfg, INITIAL, history);
             || Resets(Trace(cfg, s, es)) > 0
             || Ladder(cfg.Total(), Feedback.MinStep(cfg.device), FreshCredits(cfg, s, es)) >= g
    ensures exists i :: 0 <= i <= |es| && Run(cfg, INITIAL, history + es[..i]).cur >= 0
  {
    hide Inv, Run, Trace, Ladder, FreshCredits;
    var s := Run(cfg, INITIAL, history);
    InitialInv(cfg, g);
    RunKeepsInv(cfg, g, INITIAL, history);
    if NegativeThroughout(cfg, s, es) {
      DebtMeansTooFewCredits(cfg, g, s, es);
    } else {
      var i :| 0 <= i <= |es| && Run(cfg, s, es[..i]).cur >= 0;
      RunSplits(cfg, INITIAL, history, es[..i]);
    }
  }

  // ----- the controller's own steps

  /** The controller takes a step on this event. */
  predicate Moves(s: State, e: Event) {
    match s.controller
    case Starting => e.Start?
    case Sampling => e.Sample?
    case _ => e.ControllerStep?
  }

  function ControllerMoves(cfg: Setup, s: State, es: seq<Event>): nat {
    if es == [] then 0
    else
      var before := es[..|es| - 1];
      ControllerMoves(cfg, s, before) + if Moves(Run(cfg, s, before), es[|es| - 1]) then 1 else 0
  }

  /** About to compare and swap against a level that has changed since it was read. */
  predicate Stale(s: State) {
    s.controller.Swapping? && s.controller.before != s.cur
  }

  /** The event is a failing compare-and-swap of the controller. */
  predicate Fails(s: State, e: Event) {
    e.ControllerStep? && Stale(s)
  }

  function Failures(cfg: Setup, s: State, es: seq<Event>): nat {
    if es == [] then 0
    else
      var before := es[..|es| - 1];
      Failures(cfg, s, before) + if Fails(Run(cfg, s, before), es[|es| - 1]) then 1 else 0
  }

  /** How many of the three steps of a tick (sample, read, swap) are behind the controller, stale ones not counted. */
  function Phase(s: State): int {
    match s.controller
    case Starting => -1
    case Sampling => 0
    case Storing(_) => 1
    case Reading => 1
    case Swapping(_, _) => if Stale(s) then 0 else 2
  }

  lemma OneStepPaces(cfg: Setup, g: nat, s: State, e: Event)
    requires Inv(cfg, g, s) && s.cur < 0 && Apply(cfg, s, e).cur < 0
    ensures var s' := Apply(cfg, s, e);
            && (if Moves(s, e) then 1 else 0) + Phase(s) == 3 * Credits(Completes(s, e)) + Phase(s')
            && (if Fails(s, e) then 1 else 0) + (if Stale(s') then 1 else 0) == if Stale(s) then 1 else 0
  {
    hide Feedback.Delta, Feedback.TotalCores;
    if Completes(s, e) != [] {
      SumsOne(Completes(s, e)[0]);
    }
  }

  /**
   * In debt the controller makes progress: every third of its steps completes
   * a credit, counted from its phases at both ends, and its compare-and-swap
   * fails only if the level it holds was already stale when the debt began.
   */
  lemma {:induction false} DebtIsPaced(cfg: Setup, g: nat, s: State, es: seq<Event>)
    requires Inv(cfg, g, s) && KernelsUpTo(es, g) && NegativeThroughout(cfg, s, es)
    ensures var now := Run(cfg, s, es);
            ControllerMoves(cfg, s, es) + Phase(s) == 3 * Credits(Trace(cfg, s, es)) + Phase(now)
    ensures Failures(cfg, s, es) + (if Stale(Run(cfg, s, es)) then 1 else 0) == if Stale(s) then 1 else 0
  {
    if es != [] {
      hide Apply, Completes, Inv, NegativeThroughout, Phase, Moves, Fails, Stale;
      var before, last := es[..|es| - 1], es[|es| - 1];
      var now := Run(cfg, s, before);
      NegativePrefix(cfg, s, es);
      DebtIsPaced(cfg, g, s, before);
      RunKeepsInv(cfg, g, s, before);
      OneStepPaces(cfg, g, now, last);
      AtMostOne(now, last);
      SumsAppend(Trace(cfg, s, before), Completes(now, last));
    }
  }

  /** While the bucket is in debt the compare-and-swap loop of the controller retries at most once. */
  lemma RetriesAtMostOnce(cfg: Setup, g: nat, history: seq<Event>, es: seq<Event>)
    requires KernelsUpTo(history, g) && KernelsUpTo(es, g)
    requires forall i :: 0 <= i <= |es| ==> Run(cfg, INITIAL, history + es[..i]).cur < 0
    ensures Failures(cfg, Run(cfg, INITIAL, history), es) <= 1
  {
    hide Inv, Run, Failures, Stale;
    var s := Run(cfg, INITIAL, history);
    InitialInv(cfg, g);
    RunKeepsInv(cfg, g, INITIAL, history);
    forall i | 0 <= i <= |es| ensures Run(cfg, s, es[..i]).cur < 0 {
      RunSplits(cfg, INITIAL, history, es[..i]);
    }
    DebtIsPaced(cfg, g, s, es);
  }

  /** `3 k + 3` controller steps in debt complete at least `k` fresh credits. */
  lemma MovesMakeCredits(cfg: Setup, g: nat, s: State, es: seq<Event>, k: nat)
    requires Inv(cfg, g, s) && KernelsUpTo(es, g) && NegativeThroughout(cfg, s, es)
    requires ControllerMoves(cfg, s, es) >= 3 * k + 3
    ensures FreshCredits(cfg, s, es) >= k
  {
    hide Run, Inv, Trace, ControllerMoves, NegativeThroughout;
    DebtIsPaced(cfg, g, s, es);
  }

  lemma {:induction false} LadderMonotone(total: nat, inc: nat, k: nat, n: nat)
    requires k <= n
    ensures Ladder(total, inc, k) <= Ladder(total, inc, n)
    decreases n
  {
    if k < n {
      LadderMonotone(total, inc, k, n - 1);
    }
  }

  /**
   * Recovery: from any reachable debt, with every sample at most the quota,
   * the bucket has been non-negative at some point of every run in which the
   * controller takes `3 k + 3` steps, where `k` rungs of the ladder cover the
   * largest kernel. Nothing is assumed about its retry loop or the launchers.
   */
  lemma Recovers(cfg: Setup, g: nat, history: seq<Event>, es: seq<Event>, k: nat)
    requires KernelsUpTo(history, g) && KernelsUpTo(es, g) && SamplesUpTo(es, cfg.limit)
    requires Ladder(cfg.Total(), Feedback.MinStep(cfg.device), k) >= g
    requires ControllerMoves(cfg, Run(cfg, INITIAL, history), es) >= 3 * k + 3
    ensures exists i :: 0 <= i <= |es| && Run(cfg, INITIAL, history + es[..i]).cur >= 0
  {
    hide Inv, Run, Trace, Ladder, FreshCredits, ControllerMoves, Feedback.MinStep, Feedback.TotalCores;
    var s := Run(cfg, INITIAL, history);
    InitialInv(cfg, g);
    RunKeepsInv(cfg, g, INITIAL, history);
    if NegativeThroughout(cfg, s, es) {
      MovesMakeCredits(cfg, g, s, es, k);
      LadderMonotone(cfg.Total(), Feedback.MinStep(cfg.device), k, FreshCredits(cfg, s, es));
      CreditsEndDebt(cfg, g, history, es);
    } else {
      var i :| 0 <= i <= |es| && Run(cfg, s, es[..i]).cur >= 0;
      RunSplits(cfg, INITIAL, history, es[..i]);
    }
  }

  lemma ClimbedLevel(total: nat, inc: nat, start: int, was: nat, cur: int, share: int, open: nat, credits: nat)
    requires Climbed(total, inc, start, was, cur, share, open, credits)
    ensures cur >= start + Ladder(total, inc, Max(0, credits - was))
  {
  }

  /** With a positive least step the ladder covers any debt after that many rungs. */
  lemma {:induction false} LadderCovers(total: nat, inc: nat, n: nat)
    requires total >= 1 && inc >= 1
    ensures Ladder(total, inc, n) >= n
  {
    if n > 0 {
      LadderCovers(total, inc, n - 1);
      MulMono(1, inc, n);
    }
  }

  /** In particular `3 g + 3` controller steps end the debt, where `g` is the size of the largest kernel. */
  lemma RecoversWithin(cfg: Setup, g: nat, history: seq<Event>, es: seq<Event>)
    requires KernelsUpTo(history, g) && KernelsUpTo(es, g) && SamplesUpTo(es, cfg.limit)
    requires cfg.Total() >= 1 && Feedback.MinStep(cfg.device) >= 1
    requires ControllerMoves(cfg, Run(cfg, INITIAL, history), es) >= 3 * g + 3
    ensures exists i :: 0 <= i <= |es| && Run(cfg, INITIAL, history + es[..i]).cur >= 0
  {
    hide Run, ControllerMoves, Feedback.MinStep, Feedback.TotalCores;
    LadderCovers(cfg.Total(), Feedback.MinStep(cfg.device), g);
    Recovers(cfg, g, history, es, g);
  }

  // ----- the controller's share over interleaved runs

  function Ticks(cfg: Setup, s: State, e: Event): seq<nat> {
    if e.Sample? && s.controller.Sampling? && !LowUtilisation(cfg, e.used) then [e.used] else []
  }

  /** The samples of the ticks that reach `change_token`. */
  function TickSamples(cfg: Setup, s: State, es: seq<Event>): seq<nat> {
    if es == [] then []
    else
      var before := es[..|es| - 1];
      TickSamples(cfg, s, before) + Ticks(cfg, Run(cfg, s, before), es[|es| - 1])
  }

  lemma ShareStep(cfg: Setup, s: State, e: Event)
    ensures Apply(cfg, s, e).share ==
            if Ticks(cfg, s, e) == [] then s.share
            else Feedback.Delta(cfg.device, cfg.limit, Ticks(cfg, s, e)[0], s.share)
  {
    hide Feedback.Delta;
  }

  /** Launchers and overwrites leave the share alone: it is the fold of the feedback step over the tick samples. */
  lemma {:induction false} ShareFollowsSamples(cfg: Setup, s: State, es: seq<Event>)
    ensures Run(cfg, s, es).share == Feedback.ShareAfter(cfg.device, cfg.limit, TickSamples(cfg, s, es), s.share)
  {
    if es != [] {
      hide Feedback.Delta, Apply, Ticks;
      var before := es[..|es| - 1];
      var now := Run(cfg, s, before);
      ShareFollowsSamples(cfg, s, before);
      ShareStep(cfg, now, es[|es| - 1]);
      AtMostOneTick(cfg, now, es[|es| - 1]);
      var samples, tick := TickSamples(cfg, s, before), Ticks(cfg, now, es[|es| - 1]);
      if tick == [] {
        assert samples + tick == samples;
      } else {
        assert (samples + tick)[..|samples|] == samples;
      }
    }
  }

  lemma AtMostOneTick(cfg: Setup, s: State, e: Event)
    ensures |Ticks(cfg, s, e)| <= 1
  {
  }

  /**
   * Convergence over any interleaving: once ceil(total / least step) ticks have
   * all measured at most the quota the share is the whole accelerator; once as
   * many have all measured above it the share is zero.
   */
  lemma ShareSettles(cfg: Setup, g: nat, history: seq<Event>, es: seq<Event>)
    requires KernelsUpTo(history, g) && Feedback.MinStep(cfg.device) >= 1
    requires var s := Run(cfg, INITIAL, history);
             |TickSamples(cfg, s, es)| >= CeilDiv(cfg.Total(), Feedback.MinStep(cfg.device))
    ensures var s := Run(cfg, INITIAL, history);
            var samples := TickSamples(cfg, s, es);
            && ((forall i :: 0 <= i < |samples| ==> Feedback.InBand(cfg.limit, samples[i])) ==>
                  Run(cfg, s, es).share == cfg.Total())
            && ((forall i :: 0 <= i < |samples| ==> samples[i] > cfg.limit) ==> Run(cfg, s, es).share == 0)
  {
    hide Run, TickSamples, Feedback.MinStep, Feedback.TotalCores, CeilDiv, Feedback.ShareAfter, Feedback.InBand;
    var s := Run(cfg, INITIAL, history);
    LevelAndShareBounded(cfg, g, history);
    ShareFollowsSamples(cfg, s, es);
    Feedback.Converges(cfg.device, cfg.limit, TickSamples(cfg, s, es), s.share);
  }
  // ----- the samples a run takes

  function TakenNow(s: State, e: Event): seq<nat> {
    if e.Sample? && s.controller.Sampling? then [e.used] else []
  }

  /** All the samples a run takes, in order, whatever becomes of them. */
  function Taken(cfg: Setup, s: State, es: seq<Event>): seq<nat> {
    if es == [] then []
    else
      var before := es[..|es| - 1];
      Taken(cfg, s, before) + TakenNow(Run(cfg, s, before), es[|es| - 1])
  }

  /** From a tenth of the quota, rounded down, to the quota. */
  predicate AllInBand(limit: nat, samples: seq<nat>) {
    forall i :: 0 <= i < |samples| ==> limit <= 10 * samples[i] + 9 && samples[i] <= limit
  }

  predicate AllAbove(limit: nat, samples: seq<nat>) {
    forall i :: 0 <= i < |samples| ==> limit < samples[i]
  }

  predicate NoneLow(limit: nat, samples: seq<nat>) {
    forall i :: 0 <= i < |samples| ==> limit <= 10 * samples[i] + 9
  }

  lemma LowMeans(cfg: Setup, used: nat)
    ensures LowUtilisation(cfg, used) <==> 10 * (used + 1) <= cfg.limit
  {
  }

  lemma NoneLowSplits(limit: nat, a: seq<nat>, b: seq<nat>)
    requires NoneLow(limit, a + b)
    ensures NoneLow(limit, a) && NoneLow(limit, b)
  {
    forall i | 0 <= i < |a| ensures limit <= 10 * a[i] + 9 {
      assert (a + b)[i] == a[i];
    }
    forall i | 0 <= i < |b| ensures limit <= 10 * b[i] + 9 {
      assert (a + b)[|a| + i] == b[i];
    }
  }

  function OpenOverwrite(s: State): nat {
    if s.controller.Storing? then 1 else 0
  }

  lemma OneStepOverwrites(cfg: Setup, s: State, e: Event)
    requires NoneLow(cfg.limit, TakenNow(s, e))
    ensures Resets(Completes(s, e)) + OpenOverwrite(Apply(cfg, s, e)) == OpenOverwrite(s)
    ensures Ticks(cfg, s, e) == TakenNow(s, e)
  {
    hide Feedback.Delta;
    if Completes(s, e) != [] {
      SumsOne(Completes(s, e)[0]);
    }
    if e.Sample? && s.controller.Sampling? {
      assert TakenNow(s, e)[0] == e.used;
      LowMeans(cfg, e.used);
    }
  }

  /**
   * A run none of whose samples is below a tenth of the quota makes no
   * overwrite but one already decided, and every sample is a tick.
   */
  lemma {:induction false} NoLowSampleNoOverwrite(cfg: Setup, s: State, es: seq<Event>)
    requires NoneLow(cfg.limit, Taken(cfg, s, es))
    ensures Resets(Trace(cfg, s, es)) + OpenOverwrite(Run(cfg, s, es)) == OpenOverwrite(s)
    ensures TickSamples(cfg, s, es) == Taken(cfg, s, es)
  {
    if es != [] {
      hide Apply, Completes, Ticks, TakenNow, NoneLow, OpenOverwrite;
      var before, last := es[..|es| - 1], es[|es| - 1];
      var now := Run(cfg, s, before);
      NoneLowSplits(cfg.limit, Taken(cfg, s, before), TakenNow(now, last));
      NoLowSampleNoOverwrite(cfg, s, before);
      OneStepOverwrites(cfg, now, last);
      AtMostOne(now, last);
      SumsAppend(Trace(cfg, s, before), Completes(now, last));
    }
  }

  /**
   * The controller does what it is for: over any interleaving, if every sample
   * taken since lies between a tenth of the quota and the quota, the share has
   * grown to the whole accelerator after ceil(total / least step) samples; if
   * every sample is above the quota, as many bring it to zero. In both cases
   * the level is not overwritten, except where that was decided before.
   */
  lemma SamplesSettle(cfg: Setup, g: nat, history: seq<Event>, es: seq<Event>)
    requires KernelsUpTo(history, g) && Feedback.MinStep(cfg.device) >= 1
    requires var s := Run(cfg, INITIAL, history);
             |Taken(cfg, s, es)| >= CeilDiv(cfg.Total(), Feedback.MinStep(cfg.device))
    ensures var s := Run(cfg, INITIAL, history);
            && (AllInBand(cfg.limit, Taken(cfg, s, es)) ==> Run(cfg, s, es).share == cfg.Total())
            && (AllAbove(cfg.limit, Taken(cfg, s, es)) ==> Run(cfg, s, es).share == 0)
            && (AllInBand(cfg.limit, Taken(cfg, s, es)) || AllAbove(cfg.limit, Taken(cfg, s, es)) ==>
                  Resets(Trace(cfg, s, es)) <= if s.controller.Storing? then 1 else 0)
  {
    hide Run, Taken, TickSamples, Trace, Feedback.MinStep, Feedback.TotalCores, CeilDiv;
    var s := Run(cfg, INITIAL, history);
    var samples := Taken(cfg, s, es);
    if AllInBand(cfg.limit, samples) || AllAbove(cfg.limit, samples) {
      NoLowSampleNoOverwrite(cfg, s, es);
      ShareSettles(cfg, g, history, es);
    }
  }
}
