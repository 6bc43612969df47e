/**
 * The compute token bucket: one controller thread credits or overwrites
 * `cur_cores`, any number of launcher threads spend it. Every shared-memory
 * access is one step of the machine; threads interleave freely.
 */
module TokenBucket {
  import opened Arith
  import Feedback

  /** What the process is started with: the accelerator and its utilisation quota. */
  datatype Setup = Setup(device: Feedback.Device, limit: nat) {
    function Total(): nat { Feedback.TotalCores(device) }
  }

  /** The controller's program counter with the locals live at that point. */
  datatype Controller =
    | Starting                            // total_cores not yet set
    | Sampling                            // about to sleep and take a sample
    | Storing(level: int)                 // low utilisation: about to overwrite cur_cores
    | Reading                             // change_token: about to read cur_cores
    | Swapping(before: int, after: int)   // change_token: about to compare and swap

  /** A launcher's program counter with its locals. */
  datatype Launcher =
    | Idle
    | Checking(kernel: int)               // rate_limiter: about to read cur_cores
    | Spending(kernel: int, before: int)  // rate_limiter: about to compare and swap

  datatype State = State(cur: int, total: int, share: int, controller: Controller, launchers: map<nat, Launcher>) {
    function At(thread: nat): Launcher {
      if thread in launchers then launchers[thread] else Idle
    }

    function Move(thread: nat, to: Launcher): State {
      this.(launchers := launchers[thread := to])
    }
  }

  const INITIAL := State(0, 0, 0, Starting, map[])

  /** One scheduling choice together with the input that step consumes. */
  datatype Event =
    | Start
    | Sample(used: nat)
    | ControllerStep
    | Call(thread: nat, kernel: nat)
    | LauncherStep(caller: nat)

  predicate LowUtilisation(cfg: Setup, used: nat) {
    used < cfg.limit / 10
  }

  /** The effect of one event; an event that is not enabled leaves the state alone. */
  function Apply(cfg: Setup, s: State, e: Event): State {
    match e
    case Start =>
      if s.controller.Starting? then s.(total := cfg.Total(), controller := Sampling) else s
    case Sample(used) =>
      if !s.controller.Sampling? then s else
      var next := Feedback.Delta(cfg.device, cfg.limit, used, s.share);
      if LowUtilisation(cfg, used) then s.(controller := Storing(next))
      else s.(share := next, controller := Reading)
    case ControllerStep =>
      (match s.controller
       case Storing(level) => s.(cur := level, controller := Sampling)
       case Reading =>
         var sum := s.cur + s.share;
         s.(controller := Swapping(s.cur, if sum > s.total then s.total else sum))
       case Swapping(before, after) =>
         if s.cur == before then s.(cur := after, controller := Sampling)
         else s.(controller := Reading)
       case _ => s)
    case Call(thread, kernel) =>
      if s.At(thread).Idle? then s.Move(thread, Checking(kernel)) else s
    case LauncherStep(thread) =>
      (match s.At(thread)
       case Checking(kernel) =>
         if s.cur < 0 then s else s.Move(thread, Spending(kernel, s.cur))
       case Spending(kernel, before) =>
         if s.cur == before then s.(cur := before - kernel).Move(thread, Idle)
         else s.Move(thread, Checking(kernel))
       case Idle => s)
  }

  function Run(cfg: Setup, s: State, es: seq<Event>): State {
    if es == [] then s
    else Apply(cfg, Run(cfg, s, es[..|es| - 1]), es[|es| - 1])
  }

  lemma {:induction false} RunSplits(cfg: Setup, s: State, es: seq<Event>, more: seq<Event>)
    ensures Run(cfg, s, es + more) == Run(cfg, Run(cfg, s, es), more)
  {
    if more == [] {
      assert es + more == es;
    } else {
      assert (es + more)[..|es + more| - 1] == es + more[..|more| - 1];
      RunSplits(cfg, s, es, more[..|more| - 1]);
    }
  }

  // ----- what a sample decides

  /**
   * A sample below a tenth of the quota, rounded down, leaves the share alone
   * and has the level overwritten; any other is a new share to be credited.
   */
  lemma SampleDecides(cfg: Setup, s: State, used: nat)
    requires s.controller.Sampling?
    ensures var next := Feedback.Delta(cfg.device, cfg.limit, used, s.share);
            Apply(cfg, s, Sample(used)) ==
            if 10 * (used + 1) <= cfg.limit then s.(controller := Storing(next))
            else s.(share := next, controller := Reading)
  {
    hide Feedback.Delta;
  }

  // ----- what every step keeps

  predicate KernelsUpTo(es: seq<Event>, g: nat) {
    forall i :: 0 <= i < |es| && es[i].Call? ==> es[i].kernel <= g
  }

  predicate SamplesUpTo(es: seq<Event>, limit: nat) {
    forall i :: 0 <= i < |es| && es[i].Sample? ==> es[i].used <= limit
  }

  ghost predicate LauncherOk(l: Launcher, g: nat) {
    (l.Checking? ==> 0 <= l.kernel <= g) && (l.Spending? ==> 0 <= l.kernel <= g && l.before >= 0)
  }

  /** The level never leaves [-g, total], the share never leaves [0, total], and every local is sound. */
  ghost predicate Inv(cfg: Setup, g: nat, s: State) {
    && -(g as int) <= s.cur <= cfg.Total()
    && 0 <= s.share <= cfg.Total()
    && s.total == (if s.controller.Starting? then 0 else cfg.Total())
    && (s.controller.Storing? ==> 0 <= s.controller.level <= cfg.Total())
    && (s.controller.Swapping? ==>
          -(g as int) <= s.controller.before <= cfg.Total()
          && s.controller.after == Min(cfg.Total(), s.controller.before + s.share))
    && forall t :: t in s.launchers ==> LauncherOk(s.launchers[t], g)
  }

  lemma InitialInv(cfg: Setup, g: nat)
    ensures Inv(cfg, g, INITIAL)
  {
  }

  lemma StepKeepsInv(cfg: Setup, g: nat, s: State, e: Event)
    requires Inv(cfg, g, s)
    requires e.Call? ==> e.kernel <= g
    ensures Inv(cfg, g, Apply(cfg, s, e))
  {
    if e.Sample? {
      Feedback.DeltaInRange(cfg.device, cfg.limit, e.used, s.share);
    }
  }

  lemma {:induction false} RunKeepsInv(cfg: Setup, g: nat, s: State, es: seq<Event>)
    requires Inv(cfg, g, s) && KernelsUpTo(es, g)
    ensures Inv(cfg, g, Run(cfg, s, es))
  {
    if es != [] {
      RunKeepsInv(cfg, g, s, es[..|es| - 1]);
      StepKeepsInv(cfg, g, Run(cfg, s, es[..|es| - 1]), es[|es| - 1]);
    }
  }

  /** Every reachable level lies in [-g, total] and every reachable share in [0, total]. */
  lemma LevelAndShareBounded(cfg: Setup, g: nat, es: seq<Event>)
    requires KernelsUpTo(es, g)
    ensures -(g as int) <= Run(cfg, INITIAL, es).cur <= cfg.Total()
    ensures 0 <= Run(cfg, INITIAL, es).share <= cfg.Total()
  {
    RunKeepsInv(cfg, g, INITIAL, es);
  }

  /** The lower bound is attained: a single launch of the largest kernel takes an empty bucket to -g. */
  lemma DebtBoundIsTight(cfg: Setup, g: nat)
    ensures exists es :: KernelsUpTo(es, g) && Run(cfg, INITIAL, es).cur == -(g as int)
  {
    var call, one := [Call(0, g)], [Call(0, g), LauncherStep(0)];
    var es := [Call(0, g), LauncherStep(0), LauncherStep(0)];
    assert es[..2] == one && one[..1] == call && call[..0] == [];
    assert Run(cfg, INITIAL, call) == INITIAL.Move(0, Checking(g));
    assert Run(cfg, INITIAL, one) == INITIAL.Move(0, Checking(g)).Move(0, Spending(g, 0));
    assert Run(cfg, INITIAL, es).cur == -(g as int);
  }

  /** Neither compare-and-swap loop can overflow a 32-bit `int` in a reachable state. */
  lemma TokenArithmeticIsExact(cfg: Setup, g: nat, es: seq<Event>, thread: nat)
    requires KernelsUpTo(es, g)
    requires 2 * cfg.Total() <= INT_MAX && g <= -INT_MIN
    ensures var s := Run(cfg, INITIAL, es);
            && FitsInt(s.cur) && FitsInt(s.cur + s.share)
            && (s.At(thread).Checking? && s.cur >= 0 ==> FitsInt(s.cur - s.At(thread).kernel))
  {
    RunKeepsInv(cfg, g, INITIAL, es);
  }
}

/** The interleaved machine refines a bucket on which every operation is atomic. */
module TokenRefinement {
  import opened Arith
  import opened TokenBucket
  import Feedback

  datatype Op =
    | Credit(amount: int)
    | Reset(level: int)
    | Spend(thread: nat, kernel: int)

  /** The atomic bucket: a capped add, an overwrite, and a decrement. */
  function Perform(total: int, level: int, op: Op): int {
    match op
    case Credit(amount) => Min(total, level + amount)
    case Reset(to) => to
    case Spend(_, kernel) => level - kernel
  }

  function PerformAll(total: int, level: int, ops: seq<Op>): int {
    if ops == [] then level
    else Perform(total, PerformAll(total, level, ops[..|ops| - 1]), ops[|ops| - 1])
  }

  /** The atomic bucket is spent only while its level is non-negative. */
  ghost predicate Permitted(total: int, level: int, ops: seq<Op>) {
    forall i :: 0 <= i < |ops| && ops[i].Spend? ==> PerformAll(total, level, ops[..i]) >= 0
  }

  /** The atomic operations that one event of the machine completes: at most one. */
  function Completes(s: State, e: Event): seq<Op> {
    match e
    case ControllerStep =>
      if s.controller.Storing? then [Reset(s.controller.level)]
      else if s.controller.Swapping? && s.cur == s.controller.before then [Credit(s.share)]
      else []
    case LauncherStep(t) =>
      if s.At(t).Spending? && s.cur == s.At(t).before then [Spend(t, s.At(t).kernel)] else []
    case _ => []
  }

  function Trace(cfg: Setup, s: State, es: seq<Event>): seq<Op> {
    if es == [] then []
    else
      var before := es[..|es| - 1];
      Trace(cfg, s, before) + Completes(Run(cfg, s, before), es[|es| - 1])
  }

  lemma OneStepRefines(cfg: Setup, g: nat, s: State, e: Event)
    requires Inv(cfg, g, s)
    ensures Completes(s, e) == [] ==> Apply(cfg, s, e).cur == s.cur
    ensures Completes(s, e) != [] ==>
              Completes(s, e) == [Completes(s, e)[0]]
              && Apply(cfg, s, e).cur == Perform(cfg.Total(), s.cur, Completes(s, e)[0])
    ensures Completes(s, e) != [] && Completes(s, e)[0].Spend? ==> s.cur >= 0
  {
  }

  /**
   * Refinement: over every interleaving the shared level is the one the atomic
   * bucket computes from the completed operations, none of which spends a
   * negative bucket.
   */
  lemma {:induction false} Refines(cfg: Setup, g: nat, s: State, es: seq<Event>)
    requires Inv(cfg, g, s) && KernelsUpTo(es, g)
    ensures Run(cfg, s, es).cur == PerformAll(cfg.Total(), s.cur, Trace(cfg, s, es))
    ensures Permitted(cfg.Total(), s.cur, Trace(cfg, s, es))
  {
    if es != [] {
      var before := es[..|es| - 1];
      var last := es[|es| - 1];
      Refines(cfg, g, s, before);
      RunKeepsInv(cfg, g, s, before);
      OneStepRefines(cfg, g, Run(cfg, s, before), last);
      var ops, new_ := Trace(cfg, s, before), Completes(Run(cfg, s, before), last);
      if new_ == [] {
        assert ops + new_ == ops;
      } else {
        assert (ops + new_)[..|ops|] == ops;
        forall i | 0 <= i < |ops| ensures (ops + new_)[..i] == ops[..i] {
        }
      }
    }
  }

  lemma TraceLast(cfg: Setup, s: State, es: seq<Event>, e: Event)
    ensures Trace(cfg, s, es + [e]) == Trace(cfg, s, es) + Completes(Run(cfg, s, es), e)
  {
    assert (es + [e])[..|es|] == es;
  }

  lemma {:induction false} TraceSplits(cfg: Setup, s: State, es: seq<Event>, more: seq<Event>)
    ensures Trace(cfg, s, es + more) == Trace(cfg, s, es) + Trace(cfg, Run(cfg, s, es), more)
  {
    if more == [] {
      assert es + more == es;
    } else {
      hide Completes, Apply, Run, Trace;
      var init, last := more[..|more| - 1], more[|more| - 1];
      assert more == init + [last];
      Associates(es, init, [last]);
      RunSplits(cfg, s, es, init);
      TraceSplits(cfg, s, es, init);
      TraceLast(cfg, s, es + init, last);
      TraceLast(cfg, Run(cfg, s, es), init, last);
      Associates(Trace(cfg, s, es), Trace(cfg, Run(cfg, s, es), init), Completes(Run(cfg, s, es + init), last));
    }
  }

  lemma Associates<T>(a: seq<T>, b: seq<T>, c: seq<T>)
    ensures (a + b) + c == a + (b + c)
  {
  }

  // ----- every request is served exactly once, in order

  function Requests(s: State, e: Event, t: nat): seq<int> {
    if e.Call? && e.thread == t && s.At(t).Idle? then [e.kernel as int] else []
  }

  /** Kernel sizes thread `t` has asked `rate_limiter` for. */
  function Requested(cfg: Setup, s: State, es: seq<Event>, t: nat): seq<int> {
    if es == [] then []
    else
      var before := es[..|es| - 1];
      Requested(cfg, s, before, t) + Requests(Run(cfg, s, before), es[|es| - 1], t)
  }

  function SpendOf(op: Op, t: nat): seq<int> {
    if op.Spend? && op.thread == t then [op.kernel] else []
  }

  function SpentBy(ops: seq<Op>, t: nat): seq<int> {
    if ops == [] then []
    else SpentBy(ops[..|ops| - 1], t) + SpendOf(ops[|ops| - 1], t)
  }

  function InFlight(l: Launcher): seq<int> {
    match l
    case Idle => []
    case Checking(kernel) => [kernel]
    case Spending(kernel, _) => [kernel]
  }

  lemma SpentByAppend(ops: seq<Op>, more: seq<Op>, t: nat)
    requires |more| <= 1
    ensures SpentBy(ops + more, t) == SpentBy(ops, t) + SpentBy(more, t)
  {
    if more == [] {
      assert ops + more == ops;
    } else {
      assert (ops + more)[..|ops|] == ops && more[..0] == [];
    }
  }

  lemma OneStepServes(cfg: Setup, s: State, e: Event, t: nat)
    ensures InFlight(s.At(t)) + Requests(s, e, t)
         == SpentBy(Completes(s, e), t) + InFlight(Apply(cfg, s, e).At(t))
  {
    if Completes(s, e) != [] {
      assert Completes(s, e)[..0] == [];
    }
  }

  /**
   * Each launch is one atomic decrement of its own size: the sizes a thread
   * has spent, followed by the one it is still waiting for, are exactly the
   * sizes it asked for, in order.
   */
  lemma {:induction false} EachLaunchSpendsOnce(cfg: Setup, s: State, es: seq<Event>, t: nat)
    ensures InFlight(s.At(t)) + Requested(cfg, s, es, t)
         == SpentBy(Trace(cfg, s, es), t) + InFlight(Run(cfg, s, es).At(t))
  {
    if es == [] {
      assert InFlight(s.At(t)) + [] == [] + InFlight(s.At(t));
    } else {
      hide Apply, Requests, Completes, InFlight;
      var before := es[..|es| - 1];
      var last := es[|es| - 1];
      var now := Run(cfg, s, before);
      EachLaunchSpendsOnce(cfg, s, before, t);
      OneStepServes(cfg, now, last, t);
      AtMostOne(now, last);
      SpentByAppend(Trace(cfg, s, before), Completes(now, last), t);
      Regroup(InFlight(s.At(t)), Requested(cfg, s, before, t), Requests(now, last, t),
              SpentBy(Trace(cfg, s, before), t), InFlight(now.At(t)),
              SpentBy(Completes(now, last), t), InFlight(Run(cfg, s, es).At(t)));
    }
  }

  lemma AtMostOne(s: State, e: Event)
    ensures |Completes(s, e)| <= 1
  {
  }

  lemma Regroup<T>(start: seq<T>, asked: seq<T>, asking: seq<T>, done: seq<T>, open: seq<T>,
                   doing: seq<T>, left: seq<T>)
    requires start + asked == done + open
    requires open + asking == doing + left
    ensures start + (asked + asking) == (done + doing) + left
  {
    assert start + (asked + asking) == (start + asked) + asking;
    assert (done + open) + asking == done + (open + asking);
    assert done + (doing + left) == (done + doing) + left;
  }

  function Decides(cfg: Setup, s: State, e: Event): seq<Op> {
    if !e.Sample? || !s.controller.Sampling? then []
    else
      var next := Feedback.Delta(cfg.device, cfg.limit, e.used, s.share);
      if LowUtilisation(cfg, e.used) then [Reset(next)] else [Credit(next)]
  }

  /** The controller's decisions: a credit of the new share, or an overwrite on low utilisation. */
  function Decided(cfg: Setup, s: State, es: seq<Event>): seq<Op> {
    if es == [] then []
    else
      var before := es[..|es| - 1];
      Decided(cfg, s, before) + Decides(cfg, Run(cfg, s, before), es[|es| - 1])
  }

  function ByController(ops: seq<Op>): seq<Op> {
    if ops == [] then []
    else
      var op := ops[|ops| - 1];
      ByController(ops[..|ops| - 1]) + if op.Spend? then [] else [op]
  }

  function Pending(s: State): seq<Op> {
    match s.controller
    case Storing(level) => [Reset(level)]
    case Reading => [Credit(s.share)]
    case Swapping(_, _) => [Credit(s.share)]
    case _ => []
  }

  lemma ByControllerAppend(ops: seq<Op>, more: seq<Op>)
    requires |more| <= 1
    ensures ByController(ops + more) == ByController(ops) + ByController(more)
  {
    if more == [] {
      assert ops + more == ops;
    } else {
      assert (ops + more)[..|ops|] == ops && more[..0] == [];
    }
  }

  lemma OneStepTicks(cfg: Setup, s: State, e: Event)
    ensures Pending(s) + Decides(cfg, s, e) == ByController(Completes(s, e)) + Pending(Apply(cfg, s, e))
  {
    hide Feedback.Delta;
    if Completes(s, e) != [] {
      assert Completes(s, e)[..0] == [];
    }
  }

  /** Each tick is one atomic operation carrying the share decided for it, whatever the launchers do meanwhile. */
  lemma {:induction false} EachTickActsOnce(cfg: Setup, s: State, es: seq<Event>)
    ensures Pending(s) + Decided(cfg, s, es) == ByController(Trace(cfg, s, es)) + Pending(Run(cfg, s, es))
  {
    if es == [] {
      assert Pending(s) + [] == [] + Pending(s);
    } else {
      hide Apply, Decides, Completes, Pending;
      var before := es[..|es| - 1];
      var last := es[|es| - 1];
      var now := Run(cfg, s, before);
      EachTickActsOnce(cfg, s, before);
      OneStepTicks(cfg, now, last);
      AtMostOne(now, last);
      ByControllerAppend(Trace(cfg, s, before), Completes(now, last));
      Regroup(Pending(s), Decided(cfg, s, before), Decides(cfg, now, last),
              ByController(Trace(cfg, s, before)), Pending(now),
              ByController(Completes(now, last)), Pending(Run(cfg, s, es)));
    }
  }
}
