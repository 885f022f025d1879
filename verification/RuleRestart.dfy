/**
 The fallthrough loop: when a rule that allows it ends in a bad result, the walk starts
 again behind it, with the race rules left armed by the run before. A rule left armed can
 pull the walk back, so the restart index need not grow; the loop ends all the same.
 */
module RuleRestart {
  import opened Dns
  import opened RuleWalk
  import opened RuleDriver
  import opened Fallback

  // ---------------------------------------------------------------- potential

  function CountArmed(armed: seq<Armed>, i: nat): nat {
    if armed == [] then 0 else (if armed[0].index == i then 1 else 0) + CountArmed(armed[1..], i)
  }

  /** What rule `i` may still do: two while the walk has yet to reach it, one for each time it is armed. */
  function Weight(armed: seq<Armed>, cursor: nat, i: nat): nat {
    CountArmed(armed, i) + if cursor <= i then 2 else 0
  }

  /** The weights of the rules below `m`, read as a number with the first rule in front. */
  function Potential(armed: seq<Armed>, cursor: nat, m: nat): nat {
    if m == 0 then 0 else 3 * Potential(armed, cursor, m - 1) + Weight(armed, cursor, m - 1)
  }

  /** A decision by rule `k` has used up some of its weight and added none to any rule. */
  ghost predicate Spent(armed: seq<Armed>, cursor: nat, armed': seq<Armed>, k: nat) {
    && (forall i: nat :: CountArmed(armed', i) <= Weight(armed, cursor, i))
    && CountArmed(armed', k) < Weight(armed, cursor, k)
  }

  /** Starting again behind rule `k` lowers the potential, although every later rule may act anew. */
  lemma {:induction false} RestartLowers(armed: seq<Armed>, cursor: nat, armed': seq<Armed>, k: nat, m: nat)
    requires Spent(armed, cursor, armed', k)
    ensures m <= k ==> Potential(armed', k + 1, m) <= Potential(armed, cursor, m)
    ensures m > k ==> Potential(armed', k + 1, m) < Potential(armed, cursor, m)
  {
    if m > 0 {
      RestartLowers(armed, cursor, armed', k, m - 1);
      assert CountArmed(armed', m - 1) <= Weight(armed, cursor, m - 1);
    }
  }

  function Pow3(n: nat): nat {
    if n == 0 then 1 else 3 * Pow3(n - 1)
  }

  lemma {:induction false} FreshPotential(from: nat, m: nat)
    ensures Potential([], from, m) == if m <= from then 0 else Pow3(m - from) - 1
  {
    if m > 0 {
      FreshPotential(from, m - 1);
    }
  }

  // ------------------------------------------------------- what a run spends

  lemma {:induction false} CountAppend(xs: seq<Armed>, ys: seq<Armed>, i: nat)
    ensures CountArmed(xs + ys, i) == CountArmed(xs, i) + CountArmed(ys, i)
  {
    if xs == [] {
      assert xs + ys == ys;
    } else {
      assert (xs + ys)[1..] == xs[1..] + ys;
      CountAppend(xs[1..], ys, i);
    }
  }

  lemma {:induction false} CountRemoved(armed: seq<Armed>, k: nat, i: nat)
    requires k < |armed|
    ensures CountArmed(RemoveAt(armed, k), i) == CountArmed(armed, i) - if armed[k].index == i then 1 else 0
  {
    assert armed == armed[..k] + ([armed[k]] + armed[k + 1..]);
    CountAppend(armed[..k], [armed[k]] + armed[k + 1..], i);
    CountAppend([armed[k]], armed[k + 1..], i);
    CountAppend(armed[..k], armed[k + 1..], i);
  }

  /** The rule a decision or a pending exchange names. */
  function SweptRule(swept: SweepOutcome): Option<nat> {
    match swept
    case Nothing => None
    case Answered(d) => d.result.rule
    case Routed(p) => p.rule
  }

  lemma {:induction false} JudgeRule(w: World, s: State, a: Armed)
    ensures SweptRule(Judge(w, s, a).1).Some? ==> SweptRule(Judge(w, s, a).1).value == a.index
  {
  }

  /** A sweep uses up the weight of what it drops; a rule it commits was armed. */
  ghost predicate SweepSpends(armed: seq<Armed>, armed': seq<Armed>, rule: Option<nat>) {
    && (forall i: nat :: CountArmed(armed', i) <= CountArmed(armed, i))
    && (rule.Some? ==> CountArmed(armed', rule.value) < CountArmed(armed, rule.value))
  }

  lemma {:induction false} SweepSpending(w: World, s: State, k: nat)
    ensures SweepSpends(s.armed, SweepFrom(w, s, k).0.armed, SweptRule(SweepFrom(w, s, k).1))
    decreases |s.armed| - k
  {
    hide Judge;
    if k < |s.armed| {
      var s1 := TickWithin(w, s);
      if !Ready(s1.armed[k], s1.clock) {
        SweepSpending(w, s1, k + 1);
      } else {
        var a := s1.armed[k];
        var s2 := s1.(armed := RemoveAt(s1.armed, k));
        JudgeKeeps(w, s2, a);
        JudgeRule(w, s2, a);
        var (s3, fired) := Judge(w, s2, a);
        forall i: nat
          ensures CountArmed(s3.armed, i) == CountArmed(s.armed, i) - if a.index == i then 1 else 0
        {
          CountRemoved(s1.armed, k, i);
        }
        if fired.Nothing? {
          SweepSpending(w, s3, k);
        }
      }
    }
  }

  ghost predicate Fading(s: State, s': State) {
    forall i: nat :: Weight(s'.armed, s'.ruleIndex, i) <= Weight(s.armed, s.ruleIndex, i)
  }

  function OutcomeRule(outcome: WalkOutcome): Option<nat> {
    match outcome
    case Commit(d) => d.result.rule
    case Suspend(suspension) => if suspension.Exchange? then suspension.pending.rule else None
  }

  /** A step lets the weights fade, and a decision by a rule spends some of that rule's. */
  ghost predicate StepSpends(s: State, step: StepOutcome) {
    if step.Stop? && (step.outcome.Commit? || step.outcome.suspension.Exchange?) then
      OutcomeRule(step.outcome).Some? ==> Spent(s.armed, s.ruleIndex, step.state.armed, OutcomeRule(step.outcome).value)
    else Fading(s, step.state)
  }

  lemma {:induction false} SpendHere(s: State)
    ensures Spent(s.armed, s.ruleIndex, s.armed, s.ruleIndex)
  {
  }

  lemma {:induction false} ActSpends(w: World, s: State)
    requires s.ruleIndex < |w.rules|
    ensures StepSpends(s, ActStep(w, s))
  {
    hide Weight;
    SpendHere(s);
    AdvanceFades(s);
    ActShape(w, s);
  }

  /** An action leaves the armed list alone, and decides only in its own name. */
  lemma {:induction false} ActShape(w: World, s: State)
    requires s.ruleIndex < |w.rules|
    ensures ActStep(w, s).state.armed == s.armed
    ensures ActStep(w, s).Stop? && OutcomeRule(ActStep(w, s).outcome).Some? ==> OutcomeRule(ActStep(w, s).outcome).value == s.ruleIndex
  {
  }

  lemma {:induction false} AdvanceFades(s: State)
    ensures Fading(s, Advance(s)) && Fading(s, s)
  {
  }

  lemma {:induction false} ArmSpends(w: World, s: State)
    requires s.ruleIndex < |w.rules|
    ensures StepSpends(s, ArmRule(w, s))
  {
    hide Sweep, Unresolved, CountArmed;
    var a := NewArmed(w, s);
    var s1 := s.(armed := s.armed + [a]);
    forall i: nat
      ensures CountArmed(s1.armed, i) == CountArmed(s.armed, i) + if i == s.ruleIndex then 1 else 0
    {
      CountAppend(s.armed, [a], i);
      CountOne(a, i);
    }
    SweepSpendingAll(w, s1);
    ClearedCounts();
  }

  lemma {:induction false} CountOne(a: Armed, i: nat)
    ensures CountArmed([a], i) == if i == a.index then 1 else 0
  {
  }

  lemma {:induction false} ClearedCounts()
    ensures forall i: nat :: CountArmed([], i) == 0
  {
  }

  lemma {:induction false} SweepSpendingAll(w: World, s: State)
    ensures SweepSpends(s.armed, Sweep(w, s).0.armed, SweptRule(Sweep(w, s).1))
    ensures Sweep(w, s).0.ruleIndex == s.ruleIndex
  {
    SweepSpending(w, s, 0);
    SweepKeeps(w, s, 0);
  }

  lemma {:induction false} MatchSpends(w: World, s: State)
    requires s.ruleIndex < |w.rules|
    ensures StepSpends(s, MatchStep(w, s))
  {
    hide ActStep, Weight;
    var s1 := Tick(w, s);
    var s2 := CountOnce(s1, WalkMatches(w, s1));
    assert s2.armed == s.armed && s2.ruleIndex == s.ruleIndex;
    ActSpends(w, s2);
    AdvanceFades(s2);
  }

  lemma {:induction false} StepSpending(w: World, s: State)
    requires s.ruleIndex < |w.rules|
    ensures StepSpends(s, Step(w, s))
  {
    hide MatchStep, ArmRule, Weight;
    var s1 := Tick(w, s);
    SettleKeeps(s1, 0);
    var s2 := TickWithin(w, Settle(s1));
    assert s2.armed == s1.armed == s.armed && s2.ruleIndex == s1.ruleIndex == s.ruleIndex;
    AdvanceFades(s1);
    AdvanceFades(s2);
    MatchSpends(w, s1);
    MatchSpends(w, s2);
    ArmSpends(w, s2);
  }

  lemma {:induction false} WalkSpends(w: World, s: State)
    ensures StepSpends(s, Stop(Walk(w, s).0, Walk(w, s).1))
    decreases |w.rules| - s.ruleIndex
  {
    hide Step, Weight;
    if s.ruleIndex < |w.rules| {
      StepSpending(w, s);
      match Step(w, s) {
        case Next(s1) =>
          WalkSpends(w, s1);
        case Stop(s1, outcome) =>
      }
    } else {
      AdvanceFades(s);
    }
  }

  ghost predicate SpentSince(s: State, s': State, rule: Option<nat>) {
    rule.Some? ==> Spent(s.armed, s.ruleIndex, s'.armed, rule.value)
  }

  lemma {:induction false} SweptSince(s: State, s1: State, s2: State, rule: Option<nat>)
    requires Fading(s, s1) && SweepSpends(s1.armed, s2.armed, rule) && s2.ruleIndex == s1.ruleIndex
    ensures Fading(s, s2) && SpentSince(s, s2, rule)
  {
    forall i: nat
      ensures Weight(s2.armed, s2.ruleIndex, i) <= Weight(s.armed, s.ruleIndex, i)
    {
      assert CountArmed(s2.armed, i) <= CountArmed(s1.armed, i);
      assert Weight(s1.armed, s1.ruleIndex, i) <= Weight(s.armed, s.ruleIndex, i);
    }
    if rule.Some? {
      assert Weight(s1.armed, s1.ruleIndex, rule.value) <= Weight(s.armed, s.ruleIndex, rule.value);
    }
  }

  lemma {:induction false} WalkedSince(s: State, s1: State, step: StepOutcome)
    requires Fading(s, s1) && StepSpends(s1, step) && step.Stop?
    ensures if step.outcome.Commit? || step.outcome.suspension.Exchange?
            then SpentSince(s, step.state, OutcomeRule(step.outcome)) else Fading(s, step.state)
  {
  }

  lemma {:induction false} FinishShape(w: World, s: State, p: Pending)
    requires Sound(s)
    ensures var s' := CancelAll(FinishPending(w, s, p).0);
            Sound(s') && s'.armed == s.armed && s'.run == s.run
    ensures FinishPending(w, s, p).1.result.rule == p.rule
  {
    hide Rooted;
  }

  lemma {:induction false} DriveSpends(w: World, s0: State, s: State, suspension: Suspension)
    requires Sound(s) && Suspended(s, suspension)
    requires if suspension.Exchange? then SpentSince(s0, s, suspension.pending.rule) else Fading(s0, s)
    ensures Drive(w, s, suspension).1.Finished?
    ensures Sound(Drive(w, s, suspension).0)
    ensures SpentSince(s0, Drive(w, s, suspension).0, Drive(w, s, suspension).1.decision.result.rule)
    decreases StepsLeft(w, s), |s.armed|, StillOpen(s, suspension), CountUnheard(s.futures, s.heard)
  {
    hide Walk, Sweep, Settle, FinishPending, Spent, Fading, SweepSpends, Weight, Rooted;
    NoLostWakeUp(w, s, suspension);
    SettledSound(w, s);
    var s1 := Settle(Tick(w, s));
    SweepSound(w, s1);
    SweepSpendingAll(w, s1);
    var (s2, swept) := Sweep(w, s1);
    var s3 := Tick(w, s2);
    if suspension.Exchange? {
      EmptySweep(w, s1);
      FinishShape(w, s3, suspension.pending);
    } else {
      SameFading(s0, s, s1);
      SweptSince(s0, s1, s2, SweptRule(swept));
      if swept.Routed? {
        FinishShape(w, s2, swept.pending);
      } else if swept.Nothing? {
        SameFading(s0, s2, s3);
        if Blocked(s3, suspension) {
          if !w.cancelled(s3.clock) {
            BlockedHasSignal(w, s, s1, s3, suspension);
            var at := NextSignal(s3.futures, s3.heard).value;
            WaitDecreases(w, s, s3, suspension, at);
            SameFading(s0, s3, Receive(s3, at));
            DriveSpends(w, s0, Receive(s3, at), suspension);
          }
        } else {
          WalkSound(w, s3);
          WalkSpends(w, s3);
          var (s4, outcome) := Walk(w, s3);
          WalkedSince(s0, s3, Stop(s4, outcome));
          if outcome.Suspend? {
            WalkDecreases(w, s, s3, suspension);
            DriveSpends(w, s0, s4, outcome.suspension);
          }
        }
      }
    }
  }

  lemma {:induction false} SameFading(s: State, s1: State, s2: State)
    requires Fading(s, s1) && s2.armed == s1.armed && s2.ruleIndex == s1.ruleIndex
    ensures Fading(s, s2)
  {
  }

  lemma {:induction false} RunSpends(w: World, s: State)
    requires Sound(s)
    ensures Run(w, s).1.Finished? && Sound(Run(w, s).0)
    ensures SpentSince(s, Run(w, s).0, Run(w, s).1.decision.result.rule)
  {
    WalkSound(w, s);
    WalkSpends(w, s);
    var (s1, outcome) := Walk(w, s);
    if outcome.Suspend? {
      DriveSpends(w, s, s1, outcome.suspension);
    }
  }

  // ----------------------------------------------------------------- the loop

  predicate BadResult(result: Result) {
    || result.err.Some?
    || result.response.None?
    || result.response.value.rcode != RCODE_SUCCESS
    || MessageAddresses(result.response.value) == []
  }

  predicate FallsThrough(w: World, result: Result) {
    && result.rule.Some?
    && result.rule.value + 1 < |w.rules|
    && w.rules[result.rule.value].allowFallthrough
    && BadResult(result)
  }

  /** The state a restart walks on with: everything the last run left, behind the rule that decided. */
  function Restart(s: State, rule: nat): State {
    s.(run := s.run + 1, ruleIndex := rule + 1)
  }

  /** The restart loop; also the number of runs it took. */
  function Continue(w: World, s: State): (Result, nat)
    requires Sound(s)
    decreases Potential(s.armed, s.ruleIndex, |w.rules|)
  {
    RunSpends(w, s);
    var (s1, outcome) := Run(w, s);
    var result := AfterFallback(w, outcome.decision.result);
    if !FallsThrough(w, result) then (result, 1)
    else
      RestartLowers(s.armed, s.ruleIndex, s1.armed, result.rule.value, |w.rules|);
      var (rest, runs) := Continue(w, Restart(s1, result.rule.value));
      (rest, runs + 1)
  }

  /** The loop always ends; its number of runs is bounded by the potential it starts with. */
  lemma {:induction false} ContinueEnds(w: World, s: State)
    requires Sound(s)
    ensures !FallsThrough(w, Continue(w, s).0)
    ensures Continue(w, s).1 <= Potential(s.armed, s.ruleIndex, |w.rules|) + 1
    decreases Potential(s.armed, s.ruleIndex, |w.rules|)
  {
    RunSpends(w, s);
    var (s1, outcome) := Run(w, s);
    var result := AfterFallback(w, outcome.decision.result);
    if FallsThrough(w, result) {
      RestartLowers(s.armed, s.ruleIndex, s1.armed, result.rule.value, |w.rules|);
      ContinueEnds(w, Restart(s1, result.rule.value));
    }
  }

  /** Started afresh behind rule `from`, the loop makes at most three to the number of remaining rules runs. */
  lemma {:induction false} FallthroughEnds(w: World, run: nat, from: nat, options: QueryOptions)
    requires from <= |w.rules|
    ensures var s := Initial(options).(run := run, ruleIndex := from);
            Sound(s) && !FallsThrough(w, Continue(w, s).0) && Continue(w, s).1 <= Pow3(|w.rules| - from)
  {
    var s := Initial(options).(run := run, ruleIndex := from);
    ContinueEnds(w, s);
    FreshPotential(from, |w.rules|);
  }

  // -------------------------------------------------------------- whole query

  /** What becomes of the result of a first run: fallback, and the restart loop if the result falls through. */
  function AfterDecision(w: World, decided: Result): Result {
    var result := AfterFallback(w, decided);
    if FallsThrough(w, result) then Continue(w, Initial(result.options).(run := 1, ruleIndex := result.rule.value + 1)).0 else result
  }

  /** exchangeWithRules: one run and what becomes of its result. */
  function Resolve(w: World, options: QueryOptions): Result {
    RunFinishes(w, Initial(options));
    AfterDecision(w, Run(w, Initial(options)).1.decision.result)
  }

  lemma {:induction false} DecisionFallsNoFurther(w: World, decided: Result)
    ensures !FallsThrough(w, AfterDecision(w, decided))
  {
    hide Continue, AfterFallback;
    var result := AfterFallback(w, decided);
    if FallsThrough(w, result) {
      ContinueEnds(w, Initial(result.options).(run := 1, ruleIndex := result.rule.value + 1));
    }
  }
}
