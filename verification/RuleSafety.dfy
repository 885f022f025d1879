/**
 What every run of the rule walk keeps, whatever the schedule and the rules: the
 armed list is in rule order, a sweep takes the lowest rule it may, nothing but a
 speculative query goes ahead of a pending race rule, and no rule is counted twice.
 */
module RuleSafety {
  import opened Dns
  import opened RuleWalk
  import opened RuleDriver

  predicate Armable(w: World, i: nat) {
    i < |w.rules| && w.rules[i].race && w.rules[i].HasBindings()
  }

  predicate Speculative(action: Action) {
    (action.Evaluate? && action.speculative) || (action.Route? && action.speculative)
  }

  // ---------------------------------------------------------------- invariant

  ghost predicate Ordered(armed: seq<Armed>) {
    forall i, j :: 0 <= i < j < |armed| ==> armed[i].index < armed[j].index
  }

  /** Armed rules are race rules of the list that the walk has passed. */
  ghost predicate Behind(w: World, index: nat, armed: seq<Armed>) {
    forall i :: 0 <= i < |armed| ==> armed[i].index < index && Armable(w, armed[i].index) && armed[i].rule == w.rules[armed[i].index]
  }

  /** A query sent while race rules were pending was asked for as speculative. */
  ghost predicate HeldBack(w: World, futures: seq<Future>) {
    forall i :: 0 <= i < |futures| && futures[i].behind > 0 ==>
      futures[i].rule < |w.rules| && Speculative(w.rules[futures[i].rule].action)
  }

  /** No rule has been counted twice, and none that may be counted later has been counted. */
  ghost predicate CountedOnce(w: World, index: nat, counted: nat, armed: seq<Armed>, stats: seq<Count>) {
    && (forall i, j :: 0 <= i < j < |stats| ==> stats[i].rule != stats[j].rule)
    && (forall i :: 0 <= i < |stats| ==> Past(w, index, counted, stats[i].rule))
    && (forall i, k :: 0 <= i < |stats| && 0 <= k < |armed| ==> stats[i].rule != armed[k].index)
  }

  ghost predicate Past(w: World, index: nat, counted: nat, rule: nat) {
    if Armable(w, rule) then rule < index else rule < counted
  }

  ghost predicate Safe(w: World, s: State) {
    && s.counted <= s.ruleIndex + 1
    && Ordered(s.armed)
    && Behind(w, s.ruleIndex, s.armed)
    && HeldBack(w, s.futures)
    && CountedOnce(w, s.ruleIndex, s.counted, s.armed, s.stats)
  }

  /** A rule that is not a race rule decides only when no race rule is pending. */
  ghost predicate NothingOvertaken(w: World, step: StepOutcome) {
    step.Stop? ==>
      && (step.outcome.Commit? && !Armable(w, step.outcome.decision.at) ==> step.state.armed == [])
      && (step.outcome.Suspend? && step.outcome.suspension.Exchange? ==> step.state.armed == [])
  }

  /** Stopping at a rule it has just armed, the walk keeps the invariant as seen from the next rule. */
  ghost predicate StepSafe(w: World, step: StepOutcome) {
    && NothingOvertaken(w, step)
    && (if step.Stop? && (step.outcome.Commit? || step.outcome.suspension.Exchange?) then Safe(w, Advance(step.state)) else Safe(w, step.state))
  }

  // -------------------------------------------------------------------- sweep

  lemma {:induction false} JudgeSafe(w: World, s: State, k: nat)
    requires Safe(w, s) && k < |s.armed|
    ensures Safe(w, Judge(w, s.(armed := RemoveAt(s.armed, k)), s.armed[k]).0)
  {
    Taken(w, s, k);
    hide CountedOnce, Ordered, Behind, HeldBack;
    JudgeCounts(w, s.(armed := RemoveAt(s.armed, k)), s.armed[k]);
  }

  /** Judging a rule counts it once, unless it is disabled, and changes nothing the invariant speaks of besides. */
  lemma {:induction false} JudgeCounts(w: World, s: State, a: Armed)
    ensures w.disabled(a.index, s.clock) ==> Judge(w, s, a).0.stats == s.stats
    ensures !w.disabled(a.index, s.clock) ==> exists hit :: Judge(w, s, a).0.stats == s.stats + [Count(a.index, hit)]
    ensures Judge(w, s, a).0 == s.(clock := Judge(w, s, a).0.clock, stats := Judge(w, s, a).0.stats)
  {
    var hit := ArmedMatches(w, TickWithin(w, s), a);
    assert !w.disabled(a.index, s.clock) ==> Judge(w, s, a).0.stats == s.stats + [Count(a.index, hit)];
  }

  /** An armed rule taken off the list may be counted. */
  lemma {:induction false} Taken(w: World, s: State, k: nat)
    requires Safe(w, s) && k < |s.armed|
    ensures Safe(w, s.(armed := RemoveAt(s.armed, k)))
    ensures forall hit :: CountedOnce(w, s.ruleIndex, s.counted, RemoveAt(s.armed, k), s.stats + [Count(s.armed[k].index, hit)])
  {
    var a, rest := s.armed[k], RemoveAt(s.armed, k);
    assert forall i :: 0 <= i < |rest| ==> rest[i] == s.armed[if i < k then i else i + 1];
    forall hit
      ensures CountedOnce(w, s.ruleIndex, s.counted, rest, s.stats + [Count(a.index, hit)])
    {
      CountArmed(w, s.ruleIndex, s.counted, rest, s.stats, a.index, hit);
    }
  }

  lemma {:induction false} CountArmed(w: World, index: nat, counted: nat, armed: seq<Armed>, stats: seq<Count>, rule: nat, hit: bool)
    requires CountedOnce(w, index, counted, armed, stats)
    requires Past(w, index, counted, rule)
    requires forall i :: 0 <= i < |stats| ==> stats[i].rule != rule
    requires forall k :: 0 <= k < |armed| ==> armed[k].index != rule
    ensures CountedOnce(w, index, counted, armed, stats + [Count(rule, hit)])
  {
  }

  lemma {:induction false} SweepSafe(w: World, s: State, k: nat)
    requires Safe(w, s)
    ensures Safe(w, SweepFrom(w, s, k).0)
    ensures !SweepFrom(w, s, k).1.Nothing? ==> Armable(w, SweptAt(w, SweepFrom(w, s, k).1))
    decreases |s.armed| - k
  {
    hide Safe, Judge;
    if k < |s.armed| {
      var s1 := TickWithin(w, s);
      TickSafe(w, s);
      if !Ready(s1.armed[k], s1.clock) {
        SweepSafe(w, s1, k + 1);
      } else {
        JudgeSafe(w, s1, k);
        JudgeAt(w, s1, k);
        var s2 := s1.(armed := RemoveAt(s1.armed, k));
        JudgeKeeps(w, s2, s1.armed[k]);
        var (s3, fired) := Judge(w, s2, s1.armed[k]);
        if fired.Nothing? {
          SweepSafe(w, s3, k);
        }
      }
    }
  }

  function SweptAt(w: World, swept: SweepOutcome): nat
    requires !swept.Nothing?
  {
    match swept
    case Answered(d) => d.at
    case Routed(p) => PendingAt(w, p)
  }

  lemma {:induction false} JudgeAt(w: World, s: State, k: nat)
    requires Safe(w, s) && k < |s.armed|
    ensures var fired := Judge(w, s.(armed := RemoveAt(s.armed, k)), s.armed[k]).1;
            !fired.Nothing? ==> SweptAt(w, fired) == s.armed[k].index && Armable(w, SweptAt(w, fired))
  {
  }

  lemma {:induction false} TickSafe(w: World, s: State)
    requires Safe(w, s)
    ensures Safe(w, Tick(w, s)) && Safe(w, TickWithin(w, s))
  {
  }

  ghost predicate JudgedAt(w: World, s: State, t: nat, a: Armed, swept: SweepOutcome) {
    Ready(a, t) && Judge(w, s.(clock := t), a).1 == swept
  }

  /** The rule was not ready when the sweep began, or was judged during it and did nothing. */
  ghost predicate Passed(w: World, s: State, until: nat, b: Armed) {
    !Ready(b, s.clock) || exists t :: s.clock <= t <= until && JudgedAt(w, s, t, b, Nothing)
  }

  /** The sweep's outcome is that of an armed rule judged ready, and every lower armed rule was passed. */
  ghost predicate Lowest(w: World, s: State, until: nat, swept: SweepOutcome, a: Armed, t: nat) {
    && a in s.armed && s.clock <= t <= until && JudgedAt(w, s, t, a, swept)
    && forall b :: b in s.armed && b.index < a.index ==> Passed(w, s, until, b)
  }

  lemma {:induction false} JudgeReads(w: World, s: State, s': State, a: Armed)
    requires SweepShape(s, s')
    ensures Judge(w, s', a).1 == Judge(w, s.(clock := s'.clock), a).1
  {
    var t, t' := s.(clock := s'.clock), s';
    assert ArmedMatches(w, TickWithin(w, t), a) == ArmedMatches(w, TickWithin(w, t'), a);
    assert FireArmed(w, TickWithin(w, CountRule(TickWithin(w, t), a.index, true)), a) == FireArmed(w, TickWithin(w, CountRule(TickWithin(w, t'), a.index, true)), a);
  }

  lemma {:induction false} PassedLater(w: World, s: State, early: nat, late: nat, b: Armed)
    requires Passed(w, s, early, b) && early <= late
    ensures Passed(w, s, late, b)
  {
    if Ready(b, s.clock) {
      var t :| s.clock <= t <= early && JudgedAt(w, s, t, b, Nothing);
      assert s.clock <= t <= late && JudgedAt(w, s, t, b, Nothing);
    }
  }

  /** Midway through a sweep: the armed rules not reached yet are in order, the others were passed. */
  ghost predicate SweptSoFar(w: World, s: State, cur: State, k: nat) {
    && SweepShape(s, cur) && Ordered(cur.armed)
    && (forall i :: 0 <= i < |cur.armed| ==> cur.armed[i] in s.armed)
    && (forall b :: b in s.armed ==> Ahead(cur.armed, k, b) || Passed(w, s, cur.clock, b))
  }

  ghost predicate Ahead(armed: seq<Armed>, k: nat, b: Armed) {
    exists i :: k <= i < |armed| && armed[i] == b
  }

  lemma {:induction false} SweptOnePassed(w: World, s: State, cur: State, k: nat, next: State, k': nat)
    requires SweptSoFar(w, s, cur, k) && k < |cur.armed|
    requires SweepShape(cur, next) && Passed(w, s, next.clock, cur.armed[k])
    requires (next.armed == cur.armed && k' == k + 1) || (next.armed == RemoveAt(cur.armed, k) && k' == k)
    ensures SweptSoFar(w, s, next, k')
  {
    forall b | b in s.armed
      ensures Ahead(next.armed, k', b) || Passed(w, s, next.clock, b)
    {
      if Passed(w, s, cur.clock, b) {
        PassedLater(w, s, cur.clock, next.clock, b);
      } else {
        var i :| k <= i < |cur.armed| && cur.armed[i] == b;
        if i > k {
          assert next.armed[if k' == k then i - 1 else i] == b;
        }
      }
    }
  }

  lemma {:induction false} LowestFound(w: World, s: State, cur: State, k: nat, a: Armed, t: nat, until: nat, fired: SweepOutcome)
    requires SweptSoFar(w, s, cur, k) && k < |cur.armed| && a == cur.armed[k]
    requires cur.clock <= t <= until && JudgedAt(w, s, t, a, fired)
    ensures Lowest(w, s, until, fired, a, t)
  {
    forall b | b in s.armed && b.index < a.index
      ensures Passed(w, s, until, b)
    {
      assert !Ahead(cur.armed, k, b);
      PassedLater(w, s, cur.clock, until, b);
    }
  }

  lemma {:induction false} SweepLowestFrom(w: World, s: State, cur: State, k: nat)
    requires SweptSoFar(w, s, cur, k)
    ensures SweepFrom(w, cur, k).1.Nothing? ==> forall b :: b in s.armed ==> Passed(w, s, SweepFrom(w, cur, k).0.clock, b)
    ensures !SweepFrom(w, cur, k).1.Nothing? ==> exists a, t :: Lowest(w, s, SweepFrom(w, cur, k).0.clock, SweepFrom(w, cur, k).1, a, t)
    decreases |cur.armed| - k
  {
    hide Judge, Lowest;
    if k < |cur.armed| {
      var s1 := TickWithin(w, cur);
      var a := s1.armed[k];
      if !Ready(a, s1.clock) {
        ReadyLater(a, s.clock, s1.clock);
        SweptOnePassed(w, s, cur, k, s1, k + 1);
        SweepLowestFrom(w, s, s1, k + 1);
      } else {
        var s2 := s1.(armed := RemoveAt(s1.armed, k));
        JudgeKeeps(w, s2, a);
        JudgeReads(w, s, s2, a);
        var (s3, fired) := Judge(w, s2, a);
        assert JudgedAt(w, s, s1.clock, a, fired);
        if fired.Nothing? {
          SweptOnePassed(w, s, cur, k, s3, k);
          SweepLowestFrom(w, s, s3, k);
        } else {
          LowestFound(w, s, cur, k, a, s1.clock, s3.clock, fired);
        }
      }
    }
  }

  /** A sweep commits the lowest armed rule that is ready, matches and can act; if it commits nothing there is none. */
  lemma {:induction false} SweepTakesLowest(w: World, s: State)
    requires Ordered(s.armed)
    ensures Sweep(w, s).1.Nothing? ==> forall b :: b in s.armed ==> Passed(w, s, Sweep(w, s).0.clock, b)
    ensures !Sweep(w, s).1.Nothing? ==> exists a, t :: Lowest(w, s, Sweep(w, s).0.clock, Sweep(w, s).1, a, t)
  {
    SweepLowestFrom(w, s, s, 0);
  }

  // --------------------------------------------------------------------- step

  lemma {:induction false} PassSafe(w: World, s: State)
    requires Safe(w, s)
    ensures Safe(w, Advance(s))
  {
  }

  lemma {:induction false} LaunchSafe(w: World, s: State, tag: string, transport: Transport, options: QueryOptions)
    requires Safe(w, s) && s.ruleIndex < |w.rules|
    requires s.armed != [] ==> Speculative(w.rules[s.ruleIndex].action)
    ensures HeldBack(w, s.futures + [NewFuture(w, s, tag, transport, options)])
  {
  }

  lemma {:induction false} ActSafe(w: World, s: State)
    requires Safe(w, s) && s.ruleIndex < |w.rules| && !Armable(w, s.ruleIndex)
    ensures StepSafe(w, ActStep(w, s))
  {
    hide CountedOnce, Ordered;
    PassCounted(w, s.ruleIndex, s.counted, s.armed, s.stats);
    var action := w.rules[s.ruleIndex].action;
    if action.Evaluate? && action.server in w.transports && (s.armed == [] || action.speculative) {
      LaunchSafe(w, s, action.tag, w.transports[action.server], ApplyRouteOptions(s.options, action.add));
    } else if action.Route? && action.speculative {
      var route := ResolveRoute(w, action.server, action.add, s.options);
      if route.Some? {
        LaunchSafe(w, s, "", route.value.0, route.value.1);
      }
    }
  }

  lemma {:induction false} PassCounted(w: World, index: nat, counted: nat, armed: seq<Armed>, stats: seq<Count>)
    requires CountedOnce(w, index, counted, armed, stats)
    ensures CountedOnce(w, index + 1, counted, armed, stats)
  {
  }

  lemma {:induction false} CountSafe(w: World, s: State, hit: bool)
    requires Safe(w, s) && !Armable(w, s.ruleIndex)
    ensures Safe(w, CountOnce(s, hit))
  {
    if s.ruleIndex >= s.counted {
      var s1 := s.(counted := s.ruleIndex + 1);
      CountArmed(w, s1.ruleIndex, s1.counted, s1.armed, s1.stats, s.ruleIndex, hit);
    }
  }

  lemma {:induction false} MatchSafe(w: World, s: State)
    requires Safe(w, s) && s.ruleIndex < |w.rules| && !Armable(w, s.ruleIndex)
    ensures StepSafe(w, MatchStep(w, s))
  {
    hide Safe, ActStep, NothingOvertaken;
    var s1 := Tick(w, s);
    TickSafe(w, s);
    var matched := WalkMatches(w, s1);
    CountSafe(w, s1, matched);
    var s2 := CountOnce(s1, matched);
    ActSafe(w, s2);
    PassSafe(w, s2);
    PassNotOvertaken(w, Advance(s2));
  }

  lemma {:induction false} PassNotOvertaken(w: World, s: State)
    ensures NothingOvertaken(w, Next(s))
  {
  }

  lemma {:induction false} ArmSafe(w: World, s: State)
    requires Safe(w, s) && Armable(w, s.ruleIndex)
    ensures StepSafe(w, ArmRule(w, s))
  {
    hide Safe, Sweep, Unresolved;
    var s1 := s.(armed := s.armed + [NewArmed(w, s)]);
    AppendSafe(w, s, NewArmed(w, s));
    SweepSafeAll(w, Advance(s1));
    SweepAnywhereAll(w, s1);
    ClearSafe(w, Advance(Sweep(w, s1).0));
  }

  lemma {:induction false} SweepSafeAll(w: World, s: State)
    requires Safe(w, s)
    ensures Safe(w, Sweep(w, s).0)
    ensures !Sweep(w, s).1.Nothing? ==> Armable(w, SweptAt(w, Sweep(w, s).1))
  {
    SweepSafe(w, s, 0);
  }

  lemma {:induction false} SweepAnywhereAll(w: World, s: State)
    ensures Sweep(w, Advance(s)) == (Advance(Sweep(w, s).0), Sweep(w, s).1)
  {
    SweepAnywhere(w, s, 0);
  }

  lemma {:induction false} AppendSafe(w: World, s: State, a: Armed)
    requires Safe(w, s) && Armable(w, s.ruleIndex) && a.index == s.ruleIndex && a.rule == w.rules[a.index]
    ensures Safe(w, Advance(s.(armed := s.armed + [a])))
  {
  }

  lemma {:induction false} ClearSafe(w: World, s: State)
    requires Safe(w, s)
    ensures Safe(w, s.(armed := []))
  {
  }

  lemma {:induction false} StepSafely(w: World, s: State)
    requires Safe(w, s) && s.ruleIndex < |w.rules|
    ensures StepSafe(w, Step(w, s))
  {
    hide Safe, NothingOvertaken, MatchStep, ArmRule;
    var s1 := Tick(w, s);
    TickSafe(w, s);
    var r := w.rules[s.ruleIndex];
    if w.disabled(s1.ruleIndex, s1.clock) {
      PassSafe(w, s1);
      PassNotOvertaken(w, Advance(s1));
    } else if r.HasBindings() {
      SettleKeeps(s1, 0);
      SettleSafe(w, s1);
      var s2 := TickWithin(w, Settle(s1));
      TickSafe(w, Settle(s1));
      if r.race {
        ArmSafe(w, s2);
      } else {
        MatchSafe(w, s2);
        AwaitNotOvertaken(w, s2);
      }
    } else {
      MatchSafe(w, s1);
    }
  }

  lemma {:induction false} SettleSafe(w: World, s: State)
    requires Safe(w, s)
    ensures Safe(w, Settle(s))
  {
    SettleKeeps(s, 0);
  }

  lemma {:induction false} AwaitNotOvertaken(w: World, s: State)
    ensures forall f :: NothingOvertaken(w, Stop(s, Suspend(Await(f))))
  {
  }

  lemma {:induction false} WalkSafe(w: World, s: State)
    requires Safe(w, s)
    ensures StepSafe(w, Stop(Walk(w, s).0, Walk(w, s).1))
    decreases |w.rules| - s.ruleIndex
  {
    hide Step;
    if s.ruleIndex < |w.rules| {
      StepSafely(w, s);
      match Step(w, s) {
        case Next(s1) => WalkSafe(w, s1);
        case Stop(s1, outcome) =>
      }
    } else {
      PassSafe(w, s);
    }
  }

  // ---------------------------------------------------------------------- run

  /** What a finished run has kept. */
  ghost predicate KeptSafe(w: World, s: State, d: Decision) {
    && Held(w, s)
    && (d.result.err != Some(Cancelled) && !Armable(w, d.at) ==> s.armed == [])
  }

  lemma {:induction false} SafeKept(w: World, s: State, s': State, d: Decision)
    requires Safe(w, s) || Safe(w, Advance(s))
    requires s'.armed == s.armed && s'.futures == s.futures && s'.stats == s.stats
    requires d.result.err != Some(Cancelled) && !Armable(w, d.at) ==> s.armed == []
    ensures KeptSafe(w, s', d)
  {
  }

  lemma {:induction false} FinishKeeps(w: World, s: State, p: Pending)
    ensures var s' := CancelAll(FinishPending(w, s, p).0);
            s'.armed == s.armed && s'.futures == s.futures && s'.stats == s.stats
    ensures FinishPending(w, s, p).1.at == PendingAt(w, p)
  {
  }

  lemma {:induction false} DriveSafe(w: World, s: State, suspension: Suspension)
    requires Sound(s) && Suspended(s, suspension)
    requires if suspension.Exchange? then Safe(w, Advance(s)) else Safe(w, s)
    ensures Drive(w, s, suspension).1.Finished?
    ensures KeptSafe(w, Drive(w, s, suspension).0, Drive(w, s, suspension).1.decision)
    decreases StepsLeft(w, s), |s.armed|, StillOpen(s, suspension), CountUnheard(s.futures, s.heard)
  {
    hide Safe, KeptSafe, Walk, Sweep, Settle, FinishPending;
    NoLostWakeUp(w, s, suspension);
    SettledSound(w, s);
    var s1 := Settle(Tick(w, s));
    SweepSound(w, s1);
    var (s2, swept) := Sweep(w, s1);
    var s3 := Tick(w, s2);
    if suspension.Exchange? {
      EmptySweep(w, s1);
      FinishKeeps(w, s3, suspension.pending);
      ReclockSafe(w, Advance(s), Advance(s3));
      SafeKept(w, s3, Drive(w, s, suspension).0, Drive(w, s, suspension).1.decision);
    } else {
      ReclockSafe(w, s, s1);
      SweepSafeAll(w, s1);
      ReclockSafe(w, s2, s3);
      match swept {
        case Answered(d) => SafeKept(w, s2, CancelAll(s2), d);
        case Routed(p) =>
          FinishKeeps(w, s2, p);
          SafeKept(w, s2, Drive(w, s, suspension).0, Drive(w, s, suspension).1.decision);
        case Nothing =>
          if Blocked(s3, suspension) {
            if w.cancelled(s3.clock) {
              SafeKept(w, s3, CancelAll(s3), Decision(ErrorResult(Cancelled), |w.rules|));
            } else {
              BlockedHasSignal(w, s, s1, s3, suspension);
              var at := NextSignal(s3.futures, s3.heard).value;
              WaitDecreases(w, s, s3, suspension, at);
              ReclockSafe(w, s3, Receive(s3, at));
              DriveSafe(w, Receive(s3, at), suspension);
            }
          } else {
            WalkSound(w, s3);
            WalkSafe(w, s3);
            var (s4, outcome) := Walk(w, s3);
            match outcome {
              case Commit(d) => SafeKept(w, s4, CancelAll(s4), d);
              case Suspend(next) =>
                WalkDecreases(w, s, s3, suspension);
                DriveSafe(w, s4, next);
            }
          }
      }
    }
  }

  lemma {:induction false} ReclockSafe(w: World, s: State, s': State)
    requires Safe(w, s)
    requires s'.counted == s.counted && s'.ruleIndex == s.ruleIndex && s'.armed == s.armed && s'.futures == s.futures && s'.stats == s.stats
    ensures Safe(w, s')
  {
  }

  // --------------------------------------------------- the states of a run

  /** The states of a sweep: after each armed rule that was judged. */
  function SweepTrace(w: World, s: State, k: nat): seq<State>
    decreases |s.armed| - k
  {
    if k >= |s.armed| then []
    else
      var s1 := TickWithin(w, s);
      if !Ready(s1.armed[k], s1.clock) then SweepTrace(w, s1, k + 1)
      else
        JudgeKeeps(w, s1.(armed := RemoveAt(s1.armed, k)), s1.armed[k]);
        var (s2, fired) := Judge(w, s1.(armed := RemoveAt(s1.armed, k)), s1.armed[k]);
        [s2] + if fired.Nothing? then SweepTrace(w, s2, k) else []
  }

  /** The state in which a race rule has just been armed, if the step arms one. */
  function Arming(w: World, s: State): Option<State>
    requires s.ruleIndex < |w.rules|
  {
    var s1, r := Tick(w, s), w.rules[s.ruleIndex];
    if w.disabled(s1.ruleIndex, s1.clock) || !r.HasBindings() || !r.race then None
    else
      SettleKeeps(s1, 0);
      var s2 := TickWithin(w, Settle(s1));
      Some(s2.(armed := s2.armed + [NewArmed(w, s2)]))
  }

  /** The states of a walk: after every rule, and within one that arms a race rule. */
  function WalkTrace(w: World, s: State): seq<State>
    decreases |w.rules| - s.ruleIndex
  {
    if s.ruleIndex >= |w.rules| then []
    else
      var arming := Arming(w, s);
      (if arming.Some? then [arming.value] + SweepTrace(w, arming.value, 0) else []) +
      match Step(w, s)
      case Next(s1) => [s1] + WalkTrace(w, s1)
      case Stop(s1, _) => [s1]
  }

  /** The states of the resume loop. */
  function DriveTrace(w: World, s: State, suspension: Suspension): seq<State>
    requires Sound(s) && Suspended(s, suspension)
    decreases StepsLeft(w, s), |s.armed|, StillOpen(s, suspension), CountUnheard(s.futures, s.heard)
  {
    SettledSound(w, s);
    var s1 := Settle(Tick(w, s));
    SweepSound(w, s1);
    var (s2, swept) := Sweep(w, s1);
    var s3 := Tick(w, s2);
    [s, s1] + SweepTrace(w, s1, 0) + [s2] +
    if !swept.Nothing? || suspension.Exchange? then []
    else if Blocked(s3, suspension) then
      if w.cancelled(s3.clock) || NextSignal(s3.futures, s3.heard).None? then []
      else
        var at := NextSignal(s3.futures, s3.heard).value;
        WaitDecreases(w, s, s3, suspension, at);
        DriveTrace(w, Receive(s3, at), suspension)
    else
      WalkSound(w, s3);
      var (s4, outcome) := Walk(w, s3);
      WalkTrace(w, s3) +
      if outcome.Commit? then []
      else
        WalkDecreases(w, s, s3, suspension);
        DriveTrace(w, s4, outcome.suspension)
  }

  /** The states a run passes through. */
  function RunTrace(w: World, s: State): seq<State>
    requires Sound(s)
  {
    WalkSound(w, s);
    var (s1, outcome) := Walk(w, s);
    [s] + WalkTrace(w, s) + if outcome.Commit? then [] else DriveTrace(w, s1, outcome.suspension)
  }

  /** What every state keeps: armed rules in order, nothing but speculative queries ahead of them, no rule counted twice. */
  ghost predicate Held(w: World, s: State) {
    && Ordered(s.armed)
    && HeldBack(w, s.futures)
    && (forall i, j :: 0 <= i < j < |s.stats| ==> s.stats[i].rule != s.stats[j].rule)
  }

  ghost predicate AllHeld(w: World, trace: seq<State>) {
    forall i :: 0 <= i < |trace| ==> Held(w, trace[i])
  }

  lemma {:induction false} HeldTogether(w: World, a: seq<State>, b: seq<State>)
    requires AllHeld(w, a) && AllHeld(w, b)
    ensures AllHeld(w, a + b)
  {
  }

  lemma {:induction false} HeldAlone(w: World, s: State)
    requires Safe(w, s) || Safe(w, Advance(s))
    ensures Held(w, s) && AllHeld(w, [s]) && AllHeld(w, [])
  {
  }

  lemma {:induction false} SweepHeld(w: World, s: State, k: nat)
    requires Safe(w, Advance(s))
    ensures AllHeld(w, SweepTrace(w, s, k))
    decreases |s.armed| - k
  {
    hide Safe, Judge, Held, AllHeld;
    HeldAlone(w, s);
    if k < |s.armed| {
      var s1 := TickWithin(w, s);
      TickSafe(w, Advance(s));
      assert TickWithin(w, Advance(s)) == Advance(s1);
      if !Ready(s1.armed[k], s1.clock) {
        SweepHeld(w, s1, k + 1);
      } else {
        var s', a := s1.(armed := RemoveAt(s1.armed, k)), s1.armed[k];
        JudgeSafe(w, Advance(s1), k);
        JudgeAnywhere(w, s', a);
        JudgeKeeps(w, s', a);
        var (s2, fired) := Judge(w, s', a);
        HeldAlone(w, s2);
        if fired.Nothing? {
          SweepHeld(w, s2, k);
          HeldTogether(w, [s2], SweepTrace(w, s2, k));
        } else {
          assert [s2] + [] == [s2];
        }
      }
    }
  }

  lemma {:induction false} ArmingHeld(w: World, s: State)
    requires Safe(w, s) && s.ruleIndex < |w.rules| && Arming(w, s).Some?
    ensures Safe(w, Advance(Arming(w, s).value))
    ensures AllHeld(w, [Arming(w, s).value] + SweepTrace(w, Arming(w, s).value, 0))
  {
    hide Safe, Held, AllHeld, SettleFrom, NewArmed;
    var s1 := Tick(w, s);
    TickSafe(w, s);
    SettleSafe(w, s1);
    TickSafe(w, Settle(s1));
    SettleKeeps(s1, 0);
    var s2 := TickWithin(w, Settle(s1));
    NewArmedIs(w, s2);
    AppendSafe(w, s2, NewArmed(w, s2));
    var s3 := Arming(w, s).value;
    HeldAlone(w, s3);
    SweepHeld(w, s3, 0);
    HeldTogether(w, [s3], SweepTrace(w, s3, 0));
  }

  lemma {:induction false} NewArmedIs(w: World, s: State)
    requires s.ruleIndex < |w.rules|
    ensures NewArmed(w, s).index == s.ruleIndex && NewArmed(w, s).rule == w.rules[s.ruleIndex]
  {
  }

  lemma {:induction false} WalkHeld(w: World, s: State)
    requires Safe(w, s)
    ensures AllHeld(w, WalkTrace(w, s))
    decreases |w.rules| - s.ruleIndex
  {
    hide Safe, Held, AllHeld, Step, Arming, SweepTrace;
    HeldAlone(w, s);
    if s.ruleIndex < |w.rules| {
      var arming := Arming(w, s);
      var arms := if arming.Some? then [arming.value] + SweepTrace(w, arming.value, 0) else [];
      if arming.Some? {
        ArmingHeld(w, s);
      }
      StepSafely(w, s);
      var step := Step(w, s);
      HeldAlone(w, step.state);
      if step.Next? {
        WalkHeld(w, step.state);
        HeldTogether(w, [step.state], WalkTrace(w, step.state));
        HeldTogether(w, arms, [step.state] + WalkTrace(w, step.state));
      } else {
        HeldTogether(w, arms, [step.state]);
      }
    }
  }

  lemma {:induction false} DriveHeld(w: World, s: State, suspension: Suspension)
    requires Sound(s) && Suspended(s, suspension)
    requires if suspension.Exchange? then Safe(w, Advance(s)) else Safe(w, s)
    ensures AllHeld(w, DriveTrace(w, s, suspension))
    decreases StepsLeft(w, s), |s.armed|, StillOpen(s, suspension), CountUnheard(s.futures, s.heard)
  {
    hide Safe, Held, AllHeld, Walk, Sweep, Settle, SweepTrace, WalkTrace;
    SettledSound(w, s);
    var s1 := Settle(Tick(w, s));
    SweepSound(w, s1);
    var (s2, swept) := Sweep(w, s1);
    var s3 := Tick(w, s2);
    HeadHeld(w, s, suspension);
    var head := [s, s1] + SweepTrace(w, s1, 0) + [s2];
    if swept.Nothing? && !suspension.Exchange? {
      ReclockSafe(w, s, s1);
      SweepSafeAll(w, s1);
      ReclockSafe(w, s2, s3);
      if Blocked(s3, suspension) {
        if !w.cancelled(s3.clock) && NextSignal(s3.futures, s3.heard).Some? {
          var at := NextSignal(s3.futures, s3.heard).value;
          WaitDecreases(w, s, s3, suspension, at);
          ReclockSafe(w, s3, Receive(s3, at));
          DriveHeld(w, Receive(s3, at), suspension);
          HeldTogether(w, head, DriveTrace(w, Receive(s3, at), suspension));
        } else {
          assert head + [] == head;
        }
      } else {
        WalkSound(w, s3);
        WalkSafe(w, s3);
        WalkHeld(w, s3);
        var (s4, outcome) := Walk(w, s3);
        if outcome.Suspend? {
          WalkDecreases(w, s, s3, suspension);
          DriveHeld(w, s4, outcome.suspension);
          HeldTogether(w, WalkTrace(w, s3), DriveTrace(w, s4, outcome.suspension));
          HeldTogether(w, head, WalkTrace(w, s3) + DriveTrace(w, s4, outcome.suspension));
        } else {
          assert WalkTrace(w, s3) + [] == WalkTrace(w, s3);
          HeldTogether(w, head, WalkTrace(w, s3));
        }
      }
    } else {
      assert head + [] == head;
    }
  }

  lemma {:induction false} HeadHeld(w: World, s: State, suspension: Suspension)
    requires Sound(s) && Suspended(s, suspension)
    requires if suspension.Exchange? then Safe(w, Advance(s)) else Safe(w, s)
    ensures
      var s1 := Settle(Tick(w, s));
      AllHeld(w, [s, s1] + SweepTrace(w, s1, 0) + [Sweep(w, s1).0])
  {
    hide Safe, Held, AllHeld, Sweep, Settle, SweepTrace;
    SettledSound(w, s);
    var s1 := Settle(Tick(w, s));
    if !suspension.Exchange? {
      PassSafe(w, s);
    }
    ReclockSafe(w, Advance(s), Advance(s1));
    SweepHeld(w, s1, 0);
    SweepSafeAll(w, Advance(s1));
    SweepAnywhereAll(w, s1);
    HeldAlone(w, s);
    HeldAlone(w, s1);
    HeldAlone(w, Sweep(w, s1).0);
    HeldTogether(w, [s], [s1]);
    assert [s] + [s1] == [s, s1];
    HeldTogether(w, [s, s1], SweepTrace(w, s1, 0));
    HeldTogether(w, [s, s1] + SweepTrace(w, s1, 0), [Sweep(w, s1).0]);
  }

  /**
   Every run, from a state with nothing armed and nothing counted, keeps the armed list in
   rule order, sends only speculative queries past pending race rules and counts each rule at
   most once, in every state it passes through, and lets a rule that is not a race rule decide
   only when none is pending.
   */
  lemma {:induction false} RunSafe(w: World, s: State)
    requires Sound(s) && s.armed == [] && s.stats == [] && s.counted <= s.ruleIndex + 1 && s.futures == []
    ensures AllHeld(w, RunTrace(w, s))
    ensures Run(w, s).1.Finished?
    ensures KeptSafe(w, Run(w, s).0, Run(w, s).1.decision)
  {
    assert Safe(w, s);
    hide Safe, Held, AllHeld, Walk, WalkTrace, DriveTrace;
    WalkSound(w, s);
    WalkSafe(w, s);
    WalkHeld(w, s);
    HeldAlone(w, s);
    HeldTogether(w, [s], WalkTrace(w, s));
    var (s1, outcome) := Walk(w, s);
    match outcome {
      case Commit(d) =>
        SafeKept(w, s1, CancelAll(s1), d);
        assert [s] + WalkTrace(w, s) + [] == [s] + WalkTrace(w, s);
      case Suspend(next) =>
        DriveSafe(w, s1, next);
        DriveHeld(w, s1, next);
        HeldTogether(w, [s] + WalkTrace(w, s), DriveTrace(w, s1, next));
    }
  }
}
