/**
 What the counters of a run say. Every count is right: a rule is counted as hit exactly when
 it matches in its place of the sequential reading, whichever exchange was done first.
 */
module RuleCounts {
  import opened Dns
  import opened RuleWalk
  import opened RuleDriver
  import opened RuleOrder
  import opened RuleAgreement
  import opened RuleReading

  ghost predicate RightCount(w: World, o: Origin, c: Count) {
    && c.rule < |w.rules|
    && Place(w, o, c.rule).Some?
    && (c.hit <==> Applies(w, c.rule, Place(w, o, c.rule).value))
  }

  ghost predicate Right(w: World, o: Origin, stats: seq<Count>) {
    forall k :: 0 <= k < |stats| ==> RightCount(w, o, stats[k])
  }

  lemma {:induction false} RightMore(w: World, o: Origin, stats: seq<Count>, c: Count)
    requires Right(w, o, stats) && RightCount(w, o, c)
    ensures Right(w, o, stats + [c])
  {
  }

  lemma {:induction false} JudgeRight(w: World, o: Origin, s: State, a: Armed)
    requires Admissible(w) && Reading(w, s) && Right(w, o, s.stats)
    requires ArmedOk(w, o, s.ruleIndex, s.namedFutures, s.clock, a) && Ready(a, s.clock)
    ensures Right(w, o, Judge(w, s, a).0.stats)
  {
    hide FireArmed, Right, Applies, Recorded;
    var s1 := TickWithin(w, s);
    LaterArmed(w, o, s.ruleIndex, s.namedFutures, s.clock, s1.clock, a);
    ArmedMatchesSame(w, o, s1, a);
    assert w.disabled(a.index, s.clock) == w.disabled(a.index, s1.clock);
    if !w.disabled(a.index, s.clock) {
      RightMore(w, o, s.stats, Count(a.index, ArmedMatches(w, s1, a)));
    }
  }

  lemma {:induction false} SweepRight(w: World, o: Origin, s: State, k: nat)
    requires Admissible(w) && Follows(w, o, s) && Fresh(w, s) && Right(w, o, s.stats)
    ensures Right(w, o, SweepFrom(w, s, k).0.stats)
    decreases |s.armed| - k
  {
    hide Follows, Judge, Right, Fresh;
    if k < |s.armed| {
      var s1 := TickWithin(w, s);
      TickWithinFollows(w, o, s);
      if !Ready(s1.armed[k], s1.clock) {
        SweepRight(w, o, s1, k + 1);
      } else {
        var s2 := s1.(armed := RemoveAt(s1.armed, k));
        ArmedReady(w, o, s1, k);
        JudgeRight(w, o, s2, s1.armed[k]);
        SweepJudges(w, o, s1, k);
        JudgeKeeps(w, s2, s1.armed[k]);
        var (s3, fired) := Judge(w, s2, s1.armed[k]);
        if fired.Nothing? {
          SweepRight(w, o, s3, k);
        }
      }
    }
  }

  lemma {:induction false} ArmedReady(w: World, o: Origin, s: State, k: nat)
    requires Follows(w, o, s) && Fresh(w, s) && k < |s.armed|
    ensures Reading(w, s.(armed := RemoveAt(s.armed, k))) && ArmedOk(w, o, s.ruleIndex, s.namedFutures, s.clock, s.armed[k])
  {
  }

  lemma {:induction false} ActCounts(w: World, s: State)
    requires s.ruleIndex < |w.rules|
    ensures ActStep(w, s).state.stats == s.stats
  {
    hide ApplyRouteOptions, ResolveRoute, RejectResult, PredefinedResult, RespondDecision, NewFuture;
  }

  lemma {:induction false} MatchRight(w: World, o: Origin, s: State)
    requires Admissible(w) && Follows(w, o, s) && Right(w, o, s.stats) && s.ruleIndex < |w.rules|
    requires !w.disabled(s.ruleIndex, s.clock) && BoundIn(w, o, s)
    ensures Right(w, o, MatchStep(w, s).state.stats)
  {
    hide Tagged, Recorded, AllArmedOk, Judged, TerminalOk, NoneStale, ActStep, Right;
    var s1 := Tick(w, s);
    SameBound(s1, Here(w, o, s), w.rules[s.ruleIndex].tags);
    assert !w.disabled(s.ruleIndex, 0);
    var matched := WalkMatches(w, s1);
    assert matched == Applies(w, s.ruleIndex, Here(w, o, s));
    ActCounts(w, CountOnce(s1, matched));
    RightMore(w, o, s.stats, Count(s.ruleIndex, matched));
  }

  lemma {:induction false} ArmRight(w: World, o: Origin, s: State)
    requires Admissible(w) && Follows(w, o, s) && Waiting(s.armed) && Fresh(w, s) && Right(w, o, s.stats)
    requires s.ruleIndex < |w.rules| && w.rules[s.ruleIndex].race
    ensures Right(w, o, ArmRule(w, s).state.stats)
  {
    hide Follows, Fresh, Right;
    ArmedFollows(w, o, s);
    var s1 := s.(armed := s.armed + [NewArmed(w, s)]);
    if Unresolved(s, w.rules[s.ruleIndex]) == [] {
      AdvanceFresh(w, s, s1);
      SweepRight(w, o, Advance(s1), 0);
      SweepAnywhere(w, s1, 0);
      SweepKeeps(w, s1, 0);
    }
  }

  lemma {:induction false} StepRight(w: World, o: Origin, s: State)
    requires Admissible(w) && Follows(w, o, s) && Waiting(s.armed) && Sound(s) && s.ruleIndex < |w.rules| && Right(w, o, s.stats)
    ensures Right(w, o, Step(w, s).state.stats)
  {
    hide Follows, Right, ArmRule, MatchStep, Fresh;
    var s1 := Tick(w, s);
    TickFollows(w, o, s);
    var r := w.rules[s.ruleIndex];
    if !w.disabled(s1.ruleIndex, s1.clock) {
      if r.HasBindings() {
        SettledFresh(w, o, s1);
        SettleKeeps(s1, 0);
        var s2 := TickWithin(w, Settle(s1));
        TickWithinFollows(w, o, Settle(s1));
        if r.race {
          ArmRight(w, o, s2);
        } else if Unresolved(s2, r) == [] {
          BindingsIn(w, o, s2);
          assert w.disabled(s2.ruleIndex, s2.clock) == w.disabled(s1.ruleIndex, s1.clock);
          MatchRight(w, o, s2);
        }
      } else {
        NothingBound(w, o, s1);
        MatchRight(w, o, s1);
      }
    }
  }

  lemma {:induction false} NothingBound(w: World, o: Origin, s: State)
    requires Follows(w, o, s) && s.ruleIndex < |w.rules| && !w.rules[s.ruleIndex].HasBindings()
    ensures BoundIn(w, o, s)
  {
  }

  lemma {:induction false} WalkRight(w: World, o: Origin, s: State)
    requires Admissible(w) && Follows(w, o, s) && Waiting(s.armed) && Sound(s) && Right(w, o, s.stats)
    ensures Right(w, o, Walk(w, s).0.stats)
    decreases |w.rules| - s.ruleIndex
  {
    hide Step, Follows, Right;
    if s.ruleIndex < |w.rules| {
      StepFollows(w, o, s);
      StepSound(w, s);
      StepRight(w, o, s);
      match Step(w, s) {
        case Next(s1) => WalkRight(w, o, s1);
        case Stop(s1, outcome) =>
      }
    }
  }

  lemma {:induction false} DriveRight(w: World, o: Origin, s: State, suspension: Suspension)
    requires Admissible(w) && Sound(s) && Suspended(s, suspension) && s.run == o.run && Right(w, o, s.stats)
    requires InStep(w, o, Stop(s, Suspend(suspension)))
    ensures Right(w, o, Drive(w, s, suspension).0.stats)
    decreases StepsLeft(w, s), |s.armed|, StillOpen(s, suspension), CountUnheard(s.futures, s.heard)
  {
    hide Verdict, Walk, Sweep, Settle, Right, Follows;
    NoLostWakeUp(w, s, suspension);
    SettledSound(w, s);
    var s0 := Tick(w, s);
    var s1 := Settle(s0);
    SweepSound(w, s1);
    var (s2, swept) := Sweep(w, s1);
    var s3 := Tick(w, s2);
    if suspension.Exchange? {
      EmptySweep(w, s1);
    } else {
      TickFollows(w, o, s);
      SettledFresh(w, o, s0);
      SweepFollowsAll(w, o, s1);
      SweepsRight(w, o, s1);
      if swept.Nothing? {
        TickFollows(w, o, s2);
        if Blocked(s3, suspension) {
          BlockedHasSignal(w, s, s1, s3, suspension);
          var at := NextSignal(s3.futures, s3.heard).value;
          WaitDecreases(w, s, s3, suspension, at);
          LaterFollows(w, o, s3, Receive(s3, at));
          DriveRight(w, o, Receive(s3, at), suspension);
        } else {
          WalkSound(w, s3);
          WalkFollows(w, o, s3);
          WalkRight(w, o, s3);
          var (s4, outcome) := Walk(w, s3);
          if outcome.Suspend? {
            WalkDecreases(w, s, s3, suspension);
            WalkStaysInRun(w, s3);
            DriveRight(w, o, s4, outcome.suspension);
          }
        }
      }
    }
  }

  lemma {:induction false} WalkStaysInRun(w: World, s: State)
    requires Sound(s)
    ensures Walk(w, s).0.run == s.run
  {
    WalkSound(w, s);
  }

  lemma {:induction false} SweepsRight(w: World, o: Origin, s: State)
    requires Admissible(w) && Follows(w, o, s) && Fresh(w, s) && Right(w, o, s.stats)
    ensures Right(w, o, Sweep(w, s).0.stats)
  {
    SweepRight(w, o, s, 0);
  }

  /** What a count says of the run it was made in: the rule fires in its scope if it was counted as hit, and does not if as missed. */
  ghost predicate TrueOf(w: World, run: nat, from: nat, options: QueryOptions, c: Count) {
    && c.rule < |w.rules|
    && ScopeAt(w, run, from, Scope(options, None, map[]), c.rule).Some?
    && (c.hit <==> Fires(w, c.rule, ScopeAt(w, run, from, Scope(options, None, map[]), c.rule).value))
  }

  /** For every schedule, every hit and every miss of a run is that of the rule in its place. */
  lemma {:induction false} CountsAreTrue(w: World, run: nat, from: nat, options: QueryOptions)
    requires Admissible(w) && from <= |w.rules|
    ensures Sound(Start(run, from, options))
    ensures forall c :: c in Run(w, Start(run, from, options)).0.stats ==> TrueOf(w, run, from, options, c)
  {
    hide Walk, Drive, Fires;
    var s, o := Start(run, from, options), Origin(run, from, Scope(options, None, map[]));
    assert Sound(s);
    assert Follows(w, o, s) && Right(w, o, s.stats);
    WalkSound(w, s);
    WalkFollows(w, o, s);
    WalkRight(w, o, s);
    var (s1, outcome) := Walk(w, s);
    if outcome.Suspend? {
      DriveRight(w, o, s1, outcome.suspension);
    }
    var stats := Run(w, s).0.stats;
    forall c | c in stats
      ensures TrueOf(w, run, from, options, c)
    {
      var k :| 0 <= k < |stats| && stats[k] == c;
      assert RightCount(w, o, stats[k]);
      FiresIs(w, c.rule, Place(w, o, c.rule).value);
    }
  }
}
