/**
 What a whole query answers: its first run, the fallback servers of the deciding rule, and the
 runs that follow behind a rule whose bad result may fall through.
 */
module RuleQuery {
  import opened Dns
  import opened RuleWalk
  import opened RuleDriver
  import opened RuleOrder
  import opened RuleAgreement
  import opened RuleReading
  import opened RuleRestart
  import opened Fallback

  /** The result has no address, its rule allows falling through, and there is a rule behind it. */
  ghost predicate MayRestart(w: World, result: Result) {
    && result.rule.Some?
    && result.rule.value + 1 < |w.rules|
    && w.rules[result.rule.value].allowFallthrough
    && !HasAddress(result)
  }

  lemma {:induction false} FallsThroughMeans(w: World, result: Result)
    ensures FallsThrough(w, result) <==> MayRestart(w, result)
  {
    SatisfyingHasAddress(result);
  }

  /** The run from `start` decides, and its decision leads to `result`. */
  ghost predicate Gives(w: World, start: State, result: Result) {
    Sound(start) && Run(w, start).1.Finished? && LeadsTo(w, Run(w, start).1.decision.result, result)
  }

  /** A run picks up what the run before left, behind the rule of its result. */
  ghost predicate StartsBehind(w: World, before: State, result: Result, start: State) {
    && Sound(before) && result.rule.Some?
    && start == Run(w, before).0.(run := Run(w, before).0.run + 1, ruleIndex := result.rule.value + 1)
  }

  /** The runs of a query that falls through: each but the last has a result that may, and the next starts behind its rule. */
  ghost predicate Runs(w: World, starts: seq<State>, results: seq<Result>) {
    && 0 < |starts| == |results|
    && (forall k :: 0 <= k < |starts| ==> Gives(w, starts[k], results[k]))
    && (forall k :: 0 <= k < |starts| - 1 ==> MayRestart(w, results[k]))
    && (forall k, l :: 0 <= k && l == k + 1 < |starts| ==> StartsBehind(w, starts[k], results[k], starts[l]))
    && !MayRestart(w, results[|results| - 1])
  }

  lemma {:induction false} RunsBefore(w: World, start: State, result: Result, starts: seq<State>, results: seq<Result>)
    requires Runs(w, starts, results) && Gives(w, start, result) && MayRestart(w, result) && StartsBehind(w, start, result, starts[0])
    ensures Runs(w, [start] + starts, [result] + results)
  {
    hide Gives, MayRestart, StartsBehind;
    var starts', results' := [start] + starts, [result] + results;
    forall k, l | 0 <= k && l == k + 1 < |starts'|
      ensures StartsBehind(w, starts'[k], results'[k], starts'[l])
    {
      if k > 0 {
        assert StartsBehind(w, starts[k - 1], results[k - 1], starts[l - 1]);
      }
    }
  }

  /** The restart loop makes such runs, and answers with the result of the last. */
  lemma {:induction false} ContinueReads(w: World, s: State)
    requires Sound(s)
    ensures exists starts, results :: Runs(w, starts, results) && starts[0] == s && Continue(w, s).0 == results[|results| - 1]
    decreases Potential(s.armed, s.ruleIndex, |w.rules|)
  {
    hide Run, AfterFallback, LeadsTo, FallsThrough, MayRestart, Potential;
    RunSpends(w, s);
    var s1, d := Run(w, s).0, Run(w, s).1.decision;
    var result := AfterFallback(w, d.result);
    FallbackReads(w, d.result);
    FallsThroughMeans(w, result);
    if FallsThrough(w, result) {
      FallsThroughHasRule(w, result);
      RestartLowers(s.armed, s.ruleIndex, s1.armed, result.rule.value, |w.rules|);
      var next := Restart(s1, result.rule.value);
      ContinueReads(w, next);
      var starts, results :| Runs(w, starts, results) && starts[0] == next && Continue(w, next).0 == results[|results| - 1];
      RunsBefore(w, s, result, starts, results);
      assert ([s] + starts)[0] == s && ([result] + results)[|results|] == results[|results| - 1];
      assert Continue(w, s).0 == Continue(w, next).0;
      assert Runs(w, [s] + starts, [result] + results);
    } else {
      assert Runs(w, [s], [result]);
      assert Continue(w, s).0 == result;
    }
  }

  lemma {:induction false} FallsThroughHasRule(w: World, result: Result)
    requires FallsThrough(w, result)
    ensures result.rule.Some? && result.rule.value + 1 < |w.rules|
  {
  }

  /**
   `answer` is what a decision comes to: the result it leads to, or, if that may fall through, the
   last result of runs that begin afresh behind its rule with its options.
   */
  ghost predicate ComesTo(w: World, decided: Result, answer: Result) {
    exists first :: LeadsTo(w, decided, first) && Concludes(w, first, answer)
  }

  ghost predicate Concludes(w: World, first: Result, answer: Result) {
    if !MayRestart(w, first) then answer == first
    else exists starts, results ::
      Runs(w, starts, results) && starts[0] == Start(1, first.rule.value + 1, first.options) && answer == results[|results| - 1]
  }

  lemma {:induction false} DecisionReads(w: World, decided: Result)
    ensures ComesTo(w, decided, AfterDecision(w, decided))
  {
    hide Run, AfterFallback, LeadsTo, FallsThrough, MayRestart, Continue, Runs;
    var first := AfterFallback(w, decided);
    FallbackReads(w, decided);
    FallsThroughMeans(w, first);
    if FallsThrough(w, first) {
      FallsThroughHasRule(w, first);
      ContinueReads(w, Start(1, first.rule.value + 1, first.options));
    }
    assert Concludes(w, first, AfterDecision(w, decided));
  }

  /**
   Every query: the first run decides, and the answer is what its decision comes to. In an
   admissible world that decision is the one the rules give.
   */
  lemma {:induction false} QueryReads(w: World, options: QueryOptions)
    ensures Run(w, Start(0, 0, options)).1.Finished?
    ensures ComesTo(w, Run(w, Start(0, 0, options)).1.decision.result, Resolve(w, options))
    ensures Admissible(w) ==> exists scopes :: Reads(w, 0, 0, options, Run(w, Start(0, 0, options)).1.decision, scopes)
  {
    hide Run, ComesTo, AfterDecision, Reads;
    RunFinishes(w, Initial(options));
    DecisionReads(w, Run(w, Initial(options)).1.decision.result);
    assert Initial(options) == Start(0, 0, options);
    if Admissible(w) {
      RunReads(w, 0, 0, options);
    }
  }

  /**
   The first run behind a rule reads the rules behind it, with the options of the result that fell
   through and no response bound; without race rules it decides as the sequential reading does.
   */
  lemma {:induction false} RestartReads(w: World, first: Result)
    requires Admissible(w) && MayRestart(w, first)
    ensures
      var from := first.rule.value + 1;
      var start := Start(1, from, first.options);
      && Sound(start) && Run(w, start).1.Finished?
      && (exists scopes :: Reads(w, 1, from, first.options, Run(w, start).1.decision, scopes))
      && ((forall i :: 0 <= i < |w.rules| ==> !w.rules[i].race) ==>
            Run(w, start).1.decision == InOrder(w, 1, from, Scope(first.options, None, map[])))
  {
    hide Run, Reads;
    RunReads(w, 1, first.rule.value + 1, first.options);
    if forall i :: 0 <= i < |w.rules| ==> !w.rules[i].race {
      Confluence(w, 1, first.rule.value + 1, first.options);
    }
  }
}
