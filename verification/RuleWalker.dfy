/**
 The rule walk as the source runs it: a state updated in place by loops. Every method is
 tied to the function that specifies it, so what is proved of the functions holds here.
 */
module RuleWalker {
  import opened Dns
  import opened RuleWalk
  import opened RuleDriver
  import opened Fallback
  import opened RuleRestart
  import opened RuleQuery
  import ClientExchange

  /** dnsRuleWalkState together with the query it belongs to. */
  class WalkState {
    const w: World
    var run: nat
    var clock: nat
    var heard: nat
    var ruleIndex: nat
    var options: QueryOptions
    var futures: seq<Future>
    var settled: set<nat>
    var cancelled: set<nat>
    var anonymous: Option<Future>
    var namedFutures: map<string, Future>
    var namedResponses: map<string, Option<Msg>>
    var namedTransports: map<string, Transport>
    var armed: seq<Armed>
    var terminal: Option<Future>
    var terminalIndex: nat
    var counted: nat
    var stats: seq<Count>

    ghost function Abs(): State
      reads this
    {
      State(run, clock, heard, ruleIndex, options, futures, settled, cancelled, anonymous, namedFutures,
            namedResponses, namedTransports, armed, terminal, terminalIndex, counted, stats)
    }

    constructor (w: World, options: QueryOptions)
      ensures this.w == w && Abs() == Initial(options)
    {
      this.w := w;
      this.run := 0;
      this.clock := 0;
      this.heard := 0;
      this.ruleIndex := 0;
      this.options := options;
      this.futures := [];
      this.settled := {};
      this.cancelled := {};
      this.anonymous := None;
      this.namedFutures := map[];
      this.namedResponses := map[];
      this.namedTransports := map[];
      this.armed := [];
      this.terminal := None;
      this.terminalIndex := 0;
      this.counted := 0;
      this.stats := [];
    }

    /** Lets time pass before completions are read again. */
    method Observe()
      modifies this`clock
      ensures Abs() == Tick(w, old(Abs()))
    {
      if w.live {
        clock := clock + 1;
      }
    }

    method ObserveWithin()
      modifies this`clock
      ensures Abs() == TickWithin(w, old(Abs()))
    {
      if w.live && w.torn {
        clock := clock + 1;
      }
    }

    method SettleFutures()
      modifies this`settled, this`namedResponses, this`namedTransports
      ensures Abs() == Settle(old(Abs()))
    {
      for k := 0 to |futures|
        invariant futures == old(futures)
        invariant SettleFrom(Abs(), k) == Settle(old(Abs()))
      {
        var future := futures[k];
        if future.id in settled || !future.Resolved(clock) {
          continue;
        }
        settled := settled + {future.id};
        if future.tag == "" {
          continue;
        }
        namedResponses := namedResponses[future.tag := View(future.outcome)];
        namedTransports := namedTransports[future.tag := future.transport];
      }
    }

    method CancelFutures()
      modifies this`cancelled
      ensures Abs() == CancelAll(old(Abs()))
    {
      var k := 0;
      while k < |futures|
        invariant 0 <= k <= |futures|
        invariant cancelled == old(cancelled) + IdsExcept(futures[..k], None)
      {
        assert futures[..k + 1] == futures[..k] + [futures[k]];
        cancelled := cancelled + {futures[k].id};
        k := k + 1;
      }
      assert futures[..k] == futures;
    }

    method LaunchEvaluate(tag: string, transport: Transport, queryOptions: QueryOptions) returns (future: Future)
      modifies this`futures
      ensures future == NewFuture(w, old(Abs()), tag, transport, queryOptions)
      ensures Abs() == Launch(old(Abs()), future)
    {
      var doneAt := clock + w.delay(run, ruleIndex);
      future := Future(|futures|, ruleIndex, tag, transport, w.answer(run, ruleIndex, transport, FinalOptions(w, queryOptions)),
                       doneAt, doneAt + w.lag(run, ruleIndex), |armed|);
      futures := futures + [future];
    }

    method IsReady(a: Armed) returns (ready: bool)
      ensures ready == Ready(a, clock)
    {
      for k := 0 to |a.waits|
        invariant forall i :: 0 <= i < k ==> a.waits[i].Resolved(clock)
      {
        if !a.waits[k].Resolved(clock) {
          return false;
        }
      }
      return true;
    }

    /** Judges an armed rule whose responses are in. */
    method JudgeArmed(a: Armed) returns (fired: SweepOutcome)
      modifies this`clock, this`stats
      ensures (Abs(), fired) == Judge(w, old(Abs()), a)
    {
      if w.disabled(a.index, clock) {
        return Nothing;
      }
      ObserveWithin();
      var matched := w.matches(a.index, if a.bindsAnonymous then SeenBy(a.future, clock) else None, Bound(namedResponses, a.rule.tags));
      stats := stats + [Count(a.index, matched)];
      if !matched {
        return Nothing;
      }
      ObserveWithin();
      fired := FireMatched(a);
    }

    method FireMatched(a: Armed) returns (fired: SweepOutcome)
      ensures fired == FireArmed(w, Abs(), a)
    {
      match a.rule.action {
        case Respond =>
          var response, transport := None, None;
          if a.rule.respondTag != "" {
            response := Lookup(namedResponses, a.rule.respondTag);
            if a.rule.respondTag in namedTransports {
              transport := Some(namedTransports[a.rule.respondTag]);
            }
          } else if a.future.Some? {
            response := a.future.value.Seen(clock);
            transport := Some(a.future.value.transport);
          } else if anonymous.Some? {
            response := anonymous.value.Seen(clock);
            transport := Some(anonymous.value.transport);
          }
          return Answered(RespondDecision(a.index, response, transport, a.options));
        case Route(server, _, add) =>
          var route := ResolveRoute(w, server, add, a.options);
          if route.None? {
            return Nothing;
          }
          return Routed(Pending(route.value.0, route.value.1, None, Some(a.index)));
        case Reject(_, _) =>
          return Answered(Decision(RejectResult(w, a.index, a.rule.action, a.options), a.index));
        case Predefined =>
          return Answered(Decision(PredefinedResult(w, a.index, a.options), a.index));
        case _ =>
          return Nothing;
      }
    }

    method SweepArmed() returns (swept: SweepOutcome)
      modifies this`clock, this`armed, this`stats
      ensures (Abs(), swept) == Sweep(w, old(Abs()))
    {
      var index := 0;
      while index < |armed|
        invariant 0 <= index <= |armed|
        invariant SweepFrom(w, Abs(), index) == Sweep(w, old(Abs()))
        decreases |armed| - index
      {
        ObserveWithin();
        var a := armed[index];
        var ready := IsReady(a);
        if !ready {
          index := index + 1;
          continue;
        }
        armed := armed[..index] + armed[index + 1..];
        var fired := JudgeArmed(a);
        if !fired.Nothing? {
          return fired;
        }
      }
      return Nothing;
    }

    // ------------------------------------------------------------------- walk

    /** What a part of the loop body has done: stopped the walk, or left it to go on to the next rule. */
    ghost predicate Did(step: StepOutcome, stop: Option<WalkOutcome>)
      reads this
    {
      step == if stop.Some? then Stop(Abs(), stop.value) else Next(Advance(Abs()))
    }

    method PendingFutures(r: Rule) returns (pending: seq<Future>)
      ensures pending == Unresolved(Abs(), r)
    {
      pending := [];
      for k := 0 to |r.tags|
        invariant pending + UnresolvedTags(Abs(), r.tags[k..]) == UnresolvedTags(Abs(), r.tags)
      {
        assert r.tags[k..][1..] == r.tags[k + 1..];
        if r.tags[k] in namedFutures && !namedFutures[r.tags[k]].Resolved(clock) {
          pending := pending + [namedFutures[r.tags[k]]];
        }
      }
      if r.anonymous && anonymous.Some? && !anonymous.value.Resolved(clock) {
        pending := pending + [anonymous.value];
      }
    }

    method ArmCurrent() returns (stop: Option<WalkOutcome>)
      requires ruleIndex < |w.rules|
      modifies this`clock, this`armed, this`stats
      ensures Did(ArmRule(w, old(Abs())), stop)
    {
      var r := w.rules[ruleIndex];
      var pending := PendingFutures(r);
      armed := armed + [Armed(ruleIndex, r, pending, if r.anonymous then anonymous else None, r.anonymous, options)];
      if pending == [] {
        var swept := SweepArmed();
        match swept {
          case Nothing => return None;
          case Answered(decision) => return Some(Commit(decision));
          case Routed(exchange) =>
            armed := [];
            return Some(Suspend(Exchange(exchange)));
        }
      }
      return None;
    }

    method EvaluateCurrent() returns (stop: Option<WalkOutcome>)
      requires ruleIndex < |w.rules| && w.rules[ruleIndex].action.Evaluate?
      modifies this`futures, this`anonymous, this`namedFutures
      ensures Did(EvaluateStep(w, old(Abs())), stop)
    {
      var action := w.rules[ruleIndex].action;
      if action.server !in w.transports {
        if action.tag == "" {
          anonymous := None;
        }
        return None;
      }
      if !action.speculative && |armed| > 0 {
        return Some(Suspend(Drain));
      }
      var future := LaunchEvaluate(action.tag, w.transports[action.server], ApplyRouteOptions(options, action.add));
      if action.tag == "" {
        anonymous := Some(future);
      } else {
        namedFutures := namedFutures[action.tag := future];
      }
      return None;
    }

    method RespondCurrent() returns (stop: Option<WalkOutcome>)
      requires ruleIndex < |w.rules| && w.rules[ruleIndex].action.Respond?
      modifies this`clock
      ensures Did(RespondStep(w, old(Abs())), stop)
    {
      var r := w.rules[ruleIndex];
      if |armed| > 0 {
        return Some(Suspend(Drain));
      }
      if r.respondTag != "" {
        var transport := if r.respondTag in namedTransports then Some(namedTransports[r.respondTag]) else None;
        return Some(Commit(RespondDecision(ruleIndex, Lookup(namedResponses, r.respondTag), transport, options)));
      }
      Observe();
      if !r.HasBindings() && anonymous.Some? && !anonymous.value.Resolved(clock) {
        return Some(Suspend(Await(anonymous.value)));
      }
      Observe();
      var response := SeenBy(anonymous, clock);
      if response.None? {
        return Some(Commit(Decision(ErrorResult(MissingResponse), ruleIndex)));
      }
      return Some(Commit(Decision(Result(response, Some(anonymous.value.transport), Some(ruleIndex), options, false, None), ruleIndex)));
    }

    method RouteCurrent() returns (stop: Option<WalkOutcome>)
      requires ruleIndex < |w.rules| && w.rules[ruleIndex].action.Route?
      modifies this`futures, this`terminal, this`terminalIndex
      ensures Did(RouteStep(w, old(Abs())), stop)
    {
      var action := w.rules[ruleIndex].action;
      var route := ResolveRoute(w, action.server, action.add, options);
      if route.None? {
        return None;
      }
      var (transport, queryOptions) := route.value;
      if |armed| > 0 {
        if action.speculative && terminal.None? {
          var future := LaunchEvaluate("", transport, queryOptions);
          terminal := Some(future);
          terminalIndex := ruleIndex;
        }
        return Some(Suspend(Drain));
      }
      if terminal.Some? && terminalIndex == ruleIndex {
        return Some(Suspend(Exchange(Pending(terminal.value.transport, queryOptions, terminal, Some(ruleIndex)))));
      }
      return Some(Suspend(Exchange(Pending(transport, queryOptions, None, Some(ruleIndex)))));
    }

    method ActOnCurrent() returns (stop: Option<WalkOutcome>)
      requires ruleIndex < |w.rules|
      modifies this`clock, this`options, this`futures, this`anonymous, this`namedFutures, this`terminal, this`terminalIndex
      ensures Did(ActStep(w, old(Abs())), stop)
    {
      var action := w.rules[ruleIndex].action;
      match action {
        case RouteOptionsAction(add) =>
          options := ApplyRouteOptions(options, add);
          return None;
        case Evaluate(_, _, _, _) =>
          stop := EvaluateCurrent();
        case Respond =>
          stop := RespondCurrent();
        case Route(_, _, _) =>
          stop := RouteCurrent();
        case Reject(_, _) =>
          if |armed| > 0 {
            return Some(Suspend(Drain));
          }
          return Some(Commit(Decision(RejectResult(w, ruleIndex, action, options), ruleIndex)));
        case Predefined =>
          if |armed| > 0 {
            return Some(Suspend(Drain));
          }
          return Some(Commit(Decision(PredefinedResult(w, ruleIndex, options), ruleIndex)));
      }
    }

    method MatchCurrent() returns (stop: Option<WalkOutcome>)
      requires ruleIndex < |w.rules|
      modifies this`clock, this`options, this`futures, this`anonymous, this`namedFutures, this`terminal, this`terminalIndex, this`counted, this`stats
      ensures Did(MatchStep(w, old(Abs())), stop)
    {
      hide ActStep;
      var r := w.rules[ruleIndex];
      Observe();
      var matched := w.matches(ruleIndex, if r.anonymous then SeenBy(anonymous, clock) else None, Bound(namedResponses, r.tags));
      if ruleIndex >= counted {
        counted := ruleIndex + 1;
        stats := stats + [Count(ruleIndex, matched)];
      }
      if !matched {
        return None;
      }
      stop := ActOnCurrent();
    }

    /** The loop body of the walk. */
    method StepCurrent() returns (stop: Option<WalkOutcome>)
      requires ruleIndex < |w.rules|
      modifies this
      ensures Did(Step(w, old(Abs())), stop)
    {
      hide MatchStep, ArmRule;
      Observe();
      var r := w.rules[ruleIndex];
      if w.disabled(ruleIndex, clock) {
        return None;
      }
      if r.HasBindings() {
        SettleKeeps(Abs(), 0);
        SettleFutures();
        ObserveWithin();
        if r.race {
          stop := ArmCurrent();
          return;
        }
        var pending := PendingFutures(r);
        if pending != [] {
          return Some(Suspend(Await(pending[0])));
        }
      }
      stop := MatchCurrent();
    }

    method WalkRules() returns (outcome: WalkOutcome)
      modifies this
      ensures (Abs(), outcome) == Walk(w, old(Abs()))
    {
      hide Step;
      while ruleIndex < |w.rules|
        invariant Walk(w, Abs()) == Walk(w, old(Abs()))
        decreases |w.rules| - ruleIndex
      {
        var stop := StepCurrent();
        if stop.Some? {
          return stop.value;
        }
        ruleIndex := ruleIndex + 1;
      }
      if |armed| > 0 {
        return Suspend(Drain);
      }
      return Suspend(Exchange(Pending(w.defaultTransport, options, None, None)));
    }

    // ------------------------------------------------------------------ resume

    method FinishExchange(p: Pending) returns (decision: Decision)
      modifies this`clock, this`cancelled
      ensures (Abs(), decision) == FinishPending(w, old(Abs()), p)
    {
      var k := 0;
      while k < |futures|
        invariant 0 <= k <= |futures|
        invariant clock == old(clock) && cancelled == old(cancelled) + IdsExcept(futures[..k], p.future)
      {
        assert futures[..k + 1] == futures[..k] + [futures[k]];
        if Some(futures[k]) != p.future {
          cancelled := cancelled + {futures[k].id};
        }
        k := k + 1;
      }
      assert futures[..k] == futures;
      var at := PendingAt(w, p);
      if p.future.Some? {
        var future := p.future.value;
        if w.cancelled(clock) {
          return Decision(Result(None, None, p.rule, p.options, false, Some(Cancelled)), at);
        }
        clock := Max(clock, future.doneAt);
        return Decision(Result(View(future.outcome), Some(future.transport), p.rule, p.options, false, ErrorOf(future.outcome)), at);
      }
      var outcome := w.answer(run, at, p.transport, FinalOptions(w, p.options));
      return Decision(Result(View(outcome), Some(p.transport), p.rule, p.options, false, ErrorOf(outcome)), at);
    }

    /** Waits for the token of the wake channel and takes it out. */
    method ReceiveSignal()
      requires NextSignal(futures, heard).Some?
      modifies this`clock, this`heard
      ensures Abs() == Receive(old(Abs()), old(NextSignal(futures, heard).value))
    {
      clock := Max(clock, NextSignal(futures, heard).value);
      heard := clock + 1;
    }

    /** The resume loop: it ends with the decision of its specification, every exchange cancelled. */
    method Resume(first: Suspension) returns (outcome: RunOutcome)
      requires Sound(Abs()) && Suspended(Abs(), first)
      modifies this
      ensures (Abs(), outcome) == Drive(w, old(Abs()), first)
      ensures outcome.Finished? && AllCancelled(Abs())
    {
      hide Settle, Sweep, Walk, FinishPending, Rooted, AllCancelled, StepsLeft, StillOpen, CountUnheard, NextSignal, Receive;
      var suspension := first;
      NoLostWakeUp(w, Abs(), first);
      DriveCancelsAll(w, Abs(), first);
      while true
        invariant Sound(Abs()) && Suspended(Abs(), suspension)
        invariant Drive(w, Abs(), suspension) == Drive(w, old(Abs()), first)
        decreases StepsLeft(w, Abs()), |armed|, StillOpen(Abs(), suspension), CountUnheard(futures, heard)
      {
        ghost var s := Abs();
        SettledSound(w, s);
        Observe();
        SettleFutures();
        ghost var s1 := Abs();
        SweepSound(w, s1);
        var swept := SweepArmed();
        match swept {
          case Answered(decision) =>
            CancelFutures();
            return Finished(decision);
          case Routed(exchange) =>
            var decision := FinishExchange(exchange);
            CancelFutures();
            return Finished(decision);
          case Nothing =>
        }
        Observe();
        if suspension.Exchange? {
          var decision := FinishExchange(suspension.pending);
          CancelFutures();
          return Finished(decision);
        }
        if (suspension.Await? && !suspension.future.Resolved(clock)) || (suspension.Drain? && |armed| > 0) {
          if w.cancelled(clock) {
            CancelFutures();
            return Finished(Decision(ErrorResult(Cancelled), |w.rules|));
          }
          BlockedHasSignal(w, s, s1, Abs(), suspension);
          WaitDecreases(w, s, Abs(), suspension, NextSignal(futures, heard).value);
          ReceiveSignal();
          continue;
        }
        WalkSound(w, Abs());
        ghost var s3 := Abs();
        var walked := WalkRules();
        match walked {
          case Commit(decision) =>
            CancelFutures();
            return Finished(decision);
          case Suspend(next) =>
            WalkDecreases(w, s, s3, suspension);
            suspension := next;
        }
      }
    }

    method RunRules() returns (outcome: RunOutcome)
      requires Sound(Abs())
      modifies this
      ensures (Abs(), outcome) == Run(w, old(Abs()))
    {
      WalkSound(w, Abs());
      var walked := WalkRules();
      match walked {
        case Commit(decision) =>
          CancelFutures();
          return Finished(decision);
        case Suspend(suspension) =>
          outcome := Resume(suspension);
      }
    }

    /** The fallthrough loop: runs again behind a rule that allows it for as long as the result is bad. */
    method ContinueAfterFallthrough() returns (result: Result)
      requires Sound(Abs())
      modifies this
      ensures result == Continue(w, old(Abs())).0
      ensures !FallsThrough(w, result)
    {
      hide Run, AfterFallback, Potential;
      ContinueEnds(w, Abs());
      while true
        invariant Sound(Abs())
        invariant Continue(w, Abs()).0 == Continue(w, old(Abs())).0
        decreases Potential(armed, ruleIndex, |w.rules|)
      {
        ghost var s := Abs();
        RunSpends(w, s);
        var outcome := RunRules();
        result := ApplyFallback(w, outcome.decision.result);
        if !(result.rule.Some? && result.rule.value + 1 < |w.rules| && w.rules[result.rule.value].allowFallthrough && BadResult(result)) {
          return;
        }
        RestartLowers(s.armed, s.ruleIndex, armed, result.rule.value, |w.rules|);
        ruleIndex := result.rule.value + 1;
        run := run + 1;
      }
    }
  }

  /** Fallback and fallthrough of a decided result, and the callback. */
  method Finish(w: World, decided: Result) returns (called: seq<Result>)
    ensures called == [AfterDecision(w, decided)] && ComesTo(w, decided, called[0])
  {
    hide ComesTo;
    DecisionReads(w, decided);
    hide Run, AfterFallback, Potential, BadResult;
    called := [];
    var result := ApplyFallback(w, decided);
    if result.rule.Some? && w.rules != [] && result.rule.value < |w.rules| - 1 && w.rules[result.rule.value].allowFallthrough && BadResult(result) {
      var state := new WalkState(w, result.options);
      state.run := 1;
      state.ruleIndex := result.rule.value + 1;
      result := state.ContinueAfterFallthrough();
    }
    called := called + [result];
  }

  /** The synchronous exchange. */
  method ExchangeWithRules(w: World, options: QueryOptions) returns (result: Result)
    ensures result == Resolve(w, options) && !FallsThrough(w, result)
    ensures Run(w, Initial(options)).1.Finished? && ComesTo(w, Run(w, Initial(options)).1.decision.result, result)
  {
    hide Run, AfterDecision, Continue, ComesTo;
    var state := new WalkState(w, options);
    RunFinishes(w, Initial(options));
    var outcome := state.RunRules();
    var finished := Finish(w, outcome.decision.result);
    DecisionFallsNoFurther(w, outcome.decision.result);
    result := finished[0];
  }

  /** The three ways the client may come to an answer it is going to give. */
  datatype Path = AtOnce | AfterWaiting | Asking

  function BegunFor(answer: Outcome, path: Path): ClientExchange.Begun {
    match path
    case AtOnce => ClientExchange.Done(answer)
    case AfterWaiting => ClientExchange.Wait(ClientExchange.Done(answer))
    case Asking => ClientExchange.Ready(if answer.Reply? then ClientExchange.Message(answer.msg) else ClientExchange.Broken(answer.error))
  }

  /**
   The asynchronous exchange, by a result of the first walk, by an exchange of the client, or by
   the resume loop: its callback is called exactly once, with the synchronous result.
   */
  method ExchangeWithRulesAsync(w: World, options: QueryOptions, path: Path) returns (called: seq<Result>)
    ensures called == [Resolve(w, options)]
  {
    hide Walk, Drive, AfterDecision, Continue;
    called := [];
    var state := new WalkState(w, options);
    WalkSound(w, state.Abs());
    AsyncEqualsSync(w, state.Abs());
    RunFinishes(w, state.Abs());
    var outcome := state.WalkRules();
    if outcome.Commit? {
      state.CancelFutures();
      called := Finish(w, outcome.decision.result);
      return;
    }
    var suspension := outcome.suspension;
    if suspension.Exchange? && suspension.pending.future.None? {
      state.CancelFutures();
      var p := suspension.pending;
      var answer := w.answer(state.run, PendingAt(w, p), p.transport, FinalOptions(w, p.options));
      var replies := ClientExchange.ExchangeAsync(BegunFor(answer, path), w.query, msg => Reply(msg));
      for i := 0 to |replies|
        invariant |called| == i
        invariant i > 0 ==> called == [Resolve(w, options)]
      {
        var reply := replies[i];
        var finished := Finish(w, Result(View(reply), Some(p.transport), p.rule, p.options, false, ErrorOf(reply)));
        called := called + finished;
      }
      return;
    }
    var resumed := state.Resume(suspension);
    called := Finish(w, resumed.decision.result);
  }
}
