/**
 The loop that carries a suspended rule walk to its result: it settles finished
 exchanges, judges the armed race rules, waits for the next completion signal and
 walks on. It always ends, and it never waits for a signal that will not come.
 */
module RuleDriver {
  import opened Dns
  import opened RuleWalk

  // ---------------------------------------------------------------- soundness

  predicate Knows(futures: seq<Future>, f: Future) {
    f.id < |futures| && futures[f.id] == f
  }

  ghost predicate KnowsAll(futures: seq<Future>, armed: seq<Armed>) {
    forall i, j :: 0 <= i < |armed| && 0 <= j < |armed[i].waits| ==> Knows(futures, armed[i].waits[j])
  }

  ghost predicate SignalsAfterDone(futures: seq<Future>) {
    forall i :: 0 <= i < |futures| ==> futures[i].doneAt <= futures[i].signalAt
  }

  ghost predicate KnowsNamed(futures: seq<Future>, named: map<string, Future>) {
    forall tag :: tag in named ==> Knows(futures, named[tag])
  }

  /** Every future the state refers to was launched by it, and no received signal lies ahead of the clock. */
  ghost predicate Sound(s: State) {
    && s.heard <= s.clock + 1
    && Rooted(s.futures, s.anonymous, s.namedFutures, s.armed, s.terminal)
  }

  ghost predicate Rooted(futures: seq<Future>, anonymous: Option<Future>, named: map<string, Future>, armed: seq<Armed>, terminal: Option<Future>) {
    && SignalsAfterDone(futures)
    && (anonymous.Some? ==> Knows(futures, anonymous.value))
    && KnowsNamed(futures, named)
    && KnowsAll(futures, armed)
    && (terminal.Some? ==> Knows(futures, terminal.value))
  }

  /** What a suspension promises: something to await, something to drain, or nothing armed. */
  ghost predicate Suspended(s: State, suspension: Suspension) {
    match suspension
    case Await(f) => Knows(s.futures, f)
    case Drain => s.armed != []
    case Exchange(p) => s.armed == [] && (p.future.Some? ==> Knows(s.futures, p.future.value))
  }

  /** How a stretch of the walk may change the state. */
  ghost predicate Forward(s: State, s': State) {
    && s'.run == s.run
    && s'.clock >= s.clock
    && s'.heard == s.heard
    && s'.ruleIndex >= s.ruleIndex
    && s'.cancelled == s.cancelled
    && (s.terminal.Some? ==> s'.terminal == s.terminal)
    && (s'.ruleIndex == s.ruleIndex && s'.terminal == s.terminal ==> s'.futures == s.futures && |s'.armed| <= |s.armed|)
  }

  ghost predicate StepGood(s: State, step: StepOutcome) {
    && Sound(step.state)
    && Forward(s, step.state)
    && (step.Stop? && step.outcome.Suspend? ==>
          && Suspended(step.state, step.outcome.suspension)
          && (step.outcome.suspension.Await? ==> !step.outcome.suspension.future.Resolved(step.state.clock)))
  }

  lemma {:induction false} UnresolvedTagsKnown(s: State, tags: seq<string>)
    requires KnowsNamed(s.futures, s.namedFutures)
    ensures forall i :: 0 <= i < |UnresolvedTags(s, tags)| ==>
              Knows(s.futures, UnresolvedTags(s, tags)[i]) && !UnresolvedTags(s, tags)[i].Resolved(s.clock)
  {
    if tags != [] {
      UnresolvedTagsKnown(s, tags[1..]);
    }
  }

  lemma {:induction false} UnresolvedKnown(s: State, r: Rule)
    requires Sound(s)
    ensures forall i :: 0 <= i < |Unresolved(s, r)| ==>
              Knows(s.futures, Unresolved(s, r)[i]) && !Unresolved(s, r)[i].Resolved(s.clock)
  {
    UnresolvedTagsKnown(s, r.tags);
  }

  /** The armed rules left by a sweep were armed before it; if it committed nothing, none was ready when it began. */
  ghost predicate Leftover(armed: seq<Armed>, from: nat, armed': seq<Armed>, swept: SweepOutcome) {
    && (forall i :: 0 <= i < |armed'| ==> armed'[i] in armed)
    && (swept.Nothing? ==> forall i :: 0 <= i < |armed'| ==> !Ready(armed'[i], from))
  }

  lemma {:induction false} ReadyLater(a: Armed, early: nat, late: nat)
    requires early <= late && !Ready(a, late)
    ensures !Ready(a, early)
  {
    var f :| f in a.waits && !f.Resolved(late);
    assert !f.Resolved(early);
  }

  lemma {:induction false} SweepLeaves(w: World, s: State, k: nat, from: nat)
    requires from <= s.clock
    requires forall i :: 0 <= i < k && i < |s.armed| ==> !Ready(s.armed[i], from)
    ensures Leftover(s.armed, from, SweepFrom(w, s, k).0.armed, SweepFrom(w, s, k).1)
    decreases |s.armed| - k
  {
    if k < |s.armed| {
      var s1 := TickWithin(w, s);
      if !Ready(s1.armed[k], s1.clock) {
        ReadyLater(s1.armed[k], from, s1.clock);
        SweepLeaves(w, s1, k + 1, from);
      } else {
        var s2 := s1.(armed := RemoveAt(s1.armed, k));
        JudgeKeeps(w, s2, s1.armed[k]);
        var (s3, fired) := Judge(w, s2, s1.armed[k]);
        assert forall i :: 0 <= i < |s3.armed| ==> s3.armed[i] in s.armed;
        if fired.Nothing? {
          SweepLeaves(w, s3, k, from);
        }
      }
    }
  }

  lemma {:induction false} SweepConsumes(w: World, s: State, k: nat)
    ensures var (s', swept) := SweepFrom(w, s, k);
            && (!swept.Nothing? ==> |s'.armed| < |s.armed|)
            && (swept.Routed? ==> swept.pending.future.None?)
    decreases |s.armed| - k
  {
    if k < |s.armed| {
      var s1 := TickWithin(w, s);
      if !Ready(s1.armed[k], s1.clock) {
        SweepConsumes(w, s1, k + 1);
      } else {
        var s2 := s1.(armed := RemoveAt(s1.armed, k));
        JudgeKeeps(w, s2, s1.armed[k]);
        var (s3, fired) := Judge(w, s2, s1.armed[k]);
        if fired.Nothing? {
          SweepConsumes(w, s3, k);
        }
      }
    }
  }

  lemma {:induction false} SubsetKnown(futures: seq<Future>, armed: seq<Armed>, armed': seq<Armed>)
    requires KnowsAll(futures, armed)
    requires forall i :: 0 <= i < |armed'| ==> armed'[i] in armed
    ensures KnowsAll(futures, armed')
  {
    forall i, j | 0 <= i < |armed'| && 0 <= j < |armed'[i].waits|
      ensures Knows(futures, armed'[i].waits[j])
    {
      var k :| 0 <= k < |armed| && armed[k] == armed'[i];
      assert Knows(futures, armed[k].waits[j]);
    }
  }

  lemma {:induction false} SweepSound(w: World, s: State)
    requires Sound(s)
    ensures var (s', swept) := Sweep(w, s);
            && Sound(s')
            && SweepShape(s, s')
            && (swept.Nothing? ==> forall i :: 0 <= i < |s'.armed| ==> !Ready(s'.armed[i], s.clock))
            && (!swept.Nothing? ==> |s'.armed| < |s.armed|)
            && (swept.Routed? ==> swept.pending.future.None?)
  {
    SweepKeeps(w, s, 0);
    SweepLeaves(w, s, 0, s.clock);
    SweepConsumes(w, s, 0);
    var (s', swept) := Sweep(w, s);
    SubsetKnown(s.futures, s.armed, s'.armed);
  }

  lemma {:induction false} ArmSound(w: World, s: State)
    requires Sound(s) && s.ruleIndex < |w.rules|
    ensures StepGood(s, ArmRule(w, s))
  {
    hide Sweep, Unresolved;
    var armed := NewArmed(w, s);
    UnresolvedKnown(s, w.rules[s.ruleIndex]);
    var s1 := s.(armed := s.armed + [armed]);
    assert KnowsAll(s.futures, s1.armed);
    SweepSound(w, s1);
    var (s2, swept) := Sweep(w, s1);
    if armed.waits == [] && swept.Routed? {
      assert ArmRule(w, s) == Stop(s2.(armed := []), Suspend(Exchange(swept.pending)));
    }
  }

  lemma {:induction false} FutureAdded(futures: seq<Future>, anonymous: Option<Future>, named: map<string, Future>, armed: seq<Armed>, terminal: Option<Future>, f: Future)
    requires Rooted(futures, anonymous, named, armed, terminal)
    requires f.id == |futures| && f.doneAt <= f.signalAt
    ensures Rooted(futures + [f], Some(f), named, armed, terminal)
    ensures Rooted(futures + [f], anonymous, named[f.tag := f], armed, terminal)
    ensures Rooted(futures + [f], anonymous, named, armed, Some(f))
  {
    assert forall g :: Knows(futures, g) ==> Knows(futures + [f], g);
  }

  lemma {:induction false} EvaluateSound(w: World, s: State)
    requires Sound(s) && s.ruleIndex < |w.rules| && w.rules[s.ruleIndex].action.Evaluate?
    ensures StepGood(s, EvaluateStep(w, s))
  {
    var action := w.rules[s.ruleIndex].action;
    if action.server !in w.transports {
      assert Rooted(s.futures, None, s.namedFutures, s.armed, s.terminal);
    } else if action.speculative || s.armed == [] {
      var f := NewFuture(w, s, action.tag, w.transports[action.server], ApplyRouteOptions(s.options, action.add));
      FutureAdded(s.futures, s.anonymous, s.namedFutures, s.armed, s.terminal, f);
    }
  }

  lemma {:induction false} RouteSound(w: World, s: State)
    requires Sound(s) && s.ruleIndex < |w.rules| && w.rules[s.ruleIndex].action.Route?
    ensures StepGood(s, RouteStep(w, s))
  {
    var action := w.rules[s.ruleIndex].action;
    match ResolveRoute(w, action.server, action.add, s.options) {
      case None =>
      case Some(pair) =>
        var f := NewFuture(w, s, "", pair.0, pair.1);
        FutureAdded(s.futures, s.anonymous, s.namedFutures, s.armed, s.terminal, f);
    }
  }

  lemma {:induction false} RespondSound(w: World, s: State)
    requires Sound(s) && s.ruleIndex < |w.rules| && w.rules[s.ruleIndex].action.Respond?
    ensures StepGood(s, RespondStep(w, s))
  {
  }

  lemma {:induction false} ActSound(w: World, s: State)
    requires Sound(s) && s.ruleIndex < |w.rules|
    ensures StepGood(s, ActStep(w, s))
  {
    match w.rules[s.ruleIndex].action {
      case Evaluate(_, _, _, _) => EvaluateSound(w, s);
      case Route(_, _, _) => RouteSound(w, s);
      case Respond => RespondSound(w, s);
      case _ =>
    }
  }

  lemma {:induction false} MatchSound(w: World, s: State)
    requires Sound(s) && s.ruleIndex < |w.rules|
    ensures StepGood(s, MatchStep(w, s))
  {
    var s1 := Tick(w, s);
    var s2 := CountOnce(s1, WalkMatches(w, s1));
    assert s2 == s.(clock := s2.clock, stats := s2.stats, counted := s2.counted) && s2.clock >= s.clock;
    ActSound(w, s2);
  }

  lemma {:induction false} StepSound(w: World, s: State)
    requires Sound(s) && s.ruleIndex < |w.rules|
    ensures StepGood(s, Step(w, s))
  {
    var s1 := Tick(w, s);
    var r := w.rules[s.ruleIndex];
    if w.disabled(s1.ruleIndex, s1.clock) {
    } else if r.HasBindings() {
      SettleKeeps(s1, 0);
      var s2 := TickWithin(w, Settle(s1));
      assert Sound(s2) && Forward(s, s2);
      if r.race {
        ArmSound(w, s2);
      } else if Unresolved(s2, r) != [] {
        UnresolvedKnown(s2, r);
      } else {
        MatchSound(w, s2);
      }
    } else {
      MatchSound(w, s1);
    }
  }

  lemma {:induction false} WalkSound(w: World, s: State)
    requires Sound(s)
    ensures StepGood(s, Stop(Walk(w, s).0, Walk(w, s).1))
    decreases |w.rules| - s.ruleIndex
  {
    if s.ruleIndex < |w.rules| {
      StepSound(w, s);
      match Step(w, s) {
        case Next(s1) => WalkSound(w, s1);
        case Stop(s1, outcome) =>
      }
    }
  }

  // ------------------------------------------------------------------ waiting

  /** The first completion signal not received yet. */
  function NextSignal(futures: seq<Future>, heard: nat): Option<nat> {
    if futures == [] then None
    else
      var rest := NextSignal(futures[1..], heard);
      var at := futures[0].signalAt;
      if at < heard || (rest.Some? && rest.value < at) then rest else Some(at)
  }

  function CountUnresolved(futures: seq<Future>, clock: nat): nat {
    if futures == [] then 0
    else (if futures[0].Resolved(clock) then 0 else 1) + CountUnresolved(futures[1..], clock)
  }

  function CountUnheard(futures: seq<Future>, heard: nat): nat {
    if futures == [] then 0
    else (if futures[0].signalAt < heard then 0 else 1) + CountUnheard(futures[1..], heard)
  }

  lemma {:induction false} NextSignalIsLeast(futures: seq<Future>, heard: nat)
    ensures forall i :: 0 <= i < |futures| && futures[i].signalAt >= heard ==>
              NextSignal(futures, heard).Some? && NextSignal(futures, heard).value <= futures[i].signalAt
    ensures NextSignal(futures, heard).Some? ==>
              && NextSignal(futures, heard).value >= heard
              && exists i :: 0 <= i < |futures| && futures[i].signalAt == NextSignal(futures, heard).value
  {
    if futures != [] {
      NextSignalIsLeast(futures[1..], heard);
      forall i | 0 <= i < |futures| && futures[i].signalAt >= heard
        ensures NextSignal(futures, heard).Some? && NextSignal(futures, heard).value <= futures[i].signalAt
      {
        if i > 0 {
          assert futures[i] == futures[1..][i - 1];
        }
      }
      if NextSignal(futures, heard).Some? && NextSignal(futures, heard).value != futures[0].signalAt {
        var j :| 0 <= j < |futures[1..]| && futures[1..][j].signalAt == NextSignal(futures[1..], heard).value;
        assert futures[j + 1].signalAt == NextSignal(futures, heard).value;
      }
    }
  }

  lemma {:induction false} FewerUnheard(futures: seq<Future>, heard: nat, at: nat, later: nat, i: nat)
    requires heard <= at < later
    ensures CountUnheard(futures, later) <= CountUnheard(futures, heard)
    ensures i < |futures| && futures[i].signalAt == at ==> CountUnheard(futures, later) < CountUnheard(futures, heard)
  {
    if futures != [] {
      FewerUnheard(futures[1..], heard, at, later, if i > 0 then i - 1 else i);
    }
  }

  /** Time leaves fewer futures unresolved; strictly fewer once a given one is done. */
  lemma {:induction false} FewerUnresolved(futures: seq<Future>, early: nat, late: nat, f: Future)
    requires early <= late
    ensures CountUnresolved(futures, late) <= CountUnresolved(futures, early)
    ensures f in futures && !f.Resolved(early) && f.Resolved(late) ==> CountUnresolved(futures, late) < CountUnresolved(futures, early)
  {
    if futures != [] {
      FewerUnresolved(futures[1..], early, late, f);
      assert f in futures ==> f == futures[0] || f in futures[1..];
    }
  }

  // -------------------------------------------------------------------- drive

  datatype RunOutcome = Finished(decision: Decision) | Hung

  function IdsExcept(futures: seq<Future>, spared: Option<Future>): set<nat> {
    set f | f in futures && Some(f) != spared :: f.id
  }

  function CancelAll(s: State): State {
    s.(cancelled := s.cancelled + IdsExcept(s.futures, None))
  }

  function PendingAt(w: World, p: Pending): nat {
    if p.rule.Some? then p.rule.value else |w.rules|
  }

  /** Cancels every other exchange and takes the pending one to its answer. */
  function FinishPending(w: World, s: State, p: Pending): (State, Decision) {
    var s1 := s.(cancelled := s.cancelled + IdsExcept(s.futures, p.future));
    var at := PendingAt(w, p);
    match p.future
    case Some(f) =>
      if w.cancelled(s1.clock) then (s1, Decision(Result(None, None, p.rule, p.options, false, Some(Cancelled)), at))
      else (s1.(clock := Max(s1.clock, f.doneAt)),
            Decision(Result(View(f.outcome), Some(f.transport), p.rule, p.options, false, ErrorOf(f.outcome)), at))
    case None =>
      var outcome := w.answer(s1.run, at, p.transport, FinalOptions(w, p.options));
      (s1, Decision(Result(View(outcome), Some(p.transport), p.rule, p.options, false, ErrorOf(outcome)), at))
  }

  /**
   Takes the token out of the wake channel. The channel has one slot and a signal that finds it
   full is dropped, so this one token stands for every signal sent up to now.
   */
  function Receive(s: State, at: nat): State {
    s.(clock := Max(s.clock, at), heard := Max(s.clock, at) + 1)
  }

  /** Whether a completion signal is sent at an instant. */
  predicate SentAt(futures: seq<Future>, at: nat) {
    exists f :: f in futures && f.signalAt == at
  }

  /** The slot of the wake channel, empty before `heard`: a send fills it, or finds it full and is dropped. */
  function SlotFull(futures: seq<Future>, heard: nat, clock: nat): bool {
    if clock < heard then false
    else if clock > 0 && SlotFull(futures, heard, clock - 1) then true
    else SentAt(futures, clock)
  }

  /** The slot holds a token exactly when the next signal has been sent. */
  lemma {:induction false} SlotHoldsNextSignal(futures: seq<Future>, heard: nat, clock: nat)
    ensures SlotFull(futures, heard, clock) <==> NextSignal(futures, heard).Some? && NextSignal(futures, heard).value <= clock
  {
    NextSignalIsLeast(futures, heard);
    if heard <= clock {
      if clock > 0 {
        SlotHoldsNextSignal(futures, heard, clock - 1);
      }
      if SentAt(futures, clock) {
        var f :| f in futures && f.signalAt == clock;
        var i :| 0 <= i < |futures| && futures[i] == f;
      }
    }
  }

  /** One receive empties the slot: no signal sent up to now, whichever future sent it, can be received again. */
  lemma {:induction false} ReceiveEmptiesSlot(s: State, at: nat)
    requires NextSignal(s.futures, s.heard) == Some(at)
    ensures
      var t := Receive(s, at);
      && SlotFull(s.futures, s.heard, t.clock)
      && !SlotFull(t.futures, t.heard, t.clock)
      && (NextSignal(t.futures, t.heard).Some? ==> NextSignal(t.futures, t.heard).value > t.clock)
  {
    var t := Receive(s, at);
    SlotHoldsNextSignal(s.futures, s.heard, t.clock);
    NextSignalIsLeast(t.futures, t.heard);
  }

  function StepsLeft(w: World, s: State): nat {
    2 * (if s.ruleIndex < |w.rules| then |w.rules| - s.ruleIndex else 0) + if s.terminal.None? then 1 else 0
  }

  function StillOpen(s: State, suspension: Suspension): nat {
    CountUnresolved(s.futures, s.clock) + if suspension.Await? && suspension.future.Resolved(s.clock) then 1 else 0
  }

  function Blocked(s: State, suspension: Suspension): bool {
    (suspension.Await? && !suspension.future.Resolved(s.clock)) || (suspension.Drain? && s.armed != [])
  }

  /** The resume loop, from a suspension to the final decision. */
  function Drive(w: World, s: State, suspension: Suspension): (State, RunOutcome)
    requires Sound(s) && Suspended(s, suspension)
    decreases StepsLeft(w, s), |s.armed|, StillOpen(s, suspension), CountUnheard(s.futures, s.heard)
  {
    SettledSound(w, s);
    var s1 := Settle(Tick(w, s));
    SweepSound(w, s1);
    var (s2, swept) := Sweep(w, s1);
    match swept
    case Answered(decision) => (CancelAll(s2), Finished(decision))
    case Routed(pending) =>
      var (s3, decision) := FinishPending(w, s2, pending);
      (CancelAll(s3), Finished(decision))
    case Nothing =>
      var s3 := Tick(w, s2);
      if suspension.Exchange? then
        var (s4, decision) := FinishPending(w, s3, suspension.pending);
        (CancelAll(s4), Finished(decision))
      else if Blocked(s3, suspension) then
        if w.cancelled(s3.clock) then (CancelAll(s3), Finished(Decision(ErrorResult(Cancelled), |w.rules|)))
        else
          match NextSignal(s3.futures, s3.heard)
          case None => (s3, Hung)
          case Some(at) =>
            WaitDecreases(w, s, s3, suspension, at);
            Drive(w, Receive(s3, at), suspension)
      else
        WalkSound(w, s3);
        var (s4, outcome) := Walk(w, s3);
        match outcome
        case Commit(decision) => (CancelAll(s4), Finished(decision))
        case Suspend(next) =>
          WalkDecreases(w, s, s3, suspension);
          Drive(w, s4, next)
  }

  lemma {:induction false} SettledSound(w: World, s: State)
    requires Sound(s)
    ensures var s1 := Settle(Tick(w, s));
            && Sound(s1)
            && s1 == s.(clock := s1.clock, settled := s1.settled, namedResponses := s1.namedResponses, namedTransports := s1.namedTransports)
            && s1.clock >= s.clock
  {
    SettleKeeps(Tick(w, s), 0);
  }

  lemma {:induction false} WaitDecreases(w: World, s: State, s3: State, suspension: Suspension, at: nat)
    requires Sound(s) && Suspended(s, suspension) && Blocked(s3, suspension)
    requires s3.futures == s.futures && s3.heard == s.heard && s3.clock >= s.clock && s3.ruleIndex == s.ruleIndex
    requires s3.terminal == s.terminal && s3.anonymous == s.anonymous && s3.namedFutures == s.namedFutures
    requires Sound(s3) && |s3.armed| <= |s.armed|
    requires NextSignal(s3.futures, s3.heard) == Some(at)
    ensures Sound(Receive(s3, at)) && Suspended(Receive(s3, at), suspension)
    ensures var s4 := Receive(s3, at);
            && StepsLeft(w, s4) == StepsLeft(w, s)
            && |s4.armed| <= |s.armed|
            && StillOpen(s4, suspension) <= StillOpen(s, suspension)
            && CountUnheard(s4.futures, s4.heard) < CountUnheard(s.futures, s.heard)
  {
    NextSignalIsLeast(s3.futures, s3.heard);
    var i :| 0 <= i < |s3.futures| && s3.futures[i].signalAt == at;
    FewerUnheard(s.futures, s.heard, at, Max(s3.clock, at) + 1, i);
    if suspension.Await? {
      FewerUnresolved(s.futures, s.clock, Max(s3.clock, at), suspension.future);
    } else if s.futures != [] {
      FewerUnresolved(s.futures, s.clock, Max(s3.clock, at), s.futures[0]);
    }
  }

  lemma {:induction false} WalkDecreases(w: World, s: State, s3: State, suspension: Suspension)
    requires Sound(s) && Suspended(s, suspension) && !suspension.Exchange? && !Blocked(s3, suspension)
    requires s3.futures == s.futures && s3.clock >= s.clock && s3.ruleIndex == s.ruleIndex && s3.terminal == s.terminal
    requires Sound(s3) && |s3.armed| <= |s.armed|
    requires Walk(w, s3).1.Suspend?
    ensures var (s4, outcome) := Walk(w, s3);
            var left, open := StepsLeft(w, s4), StillOpen(s4, outcome.suspension);
            || left < StepsLeft(w, s)
            || (left == StepsLeft(w, s) && |s4.armed| < |s.armed|)
            || (left == StepsLeft(w, s) && |s4.armed| == |s.armed| && open < StillOpen(s, suspension))
  {
    WalkSound(w, s3);
    var (s4, outcome) := Walk(w, s3);
    if s4.ruleIndex == s.ruleIndex && s4.terminal == s.terminal {
      if suspension.Await? {
        FewerUnresolved(s.futures, s.clock, s3.clock, suspension.future);
        FewerUnresolved(s.futures, s3.clock, s4.clock, suspension.future);
      }
    } else if s4.ruleIndex > s.ruleIndex {
      WalkStaysInside(w, s3);
    }
  }

  lemma {:induction false} WalkStaysInside(w: World, s: State)
    ensures Walk(w, s).0.ruleIndex > s.ruleIndex ==> s.ruleIndex < |w.rules|
    decreases |w.rules| - s.ruleIndex
  {
  }

  lemma {:induction false} EmptySweep(w: World, s: State)
    requires s.armed == []
    ensures Sweep(w, s) == (s, Nothing)
  {
  }

  // ----------------------------------------------- no lost wake-up, no leak

  /** Whoever blocks has an unreceived signal ahead of it. */
  lemma {:induction false} BlockedHasSignal(w: World, s: State, s1: State, s3: State, suspension: Suspension)
    requires Sound(s) && Suspended(s, suspension)
    requires Sound(s1) && s1.clock >= s.clock && s1.futures == s.futures && s1.heard == s.heard
    requires Sweep(w, s1).1.Nothing? && s3 == Tick(w, Sweep(w, s1).0)
    requires Blocked(s3, suspension)
    ensures NextSignal(s3.futures, s3.heard).Some?
  {
    SweepSound(w, s1);
    NextSignalIsLeast(s3.futures, s3.heard);
    if suspension.Await? {
      assert s3.futures[suspension.future.id].signalAt >= s3.heard;
    } else {
      var a := s3.armed[0];
      assert !Ready(a, s1.clock);
      var j :| 0 <= j < |a.waits| && !a.waits[j].Resolved(s1.clock);
      assert Knows(s3.futures, a.waits[j]);
      assert s3.futures[a.waits[j].id].signalAt >= s3.heard;
    }
  }

  /**
   No lost wake-up: from every suspension the loop comes to a decision; it never waits
   for a signal that was received before or will never be sent.
   */
  lemma {:induction false} NoLostWakeUp(w: World, s: State, suspension: Suspension)
    requires Sound(s) && Suspended(s, suspension)
    ensures Drive(w, s, suspension).1.Finished?
    decreases StepsLeft(w, s), |s.armed|, StillOpen(s, suspension), CountUnheard(s.futures, s.heard)
  {
    SettledSound(w, s);
    var s1 := Settle(Tick(w, s));
    SweepSound(w, s1);
    var (s2, swept) := Sweep(w, s1);
    var s3 := Tick(w, s2);
    if swept.Nothing? && !suspension.Exchange? {
      if Blocked(s3, suspension) {
        BlockedHasSignal(w, s, s1, s3, suspension);
        if !w.cancelled(s3.clock) {
          var at := NextSignal(s3.futures, s3.heard).value;
          WaitDecreases(w, s, s3, suspension, at);
          NoLostWakeUp(w, Receive(s3, at), suspension);
        }
      } else {
        WalkSound(w, s3);
        var (s4, outcome) := Walk(w, s3);
        if outcome.Suspend? {
          WalkDecreases(w, s, s3, suspension);
          NoLostWakeUp(w, s4, outcome.suspension);
        }
      }
    }
  }

  ghost predicate AllCancelled(s: State) {
    forall i :: 0 <= i < |s.futures| ==> s.futures[i].id in s.cancelled
  }

  /** Every exchange a run started has been cancelled when the run returns. */
  lemma {:induction false} DriveCancelsAll(w: World, s: State, suspension: Suspension)
    requires Sound(s) && Suspended(s, suspension)
    ensures AllCancelled(Drive(w, s, suspension).0)
    decreases StepsLeft(w, s), |s.armed|, StillOpen(s, suspension), CountUnheard(s.futures, s.heard)
  {
    hide Settle, Sweep, Walk, Rooted;
    NoLostWakeUp(w, s, suspension);
    SettledSound(w, s);
    var s1 := Settle(Tick(w, s));
    SweepSound(w, s1);
    var (s2, swept) := Sweep(w, s1);
    var s3 := Tick(w, s2);
    if swept.Nothing? && !suspension.Exchange? {
      if Blocked(s3, suspension) {
        if !w.cancelled(s3.clock) && NextSignal(s3.futures, s3.heard).Some? {
          var at := NextSignal(s3.futures, s3.heard).value;
          WaitDecreases(w, s, s3, suspension, at);
          DriveCancelsAll(w, Receive(s3, at), suspension);
        }
      } else {
        WalkSound(w, s3);
        var (s4, outcome) := Walk(w, s3);
        if outcome.Suspend? {
          WalkDecreases(w, s, s3, suspension);
          DriveCancelsAll(w, s4, outcome.suspension);
        }
      }
    }
  }

  /** A caller that has given up is not made to wait for another completion. */
  lemma {:induction false} DriveDoesNotWait(w: World, s: State, suspension: Suspension, since: nat)
    requires Sound(s) && Suspended(s, suspension)
    requires since <= s.clock && forall t :: since <= t ==> w.cancelled(t)
    ensures Drive(w, s, suspension).0.heard == s.heard
    decreases StepsLeft(w, s), |s.armed|, StillOpen(s, suspension), CountUnheard(s.futures, s.heard)
  {
    hide Settle, Sweep, Walk, Rooted;
    NoLostWakeUp(w, s, suspension);
    SettledSound(w, s);
    var s1 := Settle(Tick(w, s));
    SweepSound(w, s1);
    var (s2, swept) := Sweep(w, s1);
    var s3 := Tick(w, s2);
    if swept.Nothing? && !suspension.Exchange? && !Blocked(s3, suspension) {
      WalkSound(w, s3);
      var (s4, outcome) := Walk(w, s3);
      if outcome.Suspend? {
        WalkDecreases(w, s, s3, suspension);
        DriveDoesNotWait(w, s4, outcome.suspension, since);
      }
    }
  }

  /** An exchange begun ahead of time that is given up ends in an error, and keeps its rule, so that the rule's fallback may follow. */
  lemma {:induction false} GivingUpKeepsTheRule(w: World, s: State, p: Pending)
    requires p.future.Some?
    ensures
      var result := FinishPending(w, s, p).1.result;
      && result.rule == p.rule && result.options == p.options && !result.rejected
      && (w.cancelled(s.clock) ==> result.response.None? && result.transport.None? && result.err == Some(Cancelled))
      && (!w.cancelled(s.clock) ==> result.response == View(p.future.value.outcome) && result.err == ErrorOf(p.future.value.outcome))
  {
  }

  // ------------------------------------------------- one run, both drivers

  /** runDNSRulesFrom up to the decision: walk, then resume if the walk was suspended. */
  function Run(w: World, s: State): (State, RunOutcome)
    requires Sound(s)
  {
    WalkSound(w, s);
    var (s1, outcome) := Walk(w, s);
    match outcome
    case Commit(decision) => (CancelAll(s1), Finished(decision))
    case Suspend(suspension) => Drive(w, s1, suspension)
  }

  lemma {:induction false} RunFinishes(w: World, s: State)
    requires Sound(s)
    ensures Run(w, s).1.Finished?
    ensures AllCancelled(Run(w, s).0)
  {
    WalkSound(w, s);
    var (s1, outcome) := Walk(w, s);
    if outcome.Suspend? {
      NoLostWakeUp(w, s1, outcome.suspension);
      DriveCancelsAll(w, s1, outcome.suspension);
    }
  }

  /** A run whose caller has given up before it starts receives no completion signal. */
  lemma {:induction false} GivenUpNeverWaits(w: World, s: State, since: nat)
    requires Sound(s) && since <= s.clock && forall t :: since <= t ==> w.cancelled(t)
    ensures Run(w, s).0.heard == s.heard
  {
    WalkSound(w, s);
    var (s1, outcome) := Walk(w, s);
    if outcome.Suspend? {
      DriveDoesNotWait(w, s1, outcome.suspension, since);
    }
  }

  /** The asynchronous driver: a plain pending exchange is sent at once, without entering the loop. */
  function RunAsync(w: World, s: State): (State, RunOutcome)
    requires Sound(s)
  {
    WalkSound(w, s);
    var (s1, outcome) := Walk(w, s);
    match outcome
    case Commit(decision) => (CancelAll(s1), Finished(decision))
    case Suspend(suspension) =>
      if suspension.Exchange? && suspension.pending.future.None? then
        var p := suspension.pending;
        var reply := w.answer(s1.run, PendingAt(w, p), p.transport, FinalOptions(w, p.options));
        (CancelAll(s1), Finished(Decision(Result(View(reply), Some(p.transport), p.rule, p.options, false, ErrorOf(reply)), PendingAt(w, p))))
      else Drive(w, s1, suspension)
  }

  /** Both drivers come to the same decision and leave the same exchanges cancelled. */
  lemma {:induction false} AsyncEqualsSync(w: World, s: State)
    requires Sound(s)
    ensures RunAsync(w, s).1 == Run(w, s).1
    ensures RunAsync(w, s).0.cancelled == Run(w, s).0.cancelled
  {
    WalkSound(w, s);
    var (s1, outcome) := Walk(w, s);
    if outcome.Suspend? && outcome.suspension.Exchange? && outcome.suspension.pending.future.None? {
      SettledSound(w, s1);
      var s2 := Settle(Tick(w, s1));
      assert s2.armed == [];
      assert Sweep(w, s2) == (s2, Nothing);
    }
  }
}
