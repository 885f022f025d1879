/**
 What the calls of the service achieve, over every interleaving: a start that is let in
 ends with its instance current and started, or with nothing, and which of the two is
 decided by how creating and starting it went and whether it was interrupted.
 */
module LifecycleRuns {
  import opened Dns
  import opened Lifecycle

  // ------------------------------------------------------------- points of a history

  /** The state before event `k`. */
  ghost predicate Reached(events: seq<Event>, k: nat) {
    k <= |events| && History(events[..k]).Some?
  }

  ghost function Before(events: seq<Event>, k: nat): Service
    requires Reached(events, k)
  {
    History(events[..k]).value
  }

  /** Before event `k` the caller stands at the phase. */
  ghost predicate Stands(events: seq<Event>, k: nat, caller: nat, p: Phase) {
    Reached(events, k) && caller in Before(events, k).callers && Before(events, k).callers[caller] == p
  }

  /** Event `k` is the caller going on from that phase, with the outcome `ok`. */
  ghost predicate Goes(events: seq<Event>, k: nat, caller: nat, p: Phase, ok: bool) {
    k < |events| && events[k] == Proceed(caller, ok) && Stands(events, k, caller, p)
  }

  /** Some caller's start of the instance returned without an error. */
  ghost predicate RanWell(events: seq<Event>, i: nat) {
    exists k, caller :: 0 <= k < |events| && Goes(events, k, caller, StartRunning(i), true)
  }

  /** The caller created an instance, at event `from` or later. */
  ghost predicate Made(events: seq<Event>, from: nat, caller: nat) {
    exists k :: from <= k < |events| && Goes(events, k, caller, StartCreating, true)
  }

  lemma {:induction false} PrefixesReached(events: seq<Event>, k: nat)
    requires History(events).Some? && k <= |events|
    ensures Reached(events, k)
    ensures k < |events| ==> Reached(events, k + 1) && Happen(Before(events, k), events[k]) == Some(Before(events, k + 1))
    decreases |events| - k
  {
    if k < |events| {
      PrefixesReached(events, k + 1);
      assert events[..k + 1][..k] == events[..k];
    } else {
      assert events[..k] == events;
    }
  }

  lemma {:induction false} SamePoint(events: seq<Event>, e: Event, k: nat, caller: nat, p: Phase, ok: bool)
    requires k < |events|
    ensures Goes(events + [e], k, caller, p, ok) <==> Goes(events, k, caller, p, ok)
  {
    assert (events + [e])[..k] == events[..k];
  }

  lemma {:induction false} LastPoint(events: seq<Event>, e: Event, caller: nat, p: Phase, ok: bool)
    requires History(events).Some?
    ensures Goes(events + [e], |events|, caller, p, ok) <==>
              e == Proceed(caller, ok) && caller in History(events).value.callers && History(events).value.callers[caller] == p
  {
    assert (events + [e])[..|events|] == events;
  }

  lemma {:induction false} RanWellAfter(events: seq<Event>, e: Event, i: nat)
    requires History(events).Some?
    ensures RanWell(events + [e], i) <==> RanWell(events, i) || RunsWell(History(events).value, e, i)
  {
    hide Goes;
    var more := events + [e];
    if RanWell(events, i) {
      var k, caller :| 0 <= k < |events| && Goes(events, k, caller, StartRunning(i), true);
      SamePoint(events, e, k, caller, StartRunning(i), true);
    }
    if RunsWell(History(events).value, e, i) {
      LastPoint(events, e, e.caller, StartRunning(i), true);
      assert Goes(more, |events|, e.caller, StartRunning(i), true);
    }
    if RanWell(more, i) {
      var k, caller :| 0 <= k < |more| && Goes(more, k, caller, StartRunning(i), true);
      if k < |events| {
        SamePoint(events, e, k, caller, StartRunning(i), true);
      } else {
        LastPoint(events, e, caller, StartRunning(i), true);
      }
    }
  }

  ghost predicate RunsWell(s: Service, e: Event, i: nat) {
    e.Proceed? && e.ok && e.caller in s.callers && s.callers[e.caller] == StartRunning(i)
  }

  ghost predicate Makes(s: Service, e: Event, caller: nat) {
    e == Proceed(caller, true) && caller in s.callers && s.callers[caller] == StartCreating
  }

  lemma {:induction false} MadeAfter(events: seq<Event>, e: Event, from: nat, caller: nat)
    requires History(events).Some? && from <= |events|
    ensures Made(events + [e], from, caller) <==> Made(events, from, caller) || Makes(History(events).value, e, caller)
  {
    hide Goes;
    var more := events + [e];
    if Made(events, from, caller) {
      var k :| from <= k < |events| && Goes(events, k, caller, StartCreating, true);
      SamePoint(events, e, k, caller, StartCreating, true);
    }
    LastPoint(events, e, caller, StartCreating, true);
    if Makes(History(events).value, e, caller) {
      assert Goes(more, |events|, caller, StartCreating, true);
    }
    if Made(more, from, caller) {
      var k :| from <= k < |more| && Goes(more, k, caller, StartCreating, true);
      if k < |events| {
        SamePoint(events, e, k, caller, StartCreating, true);
      }
    }
  }

  // --------------------------------------------------------------- what is published

  /** The instance is being started by the holder of the lock. */
  ghost predicate UnderWay(s: Service, i: nat) {
    && s.lock.Some? && s.lock.value in s.callers
    && var p := s.callers[s.lock.value];
       p == StartCreated(i) || p == StartRunning(i) || p == StartRan(i, true) || p == StartRan(i, false)
  }

  /** Whether the start of an instance went well, by how far it has come. */
  ghost predicate Accounted(s: Service, ran: bool, i: nat) {
    && (i >= s.created ==> !ran)
    && (i < s.created && !UnderWay(s, i) ==> (i in s.published <==> ran && i !in s.interrupted))
    && (i < s.created && UnderWay(s, i) ==> (ran <==> s.callers[s.lock.value] == StartRan(i, true)))
  }

  ghost predicate Named(s: Service) {
    s.lock.Some? && s.lock.value in s.callers ==>
      match s.callers[s.lock.value]
      case StartCreated(i) => i < s.created
      case StartRunning(i) => i < s.created
      case StartRan(i, _) => i < s.created
      case _ => true
  }

  lemma {:induction false} InvNames(s: Service)
    requires Inv(s)
    ensures s.lock.Some? ==> s.lock.value in s.callers
    ensures Named(s)
  {
    if s.lock.Some? {
      var p := s.callers[s.lock.value];
      if p.StartCreated? || p.StartRunning? || p.StartRan? {
        assert p.instance in s.live;
      }
    }
  }

  lemma {:induction false} HolderAccounts(s: Service, caller: nat, ok: bool, ran: bool, i: nat)
    requires Inv(s) && Accounted(s, ran, i) && s.lock == Some(caller) && caller in s.callers && Step(s, caller, ok).Some?
    ensures Accounted(Step(s, caller, ok).value, ran || RunsWell(s, Proceed(caller, ok), i), i)
  {
    InvNames(s);
    var p := s.callers[caller];
    if p.StartCreating? || p.StartCreated? || p.StartRunning? || p.StartRan? {
      HolderStarts(s, caller, ok, ran, i);
    }
  }

  lemma {:induction false} HolderStarts(s: Service, caller: nat, ok: bool, ran: bool, i: nat)
    requires Inv(s) && Accounted(s, ran, i) && s.lock == Some(caller) && caller in s.callers && Step(s, caller, ok).Some?
    requires var p := s.callers[caller]; p.StartCreating? || p.StartCreated? || p.StartRunning? || p.StartRan?
    ensures Accounted(Step(s, caller, ok).value, ran || RunsWell(s, Proceed(caller, ok), i), i)
  {
    InvNames(s);
  }

  lemma {:induction false} OthersAccount(s: Service, e: Event, ran: bool, i: nat)
    requires Inv(s) && Accounted(s, ran, i) && Happen(s, e).Some? && (e.Proceed? ==> s.lock != Some(e.caller))
    ensures !RunsWell(s, e, i) && Accounted(Happen(s, e).value, ran, i)
  {
    InvNames(s);
  }

  lemma {:induction false} HistoryAccounts(events: seq<Event>, i: nat)
    requires History(events).Some?
    ensures Accounted(History(events).value, RanWell(events, i), i)
  {
    hide Happen, Inv, RanWell, RunsWell, Accounted;
    if events == [] {
      NothingRan(i);
    } else {
      var before, e := events[..|events| - 1], events[|events| - 1];
      assert before + [e] == events;
      HistoryKeeps(before);
      HistoryAccounts(before, i);
      RanWellAfter(before, e, i);
      EventAccounts(History(before).value, e, RanWell(before, i), i);
    }
  }

  lemma {:induction false} NothingRan(i: nat)
    ensures Accounted(INITIAL, RanWell([], i), i)
  {
  }

  lemma {:induction false} EventAccounts(s: Service, e: Event, ran: bool, i: nat)
    requires Inv(s) && Accounted(s, ran, i) && Happen(s, e).Some?
    ensures Accounted(Happen(s, e).value, ran || RunsWell(s, e, i), i)
  {
    hide Inv, Step, Accounted, RunsWell;
    if e.Proceed? && s.lock == Some(e.caller) {
      HolderAccounts(s, e.caller, e.ok, ran, i);
    } else {
      OthersAccount(s, e, ran, i);
    }
  }

  /**
   Over every interleaving, an instance whose start is over is published if and only if that
   start went well and was not interrupted.
   */
  lemma {:induction false} PublishedExactlyWhen(events: seq<Event>, i: nat)
    requires History(events).Some? && i < History(events).value.created && !UnderWay(History(events).value, i)
    ensures i in History(events).value.published <==> RanWell(events, i) && i !in History(events).value.interrupted
  {
    HistoryAccounts(events, i);
  }

  // ------------------------------------------------------------------ whole calls

  /** What others do while a caller holds the lock: they may mark its start and set an error, and nothing else. */
  lemma {:induction false} OthersKeep(s: Service, e: Event, caller: nat)
    requires Inv(s) && s.lock == Some(caller) && Happen(s, e).Some? && (e.Proceed? ==> e.caller != caller)
    ensures
      var t := Happen(s, e).value;
      && caller in s.callers && caller in t.callers && t.callers[caller] == s.callers[caller]
      && t.lock == s.lock && t.instance == s.instance && t.live == s.live && t.created == s.created && t.published == s.published
      && s.interrupted <= t.interrupted
      && (t.status == s.status || t.status == Fatal)
    ensures forall i :: !RunsWell(s, e, i)
  {
    InvNames(s);
  }

  /** How far a start let in from state `s` has come at state `t`, and what it has brought about. */
  ghost predicate Progress(s: Service, t: Service, caller: nat, made: bool, ran: bool) {
    && caller in t.callers
    && t.lock == Some(caller)
    && match t.callers[caller]
       case StartClosingPrevious(p) => !made && !ran && t.created == s.created && s.instance == Some(p)
       case StartBeginning => !made && !ran && t.created == s.created
       case StartCreating => !made && !ran && t.created == s.created
       case StartCreateFailed => !made && !ran && t.created == s.created
       case StartCreated(i) => made && !ran && i == s.created && t.created == i + 1
       case StartRunning(i) => made && !ran && i == s.created && t.created == i + 1
       case StartRan(i, ok) => made && ran == ok && i == s.created && t.created == i + 1
       case StartAborting(i) =>
         && made && i == s.created && t.created == i + 1 && i !in t.published
         && (i in t.interrupted || (!ran && t.status == Fatal))
       case Leaving => Ended(s, t, made, ran)
       case _ => false
  }

  /** What a start that was let in has brought about when it is over. */
  ghost predicate Ended(s: Service, t: Service, made: bool, ran: bool) {
    var i := s.created;
    && t.created == (if made then i + 1 else i)
    && (i in t.published <==> made && ran && i !in t.interrupted)
    && (if i in t.published then t.status == Started && t.instance == Some(i) && t.live == {i}
        else t.instance.None? && t.live == {})
    && (i !in t.published && i !in t.interrupted ==> t.status == Fatal)
  }

  lemma {:induction false} ProgressOn(s: Service, t: Service, caller: nat, ok: bool, made: bool, ran: bool)
    requires Inv(t) && Progress(s, t, caller, made, ran) && Step(t, caller, ok).Some? && !t.callers[caller].Leaving?
    ensures Progress(s, Step(t, caller, ok).value, caller, made || Makes(t, Proceed(caller, ok), caller),
                     ran || RunsWell(t, Proceed(caller, ok), s.created))
  {
  }

  lemma {:induction false} ProgressAside(s: Service, t: Service, e: Event, caller: nat, made: bool, ran: bool)
    requires Inv(t) && Progress(s, t, caller, made, ran) && Happen(t, e).Some? && !t.callers[caller].Leaving?
    requires e.Proceed? ==> e.caller != caller
    ensures Progress(s, Happen(t, e).value, caller, made || Makes(t, e, caller), ran || RunsWell(t, e, s.created))
  {
    hide Inv, Happen;
    OthersKeep(t, e, caller);
  }

  /** A start that is let in: the caller has the lock and the service is not shut down. */
  ghost predicate LetIn(events: seq<Event>, from: nat, caller: nat) {
    exists ok :: Goes(events, from, caller, StartEntered, ok) && !Before(events, from).closed
  }

  /** From event `from` to the end of the history the caller is within its call, and has just come to its end. */
  ghost predicate JustOver(events: seq<Event>, from: nat, caller: nat) {
    && Stands(events, |events|, caller, Leaving)
    && forall k :: from < k < |events| ==> !Stands(events, k, caller, Leaving)
  }

  lemma {:induction false} FirstProgress(s: Service, caller: nat, ok: bool)
    requires Inv(s) && caller in s.callers && s.callers[caller] == StartEntered && !s.closed
    ensures Progress(s, Step(s, caller, ok).value, caller, false, false)
  {
  }

  lemma {:induction false} StartAt(events: seq<Event>, from: nat, caller: nat, k: nat)
    requires History(events).Some? && LetIn(events, from, caller) && from < k <= |events|
    requires forall l :: from < l < k ==> !Stands(events, l, caller, Leaving)
    ensures Reached(events, k)
    ensures Progress(Before(events, from), Before(events, k), caller, Made(events[..k], from, caller), RanWell(events[..k], Before(events, from).created))
    decreases k
  {
    hide Happen, Inv, RanWell, RunsWell, Makes, Made, Accounted, Progress;
    var s := Before(events, from);
    var before, e := events[..k - 1], events[k - 1];
    PrefixesReached(events, k - 1);
    assert events[..k] == before + [e];
    HistoryKeeps(before);
    RanWellAfter(before, e, s.created);
    MadeAfter(before, e, from, caller);
    if k == from + 1 {
      StartsWithNothing(before, from, caller, e);
      LetInSteps(events, from, caller);
    } else {
      StartAt(events, from, caller, k - 1);
      assert !Stands(events, k - 1, caller, Leaving);
      ProgressOver(s, History(before).value, e, caller, Made(before, from, caller), RanWell(before, s.created));
    }
  }

  lemma {:induction false} ProgressOver(s: Service, t: Service, e: Event, caller: nat, made: bool, ran: bool)
    requires Inv(t) && Progress(s, t, caller, made, ran) && Happen(t, e).Some?
    requires caller in t.callers ==> !t.callers[caller].Leaving?
    ensures Progress(s, Happen(t, e).value, caller, made || Makes(t, e, caller), ran || RunsWell(t, e, s.created))
  {
    hide Inv, Step;
    if e.Proceed? && e.caller == caller {
      ProgressOn(s, t, caller, e.ok, made, ran);
    } else {
      ProgressAside(s, t, e, caller, made, ran);
    }
  }

  lemma {:induction false} LetInSteps(events: seq<Event>, from: nat, caller: nat)
    requires History(events).Some? && LetIn(events, from, caller)
    ensures Reached(events, from + 1)
    ensures Progress(Before(events, from), Before(events, from + 1), caller, false, false)
  {
    hide Step, Inv, Progress;
    PrefixesReached(events, from);
    HistoryKeeps(events[..from]);
    var ok :| Goes(events, from, caller, StartEntered, ok) && !Before(events, from).closed;
    FirstProgress(Before(events, from), caller, ok);
  }

  lemma {:induction false} StartsWithNothing(before: seq<Event>, from: nat, caller: nat, e: Event)
    requires History(before).Some? && |before| == from
    requires e.Proceed? && e.caller == caller && caller in History(before).value.callers && History(before).value.callers[caller] == StartEntered
    ensures !Made(before, from, caller) && !Makes(History(before).value, e, caller)
    ensures !RanWell(before, History(before).value.created) && !RunsWell(History(before).value, e, History(before).value.created)
  {
    HistoryAccounts(before, History(before).value.created);
  }

  /**
   Over every interleaving, a start that is let in closes the instance before it, and when it
   is over: if the instance was created, its start went well and it was not interrupted, then it
   is the one open instance, current, published and started; otherwise nothing is open, and the
   service has failed unless the start was interrupted.
   */
  lemma {:induction false} StartAchieves(events: seq<Event>, from: nat, caller: nat)
    requires History(events).Some? && LetIn(events, from, caller) && from < |events| && JustOver(events, from, caller)
    ensures Ended(Before(events, from), History(events).value, Made(events, from, caller), RanWell(events, Before(events, from).created))
    ensures Before(events, from).instance.Some? ==> Before(events, from).instance.value !in History(events).value.live
  {
    hide Happen, RanWell, Made;
    StartAt(events, from, caller, |events|);
    assert events[..|events|] == events;
    HistoryKeeps(events[..from]);
    PreviousIsOlder(Before(events, from));
  }

  lemma {:induction false} PreviousIsOlder(s: Service)
    requires Inv(s)
    ensures s.lock.Some? && s.lock.value in s.callers && s.callers[s.lock.value].StartEntered? && s.instance.Some? ==> s.instance.value < s.created
  {
    if s.instance.Some? {
      assert s.live == Current(s) ==> s.instance.value in s.live;
    }
  }

  // ----------------------------------------------------------------------- closing

  /** How far a close has come that found something to close. */
  ghost predicate Closing(t: Service, caller: nat) {
    && caller in t.callers
    && t.lock == Some(caller)
    && (t.callers[caller].CloseClosing? || t.callers[caller].CloseClosed? || (t.callers[caller].Leaving? && Closed(t)))
  }

  ghost predicate Closed(t: Service) {
    t.status == Idle && t.instance.None? && t.live == {}
  }

  ghost predicate SomethingToClose(s: Service) {
    s.instance.Some? || s.status == Starting || s.status == Started
  }

  lemma {:induction false} FirstClosing(s: Service, caller: nat, ok: bool)
    requires Inv(s) && caller in s.callers && s.callers[caller] == CloseEntered
    ensures if SomethingToClose(s) then Closing(Step(s, caller, ok).value, caller)
            else Step(s, caller, ok) == Some(s.(callers := s.callers[caller := Leaving]))
  {
  }

  lemma {:induction false} ClosingOver(t: Service, e: Event, caller: nat)
    requires Inv(t) && Closing(t, caller) && Happen(t, e).Some? && (caller in t.callers ==> !t.callers[caller].Leaving?)
    ensures Closing(Happen(t, e).value, caller)
  {
    if !e.Proceed? || e.caller != caller {
      OthersKeep(t, e, caller);
    }
  }

  lemma {:induction false} ClosingAt(events: seq<Event>, from: nat, caller: nat, ok: bool, k: nat)
    requires History(events).Some? && Goes(events, from, caller, CloseEntered, ok) && SomethingToClose(Before(events, from)) && from < k <= |events|
    requires forall l :: from < l < k ==> !Stands(events, l, caller, Leaving)
    ensures Reached(events, k) && Closing(Before(events, k), caller)
    decreases k
  {
    hide Happen, Inv, Closing;
    PrefixesReached(events, k - 1);
    HistoryKeeps(events[..k - 1]);
    if k == from + 1 {
      FirstClosing(Before(events, from), caller, ok);
      EnteringIsAStep(Before(events, from), caller, ok);
    } else {
      ClosingAt(events, from, caller, ok, k - 1);
      assert !Stands(events, k - 1, caller, Leaving);
      ClosingOver(Before(events, k - 1), events[k - 1], caller);
    }
  }

  lemma {:induction false} EnteringIsAStep(s: Service, caller: nat, ok: bool)
    requires caller in s.callers
    ensures Happen(s, Proceed(caller, ok)) == Step(s, caller, ok)
  {
  }

  /** Over every interleaving, a close that finds something to close ends with nothing open and the service idle. */
  lemma {:induction false} CloseAchieves(events: seq<Event>, from: nat, caller: nat, ok: bool)
    requires History(events).Some? && Goes(events, from, caller, CloseEntered, ok) && SomethingToClose(Before(events, from))
    requires from < |events| && JustOver(events, from, caller)
    ensures Closed(History(events).value)
  {
    hide Happen;
    ClosingAt(events, from, caller, ok, |events|);
    assert events[..|events|] == events;
  }

  // ------------------------------------------------------------- interruption and refusal

  lemma {:induction false} InterruptedStays(s: Service, e: Event, i: nat)
    requires Happen(s, e).Some? && i in s.interrupted
    ensures i in Happen(s, e).value.interrupted
  {
  }

  lemma {:induction false} InterruptMarks(s: Service, caller: nat, ok: bool, i: nat)
    requires caller in s.callers && (s.callers[caller] == StartCalled || s.callers[caller] == CloseCalled)
    requires s.status == Starting && s.instance == Some(i)
    ensures i in Happen(s, Proceed(caller, ok)).value.interrupted
  {
  }

  /** Over every interleaving, a call of start or close while an instance is starting keeps that instance from ever being published. */
  lemma {:induction false} CallsInterrupt(events: seq<Event>, k: nat, caller: nat, ok: bool, i: nat)
    requires History(events).Some? && (Goes(events, k, caller, StartCalled, ok) || Goes(events, k, caller, CloseCalled, ok))
    requires Before(events, k).status == Starting && Before(events, k).instance == Some(i)
    ensures i in History(events).value.interrupted && i !in History(events).value.published
    decreases |events|
  {
    hide Happen, Inv;
    var last := |events| - 1;
    var before := events[..last];
    PrefixesReached(events, last);
    assert events[..|events|] == events;
    if k < last {
      assert before[..k] == events[..k];
      CallsInterrupt(before, k, caller, ok, i);
      InterruptedStays(Before(events, last), events[last], i);
    } else {
      InterruptMarks(Before(events, k), caller, ok, i);
    }
    EveryInterleaving(events);
  }

  /** A start that finds the service shut down leaves it as it is. */
  lemma {:induction false} RefusedWhenShut(s: Service, caller: nat, ok: bool)
    requires caller in s.callers && s.callers[caller] == StartEntered && s.closed
    ensures Step(s, caller, ok) == Some(s.(callers := s.callers[caller := Leaving]))
  {
  }

  // ------------------------------------------------------------------- every call ends

  /** The steps a caller has yet to make before it has returned. */
  function Remaining(p: Phase): nat {
    match p
    case StartCalled => 11
    case StartWaiting => 10
    case StartEntered => 9
    case StartClosingPrevious(_) => 8
    case StartBeginning => 7
    case StartCreating => 6
    case StartCreateFailed => 2
    case StartCreated(_) => 5
    case StartRunning(_) => 4
    case StartRan(_, _) => 3
    case StartAborting(_) => 2
    case CloseCalled => 6
    case CloseWaiting => 5
    case CloseEntered => 4
    case CloseClosing(_) => 3
    case CloseClosed => 2
    case Leaving => 1
  }

  /** The caller has returned, or has come nearer to it. */
  ghost predicate Nearer(s: Service, t: Service, caller: nat) {
    caller in s.callers && (caller !in t.callers || Remaining(t.callers[caller]) < Remaining(s.callers[caller]))
  }

  lemma {:induction false} StartRunsOut(s: Service, caller: nat, ok: bool)
    requires caller in s.callers && Step(s, caller, ok).Some? && (OpensStart(s.callers[caller]) || EndsStart(s.callers[caller]))
    ensures Nearer(s, Step(s, caller, ok).value, caller)
  {
  }

  lemma {:induction false} RestRunsOut(s: Service, caller: nat, ok: bool)
    requires caller in s.callers && Step(s, caller, ok).Some? && !OpensStart(s.callers[caller]) && !EndsStart(s.callers[caller])
    ensures Nearer(s, Step(s, caller, ok).value, caller)
  {
    hide Interrupt;
  }

  lemma {:induction false} StepMovesOne(s: Service, caller: nat, ok: bool, other: nat)
    requires caller in s.callers && Step(s, caller, ok).Some? && other in s.callers && other != caller
    ensures other in Step(s, caller, ok).value.callers && Step(s, caller, ok).value.callers[other] == s.callers[other]
  {
  }

  /** Each step of a caller brings it nearer to its return, and no one else moves it. */
  lemma {:induction false} StepsRunOut(s: Service, e: Event, caller: nat)
    requires caller in s.callers && Happen(s, e).Some?
    ensures
      var t := Happen(s, e).value;
      if e.Proceed? && e.caller == caller
      then Nearer(s, t, caller)
      else caller in t.callers && t.callers[caller] == s.callers[caller]
  {
    hide Step, Remaining;
    if e.Proceed? {
      if e.caller == caller {
        if OpensStart(s.callers[caller]) || EndsStart(s.callers[caller]) {
          StartRunsOut(s, caller, e.ok);
        } else {
          RestRunsOut(s, caller, e.ok);
        }
      } else {
        StepMovesOne(s, e.caller, e.ok, caller);
      }
    }
  }

  /** Over every interleaving, as long as a call is under way some caller can go on: the lock's holder, or anyone when it is free. */
  lemma {:induction false} SomeoneCanGoOn(events: seq<Event>, caller: nat, ok: bool)
    requires History(events).Some? && caller in History(events).value.callers
    ensures
      var s := History(events).value;
      if s.lock.Some? then Happen(s, Proceed(s.lock.value, ok)).Some? else Happen(s, Proceed(caller, ok)).Some?
  {
    HistoryKeeps(events);
    InvNames(History(events).value);
  }
}
