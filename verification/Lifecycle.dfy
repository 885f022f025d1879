/**
 Starting, reloading and closing the service. Any number of callers run the operations
 at once; a lifecycle mutex serialises them from the point where they have interrupted a
 start in progress, and each of their critical sections is one step here.
 */
module Lifecycle {
  import opened Dns

  datatype Status = Idle | Starting | Started | Stopping | Fatal

  /** How far a caller has come. The phases after the lock was taken are the ones that hold it. */
  datatype Phase =
    | StartCalled
    | StartWaiting
    | StartEntered
    | StartClosingPrevious(previous: nat)
    | StartBeginning
    | StartCreating
    | StartCreateFailed
    | StartCreated(instance: nat)
    | StartRunning(instance: nat)
    | StartRan(instance: nat, ok: bool)
    | StartAborting(instance: nat)
    | CloseCalled
    | CloseWaiting
    | CloseEntered
    | CloseClosing(current: Option<nat>)
    | CloseClosed
    | Leaving

  datatype Service = Service(
    status: Status,
    instance: Option<nat>,
    startInterrupted: bool,
    closed: bool,
    lock: Option<nat>,
    callers: map<nat, Phase>,
    live: set<nat>,          // instances created and not closed
    created: nat,            // instances created so far
    interrupted: set<nat>,   // instances whose start was interrupted
    published: set<nat>)     // instances published as started

  const INITIAL := Service(Idle, None, false, false, None, map[], {}, 0, {}, {})

  /** What may happen next: a call, a step of a caller (with the outcome of creating or starting an instance), or an outside event. */
  datatype Event =
    | CallStart(caller: nat)
    | CallClose(caller: nat)
    | Proceed(caller: nat, ok: bool)
    | SetError
    | CloseAll

  predicate Holding(p: Phase) {
    !p.StartCalled? && !p.StartWaiting? && !p.CloseCalled? && !p.CloseWaiting?
  }

  function At(s: Service, caller: nat, p: Phase): Service {
    s.(callers := s.callers[caller := p])
  }

  /** interruptStart: marks the start in progress, if there is one, and cancels its instance. */
  function Interrupt(s: Service): Service {
    if s.status == Starting && s.instance.Some?
    then s.(startInterrupted := true, interrupted := s.interrupted + {s.instance.value})
    else s
  }

  function Step(s: Service, caller: nat, ok: bool): Option<Service>
    requires caller in s.callers
  {
    match s.callers[caller]
    case StartCalled => Some(At(Interrupt(s), caller, StartWaiting))
    case CloseCalled => Some(At(Interrupt(s), caller, CloseWaiting))
    case StartWaiting => if s.lock.Some? then None else Some(At(s, caller, StartEntered).(lock := Some(caller)))
    case CloseWaiting => if s.lock.Some? then None else Some(At(s, caller, CloseEntered).(lock := Some(caller)))
    case StartEntered =>
      if s.closed then Some(At(s, caller, Leaving))
      else if s.instance.Some? then Some(At(s, caller, StartClosingPrevious(s.instance.value)).(instance := None, status := Stopping))
      else Some(At(s, caller, StartCreating).(startInterrupted := false, status := Starting))
    case StartClosingPrevious(p) => Some(At(s, caller, StartBeginning).(live := s.live - {p}))
    case StartBeginning => Some(At(s, caller, StartCreating).(startInterrupted := false, status := Starting))
    case StartCreating =>
      if ok then Some(At(s, caller, StartCreated(s.created)).(live := s.live + {s.created}, created := s.created + 1))
      else Some(At(s, caller, StartCreateFailed))
    case StartCreateFailed => Some(At(s, caller, Leaving).(status := Fatal))
    case StartCreated(i) => Some(At(s, caller, StartRunning(i)).(instance := Some(i)))
    case StartRunning(i) => Some(At(s, caller, StartRan(i, ok)))
    case StartRan(i, started) =>
      if s.startInterrupted then Some(At(s, caller, StartAborting(i)).(startInterrupted := false, instance := None))
      else if !started then Some(At(s, caller, StartAborting(i)).(instance := None, status := Fatal))
      else Some(At(s, caller, Leaving).(status := Started, published := s.published + {i}))
    case StartAborting(i) => Some(At(s, caller, Leaving).(live := s.live - {i}))
    case CloseEntered =>
      if s.instance.None? && s.status != Starting && s.status != Started then Some(At(s, caller, Leaving))
      else Some(At(s, caller, CloseClosing(s.instance)).(instance := None, status := Stopping))
    case CloseClosing(p) =>
      Some(At(s, caller, CloseClosed).(live := if p.Some? then s.live - {p.value} else s.live))
    case CloseClosed => Some(At(s, caller, Leaving).(status := Idle))
    case Leaving => Some(s.(lock := None, callers := s.callers - {caller}))
  }

  function Happen(s: Service, e: Event): Option<Service> {
    match e
    case CallStart(caller) => if caller in s.callers then None else Some(At(s, caller, StartCalled))
    case CallClose(caller) => if caller in s.callers then None else Some(At(s, caller, CloseCalled))
    case Proceed(caller, ok) => if caller in s.callers then Step(s, caller, ok) else None
    case SetError => Some(s.(status := Fatal))
    case CloseAll => Some(s.(closed := true))
  }

  function History(events: seq<Event>): Option<Service> {
    if events == [] then Some(INITIAL)
    else
      var before := History(events[..|events| - 1]);
      if before.None? then None else Happen(before.value, events[|events| - 1])
  }

  // ---------------------------------------------------------------- invariant

  function Current(s: Service): set<nat> {
    if s.instance.Some? then {s.instance.value} else {}
  }

  /** What holds when no start or close is between its first and its last step. */
  ghost predicate Calm(s: Service) {
    && s.live == Current(s)
    && s.status != Stopping
    && (s.instance.Some? ==> s.status == Started || s.status == Fatal)
  }

  /** A start in progress, as far as no error has been set. */
  predicate Opening(status: Status) {
    status == Starting || status == Fatal
  }

  /** What holds while the lock is held, by how far its holder has come. */
  ghost predicate Phased(s: Service, p: Phase) {
    match p
    case StartClosingPrevious(p) => s.instance.None? && s.live == {p} && s.status != Started
    case StartBeginning => s.instance.None? && s.live == {} && s.status != Started
    case StartCreating => s.instance.None? && s.live == {} && Opening(s.status)
    case StartCreateFailed => s.instance.None? && s.live == {} && Opening(s.status)
    case StartCreated(i) => s.instance.None? && s.live == {i} && Opening(s.status) && i !in s.interrupted && i !in s.published
    case StartRunning(i) => s.instance == Some(i) && s.live == {i} && Opening(s.status) && i !in s.published
    case StartRan(i, _) => s.instance == Some(i) && s.live == {i} && Opening(s.status) && i !in s.published
    case StartAborting(i) => s.instance.None? && s.live == {i} && Opening(s.status)
    case CloseClosing(p) => s.instance.None? && s.live == (if p.Some? then {p.value} else {}) && s.status != Started
    case CloseClosed => s.instance.None? && s.live == {} && s.status != Started
    case _ => Calm(s)
  }

  predicate StartUnderWay(p: Phase) {
    p.StartRunning? || p.StartRan?
  }

  /** Only between publishing the instance and looking at the result can a start be marked, and then its instance is. */
  ghost predicate Marked(s: Service) {
    if s.lock.Some? && s.lock.value in s.callers && StartUnderWay(s.callers[s.lock.value])
    then s.startInterrupted <==> s.instance.Some? && s.instance.value in s.interrupted
    else !s.startInterrupted
  }

  predicate Waiting(p: Phase) {
    p.StartWaiting? || p.CloseWaiting?
  }

  ghost predicate SomeoneWaits(s: Service) {
    exists caller :: caller in s.callers && Waiting(s.callers[caller])
  }

  /** A start that has been given up leaves its status to a caller that waits for the lock. */
  ghost predicate Inherited(s: Service) {
    && (s.startInterrupted ==> SomeoneWaits(s))
    && (s.status == Starting && !s.closed && (s.lock.None? || (s.lock.value in s.callers && (s.callers[s.lock.value].StartAborting? || s.callers[s.lock.value].Leaving?)))
        ==> SomeoneWaits(s))
  }

  /** The lock belongs to the one caller that has come past taking it. */
  ghost predicate Exclusive(callers: map<nat, Phase>, lock: Option<nat>) {
    && (forall caller :: caller in callers ==> (Holding(callers[caller]) <==> lock == Some(caller)))
    && (lock.Some? ==> lock.value in callers)
  }

  ghost predicate Inv(s: Service) {
    && Exclusive(s.callers, s.lock)
    && (if s.lock.Some? then Phased(s, s.callers[s.lock.value]) else Calm(s))
    && (s.status == Started ==> s.instance.Some?)
    && (s.status == Starting && s.instance.Some? ==> s.lock.Some? && StartUnderWay(s.callers[s.lock.value]))
    && Marked(s)
    && s.interrupted !! s.published
    && (forall i :: i in s.interrupted || i in s.published || i in s.live ==> i < s.created)
    && Inherited(s)
  }

  predicate OpensStart(p: Phase) {
    p.StartEntered? || p.StartClosingPrevious? || p.StartBeginning? || p.StartCreating? || p.StartCreateFailed?
  }

  predicate EndsStart(p: Phase) {
    p.StartCreated? || p.StartRunning? || p.StartRan? || p.StartAborting?
  }

  lemma {:induction false} Holder(callers: map<nat, Phase>, lock: Option<nat>, caller: nat)
    requires Exclusive(callers, lock) && caller in callers
    ensures lock == Some(caller) <==> Holding(callers[caller])
    ensures lock.Some? ==> lock.value in callers && Holding(callers[lock.value])
  {
  }

  lemma {:induction false} Known(callers: map<nat, Phase>, lock: Option<nat>)
    requires Exclusive(callers, lock)
    ensures lock.Some? ==> lock.value in callers
  {
  }

  lemma {:induction false} Moves(callers: map<nat, Phase>, lock: Option<nat>, caller: nat, p: Phase, after: Option<nat>)
    requires Exclusive(callers, lock)
    requires after == lock || (lock.None? && after == Some(caller))
    requires Holding(p) <==> after == Some(caller)
    ensures Exclusive(callers[caller := p], after)
  {
  }

  /** Callers other than the one that moves stay where they are, so whoever waits goes on waiting. */
  lemma {:induction false} WaitersStay(s: Service, caller: nat, t: Service)
    requires SomeoneWaits(s) && (caller in s.callers ==> !Waiting(s.callers[caller]))
    requires t.callers - {caller} == s.callers - {caller}
    ensures SomeoneWaits(t)
  {
    var waiting :| waiting in s.callers && Waiting(s.callers[waiting]);
    assert waiting in s.callers - {caller};
    assert waiting in t.callers && t.callers[waiting] == s.callers[waiting];
  }

  lemma {:induction false} WaitersUnmoved(s: Service, t: Service)
    requires SomeoneWaits(s) && t.callers == s.callers
    ensures SomeoneWaits(t)
  {
  }

  lemma {:induction false} OutsideKeeps(s: Service, caller: nat, ok: bool)
    requires Inv(s) && caller in s.callers && !Holding(s.callers[caller]) && Step(s, caller, ok).Some?
    ensures Inv(Step(s, caller, ok).value)
  {
    hide Exclusive;
    var t := Step(s, caller, ok).value;
    Holder(s.callers, s.lock, caller);
    Moves(s.callers, s.lock, caller, t.callers[caller], t.lock);
    assert Waiting(t.callers[caller]) || t.lock == Some(caller);
  }

  lemma {:induction false} OpeningKeeps(s: Service, caller: nat, ok: bool)
    requires Inv(s) && caller in s.callers && OpensStart(s.callers[caller]) && Step(s, caller, ok).Some?
    ensures Inv(Step(s, caller, ok).value)
  {
    hide Exclusive, SomeoneWaits;
    var t := Step(s, caller, ok).value;
    Holder(s.callers, s.lock, caller);
    Moves(s.callers, s.lock, caller, t.callers[caller], t.lock);
  }

  lemma {:induction false} EndingKeeps(s: Service, caller: nat, ok: bool)
    requires Inv(s) && caller in s.callers && EndsStart(s.callers[caller]) && Step(s, caller, ok).Some?
    ensures Inv(Step(s, caller, ok).value)
  {
    hide Exclusive, SomeoneWaits;
    var t := Step(s, caller, ok).value;
    Holder(s.callers, s.lock, caller);
    Moves(s.callers, s.lock, caller, t.callers[caller], t.lock);
    if SomeoneWaits(s) {
      WaitersStay(s, caller, t);
    }
  }

  lemma {:induction false} ClosingKeeps(s: Service, caller: nat, ok: bool)
    requires Inv(s) && caller in s.callers && Holding(s.callers[caller]) && !s.callers[caller].Leaving? && Step(s, caller, ok).Some?
    requires !OpensStart(s.callers[caller]) && !EndsStart(s.callers[caller])
    ensures Inv(Step(s, caller, ok).value)
  {
    hide Exclusive, SomeoneWaits;
    var t := Step(s, caller, ok).value;
    Holder(s.callers, s.lock, caller);
    Moves(s.callers, s.lock, caller, t.callers[caller], t.lock);
    if SomeoneWaits(s) {
      WaitersStay(s, caller, t);
    }
  }

  lemma {:induction false} LeavingKeeps(s: Service, caller: nat, ok: bool)
    requires Inv(s) && caller in s.callers && s.callers[caller].Leaving?
    ensures Inv(Step(s, caller, ok).value)
  {
    hide SomeoneWaits;
    var t := Step(s, caller, ok).value;
    if SomeoneWaits(s) {
      WaitersStay(s, caller, t);
    }
  }

  lemma {:induction false} StepKeeps(s: Service, caller: nat, ok: bool)
    requires Inv(s) && caller in s.callers && Step(s, caller, ok).Some?
    ensures Inv(Step(s, caller, ok).value)
  {
    hide Inv, Step;
    if !Holding(s.callers[caller]) {
      OutsideKeeps(s, caller, ok);
    } else if OpensStart(s.callers[caller]) {
      OpeningKeeps(s, caller, ok);
    } else if EndsStart(s.callers[caller]) {
      EndingKeeps(s, caller, ok);
    } else if s.callers[caller].Leaving? {
      LeavingKeeps(s, caller, ok);
    } else {
      ClosingKeeps(s, caller, ok);
    }
  }

  lemma {:induction false} CallKeeps(s: Service, caller: nat, p: Phase)
    requires Inv(s) && caller !in s.callers && (p == StartCalled || p == CloseCalled)
    ensures Inv(At(s, caller, p))
  {
    hide Exclusive, SomeoneWaits;
    Known(s.callers, s.lock);
    Moves(s.callers, s.lock, caller, p, s.lock);
    if SomeoneWaits(s) {
      WaitersStay(s, caller, At(s, caller, p));
    }
  }

  lemma {:induction false} OutsideEventKeeps(s: Service, e: Event)
    requires Inv(s) && (e.SetError? || e.CloseAll?)
    ensures Inv(Happen(s, e).value)
  {
    hide SomeoneWaits;
    var t := Happen(s, e).value;
    if SomeoneWaits(s) {
      WaitersUnmoved(s, t);
    }
  }

  lemma {:induction false} HappenKeeps(s: Service, e: Event)
    requires Inv(s) && Happen(s, e).Some?
    ensures Inv(Happen(s, e).value)
  {
    hide Step, Inv;
    match e
    case Proceed(caller, ok) => StepKeeps(s, caller, ok);
    case CallStart(caller) => CallKeeps(s, caller, StartCalled);
    case CallClose(caller) => CallKeeps(s, caller, CloseCalled);
    case _ => OutsideEventKeeps(s, e);
  }

  lemma {:induction false} HistoryKeeps(events: seq<Event>)
    requires History(events).Some?
    ensures Inv(History(events).value)
  {
    hide Happen;
    if events != [] {
      HistoryKeeps(events[..|events| - 1]);
      HappenKeeps(History(events[..|events| - 1]).value, events[|events| - 1]);
    }
  }

  // ---------------------------------------------------------------- what the service promises

  /**
   Over every interleaving: at most one instance has been created and not closed, a
   started service has its instance, an interrupted instance is never published as
   started, and while the lifecycle lock is free no interruption is pending, the open
   instance is the current one, and the status is that of a service started, stopped or failed.
   */
  lemma {:induction false} EveryInterleaving(events: seq<Event>)
    requires History(events).Some?
    ensures
      var s := History(events).value;
      && |s.live| <= 1
      && (s.status == Started ==> s.instance.Some? && s.live == {s.instance.value})
      && s.interrupted !! s.published
      && (s.lock.None? ==> !s.startInterrupted && Calm(s))
  {
    HistoryKeeps(events);
  }

  /** A service at rest does not show a start in progress, unless it has been shut down. */
  lemma {:induction false} RestingIsNotStarting(events: seq<Event>)
    requires History(events).Some? && History(events).value.callers == map[]
    ensures History(events).value.status == Starting ==> History(events).value.closed
  {
    HistoryKeeps(events);
  }

  lemma {:induction false} Then(events: seq<Event>, e: Event, s: Service, t: Service) returns (more: seq<Event>)
    requires History(events) == Some(s) && Happen(s, e) == Some(t)
    ensures History(more) == Some(t)
  {
    more := events + [e];
    assert more[..|events|] == events;
  }

  lemma {:induction false} ThenProceed(events: seq<Event>, caller: nat, s: Service, t: Service) returns (more: seq<Event>)
    requires History(events) == Some(s) && caller in s.callers
    requires Step(s, caller, true).Some? && Step(s, caller, true).value.(callers := t.callers, live := t.live) == t
    requires Step(s, caller, true).value.callers == t.callers && Step(s, caller, true).value.live == t.live
    ensures History(more) == Some(t)
  {
    hide Step;
    assert Step(s, caller, true).value == t;
    more := Then(events, Proceed(caller, true), s, t);
  }

  const RUNNING_ALONE :=
    INITIAL.(lock := Some(0), status := Starting, instance := Some(0), live := {0}, created := 1, callers := map[0 := StartRunning(0)])

  const MARKED :=
    RUNNING_ALONE.(closed := true, startInterrupted := true, interrupted := {0}, callers := map[0 := StartRunning(0), 1 := StartWaiting])

  const GIVEN_UP :=
    INITIAL.(status := Starting, closed := true, created := 1, interrupted := {0}, callers := map[1 := StartWaiting])

  lemma {:induction false} StartAlone() returns (events: seq<Event>)
    ensures History(events) == Some(RUNNING_ALONE)
  {
    hide Happen;
    var s0 := INITIAL.(callers := map[0 := StartCalled]);
    var s1 := s0.(callers := map[0 := StartWaiting]);
    var s2 := s0.(callers := map[0 := StartEntered], lock := Some(0));
    var s3 := s2.(callers := map[0 := StartCreating], status := Starting);
    var s4 := s3.(callers := map[0 := StartCreated(0)], live := {0}, created := 1);
    events := Called();
    events := ThenProceed(events, 0, s0, s1);
    events := ThenProceed(events, 0, s1, s2);
    events := ThenProceed(events, 0, s2, s3);
    events := ThenProceed(events, 0, s3, s4);
    events := ThenProceed(events, 0, s4, RUNNING_ALONE);
  }

  lemma {:induction false} Called() returns (events: seq<Event>)
    ensures History(events) == Some(INITIAL.(callers := map[0 := StartCalled]))
  {
    events := Then([], CallStart(0), INITIAL, INITIAL.(callers := map[0 := StartCalled]));
  }

  /** A second caller interrupts the first, after the service was shut down. */
  lemma {:induction false} Interrupted(before: seq<Event>) returns (events: seq<Event>)
    requires History(before) == Some(RUNNING_ALONE)
    ensures History(events) == Some(MARKED)
  {
    var s0 := RUNNING_ALONE.(closed := true);
    var s1 := s0.(callers := map[0 := StartRunning(0), 1 := StartCalled]);
    events := Then(before, CloseAll, RUNNING_ALONE, s0);
    assert s0.callers[1 := StartCalled] == s1.callers;
    events := Then(events, CallStart(1), s0, s1);
    assert s1.callers[1 := StartWaiting] == MARKED.callers && s1.interrupted + {0} == MARKED.interrupted;
    events := Then(events, Proceed(1, true), s1, MARKED);
  }

  lemma {:induction false} GiveUp(before: seq<Event>) returns (events: seq<Event>)
    requires History(before) == Some(MARKED)
    ensures History(events) == Some(GIVEN_UP)
  {
    hide Happen, History;
    var s1 := MARKED.(callers := map[0 := StartRan(0, true), 1 := StartWaiting]);
    var s2 := s1.(callers := map[0 := StartAborting(0), 1 := StartWaiting], startInterrupted := false, instance := None);
    var s3 := s2.(callers := map[0 := Leaving, 1 := StartWaiting], live := {});
    events := ThenProceed(before, 0, MARKED, s1);
    events := ThenProceed(events, 0, s1, s2);
    events := ThenProceed(events, 0, s2, s3);
    events := ThenProceed(events, 0, s3, GIVEN_UP);
  }

  /**
   The exception of RestingIsNotStarting happens: a start in progress is interrupted by a
   second one that finds the service shut down, both return, and the status stays Starting.
   */
  lemma {:induction false} ShutDownLeavesStarting() returns (events: seq<Event>)
    ensures History(events).Some? && History(events).value.callers == map[] && History(events).value.lock.None?
    ensures History(events).value.status == Starting && History(events).value.instance.None?
  {
    events := StartAlone();
    events := Interrupted(events);
    events := GiveUp(events);
    var s1 := GIVEN_UP.(callers := map[1 := StartEntered], lock := Some(1));
    var s2 := s1.(callers := map[1 := Leaving]);
    var s3 := s2.(callers := map[], lock := None);
    events := ThenProceed(events, 1, GIVEN_UP, s1);
    events := ThenProceed(events, 1, s1, s2);
    events := ThenProceed(events, 1, s2, s3);
  }
}

/** The service object: its fields change only inside critical sections, each a step of the protocol. */
module LifecycleService {
  import opened Dns
  import opened Lifecycle

  class StartedService {
    var status: Status
    var instance: Option<nat>
    var startInterrupted: bool
    var closed: bool

    ghost predicate Shows(s: Service)
      reads this
    {
      status == s.status && instance == s.instance && startInterrupted == s.startInterrupted && closed == s.closed
    }

    ghost predicate Is(s: Service, caller: nat, p: Phase) {
      caller in s.callers && s.callers[caller] == p
    }

    method InterruptStart(ghost s: Service, ghost caller: nat)
      requires Shows(s) && (Is(s, caller, StartCalled) || Is(s, caller, CloseCalled))
      modifies this
      ensures forall ok :: Shows(Step(s, caller, ok).value)
    {
      if status == Starting && instance.Some? {
        startInterrupted := true;
      }
    }

    /** The critical section that opens a start: refused when closed, else it takes the current instance to close. */
    method EnterStart(ghost s: Service, ghost caller: nat) returns (next: Phase)
      requires Shows(s) && Is(s, caller, StartEntered)
      modifies this
      ensures forall ok :: Shows(Step(s, caller, ok).value) && Step(s, caller, ok).value.callers[caller] == next
    {
      if closed {
        return Leaving;
      }
      if instance.Some? {
        next := StartClosingPrevious(instance.value);
        instance := None;
        status := Stopping;
      } else {
        startInterrupted := false;
        status := Starting;
        next := StartCreating;
      }
    }

    method BeginStart(ghost s: Service, ghost caller: nat)
      requires Shows(s) && Is(s, caller, StartBeginning)
      modifies this
      ensures forall ok :: Shows(Step(s, caller, ok).value)
    {
      startInterrupted := false;
      status := Starting;
    }

    method PublishInstance(ghost s: Service, ghost caller: nat, created: nat)
      requires Shows(s) && Is(s, caller, StartCreated(created))
      modifies this
      ensures forall ok :: Shows(Step(s, caller, ok).value)
    {
      instance := Some(created);
    }

    /** The critical section after the instance ran its start: interrupted, failed or started. */
    method FinishStart(ghost s: Service, ghost caller: nat, current: nat, started: bool) returns (next: Phase)
      requires Shows(s) && Is(s, caller, StartRan(current, started))
      modifies this
      ensures forall ok :: Shows(Step(s, caller, ok).value) && Step(s, caller, ok).value.callers[caller] == next
    {
      if startInterrupted {
        startInterrupted := false;
        instance := None;
        return StartAborting(current);
      }
      if !started {
        instance := None;
        status := Fatal;
        return StartAborting(current);
      }
      status := Started;
      next := Leaving;
    }

    method EnterClose(ghost s: Service, ghost caller: nat) returns (next: Phase)
      requires Shows(s) && Is(s, caller, CloseEntered)
      modifies this
      ensures forall ok :: Shows(Step(s, caller, ok).value) && Step(s, caller, ok).value.callers[caller] == next
    {
      var current := instance;
      if current.None? && status != Starting && status != Started {
        return Leaving;
      }
      instance := None;
      status := Stopping;
      next := CloseClosing(current);
    }
  }
}
