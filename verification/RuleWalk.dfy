/**
 The DNS rule walk: a suspendable interpreter over an ordered rule list. Matched
 `evaluate` rules start exchanges that run on their own; `race` rules wait in an
 armed list for the responses they bind while the walk goes on past them.

 Time is a logical clock. A future is done at a clock value fixed by the schedule,
 and its completion signal reaches the one-slot wake channel some time later. When
 `live` is set the clock advances before every group of completion reads, so a
 future may become done between any two of them; otherwise completions are seen
 only after a wait. With `torn` the clock also advances from the moment finished
 exchanges are recorded to the reads that rely on the record being complete.
 */
module RuleWalk {
  import opened Dns

  datatype RejectMethod = Refuse | Drop

  datatype Action =
    | RouteOptionsAction(add: RouteOptions)
    | Evaluate(server: string, tag: string, speculative: bool, add: RouteOptions)
    | Respond
    | Route(server: string, speculative: bool, add: RouteOptions)
    | Reject(kind: RejectMethod, rcode: int)
    | Predefined

  datatype FallbackRule = FallbackRule(
    acceptResult: bool,
    server: string,
    disableCache: bool,
    rewriteTTL: Option<nat>,
    clientSubnet: Option<Prefix>)

  datatype Rule = Rule(
    tags: seq<string>,
    respondTag: string,
    anonymous: bool,
    race: bool,
    allowFallthrough: bool,
    fallback: seq<FallbackRule>,
    action: Action)
  {
    predicate HasBindings() { tags != [] || anonymous }
  }

  /** A query's surroundings: the rules, the servers, and what every exchange will answer and when. */
  datatype World = World(
    rules: seq<Rule>,
    query: Msg,
    transports: map<string, Transport>,
    defaultTransport: Transport,
    defaultStrategy: Strategy,
    defaultRejectRcode: int,
    allowFakeIP: bool,
    disabled: (nat, nat) -> bool,                                    // rule, clock
    matches: (nat, Option<Msg>, map<string, Option<Msg>>) -> bool,   // rule, bound responses
    predefined: (nat, QueryOptions) -> Msg,
    fallbackMatches: (nat, nat, Option<Msg>) -> bool,                // rule, fallback rule, primary response
    answer: (nat, nat, Transport, QueryOptions) -> Outcome,          // run, rule
    fallbackAnswer: (nat, nat, Transport, QueryOptions) -> Outcome,  // rule, fallback rule
    delay: (nat, nat) -> nat,                                        // run, rule
    lag: (nat, nat) -> nat,                                          // run, rule
    live: bool,
    torn: bool,
    cancelled: nat -> bool)                                          // clock

  datatype Future = Future(
    id: nat,
    rule: nat,
    tag: string,
    transport: Transport,
    outcome: Outcome,
    doneAt: nat,
    signalAt: nat,
    behind: nat)   // armed rules still pending when it was launched
  {
    predicate Resolved(clock: nat) { doneAt <= clock }

    function Seen(clock: nat): Option<Msg> { if Resolved(clock) then View(outcome) else None }
  }

  datatype Armed = Armed(
    index: nat,
    rule: Rule,
    waits: seq<Future>,
    future: Option<Future>,
    bindsAnonymous: bool,
    options: QueryOptions)

  datatype Count = Count(rule: nat, hit: bool)

  datatype State = State(
    run: nat,
    clock: nat,
    heard: nat,    // completion signals before this clock value have been received
    ruleIndex: nat,
    options: QueryOptions,
    futures: seq<Future>,
    settled: set<nat>,
    cancelled: set<nat>,
    anonymous: Option<Future>,
    namedFutures: map<string, Future>,
    namedResponses: map<string, Option<Msg>>,
    namedTransports: map<string, Transport>,
    armed: seq<Armed>,
    terminal: Option<Future>,
    terminalIndex: nat,
    counted: nat,
    stats: seq<Count>)

  function Initial(options: QueryOptions): State {
    State(0, 0, 0, 0, options, [], {}, {}, None, map[], map[], map[], [], None, 0, 0, [])
  }

  datatype Result = Result(
    response: Option<Msg>,
    transport: Option<Transport>,
    rule: Option<nat>,
    options: QueryOptions,
    rejected: bool,
    err: Option<Error>)

  function ErrorResult(err: Error): Result {
    Result(None, None, None, ZERO_OPTIONS, false, Some(err))
  }

  /** A final result and the index of the rule that decided it (the number of rules for the default server). */
  datatype Decision = Decision(result: Result, at: nat)

  datatype Pending = Pending(
    transport: Transport,
    options: QueryOptions,
    future: Option<Future>,
    rule: Option<nat>)

  datatype Suspension = Await(future: Future) | Drain | Exchange(pending: Pending)

  datatype WalkOutcome = Commit(decision: Decision) | Suspend(suspension: Suspension)

  datatype SweepOutcome = Nothing | Answered(decision: Decision) | Routed(pending: Pending)

  // ------------------------------------------------------------------ helpers

  function Tick(w: World, s: State): State {
    if w.live then s.(clock := s.clock + 1) else s
  }

  /** Completions may be seen between recording the finished exchanges and the reads that rely on the record. */
  predicate Torn(w: World) { w.live && w.torn }

  /** A tick after the finished exchanges have been recorded and before what is recorded has been used. */
  function TickWithin(w: World, s: State): State {
    if Torn(w) then s.(clock := s.clock + 1) else s
  }

  function Advance(s: State): State { s.(ruleIndex := s.ruleIndex + 1) }

  function FinalOptions(w: World, options: QueryOptions): QueryOptions {
    if options.strategy == AsIs then options.(strategy := w.defaultStrategy) else options
  }

  function Lookup<T>(m: map<string, Option<T>>, key: string): Option<T> {
    if key in m then m[key] else None
  }

  /** The named responses a rule declares; a tag without a response reads as nil. */
  function Bound(named: map<string, Option<Msg>>, tags: seq<string>): map<string, Option<Msg>> {
    map tag | tag in tags :: Lookup(named, tag)
  }

  function FutureTransport(future: Option<Future>): Option<Transport> {
    match future
    case None => None
    case Some(f) => Some(f.transport)
  }

  function TransportOf(s: State, tag: string): Option<Transport> {
    if tag in s.namedTransports then Some(s.namedTransports[tag]) else None
  }

  function SeenBy(future: Option<Future>, clock: nat): Option<Msg> {
    match future
    case None => None
    case Some(f) => f.Seen(clock)
  }

  function ResolveRejectRcode(actionRcode: int, defaultRcode: int): int {
    if actionRcode != -1 then actionRcode
    else if defaultRcode != -1 then defaultRcode
    else RCODE_REFUSED
  }

  function RejectReply(w: World, rcode: int): Msg {
    Msg(w.query.id, ResolveRejectRcode(rcode, w.defaultRejectRcode), w.query.question[..Min(1, |w.query.question|)], [], [], [])
  }

  /** The server and options of a route action; none when the server is missing or skipped. */
  function ResolveRoute(w: World, server: string, add: RouteOptions, options: QueryOptions): Option<(Transport, QueryOptions)> {
    if server !in w.transports then None
    else
      var transport := w.transports[server];
      if transport.fakeIP && !w.allowFakeIP then None
      else
        var o := ApplyRouteOptions(options, add);
        Some((transport, if transport.fakeIP then o.(disableCache := true) else o))
  }

  function RejectResult(w: World, rule: nat, action: Action, options: QueryOptions): Result
    requires action.Reject?
  {
    match action.kind
    case Refuse => Result(Some(RejectReply(w, action.rcode)), None, Some(rule), options, true, None)
    case Drop => Result(None, None, Some(rule), options, true, Some(Dropped))
  }

  function PredefinedResult(w: World, rule: nat, options: QueryOptions): Result {
    Result(Some(w.predefined(rule, options)), None, Some(rule), options, false, None)
  }

  /** The result of a respond action: an error when there is no response to give. */
  function RespondDecision(rule: nat, response: Option<Msg>, transport: Option<Transport>, options: QueryOptions): Decision {
    if response.None? then Decision(ErrorResult(MissingResponse), rule)
    else Decision(Result(response, transport, Some(rule), options, false, None), rule)
  }

  function CountRule(s: State, rule: nat, hit: bool): State {
    s.(stats := s.stats + [Count(rule, hit)])
  }

  function NewFuture(w: World, s: State, tag: string, transport: Transport, options: QueryOptions): Future {
    var doneAt := s.clock + w.delay(s.run, s.ruleIndex);
    Future(|s.futures|, s.ruleIndex, tag, transport,
           w.answer(s.run, s.ruleIndex, transport, FinalOptions(w, options)),
           doneAt, doneAt + w.lag(s.run, s.ruleIndex), |s.armed|)
  }

  function Launch(s: State, future: Future): State {
    s.(futures := s.futures + [future])
  }

  // ------------------------------------------------------------------- settle

  /** Records the response of a tagged future once it is seen to be done. */
  function SettleOne(s: State, future: Future): State {
    if future.id in s.settled || !future.Resolved(s.clock) then s
    else
      var s1 := s.(settled := s.settled + {future.id});
      if future.tag == "" then s1
      else s1.(namedResponses := s.namedResponses[future.tag := View(future.outcome)],
               namedTransports := s.namedTransports[future.tag := future.transport])
  }

  function SettleFrom(s: State, k: nat): State
    decreases |s.futures| - k
  {
    if k >= |s.futures| then s else SettleFrom(SettleOne(s, s.futures[k]), k + 1)
  }

  function Settle(s: State): State { SettleFrom(s, 0) }

  // -------------------------------------------------------------------- sweep

  predicate Ready(armed: Armed, clock: nat) {
    forall f :: f in armed.waits ==> f.Resolved(clock)
  }

  function ArmedMatches(w: World, s: State, armed: Armed): bool {
    w.matches(armed.index,
              if armed.bindsAnonymous then SeenBy(armed.future, s.clock) else None,
              Bound(s.namedResponses, armed.rule.tags))
  }

  /** What a matched race rule does; nothing when its server is missing or skipped. */
  function FireArmed(w: World, s: State, armed: Armed): SweepOutcome {
    var i, r := armed.index, armed.rule;
    match r.action
    case Respond =>
      if r.respondTag != "" then
        Answered(RespondDecision(i, Lookup(s.namedResponses, r.respondTag), TransportOf(s, r.respondTag), armed.options))
      else
        var future := if armed.future.Some? then armed.future else s.anonymous;
        Answered(RespondDecision(i, SeenBy(future, s.clock), FutureTransport(future), armed.options))
    case Route(server, _, add) =>
      (match ResolveRoute(w, server, add, armed.options)
       case None => Nothing
       case Some(pair) => Routed(Pending(pair.0, pair.1, None, Some(i))))
    case Reject(_, _) => Answered(Decision(RejectResult(w, i, r.action, armed.options), i))
    case Predefined => Answered(Decision(PredefinedResult(w, i, armed.options), i))
    case _ => Nothing
  }

  function RemoveAt<T>(xs: seq<T>, k: nat): seq<T>
    requires k < |xs|
  {
    xs[..k] + xs[k + 1..]
  }

  /** Judges one armed rule whose responses are all in; the rule is off the list already. */
  function Judge(w: World, s: State, armed: Armed): (State, SweepOutcome) {
    if w.disabled(armed.index, s.clock) then (s, Nothing)
    else
      var s1 := TickWithin(w, s);
      if !ArmedMatches(w, s1, armed) then (CountRule(s1, armed.index, false), Nothing)
      else
        var s2 := TickWithin(w, CountRule(s1, armed.index, true));
        (s2, FireArmed(w, s2, armed))
  }

  function SweepFrom(w: World, s: State, k: nat): (State, SweepOutcome)
    decreases |s.armed| - k
  {
    if k >= |s.armed| then (s, Nothing)
    else
      var s1 := TickWithin(w, s);
      if !Ready(s1.armed[k], s1.clock) then SweepFrom(w, s1, k + 1)
      else
        var (s2, fired) := Judge(w, s1.(armed := RemoveAt(s1.armed, k)), s1.armed[k]);
        if fired.Nothing? then SweepFrom(w, s2, k) else (s2, fired)
  }

  function Sweep(w: World, s: State): (State, SweepOutcome) { SweepFrom(w, s, 0) }

  // --------------------------------------------------------------------- walk

  datatype StepOutcome = Next(state: State) | Stop(state: State, outcome: WalkOutcome)

  /** A step moves to the next rule or stops where it is. */
  ghost predicate Moves(s: State, step: StepOutcome) {
    step.state.ruleIndex == if step.Next? then s.ruleIndex + 1 else s.ruleIndex
  }

  function UnresolvedTags(s: State, tags: seq<string>): seq<Future> {
    if tags == [] then []
    else
      var rest := UnresolvedTags(s, tags[1..]);
      if tags[0] in s.namedFutures && !s.namedFutures[tags[0]].Resolved(s.clock)
      then [s.namedFutures[tags[0]]] + rest else rest
  }

  /** The futures a rule binds that are not done yet, in the order the rule names them. */
  function Unresolved(s: State, r: Rule): seq<Future> {
    UnresolvedTags(s, r.tags) +
    if r.anonymous && s.anonymous.Some? && !s.anonymous.value.Resolved(s.clock) then [s.anonymous.value] else []
  }

  function NewArmed(w: World, s: State): Armed
    requires s.ruleIndex < |w.rules|
  {
    var r := w.rules[s.ruleIndex];
    Armed(s.ruleIndex, r, Unresolved(s, r), if r.anonymous then s.anonymous else None, r.anonymous, s.options)
  }

  function ArmRule(w: World, s: State): (step: StepOutcome)
    requires s.ruleIndex < |w.rules|
    ensures Moves(s, step)
  {
    var armed := NewArmed(w, s);
    var s1 := s.(armed := s.armed + [armed]);
    if armed.waits != [] then Next(Advance(s1))
    else
      SweepKeeps(w, s1, 0);
      var (s2, swept) := Sweep(w, s1);
      match swept
      case Nothing => Next(Advance(s2))
      case Answered(decision) => Stop(s2, Commit(decision))
      case Routed(pending) => Stop(s2.(armed := []), Suspend(Exchange(pending)))
  }

  function CountOnce(s: State, hit: bool): State {
    if s.ruleIndex >= s.counted then CountRule(s, s.ruleIndex, hit).(counted := s.ruleIndex + 1) else s
  }

  function EvaluateStep(w: World, s: State): (step: StepOutcome)
    requires s.ruleIndex < |w.rules| && w.rules[s.ruleIndex].action.Evaluate?
    ensures Moves(s, step)
  {
    var action := w.rules[s.ruleIndex].action;
    if action.server !in w.transports then Next(Advance(if action.tag == "" then s.(anonymous := None) else s))
    else if !action.speculative && s.armed != [] then Stop(s, Suspend(Drain))
    else
      var future := NewFuture(w, s, action.tag, w.transports[action.server], ApplyRouteOptions(s.options, action.add));
      var s1 := Launch(s, future);
      Next(Advance(if action.tag == "" then s1.(anonymous := Some(future))
                   else s1.(namedFutures := s1.namedFutures[action.tag := future])))
  }

  function RespondStep(w: World, s: State): (step: StepOutcome)
    requires s.ruleIndex < |w.rules| && w.rules[s.ruleIndex].action.Respond?
    ensures Moves(s, step)
  {
    var i, r := s.ruleIndex, w.rules[s.ruleIndex];
    if s.armed != [] then Stop(s, Suspend(Drain))
    else if r.respondTag != "" then
      Stop(s, Commit(RespondDecision(i, Lookup(s.namedResponses, r.respondTag), TransportOf(s, r.respondTag), s.options)))
    else
      var s1 := Tick(w, s);
      if !r.HasBindings() && s1.anonymous.Some? && !s1.anonymous.value.Resolved(s1.clock) then
        Stop(s1, Suspend(Await(s1.anonymous.value)))
      else
        var s2 := Tick(w, s1);
        Stop(s2, Commit(RespondDecision(i, SeenBy(s2.anonymous, s2.clock), FutureTransport(s2.anonymous), s2.options)))
  }

  function RouteStep(w: World, s: State): (step: StepOutcome)
    requires s.ruleIndex < |w.rules| && w.rules[s.ruleIndex].action.Route?
    ensures Moves(s, step)
  {
    var action := w.rules[s.ruleIndex].action;
    match ResolveRoute(w, action.server, action.add, s.options)
    case None => Next(Advance(s))
    case Some(pair) =>
      if s.armed != [] then
        if action.speculative && s.terminal.None? then
          var future := NewFuture(w, s, "", pair.0, pair.1);
          Stop(Launch(s, future).(terminal := Some(future), terminalIndex := s.ruleIndex), Suspend(Drain))
        else Stop(s, Suspend(Drain))
      else if s.terminal.Some? && s.terminalIndex == s.ruleIndex then
        Stop(s, Suspend(Exchange(Pending(s.terminal.value.transport, pair.1, s.terminal, Some(s.ruleIndex)))))
      else
        Stop(s, Suspend(Exchange(Pending(pair.0, pair.1, None, Some(s.ruleIndex)))))
  }

  /** Carries out the action of a matched rule. */
  function ActStep(w: World, s: State): (step: StepOutcome)
    requires s.ruleIndex < |w.rules|
    ensures Moves(s, step)
  {
    var action := w.rules[s.ruleIndex].action;
    match action
    case RouteOptionsAction(add) => Next(Advance(s.(options := ApplyRouteOptions(s.options, add))))
    case Evaluate(_, _, _, _) => EvaluateStep(w, s)
    case Respond => RespondStep(w, s)
    case Route(_, _, _) => RouteStep(w, s)
    case Reject(_, _) =>
      if s.armed != [] then Stop(s, Suspend(Drain))
      else Stop(s, Commit(Decision(RejectResult(w, s.ruleIndex, action, s.options), s.ruleIndex)))
    case Predefined =>
      if s.armed != [] then Stop(s, Suspend(Drain))
      else Stop(s, Commit(Decision(PredefinedResult(w, s.ruleIndex, s.options), s.ruleIndex)))
  }

  function WalkMatches(w: World, s: State): bool
    requires s.ruleIndex < |w.rules|
  {
    var r := w.rules[s.ruleIndex];
    w.matches(s.ruleIndex, if r.anonymous then SeenBy(s.anonymous, s.clock) else None, Bound(s.namedResponses, r.tags))
  }

  function MatchStep(w: World, s: State): (step: StepOutcome)
    requires s.ruleIndex < |w.rules|
    ensures Moves(s, step)
  {
    var s1 := Tick(w, s);
    var matched := WalkMatches(w, s1);
    var s2 := CountOnce(s1, matched);
    if matched then ActStep(w, s2) else Next(Advance(s2))
  }

  /** One rule of the walk. */
  function Step(w: World, s: State): (step: StepOutcome)
    requires s.ruleIndex < |w.rules|
    ensures Moves(s, step)
  {
    var s1 := Tick(w, s);
    var r := w.rules[s1.ruleIndex];
    if w.disabled(s1.ruleIndex, s1.clock) then Next(Advance(s1))
    else if r.HasBindings() then
      var s2 := TickWithin(w, Settle(s1));
      SettleKeeps(s1, 0);
      if r.race then ArmRule(w, s2)
      else if Unresolved(s2, r) != [] then Stop(s2, Suspend(Await(Unresolved(s2, r)[0])))
      else MatchStep(w, s2)
    else MatchStep(w, s1)
  }

  /** The walk from the current rule to its next commit or suspension. */
  function Walk(w: World, s: State): (State, WalkOutcome)
    decreases |w.rules| - s.ruleIndex
  {
    if s.ruleIndex < |w.rules| then
      match Step(w, s)
      case Next(s1) => Walk(w, s1)
      case Stop(s1, outcome) => (s1, outcome)
    else if s.armed != [] then (s, Suspend(Drain))
    else (s, Suspend(Exchange(Pending(w.defaultTransport, s.options, None, None))))
  }

  // ------------------------------------------- what the pieces leave unchanged

  lemma {:induction false} SettleKeeps(s: State, k: nat)
    ensures SettleFrom(s, k) == s.(settled := SettleFrom(s, k).settled,
                                   namedResponses := SettleFrom(s, k).namedResponses,
                                   namedTransports := SettleFrom(s, k).namedTransports)
    decreases |s.futures| - k
  {
    if k < |s.futures| {
      SettleKeeps(SettleOne(s, s.futures[k]), k + 1);
    }
  }

  /** A sweep only advances the clock, counts rules and takes armed rules off the list. */
  ghost predicate SweepShape(s: State, s': State) {
    && s' == s.(clock := s'.clock, armed := s'.armed, stats := s'.stats)
    && s'.clock >= s.clock
    && |s'.armed| <= |s.armed|
  }

  lemma {:induction false} JudgeKeeps(w: World, s: State, armed: Armed)
    ensures var s' := Judge(w, s, armed).0;
            s' == s.(clock := s'.clock, stats := s'.stats) && s'.clock >= s.clock && (!Torn(w) ==> s'.clock == s.clock)
  {
  }

  lemma {:induction false} SweepKeeps(w: World, s: State, k: nat)
    ensures SweepShape(s, SweepFrom(w, s, k).0)
    decreases |s.armed| - k
  {
    if k < |s.armed| {
      var s1 := TickWithin(w, s);
      if !Ready(s1.armed[k], s1.clock) {
        SweepKeeps(w, s1, k + 1);
      } else {
        var s2 := s1.(armed := RemoveAt(s1.armed, k));
        JudgeKeeps(w, s2, s1.armed[k]);
        var (s3, fired) := Judge(w, s2, s1.armed[k]);
        if fired.Nothing? {
          SweepKeeps(w, s3, k);
        }
      }
    }
  }

  /** A sweep does not look at the walk's position. */
  lemma {:induction false} SweepAnywhere(w: World, s: State, k: nat)
    ensures SweepFrom(w, Advance(s), k) == (Advance(SweepFrom(w, s, k).0), SweepFrom(w, s, k).1)
    decreases |s.armed| - k
  {
    hide Judge;
    if k < |s.armed| {
      var s1 := TickWithin(w, s);
      assert TickWithin(w, Advance(s)) == Advance(s1);
      if !Ready(s1.armed[k], s1.clock) {
        SweepAnywhere(w, s1, k + 1);
      } else {
        var s2 := s1.(armed := RemoveAt(s1.armed, k));
        JudgeAnywhere(w, s2, s1.armed[k]);
        JudgeKeeps(w, s2, s1.armed[k]);
        var (s3, fired) := Judge(w, s2, s1.armed[k]);
        if fired.Nothing? {
          SweepAnywhere(w, s3, k);
        }
      }
    }
  }

  lemma {:induction false} JudgeAnywhere(w: World, s: State, a: Armed)
    ensures Judge(w, Advance(s), a) == (Advance(Judge(w, s, a).0), Judge(w, s, a).1)
  {
    var s1 := TickWithin(w, s);
    assert ArmedMatches(w, Advance(s1), a) == ArmedMatches(w, s1, a);
    var s2 := TickWithin(w, CountRule(s1, a.index, true));
    assert FireArmed(w, Advance(s2), a) == FireArmed(w, s2, a);
  }
}
