/**
 The proof that the concurrent rule walk keeps step with the sequential reading of
 the rules: the invariant relating the two, and its preservation by every step.
 */
module RuleAgreement {
  import opened Dns
  import opened RuleWalk
  import opened RuleDriver
  import opened RuleOrder

  /** Where a run starts. */
  datatype Origin = Origin(run: nat, from: nat, scope: Scope)

  function Place(w: World, o: Origin, j: nat): Option<Scope>
    requires j <= |w.rules|
  {
    ScopeAt(w, o.run, o.from, o.scope, j)
  }

  // ---------------------------------------------------------------- invariant

  ghost predicate SameFuture(b: Option<Binding>, f: Option<Future>) {
    && b.Some? == f.Some?
    && (b.Some? ==> b.value == Binding(f.value.transport, f.value.outcome))
  }

  function NamedFuture(named: map<string, Future>, tag: string): Option<Future> {
    if tag in named then Some(named[tag]) else None
  }

  ghost predicate SameNamed(bindings: map<string, Binding>, named: map<string, Future>) {
    && bindings.Keys == named.Keys
    && forall tag :: tag in named ==> bindings[tag] == Binding(named[tag].transport, named[tag].outcome)
  }

  /** The walk stands at a rule the sequential reading reaches, in the same scope. */
  ghost predicate InPlace(w: World, o: Origin, index: nat, options: QueryOptions, anonymous: Option<Future>, named: map<string, Future>) {
    && o.from <= index <= |w.rules|
    && Place(w, o, index).Some?
    && (var p := Place(w, o, index).value;
        && p.options == options
        && SameFuture(p.anonymous, anonymous)
        && SameNamed(p.named, named))
  }

  /** Each tagged future is the only one of its tag, launched by the rule that has the tag. */
  ghost predicate Tagged(w: World, index: nat, futures: seq<Future>, named: map<string, Future>) {
    && (forall k :: 0 <= k < |futures| ==> futures[k].id == k)
    && (forall k :: 0 <= k < |futures| && futures[k].tag != "" ==> futures[k].tag in named && named[futures[k].tag] == futures[k])
    && (forall tag :: tag in named ==> TaggedBy(w, index, tag, named[tag]))
  }

  ghost predicate TaggedBy(w: World, index: nat, tag: string, f: Future) {
    && tag != "" && f.tag == tag
    && f.rule < index && f.rule < |w.rules|
    && w.rules[f.rule].action.Evaluate? && w.rules[f.rule].action.tag == tag
  }

  /** The recorded responses are those of the tagged futures seen to be done. */
  ghost predicate Recorded(futures: seq<Future>, settled: set<nat>, named: map<string, Future>,
                           responses: map<string, Option<Msg>>, transports: map<string, Transport>) {
    && (forall tag :: tag in responses ==> RecordedTag(named, responses, transports, tag))
    && (forall k :: k in settled ==> k < |futures| && (futures[k].tag != "" ==> futures[k].tag in responses))
  }

  ghost predicate RecordedTag(named: map<string, Future>, responses: map<string, Option<Msg>>, transports: map<string, Transport>, tag: string) {
    && tag in named && tag in responses && tag in transports
    && responses[tag] == View(named[tag].outcome)
    && transports[tag] == named[tag].transport
  }

  /** An armed rule holds what it was to be judged by, and waits for whatever of it is not done. */
  ghost predicate ArmedOk(w: World, o: Origin, index: nat, named: map<string, Future>, clock: nat, a: Armed) {
    && o.from <= a.index < index <= |w.rules|
    && a.rule == w.rules[a.index] && a.rule.race && a.bindsAnonymous == a.rule.anonymous
    && Place(w, o, a.index).Some?
    && (var p := Place(w, o, a.index).value;
        && a.options == p.options
        && (if a.rule.anonymous then SameFuture(p.anonymous, a.future) else a.future.None?)
        && (forall tag :: tag in a.rule.tags ==> SameFuture(NamedBinding(p, tag), NamedFuture(named, tag))))
    && (a.future.Some? ==> WaitedFor(a, clock, a.future.value))
    && (forall tag :: tag in a.rule.tags && tag in named ==> WaitedFor(a, clock, named[tag]))
    && (a.rule.tags == [] && a.future.None? ==> a.waits == [])
  }

  /** While a rule is armed that found no anonymous future, there still is none. */
  ghost predicate NoneStale(anonymous: Option<Future>, armed: seq<Armed>) {
    forall k :: 0 <= k < |armed| && armed[k].rule.tags == [] && armed[k].future.None? ==> anonymous.None?
  }

  ghost predicate Waiting(armed: seq<Armed>) {
    forall k :: 0 <= k < |armed| ==> armed[k].waits != []
  }

  ghost predicate WaitedFor(a: Armed, clock: nat, f: Future) {
    f in a.waits || f.Resolved(clock)
  }

  ghost predicate AllArmedOk(w: World, o: Origin, index: nat, named: map<string, Future>, clock: nat, armed: seq<Armed>) {
    forall k :: 0 <= k < |armed| ==> ArmedOk(w, o, index, named, clock, armed[k])
  }

  ghost predicate IsArmed(armed: seq<Armed>, j: nat) {
    exists k :: 0 <= k < |armed| && armed[k].index == j
  }

  /** Every race rule passed is armed still, or has been judged and declines. */
  ghost predicate Judged(w: World, o: Origin, index: nat, armed: seq<Armed>) {
    forall j :: o.from <= j < index && j < |w.rules| && w.rules[j].race ==>
      IsArmed(armed, j) || Declines(w, o.run, o.from, o.scope, j)
  }

  /** A speculative exchange for the rule the walk stands at is the exchange that rule asks for. */
  ghost predicate TerminalOk(w: World, o: Origin, index: nat, options: QueryOptions, terminal: Option<Future>, terminalIndex: nat) {
    terminal.Some? ==>
      && terminalIndex <= index
      && (terminalIndex == index < |w.rules| && w.rules[index].action.Route? ==>
            (var r := w.rules[index].action;
             var route := ResolveRoute(w, r.server, r.add, options);
             route.Some? ==>
               && terminal.value.transport == route.value.0
               && terminal.value.outcome == w.answer(o.run, index, route.value.0, FinalOptions(w, route.value.1))))
  }

  ghost predicate Follows(w: World, o: Origin, s: State) {
    && s.run == o.run
    && InPlace(w, o, s.ruleIndex, s.options, s.anonymous, s.namedFutures)
    && Tagged(w, s.ruleIndex, s.futures, s.namedFutures)
    && Recorded(s.futures, s.settled, s.namedFutures, s.namedResponses, s.namedTransports)
    && AllArmedOk(w, o, s.ruleIndex, s.namedFutures, s.clock, s.armed)
    && NoneStale(s.anonymous, s.armed)
    && Judged(w, o, s.ruleIndex, s.armed)
    && TerminalOk(w, o, s.ruleIndex, s.options, s.terminal, s.terminalIndex)
  }

  /** Unless completions are seen in between, everything done at this moment has been recorded. */
  ghost predicate Fresh(w: World, s: State) {
    !Torn(w) ==> forall tag :: tag in s.namedFutures && s.namedFutures[tag].Resolved(s.clock) ==> tag in s.namedResponses
  }

  // ----------------------------------------------------------- time and settle

  lemma {:induction false} LaterOk(w: World, o: Origin, index: nat, named: map<string, Future>, clock: nat, clock': nat, armed: seq<Armed>)
    requires AllArmedOk(w, o, index, named, clock, armed) && clock <= clock'
    ensures AllArmedOk(w, o, index, named, clock', armed)
  {
    forall k | 0 <= k < |armed|
      ensures ArmedOk(w, o, index, named, clock', armed[k])
    {
      assert ArmedOk(w, o, index, named, clock, armed[k]);
    }
  }

  /** The passing of time keeps the walk in step. */
  lemma {:induction false} LaterFollows(w: World, o: Origin, s: State, s': State)
    requires Follows(w, o, s)
    requires s' == s.(clock := s'.clock, heard := s'.heard, stats := s'.stats, counted := s'.counted, cancelled := s'.cancelled)
    requires s'.clock >= s.clock
    ensures Follows(w, o, s')
  {
    LaterOk(w, o, s.ruleIndex, s.namedFutures, s.clock, s'.clock, s.armed);
  }

  lemma {:induction false} RecordOne(w: World, index: nat, futures: seq<Future>, settled: set<nat>, named: map<string, Future>,
                  responses: map<string, Option<Msg>>, transports: map<string, Transport>, k: nat)
    requires Tagged(w, index, futures, named) && Recorded(futures, settled, named, responses, transports)
    requires k < |futures|
    ensures futures[k].tag == "" ==> Recorded(futures, settled + {k}, named, responses, transports)
    ensures futures[k].tag != "" ==>
              Recorded(futures, settled + {k}, named, responses[futures[k].tag := View(futures[k].outcome)],
                       transports[futures[k].tag := futures[k].transport])
  {
    var f := futures[k];
    var responses', transports' := responses[f.tag := View(f.outcome)], transports[f.tag := f.transport];
    if f.tag != "" {
      forall tag | tag in responses'
        ensures RecordedTag(named, responses', transports', tag)
      {
        assert tag in responses ==> RecordedTag(named, responses, transports, tag);
      }
    }
  }

  lemma {:induction false} SettleOneFollows(w: World, o: Origin, s: State, k: nat)
    requires Follows(w, o, s) && k < |s.futures|
    ensures Follows(w, o, SettleOne(s, s.futures[k]))
  {
    RecordOne(w, s.ruleIndex, s.futures, s.settled, s.namedFutures, s.namedResponses, s.namedTransports, k);
    assert s.futures[k].id == k;
  }

  ghost predicate SettledUpTo(s: State, k: nat) {
    forall i :: 0 <= i < k && i < |s.futures| && s.futures[i].Resolved(s.clock) ==> i in s.settled
  }

  lemma {:induction false} SettleOneMore(w: World, o: Origin, s: State, k: nat)
    requires Follows(w, o, s) && SettledUpTo(s, k) && k < |s.futures|
    ensures SettledUpTo(SettleOne(s, s.futures[k]), k + 1) && SettleOne(s, s.futures[k]).futures == s.futures
  {
    assert s.futures[k].id == k;
  }

  lemma {:induction false} SettleFollows(w: World, o: Origin, s: State, k: nat)
    requires Follows(w, o, s) && SettledUpTo(s, k)
    ensures Follows(w, o, SettleFrom(s, k))
    ensures SettledUpTo(SettleFrom(s, k), |s.futures|)
    decreases |s.futures| - k
  {
    hide Follows, SettleOne;
    if k < |s.futures| {
      SettleOneFollows(w, o, s, k);
      SettleOneMore(w, o, s, k);
      SettleFollows(w, o, SettleOne(s, s.futures[k]), k + 1);
    }
  }

  /** After settling, the walk is in step and up to date. */
  lemma {:induction false} SettledFresh(w: World, o: Origin, s: State)
    requires Follows(w, o, s) && Sound(s)
    ensures Follows(w, o, Settle(s)) && Fresh(w, Settle(s)) && Sound(Settle(s))
  {
    SettleFollows(w, o, s, 0);
    SettleKeeps(s, 0);
    var s' := Settle(s);
    if !Torn(w) {
      forall tag | tag in s'.namedFutures && s'.namedFutures[tag].Resolved(s'.clock)
        ensures tag in s'.namedResponses
      {
        assert Knows(s'.futures, s'.namedFutures[tag]);
        assert TaggedBy(w, s'.ruleIndex, tag, s'.namedFutures[tag]);
      }
    }
  }

  // ------------------------------------------------------------------ judging

  /** The responses a rule reads are those the sequential reading gives it. */
  ghost predicate ReadsSame(s: State, p: Scope, tags: seq<string>) {
    forall tag :: tag in tags ==>
      && Lookup(s.namedResponses, tag) == BindingView(NamedBinding(p, tag))
      && (Lookup(s.namedResponses, tag).Some? ==> TransportOf(s, tag) == BindingTransport(NamedBinding(p, tag)))
  }

  lemma {:induction false} ReadTags(w: World, s: State, p: Scope, tags: seq<string>)
    requires Recorded(s.futures, s.settled, s.namedFutures, s.namedResponses, s.namedTransports)
    requires forall tag :: tag in tags ==> SameFuture(NamedBinding(p, tag), NamedFuture(s.namedFutures, tag))
    requires forall tag :: tag in tags && tag in s.namedFutures ==> tag in s.namedResponses
    ensures ReadsSame(s, p, tags)
  {
    forall tag | tag in tags
      ensures Lookup(s.namedResponses, tag) == BindingView(NamedBinding(p, tag))
      ensures Lookup(s.namedResponses, tag).Some? ==> TransportOf(s, tag) == BindingTransport(NamedBinding(p, tag))
    {
      assert SameFuture(NamedBinding(p, tag), NamedFuture(s.namedFutures, tag));
      if tag in s.namedResponses {
        assert RecordedTag(s.namedFutures, s.namedResponses, s.namedTransports, tag);
      }
    }
  }

  lemma {:induction false} SameBound(s: State, p: Scope, tags: seq<string>)
    requires ReadsSame(s, p, tags)
    ensures Bound(s.namedResponses, tags) == (map tag | tag in tags :: BindingView(NamedBinding(p, tag)))
  {
  }

  ghost predicate Reading(w: World, s: State) {
    Fresh(w, s) && Recorded(s.futures, s.settled, s.namedFutures, s.namedResponses, s.namedTransports)
  }

  /** Everything the armed rule binds is in, so it is judged as the sequential reading judges it. */
  lemma {:induction false} ArmedReads(w: World, o: Origin, s: State, a: Armed)
    requires Admissible(w) && Reading(w, s)
    requires ArmedOk(w, o, s.ruleIndex, s.namedFutures, s.clock, a) && Ready(a, s.clock)
    ensures ReadsSame(s, Place(w, o, a.index).value, a.rule.tags)
    ensures a.rule.anonymous ==> SeenBy(a.future, s.clock) == BindingView(Place(w, o, a.index).value.anonymous)
  {
    var p := Place(w, o, a.index).value;
    if Torn(w) {
      assert a.rule.tags == [];
    } else {
      forall tag | tag in a.rule.tags && tag in s.namedFutures
        ensures tag in s.namedResponses
      {
        assert WaitedFor(a, s.clock, s.namedFutures[tag]);
      }
      ReadTags(w, s, p, a.rule.tags);
    }
  }

  lemma {:induction false} ArmedMatchesSame(w: World, o: Origin, s: State, a: Armed)
    requires Admissible(w) && Reading(w, s)
    requires ArmedOk(w, o, s.ruleIndex, s.namedFutures, s.clock, a) && Ready(a, s.clock)
    ensures Applies(w, a.index, Place(w, o, a.index).value) == (!w.disabled(a.index, s.clock) && ArmedMatches(w, s, a))
  {
    ArmedReads(w, o, s, a);
    SameBound(s, Place(w, o, a.index).value, a.rule.tags);
  }

  /** The decision a pending exchange leads to. */
  function PendingDecision(w: World, run: nat, p: Pending): Decision {
    match p.future
    case Some(f) => Decision(Result(View(f.outcome), Some(f.transport), p.rule, p.options, false, ErrorOf(f.outcome)), PendingAt(w, p))
    case None => Answer(w, run, PendingAt(w, p), p.rule, p.transport, p.options)
  }

  ghost function Fired(w: World, run: nat, fired: SweepOutcome): Option<Decision> {
    match fired
    case Nothing => None
    case Answered(d) => Some(d)
    case Routed(p) => Some(PendingDecision(w, run, p))
  }

  lemma {:induction false} FireSame(w: World, o: Origin, s: State, a: Armed)
    requires Admissible(w) && Reading(w, s)
    requires NoneStale(s.anonymous, [a])
    requires ArmedOk(w, o, s.ruleIndex, s.namedFutures, s.clock, a) && Ready(a, s.clock)
    requires Applies(w, a.index, Place(w, o, a.index).value)
    ensures Fired(w, o.run, FireArmed(w, s, a)) == Decide(w, o.run, a.index, Place(w, o, a.index).value)
  {
    ArmedReads(w, o, s, a);
    assert WellFormedRule(w.rules[a.index]);
    var p := Place(w, o, a.index).value;
    if a.rule.action.Respond? {
      if a.rule.respondTag != "" {
        assert a.rule.respondTag in a.rule.tags;
      } else {
        assert [a][0] == a && a.rule.tags == [] && a.rule.anonymous;
      }
    }
  }

  lemma {:induction false} TickFollows(w: World, o: Origin, s: State)
    requires Follows(w, o, s)
    ensures Follows(w, o, Tick(w, s))
  {
    LaterFollows(w, o, s, Tick(w, s));
  }

  lemma {:induction false} TickWithinFollows(w: World, o: Origin, s: State)
    requires Follows(w, o, s)
    ensures Follows(w, o, TickWithin(w, s))
    ensures Fresh(w, s) ==> Fresh(w, TickWithin(w, s))
  {
    LaterFollows(w, o, s, TickWithin(w, s));
  }

  lemma {:induction false} LaterArmed(w: World, o: Origin, index: nat, named: map<string, Future>, clock: nat, clock': nat, a: Armed)
    requires ArmedOk(w, o, index, named, clock, a) && clock <= clock'
    ensures ArmedOk(w, o, index, named, clock', a)
    ensures Ready(a, clock) ==> Ready(a, clock')
  {
  }

  /** A judged race rule decides exactly what it decides in the sequential reading. */
  lemma {:induction false} JudgeSame(w: World, o: Origin, s: State, a: Armed)
    requires Admissible(w) && Reading(w, s)
    requires NoneStale(s.anonymous, [a])
    requires ArmedOk(w, o, s.ruleIndex, s.namedFutures, s.clock, a) && Ready(a, s.clock)
    ensures Fired(w, o.run, Judge(w, s, a).1) == Decide(w, o.run, a.index, Place(w, o, a.index).value)
  {
    if !w.disabled(a.index, s.clock) {
      var s1 := TickWithin(w, s);
      LaterArmed(w, o, s.ruleIndex, s.namedFutures, s.clock, s1.clock, a);
      ArmedMatchesSame(w, o, s1, a);
      if ArmedMatches(w, s1, a) {
        var s2 := CountRule(s1, a.index, true);
        var s3 := TickWithin(w, s2);
        LaterArmed(w, o, s.ruleIndex, s.namedFutures, s1.clock, s3.clock, a);
        FireSame(w, o, s3, a);
      }
    }
  }

  lemma {:induction false} RemovedJudged(w: World, o: Origin, index: nat, armed: seq<Armed>, k: nat)
    requires Judged(w, o, index, armed) && k < |armed|
    requires armed[k].index < |w.rules| ==> Declines(w, o.run, o.from, o.scope, armed[k].index)
    ensures Judged(w, o, index, RemoveAt(armed, k))
  {
    var rest := RemoveAt(armed, k);
    forall j | o.from <= j < index && j < |w.rules| && w.rules[j].race
      ensures IsArmed(rest, j) || Declines(w, o.run, o.from, o.scope, j)
    {
      if IsArmed(armed, j) && armed[k].index != j {
        var i :| 0 <= i < |armed| && armed[i].index == j;
        assert rest[if i < k then i else i - 1].index == j;
      }
    }
  }

  lemma {:induction false} RemovedFollows(w: World, o: Origin, s: State, k: nat)
    requires Follows(w, o, s) && k < |s.armed|
    requires Declines(w, o.run, o.from, o.scope, s.armed[k].index)
    ensures Follows(w, o, s.(armed := RemoveAt(s.armed, k)))
  {
    RemovedJudged(w, o, s.ruleIndex, s.armed, k);
  }

  /** A sweep that commits nothing leaves the walk in step; otherwise its decision is a verdict. */
  ghost predicate SweptWell(w: World, o: Origin, s: State, swept: SweepOutcome) {
    if swept.Nothing? then Follows(w, o, s) && Fresh(w, s)
    else Verdict(w, o.run, o.from, o.scope, Fired(w, o.run, swept).value)
  }

  /** A sweep commits only what the committing rule decides in its place; the rules it drops decline. */
  lemma {:induction false} SweepFollows(w: World, o: Origin, s: State, k: nat)
    requires Admissible(w) && Follows(w, o, s) && Fresh(w, s)
    ensures SweptWell(w, o, SweepFrom(w, s, k).0, SweepFrom(w, s, k).1)
    decreases |s.armed| - k
  {
    hide Follows, Verdict, Judge;
    if k < |s.armed| {
      var s1 := TickWithin(w, s);
      TickWithinFollows(w, o, s);
      if !Ready(s1.armed[k], s1.clock) {
        SweepFollows(w, o, s1, k + 1);
      } else {
        SweepJudges(w, o, s1, k);
        var (s2, fired) := Judge(w, s1.(armed := RemoveAt(s1.armed, k)), s1.armed[k]);
        JudgeKeeps(w, s1.(armed := RemoveAt(s1.armed, k)), s1.armed[k]);
        if fired.Nothing? {
          SweepFollows(w, o, s2, k);
        }
      }
    }
  }

  lemma {:induction false} SweepJudges(w: World, o: Origin, s: State, k: nat)
    requires Admissible(w) && Follows(w, o, s) && Fresh(w, s)
    requires k < |s.armed| && Ready(s.armed[k], s.clock)
    ensures var judged := Judge(w, s.(armed := RemoveAt(s.armed, k)), s.armed[k]);
            SweptWell(w, o, judged.0, judged.1)
  {
    var a := s.armed[k];
    var s1 := s.(armed := RemoveAt(s.armed, k));
    assert ArmedOk(w, o, s.ruleIndex, s.namedFutures, s.clock, a);
    assert NoneStale(s.anonymous, [a]);
    JudgeSame(w, o, s1, a);
    JudgeKeeps(w, s1, a);
    DecideAt(w, o.run, a.index, Place(w, o, a.index).value);
    var (s2, fired) := Judge(w, s1, a);
    if fired.Nothing? {
      RemovedFollows(w, o, s, k);
      LaterFollows(w, o, s1, s2);
    }
  }

  // ----------------------------------------------------------------- stepping

  /** A step keeps up with the sequential reading, or ends in a verdict. */
  ghost predicate InStep(w: World, o: Origin, step: StepOutcome) {
    if step.Stop? && step.outcome.Commit? then Verdict(w, o.run, o.from, o.scope, step.outcome.decision)
    else if step.Stop? && step.outcome.suspension.Exchange? then
      Verdict(w, o.run, o.from, o.scope, PendingDecision(w, o.run, step.outcome.suspension.pending))
    else Follows(w, o, step.state) && Waiting(step.state.armed)
  }

  function Here(w: World, o: Origin, s: State): Scope
    requires s.ruleIndex <= |w.rules| && Place(w, o, s.ruleIndex).Some?
  {
    Place(w, o, s.ruleIndex).value
  }

  /** With nothing armed, what the rule decides is the verdict. */
  lemma {:induction false} CommitVerdict(w: World, o: Origin, s: State, d: Decision)
    requires Follows(w, o, s) && s.armed == [] && s.ruleIndex < |w.rules|
    requires Decide(w, o.run, s.ruleIndex, Here(w, o, s)) == Some(d)
    ensures Verdict(w, o.run, o.from, o.scope, d)
  {
    DecideAt(w, o.run, s.ruleIndex, Here(w, o, s));
    forall j | o.from <= j < s.ruleIndex && w.rules[j].race
      ensures Declines(w, o.run, o.from, o.scope, j)
    {
      assert !IsArmed(s.armed, j);
    }
  }

  lemma {:induction false} DefaultVerdict(w: World, o: Origin, s: State)
    requires Follows(w, o, s) && s.armed == [] && s.ruleIndex == |w.rules|
    ensures Verdict(w, o.run, o.from, o.scope, PendingDecision(w, o.run, Pending(w.defaultTransport, s.options, None, None)))
  {
    forall j | o.from <= j < s.ruleIndex && w.rules[j].race
      ensures Declines(w, o.run, o.from, o.scope, j)
    {
      assert !IsArmed(s.armed, j);
    }
  }

  lemma {:induction false} NextPlace(w: World, o: Origin, i: nat)
    requires o.from <= i < |w.rules| && Place(w, o, i).Some?
    requires w.rules[i].race || Decide(w, o.run, i, Place(w, o, i).value).None?
    ensures Place(w, o, i + 1) == Some(Extend(w, o.run, i, Place(w, o, i).value))
  {
  }

  lemma {:induction false} PassedJudged(w: World, o: Origin, i: nat, armed: seq<Armed>)
    requires Judged(w, o, i, armed) && i < |w.rules|
    requires w.rules[i].race ==> Declines(w, o.run, o.from, o.scope, i)
    ensures Judged(w, o, i + 1, armed)
  {
  }

  lemma {:induction false} PassedArmed(w: World, o: Origin, i: nat, named: map<string, Future>, named': map<string, Future>, clock: nat, armed: seq<Armed>)
    requires WellFormed(w.rules) && AllArmedOk(w, o, i, named, clock, armed) && i < |w.rules|
    requires named' == named || (w.rules[i].action.Evaluate? && w.rules[i].action.tag in named' && named' == named[w.rules[i].action.tag := named'[w.rules[i].action.tag]])
    ensures AllArmedOk(w, o, i + 1, named', clock, armed)
  {
    forall k | 0 <= k < |armed|
      ensures ArmedOk(w, o, i + 1, named', clock, armed[k])
    {
      var a := armed[k];
      assert ArmedOk(w, o, i, named, clock, a);
      assert w.rules[i].action.Evaluate? && w.rules[i].action.tag in w.rules[a.index].tags ==> i < a.index;
      assert forall tag :: tag in a.rule.tags ==> NamedFuture(named', tag) == NamedFuture(named, tag);
    }
  }

  lemma {:induction false} PassedTagged(w: World, i: nat, futures: seq<Future>, named: map<string, Future>)
    requires Tagged(w, i, futures, named)
    ensures Tagged(w, i + 1, futures, named)
  {
    forall tag | tag in named
      ensures TaggedBy(w, i + 1, tag, named[tag])
    {
      assert TaggedBy(w, i, tag, named[tag]);
    }
  }

  /** The walk passes a rule that launches nothing. */
  lemma {:induction false} PassFollows(w: World, o: Origin, s: State, options: QueryOptions, anonymous: Option<Future>)
    requires WellFormed(w.rules) && Follows(w, o, s) && Waiting(s.armed) && s.ruleIndex < |w.rules|
    requires Decide(w, o.run, s.ruleIndex, Here(w, o, s)).None?
    requires var p := Extend(w, o.run, s.ruleIndex, Here(w, o, s));
             p.options == options && SameFuture(p.anonymous, anonymous) && p.named == Here(w, o, s).named
    ensures Follows(w, o, Advance(s.(options := options, anonymous := anonymous)))
  {
    var i := s.ruleIndex;
    NextPlace(w, o, i);
    PassedJudged(w, o, i, s.armed);
    PassedArmed(w, o, i, s.namedFutures, s.namedFutures, s.clock, s.armed);
    PassedTagged(w, i, s.futures, s.namedFutures);
  }

  lemma {:induction false} LaunchTagged(w: World, i: nat, futures: seq<Future>, named: map<string, Future>, f: Future)
    requires WellFormed(w.rules) && Tagged(w, i, futures, named) && i < |w.rules| && f.id == |futures| && f.rule == i
    requires w.rules[i].action.Evaluate? && f.tag == w.rules[i].action.tag
    ensures f.tag != "" ==> f.tag !in named && Tagged(w, i + 1, futures + [f], named[f.tag := f])
    ensures f.tag == "" ==> Tagged(w, i + 1, futures + [f], named)
  {
    if f.tag in named {
      assert TaggedBy(w, i, f.tag, named[f.tag]);
      assert f.tag != "" ==> SameTag(w.rules[named[f.tag].rule].action, w.rules[i].action);
    }
    PassedTagged(w, i, futures, named);
    if f.tag != "" {
      var named' := named[f.tag := f];
      forall tag | tag in named'
        ensures TaggedBy(w, i + 1, tag, named'[tag])
      {
        assert tag in named ==> TaggedBy(w, i + 1, tag, named[tag]);
      }
    }
  }

  lemma {:induction false} LaunchRecorded(w: World, i: nat, futures: seq<Future>, settled: set<nat>, named: map<string, Future>,
                       responses: map<string, Option<Msg>>, transports: map<string, Transport>, f: Future)
    requires Tagged(w, i, futures, named) && Recorded(futures, settled, named, responses, transports)
    requires f.tag != "" ==> f.tag !in named
    ensures Recorded(futures + [f], settled, named, responses, transports)
    ensures f.tag != "" ==> Recorded(futures + [f], settled, named[f.tag := f], responses, transports)
  {
    forall tag | tag in responses
      ensures f.tag != "" ==> RecordedTag(named[f.tag := f], responses, transports, tag)
    {
      assert RecordedTag(named, responses, transports, tag);
    }
  }

  lemma {:induction false} NeverStale(w: World, o: Origin, index: nat, named: map<string, Future>, clock: nat, armed: seq<Armed>, anonymous: Option<Future>)
    requires AllArmedOk(w, o, index, named, clock, armed) && Waiting(armed)
    ensures NoneStale(anonymous, armed)
  {
    forall k | 0 <= k < |armed|
      ensures !(armed[k].rule.tags == [] && armed[k].future.None?)
    {
      assert ArmedOk(w, o, index, named, clock, armed[k]);
    }
  }

  lemma {:induction false} LaunchFollows(w: World, o: Origin, s: State, f: Future, anonymous: Option<Future>, named: map<string, Future>)
    requires WellFormed(w.rules) && Follows(w, o, s) && Waiting(s.armed) && s.ruleIndex < |w.rules|
    requires w.rules[s.ruleIndex].action.Evaluate? && f.tag == w.rules[s.ruleIndex].action.tag
    requires f.id == |s.futures| && f.rule == s.ruleIndex
    requires Decide(w, o.run, s.ruleIndex, Here(w, o, s)).None?
    requires if f.tag == "" then anonymous == Some(f) && named == s.namedFutures
             else anonymous == s.anonymous && named == s.namedFutures[f.tag := f]
    requires Extend(w, o.run, s.ruleIndex, Here(w, o, s)) ==
             (var p, b := Here(w, o, s), Binding(f.transport, f.outcome);
              if f.tag == "" then p.(anonymous := Some(b)) else p.(named := p.named[f.tag := b]))
    ensures Follows(w, o, Advance(s.(futures := s.futures + [f], anonymous := anonymous, namedFutures := named)))
  {
    hide Tagged, Recorded, Judged, AllArmedOk, NoneStale;
    NeverStale(w, o, s.ruleIndex, s.namedFutures, s.clock, s.armed, anonymous);
    var i := s.ruleIndex;
    NextPlace(w, o, i);
    PassedJudged(w, o, i, s.armed);
    PassedArmed(w, o, i, s.namedFutures, named, s.clock, s.armed);
    LaunchTagged(w, i, s.futures, s.namedFutures, f);
    LaunchRecorded(w, i, s.futures, s.settled, s.namedFutures, s.namedResponses, s.namedTransports, f);
  }

  lemma {:induction false} EvaluateFollows(w: World, o: Origin, s: State)
    requires Admissible(w) && Follows(w, o, s) && Waiting(s.armed) && s.ruleIndex < |w.rules|
    requires w.rules[s.ruleIndex].action.Evaluate? && Applies(w, s.ruleIndex, Here(w, o, s))
    ensures InStep(w, o, EvaluateStep(w, s))
  {
    hide Verdict, Tagged, Recorded, AllArmedOk, Judged, TerminalOk, NoneStale;
    var action := w.rules[s.ruleIndex].action;
    if action.server !in w.transports {
      PassFollows(w, o, s, s.options, if action.tag == "" then None else s.anonymous);
    } else if action.speculative || s.armed == [] {
      var f := NewFuture(w, s, action.tag, w.transports[action.server], ApplyRouteOptions(s.options, action.add));
      LaunchFollows(w, o, s, f, if f.tag == "" then Some(f) else s.anonymous,
                    if f.tag == "" then s.namedFutures else s.namedFutures[f.tag := f]);
    }
  }

  lemma {:induction false} RespondFollows(w: World, o: Origin, s: State)
    requires Admissible(w) && Follows(w, o, s) && Waiting(s.armed) && s.ruleIndex < |w.rules|
    requires w.rules[s.ruleIndex].action.Respond? && Applies(w, s.ruleIndex, Here(w, o, s))
    requires ReadsSame(s, Here(w, o, s), w.rules[s.ruleIndex].tags)
    requires w.rules[s.ruleIndex].anonymous && s.anonymous.Some? ==> s.anonymous.value.Resolved(s.clock)
    ensures InStep(w, o, RespondStep(w, s))
  {
    hide Tagged, Recorded, AllArmedOk, Judged, TerminalOk, NoneStale, Verdict;
    var r := w.rules[s.ruleIndex];
    assert WellFormedRule(r);
    var s1 := Tick(w, s);
    TickFollows(w, o, s);
    var step := RespondStep(w, s);
    if s.armed == [] {
      if r.respondTag != "" {
        assert r.respondTag in r.tags;
        CommitVerdict(w, o, s, step.outcome.decision);
      } else if step.outcome.Commit? {
        CommitVerdict(w, o, s, step.outcome.decision);
      }
    }
  }

  lemma {:induction false} SpeculateFollows(w: World, o: Origin, s: State, f: Future)
    requires Follows(w, o, s) && Waiting(s.armed) && s.ruleIndex < |w.rules|
    requires f.id == |s.futures| && f.tag == ""
    requires TerminalOk(w, o, s.ruleIndex, s.options, Some(f), s.ruleIndex)
    ensures Follows(w, o, s.(futures := s.futures + [f], terminal := Some(f), terminalIndex := s.ruleIndex))
  {
    LaunchRecorded(w, s.ruleIndex, s.futures, s.settled, s.namedFutures, s.namedResponses, s.namedTransports, f);
  }

  lemma {:induction false} RouteFollows(w: World, o: Origin, s: State)
    requires Admissible(w) && Follows(w, o, s) && Waiting(s.armed) && s.ruleIndex < |w.rules|
    requires w.rules[s.ruleIndex].action.Route? && Applies(w, s.ruleIndex, Here(w, o, s))
    ensures InStep(w, o, RouteStep(w, s))
  {
    var action := w.rules[s.ruleIndex].action;
    match ResolveRoute(w, action.server, action.add, s.options) {
      case None =>
        PassFollows(w, o, s, s.options, s.anonymous);
      case Some(pair) =>
        if s.armed != [] {
          if action.speculative && s.terminal.None? {
            SpeculateFollows(w, o, s, NewFuture(w, s, "", pair.0, pair.1));
          }
        } else {
          CommitVerdict(w, o, s, Answer(w, o.run, s.ruleIndex, Some(s.ruleIndex), pair.0, pair.1));
        }
    }
  }

  lemma {:induction false} ActFollows(w: World, o: Origin, s: State)
    requires Admissible(w) && Follows(w, o, s) && Waiting(s.armed) && s.ruleIndex < |w.rules|
    requires Applies(w, s.ruleIndex, Here(w, o, s))
    requires ReadsSame(s, Here(w, o, s), w.rules[s.ruleIndex].tags)
    requires w.rules[s.ruleIndex].anonymous && s.anonymous.Some? ==> s.anonymous.value.Resolved(s.clock)
    ensures InStep(w, o, ActStep(w, s))
  {
    var r := w.rules[s.ruleIndex];
    match r.action {
      case RouteOptionsAction(add) => PassFollows(w, o, s, ApplyRouteOptions(s.options, add), s.anonymous);
      case Evaluate(_, _, _, _) => EvaluateFollows(w, o, s);
      case Respond => RespondFollows(w, o, s);
      case Route(_, _, _) => RouteFollows(w, o, s);
      case Reject(_, _) =>
        if s.armed == [] {
          CommitVerdict(w, o, s, Decision(RejectResult(w, s.ruleIndex, r.action, s.options), s.ruleIndex));
        }
      case Predefined =>
        if s.armed == [] {
          CommitVerdict(w, o, s, Decision(PredefinedResult(w, s.ruleIndex, s.options), s.ruleIndex));
        }
    }
  }

  /** The rule reads what the sequential reading reads: its tagged responses are recorded, its anonymous one is in. */
  ghost predicate BoundIn(w: World, o: Origin, s: State)
    requires s.ruleIndex < |w.rules| && Place(w, o, s.ruleIndex).Some?
  {
    var r := w.rules[s.ruleIndex];
    && ReadsSame(s, Here(w, o, s), r.tags)
    && (r.anonymous && s.anonymous.Some? ==> s.anonymous.value.Resolved(s.clock))
  }

  lemma {:induction false} MatchFollows(w: World, o: Origin, s: State)
    requires Admissible(w) && Follows(w, o, s) && Waiting(s.armed) && s.ruleIndex < |w.rules|
    requires !w.disabled(s.ruleIndex, s.clock) && !w.rules[s.ruleIndex].race
    requires BoundIn(w, o, s)
    ensures InStep(w, o, MatchStep(w, s))
  {
    hide Tagged, Recorded, AllArmedOk, Judged, TerminalOk, NoneStale, Verdict, ActStep;
    var s1 := Tick(w, s);
    TickFollows(w, o, s);
    SameBound(s1, Here(w, o, s), w.rules[s.ruleIndex].tags);
    assert !w.disabled(s.ruleIndex, 0);
    var matched := WalkMatches(w, s1);
    assert matched == Applies(w, s.ruleIndex, Here(w, o, s));
    var s2 := CountOnce(s1, matched);
    LaterFollows(w, o, s1, s2);
    if matched {
      ActFollows(w, o, s2);
    } else {
      PassFollows(w, o, s2, s2.options, s2.anonymous);
    }
  }

  // ------------------------------------------------------------------- arming

  lemma {:induction false} UnresolvedTagsAll(s: State, tags: seq<string>, tag: string)
    requires tag in tags && tag in s.namedFutures && !s.namedFutures[tag].Resolved(s.clock)
    ensures s.namedFutures[tag] in UnresolvedTags(s, tags)
  {
    if tag != tags[0] {
      UnresolvedTagsAll(s, tags[1..], tag);
    }
  }

  lemma {:induction false} UnresolvedAll(s: State, r: Rule, tag: string)
    requires tag in r.tags && tag in s.namedFutures && s.namedFutures[tag] !in Unresolved(s, r)
    ensures s.namedFutures[tag].Resolved(s.clock)
  {
    if !s.namedFutures[tag].Resolved(s.clock) {
      UnresolvedTagsAll(s, r.tags, tag);
    }
  }

  lemma {:induction false} NoTagsNoneUnresolved(s: State, r: Rule)
    ensures r.tags == [] && (!r.anonymous || s.anonymous.None?) ==> Unresolved(s, r) == []
  {
  }

  lemma {:induction false} NewArmedOk(w: World, o: Origin, s: State)
    requires Follows(w, o, s) && s.ruleIndex < |w.rules| && w.rules[s.ruleIndex].race
    ensures ArmedOk(w, o, s.ruleIndex + 1, s.namedFutures, s.clock, NewArmed(w, s))
  {
    var r, a := w.rules[s.ruleIndex], NewArmed(w, s);
    NoTagsNoneUnresolved(s, r);
    forall tag | tag in r.tags && tag in s.namedFutures
      ensures WaitedFor(a, s.clock, s.namedFutures[tag])
    {
      if s.namedFutures[tag] !in a.waits {
        UnresolvedAll(s, r, tag);
      }
    }
  }

  lemma {:induction false} ArmedJudged(w: World, o: Origin, i: nat, armed: seq<Armed>, a: Armed)
    requires Judged(w, o, i, armed) && a.index == i
    ensures Judged(w, o, i + 1, armed + [a])
  {
    forall j | o.from <= j < i + 1 && j < |w.rules| && w.rules[j].race
      ensures IsArmed(armed + [a], j) || Declines(w, o.run, o.from, o.scope, j)
    {
      if j == i {
        assert (armed + [a])[|armed|].index == j;
      } else if IsArmed(armed, j) {
        var k :| 0 <= k < |armed| && armed[k].index == j;
        assert (armed + [a])[k].index == j;
      }
    }
  }

  lemma {:induction false} ArmedFollows(w: World, o: Origin, s: State)
    requires WellFormed(w.rules) && Follows(w, o, s) && Waiting(s.armed) && s.ruleIndex < |w.rules| && w.rules[s.ruleIndex].race
    ensures Follows(w, o, Advance(s.(armed := s.armed + [NewArmed(w, s)])))
  {
    hide Judged, Tagged, Recorded, ArmedOk;
    var i, a := s.ruleIndex, NewArmed(w, s);
    assert WellFormedRule(w.rules[i]);
    NewArmedOk(w, o, s);
    NextPlace(w, o, i);
    PassedArmed(w, o, i, s.namedFutures, s.namedFutures, s.clock, s.armed);
    PassedTagged(w, i, s.futures, s.namedFutures);
    ArmedJudged(w, o, i, s.armed, a);
  }

  lemma {:induction false} ArmFollows(w: World, o: Origin, s: State)
    requires Admissible(w) && Follows(w, o, s) && Waiting(s.armed) && Fresh(w, s)
    requires s.ruleIndex < |w.rules| && w.rules[s.ruleIndex].race
    ensures InStep(w, o, ArmRule(w, s))
  {
    hide Follows, Verdict, PendingDecision, Fresh;
    ArmedFollows(w, o, s);
    var s1 := s.(armed := s.armed + [NewArmed(w, s)]);
    if Unresolved(s, w.rules[s.ruleIndex]) == [] {
      AdvanceFresh(w, s, s1);
      SweepFollows(w, o, Advance(s1), 0);
      SweepAnywhere(w, s1, 0);
      SweepLeaves(w, s1, 0, s1.clock);
      SweepKeeps(w, s1, 0);
      var (s2, swept) := Sweep(w, s1);
      if swept.Nothing? {
        assert Leftover(s1.armed, s1.clock, s2.armed, swept);
        assert Waiting(s2.armed);
      }
    }
  }

  lemma {:induction false} AdvanceFresh(w: World, s: State, s': State)
    requires Fresh(w, s) && s' == s.(armed := s'.armed)
    ensures Fresh(w, Advance(s'))
  {
  }

  // --------------------------------------------------------- step, walk, drive

  lemma {:induction false} BindingsIn(w: World, o: Origin, s: State)
    requires Admissible(w) && Follows(w, o, s) && s.ruleIndex < |w.rules|
    requires Fresh(w, s) && Unresolved(s, w.rules[s.ruleIndex]) == []
    ensures BoundIn(w, o, s)
  {
    var r, p := w.rules[s.ruleIndex], Here(w, o, s);
    if !Torn(w) {
      forall tag | tag in r.tags && tag in s.namedFutures
        ensures tag in s.namedResponses
      {
        UnresolvedAll(s, r, tag);
      }
      ReadTags(w, s, p, r.tags);
    }
  }

  lemma {:induction false} StepFollows(w: World, o: Origin, s: State)
    requires Admissible(w) && Follows(w, o, s) && Waiting(s.armed) && Sound(s) && s.ruleIndex < |w.rules|
    ensures InStep(w, o, Step(w, s))
  {
    hide Verdict, Recorded, Tagged, AllArmedOk, Judged, TerminalOk, NoneStale;
    var s1 := Tick(w, s);
    TickFollows(w, o, s);
    var r := w.rules[s.ruleIndex];
    assert WellFormedRule(r);
    if w.disabled(s1.ruleIndex, s1.clock) {
      PassFollows(w, o, s1, s1.options, s1.anonymous);
    } else if r.HasBindings() {
      SettledFresh(w, o, s1);
      SettleKeeps(s1, 0);
      var s2 := TickWithin(w, Settle(s1));
      TickWithinFollows(w, o, Settle(s1));
      if r.race {
        ArmFollows(w, o, s2);
      } else if Unresolved(s2, r) == [] {
        BindingsIn(w, o, s2);
        assert !w.disabled(s2.ruleIndex, s2.clock);
        MatchFollows(w, o, s2);
      }
    } else {
      MatchFollows(w, o, s1);
    }
  }

  lemma {:induction false} WalkFollows(w: World, o: Origin, s: State)
    requires Admissible(w) && Follows(w, o, s) && Waiting(s.armed) && Sound(s)
    ensures InStep(w, o, Stop(Walk(w, s).0, Walk(w, s).1))
    decreases |w.rules| - s.ruleIndex
  {
    hide Step;
    if s.ruleIndex < |w.rules| {
      StepFollows(w, o, s);
      StepSound(w, s);
      match Step(w, s) {
        case Next(s1) => WalkFollows(w, o, s1);
        case Stop(s1, outcome) =>
      }
    } else if s.armed == [] {
      DefaultVerdict(w, o, s);
    }
  }

  lemma {:induction false} FinishVerdict(w: World, run: nat, s: State, p: Pending)
    requires Steady(w) && s.run == run
    ensures FinishPending(w, s, p).1 == PendingDecision(w, run, p)
  {
  }

  /** Whatever the schedule, the loop ends in a verdict. */
  lemma {:induction false} DriveFollows(w: World, o: Origin, s: State, suspension: Suspension)
    requires Admissible(w) && Sound(s) && Suspended(s, suspension) && s.run == o.run
    requires InStep(w, o, Stop(s, Suspend(suspension)))
    ensures Drive(w, s, suspension).1.Finished?
    ensures Verdict(w, o.run, o.from, o.scope, Drive(w, s, suspension).1.decision)
    decreases StepsLeft(w, s), |s.armed|, StillOpen(s, suspension), CountUnheard(s.futures, s.heard)
  {
    hide Verdict, Walk, Sweep, Settle;
    NoLostWakeUp(w, s, suspension);
    SettledSound(w, s);
    var s0 := Tick(w, s);
    var s1 := Settle(s0);
    SweepSound(w, s1);
    var (s2, swept) := Sweep(w, s1);
    var s3 := Tick(w, s2);
    if suspension.Exchange? {
      EmptySweep(w, s1);
      FinishVerdict(w, o.run, s3, suspension.pending);
    } else {
      TickFollows(w, o, s);
      SettledFresh(w, o, s0);
      SweepFollowsAll(w, o, s1);
      if swept.Routed? {
        FinishVerdict(w, o.run, s2, swept.pending);
      } else if swept.Nothing? {
        TickFollows(w, o, s2);
        if Blocked(s3, suspension) {
          BlockedHasSignal(w, s, s1, s3, suspension);
          var at := NextSignal(s3.futures, s3.heard).value;
          WaitDecreases(w, s, s3, suspension, at);
          LaterFollows(w, o, s3, Receive(s3, at));
          DriveFollows(w, o, Receive(s3, at), suspension);
        } else {
          WalkSound(w, s3);
          WalkFollows(w, o, s3);
          var (s4, outcome) := Walk(w, s3);
          if outcome.Suspend? {
            WalkDecreases(w, s, s3, suspension);
            DriveFollows(w, o, s4, outcome.suspension);
          }
        }
      }
    }
  }

  lemma {:induction false} SweepFollowsAll(w: World, o: Origin, s: State)
    requires Admissible(w) && Follows(w, o, s) && Fresh(w, s) && Waiting(s.armed)
    ensures SweptWell(w, o, Sweep(w, s).0, Sweep(w, s).1)
    ensures Sweep(w, s).1.Nothing? ==> Waiting(Sweep(w, s).0.armed)
  {
    SweepFollows(w, o, s, 0);
    SweepLeaves(w, s, 0, s.clock);
  }

  // ------------------------------------------------------------------ theorem

  function Start(run: nat, from: nat, options: QueryOptions): State {
    Initial(options).(run := run, ruleIndex := from)
  }

  /**
   The result depends on server speed only among race rules: for every schedule the
   run ends with the decision of the sequential evaluator, unless that decision is
   made by a race rule; then it is made by a race rule all the same, the one that
   decides it decides so in its own place, and none before the sequential one does.
   */
  lemma {:induction false} SpeedMattersOnlyAmongRaceRules(w: World, run: nat, from: nat, options: QueryOptions)
    requires Admissible(w) && from <= |w.rules|
    ensures Sound(Start(run, from, options))
    ensures var outcome := Run(w, Start(run, from, options)).1;
            var scope := Scope(options, None, map[]);
            var first := InOrder(w, run, from, scope);
            && outcome.Finished?
            && Verdict(w, run, from, scope, outcome.decision)
            && (Exclusive(options) ==> Exclusive(outcome.decision.result.options))
            && (outcome.decision == first || (AmongRaceRules(w, first, outcome.decision) && from <= first.at))
  {
    var s, o := Start(run, from, options), Origin(run, from, Scope(options, None, map[]));
    assert Sound(s);
    assert Follows(w, o, s);
    WalkSound(w, s);
    WalkFollows(w, o, s);
    var (s1, outcome) := Walk(w, s);
    if outcome.Suspend? {
      DriveFollows(w, o, s1, outcome.suspension);
    }
    VerdictInOrder(w, run, from, o.scope, Run(w, s).1.decision, from);
    if Exclusive(options) {
      VerdictExclusive(w, run, from, o.scope, Run(w, s).1.decision);
    }
  }

  /** Without race rules every completion order gives the sequential result. */
  lemma {:induction false} Confluence(w: World, run: nat, from: nat, options: QueryOptions)
    requires Admissible(w) && from <= |w.rules|
    requires forall i :: 0 <= i < |w.rules| ==> !w.rules[i].race
    ensures Sound(Start(run, from, options))
    ensures Run(w, Start(run, from, options)).1 == Finished(InOrder(w, run, from, Scope(options, None, map[])))
  {
    SpeedMattersOnlyAmongRaceRules(w, run, from, options);
  }
}
