/**
 Where the sequential reading fails to describe the rule walk. The walk reads the
 completion of a tagged future twice: once to record its response and once to see
 whether a rule has to wait for it. A completion between the two reads lets the rule
 be judged without the response it binds.
 */
module RuleLimits {
  import opened Dns
  import opened RuleWalk
  import opened RuleDriver
  import opened RuleOrder
  import opened RuleAgreement

  /** The law of the documentation for one query: the result depends on server speed only among race rules. */
  ghost predicate Lawful(w: World, run: nat, from: nat, options: QueryOptions) {
    && Sound(Start(run, from, options))
    && var outcome := Run(w, Start(run, from, options)).1;
       var first := InOrder(w, run, from, Scope(options, None, map[]));
       outcome.Finished? && (outcome.decision == first || AmongRaceRules(w, first, outcome.decision))
  }

  const NO_OPTIONS := RouteOptions(false, false, None, 0, None, false)

  /** An action that shows in the result by itself: it decides, or it changes an option. */
  predicate Shows(action: Action) {
    !action.Evaluate? && (action.RouteOptionsAction? ==> action.add != NO_OPTIONS)
  }

  /** Rule `i` binds the response that rule `e` asks for, and its action shows. */
  ghost predicate Exposed(rules: seq<Rule>, e: nat, i: nat) {
    && e < i < |rules|
    && rules[e].action.Evaluate? && rules[e].action.tag != ""
    && rules[e].action.tag in rules[i].tags
    && Shows(rules[i].action)
  }

  // ------------------------------------------------------------- the world

  const SERVER := Transport("server", false)

  function Servers(a: Action, b: Action): map<string, Transport>
    requires a.Evaluate?
  {
    if b.Route? then map[a.server := SERVER, b.server := SERVER] else map[a.server := SERVER]
  }

  /**
   Only rules `e` and `i` are on. The exchange of rule `e` completes when the walk has settled
   for rule `i` and not yet read whether it has to wait; rule `i` matches once it sees the response.
   */
  function TornWorld(rules: seq<Rule>, e: nat, i: nat, reply: Msg): World
    requires e < i < |rules| && rules[e].action.Evaluate?
  {
    var tag := rules[e].action.tag;
    World(rules, reply, Servers(rules[e].action, rules[i].action), SERVER, AsIs, -1, true,
          (k, t) => k != e && k != i,
          (k, anonymous, named: map<string, Option<Msg>>) => k == e || (k == i && tag in named && named[tag].Some?),
          (k, options) => reply,
          (k, j, response) => false,
          (run, k, transport, options) => Reply(reply),
          (k, j, transport, options) => Reply(reply),
          (run, k) => i - e + 1,
          (run, k) => 0,
          true,
          true,
          t => false)
  }

  // ------------------------------------------------- the sequential reading

  /** Rules that are off leave the sequential reading where it is. */
  lemma {:induction false} OffInOrder(w: World, q: Scope, k: nat, m: nat)
    requires k <= m <= |w.rules| && forall j :: k <= j < m ==> w.disabled(j, 0)
    ensures InOrder(w, 0, k, q) == InOrder(w, 0, m, q)
    decreases m - k
  {
    if k < m {
      assert Decide(w, 0, k, q).None? && Extend(w, 0, k, q) == q;
      OffInOrder(w, q, k + 1, m);
    }
  }

  /** In order, rule `i` sees the response and acts. */
  lemma {:induction false} SequentialActs(rules: seq<Rule>, e: nat, i: nat, reply: Msg)
    requires WellFormed(rules) && Exposed(rules, e, i)
    ensures
      var w := TornWorld(rules, e, i, reply);
      var first := InOrder(w, 0, 0, Scope(ZERO_OPTIONS, None, map[]));
      if rules[i].action.RouteOptionsAction? then first.at == |rules| && first.result.options != ZERO_OPTIONS else first.at == i
  {
    var w := TornWorld(rules, e, i, reply);
    var tag := rules[e].action.tag;
    var q := Scope(ZERO_OPTIONS, None, map[]);
    OffInOrder(w, q, 0, e);
    assert Applies(w, e, q);
    var q1 := Extend(w, 0, e, q);
    assert tag in q1.named && q1.named[tag].outcome == Reply(reply) && q1.options == ZERO_OPTIONS;
    OffInOrder(w, q1, e + 1, i);
    var named := map t | t in rules[i].tags :: BindingView(NamedBinding(q1, t));
    assert named[tag] == Some(reply);
    assert Applies(w, i, q1);
    assert WellFormedRule(rules[i]);
    var action := rules[i].action;
    if action.RouteOptionsAction? {
      assert ApplyRouteOptions(ZERO_OPTIONS, action.add) != ZERO_OPTIONS;
      OffInOrder(w, Extend(w, 0, i, q1), i + 1, |rules|);
    } else {
      assert Decide(w, 0, i, q1).Some?;
      DecideAt(w, 0, i, q1);
    }
  }

  // ------------------------------------------------------------- the walk

  /** Rules that are off take a tick each. */
  lemma {:induction false} OffWalk(w: World, s: State, m: nat)
    requires w.live && s.ruleIndex <= m <= |w.rules| && forall j, t :: s.ruleIndex <= j < m ==> w.disabled(j, t)
    ensures Walk(w, s) == Walk(w, s.(ruleIndex := m, clock := s.clock + (m - s.ruleIndex)))
    decreases m - s.ruleIndex
  {
    if s.ruleIndex < m {
      OffWalk(w, Advance(Tick(w, s)), m);
    }
  }

  /** Nothing has happened yet, or one tagged exchange is under way and has not been recorded. */
  ghost predicate Quiet(s: State) {
    s.run == 0 && s.armed == [] && s.anonymous.None? && s.terminal.None? && s.namedResponses == map[] && s.options == ZERO_OPTIONS
  }

  lemma {:induction false} NothingToSettle(s: State)
    requires s.futures == []
    ensures Settle(s) == s
  {
  }

  lemma {:induction false} NoneNamed(s: State, tags: seq<string>)
    requires forall tag :: tag in s.namedFutures ==> s.namedFutures[tag].Resolved(s.clock)
    ensures UnresolvedTags(s, tags) == []
  {
    if tags != [] {
      NoneNamed(s, tags[1..]);
    }
  }

  ghost predicate UnderWay(s: State, tag: string, left: nat) {
    && |s.futures| == 1 && s.futures[0].id == 0 && s.futures[0].tag == tag && s.futures[0].doneAt == s.clock + left
    && s.settled == {}
    && s.namedFutures == map[tag := s.futures[0]]
  }

  lemma {:induction false} MatchLaunches(rules: seq<Rule>, e: nat, i: nat, reply: Msg, s: State)
    requires Exposed(rules, e, i)
    requires Quiet(s) && s.ruleIndex == e && s.futures == [] && s.settled == {} && s.namedFutures == map[]
    ensures
      var step := MatchStep(TornWorld(rules, e, i, reply), s);
      && step.Next? && step.state.ruleIndex == e + 1
      && Quiet(step.state) && UnderWay(step.state, rules[e].action.tag, i - e + 1)
  {
    var w := TornWorld(rules, e, i, reply);
    var s1 := CountOnce(Tick(w, s), true);
    assert MatchStep(w, s) == EvaluateStep(w, s1);
  }

  /** Rule `e` starts its exchange. */
  lemma {:induction false} StepLaunches(rules: seq<Rule>, e: nat, i: nat, reply: Msg, s: State)
    requires WellFormed(rules) && Exposed(rules, e, i)
    requires Quiet(s) && s.ruleIndex == e && s.futures == [] && s.settled == {} && s.namedFutures == map[]
    ensures
      var w := TornWorld(rules, e, i, reply);
      var step := Step(w, s);
      && step.Next? && step.state.ruleIndex == e + 1
      && Quiet(step.state) && UnderWay(step.state, rules[e].action.tag, i - e + 1)
  {
    var w := TornWorld(rules, e, i, reply);
    var s1 := Tick(w, s);
    assert WellFormedRule(rules[e]);
    NothingToSettle(s1);
    var s2 := if rules[e].HasBindings() then TickWithin(w, s1) else s1;
    NoneNamed(s2, rules[e].tags);
    MatchLaunches(rules, e, i, reply, s2);
    hide MatchStep, Quiet, UnderWay;
    assert Step(w, s) == MatchStep(w, s2);
  }

  /** At rule `i` the exchange completes after settling: the rule is judged without the response and passed over. */
  lemma {:induction false} StepPasses(rules: seq<Rule>, e: nat, i: nat, reply: Msg, s: State)
    requires WellFormed(rules) && Exposed(rules, e, i)
    requires Quiet(s) && s.ruleIndex == i && UnderWay(s, rules[e].action.tag, 2)
    ensures
      var step := Step(TornWorld(rules, e, i, reply), s);
      step.Next? && step.state.ruleIndex == i + 1 && Quiet(step.state)
  {
    var w := TornWorld(rules, e, i, reply);
    var r, tag := rules[i], rules[e].action.tag;
    var s1 := Tick(w, s);
    assert SettleFrom(SettleOne(s1, s1.futures[0]), 1) == s1;
    assert Settle(s1) == s1;
    var s2 := TickWithin(w, s1);
    NoneNamed(s2, r.tags);
    assert Unresolved(s2, r) == [];
    if r.race {
      JudgePasses(w, s2, i, tag);
    } else {
      assert !WalkMatches(w, Tick(w, s2));
    }
  }

  lemma {:induction false} JudgePasses(w: World, s: State, i: nat, tag: string)
    requires Torn(w) && Quiet(s) && s.ruleIndex == i < |w.rules| && w.rules[i].race && Unresolved(s, w.rules[i]) == [] && tag in w.rules[i].tags
    requires forall t :: !w.disabled(i, t)
    requires forall anonymous, named: map<string, Option<Msg>> :: tag in named && named[tag].None? ==> !w.matches(i, anonymous, named)
    ensures ArmRule(w, s).Next? && ArmRule(w, s).state.ruleIndex == i + 1 && Quiet(ArmRule(w, s).state)
  {
    var a := NewArmed(w, s);
    var s1 := s.(armed := s.armed + [a]);
    assert s1.armed == [a];
    var s2 := TickWithin(w, s1);
    assert RemoveAt(s2.armed, 0) == [];
    var s3 := s2.(armed := []);
    assert !ArmedMatches(w, TickWithin(w, s3), a);
    var judged := Judge(w, s3, a);
    assert judged.1.Nothing? && judged.0.armed == [];
    assert SweepFrom(w, judged.0, 0) == (judged.0, Nothing);
    assert Sweep(w, s1) == (judged.0, Nothing);
  }

  /** The walk goes through all rules and asks the default server with the options it started with. */
  lemma {:induction false} TornWalk(rules: seq<Rule>, e: nat, i: nat, reply: Msg)
    requires WellFormed(rules) && Exposed(rules, e, i)
    ensures
      var w := TornWorld(rules, e, i, reply);
      var walked := Walk(w, Start(0, 0, ZERO_OPTIONS));
      walked.0.run == 0 && walked.1 == Suspend(Exchange(Pending(w.defaultTransport, ZERO_OPTIONS, None, None)))
  {
    hide Step;
    var w := TornWorld(rules, e, i, reply);
    var s0 := Start(0, 0, ZERO_OPTIONS);
    OffWalk(w, s0, e);
    var s1 := s0.(ruleIndex := e, clock := e);
    StepLaunches(rules, e, i, reply, s1);
    var s2 := Step(w, s1).state;
    OffWalk(w, s2, i);
    var s3 := s2.(ruleIndex := i, clock := s2.clock + (i - e - 1));
    StepPasses(rules, e, i, reply, s3);
    var s4 := Step(w, s3).state;
    OffWalk(w, s4, |rules|);
  }

  lemma {:induction false} DriveDefault(w: World, s: State, p: Pending)
    requires Sound(s) && Suspended(s, Exchange(p)) && p.future.None?
    ensures Drive(w, s, Exchange(p)).1.Finished?
    ensures
      var d := Drive(w, s, Exchange(p)).1.decision;
      d.at == PendingAt(w, p) && d.result.options == p.options
  {
    SettledSound(w, s);
    EmptySweep(w, Settle(Tick(w, s)));
  }

  // ------------------------------------------------------------- the limit

  /** Whatever the rules, if one that shows binds a tagged response then some schedule with torn reads breaks the law. */
  lemma {:induction false} TornReadsBreakTheLaw(rules: seq<Rule>, e: nat, i: nat, reply: Msg)
    requires WellFormed(rules) && Exposed(rules, e, i)
    ensures
      var w := TornWorld(rules, e, i, reply);
      w.rules == rules && Steady(w) && Torn(w) && !Lawful(w, 0, 0, ZERO_OPTIONS)
  {
    hide Walk, InOrder, Drive;
    var w := TornWorld(rules, e, i, reply);
    var s := Start(0, 0, ZERO_OPTIONS);
    SequentialActs(rules, e, i, reply);
    TornWalk(rules, e, i, reply);
    assert Sound(s);
    WalkSound(w, s);
    DriveDefault(w, Walk(w, s).0, Walk(w, s).1.suspension.pending);
  }

  ghost predicate LawfulUnderTornReads(rules: seq<Rule>) {
    forall w: World, run: nat, from: nat, options: QueryOptions ::
      w.rules == rules && Steady(w) && Torn(w) && from <= |rules| ==> Lawful(w, run, from, options)
  }

  /** If any rule binds a tagged response, then one that shows binds one that is asked for. */
  ghost predicate TagsShow(rules: seq<Rule>) {
    (exists i :: 0 <= i < |rules| && rules[i].tags != []) ==> exists e: nat, i: nat :: Exposed(rules, e, i)
  }

  /**
   The law holds for every schedule, completions between settling and reading included, exactly
   when no rule binds a tagged response.
   */
  lemma {:induction false} LawfulExactlyWithoutTags(rules: seq<Rule>)
    requires WellFormed(rules) && TagsShow(rules)
    ensures LawfulUnderTornReads(rules) <==> forall i :: 0 <= i < |rules| ==> rules[i].tags == []
  {
    if forall i :: 0 <= i < |rules| ==> rules[i].tags == [] {
      forall w: World, run: nat, from: nat, options: QueryOptions | w.rules == rules && Steady(w) && Torn(w) && from <= |rules|
        ensures Lawful(w, run, from, options)
      {
        SpeedMattersOnlyAmongRaceRules(w, run, from, options);
      }
    } else {
      var e: nat, i: nat :| Exposed(rules, e, i);
      var reply := Msg(0, RCODE_SUCCESS, [], [], [], []);
      TornReadsBreakTheLaw(rules, e, i, reply);
      assert !Lawful(TornWorld(rules, e, i, reply), 0, 0, ZERO_OPTIONS);
    }
  }
}
