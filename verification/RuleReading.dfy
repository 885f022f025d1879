/**
 What a decision of the rule walk means, in terms of the rules, the servers and their answers
 alone: which rule decides, which server is asked with which options, and what is answered.
 */
module RuleReading {
  import opened Dns
  import opened RuleWalk
  import opened RuleDriver
  import opened RuleOrder
  import opened RuleAgreement

  // ------------------------------------------------------------- single rules

  /** Options with a rule's laid over them: each is the rule's where the rule sets it, and as before otherwise. */
  ghost predicate Overlaid(before: QueryOptions, add: RouteOptions, after: QueryOptions) {
    && after.strategy == before.strategy
    && (after.disableCache <==> before.disableCache || add.disableCache)
    && (after.disableOptimisticCache <==> before.disableOptimisticCache || add.disableOptimisticCache)
    && after.rewriteTTL == (if add.rewriteTTL.Some? then add.rewriteTTL else before.rewriteTTL)
    && after.timeout == (if add.timeout > 0 then add.timeout else before.timeout)
    && (add.removeClientSubnet ==> after.clientSubnet.None? && after.removeClientSubnet)
    && (!add.removeClientSubnet && add.clientSubnet.Some? ==> after.clientSubnet == add.clientSubnet && !after.removeClientSubnet)
    && (!add.removeClientSubnet && add.clientSubnet.None? ==>
          after.clientSubnet == before.clientSubnet && after.removeClientSubnet == before.removeClientSubnet)
  }

  /** The outcome of asking a server for a rule: with the options given, and the default strategy if they name none. */
  ghost predicate Asked(w: World, run: nat, rule: nat, server: Transport, options: QueryOptions, outcome: Outcome) {
    outcome == w.answer(run, rule, server, options.(strategy := if options.strategy != AsIs then options.strategy else w.defaultStrategy))
  }

  /** The result holds the outcome of an exchange: its message, or no message and its error. */
  ghost predicate Holds(result: Result, outcome: Outcome) {
    match outcome
    case Reply(msg) => result.response == Some(msg) && result.err.None?
    case Failed(error) => result.response.None? && result.err == Some(error)
  }

  ghost predicate Shows(b: Option<Binding>, response: Option<Msg>) {
    if b.Some? && b.value.outcome.Reply? then response == Some(b.value.outcome.msg) else response.None?
  }

  /** What a rule is matched against: the anonymous response if it binds it, and each tagged response it names. */
  ghost predicate Sees(r: Rule, q: Scope, anonymous: Option<Msg>, named: map<string, Option<Msg>>) {
    && (if r.anonymous then Shows(q.anonymous, anonymous) else anonymous.None?)
    && (forall tag :: tag in named <==> tag in r.tags)
    && (forall tag :: tag in named ==> Shows(if tag in q.named then Some(q.named[tag]) else None, named[tag]))
  }

  /** The rule is on and matches what it sees. */
  ghost predicate Fires(w: World, i: nat, q: Scope)
    requires i < |w.rules|
  {
    !w.disabled(i, 0) && forall anonymous, named :: Sees(w.rules[i], q, anonymous, named) ==> w.matches(i, anonymous, named)
  }

  /** A server that a route may go to. */
  predicate Open(w: World, server: string) {
    server in w.transports && (w.transports[server].fakeIP ==> w.allowFakeIP)
  }

  /** The rule leaves the decision to others. */
  ghost predicate Idle(w: World, i: nat, q: Scope)
    requires i < |w.rules|
  {
    var action := w.rules[i].action;
    !Fires(w, i, q) || action.RouteOptionsAction? || action.Evaluate? || (action.Route? && !Open(w, action.server))
  }

  /** What the rule leaves in place for the ones after it. */
  ghost predicate Leaves(w: World, run: nat, i: nat, q: Scope, after: Scope)
    requires i < |w.rules|
  {
    if !Fires(w, i, q) then after == q
    else
      match w.rules[i].action
      case RouteOptionsAction(add) => Overlaid(q.options, add, after.options) && after == q.(options := after.options)
      case Evaluate(server, tag, _, add) =>
        if server !in w.transports then after == (if tag == "" then q.(anonymous := None) else q)
        else exists options, outcome ::
          && Overlaid(q.options, add, options)
          && Asked(w, run, i, w.transports[server], options, outcome)
          && after == (if tag == "" then q.(anonymous := Some(Binding(w.transports[server], outcome)))
                       else q.(named := q.named[tag := Binding(w.transports[server], outcome)]))
      case _ => after == q
  }

  /** The decision of a rule that fires. */
  ghost predicate Decides(w: World, run: nat, i: nat, q: Scope, result: Result)
    requires i < |w.rules|
  {
    && Fires(w, i, q)
    && match w.rules[i].action
       case RouteOptionsAction(_) => false
       case Evaluate(_, _, _, _) => false
       case Respond => Responds(w.rules[i], i, q, result)
       case Route(server, _, add) => Routes(w, run, i, server, add, q.options, result)
       case Reject(kind, rcode) => Rejects(w, i, kind, rcode, q.options, result)
       case Predefined => result == Result(Some(w.predefined(i, q.options)), None, Some(i), q.options, false, None)
  }

  /** The response bound by the rule, or the anonymous one, with the server that gave it; an error if there is none. */
  ghost predicate Responds(r: Rule, i: nat, q: Scope, result: Result) {
    var b := if r.respondTag == "" then q.anonymous else if r.respondTag in q.named then Some(q.named[r.respondTag]) else None;
    if b.Some? && b.value.outcome.Reply?
    then result == Result(Some(b.value.outcome.msg), Some(b.value.transport), Some(i), q.options, false, None)
    else result.response.None? && result.err == Some(MissingResponse) && result.rule.None?
  }

  /** The server the rule names is asked, with the options of the scope and the rule's own; a fake server's answer is not cached. */
  ghost predicate Routes(w: World, run: nat, i: nat, server: string, add: RouteOptions, options: QueryOptions, result: Result) {
    && Open(w, server)
    && result.transport == Some(w.transports[server]) && result.rule == Some(i) && !result.rejected
    && (w.transports[server].fakeIP ==> result.options.disableCache)
    && Overlaid(options, if w.transports[server].fakeIP then add.(disableCache := true) else add, result.options)
    && exists outcome :: Asked(w, run, i, w.transports[server], result.options, outcome) && Holds(result, outcome)
  }

  /** A refusal answers the question asked, with the rule's code, else the configured one, else REFUSED; a drop answers nothing. */
  ghost predicate Rejects(w: World, i: nat, kind: RejectMethod, rcode: int, options: QueryOptions, result: Result) {
    && result.rule == Some(i) && result.rejected && result.options == options && result.transport.None?
    && match kind
       case Drop => result.response.None? && result.err == Some(Dropped)
       case Refuse =>
         && result.err.None? && result.response.Some?
         && result.response.value.id == w.query.id
         && result.response.value.question == (if w.query.question == [] then [] else [w.query.question[0]])
         && result.response.value.answer == [] && result.response.value.ns == [] && result.response.value.extra == []
         && result.response.value.rcode == (if rcode != -1 then rcode else if w.defaultRejectRcode != -1 then w.defaultRejectRcode else 5)
  }

  // ---------------------------------------------------------- the whole list

  /**
   The decision as read from the rules: the scopes in which the rules are read, one after the
   other, up to the deciding one; those in between leave the decision to others, or are race
   rules that a race rule has overtaken.
   */
  ghost predicate Reads(w: World, run: nat, from: nat, options: QueryOptions, d: Decision, scopes: seq<Scope>) {
    && from <= d.at <= |w.rules| && |scopes| == d.at - from + 1
    && scopes[0] == Scope(options, None, map[])
    && (forall i :: from <= i < d.at ==> PassedOver(w, run, from, d, scopes, i))
    && (if d.at < |w.rules| then Decides(w, run, d.at, scopes[d.at - from], d.result)
        else AsksDefault(w, run, scopes[d.at - from].options, d.result))
  }

  /** The rule stands before the decision without making it. */
  ghost predicate Passes(w: World, run: nat, i: nat, q: Scope, after: Scope, d: Decision)
    requires i < |w.rules|
  {
    && Leaves(w, run, i, q, after)
    && (Idle(w, i, q) || (w.rules[i].race && d.at < |w.rules| && w.rules[d.at].race))
  }

  ghost predicate PassedOver(w: World, run: nat, from: nat, d: Decision, scopes: seq<Scope>, i: nat) {
    && from <= i < |w.rules| && i - from + 1 < |scopes|
    && Passes(w, run, i, scopes[i - from], scopes[i - from + 1], d)
  }

  ghost predicate AsksDefault(w: World, run: nat, options: QueryOptions, result: Result) {
    && result.transport == Some(w.defaultTransport) && result.rule.None? && !result.rejected && result.options == options
    && exists outcome :: Asked(w, run, |w.rules|, w.defaultTransport, options, outcome) && Holds(result, outcome)
  }

  // ------------------------------------------------------------------ proofs

  lemma {:induction false} OverlaidBy(options: QueryOptions, add: RouteOptions)
    ensures Overlaid(options, add, ApplyRouteOptions(options, add))
    ensures Overlaid(options, add.(disableCache := true), ApplyRouteOptions(options, add).(disableCache := true))
  {
  }

  lemma {:induction false} FiresIs(w: World, i: nat, q: Scope)
    requires i < |w.rules|
    ensures Fires(w, i, q) <==> Applies(w, i, q)
  {
    var r := w.rules[i];
    var anonymous := if r.anonymous then BindingView(q.anonymous) else None;
    var named := map tag | tag in r.tags :: BindingView(NamedBinding(q, tag));
    assert Sees(r, q, anonymous, named);
    forall a, n | Sees(r, q, a, n)
      ensures a == anonymous && n == named
    {
    }
  }

  lemma {:induction false} ExtendLeaves(w: World, run: nat, i: nat, q: Scope)
    requires i < |w.rules|
    ensures Leaves(w, run, i, q, Extend(w, run, i, q))
  {
    hide Applies, Fires;
    FiresIs(w, i, q);
    match w.rules[i].action
    case RouteOptionsAction(add) => OverlaidBy(q.options, add);
    case Evaluate(server, tag, _, add) =>
      if Fires(w, i, q) && server in w.transports {
        OverlaidBy(q.options, add);
        var options := ApplyRouteOptions(q.options, add);
        assert Asked(w, run, i, w.transports[server], options, w.answer(run, i, w.transports[server], FinalOptions(w, options)));
      }
    case _ =>
  }

  lemma {:induction false} DecideDecides(w: World, run: nat, i: nat, q: Scope)
    requires i < |w.rules|
    ensures
      var d := Decide(w, run, i, q);
      if d.Some? then Decides(w, run, i, q, d.value.result) && d.value.at == i else Idle(w, i, q)
  {
    hide Applies, Fires;
    FiresIs(w, i, q);
    if Fires(w, i, q) && w.rules[i].action.Route? {
      RouteRoutes(w, run, i, q);
    }
  }

  lemma {:induction false} RouteRoutes(w: World, run: nat, i: nat, q: Scope)
    requires i < |w.rules| && w.rules[i].action.Route? && Applies(w, i, q)
    ensures
      var action, d := w.rules[i].action, Decide(w, run, i, q);
      if Open(w, action.server) then d.Some? && d.value.at == i && Routes(w, run, i, action.server, action.add, q.options, d.value.result) else d.None?
  {
    hide Applies;
    var action := w.rules[i].action;
    OverlaidBy(q.options, action.add);
    if Open(w, action.server) {
      var t := w.transports[action.server];
      var result := Decide(w, run, i, q).value.result;
      var outcome := w.answer(run, i, t, FinalOptions(w, result.options));
      assert Asked(w, run, i, t, result.options, outcome) && Holds(result, outcome);
    }
  }

  lemma {:induction false} VerdictPasses(w: World, run: nat, from: nat, options: QueryOptions, d: Decision, i: nat)
    requires Verdict(w, run, from, Scope(options, None, map[]), d) && from <= i < d.at
    ensures
      var q := Scope(options, None, map[]);
      && ScopeAt(w, run, from, q, i).Some? && ScopeAt(w, run, from, q, i + 1).Some?
      && Passes(w, run, i, ScopeAt(w, run, from, q, i).value, ScopeAt(w, run, from, q, i + 1).value, d)
  {
    hide Leaves, Idle, Decide, Extend;
    var q := Scope(options, None, map[]);
    ScopeReaches(w, run, from, q, d.at, i);
    var p := ScopeAt(w, run, from, q, i).value;
    ExtendLeaves(w, run, i, p);
    DecideDecides(w, run, i, p);
    assert w.rules[i].race && !(d.at < |w.rules| && w.rules[d.at].race) ==> Declines(w, run, from, q, i);
  }

  lemma {:induction false} VerdictReads(w: World, run: nat, from: nat, options: QueryOptions, d: Decision)
    requires Verdict(w, run, from, Scope(options, None, map[]), d)
    ensures exists scopes :: Reads(w, run, from, options, d, scopes)
  {
    hide PassedOver, Decides, AsksDefault, Decide;
    var scopes := Scopes(w, run, from, Scope(options, None, map[]), d);
    forall i | from <= i < d.at
      ensures PassedOver(w, run, from, d, scopes, i)
    {
      ScopesPass(w, run, from, options, d, i);
    }
    LastDecides(w, run, from, options, d);
    assert Reads(w, run, from, options, d, scopes);
  }

  /** The scopes of the rules up to the deciding one. */
  ghost function Scopes(w: World, run: nat, from: nat, q: Scope, d: Decision): (scopes: seq<Scope>)
    requires Verdict(w, run, from, q, d)
    ensures |scopes| == d.at - from + 1
    ensures forall k :: 0 <= k < |scopes| ==> ScopeAt(w, run, from, q, from + k) == Some(scopes[k])
  {
    assert forall j | from <= j <= d.at :: ScopeAt(w, run, from, q, j).Some? by {
      forall j | from <= j <= d.at
        ensures ScopeAt(w, run, from, q, j).Some?
      {
        ScopeReaches(w, run, from, q, d.at, j);
      }
    }
    seq(d.at - from + 1, k requires 0 <= k <= d.at - from => ScopeAt(w, run, from, q, from + k).value)
  }

  lemma {:induction false} ScopesPass(w: World, run: nat, from: nat, options: QueryOptions, d: Decision, i: nat)
    requires Verdict(w, run, from, Scope(options, None, map[]), d) && from <= i < d.at
    ensures PassedOver(w, run, from, d, Scopes(w, run, from, Scope(options, None, map[]), d), i)
  {
    hide Passes, Decide;
    var q := Scope(options, None, map[]);
    var scopes := Scopes(w, run, from, q, d);
    VerdictPasses(w, run, from, options, d, i);
    assert ScopeAt(w, run, from, q, from + (i - from)) == Some(scopes[i - from]);
    assert ScopeAt(w, run, from, q, from + (i - from + 1)) == Some(scopes[i - from + 1]);
  }

  lemma {:induction false} LastDecides(w: World, run: nat, from: nat, options: QueryOptions, d: Decision)
    requires Verdict(w, run, from, Scope(options, None, map[]), d)
    ensures
      var p := ScopeAt(w, run, from, Scope(options, None, map[]), d.at).value;
      if d.at < |w.rules| then Decides(w, run, d.at, p, d.result) else AsksDefault(w, run, p.options, d.result)
  {
    var p := ScopeAt(w, run, from, Scope(options, None, map[]), d.at).value;
    if d.at < |w.rules| {
      DecideDecides(w, run, d.at, p);
    } else {
      var outcome := w.answer(run, |w.rules|, w.defaultTransport, FinalOptions(w, p.options));
      assert Asked(w, run, |w.rules|, w.defaultTransport, p.options, outcome) && Holds(d.result, outcome);
    }
  }

  /**
   For every schedule, the decision of a run is one that the rules, the servers and their answers
   give by themselves: the deciding rule fires in its place, a route asks the server it names, and
   the rules before it leave the decision to it.
   */
  lemma {:induction false} RunReads(w: World, run: nat, from: nat, options: QueryOptions)
    requires Admissible(w) && from <= |w.rules|
    ensures Sound(Start(run, from, options)) && Run(w, Start(run, from, options)).1.Finished?
    ensures exists scopes :: Reads(w, run, from, options, Run(w, Start(run, from, options)).1.decision, scopes)
  {
    hide Verdict, Reads;
    SpeedMattersOnlyAmongRaceRules(w, run, from, options);
    VerdictReads(w, run, from, options, Run(w, Start(run, from, options)).1.decision);
  }

  // ------------------------------------------------------------------ queries ahead of time

  /** The action sends a query while the walk goes on: an evaluate rule that need not wait for race rules, or a speculative route that must. */
  predicate SendsAhead(w: World, s: State, action: Action) {
    match action
    case Evaluate(server, _, speculative, _) => server in w.transports && (s.armed == [] || speculative)
    case Route(server, speculative, _) => Open(w, server) && s.armed != [] && speculative && s.terminal.None?
    case _ => false
  }

  /** The query that rule `i` asks for, to the server it names. */
  ghost predicate AskedFor(w: World, run: nat, i: nat, options: QueryOptions, f: Future)
    requires i < |w.rules|
  {
    var action := w.rules[i].action;
    && (action.Evaluate? || action.Route?)
    && action.server in w.transports && f.transport == w.transports[action.server] && f.rule == i
    && exists add, after ::
         && (add == action.add || (action.Route? && f.transport.fakeIP && add == action.add.(disableCache := true)))
         && Overlaid(options, add, after) && Asked(w, run, i, f.transport, after, f.outcome)
  }

  /** What an action does not decide or pass at once it leaves until the race rules before it are judged. */
  predicate LeftForRaceRules(w: World, s: State, action: Action) {
    && s.armed != []
    && match action
       case RouteOptionsAction(_) => false
       case Evaluate(server, _, speculative, _) => server in w.transports && !speculative
       case Route(server, _, _) => Open(w, server)
       case _ => true
  }

  /**
   The action of a matched rule sends at most one query ahead, exactly when it may, and to the server
   it names; and it waits for the race rules before it exactly when their decision would come first.
   */
  lemma {:induction false} SendsExactlyWhen(w: World, s: State)
    requires s.ruleIndex < |w.rules|
    ensures
      var action, step := w.rules[s.ruleIndex].action, ActStep(w, s);
      && (SendsAhead(w, s, action) ==>
            && |step.state.futures| == |s.futures| + 1 && step.state.futures[..|s.futures|] == s.futures
            && AskedFor(w, s.run, s.ruleIndex, s.options, step.state.futures[|s.futures|]))
      && (!SendsAhead(w, s, action) ==> step.state.futures == s.futures)
      && (LeftForRaceRules(w, s, action) <==> step.Stop? && step.outcome == Suspend(Drain))
  {
    var action := w.rules[s.ruleIndex].action;
    if action.Evaluate? && SendsAhead(w, s, action) {
      EvaluateSends(w, s);
    } else if action.Route? {
      RouteSends(w, s);
    }
  }

  lemma {:induction false} EvaluateSends(w: World, s: State)
    requires s.ruleIndex < |w.rules| && w.rules[s.ruleIndex].action.Evaluate? && SendsAhead(w, s, w.rules[s.ruleIndex].action)
    ensures
      var step := EvaluateStep(w, s);
      && step.Next? && |step.state.futures| == |s.futures| + 1 && step.state.futures[..|s.futures|] == s.futures
      && AskedFor(w, s.run, s.ruleIndex, s.options, step.state.futures[|s.futures|])
  {
    var action := w.rules[s.ruleIndex].action;
    OverlaidBy(s.options, action.add);
    var after := ApplyRouteOptions(s.options, action.add);
    var f := NewFuture(w, s, action.tag, w.transports[action.server], after);
    assert Overlaid(s.options, action.add, after) && Asked(w, s.run, s.ruleIndex, f.transport, after, f.outcome);
    assert EvaluateStep(w, s).state.futures == s.futures + [f];
  }

  lemma {:induction false} RouteSends(w: World, s: State)
    requires s.ruleIndex < |w.rules| && w.rules[s.ruleIndex].action.Route?
    ensures
      var action, step := w.rules[s.ruleIndex].action, RouteStep(w, s);
      && (SendsAhead(w, s, action) ==>
            && |step.state.futures| == |s.futures| + 1 && step.state.futures[..|s.futures|] == s.futures
            && AskedFor(w, s.run, s.ruleIndex, s.options, step.state.futures[|s.futures|]))
      && (!SendsAhead(w, s, action) ==> step.state.futures == s.futures)
      && (LeftForRaceRules(w, s, action) <==> step.Stop? && step.outcome == Suspend(Drain))
  {
    var action := w.rules[s.ruleIndex].action;
    if SendsAhead(w, s, action) {
      OverlaidBy(s.options, action.add);
      var t := w.transports[action.server];
      var add := if t.fakeIP then action.add.(disableCache := true) else action.add;
      var after := ResolveRoute(w, action.server, action.add, s.options).value.1;
      var f := NewFuture(w, s, "", t, after);
      assert Overlaid(s.options, add, after) && Asked(w, s.run, s.ruleIndex, f.transport, after, f.outcome);
      assert RouteStep(w, s).state.futures == s.futures + [f];
    }
  }
}
