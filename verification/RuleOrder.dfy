/**
 What the rule walk computes. The reference is a sequential reading of the rules in
 which every exchange is finished before the next rule is looked at. The concurrent
 walk agrees with it for every schedule of completions; where race rules are present
 the two may differ only in which matching race rule decides.
 */
module RuleOrder {
  import opened Dns
  import opened RuleWalk
  import opened RuleDriver

  // ------------------------------------------------- the sequential reference

  datatype Binding = Binding(transport: Transport, outcome: Outcome)

  /** What the rules read so far have put in place. */
  datatype Scope = Scope(options: QueryOptions, anonymous: Option<Binding>, named: map<string, Binding>)

  function BindingView(b: Option<Binding>): Option<Msg> {
    if b.Some? then View(b.value.outcome) else None
  }

  function BindingTransport(b: Option<Binding>): Option<Transport> {
    if b.Some? then Some(b.value.transport) else None
  }

  function NamedBinding(q: Scope, tag: string): Option<Binding> {
    if tag in q.named then Some(q.named[tag]) else None
  }

  predicate Applies(w: World, i: nat, q: Scope)
    requires i < |w.rules|
  {
    var r := w.rules[i];
    && !w.disabled(i, 0)
    && w.matches(i, if r.anonymous then BindingView(q.anonymous) else None,
                 map tag | tag in r.tags :: BindingView(NamedBinding(q, tag)))
  }

  function Answer(w: World, run: nat, at: nat, rule: Option<nat>, transport: Transport, options: QueryOptions): Decision {
    var outcome := w.answer(run, at, transport, FinalOptions(w, options));
    Decision(Result(View(outcome), Some(transport), rule, options, false, ErrorOf(outcome)), at)
  }

  /** The decision of rule `i`, if it makes one. */
  function Decide(w: World, run: nat, i: nat, q: Scope): Option<Decision>
    requires i < |w.rules|
  {
    var r := w.rules[i];
    if !Applies(w, i, q) then None
    else
      match r.action
      case RouteOptionsAction(_) => None
      case Evaluate(_, _, _, _) => None
      case Respond =>
        var b := if r.respondTag != "" then NamedBinding(q, r.respondTag) else q.anonymous;
        Some(RespondDecision(i, BindingView(b), BindingTransport(b), q.options))
      case Route(server, _, add) =>
        (match ResolveRoute(w, server, add, q.options)
         case None => None
         case Some(pair) => Some(Answer(w, run, i, Some(i), pair.0, pair.1)))
      case Reject(_, _) => Some(Decision(RejectResult(w, i, r.action, q.options), i))
      case Predefined => Some(Decision(PredefinedResult(w, i, q.options), i))
  }

  /** What rule `i` leaves behind when it makes no decision. */
  function Extend(w: World, run: nat, i: nat, q: Scope): Scope
    requires i < |w.rules|
  {
    if !Applies(w, i, q) then q
    else
      match w.rules[i].action
      case RouteOptionsAction(add) => q.(options := ApplyRouteOptions(q.options, add))
      case Evaluate(server, tag, _, add) =>
        if server !in w.transports then (if tag == "" then q.(anonymous := None) else q)
        else
          var transport := w.transports[server];
          var b := Binding(transport, w.answer(run, i, transport, FinalOptions(w, ApplyRouteOptions(q.options, add))));
          if tag == "" then q.(anonymous := Some(b)) else q.(named := q.named[tag := b])
      case _ => q
  }

  /** The sequential evaluator. */
  function InOrder(w: World, run: nat, i: nat, q: Scope): Decision
    decreases |w.rules| - i
  {
    if i >= |w.rules| then Answer(w, run, |w.rules|, None, w.defaultTransport, q.options)
    else
      match Decide(w, run, i, q)
      case Some(decision) => decision
      case None => InOrder(w, run, i + 1, Extend(w, run, i, q))
  }

  /** The scope in which rule `j` is read when no rule before it decides; race rules before it are passed over. */
  function ScopeAt(w: World, run: nat, from: nat, q: Scope, j: nat): Option<Scope>
    requires j <= |w.rules|
    decreases j
  {
    if j <= from then Some(q)
    else
      match ScopeAt(w, run, from, q, j - 1)
      case None => None
      case Some(p) =>
        if !w.rules[j - 1].race && Decide(w, run, j - 1, p).Some? then None
        else Some(Extend(w, run, j - 1, p))
  }

  // ------------------------------------------------------------- assumptions

  /** The shape the configuration check gives every rule list. */
  ghost predicate WellFormed(rules: seq<Rule>) {
    && (forall i :: 0 <= i < |rules| ==> WellFormedRule(rules[i]))
    && (forall i, j :: 0 <= i < |rules| && 0 <= j < |rules| && rules[i].action.Evaluate? && rules[i].action.tag in rules[j].tags ==> i < j)
    && (forall i, j :: 0 <= i < |rules| && 0 <= j < |rules| && SameTag(rules[i].action, rules[j].action) ==> i == j)
  }

  ghost predicate SameTag(a: Action, b: Action) {
    a.Evaluate? && b.Evaluate? && a.tag == b.tag && a.tag != ""
  }

  ghost predicate WellFormedRule(r: Rule) {
    && (r.race ==> r.HasBindings() && !r.action.RouteOptionsAction? && !r.action.Evaluate?)
    && (r.respondTag != "" ==> r.tags == [r.respondTag] && !r.anonymous)
    && (r.action.Respond? && r.tags != [] ==> r.respondTag != "")
    && "" !in r.tags
  }

  /** No rule is switched on or off during the query, and the caller does not give up. */
  ghost predicate Steady(w: World) {
    && (forall i, t :: w.disabled(i, t) == w.disabled(i, 0))
    && (forall t :: !w.cancelled(t))
  }

  /** What is recorded is complete when it is used, or no rule binds a tagged response. */
  ghost predicate Consistent(w: World) {
    Torn(w) ==> forall i :: 0 <= i < |w.rules| ==> w.rules[i].tags == []
  }

  ghost predicate Admissible(w: World) {
    WellFormed(w.rules) && Steady(w) && Consistent(w)
  }

  // ------------------------------------------------------------------ verdict

  ghost predicate Declines(w: World, run: nat, from: nat, q: Scope, j: nat)
    requires j < |w.rules|
  {
    ScopeAt(w, run, from, q, j).Some? ==> Decide(w, run, j, ScopeAt(w, run, from, q, j).value).None?
  }

  /** No race rule from `from` up to `j` would decide. */
  ghost predicate NoRaceBefore(w: World, run: nat, from: nat, q: Scope, j: nat)
    requires j <= |w.rules|
  {
    forall i :: from <= i < j && w.rules[i].race ==> Declines(w, run, from, q, i)
  }

  /** `d` is what rule `d.at` decides in its place, and either that rule is a race rule or every race rule before it declines. */
  ghost predicate Verdict(w: World, run: nat, from: nat, q: Scope, d: Decision) {
    && from <= d.at <= |w.rules|
    && ScopeAt(w, run, from, q, d.at).Some?
    && (var p := ScopeAt(w, run, from, q, d.at).value;
        if d.at == |w.rules|
        then NoRaceBefore(w, run, from, q, d.at) && d == Answer(w, run, |w.rules|, None, w.defaultTransport, p.options)
        else Decide(w, run, d.at, p) == Some(d) && (w.rules[d.at].race || NoRaceBefore(w, run, from, q, d.at)))
  }

  /** Both decisions are made by race rules, `first` by the earliest that decides at all. */
  ghost predicate AmongRaceRules(w: World, first: Decision, d: Decision) {
    && first.at <= d.at < |w.rules|
    && w.rules[first.at].race
    && w.rules[d.at].race
  }

  lemma {:induction false} ScopeReaches(w: World, run: nat, from: nat, q: Scope, j: nat, i: nat)
    requires from <= i <= j <= |w.rules|
    requires ScopeAt(w, run, from, q, j).Some?
    ensures ScopeAt(w, run, from, q, i).Some?
    ensures i < j && !w.rules[i].race ==> Decide(w, run, i, ScopeAt(w, run, from, q, i).value).None?
    ensures i < j ==> ScopeAt(w, run, from, q, i + 1) == Some(Extend(w, run, i, ScopeAt(w, run, from, q, i).value))
    decreases j - i
  {
    if i < j {
      ScopeReaches(w, run, from, q, j, i + 1);
    }
  }

  /** A verdict is the sequential decision, up to a choice among race rules. */
  lemma {:induction false} VerdictInOrder(w: World, run: nat, from: nat, q: Scope, d: Decision, i: nat)
    requires Verdict(w, run, from, q, d) && from <= i <= d.at
    ensures ScopeAt(w, run, from, q, i).Some?
    ensures var first := InOrder(w, run, i, ScopeAt(w, run, from, q, i).value);
            first == d || (AmongRaceRules(w, first, d) && i <= first.at)
    decreases d.at - i
  {
    ScopeReaches(w, run, from, q, d.at, i);
    if i < d.at {
      VerdictInOrder(w, run, from, q, d, i + 1);
      var p := ScopeAt(w, run, from, q, i).value;
      if w.rules[i].race && Decide(w, run, i, p).Some? {
        assert !Declines(w, run, from, q, i);
        DecideAt(w, run, i, p);
      }
    }
  }

  lemma {:induction false} DecideAt(w: World, run: nat, i: nat, q: Scope)
    requires i < |w.rules|
    ensures Decide(w, run, i, q).Some? ==> Decide(w, run, i, q).value.at == i
  {
  }

  // ----------------------------------------------------------------- options

  /** Reading a rule never leaves a client subnet both set and removed. */
  lemma {:induction false} ScopeExclusive(w: World, run: nat, from: nat, q: Scope, j: nat)
    requires j <= |w.rules| && Exclusive(q.options) && ScopeAt(w, run, from, q, j).Some?
    ensures Exclusive(ScopeAt(w, run, from, q, j).value.options)
    decreases j
  {
    if from < j {
      ScopeExclusive(w, run, from, q, j - 1);
      var p, action := ScopeAt(w, run, from, q, j - 1).value, w.rules[j - 1].action;
      if action.RouteOptionsAction? {
        RouteOptionsWin(p.options, action.add);
      }
    }
  }

  /** So no verdict does. */
  lemma {:induction false} VerdictExclusive(w: World, run: nat, from: nat, q: Scope, d: Decision)
    requires Verdict(w, run, from, q, d) && Exclusive(q.options)
    ensures Exclusive(d.result.options)
  {
    ScopeExclusive(w, run, from, q, d.at);
    var p := ScopeAt(w, run, from, q, d.at).value;
    if d.at < |w.rules| && w.rules[d.at].action.Route? {
      RouteOptionsWin(p.options, w.rules[d.at].action.add);
    }
  }
}
