/**
 The exchange of the legacy mode: rules are matched before the query is sent, and a rule
 with an address limit is confirmed or passed over by the response.
 */
module Legacy {
  import opened Dns

  datatype Change = Change(
    strategy: Strategy,
    disableCache: bool,
    rewriteTTL: Option<nat>,
    timeout: nat,
    clientSubnet: Option<Prefix>,
    removeClientSubnet: bool)

  datatype Action =
    | Route(server: string, change: Change)
    | RouteOptions(change: Change)
    | Refuse(rcode: int)
    | Drop
    | Predefined

  datatype Rule = Rule(addressLimit: bool, action: Action)

  /** The rules, and what a query finds: which rules are on, which match it, and what the servers say. */
  datatype World = World(
    rules: seq<Rule>,
    addressQuery: bool,
    allowFakeIP: bool,
    transports: map<string, Transport>,
    defaultTransport: Transport,
    disabled: nat -> bool,
    matches: nat -> bool,
    rejected: (nat, QueryOptions) -> bool,                               // whether the response fails the rule's address limit
    answer: (Option<nat>, Transport, QueryOptions) -> Outcome)

  datatype Count = Count(rule: nat, hit: bool)

  datatype Verdict =
    | Refused(rule: nat, rcode: int)
    | DroppedBy(rule: nat)
    | Answered(rule: nat, options: QueryOptions)
    | Exchanged(source: Option<nat>, transport: Transport, options: QueryOptions, outcome: Outcome)

  function Apply(options: QueryOptions, change: Change, fakeIP: bool): QueryOptions {
    QueryOptions(
      if change.strategy != AsIs then change.strategy else options.strategy,
      options.disableCache || change.disableCache || fakeIP,
      options.disableOptimisticCache,
      if change.rewriteTTL.Some? then change.rewriteTTL else options.rewriteTTL,
      if change.timeout > 0 then change.timeout else options.timeout,
      if change.removeClientSubnet then None else if change.clientSubnet.Some? then change.clientSubnet else options.clientSubnet,
      change.removeClientSubnet || (options.removeClientSubnet && change.clientSubnet.None?))
  }

  // ---------------------------------------------------------------- one pass over the rules

  /** A rule is passed over unseen when it is off, or limits addresses of a query for something else. */
  predicate Skipped(w: World, i: nat)
    requires i < |w.rules|
  {
    w.disabled(i) || (w.rules[i].addressLimit && !w.addressQuery)
  }

  /** A route that can be taken: its server exists, and is not the fake one where that is not allowed. */
  predicate Usable(w: World, i: nat)
    requires i < |w.rules|
  {
    var action := w.rules[i].action;
    action.Route? && action.server in w.transports && (w.transports[action.server].fakeIP ==> w.allowFakeIP)
  }

  function RouteChange(w: World, i: nat, options: QueryOptions): QueryOptions
    requires i < |w.rules| && Usable(w, i)
  {
    var action := w.rules[i].action;
    Apply(options, action.change, w.transports[action.server].fakeIP)
  }

  /** A response that fails the address limit of the rule that asked for it. */
  predicate Passed(w: World, i: nat, options: QueryOptions)
    requires i < |w.rules| && Usable(w, i)
  {
    w.rules[i].addressLimit && w.rejected(i, RouteChange(w, i, options))
  }

  function RouteVerdict(w: World, i: nat, options: QueryOptions): Verdict
    requires i < |w.rules| && Usable(w, i)
  {
    var transport := w.transports[w.rules[i].action.server];
    Exchanged(Some(i), transport, RouteChange(w, i, options), w.answer(Some(i), transport, RouteChange(w, i, options)))
  }

  /**
   The rules from one on, each judged once: what is decided and how each rule counts. A
   rule whose response fails its limit counts as missed, and the options gathered so far
   are forgotten with it.
   */
  function Judge(w: World, i: nat, options: QueryOptions, base: QueryOptions): (Verdict, seq<Count>)
    requires i <= |w.rules|
    decreases |w.rules| - i
  {
    if i == |w.rules| then (Exchanged(None, w.defaultTransport, options, w.answer(None, w.defaultTransport, options)), [])
    else if Skipped(w, i) then Judge(w, i + 1, options, base)
    else if !w.matches(i) then Counted(i, false, Judge(w, i + 1, options, base))
    else
      match w.rules[i].action
      case RouteOptions(change) => Counted(i, true, Judge(w, i + 1, Apply(options, change, false), base))
      case Refuse(rcode) => (Refused(i, rcode), [Count(i, true)])
      case Drop => (DroppedBy(i), [Count(i, true)])
      case Predefined => (Answered(i, options), [Count(i, true)])
      case Route(_, _) =>
        if !Usable(w, i) then Counted(i, true, Judge(w, i + 1, options, base))
        else if Passed(w, i, options) then Counted(i, false, Judge(w, i + 1, base, base))
        else (RouteVerdict(w, i, options), [Count(i, true)])
  }

  function Counted(i: nat, hit: bool, rest: (Verdict, seq<Count>)): (Verdict, seq<Count>) {
    (rest.0, [Count(i, hit)] + rest.1)
  }

  function DecidedAt(w: World, v: Verdict): nat {
    match v
    case Refused(i, _) => i + 1
    case DroppedBy(i) => i + 1
    case Answered(i, _) => i + 1
    case Exchanged(source, _, _, _) => if source.Some? then source.value + 1 else |w.rules|
  }

  /** The rules in a range that a query is matched against. */
  function Evaluated(w: World, i: nat, end: nat): seq<nat>
    requires i <= end <= |w.rules|
    decreases end - i
  {
    if i == end then [] else (if Skipped(w, i) then [] else [i]) + Evaluated(w, i + 1, end)
  }

  function RulesOf(counts: seq<Count>): seq<nat> {
    if counts == [] then [] else [counts[0].rule] + RulesOf(counts[1..])
  }

  /** Exactly the rules evaluated are counted, each once and in order: those up to the deciding one that are not skipped. */
  lemma {:induction false} CountsExactlyTheEvaluated(w: World, i: nat, options: QueryOptions, base: QueryOptions)
    requires i <= |w.rules|
    ensures
      var (verdict, counts) := Judge(w, i, options, base);
      i <= DecidedAt(w, verdict) <= |w.rules| && RulesOf(counts) == Evaluated(w, i, DecidedAt(w, verdict))
    decreases |w.rules| - i
  {
    if i < |w.rules| {
      if Skipped(w, i) || !w.matches(i) {
        CountsExactlyTheEvaluated(w, i + 1, options, base);
      } else {
        match w.rules[i].action
        case RouteOptions(change) => CountsExactlyTheEvaluated(w, i + 1, Apply(options, change, false), base);
        case Route(_, _) =>
          CountsExactlyTheEvaluated(w, i + 1, options, base);
          CountsExactlyTheEvaluated(w, i + 1, base, base);
        case _ =>
      }
    }
  }

  // ---------------------------------------------------------------- what a verdict means

  /** A change laid over options: each is the change's where the change sets it, and as before otherwise. */
  ghost predicate Overlaid(before: QueryOptions, change: Change, fakeIP: bool, after: QueryOptions) {
    && after.strategy == (if change.strategy == AsIs then before.strategy else change.strategy)
    && (after.disableCache <==> before.disableCache || change.disableCache || fakeIP)
    && after.disableOptimisticCache == before.disableOptimisticCache
    && (change.rewriteTTL.Some? ==> after.rewriteTTL == change.rewriteTTL)
    && (change.rewriteTTL.None? ==> after.rewriteTTL == before.rewriteTTL)
    && after.timeout == (if change.timeout == 0 then before.timeout else change.timeout)
    && (change.removeClientSubnet ==> after.clientSubnet.None? && after.removeClientSubnet)
    && (!change.removeClientSubnet && change.clientSubnet.Some? ==> after.clientSubnet == change.clientSubnet && !after.removeClientSubnet)
    && (!change.removeClientSubnet && change.clientSubnet.None? ==>
          after.clientSubnet == before.clientSubnet && after.removeClientSubnet == before.removeClientSubnet)
  }

  lemma {:induction false} ApplyOverlays(options: QueryOptions, change: Change, fakeIP: bool)
    ensures Overlaid(options, change, fakeIP, Apply(options, change, fakeIP))
  {
  }

  /** The rule is on, is meant for such a query, and matches it. */
  predicate Fires(w: World, i: nat)
    requires i < |w.rules|
  {
    !w.disabled(i) && (w.rules[i].addressLimit ==> w.addressQuery) && w.matches(i)
  }

  /** A rule that leaves the decision to later ones: it does not fire, only sets options, has no server to ask, or its response fails its limit. */
  ghost predicate PassedBy(w: World, i: nat)
    requires i < |w.rules|
  {
    var r := w.rules[i];
    Fires(w, i) ==>
      || r.action.RouteOptions?
      || (r.action.Route? && (r.action.server !in w.transports || (w.transports[r.action.server].fakeIP && !w.allowFakeIP)))
      || (r.action.Route? && r.addressLimit && exists options :: w.rejected(i, options))
  }

  /** What the verdict of the deciding rule says: the reply it prescribes, or the answer of the server it names. */
  ghost predicate DecidedBy(w: World, v: Verdict) {
    match v
    case Refused(i, rcode) => i < |w.rules| && Fires(w, i) && w.rules[i].action == Refuse(rcode)
    case DroppedBy(i) => i < |w.rules| && Fires(w, i) && w.rules[i].action == Drop
    case Answered(i, _) => i < |w.rules| && Fires(w, i) && w.rules[i].action == Predefined
    case Exchanged(None, transport, options, outcome) =>
      transport == w.defaultTransport && outcome == w.answer(None, w.defaultTransport, options)
    case Exchanged(Some(i), transport, options, outcome) =>
      && i < |w.rules| && Fires(w, i) && w.rules[i].action.Route?
      && var server := w.rules[i].action.server;
         && server in w.transports && transport == w.transports[server]
         && (transport.fakeIP ==> w.allowFakeIP && options.disableCache)
         && (exists before :: Overlaid(before, w.rules[i].action.change, transport.fakeIP, options))
         && !(w.rules[i].addressLimit && w.rejected(i, options))
         && outcome == w.answer(Some(i), transport, options)
  }

  /** The verdict is that of the first rule that does not leave the decision to later ones, or the default server's. */
  lemma {:induction false} FirstToDecide(w: World, i: nat, options: QueryOptions, base: QueryOptions)
    requires i <= |w.rules|
    ensures
      var v := Judge(w, i, options, base).0;
      && DecidedBy(w, v) && i <= DecidedAt(w, v) <= |w.rules|
      && (v.Exchanged? && v.source.None? ==> forall k :: i <= k < |w.rules| ==> PassedBy(w, k))
      && (!(v.Exchanged? && v.source.None?) ==> i < DecidedAt(w, v) && forall k :: i <= k < DecidedAt(w, v) - 1 ==> PassedBy(w, k))
    decreases |w.rules| - i
  {
    hide Apply, Overlaid;
    if i < |w.rules| {
      if Skipped(w, i) || !w.matches(i) {
        FirstToDecide(w, i + 1, options, base);
      } else {
        match w.rules[i].action
        case RouteOptions(change) => FirstToDecide(w, i + 1, Apply(options, change, false), base);
        case Route(server, change) =>
          FirstToDecide(w, i + 1, options, base);
          FirstToDecide(w, i + 1, base, base);
          if Usable(w, i) {
            RouteDecides(w, i, options);
          }
        case _ =>
      }
    }
  }

  lemma {:induction false} RouteDecides(w: World, i: nat, options: QueryOptions)
    requires i < |w.rules| && Usable(w, i) && Fires(w, i)
    ensures !Passed(w, i, options) ==> DecidedBy(w, RouteVerdict(w, i, options))
    ensures Passed(w, i, options) ==> PassedBy(w, i)
  {
    ApplyOverlays(options, w.rules[i].action.change, w.transports[w.rules[i].action.server].fakeIP);
  }

  // ---------------------------------------------------------------- what is forgotten

  /** The change a rule passed on the way makes to the options, if any. */
  function Passing(w: World, k: nat, options: QueryOptions): QueryOptions
    requires k < |w.rules|
  {
    if !Skipped(w, k) && w.matches(k) && w.rules[k].action.RouteOptions? then Apply(options, w.rules[k].action.change, false) else options
  }

  /** The changes made by the matched rules of a range, laid over options. */
  function Gathered(w: World, from: nat, end: nat, options: QueryOptions): QueryOptions
    requires from <= end <= |w.rules|
    decreases end - from
  {
    if from == end then options else Passing(w, end - 1, Gathered(w, from, end - 1, options))
  }

  /** The place behind the last rule whose response is rejected, `start` if there is none. */
  function Since(w: World, i: nat, options: QueryOptions, base: QueryOptions, start: nat): nat
    requires i <= |w.rules|
    decreases |w.rules| - i
  {
    if i == |w.rules| then start
    else if Skipped(w, i) || !w.matches(i) then Since(w, i + 1, options, base, start)
    else
      match w.rules[i].action
      case RouteOptions(change) => Since(w, i + 1, Apply(options, change, false), base, start)
      case Route(_, _) =>
        if !Usable(w, i) then Since(w, i + 1, options, base, start)
        else if Passed(w, i, options) then Since(w, i + 1, base, base, i + 1)
        else start
      case _ => start
  }

  predicate HasOptions(v: Verdict) {
    v.Answered? || v.Exchanged?
  }

  /** The rules up to the deciding one, and the route it takes if it takes one. */
  ghost predicate Decided(w: World, v: Verdict, d: nat) {
    match v
    case Answered(rule, _) => d == rule < |w.rules|
    case Exchanged(source, _, _, _) => if source.Some? then d == source.value < |w.rules| && Usable(w, d) else d == |w.rules|
    case _ => false
  }

  /** The options of a verdict that has gathered the changes from one rule on. */
  ghost function Effective(w: World, from: nat, v: Verdict, d: nat, base: QueryOptions): QueryOptions
    requires Decided(w, v, d) && from <= d
  {
    var gathered := Gathered(w, from, d, base);
    if v.Exchanged? && v.source.Some? then RouteChange(w, d, gathered) else gathered
  }

  lemma {:induction false} OptionsHold(w: World, i: nat, start: nat, base: QueryOptions)
    requires start <= i <= |w.rules|
    ensures
      var options := Gathered(w, start, i, base);
      var v, since := Judge(w, i, options, base).0, Since(w, i, options, base, start);
      HasOptions(v) ==> exists d :: Decided(w, v, d) && since <= d && v.options == Effective(w, since, v, d, base)
    decreases |w.rules| - i
  {
    var options := Gathered(w, start, i, base);
    var v := Judge(w, i, options, base).0;
    if i == |w.rules| {
      assert Decided(w, v, i);
    } else {
      OptionsHold(w, i + 1, start, base);
      OptionsHold(w, i + 1, i + 1, base);
      assert Gathered(w, i + 1, i + 1, base) == base;
      assert Gathered(w, start, i + 1, base) == Passing(w, i, options);
      assert !Skipped(w, i) && w.matches(i) && HasOptions(v) && Stops(w, i) && !(Deferred(w, i) && Passed(w, i, options)) ==> Decided(w, v, i);
    }
  }

  /** The response to a rule's query, asked with the changes gathered from some rule on, is rejected. */
  ghost predicate Rejected(w: World, n: nat, base: QueryOptions) {
    && n < |w.rules| && w.rules[n].addressLimit && Usable(w, n)
    && exists from :: 0 <= from <= n && w.rejected(n, RouteChange(w, n, Gathered(w, from, n, base)))
  }

  ghost predicate Fair(w: World, c: Count, base: QueryOptions) {
    && c.rule < |w.rules|
    && (c.hit ==> w.matches(c.rule))
    && (!c.hit && w.matches(c.rule) ==> Rejected(w, c.rule, base))
  }

  ghost predicate AllFair(w: World, counts: seq<Count>, base: QueryOptions) {
    forall k :: 0 <= k < |counts| ==> Fair(w, counts[k], base)
  }

  lemma {:induction false} FairBefore(w: World, c: Count, rest: (Verdict, seq<Count>), base: QueryOptions)
    requires Fair(w, c, base) && AllFair(w, rest.1, base)
    ensures AllFair(w, Counted(c.rule, c.hit, rest).1, base)
  {
    var counts := [c] + rest.1;
    forall k | 0 <= k < |counts|
      ensures Fair(w, counts[k], base)
    {
      assert k > 0 ==> counts[k] == rest.1[k - 1];
    }
  }

  /** A rule counts as hit only if it matched, and as missed although it matched only if its response was rejected. */
  lemma {:induction false} CountsAreFair(w: World, i: nat, start: nat, base: QueryOptions)
    requires start <= i <= |w.rules|
    ensures AllFair(w, Judge(w, i, Gathered(w, start, i, base), base).1, base)
    decreases |w.rules| - i
  {
    hide Fair, AllFair;
    var options := Gathered(w, start, i, base);
    if i == |w.rules| {
      NoneUnfair(w, base);
    } else {
      CountsAreFair(w, i + 1, start, base);
      CountsAreFair(w, i + 1, i + 1, base);
      assert Gathered(w, i + 1, i + 1, base) == base;
      assert Gathered(w, start, i + 1, base) == Passing(w, i, options);
      FairHere(w, i, start, base);
      var on, again := Judge(w, i + 1, Passing(w, i, options), base), Judge(w, i + 1, base, base);
      if !Skipped(w, i) {
        if !w.matches(i) {
          FairBefore(w, Count(i, false), on, base);
        } else {
          FairBefore(w, Count(i, true), on, base);
          FairBefore(w, Count(i, true), (on.0, []), base);
          assert [Count(i, true)] + [] == [Count(i, true)];
          if Usable(w, i) && Passed(w, i, options) {
            FairBefore(w, Count(i, false), again, base);
          }
        }
      }
    }
  }

  lemma {:induction false} NoneUnfair(w: World, base: QueryOptions)
    ensures AllFair(w, [], base)
  {
  }

  lemma {:induction false} FairHere(w: World, i: nat, start: nat, base: QueryOptions)
    requires start <= i < |w.rules|
    ensures w.matches(i) ==> Fair(w, Count(i, true), base)
    ensures !w.matches(i) ==> Fair(w, Count(i, false), base)
    ensures Usable(w, i) && Passed(w, i, Gathered(w, start, i, base)) ==> Fair(w, Count(i, false), base)
    ensures AllFair(w, [], base)
  {
  }

  /** The rule before `since`, if any, was missed although it matched; every later count says whether its rule matched. */
  ghost predicate Latest(w: World, counts: seq<Count>, i: nat, since: nat, start: nat) {
    && start <= since
    && (since == start || (since > i && Count(since - 1, false) in counts && w.matches(since - 1)))
    && forall k :: 0 <= k < |counts| ==> counts[k].rule >= i && (counts[k].rule >= since ==> (counts[k].hit <==> w.matches(counts[k].rule)))
  }

  lemma {:induction false} LatestBefore(w: World, hit: bool, rest: seq<Count>, i: nat, since: nat, start: nat)
    requires start <= i && w.matches(i)
    requires Latest(w, rest, i + 1, since, if hit then start else i + 1)
    ensures Latest(w, [Count(i, hit)] + rest, i, since, start)
  {
    var counts := [Count(i, hit)] + rest;
    assert forall k :: 0 < k < |counts| ==> counts[k] == rest[k - 1];
    assert counts[0] in counts;
    assert forall c :: c in rest ==> c in counts;
  }

  lemma {:induction false} LatestPast(w: World, rest: seq<Count>, i: nat, since: nat, start: nat)
    requires start <= i && Latest(w, rest, i + 1, since, start)
    ensures Latest(w, rest, i, since, start)
    ensures !w.matches(i) ==> Latest(w, [Count(i, false)] + rest, i, since, start)
  {
    var counts := [Count(i, false)] + rest;
    assert forall k :: 0 < k < |counts| ==> counts[k] == rest[k - 1];
    assert forall c :: c in rest ==> c in counts;
  }

  lemma {:induction false} LatestEnds(w: World, i: nat, start: nat)
    ensures Latest(w, [], i, start, start)
    ensures w.matches(i) ==> Latest(w, [Count(i, true)], i, start, start)
  {
  }

  lemma {:induction false} SinceIsLastRejection(w: World, i: nat, options: QueryOptions, base: QueryOptions, start: nat)
    requires start <= i <= |w.rules|
    ensures Latest(w, Judge(w, i, options, base).1, i, Since(w, i, options, base, start), start)
    decreases |w.rules| - i
  {
    hide Latest;
    LatestEnds(w, i, start);
    if i < |w.rules| {
      var next := options;
      if !Skipped(w, i) && w.matches(i) && w.rules[i].action.RouteOptions? {
        next := Apply(options, w.rules[i].action.change, false);
      }
      SinceIsLastRejection(w, i + 1, next, base, start);
      SinceIsLastRejection(w, i + 1, base, base, i + 1);
      LatestPast(w, Judge(w, i + 1, next, base).1, i, Since(w, i + 1, next, base, start), start);
      if w.matches(i) {
        LatestBefore(w, true, Judge(w, i + 1, next, base).1, i, Since(w, i + 1, next, base, start), start);
        LatestBefore(w, false, Judge(w, i + 1, base, base).1, i, Since(w, i + 1, base, base, i + 1), start);
      }
    }
  }

  datatype Field = StrategyField | CacheField | TTLField | TimeoutField | SubnetField

  predicate SameOn(a: QueryOptions, b: QueryOptions, field: Field) {
    match field
    case StrategyField => a.strategy == b.strategy
    case CacheField => a.disableCache == b.disableCache
    case TTLField => a.rewriteTTL == b.rewriteTTL
    case TimeoutField => a.timeout == b.timeout
    case SubnetField => a.clientSubnet == b.clientSubnet && a.removeClientSubnet == b.removeClientSubnet
  }

  predicate Sets(change: Change, fakeIP: bool, field: Field) {
    match field
    case StrategyField => change.strategy != AsIs
    case CacheField => change.disableCache || fakeIP
    case TTLField => change.rewriteTTL.Some?
    case TimeoutField => change.timeout > 0
    case SubnetField => change.clientSubnet.Some? || change.removeClientSubnet
  }

  lemma {:induction false} ApplySameOn(a: QueryOptions, b: QueryOptions, change: Change, fakeIP: bool, field: Field)
    ensures SameOn(Apply(a, change, fakeIP), Apply(b, change, fakeIP), field) <==> SameOn(a, b, field) || Sets(change, fakeIP, field)
  {
  }

  /** A matched rule of the range sets the option. */
  ghost predicate SetBetween(w: World, from: nat, end: nat, field: Field)
    requires from <= end <= |w.rules|
  {
    exists k :: from <= k < end && !Skipped(w, k) && w.matches(k) && w.rules[k].action.RouteOptions? && Sets(w.rules[k].action.change, false, field)
  }

  lemma {:induction false} GatheredSameOn(w: World, from: nat, end: nat, a: QueryOptions, b: QueryOptions, field: Field)
    requires from <= end <= |w.rules|
    ensures SameOn(Gathered(w, from, end, a), Gathered(w, from, end, b), field) <==> SameOn(a, b, field) || SetBetween(w, from, end, field)
    decreases end - from
  {
    if from < end {
      GatheredSameOn(w, from, end - 1, a, b, field);
      if w.rules[end - 1].action.RouteOptions? {
        ApplySameOn(Gathered(w, from, end - 1, a), Gathered(w, from, end - 1, b), w.rules[end - 1].action.change, false, field);
      }
      assert SetBetween(w, from, end, field) <==> SetBetween(w, from, end - 1, field) || (!Skipped(w, end - 1) && w.matches(end - 1) && w.rules[end - 1].action.RouteOptions? && Sets(w.rules[end - 1].action.change, false, field)) by {
        if SetBetween(w, from, end - 1, field) {
          var k :| from <= k < end - 1 && !Skipped(w, k) && w.matches(k) && w.rules[k].action.RouteOptions? && Sets(w.rules[k].action.change, false, field);
        }
      }
    }
  }

  lemma {:induction false} GatheredSplits(w: World, from: nat, middle: nat, end: nat, options: QueryOptions)
    requires from <= middle <= end <= |w.rules|
    ensures Gathered(w, from, end, options) == Gathered(w, middle, end, Gathered(w, from, middle, options))
    decreases end - middle
  {
    if middle < end {
      GatheredSplits(w, from, middle, end - 1, options);
    }
  }

  /** A rule from one on, or the deciding route itself, sets the option. */
  ghost predicate SetAgain(w: World, from: nat, v: Verdict, d: nat, field: Field)
    requires Decided(w, v, d) && from <= d
  {
    || SetBetween(w, from, d, field)
    || (v.Exchanged? && v.source.Some? && Sets(w.rules[d].action.change, w.transports[w.rules[d].action.server].fakeIP, field))
  }

  lemma {:induction false} SameOptions(a: QueryOptions, b: QueryOptions)
    requires a.disableOptimisticCache == b.disableOptimisticCache
    ensures a == b <==> forall field :: SameOn(a, b, field)
  {
    if forall field :: SameOn(a, b, field) {
      assert SameOn(a, b, StrategyField) && SameOn(a, b, CacheField) && SameOn(a, b, TTLField) && SameOn(a, b, TimeoutField) && SameOn(a, b, SubnetField);
    }
  }

  lemma {:induction false} OptimisticKept(w: World, from: nat, end: nat, options: QueryOptions)
    requires from <= end <= |w.rules|
    ensures Gathered(w, from, end, options).disableOptimisticCache == options.disableOptimisticCache
    decreases end - from
  {
    if from < end {
      OptimisticKept(w, from, end - 1, options);
    }
  }

  /**
   The options a query is asked or answered with are the caller's with exactly the changes made
   after the last rejected response. They are those of a pass that forgets nothing exactly when
   every option is as the caller gave it before that rejection, or is set again after it.
   */
  lemma {:induction false} ForgetsExactlyWhen(w: World, base: QueryOptions)
    requires HasOptions(Judge(w, 0, base, base).0)
    ensures
      var v, since := Judge(w, 0, base, base).0, Since(w, 0, base, base, 0);
      exists d ::
        && Decided(w, v, d) && since <= d
        && v.options == Effective(w, since, v, d, base)
        && (v.options == Effective(w, 0, v, d, base) <==>
              forall field :: SameOn(Gathered(w, 0, since, base), base, field) || SetAgain(w, since, v, d, field))
  {
    hide Judge, Gathered;
    var v, since := Judge(w, 0, base, base).0, Since(w, 0, base, base, 0);
    GatheredNothing(w, base);
    OptionsHold(w, 0, 0, base);
    var d :| Decided(w, v, d) && since <= d && v.options == Effective(w, since, v, d, base);
    ForgetsAt(w, v, since, d, base);
  }

  lemma {:induction false} GatheredNothing(w: World, base: QueryOptions)
    ensures Gathered(w, 0, 0, base) == base
  {
  }

  lemma {:induction false} ForgetsAt(w: World, v: Verdict, since: nat, d: nat, base: QueryOptions)
    requires Decided(w, v, d) && since <= d
    ensures Effective(w, since, v, d, base) == Effective(w, 0, v, d, base) <==>
              forall field :: SameOn(Gathered(w, 0, since, base), base, field) || SetAgain(w, since, v, d, field)
  {
    hide Gathered, SetBetween, SameOn;
    var earlier := Gathered(w, 0, since, base);
    var kept, all := Gathered(w, since, d, base), Gathered(w, 0, d, base);
    GatheredSplits(w, 0, since, d, base);
    OptimisticKept(w, since, d, base);
    OptimisticKept(w, 0, d, base);
    SameOptions(Effective(w, since, v, d, base), Effective(w, 0, v, d, base));
    forall field
      ensures SameOn(Effective(w, since, v, d, base), Effective(w, 0, v, d, base), field) <==>
                SameOn(earlier, base, field) || SetAgain(w, since, v, d, field)
    {
      GatheredSameOn(w, since, d, base, earlier, field);
      SameOnSymmetric(base, earlier, field);
      if v.Exchanged? && v.source.Some? {
        var action := w.rules[d].action;
        ApplySameOn(kept, all, action.change, w.transports[action.server].fakeIP, field);
      }
    }
  }

  lemma {:induction false} SameOnSymmetric(a: QueryOptions, b: QueryOptions, field: Field)
    ensures SameOn(a, b, field) <==> SameOn(b, a, field)
  {
  }

  const NO_CHANGE := Change(AsIs, false, None, 0, None, false)

  /** Caching is switched off, an address-limited route is asked and its response rejected, and another route is asked. */
  const FORGETFUL :=
    World([Rule(false, Action.RouteOptions(NO_CHANGE.(disableCache := true))), Rule(true, Route("server", NO_CHANGE)), Rule(false, Route("server", NO_CHANGE))],
          true, true, map["server" := Transport("server", false)], Transport("server", false),
          i => false,
          i => true,
          (i, options) => i == 1,
          (source, transport, options) => Failed(Dropped))

  /** The first route is asked without the cache and the second one, which the same rule precedes, with it. */
  lemma {:induction false} OptionIsLost()
    ensures Judge(FORGETFUL, 0, ZERO_OPTIONS, ZERO_OPTIONS).0.Exchanged?
    ensures Judge(FORGETFUL, 0, ZERO_OPTIONS, ZERO_OPTIONS).0.source == Some(2)
    ensures !Judge(FORGETFUL, 0, ZERO_OPTIONS, ZERO_OPTIONS).0.options.disableCache
    ensures Gathered(FORGETFUL, 0, 2, ZERO_OPTIONS).disableCache
  {
    var w := FORGETFUL;
    var changed := ZERO_OPTIONS.(disableCache := true);
    assert Apply(ZERO_OPTIONS, NO_CHANGE.(disableCache := true), false) == changed;
    assert Judge(w, 0, ZERO_OPTIONS, ZERO_OPTIONS).0 == Judge(w, 1, changed, ZERO_OPTIONS).0;
    assert Judge(w, 1, changed, ZERO_OPTIONS).0 == Judge(w, 2, ZERO_OPTIONS, ZERO_OPTIONS).0;
    assert Gathered(w, 0, 1, ZERO_OPTIONS) == changed;
  }

  // ---------------------------------------------------------------- the code

  class Router {
    const w: World
    var counts: seq<Count>

    constructor (w: World)
      ensures this.w == w && counts == []
    {
      this.w, counts := w, [];
    }

    /**
     The first rule from the one after `ruleIndex` on that decides or asks: its index, -1 for
     none, with the options in effect. A route rule with an address limit is not counted yet.
     `made` are the counts made, and `reached` the options before the rule changed them.
     */
    method MatchDNS(ruleIndex: int, given: QueryOptions, ghost base: QueryOptions)
      returns (found: int, options: QueryOptions, ghost made: seq<Count>, ghost reached: QueryOptions)
      requires -1 <= ruleIndex < |w.rules|
      modifies this
      ensures -1 <= found < |w.rules| && (found >= 0 ==> found > ruleIndex)
      ensures found >= 0 ==> Stops(w, found)
      ensures options == if found >= 0 && w.rules[found].action.Route? then RouteChange(w, found, reached) else reached
      ensures counts == old(counts) + made
      ensures found < 0 ==> Judge(w, ruleIndex + 1, given, base) == Prefixed(made, Judge(w, |w.rules|, reached, base))
      ensures found >= 0 && Deferred(w, found) ==> Judge(w, ruleIndex + 1, given, base) == Prefixed(made, Judge(w, found, reached, base))
      ensures found >= 0 && !Deferred(w, found) ==> Judge(w, ruleIndex + 1, given, base) == (Judge(w, found, reached, base).0, made)
    {
      options, made := given, [];
      var current := ruleIndex + 1;
      NothingMade(Judge(w, current, given, base));
      while current < |w.rules|
        invariant ruleIndex < current <= |w.rules| && counts == old(counts) + made
        invariant Judge(w, ruleIndex + 1, given, base) == Prefixed(made, Judge(w, current, options, base))
      {
        reached := options;
        var rule := w.rules[current];
        if w.disabled(current) || (rule.addressLimit && !w.addressQuery) {
          current := current + 1;
          continue;
        }
        OneMade(made, current, w.matches(current), Judge(w, current + 1, options, base));
        if w.matches(current) {
          var deferred := rule.addressLimit && rule.action.Route?;
          if !deferred {
            counts, made := counts + [Count(current, true)], made + [Count(current, true)];
          }
          match rule.action {
            case Route(server, change) =>
              if server !in w.transports || (w.transports[server].fakeIP && !w.allowFakeIP) {
                if deferred {
                  counts, made := counts + [Count(current, true)], made + [Count(current, true)];
                }
              } else {
                return current, Apply(options, change, w.transports[server].fakeIP), made, options;
              }
            case RouteOptions(change) =>
              OneMade(made[..|made| - 1], current, true, Judge(w, current + 1, Apply(options, change, false), base));
              assert made == made[..|made| - 1] + [Count(current, true)];
              options := Apply(options, change, false);
            case _ =>
              return current, options, made, options;
          }
        } else {
          counts, made := counts + [Count(current, false)], made + [Count(current, false)];
        }
        current := current + 1;
      }
      return -1, options, made, options;
    }

    /** Matches and asks until a rule decides or a response is accepted: the same as one pass over the rules. */
    method ExchangeLegacy(base: QueryOptions) returns (verdict: Verdict)
      modifies this
      ensures verdict == Judge(w, 0, base, base).0
      ensures counts == old(counts) + Judge(w, 0, base, base).1
    {
      hide Judge, Skipped, RouteChange;
      var ruleIndex := -1;
      ghost var total := [];
      NothingMade(Judge(w, 0, base, base));
      while true
        invariant -1 <= ruleIndex < |w.rules| && counts == old(counts) + total
        invariant Judge(w, 0, base, base) == Prefixed(total, Judge(w, ruleIndex + 1, base, base))
        decreases |w.rules| - ruleIndex
      {
        ghost var made, reached;
        var found, options;
        found, options, made, reached := MatchDNS(ruleIndex, base, base);
        MoreMade(total, made, Judge(w, if found < 0 then |w.rules| else found, reached, base));
        total := total + made;
        if found < 0 {
          JudgeDefault(w, reached, base);
          return Exchanged(None, w.defaultTransport, options, w.answer(None, w.defaultTransport, options));
        }
        JudgeStop(w, found, reached, base);
        match w.rules[found].action {
          case Refuse(rcode) => return Refused(found, rcode);
          case Drop => return DroppedBy(found);
          case Predefined => return Answered(found, options);
          case _ =>
        }
        var transport := w.transports[w.rules[found].action.server];
        if w.rules[found].addressLimit {
          if w.rejected(found, options) {
            OneMade(total, found, false, Judge(w, found + 1, base, base));
            counts, total := counts + [Count(found, false)], total + [Count(found, false)];
            ruleIndex := found;
            continue;
          }
          counts, total := counts + [Count(found, true)], total + [Count(found, true)];
        }
        return Exchanged(Some(found), transport, options, w.answer(Some(found), transport, options));
      }
    }
  }

  /** A rule at which matching stops: it decides, or it asks a server. */
  predicate Stops(w: World, i: nat)
    requires i < |w.rules|
  {
    !Skipped(w, i) && w.matches(i) && !w.rules[i].action.RouteOptions? && (w.rules[i].action.Route? ==> Usable(w, i))
  }

  /** A rule that is counted only when its response is in. */
  predicate Deferred(w: World, i: nat)
    requires i < |w.rules|
  {
    w.rules[i].addressLimit && w.rules[i].action.Route?
  }

  function Prefixed(counts: seq<Count>, rest: (Verdict, seq<Count>)): (Verdict, seq<Count>) {
    (rest.0, counts + rest.1)
  }

  lemma {:induction false} NothingMade(rest: (Verdict, seq<Count>))
    ensures rest == Prefixed([], rest)
  {
    assert [] + rest.1 == rest.1;
  }

  lemma {:induction false} MoreMade(total: seq<Count>, made: seq<Count>, rest: (Verdict, seq<Count>))
    ensures Prefixed(total, Prefixed(made, rest)) == Prefixed(total + made, rest)
    ensures Prefixed(total, (rest.0, made)) == (rest.0, total + made)
  {
    assert total + (made + rest.1) == (total + made) + rest.1;
  }

  /** The verdict at a rule that stops the matching. */
  function Verdicts(w: World, i: nat, options: QueryOptions): Verdict
    requires i < |w.rules| && Stops(w, i)
  {
    match w.rules[i].action
    case Refuse(rcode) => Refused(i, rcode)
    case Drop => DroppedBy(i)
    case Predefined => Answered(i, options)
    case Route(_, _) => RouteVerdict(w, i, options)
  }

  lemma {:induction false} JudgeStop(w: World, i: nat, options: QueryOptions, base: QueryOptions)
    requires i < |w.rules| && Stops(w, i)
    ensures Judge(w, i, options, base) ==
            if Deferred(w, i) && Passed(w, i, options) then Counted(i, false, Judge(w, i + 1, base, base)) else (Verdicts(w, i, options), [Count(i, true)])
  {
  }

  lemma {:induction false} JudgeDefault(w: World, options: QueryOptions, base: QueryOptions)
    ensures Judge(w, |w.rules|, options, base) == (Exchanged(None, w.defaultTransport, options, w.answer(None, w.defaultTransport, options)), [])
  {
  }

  lemma {:induction false} OneMade(made: seq<Count>, i: nat, hit: bool, rest: (Verdict, seq<Count>))
    ensures Prefixed(made, Counted(i, hit, rest)) == Prefixed(made + [Count(i, hit)], rest)
  {
    assert made + ([Count(i, hit)] + rest.1) == (made + [Count(i, hit)]) + rest.1;
  }
}
