/**
 Fallback servers: when a rule's primary exchange is over, its fallback rules are tried in
 order. Each is matched against the primary response, not against an earlier fallback's.
 */
module Fallback {
  import opened Dns
  import opened RuleWalk

  predicate GoodResponse(response: Option<Msg>) {
    response.Some? && response.value.rcode == RCODE_SUCCESS
  }

  /** A success that carries an address: what ends the search. */
  predicate Satisfying(result: Result) {
    result.err.None? && GoodResponse(result.response) && MessageAddresses(result.response.value) != []
  }

  // ------------------------------------------------- the declarative reading

  /** The server a fallback rule names, unless it is missing or not allowed. */
  function Server(w: World, f: FallbackRule): Option<Transport> {
    if f.server !in w.transports then None
    else if w.transports[f.server].fakeIP && !w.allowFakeIP then None
    else Some(w.transports[f.server])
  }

  /** The fallback rules from `i` on that would be tried if all of them failed. */
  function Candidates(w: World, rule: nat, fallback: seq<FallbackRule>, primary: Option<Msg>, i: nat): seq<nat>
    decreases |fallback| - i
  {
    if i >= |fallback| then []
    else if !w.fallbackMatches(rule, i, primary) then Candidates(w, rule, fallback, primary, i + 1)
    else if fallback[i].acceptResult then
      if GoodResponse(primary) then [] else Candidates(w, rule, fallback, primary, i + 1)
    else if Server(w, fallback[i]).None? then Candidates(w, rule, fallback, primary, i + 1)
    else [i] + Candidates(w, rule, fallback, primary, i + 1)
  }

  /** The options of a fallback query: those of the primary query and the fallback rule's own. */
  function FallbackOptions(f: FallbackRule, transport: Transport, base: QueryOptions): QueryOptions {
    base.(disableCache := base.disableCache || transport.fakeIP || f.disableCache,
          rewriteTTL := if f.rewriteTTL.Some? then f.rewriteTTL else base.rewriteTTL,
          clientSubnet := if f.clientSubnet.Some? then f.clientSubnet else base.clientSubnet,
          removeClientSubnet := if f.clientSubnet.Some? then false else base.removeClientSubnet)
  }

  predicate HasRule(w: World, primary: Result) {
    primary.rule.Some? && primary.rule.value < |w.rules|
  }

  function FallbackRules(w: World, primary: Result): seq<FallbackRule>
    requires HasRule(w, primary)
  {
    w.rules[primary.rule.value].fallback
  }

  function CandidatesFrom(w: World, primary: Result, i: nat): seq<nat>
    requires HasRule(w, primary)
  {
    Candidates(w, primary.rule.value, FallbackRules(w, primary), primary.response, i)
  }

  predicate Usable(w: World, primary: Result, i: nat)
    requires HasRule(w, primary)
  {
    i < |FallbackRules(w, primary)| && Server(w, FallbackRules(w, primary)[i]).Some?
  }

  predicate AllUsable(w: World, primary: Result, candidates: seq<nat>)
    requires HasRule(w, primary)
  {
    forall k :: 0 <= k < |candidates| ==> Usable(w, primary, candidates[k])
  }

  /** What trying fallback rule `i` gives, whatever was tried before. */
  function Attempt(w: World, primary: Result, i: nat): Result
    requires HasRule(w, primary) && Usable(w, primary, i)
  {
    var f := FallbackRules(w, primary)[i];
    var transport := Server(w, f).value;
    var options := FallbackOptions(f, transport, primary.options);
    var outcome := w.fallbackAnswer(primary.rule.value, i, transport, FinalOptions(w, options));
    primary.(response := View(outcome), transport := Some(transport), options := options, err := ErrorOf(outcome))
  }

  /** The results in the order of trying, ending with the first that satisfies. */
  function Tried(w: World, primary: Result, candidates: seq<nat>): seq<Result>
    requires HasRule(w, primary) && AllUsable(w, primary, candidates)
  {
    if candidates == [] then []
    else
      assert Usable(w, primary, candidates[0]);
      var first := Attempt(w, primary, candidates[0]);
      if Satisfying(first) then [first]
      else
        assert forall k :: 0 <= k < |candidates| - 1 ==> candidates[1..][k] == candidates[k + 1];
        [first] + Tried(w, primary, candidates[1..])
  }

  ghost predicate Increasing(candidates: seq<nat>, from: nat) {
    && (forall k :: 0 <= k < |candidates| ==> from <= candidates[k])
    && (forall k, l :: 0 <= k < l < |candidates| ==> candidates[k] < candidates[l])
  }

  lemma {:induction false} CandidatesUsable(w: World, primary: Result, i: nat)
    requires HasRule(w, primary)
    ensures AllUsable(w, primary, CandidatesFrom(w, primary, i))
    ensures Increasing(CandidatesFrom(w, primary, i), i)
    ensures forall j :: j in CandidatesFrom(w, primary, i) ==> w.fallbackMatches(primary.rule.value, j, primary.response)
    decreases |FallbackRules(w, primary)| - i
  {
    if i < |FallbackRules(w, primary)| {
      CandidatesUsable(w, primary, i + 1);
    }
  }

  /** The result after fallback: the last one tried, or the primary result if nothing was tried. */
  function AfterFallback(w: World, primary: Result): (r: Result)
    ensures r.rule == primary.rule && r.rejected == primary.rejected
  {
    if !HasRule(w, primary) || primary.rejected then primary
    else
      CandidatesUsable(w, primary, 0);
      TriedInTurn(w, primary, CandidatesFrom(w, primary, 0));
      var tried := Tried(w, primary, CandidatesFrom(w, primary, 0));
      if tried == [] then primary else tried[|tried| - 1]
  }

  /** Each result tried comes from its candidate; all but the last failed, and the search stops early only on a success. */
  ghost predicate InTurn(w: World, primary: Result, candidates: seq<nat>, tried: seq<Result>)
    requires HasRule(w, primary)
  {
    && AllUsable(w, primary, candidates)
    && |tried| <= |candidates|
    && (forall k :: 0 <= k < |tried| ==> Usable(w, primary, candidates[k]) && tried[k] == Attempt(w, primary, candidates[k]))
    && (forall k :: 0 <= k < |tried| - 1 ==> !Satisfying(tried[k]))
    && (|tried| < |candidates| ==> |tried| > 0 && Satisfying(tried[|tried| - 1]))
  }

  lemma {:induction false} TriedInTurn(w: World, primary: Result, candidates: seq<nat>)
    requires HasRule(w, primary) && AllUsable(w, primary, candidates)
    ensures InTurn(w, primary, candidates, Tried(w, primary, candidates))
  {
    if candidates != [] {
      assert Usable(w, primary, candidates[0]);
      var first, rest := Attempt(w, primary, candidates[0]), candidates[1..];
      if !Satisfying(first) {
        assert forall k :: 0 <= k < |rest| ==> rest[k] == candidates[k + 1];
        TriedInTurn(w, primary, rest);
        var tried := Tried(w, primary, rest);
        assert Tried(w, primary, candidates) == [first] + tried;
        forall k | 0 <= k < |tried| + 1
          ensures Usable(w, primary, candidates[k]) && ([first] + tried)[k] == Attempt(w, primary, candidates[k])
        {
          if k > 0 {
            assert Usable(w, primary, rest[k - 1]) && tried[k - 1] == Attempt(w, primary, rest[k - 1]);
          }
        }
      }
    }
  }

  // --------------------------------------------------------- the source's loop

  /** One search of the fallback rules from `nextIndex` on: the next exchange, if there is one. */
  method ResolveFallback(w: World, result: Result, base: QueryOptions, primary: Option<Msg>, nextIndex: nat)
    returns (next: Result, attempted: nat, matched: bool)
    requires HasRule(w, result)
    ensures var basis := result.(response := primary, options := base);
            var candidates := CandidatesFrom(w, basis, nextIndex);
            && matched == (candidates != [])
            && (!matched ==> next == result && attempted == nextIndex)
            && (matched ==>
                  && Usable(w, basis, candidates[0])
                  && next == Attempt(w, basis, candidates[0])
                  && attempted == candidates[0] + 1
                  && candidates[1..] == CandidatesFrom(w, basis, attempted))
    ensures FirstToTry(w, result.(response := primary, options := base), nextIndex, attempted, matched)
    ensures matched ==> AsksFallback(w, result.(response := primary, options := base), attempted - 1, next)
  {
    hide ToTry, AsksFallback;
    FirstCandidate(w, result.(response := primary, options := base), nextIndex);
    var rule := result.rule.value;
    var fallback := w.rules[rule].fallback;
    var responseGood := primary.Some? && primary.value.rcode == RCODE_SUCCESS;
    var index := nextIndex;
    while index < |fallback|
      invariant nextIndex <= index
      invariant Candidates(w, rule, fallback, primary, nextIndex) == Candidates(w, rule, fallback, primary, index)
    {
      var f := fallback[index];
      index := index + 1;
      if !w.fallbackMatches(rule, index - 1, primary) {
        continue;
      }
      if f.acceptResult {
        if !responseGood {
          continue;
        }
        return result, nextIndex, false;
      }
      if f.server !in w.transports {
        continue;
      }
      var transport := w.transports[f.server];
      if transport.fakeIP && !w.allowFakeIP {
        continue;
      }
      var options := base;
      if transport.fakeIP || f.disableCache {
        options := options.(disableCache := true);
      }
      if f.rewriteTTL.Some? {
        options := options.(rewriteTTL := f.rewriteTTL);
      }
      if f.clientSubnet.Some? {
        options := options.(clientSubnet := f.clientSubnet, removeClientSubnet := false);
      }
      var outcome := w.fallbackAnswer(rule, index - 1, transport, FinalOptions(w, options));
      next := result.(response := View(outcome), transport := Some(transport), options := options, err := ErrorOf(outcome));
      return next, index, true;
    }
    return result, nextIndex, false;
  }

  /** The fallback loop: tries one fallback server after another until one satisfies. */
  method ApplyFallback(w: World, primary: Result) returns (result: Result)
    ensures result == AfterFallback(w, primary) && LeadsTo(w, primary, result)
  {
    hide LeadsTo, FirstToTry, AsksFallback;
    FallbackReads(w, primary);
    if !HasRule(w, primary) || primary.rejected {
      return primary;
    }
    if |w.rules[primary.rule.value].fallback| == 0 {
      return primary;
    }
    result := primary;
    var base := primary.options;
    var nextIndex := 0;
    hide Tried, Attempt, Candidates;
    CandidatesUsable(w, primary, 0);
    ghost var done: seq<Result> := [];
    while true
      invariant SameBasis(primary, result)
      invariant result == if done == [] then primary else done[|done| - 1]
      invariant AllUsable(w, primary, CandidatesFrom(w, primary, nextIndex))
      invariant Tried(w, primary, CandidatesFrom(w, primary, 0)) == done + Tried(w, primary, CandidatesFrom(w, primary, nextIndex))
      decreases |FallbackRules(w, primary)| - nextIndex
    {
      ghost var candidates := CandidatesFrom(w, primary, nextIndex);
      CandidatesUsable(w, primary, nextIndex);
      SameCandidates(w, primary, result);
      var next, attempted, matched := ResolveFallback(w, result, base, primary.response, nextIndex);
      if !matched {
        NothingToTry(w, primary, candidates);
        return;
      }
      CandidatesUsable(w, primary, attempted);
      TryNext(w, primary, candidates, done, next);
      if next.err.None? && next.response.Some? && next.response.value.rcode == RCODE_SUCCESS
         && |MessageAddresses(next.response.value)| > 0 {
        return next;
      }
      done := done + [next];
      result := next;
      nextIndex := attempted;
    }
  }

  /** The two results differ only in what an exchange gives. */
  ghost predicate SameBasis(primary: Result, result: Result) {
    result == primary.(response := result.response, transport := result.transport, options := result.options, err := result.err)
  }

  lemma {:induction false} SameCandidates(w: World, primary: Result, result: Result)
    requires HasRule(w, primary) && SameBasis(primary, result)
    ensures var basis := result.(response := primary.response, options := primary.options);
            && HasRule(w, basis)
            && (forall i :: CandidatesFrom(w, basis, i) == CandidatesFrom(w, primary, i))
            && (forall j :: Usable(w, basis, j) ==> Usable(w, primary, j) && Attempt(w, basis, j) == Attempt(w, primary, j))
  {
  }

  lemma {:induction false} NothingToTry(w: World, primary: Result, candidates: seq<nat>)
    requires HasRule(w, primary) && candidates == []
    ensures Tried(w, primary, candidates) == []
  {
  }

  lemma {:induction false} TryNext(w: World, primary: Result, candidates: seq<nat>, done: seq<Result>, next: Result)
    requires HasRule(w, primary) && AllUsable(w, primary, candidates) && candidates != [] && AllUsable(w, primary, candidates[1..])
    requires Usable(w, primary, candidates[0]) && next == Attempt(w, primary, candidates[0])
    ensures SameBasis(primary, next)
    ensures Tried(w, primary, candidates) == if Satisfying(next) then [next] else [next] + Tried(w, primary, candidates[1..])
    ensures !Satisfying(next) ==> done + Tried(w, primary, candidates) == done + [next] + Tried(w, primary, candidates[1..])
  {
  }

  /**
   Fallback attempts go in strictly increasing order, at most one per fallback rule, each a
   function of the primary result alone and made only by a rule the primary response matches;
   all but the last fail to satisfy, and without any attempt the primary result stands.
   */
  lemma {:induction false} FallbackAttempts(w: World, primary: Result)
    requires HasRule(w, primary) && !primary.rejected
    ensures Increasing(CandidatesFrom(w, primary, 0), 0)
    ensures forall j :: j in CandidatesFrom(w, primary, 0) ==> w.fallbackMatches(primary.rule.value, j, primary.response)
    ensures exists tried :: InTurn(w, primary, CandidatesFrom(w, primary, 0), tried)
                            && AfterFallback(w, primary) == if tried == [] then primary else tried[|tried| - 1]
  {
    CandidatesUsable(w, primary, 0);
    TriedInTurn(w, primary, CandidatesFrom(w, primary, 0));
  }

  // -------------------------------------------------------- what fallback means

  /** A success with a record that holds an address. */
  ghost predicate HasAddress(result: Result) {
    && result.err.None? && result.response.Some? && result.response.value.rcode == RCODE_SUCCESS
    && exists k :: 0 <= k < |result.response.value.answer| && HoldsAddress(result.response.value.answer[k])
  }

  lemma {:induction false} SatisfyingHasAddress(result: Result)
    ensures Satisfying(result) <==> HasAddress(result)
  {
    if result.response.Some? {
      SomeAddress(result.response.value.answer);
    }
  }

  /** A matching accepting rule stands in front of rule `j`, and the primary response is good. */
  ghost predicate AcceptedBefore(w: World, primary: Result, i: nat, j: nat)
    requires HasRule(w, primary) && j <= |w.rules[primary.rule.value].fallback|
  {
    && primary.response.Some? && primary.response.value.rcode == RCODE_SUCCESS
    && exists k :: i <= k < j && w.rules[primary.rule.value].fallback[k].acceptResult && w.fallbackMatches(primary.rule.value, k, primary.response)
  }

  /** Fallback rule `j` is to be tried, read from `i` on, unless one before it satisfies. */
  ghost predicate ToTry(w: World, primary: Result, i: nat, j: nat)
    requires HasRule(w, primary)
  {
    var fallback := w.rules[primary.rule.value].fallback;
    && i <= j < |fallback|
    && w.fallbackMatches(primary.rule.value, j, primary.response)
    && !fallback[j].acceptResult
    && fallback[j].server in w.transports
    && (w.transports[fallback[j].server].fakeIP ==> w.allowFakeIP)
    && !AcceptedBefore(w, primary, i, j)
  }

  /** For every primary result, the candidates are exactly the rules that are to be tried. */
  lemma {:induction false} CandidatesExactly(w: World, primary: Result, i: nat, j: nat)
    requires HasRule(w, primary)
    ensures j in CandidatesFrom(w, primary, i) <==> ToTry(w, primary, i, j)
    decreases |FallbackRules(w, primary)| - i
  {
    if i < |FallbackRules(w, primary)| {
      CandidatesExactly(w, primary, i + 1, j);
      if i < j < |FallbackRules(w, primary)| {
        AcceptedFrom(w, primary, i, j);
      }
    }
  }

  lemma {:induction false} AcceptedFrom(w: World, primary: Result, i: nat, j: nat)
    requires HasRule(w, primary) && i < j <= |w.rules[primary.rule.value].fallback|
    ensures
      var f := w.rules[primary.rule.value].fallback[i];
      AcceptedBefore(w, primary, i, j) <==>
      AcceptedBefore(w, primary, i + 1, j)
      || (f.acceptResult && w.fallbackMatches(primary.rule.value, i, primary.response) && GoodResponse(primary.response))
  {
  }

  /** The search has found the first rule to be tried, or there is none. */
  ghost predicate FirstToTry(w: World, primary: Result, from: nat, attempted: nat, matched: bool)
    requires HasRule(w, primary)
  {
    if matched
    then attempted > 0 && ToTry(w, primary, from, attempted - 1) && forall j :: ToTry(w, primary, from, j) ==> attempted - 1 <= j
    else attempted == from && forall j :: !ToTry(w, primary, from, j)
  }

  lemma {:induction false} FirstCandidate(w: World, primary: Result, i: nat)
    requires HasRule(w, primary)
    ensures
      var candidates := CandidatesFrom(w, primary, i);
      && FirstToTry(w, primary, i, if candidates == [] then i else candidates[0] + 1, candidates != [])
      && (candidates != [] ==> Usable(w, primary, candidates[0]) && AsksFallback(w, primary, candidates[0], Attempt(w, primary, candidates[0])))
  {
    hide ToTry, AsksFallback, Candidates, Attempt;
    var candidates := CandidatesFrom(w, primary, i);
    CandidatesUsable(w, primary, i);
    forall j
      ensures j in candidates <==> ToTry(w, primary, i, j)
    {
      CandidatesExactly(w, primary, i, j);
    }
    if candidates != [] {
      assert candidates[0] in candidates;
      AttemptAsks(w, primary, candidates[0]);
    }
  }

  /**
   The result of asking the server that fallback rule `j` names: the rule and the verdict on it stay
   those of the primary result, each option is the fallback rule's where it sets one, and the
   answer of a fake server is not cached.
   */
  ghost predicate AsksFallback(w: World, primary: Result, j: nat, result: Result)
    requires HasRule(w, primary)
  {
    && j < |w.rules[primary.rule.value].fallback|
    && var f := w.rules[primary.rule.value].fallback[j];
       && f.server in w.transports
       && var transport, options := w.transports[f.server], result.options;
          && (options.disableCache <==> primary.options.disableCache || transport.fakeIP || f.disableCache)
          && options.rewriteTTL == (if f.rewriteTTL.Some? then f.rewriteTTL else primary.options.rewriteTTL)
          && (f.clientSubnet.Some? ==> options.clientSubnet == f.clientSubnet && !options.removeClientSubnet)
          && (f.clientSubnet.None? ==> options.clientSubnet == primary.options.clientSubnet
                                       && options.removeClientSubnet == primary.options.removeClientSubnet)
          && options.strategy == primary.options.strategy && options.timeout == primary.options.timeout
          && options.disableOptimisticCache == primary.options.disableOptimisticCache
          && result.transport == Some(transport) && result.rule == primary.rule && result.rejected == primary.rejected
          && match w.fallbackAnswer(primary.rule.value, j, transport, options.(strategy := if options.strategy != AsIs then options.strategy else w.defaultStrategy))
             case Reply(msg) => result.response == Some(msg) && result.err.None?
             case Failed(error) => result.response.None? && result.err == Some(error)
  }

  lemma {:induction false} AttemptAsks(w: World, primary: Result, j: nat)
    requires HasRule(w, primary) && Usable(w, primary, j)
    ensures AsksFallback(w, primary, j, Attempt(w, primary, j))
  {
  }

  /** The rules to be tried, in order, and the results of those that were: all but the last without an address. */
  ghost predicate TriesAll(w: World, primary: Result, order: seq<nat>, tried: seq<Result>)
    requires HasRule(w, primary)
  {
    && Increasing(order, 0)
    && (forall j :: j in order <==> ToTry(w, primary, 0, j))
    && |tried| <= |order|
    && (forall k :: 0 <= k < |tried| ==> AsksFallback(w, primary, order[k], tried[k]))
    && (forall k :: 0 <= k < |tried| - 1 ==> !HasAddress(tried[k]))
    && (|tried| < |order| ==> |tried| > 0 && HasAddress(tried[|tried| - 1]))
  }

  /** The result a primary result leads to: itself if it was rejected, names no rule, or nothing is tried; else the last one tried. */
  ghost predicate LeadsTo(w: World, primary: Result, result: Result) {
    if !HasRule(w, primary) || primary.rejected then result == primary
    else exists order, tried :: TriesAll(w, primary, order, tried) && result == if tried == [] then primary else tried[|tried| - 1]
  }

  /** What comes of a primary result, told by the rules, the servers and their answers alone. */
  lemma {:induction false} FallbackReads(w: World, primary: Result)
    ensures LeadsTo(w, primary, AfterFallback(w, primary))
  {
    hide ToTry, AsksFallback, Satisfying, HasAddress, Candidates, Attempt, Tried;
    if HasRule(w, primary) && !primary.rejected {
      FallbackAttempts(w, primary);
      var order := CandidatesFrom(w, primary, 0);
      var tried :| InTurn(w, primary, order, tried) && AfterFallback(w, primary) == if tried == [] then primary else tried[|tried| - 1];
      forall j
        ensures j in order <==> ToTry(w, primary, 0, j)
      {
        CandidatesExactly(w, primary, 0, j);
      }
      forall k | 0 <= k < |tried|
        ensures AsksFallback(w, primary, order[k], tried[k]) && (Satisfying(tried[k]) <==> HasAddress(tried[k]))
      {
        assert Usable(w, primary, order[k]) && tried[k] == Attempt(w, primary, order[k]);
        AttemptAsks(w, primary, order[k]);
        SatisfyingHasAddress(tried[k]);
      }
      assert TriesAll(w, primary, order, tried);
    }
  }

  // ------------------------------------------------- accepting the primary response

  /** Fallback rule `j` accepts the primary response: it matches, the response is good, and no rule before it accepts. */
  ghost predicate AcceptsAt(w: World, primary: Result, j: nat)
    requires HasRule(w, primary)
  {
    var rule, fallback := primary.rule.value, FallbackRules(w, primary);
    && GoodResponse(primary.response)
    && j < |fallback| && fallback[j].acceptResult && w.fallbackMatches(rule, j, primary.response)
    && forall k :: 0 <= k < j && w.fallbackMatches(rule, k, primary.response) ==> !fallback[k].acceptResult
  }

  /** An accepting rule ends the search: exactly the usable rules before it that match are candidates. */
  lemma {:induction false} AcceptEndsSearch(w: World, primary: Result, i: nat, j: nat)
    requires HasRule(w, primary) && AcceptsAt(w, primary, j) && i <= j
    ensures forall c :: c in CandidatesFrom(w, primary, i) <==>
              i <= c < j && w.fallbackMatches(primary.rule.value, c, primary.response) && Server(w, FallbackRules(w, primary)[c]).Some?
    decreases j - i
  {
    if i < j {
      AcceptEndsSearch(w, primary, i + 1, j);
    }
  }

  /** The search reaches the accepting rule: whatever it tries before fails to satisfy. */
  ghost predicate ReachesAccept(w: World, primary: Result, j: nat)
    requires HasRule(w, primary)
  {
    && AcceptsAt(w, primary, j)
    && forall c :: c in CandidatesFrom(w, primary, 0) ==> Usable(w, primary, c) && !Satisfying(Attempt(w, primary, c))
  }

  /**
   A fallback list that accepts the primary response returns it exactly when nothing was tried
   before the accepting rule, or the last thing tried happens to equal it.
   */
  lemma {:induction false} AcceptKeepsPrimaryExactlyWhen(w: World, primary: Result, j: nat)
    requires HasRule(w, primary) && !primary.rejected && ReachesAccept(w, primary, j)
    ensures
      var candidates := CandidatesFrom(w, primary, 0);
      && (forall c :: c in candidates ==> c < j)
      && AllUsable(w, primary, candidates)
      && (AfterFallback(w, primary) == primary <==>
            candidates == [] || Attempt(w, primary, candidates[|candidates| - 1]) == primary)
  {
    hide Attempt, Candidates;
    var candidates := CandidatesFrom(w, primary, 0);
    AcceptEndsSearch(w, primary, 0, j);
    CandidatesUsable(w, primary, 0);
    TriedInTurn(w, primary, candidates);
    var tried := Tried(w, primary, candidates);
    assert forall k :: 0 <= k < |tried| ==> candidates[k] in candidates && !Satisfying(tried[k]);
    assert |tried| == |candidates|;
  }

  const OTHER := Transport("other", false)

  /** A route rule whose fallback first tries another server and then accepts the primary response. */
  const TRY_THEN_ACCEPT :=
    Rule([], "", false, false, false, [FallbackRule(false, "other", false, None, None), FallbackRule(true, "", false, None, None)],
         Route("server", false, RouteOptions(false, false, None, 0, None, false)))

  const ANSWERED := Msg(0, RCODE_SUCCESS, [], [RR("a.", TYPE_A, 60, A("192.0.2.1"))], [], [])

  const OTHER_FAILS :=
    World([TRY_THEN_ACCEPT], ANSWERED, map["other" := OTHER], OTHER, AsIs, -1, true,
          (i, t) => false,
          (i, anonymous, named) => true,
          (i, options) => ANSWERED,
          (i, j, response) => true,
          (run, i, transport, options) => Reply(ANSWERED),
          (i, j, transport, options) => Failed(ExchangeFailed(0)),
          (run, i) => 0,
          (run, i) => 0,
          true,
          true,
          t => false)

  /** A primary response with an address is accepted, and the error of the server tried before is returned. */
  lemma {:induction false} AcceptedResponseIsLost()
    ensures
      var primary := Result(Some(ANSWERED), Some(Transport("server", false)), Some(0), ZERO_OPTIONS, false, None);
      && Satisfying(primary)
      && ReachesAccept(OTHER_FAILS, primary, 1)
      && AfterFallback(OTHER_FAILS, primary).response.None?
      && AfterFallback(OTHER_FAILS, primary).err == Some(ExchangeFailed(0))
  {
    var w := OTHER_FAILS;
    var primary := Result(Some(ANSWERED), Some(Transport("server", false)), Some(0), ZERO_OPTIONS, false, None);
    assert FallbackRules(w, primary) == TRY_THEN_ACCEPT.fallback;
    assert AcceptsAt(w, primary, 1);
    assert Candidates(w, 0, TRY_THEN_ACCEPT.fallback, primary.response, 1) == [];
    assert CandidatesFrom(w, primary, 0) == [0];
    assert Usable(w, primary, 0) && Attempt(w, primary, 0).err == Some(ExchangeFailed(0));
    assert Tried(w, primary, [0]) == [Attempt(w, primary, 0)] + [];
  }
}
