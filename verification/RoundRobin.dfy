/** Round-robin order of the addresses in a cached response. */
module RoundRobin {
  import opened Dns
  import opened Messages

  // ---------------------------------------------------------------- the order served

  predicate IsAddress(r: RR, v6: bool) {
    if v6 then r.data.AAAA? else r.data.A?
  }

  function HeaderType(v6: bool): nat {
    if v6 then TYPE_AAAA else TYPE_A
  }

  /** The records whose payload is an address of the family. */
  function OfFamily(records: seq<RR>, v6: bool): seq<RR> {
    if records == [] then []
    else
      var last := records[|records| - 1];
      OfFamily(records[..|records| - 1], v6) + (if IsAddress(last, v6) then [last] else [])
  }

  /** The records whose header does not name the type. */
  function Without(records: seq<RR>, rrtype: nat): seq<RR> {
    if records == [] then []
    else
      var last := records[|records| - 1];
      Without(records[..|records| - 1], rrtype) + (if last.rrtype != rrtype then [last] else [])
  }

  function Rotate<T>(s: seq<T>, steps: nat): seq<T> {
    if |s| <= 1 then s
    else
      var cut := |s| - steps % |s|;
      s[cut..] + s[..cut]
  }

  /** One family taken out by header type and put back by payload, rotated; left alone with fewer than two addresses. */
  function Regrouped(records: seq<RR>, picked: seq<RR>, v6: bool, index: nat): seq<RR> {
    if |picked| > 1 then Without(records, HeaderType(v6)) + Rotate(picked, index) else records
  }

  function Served(records: seq<RR>, index4: nat, index6: nat): seq<RR> {
    Regrouped(Regrouped(records, OfFamily(records, false), false, index4), OfFamily(records, true), true, index6)
  }

  function NextIndex(index: nat, n: nat): nat {
    if n > 1 then (index + 1) % n else index
  }

  // ---------------------------------------------------------------- nothing lost, nothing added

  /** How often a record of the response is served: once, unless its header names another type than its payload. */
  function Copies(r: RR, rotate4: bool, rotate6: bool): nat {
    var after4 :=
      if rotate4 then (if r.rrtype != TYPE_A then 1 else 0) + (if r.data.A? then 1 else 0) else 1;
    if rotate6 then (if r.rrtype != TYPE_AAAA then after4 else 0) + (if r.data.AAAA? then 1 else 0) else after4
  }

  function Times(n: nat, copies: nat): nat {
    if copies == 0 then 0 else n + Times(n, copies - 1)
  }

  lemma {:induction false} OfFamilyCount(records: seq<RR>, v6: bool, r: RR)
    ensures multiset(OfFamily(records, v6))[r] == if IsAddress(r, v6) then multiset(records)[r] else 0
  {
    if records != [] {
      OfFamilyCount(records[..|records| - 1], v6, r);
      assert records == records[..|records| - 1] + [records[|records| - 1]];
    }
  }

  lemma {:induction false} WithoutCount(records: seq<RR>, rrtype: nat, r: RR)
    ensures multiset(Without(records, rrtype))[r] == if r.rrtype != rrtype then multiset(records)[r] else 0
  {
    if records != [] {
      WithoutCount(records[..|records| - 1], rrtype, r);
      assert records == records[..|records| - 1] + [records[|records| - 1]];
    }
  }

  lemma {:induction false} RotateKeeps<T>(s: seq<T>, steps: nat)
    ensures multiset(Rotate(s, steps)) == multiset(s)
  {
    if |s| > 1 {
      var cut := |s| - steps % |s|;
      assert s == s[..cut] + s[cut..];
    }
  }

  /** How often a record is there after one family has been regrouped. */
  function Regroupings(n: nat, rotate: bool, named: bool, address: nat): nat {
    if rotate then (if named then 0 else n) + address else n
  }

  lemma {:induction false} RegroupedCount(records: seq<RR>, picked: seq<RR>, v6: bool, index: nat, r: RR)
    ensures multiset(Regrouped(records, picked, v6, index))[r]
         == Regroupings(multiset(records)[r], |picked| > 1, r.rrtype == HeaderType(v6), multiset(picked)[r])
  {
    WithoutCount(records, HeaderType(v6), r);
    RotateKeeps(picked, index);
  }

  lemma {:induction false} ServedCount(records: seq<RR>, index4: nat, index6: nat, r: RR)
    ensures multiset(Served(records, index4, index6))[r]
         == Times(multiset(records)[r], Copies(r, |OfFamily(records, false)| > 1, |OfFamily(records, true)| > 1))
  {
    hide Regrouped, OfFamily;
    var four, six := OfFamily(records, false), OfFamily(records, true);
    OfFamilyCount(records, false, r);
    OfFamilyCount(records, true, r);
    RegroupedCount(records, four, false, index4, r);
    RegroupedCount(Regrouped(records, four, false, index4), six, true, index6, r);
    var n := multiset(records)[r];
    assert Times(n, 0) == 0 && Times(n, 1) == n && Times(n, 2) == n + Times(n, 1);
  }

  /**
   Rotation serves a permutation of the answers exactly when every record is served once,
   which a reader can tell from its header and its payload.
   */
  lemma {:induction false} PermutesExactlyWhen(records: seq<RR>, index4: nat, index6: nat)
    ensures multiset(Served(records, index4, index6)) == multiset(records)
       <==> forall r :: r in records ==> Copies(r, |OfFamily(records, false)| > 1, |OfFamily(records, true)| > 1) == 1
  {
    hide Served, OfFamily, Copies;
    var served := multiset(Served(records, index4, index6));
    var b4, b6 := |OfFamily(records, false)| > 1, |OfFamily(records, true)| > 1;
    forall r
      ensures served[r] == multiset(records)[r] <==> (r !in records || Copies(r, b4, b6) == 1)
    {
      ServedCount(records, index4, index6, r);
      assert r in records <==> multiset(records)[r] > 0;
      OnceOnly(multiset(records)[r], Copies(r, b4, b6));
    }
    assert served == multiset(records) <==> forall r :: served[r] == multiset(records)[r];
  }

  lemma {:induction false} OnceOnly(n: nat, copies: nat)
    ensures Times(n, copies) == n <==> (n == 0 || copies == 1)
  {
    if n > 0 && copies >= 2 {
      assert Times(n, copies) == n + (n + Times(n, copies - 2));
    }
    if n == 0 && copies > 0 {
      OnceOnly(n, copies - 1);
    }
  }

  predicate HeadersAgree(records: seq<RR>) {
    forall r :: r in records ==> (r.rrtype == TYPE_A <==> r.data.A?) && (r.rrtype == TYPE_AAAA <==> r.data.AAAA?)
  }

  lemma {:induction false} AgreeingHeadersPermute(records: seq<RR>, index4: nat, index6: nat)
    requires HeadersAgree(records)
    ensures multiset(Served(records, index4, index6)) == multiset(records)
  {
    PermutesExactlyWhen(records, index4, index6);
  }

  lemma {:induction false} FamilyOfThree(records: seq<RR>)
    requires |records| == 3 && records[0].data.A? && records[1].data.A? && records[2].data.Other?
    ensures |OfFamily(records, false)| == 2 && |OfFamily(records, true)| == 0
  {
    var two, one := records[..2], records[..1];
    assert two[..1] == one && one[..0] == [];
    assert OfFamily(one, false) == [records[0]] && OfFamily(one, true) == [];
    assert OfFamily(two, false) == [records[0], records[1]] && OfFamily(two, true) == [];
  }

  /** A record with another payload under an A header disappears as soon as the addresses rotate. */
  lemma {:induction false} MislabelledIsLost(a: string, b: string, payload: nat, index4: nat)
    ensures
      var odd := RR("", TYPE_A, 0, Other(payload));
      odd !in Served([RR("", TYPE_A, 0, A(a)), RR("", TYPE_A, 0, A(b)), odd], index4, 0)
  {
    var odd := RR("", TYPE_A, 0, Other(payload));
    var records := [RR("", TYPE_A, 0, A(a)), RR("", TYPE_A, 0, A(b)), odd];
    FamilyOfThree(records);
    hide Served, OfFamily;
    ServedCount(records, index4, 0, odd);
    assert multiset(Served(records, index4, 0))[odd] == 0;
  }

  // ---------------------------------------------------------------- every address takes its turn

  /** The index after a number of turns. */
  function Turn(index: nat, n: nat, turns: nat): nat {
    if turns == 0 then index else NextIndex(Turn(index, n, turns - 1), n)
  }

  /** The place in the stored order of the address that leads at an index. */
  function Leader(index: nat, n: nat): nat
    requires index < n
  {
    if index == 0 then 0 else n - index
  }

  lemma {:induction false} LeaderLeads<T>(s: seq<T>, index: nat)
    requires 1 < |s| && index < |s|
    ensures Rotate(s, index)[0] == s[Leader(index, |s|)]
  {
    assert index % |s| == index;
  }

  lemma {:induction false} NextIndexIs(index: nat, n: nat)
    requires 1 < n && index < n
    ensures NextIndex(index, n) == if index + 1 < n then index + 1 else 0
  {
  }

  lemma {:induction false} TurnIs(index: nat, n: nat, turns: nat)
    requires 1 < n && index < n && turns <= n
    ensures Turn(index, n, turns) == if index + turns < n then index + turns else index + turns - n
  {
    hide NextIndex;
    if turns > 0 {
      TurnIs(index, n, turns - 1);
      NextIndexIs(Turn(index, n, turns - 1), n);
    }
  }

  /** The turn, among any `n` consecutive ones, at which the address at place `p` leads. */
  function TurnOf(index: nat, n: nat, p: nat): (t: nat)
    requires index < n && p < n
    ensures 1 <= t <= n
  {
    var due := if p == 0 then 0 else n - p;
    if due > index then due - index else due + n - index
  }

  lemma {:induction false} TurnOfIs(index: nat, n: nat, p: nat, turns: nat)
    requires 1 < n && index < n && p < n && 1 <= turns <= n
    ensures Turn(index, n, turns) < n
    ensures Leader(Turn(index, n, turns), n) == p <==> turns == TurnOf(index, n, p)
  {
    TurnIs(index, n, turns);
  }

  lemma {:induction false} OfFamilyAppend(a: seq<RR>, b: seq<RR>, v6: bool)
    ensures OfFamily(a + b, v6) == OfFamily(a, v6) + OfFamily(b, v6)
  {
    if b == [] {
      assert a + b == a;
    } else {
      OfFamilyAppend(a, b[..|b| - 1], v6);
      assert (a + b)[..|a + b| - 1] == a + b[..|b| - 1];
    }
  }

  /** Records that are all, or none of them, of a family. */
  lemma {:induction false} AllOfFamily(records: seq<RR>, v6: bool)
    ensures (forall r :: r in records ==> IsAddress(r, v6)) ==> OfFamily(records, v6) == records
    ensures (forall r :: r in records ==> !IsAddress(r, v6)) ==> OfFamily(records, v6) == []
  {
    if records != [] {
      AllOfFamily(records[..|records| - 1], v6);
      assert records == records[..|records| - 1] + [records[|records| - 1]];
    }
  }

  lemma {:induction false} FamilyIsAddresses(records: seq<RR>, v6: bool)
    ensures forall r :: r in OfFamily(records, v6) ==> IsAddress(r, v6) && r in records
  {
    if records != [] {
      FamilyIsAddresses(records[..|records| - 1], v6);
    }
  }

  /** Taking a type out takes its own family, and leaves the other as it is. */
  lemma {:induction false} WithoutFamily(records: seq<RR>, taken: bool, v6: bool)
    requires HeadersAgree(records)
    ensures OfFamily(Without(records, HeaderType(taken)), v6) == if taken == v6 then [] else OfFamily(records, v6)
  {
    if records != [] {
      var before, last := records[..|records| - 1], records[|records| - 1];
      WithoutFamily(before, taken, v6);
      assert last in records;
      OfFamilyAppend(Without(before, HeaderType(taken)), if last.rrtype != HeaderType(taken) then [last] else [], v6);
      assert OfFamily([last], v6) == if IsAddress(last, v6) then [last] else [];
    }
  }

  lemma {:induction false} RotatedMembers<T>(s: seq<T>, steps: nat)
    ensures forall x :: x in Rotate(s, steps) ==> x in s
  {
  }

  lemma {:induction false} RegroupedFamily(records: seq<RR>, picked: seq<RR>, taken: bool, index: nat, v6: bool)
    requires HeadersAgree(records) && forall r :: r in picked ==> IsAddress(r, taken)
    requires taken == v6 ==> picked == OfFamily(records, v6)
    ensures OfFamily(Regrouped(records, picked, taken, index), v6) == if taken == v6 then Rotate(OfFamily(records, v6), index) else OfFamily(records, v6)
  {
    if |picked| > 1 {
      WithoutFamily(records, taken, v6);
      OfFamilyAppend(Without(records, HeaderType(taken)), Rotate(picked, index), v6);
      RotatedMembers(picked, index);
      AllOfFamily(Rotate(picked, index), v6);
    }
  }

  lemma {:induction false} RegroupedAgrees(records: seq<RR>, picked: seq<RR>, v6: bool, index: nat)
    requires HeadersAgree(records) && forall r :: r in picked ==> r in records
    ensures HeadersAgree(Regrouped(records, picked, v6, index))
  {
    RotatedMembers(picked, index);
    WithoutMembers(records, HeaderType(v6));
  }

  lemma {:induction false} WithoutMembers(records: seq<RR>, rrtype: nat)
    ensures forall r :: r in Without(records, rrtype) ==> r in records
  {
    if records != [] {
      WithoutMembers(records[..|records| - 1], rrtype);
    }
  }

  /** Each family is served in its stored order, rotated by its index. */
  lemma {:induction false} FamilyServed(records: seq<RR>, index4: nat, index6: nat, v6: bool)
    requires HeadersAgree(records)
    ensures OfFamily(Served(records, index4, index6), v6) == Rotate(OfFamily(records, v6), if v6 then index6 else index4)
  {
    hide OfFamily, Regrouped, Rotate, HeadersAgree;
    var four, six := OfFamily(records, false), OfFamily(records, true);
    FamilyIsAddresses(records, false);
    FamilyIsAddresses(records, true);
    var once := Regrouped(records, four, false, index4);
    RegroupedFamily(records, four, false, index4, false);
    RegroupedFamily(records, four, false, index4, true);
    RegroupedAgrees(records, four, false, index4);
    RegroupedFamily(once, six, true, index6, false);
    RegroupedFamily(once, six, true, index6, true);
  }

  /**
   Among as many successive responses as a family has addresses, whatever the index they start
   from, each address is the first of its family in exactly one.
   */
  lemma {:induction false} EveryAddressLeadsOnce(records: seq<RR>, v6: bool, index: nat, other: nat, p: nat, turns: nat)
    requires HeadersAgree(records)
    requires
      var n := |OfFamily(records, v6)|;
      1 < n && index < n && p < n && 1 <= turns <= n
    ensures
      var family := OfFamily(records, v6);
      var turn := Turn(index, |family|, turns);
      var served := OfFamily(Served(records, if v6 then other else turn, if v6 then turn else other), v6);
      && |served| == |family|
      && turn < |family| && served[0] == family[Leader(turn, |family|)]
      && (Leader(turn, |family|) == p <==> turns == TurnOf(index, |family|, p))
  {
    hide OfFamily, Served;
    var family := OfFamily(records, v6);
    var turn := Turn(index, |family|, turns);
    TurnOfIs(index, |family|, p, turns);
    FamilyServed(records, if v6 then other else turn, if v6 then turn else other, v6);
    LeaderLeads(family, turn);
    assert |Rotate(family, turn)| == |family|;
  }

  // ---------------------------------------------------------------- the code

  lemma {:induction false} Prefixes(records: seq<Record>, i: nat)
    requires i < |records|
    ensures Values(records[..i + 1]) == Values(records[..i]) + [records[i].Value()]
    ensures Values(records[..i + 1])[..i] == Values(records[..i])
    ensures OfFamily(Values(records[..i + 1]), true)
         == OfFamily(Values(records[..i]), true) + (if records[i].data.AAAA? then [records[i].Value()] else [])
    ensures OfFamily(Values(records[..i + 1]), false)
         == OfFamily(Values(records[..i]), false) + (if records[i].data.A? then [records[i].Value()] else [])
    ensures forall t :: Without(Values(records[..i + 1]), t) == Without(Values(records[..i]), t) + (if records[i].rrtype != t then [records[i].Value()] else [])
  {
    assert Values(records[..i + 1])[..i] == Values(records[..i]);
  }

  lemma {:induction false} Appended(a: seq<Record>, b: seq<Record>)
    ensures Values(a + b) == Values(a) + Values(b)
  {
  }

  lemma {:induction false} RotatedValues(records: seq<Record>, steps: nat)
    ensures Values(Rotate(records, steps)) == Rotate(Values(records), steps)
  {
  }

  method RemoveAnswersOfType(answers: seq<Record>, rrtype: nat) returns (filtered: seq<Record>)
    ensures Values(filtered) == Without(Values(answers), rrtype)
    ensures forall r :: r in filtered ==> r in answers
  {
    filtered := [];
    for i := 0 to |answers|
      invariant Values(filtered) == Without(Values(answers[..i]), rrtype)
      invariant forall r :: r in filtered ==> r in answers
    {
      Prefixes(answers, i);
      if answers[i].rrtype != rrtype {
        Appended(filtered, [answers[i]]);
        filtered := filtered + [answers[i]];
      }
    }
    assert answers[..|answers|] == answers;
  }

  /** Appends the rotated records one by one, after the ones of their header type were taken out; one address needs no turn. */
  method Regroup(answer: seq<Record>, picked: seq<Record>, v6: bool, index: nat) returns (regrouped: seq<Record>)
    ensures Values(regrouped) == Regrouped(Values(answer), Values(picked), v6, index)
    ensures forall r :: r in regrouped ==> r in answer || r in picked
  {
    if |picked| <= 1 {
      return answer;
    }
    var rotated := Rotate(picked, index);
    var filtered := RemoveAnswersOfType(answer, HeaderType(v6));
    regrouped := filtered;
    for i := 0 to |rotated|
      invariant regrouped == filtered + rotated[..i]
    {
      regrouped := regrouped + [rotated[i]];
    }
    assert regrouped == filtered + rotated;
    Appended(filtered, rotated);
    RotatedValues(picked, index);
  }

  /** Moves each family of two or more addresses of the response one turn on, and the index of the family with it. */
  method ApplyRoundRobin(response: Message, index4: nat, index6: nat) returns (next4: nat, next6: nat)
    modifies response`answer
    ensures next4 == NextIndex(index4, |OfFamily(old(Values(response.answer)), false)|)
    ensures next6 == NextIndex(index6, |OfFamily(old(Values(response.answer)), true)|)
    ensures Values(response.answer) == Served(old(Values(response.answer)), next4, next6)
    ensures forall r :: r in response.answer ==> r in old(response.answer)
  {
    hide Regrouped, OfFamily;
    next4, next6 := index4, index6;
    var four, six := PickFamilies(response.answer);
    if |four| > 1 {
      next4 := (next4 + 1) % |four|;
    }
    if |six| > 1 {
      next6 := (next6 + 1) % |six|;
    }
    var answer := Regroup(response.answer, four, false, next4);
    answer := Regroup(answer, six, true, next6);
    response.answer := answer;
  }

  method PickFamilies(answer: seq<Record>) returns (four: seq<Record>, six: seq<Record>)
    ensures Values(four) == OfFamily(Values(answer), false) && Values(six) == OfFamily(Values(answer), true)
    ensures forall r :: r in four || r in six ==> r in answer
  {
    four, six := [], [];
    for i := 0 to |answer|
      invariant Values(four) == OfFamily(Values(answer[..i]), false) && Values(six) == OfFamily(Values(answer[..i]), true)
      invariant forall r :: r in four || r in six ==> r in answer
    {
      Prefixes(answer, i);
      match answer[i].data {
        case A(_) =>
          Appended(four, [answer[i]]);
          four := four + [answer[i]];
        case AAAA(_) =>
          Appended(six, [answer[i]]);
          six := six + [answer[i]];
        case _ =>
      }
    }
    assert answer[..|answer|] == answer;
  }
}
