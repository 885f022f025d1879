/** The lifetime of a response: computed from its records, bounded by the client, written back to every record. */
module TimeToLive {
  import opened Dns
  import opened Messages

  // ---------------------------------------------------------------- what a lifetime is

  /** The records whose header TTL is a lifetime: all but the OPT pseudo record. */
  predicate Counted(r: RR) {
    r.rrtype != TYPE_OPT
  }

  /** The least positive TTL of the records, 0 if there is none. */
  ghost predicate LeastPositive(records: seq<RR>, t: nat) {
    && (forall i :: 0 <= i < |records| && Counted(records[i]) && records[i].ttl > 0 ==> 0 < t <= records[i].ttl)
    && (t > 0 ==> exists i :: 0 <= i < |records| && Counted(records[i]) && records[i].ttl == t)
  }

  /** The first SOA of the authority section, if any. */
  ghost predicate FirstSOA(ns: seq<RR>, i: int) {
    0 <= i < |ns| && ns[i].data.SOA? && forall j :: 0 <= j < i ==> !ns[j].data.SOA?
  }

  ghost predicate Lifetime(m: Msg, t: nat) {
    if m.answer == [] && exists i :: FirstSOA(m.ns, i)
    then exists i :: FirstSOA(m.ns, i) && t == Min(m.ns[i].ttl, m.ns[i].data.minimum)
    else LeastPositive(m.answer + m.ns + m.extra, t)
  }

  lemma {:induction false} LifetimeIsUnique(m: Msg, t: nat, u: nat)
    requires Lifetime(m, t) && Lifetime(m, u)
    ensures t == u
  {
    if m.answer == [] && exists i :: FirstSOA(m.ns, i) {
      var i :| FirstSOA(m.ns, i) && t == Min(m.ns[i].ttl, m.ns[i].data.minimum);
      var j :| FirstSOA(m.ns, j) && u == Min(m.ns[j].ttl, m.ns[j].data.minimum);
      assert i == j;
    }
  }

  function WithTTL(records: seq<RR>, t: nat): seq<RR> {
    seq(|records|, i requires 0 <= i < |records| => if Counted(records[i]) then records[i].(ttl := t) else records[i])
  }

  function Normalized(m: Msg, t: nat): Msg {
    m.(answer := WithTTL(m.answer, t), ns := WithTTL(m.ns, t), extra := WithTTL(m.extra, t))
  }

  // ---------------------------------------------------------------- the code

  method ExtractNegativeTTL(response: Message) returns (t: nat, found: bool)
    ensures found ==> exists i :: FirstSOA(Values(response.ns), i) && t == Min(Values(response.ns)[i].ttl, Values(response.ns)[i].data.minimum)
    ensures !found ==> forall i :: !FirstSOA(Values(response.ns), i)
  {
    ghost var ns := Values(response.ns);
    for i := 0 to |response.ns|
      invariant forall j :: 0 <= j < i ==> !ns[j].data.SOA?
    {
      var record := response.ns[i];
      assert ns[i] == record.Value();
      if record.data.SOA? {
        assert FirstSOA(ns, i);
        return if record.ttl < record.data.minimum then record.ttl else record.data.minimum, true;
      }
    }
    return 0, false;
  }

  /** One pass of the minimum over a section, with the records of the earlier sections behind it. */
  method ScanSection(records: seq<Record>, ghost earlier: seq<RR>, before: nat) returns (t: nat)
    requires LeastPositive(earlier, before)
    ensures LeastPositive(earlier + Values(records), t)
  {
    t := before;
    assert earlier + Values(records)[..0] == earlier;
    for i := 0 to |records|
      invariant LeastPositive(earlier + Values(records)[..i], t)
    {
      ghost var seen := earlier + Values(records)[..i];
      ghost var next := earlier + Values(records)[..i + 1];
      assert next == seen + [records[i].Value()];
      ghost var was := t;
      if records[i].rrtype != TYPE_OPT {
        if t == 0 || (records[i].ttl > 0 && records[i].ttl < t) {
          t := records[i].ttl;
        }
      }
      Grows(seen, records[i].Value(), was, t);
    }
    assert Values(records)[..|records|] == Values(records);
  }

  lemma {:induction false} Grows(seen: seq<RR>, r: RR, before: nat, after: nat)
    requires LeastPositive(seen, before)
    requires after == if Counted(r) && (before == 0 || (r.ttl > 0 && r.ttl < before)) then r.ttl else before
    ensures LeastPositive(seen + [r], after)
  {
    var all := seen + [r];
    if after > 0 {
      if after == before {
        var i :| 0 <= i < |seen| && Counted(seen[i]) && seen[i].ttl == before;
        assert all[i] == seen[i];
      } else {
        assert all[|seen|] == r;
      }
    }
  }

  method ComputeTimeToLive(response: Message) returns (t: nat)
    ensures Lifetime(response.Value(), t)
  {
    if |response.answer| == 0 {
      var negative, found := ExtractNegativeTTL(response);
      if found {
        return negative;
      }
    }
    hide LeastPositive, FirstSOA;
    t := ScanRecords(response);
  }

  method ScanRecords(response: Message) returns (t: nat)
    ensures LeastPositive(response.Value().answer + response.Value().ns + response.Value().extra, t)
  {
    assert LeastPositive([], 0);
    hide LeastPositive;
    t := ScanSection(response.answer, [], 0);
    assert [] + Values(response.answer) == Values(response.answer);
    t := ScanSection(response.ns, Values(response.answer), t);
    t := ScanSection(response.extra, Values(response.answer) + Values(response.ns), t);
  }

  method NormalizeSection(records: seq<Record>, t: nat)
    modifies records
    ensures forall r :: r in records ==> r.Value() == (if Counted(old(r.Value())) then old(r.Value()).(ttl := t) else old(r.Value()))
  {
    for i := 0 to |records|
      invariant forall r :: r in records ==> r.Value() == old(r.Value()) || r.Value() == old(r.Value()).(ttl := t)
      invariant forall r :: r in records && !Counted(old(r.Value())) ==> r.Value() == old(r.Value())
      invariant forall j :: 0 <= j < i && Counted(old(records[j].Value())) ==> records[j].ttl == t
    {
      if records[i].rrtype != TYPE_OPT {
        records[i].ttl := t;
      }
    }
  }

  /** Writes the lifetime to every record of the three sections but OPT, and nothing else. */
  method NormalizeTTL(response: Message, t: nat)
    modifies response.answer, response.ns, response.extra
    ensures response.Value() == Normalized(old(response.Value()), t)
  {
    NormalizeSection(response.answer, t);
    NormalizeSection(response.ns, t);
    NormalizeSection(response.extra, t);
    assert Values(response.answer) == WithTTL(old(Values(response.answer)), t);
    assert Values(response.ns) == WithTTL(old(Values(response.ns)), t);
    assert Values(response.extra) == WithTTL(old(Values(response.extra)), t);
  }
}
