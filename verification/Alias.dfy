/** Following the aliases of predefined responses. Names are compared in canonical form, which is left to a parameter. */
module Alias {
  import opened Dns

  type Canonical = string -> string

  // ---------------------------------------------------------------- the alias path

  /** The target of the first alias record of a name. */
  function Target(canonical: Canonical, records: seq<RR>, name: string): Option<string> {
    if records == [] then None
    else if records[0].data.CNAME? && canonical(records[0].name) == name then Some(canonical(records[0].data.target))
    else Target(canonical, records[1..], name)
  }

  /** Record `i` is the first alias record of the name. */
  ghost predicate FirstAlias(canonical: Canonical, records: seq<RR>, name: string, i: nat) {
    && i < |records| && records[i].data.CNAME? && canonical(records[i].name) == name
    && forall j :: 0 <= j < i && records[j].data.CNAME? ==> canonical(records[j].name) != name
  }

  /** A name has a target exactly when some alias record has that name, and it is the one of the first. */
  lemma {:induction false} TargetExactly(canonical: Canonical, records: seq<RR>, name: string)
    ensures Target(canonical, records, name).None? <==> forall i :: 0 <= i < |records| && records[i].data.CNAME? ==> canonical(records[i].name) != name
    ensures Target(canonical, records, name).Some? ==>
              exists i: nat :: FirstAlias(canonical, records, name, i) && Target(canonical, records, name).value == canonical(records[i].data.target)
  {
    if records != [] {
      var rest := records[1..];
      TargetExactly(canonical, rest, name);
      assert forall i :: 0 < i < |records| ==> records[i] == rest[i - 1];
      if records[0].data.CNAME? && canonical(records[0].name) == name {
        assert FirstAlias(canonical, records, name, 0);
      } else if Target(canonical, rest, name).Some? {
        var i: nat :| FirstAlias(canonical, rest, name, i) && Target(canonical, rest, name).value == canonical(rest[i].data.target);
        assert records[i + 1] == rest[i];
        assert FirstAlias(canonical, records, name, i + 1);
      }
    }
  }

  ghost predicate Distinct(path: seq<string>) {
    forall i, j :: 0 <= i < j < |path| ==> path[i] != path[j]
  }

  /** Names each of which is the alias target of the one before, none of them twice. */
  ghost predicate IsPath(canonical: Canonical, records: seq<RR>, path: seq<string>) {
    && path != []
    && Distinct(path)
    && forall i :: 0 < i < |path| ==> Target(canonical, records, path[i - 1]) == Some(path[i])
  }

  /** The path as far as it goes: its last name has no alias, or one that leads back into it. */
  ghost predicate IsWholePath(canonical: Canonical, records: seq<RR>, path: seq<string>) {
    && IsPath(canonical, records, path)
    && var next := Target(canonical, records, path[|path| - 1]);
       next.None? || next.value in path
  }

  predicate Wanted(r: RR, qtype: nat) {
    (r.data.A? && (qtype == 0 || qtype == TYPE_A)) || (r.data.AAAA? && (qtype == 0 || qtype == TYPE_AAAA))
  }

  predicate HasAddress(canonical: Canonical, records: seq<RR>, name: string, qtype: nat) {
    exists r :: r in records && canonical(r.name) == name && Wanted(r, qtype)
  }

  /** What a whole path leaves to follow: its end, unless it is a cycle, no alias at all, or already has a wanted address. */
  ghost function LeftToFollow(canonical: Canonical, records: seq<RR>, path: seq<string>, qtype: nat): Option<string>
    requires path != []
  {
    var end := path[|path| - 1];
    if Target(canonical, records, end).Some? || |path| == 1 || HasAddress(canonical, records, end, qtype) then None
    else Some(end)
  }

  /** There is only one whole path from a name. */
  lemma {:induction false} WholePathIsUnique(canonical: Canonical, records: seq<RR>, p: seq<string>, q: seq<string>)
    requires IsWholePath(canonical, records, p) && IsWholePath(canonical, records, q) && p[0] == q[0]
    ensures p == q
  {
    Shared(canonical, records, p, q, |p|);
    Shared(canonical, records, q, p, |q|);
  }

  lemma {:induction false} Shared(canonical: Canonical, records: seq<RR>, p: seq<string>, q: seq<string>, n: nat)
    requires IsPath(canonical, records, p) && IsWholePath(canonical, records, q) && p[0] == q[0] && n <= |p|
    ensures n <= |q| && p[..n] == q[..n]
  {
    hide Target;
    if n > 1 {
      Shared(canonical, records, p, q, n - 1);
      assert p[n - 2] == p[..n - 1][n - 2] == q[..n - 1][n - 2] == q[n - 2];
      assert Target(canonical, records, p[n - 2]) == Some(p[n - 1]);
      assert p[n - 1] !in q[..n - 1];
      assert q[..|q|] == q;
      assert Target(canonical, records, q[n - 2]) == Some(q[n - 1]);
      assert p[..n] == p[..n - 1] + [p[n - 1]] && q[..n] == q[..n - 1] + [q[n - 1]];
    }
  }

  // ---------------------------------------------------------------- the code

  function Targets(canonical: Canonical, records: seq<RR>): set<string> {
    set r | r in records && r.data.CNAME? :: canonical(r.data.target)
  }

  lemma {:induction false} TargetIsListed(canonical: Canonical, records: seq<RR>, name: string)
    ensures Target(canonical, records, name).Some? ==> Target(canonical, records, name).value in Targets(canonical, records)
  {
    if records != [] {
      TargetIsListed(canonical, records[1..], name);
      assert forall r :: r in records[1..] ==> r in records;
      assert records[0] in records;
    }
  }

  /** The scan of the records for the alias of one name. */
  method FindTarget(canonical: Canonical, records: seq<RR>, name: string) returns (target: Option<string>)
    ensures target == Target(canonical, records, name)
  {
    for i := 0 to |records|
      invariant Target(canonical, records, name) == Target(canonical, records[i..], name)
    {
      if records[i].data.CNAME? && canonical(records[i].name) == name {
        return Some(canonical(records[i].data.target));
      }
    }
    return None;
  }

  /** Ends after no more steps than there are alias records, at what the whole path from the name leaves to follow. */
  method FindLastCNAMETarget(canonical: Canonical, name: string, records: seq<RR>, qtype: nat) returns (left: Option<string>)
    ensures exists path :: IsWholePath(canonical, records, path) && path[0] == canonical(name) && left == LeftToFollow(canonical, records, path, qtype)
  {
    hide Target, Targets;
    var current := canonical(name);
    var visited := {current};
    ghost var path := [current];
    while true
      invariant IsPath(canonical, records, path) && path[0] == canonical(name) && path[|path| - 1] == current
      invariant forall n :: n in visited <==> n in path
      decreases Targets(canonical, records) - visited
    {
      var target := FindTarget(canonical, records, current);
      if target.None? {
        break;
      }
      TargetIsListed(canonical, records, current);
      if target.value in visited {
        return None;
      }
      assert target.value in Targets(canonical, records) - visited;
      current := target.value;
      visited := visited + {current};
      path := path + [current];
    }
    if current == canonical(name) {
      assert path[0] == path[|path| - 1];
      return None;
    }
    for i := 0 to |records|
      invariant forall j :: 0 <= j < i ==> !(canonical(records[j].name) == current && Wanted(records[j], qtype))
    {
      if canonical(records[i].name) != current {
        continue;
      }
      match records[i].data {
        case A(_) =>
          if qtype == 0 || qtype == TYPE_A {
            assert records[i] in records;
            return None;
          }
        case AAAA(_) =>
          if qtype == 0 || qtype == TYPE_AAAA {
            assert records[i] in records;
            return None;
          }
        case _ =>
      }
    }
    return Some(current);
  }

  // ---------------------------------------------------------------- follows within follows

  /** The names of the aliases being followed, carried along in the context of a query; none outside of a follow. */
  type Chain = Option<set<string>>

  function Names(chain: Chain): set<string> {
    if chain.Some? then chain.value else {}
  }

  /** Enters a follow, unless it would come back to a name being followed. */
  method ContextWithAliasResolution(canonical: Canonical, chain: Chain, source: string, target: string) returns (extended: Chain, loop: bool)
    ensures loop <==> canonical(source) == canonical(target) || canonical(target) in Names(chain)
    ensures !loop ==> extended == Some(Names(chain) + {canonical(source), canonical(target)})
    ensures loop ==> extended == chain
  {
    var from, to := canonical(source), canonical(target);
    if from == to {
      return chain, true;
    }
    var names: set<string> := {};
    if chain.Some? {
      if to in chain.value {
        return chain, true;
      }
      names := names + chain.value;
    }
    assert names == Names(chain);
    return Some(names + {from, to}), false;
  }

  /** Canonical names are canonical. */
  ghost predicate Settled(canonical: Canonical) {
    forall name :: canonical(canonical(name)) == canonical(name)
  }

  /** The records leave a target to be followed from a name: the end of the whole alias path. */
  ghost predicate Leaves(canonical: Canonical, records: seq<RR>, name: string, qtype: nat, target: string) {
    exists path :: IsWholePath(canonical, records, path) && path[0] == canonical(name) && LeftToFollow(canonical, records, path, qtype) == Some(target)
  }

  /** What is left to follow is the target of an alias record. */
  lemma {:induction false} LeftIsTarget(canonical: Canonical, records: seq<RR>, name: string, qtype: nat, target: string)
    requires Settled(canonical) && Leaves(canonical, records, name, qtype, target)
    ensures target in Targets(canonical, records) && canonical(target) == target
  {
    var path :| IsWholePath(canonical, records, path) && path[0] == canonical(name) && LeftToFollow(canonical, records, path, qtype) == Some(target);
    var last := |path| - 1;
    assert Target(canonical, records, path[last - 1]) == Some(path[last]);
    TargetIsListed(canonical, records, path[last - 1]);
    var r :| r in records && r.data.CNAME? && canonical(r.data.target) == target;
  }

  /**
   The predefined answers that the rules give while a name is resolved in a context. There may
   be several, one after the other, since a result that falls through lets the walk go on.
   */
  type Predefined = (string, Chain) -> seq<seq<RR>>

  /** The targets of all predefined answers in the configuration. */
  ghost predicate Configured(canonical: Canonical, predefined: Predefined, targets: set<string>) {
    forall name, chain, k :: 0 <= k < |predefined(name, chain)| ==> Targets(canonical, predefined(name, chain)[k]) <= targets
  }

  /** Follows that can be in progress at once, each within the one before: any one of the answers to a name may be followed. */
  ghost predicate Nested(canonical: Canonical, predefined: Predefined, qtype: nat, name: string, chain: Chain, followed: seq<string>)
    decreases |followed|
  {
    followed == [] ||
    var target := followed[0];
    && (exists k :: 0 <= k < |predefined(name, chain)| && Leaves(canonical, predefined(name, chain)[k], name, qtype, target))
    && canonical(name) != canonical(target) && canonical(target) !in Names(chain)
    && Nested(canonical, predefined, qtype, target, Some(Names(chain) + {canonical(name), canonical(target)}), followed[1..])
  }

  /** Nested follows go to pairwise different targets, all of them predefined, none of them already in the context or the name itself. */
  lemma {:induction false} FollowsAreDistinct(canonical: Canonical, predefined: Predefined, targets: set<string>, qtype: nat, name: string, chain: Chain, followed: seq<string>)
    requires Settled(canonical) && Configured(canonical, predefined, targets)
    requires Nested(canonical, predefined, qtype, name, chain, followed)
    ensures Distinct(followed)
    ensures forall i :: 0 <= i < |followed| ==> followed[i] in targets && followed[i] !in Names(chain) && followed[i] != canonical(name)
    decreases |followed|
  {
    if followed != [] {
      var target, rest := followed[0], followed[1..];
      var k :| 0 <= k < |predefined(name, chain)| && Leaves(canonical, predefined(name, chain)[k], name, qtype, target);
      LeftIsTarget(canonical, predefined(name, chain)[k], name, qtype, target);
      FollowsAreDistinct(canonical, predefined, targets, qtype, target, Some(Names(chain) + {canonical(name), canonical(target)}), rest);
      assert forall i :: 0 < i < |followed| ==> followed[i] == rest[i - 1];
    }
  }

  /** So follows nest no deeper than there are predefined targets, whichever answers are followed. */
  lemma {:induction false} FollowsAreBounded(canonical: Canonical, predefined: Predefined, targets: set<string>, qtype: nat, name: string, chain: Chain, followed: seq<string>)
    requires Settled(canonical) && Configured(canonical, predefined, targets)
    requires Nested(canonical, predefined, qtype, name, chain, followed)
    ensures |followed| <= |targets|
  {
    FollowsAreDistinct(canonical, predefined, targets, qtype, name, chain, followed);
    Pigeons(followed, targets);
  }

  lemma {:induction false} Pigeons(names: seq<string>, targets: set<string>)
    requires Distinct(names) && forall i :: 0 <= i < |names| ==> names[i] in targets
    ensures |names| <= |targets|
  {
    if names != [] {
      Pigeons(names[1..], targets - {names[0]});
      assert targets == (targets - {names[0]}) + {names[0]};
    }
  }
}
