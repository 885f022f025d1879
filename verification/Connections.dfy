/** The stream of connection events a subscriber gets, and the snapshots it is computed from. */
module Connections {
  import opened Dns

  /** Bytes sent and received over a connection. */
  datatype Counters = Counters(up: int, down: int)

  function Plus(a: Counters, b: Counters): Counters { Counters(a.up + b.up, a.down + b.down) }

  function Minus(a: Counters, b: Counters): Counters { Counters(a.up - b.up, a.down - b.down) }

  const ZERO := Counters(0, 0)

  /** An active connection: the counters when looked at, and when it is described, which loads them again. */
  datatype Connection = Connection(id: nat, now: Counters, described: Counters)

  datatype Snapshot = Snapshot(counters: Counters, hadTraffic: bool)

  datatype Event =
    | New(id: nat, totals: Counters)
    | Past(id: nat)
    | Update(id: nat, delta: Counters)
    | Closed(id: nat)

  // ---------------------------------------------------------------- what a log of events says

  /** The connections open to whoever follows the log. */
  function Open(log: seq<Event>): set<nat> {
    if log == [] then {}
    else
      var before := Open(log[..|log| - 1]);
      match log[|log| - 1]
      case New(id, _) => before + {id}
      case Closed(id) => before - {id}
      case _ => before
  }

  /** The sum of the deltas of a connection since it was opened. */
  function Sum(log: seq<Event>, id: nat): Counters {
    if log == [] then ZERO
    else
      var before := Sum(log[..|log| - 1], id);
      match log[|log| - 1]
      case New(i, _) => if i == id then ZERO else before
      case Update(i, delta) => if i == id then Plus(before, delta) else before
      case _ => before
  }

  /** The last update of a connection since it was opened was not silent. */
  predicate Busy(log: seq<Event>, id: nat) {
    log != [] &&
    match log[|log| - 1]
    case New(i, _) => i != id && Busy(log[..|log| - 1], id)
    case Update(i, delta) => if i == id then delta != ZERO else Busy(log[..|log| - 1], id)
    case _ => Busy(log[..|log| - 1], id)
  }

  /** Updates are for open connections, never negative, and silent only after one that was not. */
  predicate Proper(log: seq<Event>) {
    log == [] ||
    var before, e := log[..|log| - 1], log[|log| - 1];
    && Proper(before)
    && (e.Update? ==> e.id in Open(before) && e.delta.up >= 0 && e.delta.down >= 0 && (e.delta == ZERO ==> Busy(before, e.id)))
  }

  // ---------------------------------------------------------------- the stream

  datatype Stream = Stream(
    snapshots: map<nat, Snapshot>,
    log: seq<Event>,
    first: map<nat, Counters>,    // the counters an open connection was first seen with
    jumps: map<nat, Counters>)    // what its counters have lost by falling

  const START := Stream(map[], [], map[], map[])

  function Track(s: Stream, c: Connection): Stream {
    Stream(s.snapshots[c.id := Snapshot(c.now, false)], s.log + [New(c.id, c.described)], s.first[c.id := c.now], s.jumps[c.id := ZERO])
  }

  function Untrack(s: Stream, id: nat): Stream {
    Stream(s.snapshots - {id}, s.log + [Closed(id)], s.first - {id}, s.jumps - {id})
  }

  /** One active connection at a tick. */
  function Observe(s: Stream, c: Connection): Stream {
    if c.id !in s.snapshots then Track(s, c)
    else
      var snapshot := s.snapshots[c.id];
      var delta := Minus(c.now, snapshot.counters);
      if delta.up < 0 || delta.down < 0 then
        s.(snapshots := s.snapshots[c.id := Snapshot(c.now, false)],
           log := s.log + (if snapshot.hadTraffic then [Update(c.id, ZERO)] else []),
           jumps := if c.id in s.jumps then s.jumps[c.id := Plus(s.jumps[c.id], delta)] else s.jumps)
      else if delta.up > 0 || delta.down > 0 then
        s.(snapshots := s.snapshots[c.id := Snapshot(c.now, true)], log := s.log + [Update(c.id, delta)])
      else if snapshot.hadTraffic then
        s.(snapshots := s.snapshots[c.id := Snapshot(c.now, false)], log := s.log + [Update(c.id, ZERO)])
      else s
  }

  // ---------------------------------------------------------------- invariant

  /** What the stream knows of an open connection agrees with what its log says. */
  ghost predicate Known(snapshot: Snapshot, log: seq<Event>, id: nat, first: Counters, jump: Counters) {
    snapshot.counters == Plus(Plus(first, Sum(log, id)), jump) && (snapshot.hadTraffic <==> Busy(log, id))
  }

  ghost predicate Inv(s: Stream) {
    && s.snapshots.Keys == Open(s.log) == s.first.Keys == s.jumps.Keys
    && Proper(s.log)
    && forall id :: id in s.snapshots ==> Known(s.snapshots[id], s.log, id, s.first[id], s.jumps[id])
  }

  lemma {:induction false} Appended(log: seq<Event>, e: Event, id: nat)
    ensures Open(log + [e]) == (match e case New(i, _) => Open(log) + {i} case Closed(i) => Open(log) - {i} case _ => Open(log))
    ensures Proper(log + [e]) == (Proper(log) && (e.Update? ==> e.id in Open(log) && e.delta.up >= 0 && e.delta.down >= 0 && (e.delta == ZERO ==> Busy(log, e.id))))
    ensures e.id != id ==> Sum(log + [e], id) == Sum(log, id) && Busy(log + [e], id) == Busy(log, id)
    ensures e.New? && e.id == id ==> Sum(log + [e], id) == ZERO && !Busy(log + [e], id)
    ensures e.Update? && e.id == id ==> Sum(log + [e], id) == Plus(Sum(log, id), e.delta) && Busy(log + [e], id) == (e.delta != ZERO)
    ensures !e.New? && !e.Update? ==> Sum(log + [e], id) == Sum(log, id) && Busy(log + [e], id) == Busy(log, id)
  {
    assert (log + [e])[..|log|] == log;
  }

  lemma {:induction false} TrackKeeps(s: Stream, c: Connection)
    requires Inv(s)
    ensures Inv(Track(s, c))
  {
    hide Open, Sum, Busy, Proper;
    var t := Track(s, c);
    forall id
      ensures id in t.snapshots ==> Known(t.snapshots[id], t.log, id, t.first[id], t.jumps[id])
    {
      Appended(s.log, New(c.id, c.described), id);
    }
    Appended(s.log, New(c.id, c.described), c.id);
  }

  lemma {:induction false} UntrackKeeps(s: Stream, id: nat)
    requires Inv(s)
    ensures Inv(Untrack(s, id))
  {
    hide Open, Sum, Busy, Proper;
    var t := Untrack(s, id);
    forall i
      ensures i in t.snapshots ==> Known(t.snapshots[i], t.log, i, t.first[i], t.jumps[i])
    {
      Appended(s.log, Closed(id), i);
    }
    Appended(s.log, Closed(id), id);
  }

  lemma {:induction false} PastKeeps(s: Stream, id: nat)
    requires Inv(s)
    ensures Inv(s.(log := s.log + [Past(id)]))
  {
    hide Open, Sum, Busy, Proper;
    var t := s.(log := s.log + [Past(id)]);
    forall i
      ensures i in t.snapshots ==> Known(t.snapshots[i], t.log, i, t.first[i], t.jumps[i])
    {
      Appended(s.log, Past(id), i);
    }
    Appended(s.log, Past(id), id);
  }

  lemma {:induction false} UpdateKeeps(s: Stream, id: nat, now: Counters, delta: Counters, jump: Counters)
    requires Inv(s) && id in s.snapshots
    requires delta.up >= 0 && delta.down >= 0 && (delta == ZERO ==> s.snapshots[id].hadTraffic)
    requires now == Plus(Plus(s.snapshots[id].counters, delta), jump)
    ensures Inv(s.(snapshots := s.snapshots[id := Snapshot(now, delta != ZERO)], log := s.log + [Update(id, delta)], jumps := s.jumps[id := Plus(s.jumps[id], jump)]))
  {
    hide Open, Sum, Busy, Proper;
    var t := s.(snapshots := s.snapshots[id := Snapshot(now, delta != ZERO)], log := s.log + [Update(id, delta)], jumps := s.jumps[id := Plus(s.jumps[id], jump)]);
    forall i
      ensures i in t.snapshots ==> Known(t.snapshots[i], t.log, i, t.first[i], t.jumps[i])
    {
      Appended(s.log, Update(id, delta), i);
    }
    Appended(s.log, Update(id, delta), id);
  }

  lemma {:induction false} ObserveKeeps(s: Stream, c: Connection)
    requires Inv(s)
    ensures Inv(Observe(s, c)) && c.id in Observe(s, c).snapshots
  {
    hide Open, Sum, Busy, Proper;
    if c.id !in s.snapshots {
      TrackKeeps(s, c);
    } else {
      var snapshot := s.snapshots[c.id];
      var delta := Minus(c.now, snapshot.counters);
      var same := s.jumps[c.id := Plus(s.jumps[c.id], ZERO)];
      assert same == s.jumps;
      if delta.up < 0 || delta.down < 0 {
        if snapshot.hadTraffic {
          UpdateKeeps(s, c.id, c.now, ZERO, delta);
        } else {
          assert s.log + [] == s.log;
        }
      } else if delta != ZERO || snapshot.hadTraffic {
        UpdateKeeps(s, c.id, c.now, delta, ZERO);
      }
    }
  }

  // ---------------------------------------------------------------- what the invariant gives a subscriber

  /** The deltas of a connection add up to its last snapshot less its first, exactly unless its counters have lost anything by falling. */
  lemma {:induction false} DeltasAddUp(s: Stream, id: nat)
    requires Inv(s) && id in s.snapshots
    ensures Sum(s.log, id) == Minus(s.snapshots[id].counters, s.first[id]) <==> s.jumps[id] == ZERO
  {
  }

  /** The totals a connection was last announced with. */
  function Announced(log: seq<Event>, id: nat): Option<Counters> {
    if log == [] then None
    else if log[|log| - 1].New? && log[|log| - 1].id == id then Some(log[|log| - 1].totals)
    else Announced(log[..|log| - 1], id)
  }

  lemma {:induction false} OpenIsAnnounced(log: seq<Event>, id: nat)
    requires id in Open(log)
    ensures Announced(log, id).Some?
  {
    if log[|log| - 1] != Closed(id) && !(log[|log| - 1].New? && log[|log| - 1].id == id) {
      OpenIsAnnounced(log[..|log| - 1], id);
    }
  }

  /**
   What a subscriber computes, the announced totals plus the deltas, is what the connection was
   last seen with, exactly when the totals announced exceed the counters first seen by what has
   been lost by falling; so if nothing fell, exactly when the two loads agreed.
   */
  lemma {:induction false} SubscriberIsRight(s: Stream, id: nat)
    requires Inv(s) && id in s.snapshots
    ensures Announced(s.log, id).Some?
    ensures
      var shown := Plus(Announced(s.log, id).value, Sum(s.log, id));
      && (shown == s.snapshots[id].counters <==> Minus(Announced(s.log, id).value, s.first[id]) == s.jumps[id])
      && (s.jumps[id] == ZERO ==> (shown == s.snapshots[id].counters <==> Announced(s.log, id).value == s.first[id]))
  {
    OpenIsAnnounced(s.log, id);
    assert Known(s.snapshots[id], s.log, id, s.first[id], s.jumps[id]);
  }

  /** Both loads are those made when the connection was first tracked, until it is tracked again. */
  lemma {:induction false} TrackingLoads(s: Stream, c: Connection, id: nat)
    ensures Announced(Track(s, c).log, c.id) == Some(c.described) && Track(s, c).first[c.id] == c.now
    ensures id in s.snapshots && id in s.first ==> id in Observe(s, c).first && Announced(Observe(s, c).log, id) == Announced(s.log, id) && Observe(s, c).first[id] == s.first[id]
  {
    assert forall e: Event :: (s.log + [e])[..|s.log|] == s.log;
    assert s.log + [] == s.log;
  }

  lemma {:induction false} BusyAfterSilence(log: seq<Event>, id: nat, i: nat)
    requires Busy(log, id) && i < |log| && log[i] == Update(id, ZERO)
    ensures exists k :: i < k < |log| && log[k].Update? && log[k].id == id && log[k].delta != ZERO
  {
    var last := |log| - 1;
    if !(log[last].Update? && log[last].id == id) {
      BusyAfterSilence(log[..last], id, i);
      var k :| i < k < last && log[..last][k].Update? && log[..last][k].id == id && log[..last][k].delta != ZERO;
      assert log[k] == log[..last][k];
    }
  }

  /** Between two silent updates of a connection there is one that is not. */
  lemma {:induction false} NoTwoSilences(log: seq<Event>, id: nat, i: nat, j: nat)
    requires Proper(log) && i < j < |log| && log[i] == log[j] == Update(id, ZERO)
    ensures exists k :: i < k < j && log[k].Update? && log[k].id == id && log[k].delta != ZERO
  {
    var last := |log| - 1;
    var before := log[..last];
    if j < last {
      NoTwoSilences(before, id, i, j);
      var k :| i < k < j && before[k].Update? && before[k].id == id && before[k].delta != ZERO;
      assert log[k] == before[k];
    } else {
      BusyAfterSilence(before, id, i);
      var k :| i < k < |before| && before[k].Update? && before[k].id == id && before[k].delta != ZERO;
      assert log[k] == before[k];
    }
  }

  /** Every update is for a connection that the events before it have opened and not closed. */
  lemma {:induction false} UpdatesAreTracked(log: seq<Event>, i: nat)
    requires Proper(log) && i < |log| && log[i].Update?
    ensures log[i].id in Open(log[..i])
  {
    var last := |log| - 1;
    if i < last {
      UpdatesAreTracked(log[..last], i);
      assert log[..last][..i] == log[..i];
    }
  }

  // ---------------------------------------------------------------- a tick

  function ObserveAll(s: Stream, active: seq<Connection>): Stream {
    if active == [] then s else Observe(ObserveAll(s, active[..|active| - 1]), active[|active| - 1])
  }

  function Ids(active: seq<Connection>): set<nat> {
    set c | c in active :: c.id
  }

  ghost predicate NoJumps(s: Stream) {
    forall id :: id in s.jumps ==> s.jumps[id] == ZERO
  }

  /** No counter has fallen behind its snapshot when it is looked at. */
  ghost predicate Growing(s: Stream, active: seq<Connection>) {
    active == [] ||
    var before, c := ObserveAll(s, active[..|active| - 1]), active[|active| - 1];
    && Growing(s, active[..|active| - 1])
    && (c.id in before.snapshots ==> c.now.up >= before.snapshots[c.id].counters.up && c.now.down >= before.snapshots[c.id].counters.down)
  }

  lemma {:induction false} GrowingHasNoJumps(s: Stream, active: seq<Connection>)
    requires NoJumps(s) && Growing(s, active)
    ensures NoJumps(ObserveAll(s, active))
  {
    if active != [] {
      GrowingHasNoJumps(s, active[..|active| - 1]);
    }
  }

  // ---------------------------------------------------------------- what a tick sends

  /** The events about a connection, in order. */
  function Of(events: seq<Event>, id: nat): seq<Event> {
    if events == [] then []
    else
      var before, e := Of(events[..|events| - 1], id), events[|events| - 1];
      if e.id == id then before + [e] else before
  }

  /** Something has been sent or received since, and no counter has fallen. */
  predicate Grew(before: Counters, now: Counters) {
    now.up >= before.up && now.down >= before.down && now != before
  }

  /**
   What is due about an active connection, given the snapshots before the tick: an announcement if it
   is new, its growth if it grew, a silent update if it had traffic at the last tick, nothing otherwise.
   */
  function Due(before: map<nat, Snapshot>, c: Connection): seq<Event> {
    if c.id !in before then [New(c.id, c.described)]
    else if Grew(before[c.id].counters, c.now) then [Update(c.id, Minus(c.now, before[c.id].counters))]
    else if before[c.id].hadTraffic then [Update(c.id, ZERO)]
    else []
  }

  /** The snapshot of a connection after the tick. */
  function Fresh(before: map<nat, Snapshot>, c: Connection): Snapshot {
    Snapshot(c.now, c.id in before && Grew(before[c.id].counters, c.now))
  }

  ghost predicate Distinct(active: seq<Connection>) {
    forall i, j :: 0 <= i < j < |active| ==> active[i].id != active[j].id
  }

  predicate IsActive(active: seq<Connection>, id: nat) {
    exists i :: 0 <= i < |active| && active[i].id == id
  }

  /** Each active connection has the events that are due and its new snapshot. */
  ghost predicate Reported(before: map<nat, Snapshot>, active: seq<Connection>, after: map<nat, Snapshot>, events: seq<Event>, id: nat) {
    forall i :: 0 <= i < |active| && active[i].id == id ==>
      id in after && after[id] == Fresh(before, active[i]) && Of(events, id) == Due(before, active[i])
  }

  /** Of a connection that is not active, nothing has been said and nothing has changed. */
  ghost predicate Untouched(before: map<nat, Snapshot>, after: map<nat, Snapshot>, events: seq<Event>, id: nat) {
    Of(events, id) == [] && (id in after <==> id in before) && (id in before ==> after[id] == before[id])
  }

  /** Of a connection that is not active, all that is said is that it is closed, if it was open. */
  ghost predicate Gone(before: map<nat, Snapshot>, after: map<nat, Snapshot>, events: seq<Event>, id: nat) {
    id !in after && Of(events, id) == if id in before then [Closed(id)] else []
  }

  /** A tick: each active connection has its events and its snapshot, and every other one is closed if it was open. */
  ghost predicate Ticked(before: map<nat, Snapshot>, active: seq<Connection>, after: map<nat, Snapshot>, events: seq<Event>) {
    forall id :: Reported(before, active, after, events, id) && (!IsActive(active, id) ==> Gone(before, after, events, id))
  }

  /** The active connections have been looked at, and no other. */
  ghost predicate LookedAt(before: map<nat, Snapshot>, active: seq<Connection>, after: map<nat, Snapshot>, events: seq<Event>) {
    forall id :: SeenOne(before, active, after, events, id)
  }

  ghost predicate SeenOne(before: map<nat, Snapshot>, active: seq<Connection>, after: map<nat, Snapshot>, events: seq<Event>, id: nat) {
    Reported(before, active, after, events, id) && (!IsActive(active, id) ==> Untouched(before, after, events, id))
  }

  /** Part of the connections that are not active any more have been closed. */
  ghost predicate ClosedSome(before: map<nat, Snapshot>, active: seq<Connection>, after: map<nat, Snapshot>, events: seq<Event>) {
    forall id :: ClosedOne(before, active, after, events, id)
  }

  ghost predicate ClosedOne(before: map<nat, Snapshot>, active: seq<Connection>, after: map<nat, Snapshot>, events: seq<Event>, id: nat) {
    && Reported(before, active, after, events, id)
    && (!IsActive(active, id) ==> Gone(before, after, events, id) || Untouched(before, after, events, id))
  }

  lemma {:induction false} OfAppended(events: seq<Event>, more: seq<Event>, id: nat)
    ensures Of(events + more, id) == Of(events, id) + Of(more, id)
  {
    if more == [] {
      assert events + more == events;
    } else {
      var last := |more| - 1;
      OfAppended(events, more[..last], id);
      assert (events + more)[..|events| + last] == events + more[..last];
    }
  }

  lemma {:induction false} OfDue(before: map<nat, Snapshot>, c: Connection, id: nat)
    ensures Of(Due(before, c), id) == if id == c.id then Due(before, c) else []
  {
    assert Of([], id) == [];
    if Due(before, c) != [] {
      assert Due(before, c)[..0] == [];
    }
  }

  lemma {:induction false} LooksOn(before: map<nat, Snapshot>, active: seq<Connection>, after: map<nat, Snapshot>, events: seq<Event>, c: Connection)
    requires LookedAt(before, active, after, events) && Distinct(active + [c])
    ensures LookedAt(before, active + [c], after[c.id := Fresh(after, c)], events + Due(after, c))
  {
    hide SeenOne, Due, Fresh, Distinct;
    var all, now, more := active + [c], after[c.id := Fresh(after, c)], events + Due(after, c);
    forall id
      ensures SeenOne(before, all, now, more, id)
    {
      assert SeenOne(before, active, after, events, c.id) && SeenOne(before, active, after, events, id);
      LooksAtOne(before, active, after, events, c, id);
    }
  }

  lemma {:induction false} LooksAtOne(before: map<nat, Snapshot>, active: seq<Connection>, after: map<nat, Snapshot>, events: seq<Event>, c: Connection, id: nat)
    requires Distinct(active + [c]) && SeenOne(before, active, after, events, id) && SeenOne(before, active, after, events, c.id)
    ensures SeenOne(before, active + [c], after[c.id := Fresh(after, c)], events + Due(after, c), id)
  {
    hide Of, Due, Fresh;
    var all := active + [c];
    forall i | 0 <= i < |active|
      ensures active[i].id != c.id
    {
      assert all[i].id != all[|active|].id;
    }
    SameDue(before, after, events, c);
    OfAppended(events, Due(after, c), id);
    OfDue(after, c, id);
    if id == c.id {
      assert Of(events, id) + Due(after, c) == Due(before, c);
      assert all[|active|].id == id;
    } else {
      assert Of(events, id) + [] == Of(events, id);
      if IsActive(active, id) {
        var i :| 0 <= i < |active| && active[i].id == id;
        assert all[i].id == id;
      }
    }
  }

  lemma {:induction false} SameDue(before: map<nat, Snapshot>, after: map<nat, Snapshot>, events: seq<Event>, c: Connection)
    requires Untouched(before, after, events, c.id)
    ensures Due(after, c) == Due(before, c) && Fresh(after, c) == Fresh(before, c)
  {
  }

  lemma {:induction false} ClosesOn(before: map<nat, Snapshot>, active: seq<Connection>, after: map<nat, Snapshot>, events: seq<Event>, id: nat)
    requires ClosedSome(before, active, after, events) && id in after && !IsActive(active, id)
    ensures ClosedSome(before, active, after - {id}, events + [Closed(id)])
  {
    hide ClosedOne;
    forall i
      ensures ClosedOne(before, active, after - {id}, events + [Closed(id)], i)
    {
      assert ClosedOne(before, active, after, events, i) && ClosedOne(before, active, after, events, id);
      ClosesOne(before, active, after, events, id, i);
    }
  }

  lemma {:induction false} ClosesOne(before: map<nat, Snapshot>, active: seq<Connection>, after: map<nat, Snapshot>, events: seq<Event>, id: nat, i: nat)
    requires ClosedOne(before, active, after, events, i) && ClosedOne(before, active, after, events, id) && id in after && !IsActive(active, id)
    ensures ClosedOne(before, active, after - {id}, events + [Closed(id)], i)
  {
    hide Of;
    OfAppended(events, [Closed(id)], i);
    OfOne(Closed(id), i);
  }

  lemma {:induction false} AllClosed(before: map<nat, Snapshot>, active: seq<Connection>, after: map<nat, Snapshot>, events: seq<Event>)
    requires ClosedSome(before, active, after, events) && after.Keys <= Ids(active)
    ensures Ticked(before, active, after, events)
  {
    hide Of, Reported;
    forall id
      ensures Reported(before, active, after, events, id) && (!IsActive(active, id) ==> Gone(before, after, events, id))
    {
      assert ClosedOne(before, active, after, events, id);
      NotAmongIds(active, id);
    }
  }

  lemma {:induction false} NotAmongIds(active: seq<Connection>, id: nat)
    ensures IsActive(active, id) <==> id in Ids(active)
  {
  }

  lemma {:induction false} OfOne(e: Event, id: nat)
    ensures Of([e], id) == if e.id == id then [e] else []
  {
    assert [e][..0] == [];
  }

  /** Each connection is announced with the totals it is described with. */
  predicate Announces(active: seq<Connection>, events: seq<Event>) {
    |events| == |active| && forall k :: 0 <= k < |active| ==> events[k] == New(active[k].id, active[k].described)
  }

  /** Each connection has a snapshot of its counters, without traffic as yet. */
  predicate FirstSeen(active: seq<Connection>, snapshots: map<nat, Snapshot>) {
    forall k :: 0 <= k < |active| ==> active[k].id in snapshots && snapshots[active[k].id] == Snapshot(active[k].now, false)
  }

  lemma {:induction false} SeesFirst(active: seq<Connection>, snapshots: map<nat, Snapshot>)
    requires active == []
    ensures FirstSeen(active, snapshots)
  {
  }

  lemma {:induction false} SeesNext(active: seq<Connection>, i: nat, snapshots: map<nat, Snapshot>)
    requires i < |active| && Distinct(active) && FirstSeen(active[..i], snapshots)
    ensures FirstSeen(active[..i] + [active[i]], snapshots[active[i].id := Snapshot(active[i].now, false)])
  {
    assert forall k :: 0 <= k < i ==> active[..i][k] == active[k];
  }

  // ---------------------------------------------------------------- the code

  datatype ManagerEvent = Opened(connection: Connection) | Ended(id: nat) | Ignored

  class Subscription {
    var snapshots: map<nat, Snapshot>
    ghost var stream: Stream

    constructor ()
      ensures Valid() && snapshots == map[] && stream == START
    {
      snapshots, stream := map[], START;
    }

    ghost predicate Valid()
      reads this
    {
      stream.snapshots == snapshots && Inv(stream)
    }

    /** Announces the active connections and lists the past ones. */
    method BuildInitialConnectionState(active: seq<Connection>, past: seq<nat>) returns (events: seq<Event>)
      requires Valid() && stream == START
      modifies this
      ensures Valid() && stream.log == events
      ensures snapshots.Keys == Ids(active) && NoJumps(stream)
      ensures |events| == |active| + |past| && Announces(active, events[..|active|])
      ensures forall k :: 0 <= k < |past| ==> events[|active| + k] == Past(past[k])
      ensures Distinct(active) ==> FirstSeen(active, snapshots)
    {
      hide Inv, FirstSeen;
      events := AnnounceActive(active);
      for i := 0 to |past|
        invariant stream.snapshots == snapshots && Inv(stream) && stream.log == events
        invariant snapshots.Keys == Ids(active) && NoJumps(stream) && (Distinct(active) ==> FirstSeen(active, snapshots))
        invariant |events| == |active| + i && Announces(active, events[..|active|])
        invariant forall k :: 0 <= k < i ==> events[|active| + k] == Past(past[k])
      {
        PastKeeps(stream, past[i]);
        stream := stream.(log := stream.log + [Past(past[i])]);
        events := events + [Past(past[i])];
      }
    }

    method AnnounceActive(active: seq<Connection>) returns (events: seq<Event>)
      requires Valid() && stream == START
      modifies this
      ensures Valid() && stream.log == events
      ensures snapshots.Keys == Ids(active) && NoJumps(stream)
      ensures Announces(active, events)
      ensures Distinct(active) ==> FirstSeen(active, snapshots)
    {
      hide Inv, FirstSeen, Distinct;
      events := [];
      SeesFirst([], map[]);
      for i := 0 to |active|
        invariant stream.snapshots == snapshots && Inv(stream) && stream.log == events
        invariant snapshots.Keys == Ids(active[..i]) && NoJumps(stream)
        invariant Announces(active[..i], events) && (Distinct(active) ==> FirstSeen(active[..i], snapshots))
      {
        var c := active[i];
        assert active[..i + 1] == active[..i] + [c];
        TrackKeeps(stream, c);
        if Distinct(active) {
          SeesNext(active, i, snapshots);
        }
        stream := Track(stream, c);
        events := events + [New(c.id, c.described)];
        snapshots := snapshots[c.id := Snapshot(c.now, false)];
      }
      assert active[..|active|] == active;
    }

    /** A notification of the manager: a connection already announced is not announced again. */
    method ApplyConnectionEvent(event: ManagerEvent) returns (out: Option<Event>)
      requires Valid()
      modifies this
      ensures Valid()
      ensures stream.log == old(stream.log) + (if out.Some? then [out.value] else [])
      ensures out.Some? <==> event.Ended? || (event.Opened? && event.connection.id !in old(snapshots))
      ensures event.Opened? && out.Some? ==>
                && out.value == New(event.connection.id, event.connection.described)
                && snapshots == old(snapshots)[event.connection.id := Snapshot(event.connection.now, false)]
      ensures event.Ended? ==> out == Some(Closed(event.id)) && snapshots == old(snapshots) - {event.id}
      ensures out.None? ==> snapshots == old(snapshots)
      ensures old(NoJumps(stream)) ==> NoJumps(stream)
    {
      hide Inv;
      match event {
        case Opened(c) =>
          if c.id in snapshots {
            return None;
          }
          TrackKeeps(stream, c);
          stream := Track(stream, c);
          snapshots := snapshots[c.id := Snapshot(c.now, false)];
          return Some(New(c.id, c.described));
        case Ended(id) =>
          UntrackKeeps(stream, id);
          stream := Untrack(stream, id);
          snapshots := snapshots - {id};
          return Some(Closed(id));
        case Ignored =>
          return None;
      }
    }

    /** One active connection at a tick, in place. */
    method ObserveConnection(c: Connection) returns (events: seq<Event>)
      requires Valid()
      modifies this
      ensures Valid() && stream == Observe(old(stream), c) && stream.log == old(stream.log) + events
      ensures events == Due(old(snapshots), c) && snapshots == old(snapshots)[c.id := Fresh(old(snapshots), c)]
    {
      ObserveKeeps(stream, c);
      hide Inv;
      ghost var after := Observe(stream, c);
      events := [];
      if c.id !in snapshots {
        snapshots := snapshots[c.id := Snapshot(c.now, false)];
        events := [New(c.id, c.described)];
        stream := after;
        return;
      }
      var snapshot := snapshots[c.id];
      var delta := Minus(c.now, snapshot.counters);
      if delta.up < 0 || delta.down < 0 {
        if snapshot.hadTraffic {
          events := [Update(c.id, ZERO)];
        }
        snapshots := snapshots[c.id := Snapshot(c.now, false)];
      } else if delta.up > 0 || delta.down > 0 {
        snapshots := snapshots[c.id := Snapshot(c.now, true)];
        events := [Update(c.id, delta)];
      } else if snapshot.hadTraffic {
        snapshots := snapshots[c.id := Snapshot(c.now, false)];
        events := [Update(c.id, ZERO)];
      }
      stream := after;
    }

    /** A tick: every active connection is looked at, every other one is closed. */
    method BuildTrafficUpdates(active: seq<Connection>) returns (events: seq<Event>)
      requires Valid()
      modifies this
      ensures Valid() && stream.log == old(stream.log) + events
      ensures snapshots.Keys == Ids(active)
      ensures forall id :: id in snapshots ==> id in ObserveAll(old(stream), active).snapshots && snapshots[id] == ObserveAll(old(stream), active).snapshots[id]
      ensures old(NoJumps(stream)) && Growing(old(stream), active) ==> NoJumps(stream)
      ensures Distinct(active) ==> Ticked(old(snapshots), active, snapshots, events)
    {
      hide Inv, Observe, Due, Fresh, LookedAt, Ticked, Distinct, NoJumps, Growing;
      events := [];
      LookedAtNone(snapshots);
      for i := 0 to |active|
        invariant Valid() && stream == ObserveAll(old(stream), active[..i])
        invariant stream.log == old(stream.log) + events
        invariant Ids(active[..i]) <= snapshots.Keys
        invariant Distinct(active) ==> LookedAt(old(snapshots), active[..i], snapshots, events)
      {
        assert active[..i + 1] == active[..i] + [active[i]];
        assert active[..i + 1][..i] == active[..i];
        ObserveGrows(stream, active[i]);
        if Distinct(active) {
          DistinctPrefix(active, i);
          LooksOn(old(snapshots), active[..i], snapshots, events, active[i]);
        }
        var more := ObserveConnection(active[i]);
        events := events + more;
      }
      assert active[..|active|] == active;
      if old(NoJumps(stream)) && Growing(old(stream), active) {
        GrowingHasNoJumps(old(stream), active);
      }
      ghost var before := old(snapshots);
      var closed := CloseInactive(active, before, events);
      events := events + closed;
    }

    /** The end of a tick: a connection that is not active any more is closed. */
    method CloseInactive(active: seq<Connection>, ghost before: map<nat, Snapshot>, ghost events: seq<Event>) returns (closed: seq<Event>)
      requires Valid() && Ids(active) <= snapshots.Keys
      modifies this
      ensures Valid() && stream.log == old(stream.log) + closed
      ensures snapshots.Keys == Ids(active)
      ensures forall id :: id in snapshots ==> id in old(snapshots) && snapshots[id] == old(snapshots)[id]
      ensures old(NoJumps(stream)) ==> NoJumps(stream)
      ensures old(LookedAt(before, active, snapshots, events)) ==> Ticked(before, active, snapshots, events + closed)
    {
      hide Inv, Of, LookedAt, ClosedSome, Ticked;
      closed := [];
      assert events + closed == events;
      if LookedAt(before, active, snapshots, events) {
        NoneClosedYet(before, active, snapshots, events);
      }
      var rest := snapshots.Keys - Ids(active);
      while rest != {}
        invariant Valid() && rest == snapshots.Keys - Ids(active) && Ids(active) <= snapshots.Keys
        invariant stream.log == old(stream.log) + closed
        invariant forall id :: id in snapshots ==> id in old(snapshots) && snapshots[id] == old(snapshots)[id]
        invariant old(NoJumps(stream)) ==> NoJumps(stream)
        invariant old(LookedAt(before, active, snapshots, events)) ==> ClosedSome(before, active, snapshots, events + closed)
        decreases rest
      {
        var id :| id in rest;
        if old(LookedAt(before, active, snapshots, events)) {
          NotAmongIds(active, id);
          ClosesOn(before, active, snapshots, events + closed, id);
          assert events + closed + [Closed(id)] == events + (closed + [Closed(id)]);
        }
        UntrackKeeps(stream, id);
        stream := Untrack(stream, id);
        snapshots := snapshots - {id};
        closed := closed + [Closed(id)];
        rest := rest - {id};
      }
      assert forall id :: id in snapshots.Keys ==> id in Ids(active) || id in rest;
      if old(LookedAt(before, active, snapshots, events)) {
        AllClosed(before, active, snapshots, events + closed);
      }
    }
  }

  lemma {:induction false} NoneClosedYet(before: map<nat, Snapshot>, active: seq<Connection>, after: map<nat, Snapshot>, events: seq<Event>)
    requires LookedAt(before, active, after, events)
    ensures ClosedSome(before, active, after, events)
  {
    hide Of, Reported, Untouched, IsActive;
    assert forall id :: SeenOne(before, active, after, events, id) ==> ClosedOne(before, active, after, events, id);
  }

  lemma {:induction false} DistinctPrefix(active: seq<Connection>, i: nat)
    requires i < |active| && Distinct(active)
    ensures Distinct(active[..i] + [active[i]])
  {
  }

  lemma {:induction false} LookedAtNone(before: map<nat, Snapshot>)
    ensures LookedAt(before, [], before, [])
  {
  }

  lemma {:induction false} ObserveGrows(s: Stream, c: Connection)
    ensures s.snapshots.Keys + {c.id} == Observe(s, c).snapshots.Keys
  {
  }
}
