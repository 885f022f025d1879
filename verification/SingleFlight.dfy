/**
 The table of exchanges in flight. The first caller for a key stores a channel and owns the
 exchange; later callers find the channel and wait for it to be closed. Callers interleave
 freely; loading or storing an entry, deleting it and closing a channel are single steps. A
 caller follows the program with its local variables, return site by return site: nothing but
 these variables says who has to release what.
 */
module SingleFlight {
  import opened Dns

  /** The cache key of a query together with its timeout. */
  datatype Key = Key(cacheKey: CacheKey, timeout: nat)

  /** Where a call returns. */
  datatype Site =
    | Refused           // cancelled, malformed or ruled out by the strategy
    | StaleHit
    | FreshHit
    | WouldWait         // the caller may not wait
    | GaveUpWaiting
    | GaveUpAwake
    | Loopback
    | RejectedBefore
    | AskFailed
    | Finished

  /** The next statement of a caller. */
  datatype Statement =
    | Begin
    | Look              // the head of the loop: look into the cache
    | Missed
    | Select
    | Awake
    | LoopCheck
    | RejectCheck
    | Ask               // the operation is ready: ask the transport, then finish
    | Release(site: Site)
    | Close(site: Site)
    | Clear(site: Site)
    | Returned(site: Site)

  /** A caller: what it does next, and its local variables. */
  datatype Caller = Caller(
    at: Statement,
    key: Key,
    mayWait: bool,
    loaded: bool,
    channel: Option<nat>,        // what loading or storing the entry gave
    releaseCond: Option<nat>)    // the channel to be closed on release, if any

  /** How a statement with several outcomes goes. */
  datatype Choice = Go | Refuse | Bypass | Stale | Fresh | Cancel

  datatype Event =
    | Call(caller: nat, key: Key, mayWait: bool)
    | Step(caller: nat, choice: Choice)
    | Again(caller: nat)         // a release called once more

  datatype Flights = Flights(
    table: map<Key, nat>,
    callers: map<nat, Caller>,
    channels: nat,             // channels stored so far
    creator: map<nat, nat>,    // the caller that stored each channel
    closed: set<nat>,          // channels closed
    waited: set<nat>)          // callers that have waited

  const EMPTY := Flights(map[], map[], 0, map[], {}, {})

  function NewCaller(key: Key, mayWait: bool): Caller {
    Caller(Begin, key, mayWait, false, None, None)
  }

  function Set(s: Flights, id: nat, c: Caller): Flights {
    s.(callers := s.callers[id := c])
  }

  function At(s: Flights, id: nat, statement: Statement): Flights
    requires id in s.callers
  {
    Set(s, id, s.callers[id].(at := statement))
  }

  /** Loads the channel of the key, or stores a new one and takes on its release. */
  function LoadOrStore(s: Flights, id: nat): Flights
    requires id in s.callers
  {
    var c := s.callers[id];
    if c.key in s.table then Set(s, id, c.(at := Look, loaded := true, channel := Some(s.table[c.key])))
    else
      Set(s, id, c.(at := Look, loaded := false, channel := Some(s.channels), releaseCond := Some(s.channels)))
      .(table := s.table[c.key := s.channels], channels := s.channels + 1, creator := s.creator[s.channels := id])
  }

  function Next(s: Flights, id: nat, choice: Choice): Option<Flights>
    requires id in s.callers
  {
    var c := s.callers[id];
    match c.at
    case Begin =>
      if choice == Refuse then Some(At(s, id, Returned(Refused)))
      else if choice == Bypass then Some(At(s, id, LoopCheck))
      else Some(LoadOrStore(s, id))
    case Look =>
      if choice == Stale then Some(At(s, id, Release(StaleHit)))
      else if choice == Fresh then Some(At(s, id, Release(FreshHit)))
      else Some(At(s, id, Missed))
    case Missed =>
      if !c.loaded then Some(At(s, id, LoopCheck))
      else if !c.mayWait then Some(At(s, id, Returned(WouldWait)))
      else Some(At(s, id, Select).(waited := s.waited + {id}))
    case Select =>
      if choice == Cancel then Some(At(s, id, Returned(GaveUpWaiting)))
      else if c.channel.Some? && c.channel.value in s.closed then Some(At(s, id, Awake))
      else None
    case Awake =>
      if choice == Cancel then Some(At(s, id, Returned(GaveUpAwake)))
      else Some(Set(s, id, c.(at := Look, loaded := false)))
    case LoopCheck => Some(At(s, id, if choice == Refuse then Release(Loopback) else RejectCheck))
    case RejectCheck => Some(At(s, id, if choice == Refuse then Release(RejectedBefore) else Ask))
    case Ask => Some(At(s, id, Release(if choice == Refuse then AskFailed else Finished)))
    case Release(site) =>
      if c.releaseCond.None? then Some(At(s, id, Returned(site)))
      else Some(At(s, id, Close(site)).(table := s.table - {c.key}))
    case Close(site) =>
      if c.releaseCond.None? then None
      else Some(At(s, id, Clear(site)).(closed := s.closed + {c.releaseCond.value}))
    case Clear(site) => Some(Set(s, id, c.(at := Returned(site), releaseCond := None)))
    case Returned(site) =>
      // an asynchronous caller that may not wait hands over to one that may
      if site == WouldWait then Some(Set(s, id, NewCaller(c.key, true))) else None
  }

  function Happen(s: Flights, e: Event): Option<Flights> {
    match e
    case Call(id, key, mayWait) => if id in s.callers then None else Some(Set(s, id, NewCaller(key, mayWait)))
    case Step(id, choice) => if id in s.callers then Next(s, id, choice) else None
    case Again(id) =>
      if id in s.callers && s.callers[id].at.Returned? && s.callers[id].at.site != WouldWait
      then Some(At(s, id, Release(s.callers[id].at.site))) else None
  }

  function History(events: seq<Event>): Option<Flights> {
    if events == [] then Some(EMPTY)
    else
      var before := History(events[..|events| - 1]);
      if before.None? then None else Happen(before.value, events[|events| - 1])
  }

  // ---------------------------------------------------------------- invariant

  /** What a caller's variables say wherever it is: only who has stored a channel has one to close, and that is not who waits. */
  ghost predicate Sane(c: Caller, waited: bool) {
    match c.at
    case Begin => c.releaseCond.None? && c.channel.None? && !waited
    case Look => c.channel.Some? && if c.loaded then c.releaseCond.None? && !waited else c.releaseCond.Some? <==> !waited
    case Missed => c.channel.Some? && if c.loaded then c.releaseCond.None? && !waited else c.releaseCond.Some? <==> !waited
    case Select => c.loaded && c.releaseCond.None? && c.channel.Some? && waited
    case Awake => c.loaded && c.releaseCond.None? && c.channel.Some? && waited
    case Release(site) => site != WouldWait && (c.releaseCond.Some? ==> !waited)
    case Close(site) => site != WouldWait && c.releaseCond.Some? && !waited
    case Clear(site) => site != WouldWait && c.releaseCond.Some? && !waited
    case Returned(site) => c.releaseCond.None? && (site == WouldWait ==> !waited)
    case _ => if c.channel.Some? then c.releaseCond.Some? <==> !waited else c.releaseCond.None? && !waited
  }

  ghost predicate AllSane(s: Flights) {
    forall id :: id in s.callers ==> Sane(s.callers[id], id in s.waited)
  }

  /** The caller keeps the entry of the channel in the table. */
  predicate Owns(c: Caller, channel: nat) {
    c.releaseCond == Some(channel) && !c.at.Close? && !c.at.Clear?
  }

  /** Where a channel stands, by how far its creator has come. */
  ghost predicate Placed(table: map<Key, nat>, closed: set<nat>, c: Caller, channel: nat) {
    if Owns(c, channel) then c.key in table && table[c.key] == channel && channel !in closed
    else if c.releaseCond == Some(channel) && c.at.Close? then channel !in closed
    else channel in closed
  }

  ghost predicate Accounted(s: Flights) {
    && (forall channel: nat :: channel in s.creator <==> channel < s.channels)
    && (forall channel :: channel in s.creator ==> s.creator[channel] in s.callers && Placed(s.table, s.closed, s.callers[s.creator[channel]], channel))
    && (forall channel :: channel in s.closed ==> channel < s.channels)
  }

  /** Every entry has an owner: the caller that stored it. */
  ghost predicate Owned(s: Flights) {
    forall key :: key in s.table ==> s.table[key] in s.creator && s.creator[s.table[key]] in s.callers && OwnsEntry(s.callers[s.creator[s.table[key]]], key, s.table[key])
  }

  predicate OwnsEntry(c: Caller, key: Key, channel: nat) {
    Owns(c, channel) && c.key == key
  }

  /** Whoever has a channel to close stored it, and whoever waits waits for a channel somebody stored. */
  ghost predicate Holds(s: Flights) {
    forall id :: id in s.callers ==>
      && (s.callers[id].releaseCond.Some? ==> s.callers[id].releaseCond.value in s.creator && s.creator[s.callers[id].releaseCond.value] == id)
      && (s.callers[id].channel.Some? ==> s.callers[id].channel.value < s.channels)
  }

  ghost predicate Structured(s: Flights) {
    Accounted(s) && Owned(s) && Holds(s)
  }

  ghost predicate Inv(s: Flights) {
    AllSane(s) && Structured(s) && forall id :: id in s.waited ==> id in s.callers
  }

  // ---------------------------------------------------------------- a caller keeps its own variables sane

  /** The loop and its flag: a loaded entry is somebody else's, and a caller that has waited goes on as if it had not loaded one. */
  lemma {:induction false} LoopSane(s: Flights, id: nat, choice: Choice)
    requires id in s.callers && Sane(s.callers[id], id in s.waited) && Next(s, id, choice).Some? && InLoop(s.callers[id].at)
    ensures
      var t := Next(s, id, choice).value;
      id in t.callers && Sane(t.callers[id], id in t.waited)
  {
  }

  predicate InLoop(at: Statement) {
    at == Look || at == Missed || at == Select || at == Awake
  }

  /** The caller is about to ask, or to find out that it must not. */
  predicate Asking(c: Caller) {
    c.at == LoopCheck || c.at == RejectCheck || c.at == Ask
  }

  lemma {:induction false} FrontSane(s: Flights, id: nat, choice: Choice)
    requires id in s.callers && Sane(s.callers[id], id in s.waited) && Next(s, id, choice).Some?
    requires s.callers[id].at == Begin || Asking(s.callers[id])
    ensures
      var t := Next(s, id, choice).value;
      id in t.callers && Sane(t.callers[id], id in t.waited)
  {
  }

  lemma {:induction false} EndSane(s: Flights, id: nat, choice: Choice)
    requires id in s.callers && Sane(s.callers[id], id in s.waited) && Next(s, id, choice).Some?
    requires var at := s.callers[id].at; at.Release? || at.Close? || at.Clear? || at.Returned?
    ensures
      var t := Next(s, id, choice).value;
      id in t.callers && Sane(t.callers[id], id in t.waited)
  {
    hide LoadOrStore;
  }

  lemma {:induction false} OthersUntouched(s: Flights, id: nat, choice: Choice)
    requires id in s.callers && Next(s, id, choice).Some?
    ensures
      var t := Next(s, id, choice).value;
      id in t.callers && t.callers == s.callers[id := t.callers[id]] && (t.waited == s.waited || t.waited == s.waited + {id})
  {
  }

  lemma {:induction false} SaneKeeps(s: Flights, id: nat, choice: Choice)
    requires Inv(s) && id in s.callers && Next(s, id, choice).Some?
    ensures AllSane(Next(s, id, choice).value)
    ensures forall other :: other in Next(s, id, choice).value.waited ==> other in Next(s, id, choice).value.callers
  {
    hide Next, Sane, Structured;
    if InLoop(s.callers[id].at) {
      LoopSane(s, id, choice);
    } else {
      if s.callers[id].at == Begin || Asking(s.callers[id]) {
        FrontSane(s, id, choice);
      } else {
        EndSane(s, id, choice);
      }
    }
    OthersUntouched(s, id, choice);
  }

  // ---------------------------------------------------------------- what steps do to the table

  /** A caller moves on without touching the table, the channels or what it has to release. */
  lemma {:induction false} MoveKeeps(s: Flights, id: nat, c: Caller, waited: set<nat>)
    requires Structured(s) && id in s.callers
    requires c.releaseCond == s.callers[id].releaseCond
    requires c.releaseCond.Some? ==> c.key == s.callers[id].key && !Midway(s.callers[id].at) && !Midway(c.at)
    requires c.channel.Some? ==> c.channel.value < s.channels
    ensures Structured(Set(s, id, c).(waited := waited))
  {
    var t := Set(s, id, c).(waited := waited);
    forall channel | channel in t.creator
      ensures t.creator[channel] in t.callers && Placed(t.table, t.closed, t.callers[t.creator[channel]], channel)
    {
      assert Placed(s.table, s.closed, s.callers[s.creator[channel]], channel);
    }
  }

  /** Between deleting the entry and having released it. */
  predicate Midway(at: Statement) {
    at.Close? || at.Clear?
  }

  lemma {:induction false} StoreKeeps(s: Flights, id: nat)
    requires Structured(s) && id in s.callers && s.callers[id].releaseCond.None? && s.callers[id].key !in s.table
    ensures Structured(LoadOrStore(s, id))
  {
    var t := LoadOrStore(s, id);
    forall channel | channel in t.creator
      ensures t.creator[channel] in t.callers && Placed(t.table, t.closed, t.callers[t.creator[channel]], channel)
    {
      assert channel in s.creator ==> Placed(s.table, s.closed, s.callers[s.creator[channel]], channel);
    }
  }

  lemma {:induction false} DeleteKeeps(s: Flights, id: nat, site: Site)
    requires Structured(s) && id in s.callers && s.callers[id].at == Release(site) && s.callers[id].releaseCond.Some?
    ensures Structured(At(s, id, Close(site)).(table := s.table - {s.callers[id].key}))
  {
    var t := At(s, id, Close(site)).(table := s.table - {s.callers[id].key});
    assert Placed(s.table, s.closed, s.callers[id], s.callers[id].releaseCond.value);
    forall channel | channel in t.creator
      ensures t.creator[channel] in t.callers && Placed(t.table, t.closed, t.callers[t.creator[channel]], channel)
    {
      assert Placed(s.table, s.closed, s.callers[s.creator[channel]], channel);
    }
  }

  lemma {:induction false} CloseKeeps(s: Flights, id: nat, site: Site)
    requires Structured(s) && id in s.callers && s.callers[id].at == Close(site) && s.callers[id].releaseCond.Some?
    ensures Structured(At(s, id, Clear(site)).(closed := s.closed + {s.callers[id].releaseCond.value}))
  {
    var t := At(s, id, Clear(site)).(closed := s.closed + {s.callers[id].releaseCond.value});
    forall channel | channel in t.creator
      ensures t.creator[channel] in t.callers && Placed(t.table, t.closed, t.callers[t.creator[channel]], channel)
    {
      assert Placed(s.table, s.closed, s.callers[s.creator[channel]], channel);
    }
  }

  lemma {:induction false} ClearKeeps(s: Flights, id: nat, site: Site)
    requires Structured(s) && id in s.callers && s.callers[id].at == Clear(site)
    ensures Structured(Set(s, id, s.callers[id].(at := Returned(site), releaseCond := None)))
  {
    var t := Set(s, id, s.callers[id].(at := Returned(site), releaseCond := None));
    forall channel | channel in t.creator
      ensures t.creator[channel] in t.callers && Placed(t.table, t.closed, t.callers[t.creator[channel]], channel)
    {
      assert Placed(s.table, s.closed, s.callers[s.creator[channel]], channel);
    }
  }

  predicate Stores(s: Flights, id: nat, choice: Choice)
    requires id in s.callers
  {
    s.callers[id].at == Begin && choice != Refuse && choice != Bypass && s.callers[id].key !in s.table
  }

  predicate Releases(c: Caller) {
    c.releaseCond.Some? && (c.at.Release? || Midway(c.at))
  }

  /** Every other statement only moves its caller on. */
  lemma {:induction false} PlainStep(s: Flights, id: nat, choice: Choice)
    requires id in s.callers && Sane(s.callers[id], id in s.waited) && Next(s, id, choice).Some?
    requires !Stores(s, id, choice) && !Releases(s.callers[id])
    ensures
      var t := Next(s, id, choice).value;
      && id in t.callers && t == Set(s, id, t.callers[id]).(waited := t.waited)
      && t.callers[id].releaseCond == s.callers[id].releaseCond
      && (t.callers[id].releaseCond.Some? ==> t.callers[id].key == s.callers[id].key && !Midway(s.callers[id].at) && !Midway(t.callers[id].at))
      && (t.callers[id].channel == s.callers[id].channel || t.callers[id].channel.None?
          || (s.callers[id].key in s.table && t.callers[id].channel == Some(s.table[s.callers[id].key])))
  {
  }

  lemma {:induction false} ReleaseKeeps(s: Flights, id: nat, choice: Choice)
    requires Structured(s) && id in s.callers && Releases(s.callers[id]) && Next(s, id, choice).Some?
    ensures Structured(Next(s, id, choice).value)
  {
    hide Structured;
    match s.callers[id].at
    case Release(site) => DeleteKeeps(s, id, site);
    case Close(site) => CloseKeeps(s, id, site);
    case Clear(site) => ClearKeeps(s, id, site);
  }

  lemma {:induction false} SaneCaller(s: Flights, id: nat)
    requires Inv(s) && id in s.callers
    ensures Sane(s.callers[id], id in s.waited)
  {
  }

  lemma {:induction false} StructureKeeps(s: Flights, id: nat, choice: Choice)
    requires Inv(s) && id in s.callers && Next(s, id, choice).Some?
    ensures Structured(Next(s, id, choice).value)
  {
    SaneCaller(s, id);
    hide Structured, AllSane, Sane, LoadOrStore;
    InRange(s, id);
    if Stores(s, id, choice) {
      StoreKeeps(s, id);
    } else {
      hide Next;
      if Releases(s.callers[id]) {
        ReleaseKeeps(s, id, choice);
      } else {
        PlainStep(s, id, choice);
        var t := Next(s, id, choice).value;
        MoveKeeps(s, id, t.callers[id], t.waited);
      }
    }
  }

  /** The channels a caller knows, and those in the table, have been stored. */
  lemma {:induction false} InRange(s: Flights, id: nat)
    requires Structured(s) && id in s.callers
    ensures s.callers[id].channel.Some? ==> s.callers[id].channel.value < s.channels
    ensures s.callers[id].key in s.table ==> s.table[s.callers[id].key] < s.channels
  {
  }

  lemma {:induction false} CallKeeps(s: Flights, id: nat, key: Key, mayWait: bool)
    requires Inv(s) && id !in s.callers
    ensures Inv(Set(s, id, NewCaller(key, mayWait)))
  {
  }

  lemma {:induction false} AgainKeeps(s: Flights, id: nat)
    requires Inv(s) && id in s.callers && s.callers[id].at.Returned? && s.callers[id].at.site != WouldWait
    ensures Inv(At(s, id, Release(s.callers[id].at.site)))
  {
    hide Structured;
    assert Sane(s.callers[id], id in s.waited);
    InRange(s, id);
    MoveKeeps(s, id, s.callers[id].(at := Release(s.callers[id].at.site)), s.waited);
  }

  lemma {:induction false} HappenKeeps(s: Flights, e: Event)
    requires Inv(s) && Happen(s, e).Some?
    ensures Inv(Happen(s, e).value)
  {
    hide AllSane, Structured, Next;
    match e
    case Step(id, choice) =>
      SaneKeeps(s, id, choice);
      StructureKeeps(s, id, choice);
    case Call(id, key, mayWait) => CallKeeps(s, id, key, mayWait);
    case Again(id) => AgainKeeps(s, id);
  }

  lemma {:induction false} HistoryKeeps(events: seq<Event>)
    requires History(events).Some?
    ensures Inv(History(events).value)
  {
    hide Happen;
    if events != [] {
      hide Inv;
      HistoryKeeps(events[..|events| - 1]);
      HappenKeeps(History(events[..|events| - 1]).value, events[|events| - 1]);
    }
  }

  // ---------------------------------------------------------------- what the table promises

  ghost predicate IsOwner(s: Flights, id: nat, key: Key) {
    id in s.callers && s.callers[id].key == key && s.callers[id].releaseCond.Some? && Owns(s.callers[id], s.callers[id].releaseCond.value)
  }

  /** Every entry has exactly one owner, and only an owner keeps a key in the table. */
  lemma {:induction false} ExactlyOneOwner(events: seq<Event>, key: Key)
    requires History(events).Some?
    ensures key in History(events).value.table <==> exists id :: IsOwner(History(events).value, id, key)
    ensures forall a, b :: IsOwner(History(events).value, a, key) && IsOwner(History(events).value, b, key) ==> a == b
  {
    HistoryKeeps(events);
    var s := History(events).value;
    forall id | IsOwner(s, id, key)
      ensures key in s.table && s.creator[s.table[key]] == id
    {
      assert Placed(s.table, s.closed, s.callers[id], s.callers[id].releaseCond.value);
    }
    if key in s.table {
      assert IsOwner(s, s.creator[s.table[key]], key);
    }
  }

  /** At every return site, whether or not it calls release, nothing is left to be released. */
  lemma {:induction false} NothingLeftAtReturn(events: seq<Event>, id: nat)
    requires History(events).Some? && id in History(events).value.callers && History(events).value.callers[id].at.Returned?
    ensures History(events).value.callers[id].releaseCond.None?
  {
    HistoryKeeps(events);
    var s := History(events).value;
    assert Sane(s.callers[id], id in s.waited);
  }

  /** So a caller that has returned has closed every channel it stored and left no entry of it. */
  lemma {:induction false} EveryExitReleases(events: seq<Event>, id: nat, channel: nat)
    requires History(events).Some? && id in History(events).value.callers && History(events).value.callers[id].at.Returned?
    requires channel in History(events).value.creator && History(events).value.creator[channel] == id
    ensures channel in History(events).value.closed && channel !in History(events).value.table.Values
  {
    HistoryKeeps(events);
    NothingLeftAtReturn(events, id);
    var s := History(events).value;
    assert Placed(s.table, s.closed, s.callers[id], channel);
  }

  /** A release called once more deletes nothing and closes nothing. */
  lemma {:induction false} SecondReleaseDoesNothing(events: seq<Event>, id: nat, choice: Choice)
    requires History(events).Some? && Happen(History(events).value, Again(id)).Some?
    ensures
      var s, t := History(events).value, Happen(History(events).value, Again(id)).value;
      id in t.callers && Next(t, id, choice).Some? && Next(t, id, choice).value == s
  {
    NothingLeftAtReturn(events, id);
    var s, t := History(events).value, Happen(History(events).value, Again(id)).value;
    assert Next(t, id, choice).value.callers == s.callers;
  }

  /** A channel is closed by its creator, once, and after its entry was deleted: it is open then and nothing refers to it. */
  lemma {:induction false} ClosedOnceByOwner(events: seq<Event>, id: nat, choice: Choice)
    requires History(events).Some? && id in History(events).value.callers && History(events).value.callers[id].at.Close?
    ensures
      var s := History(events).value;
      && s.callers[id].releaseCond.Some?
      && var channel := s.callers[id].releaseCond.value;
         && channel in s.creator && s.creator[channel] == id
         && channel !in s.closed && channel !in s.table.Values
         && Next(s, id, choice).Some? && Next(s, id, choice).value.closed == s.closed + {channel}
  {
    HistoryKeeps(events);
    var s := History(events).value;
    assert Sane(s.callers[id], id in s.waited);
    assert Placed(s.table, s.closed, s.callers[id], s.callers[id].releaseCond.value);
  }

  /** Nothing but such a step closes a channel. */
  lemma {:induction false} OnlyCloseCloses(s: Flights, e: Event)
    requires Happen(s, e).Some? && Happen(s, e).value.closed != s.closed
    ensures e.Step? && e.caller in s.callers && s.callers[e.caller].at.Close?
  {
  }

  /** A waiting caller's channel is closed, or its owner, who has not waited and never will, has yet to close it. */
  lemma {:induction false} WaiterIsServed(events: seq<Event>, id: nat)
    requires History(events).Some? && id in History(events).value.callers && History(events).value.callers[id].at == Select
    ensures
      var s := History(events).value;
      && s.callers[id].channel.Some?
      && var channel := s.callers[id].channel.value;
         || channel in s.closed
         || (channel in s.creator && s.creator[channel] in s.callers && s.callers[s.creator[channel]].releaseCond == Some(channel) && s.creator[channel] !in s.waited)
  {
    HistoryKeeps(events);
    var s := History(events).value;
    assert Sane(s.callers[id], id in s.waited);
    var channel := s.callers[id].channel.value;
    assert Placed(s.table, s.closed, s.callers[s.creator[channel]], channel);
    assert Sane(s.callers[s.creator[channel]], s.creator[channel] in s.waited);
  }

  /** Only a caller that waits for an open channel is held up; once the channel is closed it goes on. */
  lemma {:induction false} OnlyWaitersAreHeldUp(events: seq<Event>, id: nat, choice: Choice)
    requires History(events).Some? && id in History(events).value.callers && choice != Cancel
    ensures
      var s := History(events).value;
      var c, t := s.callers[id], Next(s, id, choice);
      && (c.at == Select ==> c.channel.Some? && (t.Some? <==> c.channel.value in s.closed))
      && (c.at != Select && !c.at.Returned? ==> t.Some?)
      && (c.at == Select && t.Some? ==> id in t.value.callers && t.value.callers[id].at == Awake)
  {
    HistoryKeeps(events);
    hide Structured, History;
    SaneCaller(History(events).value, id);
  }

  /** The only way into the wait is past a cache miss with a loaded entry. */
  lemma {:induction false} WaitsLoaded(s: Flights, e: Event, id: nat)
    requires id in s.callers && s.callers[id].at != Select && Happen(s, e).Some?
    requires id in Happen(s, e).value.callers && Happen(s, e).value.callers[id].at == Select
    ensures s.callers[id].at == Missed && s.callers[id].loaded && id in Happen(s, e).value.waited
  {
  }

  /** A caller waits at most once: when it starts to wait it has not waited before, since a wait leaves the entry unloaded. */
  lemma {:induction false} WaitsAtMostOnce(events: seq<Event>, id: nat, choice: Choice)
    requires History(events).Some? && id in History(events).value.callers && History(events).value.callers[id].at == Missed
    ensures
      var s := History(events).value;
      && Next(s, id, choice).Some? && id in Next(s, id, choice).value.callers
      && (Next(s, id, choice).value.callers[id].at == Select ==> id !in s.waited && id in Next(s, id, choice).value.waited)
  {
    HistoryKeeps(events);
    hide Structured, History;
    SaneCaller(History(events).value, id);
  }

  // ---------------------------------------------------------------- who asks

  /** A caller that does not bypass the table finds the channel stored there for its key, or stores one and owns it. */
  lemma {:induction false} EntersTable(s: Flights, id: nat)
    requires id in s.callers && s.callers[id].at == Begin
    ensures
      var c, t := s.callers[id], Next(s, id, Go);
      && t.Some? && id in t.value.callers && t.value.callers[id].key == c.key && c.key in t.value.table
      && t.value.callers[id].channel == Some(t.value.table[c.key])
      && (c.key in s.table ==> t.value.table == s.table && t.value.callers[id].loaded && t.value.callers[id].releaseCond == c.releaseCond)
      && (c.key !in s.table ==> !t.value.callers[id].loaded && t.value.callers[id].releaseCond == t.value.callers[id].channel)
  {
  }

  /**
   Single flight: of the callers for a key that went through the table, at most one is asking
   without having waited for another.
   */
  lemma {:induction false} OneAsksAtATime(events: seq<Event>, a: nat, b: nat)
    requires History(events).Some? && a in History(events).value.callers && b in History(events).value.callers
    requires
      var s := History(events).value;
      && Asking(s.callers[a]) && s.callers[a].channel.Some? && a !in s.waited
      && Asking(s.callers[b]) && s.callers[b].channel.Some? && b !in s.waited
      && s.callers[a].key == s.callers[b].key
    ensures a == b
  {
    var s := History(events).value;
    HistoryKeeps(events);
    SaneCaller(s, a);
    SaneCaller(s, b);
    ExactlyOneOwner(events, s.callers[a].key);
    hide History;
    assert IsOwner(s, a, s.callers[a].key) && IsOwner(s, b, s.callers[a].key);
  }

  /** Before event `k`, the caller has waited and stands at the head of the loop, and the event is its look into the cache. */
  ghost predicate LooksAgain(events: seq<Event>, k: nat, id: nat) {
    && k < |events| && events[k].Step? && events[k].caller == id
    && History(events[..k]).Some?
    && id in History(events[..k]).value.callers && History(events[..k]).value.callers[id].at == Look
    && id in History(events[..k]).value.waited
  }

  lemma {:induction false} StepsBefore(s: Flights, e: Event, id: nat)
    requires Inv(s) && Happen(s, e).Some?
    requires id in Happen(s, e).value.callers && id in Happen(s, e).value.waited
    requires var c := Happen(s, e).value.callers[id]; Asking(c) || c.at == Missed
    ensures id in s.callers && id in s.waited
    ensures Asking(s.callers[id]) || s.callers[id].at == Missed || (s.callers[id].at == Look && e.Step? && e.caller == id)
  {
    hide Structured;
    match e
    case Step(caller, choice) =>
      SaneCaller(s, caller);
      if caller != id {
        OthersUntouched(s, caller, choice);
      }
    case _ =>
  }

  /** A caller that has waited looks into the cache again before it asks. */
  lemma {:induction false} LooksBeforeAsking(events: seq<Event>, id: nat)
    requires History(events).Some? && id in History(events).value.callers && id in History(events).value.waited
    requires Asking(History(events).value.callers[id]) || History(events).value.callers[id].at == Missed
    ensures exists k: nat :: LooksAgain(events, k, id)
  {
    hide Happen, Inv, LooksAgain;
    var last := |events| - 1;
    var before := events[..last];
    HistoryKeeps(before);
    StepsBefore(History(before).value, events[last], id);
    if History(before).value.callers[id].at == Look {
      LooksNow(events, id);
    } else {
      LooksBeforeAsking(before, id);
      var k: nat :| LooksAgain(before, k, id);
      LookedEarlier(events, k, id);
    }
  }

  lemma {:induction false} LooksNow(events: seq<Event>, id: nat)
    requires events != [] && events[|events| - 1].Step? && events[|events| - 1].caller == id && History(events[..|events| - 1]).Some?
    requires var s := History(events[..|events| - 1]).value; id in s.callers && s.callers[id].at == Look && id in s.waited
    ensures LooksAgain(events, |events| - 1, id)
  {
  }

  lemma {:induction false} LookedEarlier(events: seq<Event>, k: nat, id: nat)
    requires events != [] && LooksAgain(events[..|events| - 1], k, id)
    ensures LooksAgain(events, k, id)
  {
    assert events[..|events| - 1][..k] == events[..k];
  }
}
