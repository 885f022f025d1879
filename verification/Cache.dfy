/** The response cache: what is stored under a key, and what a load gives back. */
module Cache {
  import opened Dns
  import opened Messages
  import opened TimeToLive
  import opened RoundRobin

  /** Instants and durations are counted in nanoseconds. */
  const SECOND: nat := 1_000_000_000

  // ---------------------------------------------------------------- what a load means

  datatype Found = Missing | Fresh(ttl: nat) | Stale

  function Classify(expireAt: int, now: int, disableExpire: bool, optimisticTimeout: nat): Found {
    if disableExpire then Fresh(0)
    else if now > expireAt then (if now < expireAt + optimisticTimeout then Stale else Missing)
    else Fresh((expireAt - now) / SECOND)
  }

  /**
   A client that lets nothing expire serves every response. Otherwise a response stored with a lifetime is served fresh to the end of it, with the whole seconds
   left as its TTL, then stale for the optimistic time if there is one, and then no more.
   */
  lemma {:induction false} LivesItsLifetime(storedAt: int, ttl: nat, now: int, optimisticTimeout: nat)
    requires storedAt <= now
    ensures
      var end := storedAt + ttl * SECOND;
      var found := Classify(end, now, false, optimisticTimeout);
      && (found.Fresh? <==> now <= end)
      && (found.Stale? <==> end < now < end + optimisticTimeout)
      && (found.Fresh? ==> found.ttl <= ttl && now + found.ttl * SECOND <= end < now + (found.ttl + 1) * SECOND)
      && Classify(end, now, true, optimisticTimeout).Fresh?
  {
  }

  /** The TTL written to the records of what is served; none when entries do not expire. */
  function ServedTTL(found: Found, disableExpire: bool): Option<nat> {
    if disableExpire then None
    else if found.Fresh? then Some(found.ttl) else Some(1)
  }

  /** A stored response as served: its addresses in turn, its TTLs rewritten. */
  function Presented(m: Msg, ttl: Option<nat>, rotated: bool, index4: nat, index6: nat): Msg {
    var turned := if rotated then m.(answer := Served(m.answer, index4, index6)) else m;
    if ttl.Some? then Normalized(turned, ttl.value) else turned
  }

  /** A cached response, the turn of its addresses, and its expiry. */
  datatype Entry = Entry(message: Message, ipv4Index: nat, ipv6Index: nat, expireAt: int)

  datatype Deposit = Deposit(msg: Msg, expireAt: int)

  /** What the persistent store returned for a key: the message its bytes unpack to, if they do, and the expiry. */
  datatype Packed = Packed(content: Option<Msg>, expireAt: int)

  /** The entries are copies of what was stored last under their keys, kept in objects of their own. */
  ghost predicate Shelved(cache: map<CacheKey, Entry>, last: map<CacheKey, Deposit>, repr: set<object>)
    reads repr
  {
    forall key :: key in cache ==>
      && cache[key].message in repr
      && cache[key].message.Footprint() <= repr
      && key in last
      && last[key] == Deposit(cache[key].message.Value(), cache[key].expireAt)
  }

  lemma {:induction false} Shelve(cache: map<CacheKey, Entry>, last: map<CacheKey, Deposit>, repr: set<object>, evicted: set<CacheKey>, key: CacheKey, entry: Entry, own: set<object>)
    requires Shelved(cache, last, repr) && own == entry.message.Footprint()
    ensures Shelved((cache - evicted)[key := entry], last[key := Deposit(entry.message.Value(), entry.expireAt)], repr + own)
  {
  }

  lemma {:induction false} Unshelve(cache: map<CacheKey, Entry>, last: map<CacheKey, Deposit>, repr: set<object>, key: CacheKey)
    requires Shelved(cache, last, repr)
    ensures Shelved(cache - {key}, last, repr)
  {
  }

  lemma {:induction false} Reshelve(cache: map<CacheKey, Entry>, last: map<CacheKey, Deposit>, repr: set<object>, key: CacheKey, entry: Entry)
    requires Shelved(cache, last, repr) && key in cache
    requires entry.message == cache[key].message && entry.expireAt == cache[key].expireAt
    ensures Shelved(cache[key := entry], last, repr)
  {
  }

  lemma {:induction false} Kept(cache: map<CacheKey, Entry>, last: map<CacheKey, Deposit>, repr: set<object>, key: CacheKey)
    requires Shelved(cache, last, repr) && key in cache
    ensures key in last && last[key] == Deposit(cache[key].message.Value(), cache[key].expireAt)
  {
  }

  method NewEntry(message: Message, expireAt: int) returns (entry: Entry, ghost own: set<object>)
    ensures entry.message.Value() == message.Value() && entry.expireAt == expireAt && entry.ipv4Index == entry.ipv6Index == 0
    ensures own == entry.message.Footprint() && fresh(own)
  {
    var copy := message.Copy();
    own := copy.Footprint();
    entry := Entry(copy, 0, 0, expireAt);
  }

  class Client {
    const disableExpire: bool
    const optimisticTimeout: nat
    const roundRobin: bool
    const minTTL: nat
    const maxTTL: nat
    var cache: map<CacheKey, Entry>
    var turns: map<CacheKey, (nat, nat)>     // the turns of persistent entries
    ghost var last: map<CacheKey, Deposit>   // the last response stored under each key
    ghost var repr: set<object>

    constructor (disableExpire: bool, optimisticTimeout: nat, roundRobin: bool, minTTL: nat, maxTTL: nat)
      ensures Valid() && fresh(repr) && cache == map[] && last == map[]
      ensures Bounded()
      ensures this.minTTL == minTTL && (this.maxTTL == maxTTL || 0 < maxTTL < minTTL)
    {
      this.disableExpire, this.optimisticTimeout, this.roundRobin := disableExpire, optimisticTimeout, roundRobin;
      this.minTTL := minTTL;
      this.maxTTL := if maxTTL > 0 && minTTL > maxTTL then minTTL else maxTTL;
      cache, turns, last, repr := map[], map[], map[], {};
    }

    /** What every constructed client keeps: an upper bound never lies below the lower one. */
    ghost predicate Bounded() {
      maxTTL > 0 ==> minTTL <= maxTTL
    }

    ghost predicate Valid()
      reads this, repr
    {
      this !in repr && Shelved(cache, last, repr)
    }

    /** Stores a private copy with the lifetime; a lifetime of 0 is not stored. The cache may evict other keys. */
    method StoreCache(key: CacheKey, message: Message, ttl: nat, now: int, evicted: set<CacheKey>)
      requires Valid()
      modifies this
      ensures Valid() && fresh(repr - old(repr))
      ensures ttl == 0 ==> cache == old(cache) && last == old(last)
      ensures ttl > 0 ==> key in cache && last == old(last)[key := Deposit(message.Value(), now + ttl * SECOND)]
      ensures ttl > 0 ==> cache == (old(cache) - evicted)[key := cache[key]] && cache[key].ipv4Index == cache[key].ipv6Index == 0
    {
      hide Shelved;
      if ttl == 0 {
        return;
      }
      var entry, own := NewEntry(message, now + ttl * SECOND);
      Shelve(cache, last, repr, evicted, key, entry, own);
      last := last[key := Deposit(message.Value(), entry.expireAt)];
      repr := repr + own;
      cache := (cache - evicted)[key := entry];
    }

    /** The index of a family after a load: one on, if the client rotates addresses. */
    function Moved(index: nat, m: Msg, v6: bool): nat {
      if roundRobin then NextIndex(index, |OfFamily(m.answer, v6)|) else index
    }

    /** A private copy of a cached response, its addresses one turn on if the client rotates them. */
    method GetRoundRobin(entry: Entry) returns (response: Message, turned: Entry)
      ensures fresh(response.Footprint())
      ensures turned == entry.(ipv4Index := Moved(entry.ipv4Index, entry.message.Value(), false), ipv6Index := Moved(entry.ipv6Index, entry.message.Value(), true))
      ensures response.Value() == Presented(entry.message.Value(), None, roundRobin, turned.ipv4Index, turned.ipv6Index)
    {
      hide Served;
      turned := entry;
      response := entry.message.Copy();
      if roundRobin {
        ghost var ns, extra := Values(response.ns), Values(response.extra);
        var next4, next6 := ApplyRoundRobin(response, entry.ipv4Index, entry.ipv6Index);
        turned := entry.(ipv4Index := next4, ipv6Index := next6);
        assert Values(response.ns) == ns && Values(response.extra) == extra;
      }
    }

    /** The cached response as a caller gets it. */
    method Serve(entry: Entry, ttl: Option<nat>) returns (response: Message, turned: Entry)
      ensures fresh(response.Footprint())
      ensures turned == entry.(ipv4Index := Moved(entry.ipv4Index, entry.message.Value(), false), ipv6Index := Moved(entry.ipv6Index, entry.message.Value(), true))
      ensures response.Value() == Presented(entry.message.Value(), ttl, roundRobin, turned.ipv4Index, turned.ipv6Index)
    {
      hide Served, WithTTL;
      response, turned := GetRoundRobin(entry);
      if ttl.Some? {
        forall i | 0 <= i < |response.answer|
          ensures fresh(response.answer[i])
        {
          assert response.answer[i] in response.Footprint();
        }
        forall i | 0 <= i < |response.ns|
          ensures fresh(response.ns[i])
        {
          assert response.ns[i] in response.Footprint();
        }
        forall i | 0 <= i < |response.extra|
          ensures fresh(response.extra[i])
        {
          assert response.extra[i] in response.Footprint();
        }
        NormalizeTTL(response, ttl.value);
      }
    }

    method LoadResponse(key: CacheKey, now: int) returns (response: Message?, found: Found)
      requires Valid()
      modifies this`cache
      ensures Valid()
      ensures found == if key in old(cache) then Classify(old(cache)[key].expireAt, now, disableExpire, optimisticTimeout) else Missing
      ensures cache.Keys == if found.Missing? then old(cache).Keys - {key} else old(cache).Keys
      ensures response == null <==> found.Missing?
      ensures response != null ==> fresh(response.Footprint())
      ensures response != null ==> response.Value() == Presented(last[key].msg, ServedTTL(found, disableExpire), roundRobin, cache[key].ipv4Index, cache[key].ipv6Index)
      ensures response != null ==>
                var entry := old(cache)[key];
                cache == old(cache)[key := entry.(ipv4Index := Moved(entry.ipv4Index, last[key].msg, false), ipv6Index := Moved(entry.ipv6Index, last[key].msg, true))]
    {
      hide Presented, Shelved, NextIndex, OfFamily;
      if key !in cache {
        return null, Missing;
      }
      var entry := cache[key];
      found := Fresh(0);
      if !disableExpire {
        if now > entry.expireAt {
          if optimisticTimeout > 0 && now < entry.expireAt + optimisticTimeout {
            found := Stale;
          } else {
            Unshelve(cache, last, repr, key);
            cache := cache - {key};
            return null, Missing;
          }
        } else {
          found := Fresh((entry.expireAt - now) / SECOND);
        }
      }
      Kept(cache, last, repr, key);
      response, entry := Serve(entry, ServedTTL(found, disableExpire));
      Reshelve(cache, last, repr, key, entry);
      cache := cache[key := entry];
    }

    /** Two loads one after the other: the second is served one turn further on than the first. */
    method LoadTwice(key: CacheKey, now: int, later: int) returns (first: Message?, second: Message?)
      requires Valid()
      modifies this`cache
      ensures Valid()
      ensures roundRobin && first != null && second != null ==>
                && key in old(cache) && key in last
                && var m, entry := last[key].msg, old(cache)[key];
                   var n4, n6 := |OfFamily(m.answer, false)|, |OfFamily(m.answer, true)|;
                   && (exists ttl :: first.Value() == Presented(m, ttl, true, Turn(entry.ipv4Index, n4, 1), Turn(entry.ipv6Index, n6, 1)))
                   && (exists ttl :: second.Value() == Presented(m, ttl, true, Turn(entry.ipv4Index, n4, 2), Turn(entry.ipv6Index, n6, 2)))
    {
      hide Presented, Shelved, NextIndex, OfFamily, Classify, ServedTTL;
      ghost var was := cache;
      if key !in cache {
        return null, null;
      }
      Kept(cache, last, repr, key);
      ghost var m := last[key].msg;
      Turns(cache[key].ipv4Index, |OfFamily(m.answer, false)|);
      Turns(cache[key].ipv6Index, |OfFamily(m.answer, true)|);
      var found, foundLater;
      first, found := LoadResponse(key, now);
      if first == null {
        return null, null;
      }
      ghost var entry := was[key];
      ghost var shown := first.Value();
      assert roundRobin ==> shown == Presented(m, ServedTTL(found, disableExpire), true,
                                               Turn(entry.ipv4Index, |OfFamily(m.answer, false)|, 1), Turn(entry.ipv6Index, |OfFamily(m.answer, true)|, 1));
      second, foundLater := LoadResponse(key, later);
      assert first.Value() == shown;
    }

    /** The TTL within the client's bounds that is nearest to what the records say. */
    function Bound(ttl: nat): (r: nat)
      ensures minTTL <= ttl && (maxTTL > 0 ==> ttl <= maxTTL) ==> r == ttl
      ensures maxTTL > 0 && ttl > maxTTL && Bounded() ==> r == maxTTL
      ensures ttl < minTTL && Bounded() ==> r == minTTL
    {
      var raised := Max(ttl, minTTL);
      if maxTTL > 0 then Min(raised, maxTTL) else raised
    }

    /** Settles the lifetime of a response and writes it to all its records; a rule may rewrite it. */
    method ApplyResponseOptions(response: Message, options: QueryOptions) returns (ttl: nat)
      modifies response.answer, response.ns, response.extra
      ensures response.Value() == Normalized(old(response.Value()), ttl)
      ensures options.rewriteTTL.Some? ==> ttl == options.rewriteTTL.value
      ensures options.rewriteTTL.None? ==> exists t :: Lifetime(old(response.Value()), t) && ttl == Bound(t)
      ensures options.rewriteTTL.None? && Bounded() ==> minTTL <= ttl && (maxTTL > 0 ==> ttl <= maxTTL)
    {
      hide Lifetime, WithTTL;
      var lifetime := ComputeTimeToLive(response);
      ttl := Bound(lifetime);
      if options.rewriteTTL.Some? {
        ttl := options.rewriteTTL.value;
      }
      NormalizeTTL(response, ttl);
    }

    /** Settles the lifetime of an accepted response and stores a private copy of it with that lifetime, if it is to be stored. */
    method KeepResponse(key: Option<CacheKey>, response: Message, options: QueryOptions, now: int, evicted: set<CacheKey>) returns (ttl: nat)
      requires Valid() && Bounded() && response.Footprint() !! repr
      modifies this, response.answer, response.ns, response.extra
      ensures Valid() && response.Footprint() !! repr
      ensures response.Value() == Normalized(old(response.Value()), ttl)
      ensures options.rewriteTTL.Some? ==> ttl == options.rewriteTTL.value
      ensures options.rewriteTTL.None? ==> minTTL <= ttl && (maxTTL > 0 ==> ttl <= maxTTL)
      ensures last == if key.Some? && ttl > 0 then old(last)[key.value := Deposit(Normalized(old(response.Value()), ttl), now + ttl * SECOND)] else old(last)
    {
      hide Normalized, Shelved, Lifetime;
      ttl := ApplyResponseOptions(response, options);
      if key.Some? {
        StoreCache(key.value, response, ttl, now, evicted);
      }
    }

    /**
     The end of an exchange. A response that fails the check of its rule is passed on as it is and
     not stored. Otherwise the lifetime written to the records of the answer given to the caller is
     the one the private copy is stored with, under the key of the environment the answer came from,
     and the caller's answer has no OPT record the query did not ask for.
     */
    method FinishExchange(key: CacheKey, environment: nat, response: Message, options: QueryOptions, disableCache: bool,
                          checked: Option<bool>, id: nat, asked: Option<nat>, now: int, evicted: set<CacheKey>)
      returns (ttl: nat, rejected: bool)
      requires Valid() && Bounded() && response.Footprint() !! repr
      modifies this, response, response.answer, response.ns, response.extra
      ensures Valid() && response.Footprint() !! repr
      ensures rejected <==> checked.Some? && !(checked.value && (old(response.rcode) == RCODE_SUCCESS || old(response.rcode) == RCODE_NAME_ERROR))
      ensures rejected ==> response.Value() == old(response.Value()) && last == old(last)
      ensures !rejected ==> response.Value() == Stripped(Normalized(old(response.Value()), ttl).(id := id), asked)
      ensures !rejected && options.rewriteTTL.Some? ==> ttl == options.rewriteTTL.value
      ensures !rejected && options.rewriteTTL.None? ==> minTTL <= ttl && (maxTTL > 0 ==> ttl <= maxTTL)
      ensures
        var storable := old(response.rcode) == RCODE_SUCCESS || old(response.rcode) == RCODE_NAME_ERROR;
        var sameEnvironment := key.environment == environment || key.environment == 0;
        && (!rejected && !disableCache && storable && sameEnvironment && ttl > 0 ==>
              last == old(last)[key.(environment := environment) := Deposit(Normalized(old(response.Value()), ttl), now + ttl * SECOND)])
        && (rejected || disableCache || !storable || !sameEnvironment || ttl == 0 ==> last == old(last))
    {
      hide Normalized, Shelved, Stripped;
      if checked.Some? {
        if !Cacheable(response.rcode) || !checked.value {
          return 0, true;
        }
      }
      rejected := false;
      var storeKey := None;
      if !disableCache && Cacheable(response.rcode) {
        storeKey := FinishKey(key, environment);
      }
      ttl := KeepResponse(storeKey, response, options, now, evicted);
      response.id := id;
      StripOPT(response, asked);
    }

    /** The same entry from the persistent store: bytes that do not unpack count as missing, and are to be deleted. */
    method LoadPersistentResponse(packed: Option<Packed>, now: int) returns (response: Message?, found: Found, delete: bool)
      ensures delete <==> packed.Some? && packed.value.content.None?
      ensures response != null ==> fresh(response.Footprint())
      ensures found == if packed.Some? && packed.value.content.Some? then Classify(packed.value.expireAt, now, disableExpire, optimisticTimeout) else Missing
      ensures response == null <==> found.Missing?
      ensures response != null ==> response.Value() == Presented(packed.value.content.value, ServedTTL(found, disableExpire), false, 0, 0)
    {
      hide WithTTL;
      if packed.None? {
        return null, Missing, false;
      }
      if packed.value.content.None? {
        return null, Missing, true;
      }
      response := Unpack(packed.value.content.value);
      var expireAt := packed.value.expireAt;
      if disableExpire {
        return response, Fresh(0), false;
      }
      if now > expireAt {
        if optimisticTimeout > 0 && now < expireAt + optimisticTimeout {
          NormalizeTTL(response, 1);
          return response, Stale, false;
        }
        return null, Missing, false;
      }
      var ttl := (expireAt - now) / SECOND;
      NormalizeTTL(response, ttl);
      return response, Fresh(ttl), false;
    }

    /** A load with a persistent store: the entry is presented as one in memory would be, in the turn kept for its key. */
    method LoadStored(key: CacheKey, packed: Option<Packed>, now: int) returns (response: Message?, found: Found)
      modifies this`turns
      ensures found == if packed.Some? && packed.value.content.Some? then Classify(packed.value.expireAt, now, disableExpire, optimisticTimeout) else Missing
      ensures response == null <==> found.Missing?
      ensures response != null ==> fresh(response.Footprint())
      ensures response != null ==>
                var m, turn := packed.value.content.value, if key in old(turns) then old(turns)[key] else (0, 0);
                var index4, index6 := Moved(turn.0, m, false), Moved(turn.1, m, true);
                && response.Value() == Presented(m, ServedTTL(found, disableExpire), roundRobin, index4, index6)
                && turns == if roundRobin then old(turns)[key := (index4, index6)] else old(turns)
    {
      hide Served, Normalized, NextIndex, OfFamily;
      var delete;
      response, found, delete := LoadPersistentResponse(packed, now);
      if response != null && roundRobin {
        var turn := if key in turns then turns[key] else (0, 0);
        ghost var content := packed.value.content.value;
        ghost var ttl := ServedTTL(found, disableExpire);
        FamilySizes(content, ttl);
        var index4, index6 := RotateInPlace(response, turn.0, turn.1);
        PresentedEitherWay(content, ttl, index4, index6);
        turns := turns[key := (index4, index6)];
      }
    }
  }

  /** Rotates the addresses of a response in place. */
  method RotateInPlace(response: Message, index4: nat, index6: nat) returns (next4: nat, next6: nat)
    modifies response`answer
    ensures next4 == NextIndex(index4, |OfFamily(old(response.Value()).answer, false)|)
    ensures next6 == NextIndex(index6, |OfFamily(old(response.Value()).answer, true)|)
    ensures response.Value() == old(response.Value()).(answer := Served(old(response.Value()).answer, next4, next6))
    ensures response.Footprint() <= old(response.Footprint())
  {
    hide Served;
    ghost var ns, extra := Values(response.ns), Values(response.extra);
    next4, next6 := ApplyRoundRobin(response, index4, index6);
    assert Values(response.ns) == ns && Values(response.extra) == extra;
  }

  /** It makes no difference whether the addresses are put in turn before or after the TTLs are rewritten. */
  lemma {:induction false} PresentedEitherWay(m: Msg, ttl: Option<nat>, index4: nat, index6: nat)
    ensures
      var timed := Presented(m, ttl, false, 0, 0);
      timed.(answer := Served(timed.answer, index4, index6)) == Presented(m, ttl, true, index4, index6)
  {
    hide Served;
    if ttl.Some? {
      ServedAndTTL(m.answer, ttl.value, index4, index6);
    }
  }

  /** Rewriting TTLs leaves the families as large as they are. */
  lemma {:induction false} FamilySizes(m: Msg, ttl: Option<nat>)
    ensures |OfFamily(Presented(m, ttl, false, 0, 0).answer, false)| == |OfFamily(m.answer, false)|
    ensures |OfFamily(Presented(m, ttl, false, 0, 0).answer, true)| == |OfFamily(m.answer, true)|
  {
    if ttl.Some? {
      OfFamilyAndTTL(m.answer, ttl.value, false);
      OfFamilyAndTTL(m.answer, ttl.value, true);
    }
  }

  lemma {:induction false} Turns(index: nat, n: nat)
    ensures Turn(index, n, 1) == NextIndex(index, n) && Turn(index, n, 2) == NextIndex(NextIndex(index, n), n)
  {
    hide NextIndex;
    assert Turn(index, n, 0) == index;
    assert Turn(index, n, 1) == NextIndex(index, n);
  }

  /** The key to store under: none if the environment has changed since the query was made. */
  function FinishKey(key: CacheKey, environment: nat): Option<CacheKey> {
    if environment == key.environment || key.environment == 0 then Some(key.(environment := environment)) else None
  }

  // ---------------------------------------------------------------- OPT records of an answer

  /** The last record with an OPT header. */
  function LastOPT(extra: seq<RR>): Option<RR> {
    if extra == [] then None
    else if extra[|extra| - 1].rrtype == TYPE_OPT then Some(extra[|extra| - 1])
    else LastOPT(extra[..|extra| - 1])
  }

  /** The EDNS version, and the bit asking for DNSSEC, as an OPT header keeps them in place of a TTL. */
  function Version(ttl: nat): nat { ttl / 65536 % 256 }

  function Security(ttl: nat): nat { ttl / 32768 % 2 * 32768 }

  /** An answer to a query of an EDNS version: OPT records of a higher one give way, to a plain one if the query has any. */
  function Stripped(m: Msg, asked: Option<nat>): Msg {
    var opt := LastOPT(m.extra);
    if opt.None? || (asked.Some? && asked.value >= Version(opt.value.ttl)) then m
    else m.(extra := Without(m.extra, TYPE_OPT) + if asked.Some? then [RR(".", TYPE_OPT, Security(opt.value.ttl), OPT([]))] else [])
  }

  /**
   An answer keeps all it has but OPT records. A query without one gets none; a query of some version
   gets the answer's own if the last of them is of no higher version, and otherwise, at the end, one
   of version 0 with the same bit asking for DNSSEC and without options.
   */
  lemma {:induction false} StrippedAnswers(m: Msg, asked: Option<nat>)
    ensures
      var stripped := Stripped(m, asked);
      && stripped == m.(extra := stripped.extra) && Without(stripped.extra, TYPE_OPT) == Without(m.extra, TYPE_OPT)
      && (asked.None? ==> forall r :: r in stripped.extra ==> r.rrtype != TYPE_OPT)
      && (asked.Some? && stripped != m ==>
            exists r, n :: 0 <= n && |stripped.extra| == n + 1 && stripped.extra[n] == r
                           && (forall i :: 0 <= i < n ==> stripped.extra[i].rrtype != TYPE_OPT)
                           && r.rrtype == TYPE_OPT && r.data == OPT([]) && Version(r.ttl) == 0
                           && LastOPT(m.extra).Some? && Security(r.ttl) == Security(LastOPT(m.extra).value.ttl)
                           && asked.value < Version(LastOPT(m.extra).value.ttl))
  {
    hide LastOPT;
    var kept, opt := Without(m.extra, TYPE_OPT), LastOPT(m.extra);
    NoneOfType(m.extra, TYPE_OPT);
    if opt.None? {
      NoOPT(m.extra);
    } else if asked.None? {
      assert kept + [] == kept;
      WithoutTwice(kept, TYPE_OPT);
    } else if asked.value < Version(opt.value.ttl) {
      var r := RR(".", TYPE_OPT, Security(opt.value.ttl), OPT([]));
      WithoutTwice(kept, TYPE_OPT);
      assert (kept + [r])[..|kept|] == kept;
      SecurityBit(opt.value.ttl);
      assert Stripped(m, asked).extra == kept + [r];
      assert (kept + [r])[|kept|] == r;
    }
  }

  lemma {:induction false} SecurityBit(ttl: nat)
    ensures Version(Security(ttl)) == 0 && Security(Security(ttl)) == Security(ttl)
  {
  }

  lemma {:induction false} NoneOfType(records: seq<RR>, rrtype: nat)
    ensures forall i :: 0 <= i < |Without(records, rrtype)| ==> Without(records, rrtype)[i].rrtype != rrtype
  {
    if records != [] {
      NoneOfType(records[..|records| - 1], rrtype);
    }
  }

  lemma {:induction false} WithoutTwice(records: seq<RR>, rrtype: nat)
    requires forall i :: 0 <= i < |records| ==> records[i].rrtype != rrtype
    ensures Without(records, rrtype) == records
  {
    if records != [] {
      WithoutTwice(records[..|records| - 1], rrtype);
    }
  }

  lemma {:induction false} NoOPT(extra: seq<RR>)
    requires LastOPT(extra).None?
    ensures forall r :: r in extra ==> r.rrtype != TYPE_OPT
  {
    if extra != [] {
      NoOPT(extra[..|extra| - 1]);
    }
  }

  method FindOPT(extra: seq<Record>) returns (record: Option<Record>)
    ensures LastOPT(Values(extra)) == if record.Some? then Some(record.value.Value()) else None
    ensures record.Some? ==> record.value in extra
  {
    assert Values(extra)[..|extra|] == Values(extra);
    for i := |extra| downto 0
      invariant LastOPT(Values(extra)) == LastOPT(Values(extra)[..i])
    {
      assert Values(extra)[..i + 1][..i] == Values(extra)[..i];
      if extra[i].rrtype == TYPE_OPT {
        return Some(extra[i]);
      }
    }
    return None;
  }

  method StripOPT(response: Message, asked: Option<nat>)
    modifies response`extra
    ensures response.Value() == Stripped(old(response.Value()), asked)
    ensures forall r :: r in response.extra ==> r in old(response.extra) || fresh(r)
  {
    hide LastOPT, Without;
    ghost var answer, ns := Values(response.answer), Values(response.ns);
    var opt := FindOPT(response.extra);
    if opt.None? {
      return;
    }
    var version, security := Version(opt.value.ttl), Security(opt.value.ttl);
    if asked.Some? && asked.value >= version {
      return;
    }
    var kept := RemoveAnswersOfType(response.extra, TYPE_OPT);
    if asked.Some? {
      var record := new Record(RR(".", TYPE_OPT, security, OPT([])));
      Appended(kept, [record]);
      kept := kept + [record];
    }
    response.extra := kept;
    assert Values(response.answer) == answer && Values(response.ns) == ns;
  }

  predicate Cacheable(rcode: int) {
    rcode == RCODE_SUCCESS || rcode == RCODE_NAME_ERROR
  }

  method NewRecords(values: seq<RR>) returns (records: seq<Record>)
    ensures Values(records) == values && fresh(records)
  {
    records := [];
    for i := 0 to |values|
      invariant |records| == i && fresh(records)
      invariant forall j :: 0 <= j < i ==> records[j].Value() == values[j]
    {
      var record := new Record(values[i]);
      records := records + [record];
    }
  }

  method Unpack(m: Msg) returns (message: Message)
    ensures message.Value() == m
    ensures fresh(message.Footprint())
    ensures fresh(message) && fresh(message.answer) && fresh(message.ns) && fresh(message.extra)
  {
    var answer := NewRecords(m.answer);
    var ns := NewRecords(m.ns);
    var extra := NewRecords(m.extra);
    message := new Message(m.id, m.rcode, m.question, answer, ns, extra);
  }

  // ---------------------------------------------------------------- transparency

  lemma {:induction false} OfFamilyAndTTL(records: seq<RR>, t: nat, v6: bool)
    ensures OfFamily(WithTTL(records, t), v6) == WithTTL(OfFamily(records, v6), t)
  {
    if records != [] {
      OfFamilyAndTTL(records[..|records| - 1], t, v6);
      assert WithTTL(records, t)[..|records| - 1] == WithTTL(records[..|records| - 1], t);
    }
  }

  lemma {:induction false} WithoutAndTTL(records: seq<RR>, t: nat, rrtype: nat)
    ensures Without(WithTTL(records, t), rrtype) == WithTTL(Without(records, rrtype), t)
  {
    if records != [] {
      WithoutAndTTL(records[..|records| - 1], t, rrtype);
      assert WithTTL(records, t)[..|records| - 1] == WithTTL(records[..|records| - 1], t);
    }
  }

  lemma {:induction false} RotateAndTTL(records: seq<RR>, t: nat, steps: nat)
    ensures Rotate(WithTTL(records, t), steps) == WithTTL(Rotate(records, steps), t)
  {
  }

  lemma {:induction false} RegroupedAndTTL(records: seq<RR>, picked: seq<RR>, t: nat, v6: bool, index: nat)
    ensures Regrouped(WithTTL(records, t), WithTTL(picked, t), v6, index) == WithTTL(Regrouped(records, picked, v6, index), t)
  {
    WithoutAndTTL(records, t, HeaderType(v6));
    RotateAndTTL(picked, t, index);
    hide Rotate, Without;
    assert WithTTL(Without(records, HeaderType(v6)) + Rotate(picked, index), t)
        == WithTTL(Without(records, HeaderType(v6)), t) + WithTTL(Rotate(picked, index), t);
  }

  lemma {:induction false} ServedAndTTL(records: seq<RR>, t: nat, index4: nat, index6: nat)
    ensures Served(WithTTL(records, t), index4, index6) == WithTTL(Served(records, index4, index6), t)
  {
    hide Regrouped, OfFamily, WithTTL;
    OfFamilyAndTTL(records, t, false);
    OfFamilyAndTTL(records, t, true);
    RegroupedAndTTL(records, OfFamily(records, false), t, false, index4);
    RegroupedAndTTL(Regrouped(records, OfFamily(records, false), false, index4), OfFamily(records, true), t, true, index6);
  }

  function Retimed(m: Msg, ttl: Option<nat>): Msg {
    if ttl.Some? then Normalized(m, ttl.value) else m
  }

  /** The sections and codes agree; the answers are the same records in some order. */
  ghost predicate Reordered(m: Msg, stored: Msg) {
    m == stored.(answer := m.answer) && multiset(m.answer) == multiset(stored.answer)
  }

  /**
   Cache transparency. What a load serves is the stored response with its TTLs rewritten and
   its answers reordered, exactly when rotation is off or serves every answer once; see
   AgreeingHeadersPermute for the usual case.
   */
  lemma {:induction false} TransparentExactlyWhen(m: Msg, ttl: Option<nat>, rotated: bool, index4: nat, index6: nat)
    ensures Reordered(Presented(m, ttl, rotated, index4, index6), Retimed(m, ttl))
       <==> !rotated || forall r :: r in m.answer ==> Copies(r, |OfFamily(m.answer, false)| > 1, |OfFamily(m.answer, true)| > 1) == 1
  {
    hide Served, OfFamily, Copies;
    if rotated {
      PermutesExactlyWhen(Retimed(m, ttl).answer, index4, index6);
      if ttl.Some? {
        ServedAndTTL(m.answer, ttl.value, index4, index6);
        OfFamilyAndTTL(m.answer, ttl.value, false);
        OfFamilyAndTTL(m.answer, ttl.value, true);
        CopiesAndTTL(m.answer, ttl.value, |OfFamily(m.answer, false)| > 1, |OfFamily(m.answer, true)| > 1);
      }
    }
  }

  /** The TTL of every record but OPT, in a section served from the cache: the seconds left of a fresh one, one second for a stale one. */
  ghost predicate Shows(records: seq<RR>, found: Found) {
    forall i :: 0 <= i < |records| && records[i].rrtype != TYPE_OPT ==> records[i].ttl == if found.Fresh? then found.ttl else 1
  }

  /** What is served shows how long it may be kept, unless entries do not expire, when nothing but the order is changed. */
  lemma {:induction false} ServedLifetimes(m: Msg, found: Found, disableExpire: bool, rotated: bool, index4: nat, index6: nat)
    ensures
      var served := Presented(m, ServedTTL(found, disableExpire), rotated, index4, index6);
      && (!disableExpire ==> Shows(served.answer, found) && Shows(served.ns, found) && Shows(served.extra, found))
      && (disableExpire ==> served.ns == m.ns && served.extra == m.extra && (!rotated ==> served.answer == m.answer))
      && served.rcode == m.rcode && served.question == m.question
  {
    hide Served;
  }

  lemma {:induction false} CopiesAndTTL(records: seq<RR>, t: nat, rotate4: bool, rotate6: bool)
    ensures (forall r :: r in WithTTL(records, t) ==> Copies(r, rotate4, rotate6) == 1)
       <==> (forall r :: r in records ==> Copies(r, rotate4, rotate6) == 1)
  {
    var timed := WithTTL(records, t);
    forall i | 0 <= i < |records|
      ensures Copies(timed[i], rotate4, rotate6) == Copies(records[i], rotate4, rotate6)
    {
    }
    hide Copies, WithTTL;
    if forall r :: r in timed ==> Copies(r, rotate4, rotate6) == 1 {
      forall r | r in records
        ensures Copies(r, rotate4, rotate6) == 1
      {
        var i :| 0 <= i < |records| && records[i] == r;
        assert timed[i] in timed;
      }
    }
  }
}
