/** The client subnet of a query: in its options, in the message sent, and in the cache key. */
module Subnet {
  import opened Dns
  import opened Messages

  // ---------------------------------------------------------------- subnets of a message

  predicate IsMapped(address: seq<byte>) {
    |address| == 16 && (forall i :: 0 <= i < 10 ==> address[i] == 0) && address[10] == 255 && address[11] == 255
  }

  function Unmap(address: seq<byte>): seq<byte> {
    if IsMapped(address) then address[12..] else address
  }

  /** The prefix a subnet option stands for; its length is -1 when it does not fit the address. */
  function PrefixOf(subnet: ClientSubnet): Prefix {
    if |subnet.address| != 4 && |subnet.address| != 16 then NO_PREFIX
    else
      var address := Unmap(subnet.address);
      Prefix(address, if subnet.netmask <= 8 * |address| then subnet.netmask else -1)
  }

  function SubnetOf(prefix: Prefix): ClientSubnet
    requires prefix.IsValid()
  {
    ClientSubnet(if |prefix.address| == 4 then 1 else 2, prefix.bits, prefix.address)
  }

  /** The client subnets among options, in order. */
  function Subnets(options: seq<EdnsOption>): seq<ClientSubnet> {
    if options == [] then []
    else (if options[0].Subnet? then [options[0].subnet] else []) + Subnets(options[1..])
  }

  function OptionsOf(r: RR): seq<EdnsOption> {
    if r.data.OPT? then r.data.options else []
  }

  /** The client subnets of an additional section, in order. */
  function AllSubnets(extra: seq<RR>): seq<ClientSubnet> {
    if extra == [] then [] else Subnets(OptionsOf(extra[0])) + AllSubnets(extra[1..])
  }

  /** The subnet a message carries: its first one. */
  function Carried(m: Msg): Prefix {
    var subnets := AllSubnets(m.extra);
    if subnets == [] then NO_PREFIX else PrefixOf(subnets[0])
  }

  lemma {:induction false} SubnetsAppend(a: seq<EdnsOption>, b: seq<EdnsOption>)
    ensures Subnets(a + b) == Subnets(a) + Subnets(b)
  {
    if a == [] {
      assert a + b == b;
    } else {
      SubnetsAppend(a[1..], b);
      assert (a + b)[1..] == a[1..] + b;
      var head := if a[0].Subnet? then [a[0].subnet] else [];
      assert head + (Subnets(a[1..]) + Subnets(b)) == (head + Subnets(a[1..])) + Subnets(b);
    }
  }

  lemma {:induction false} AllSubnetsAppend(a: seq<RR>, b: seq<RR>)
    ensures AllSubnets(a + b) == AllSubnets(a) + AllSubnets(b)
  {
    hide Subnets, OptionsOf;
    if a == [] {
      assert a + b == b;
    } else {
      AllSubnetsAppend(a[1..], b);
      assert (a + b)[1..] == a[1..] + b;
    }
  }

  // ---------------------------------------------------------------- the message sent

  /** The place of the first client subnet among options, their number if there is none. */
  function FirstOption(options: seq<EdnsOption>): (i: nat)
    ensures i <= |options| && Subnets(options[..i]) == []
    ensures i < |options| ==> options[i].Subnet?
  {
    if options == [] || options[0].Subnet? then 0
    else
      var rest := FirstOption(options[1..]);
      assert options[..rest + 1][1..] == options[1..][..rest];
      rest + 1
  }

  /** The first record with a client subnet, their number if there is none. */
  function FirstRecord(extra: seq<RR>): (i: nat)
    ensures i <= |extra| && AllSubnets(extra[..i]) == []
    ensures i < |extra| ==> extra[i].data.OPT? && FirstOption(extra[i].data.options) < |extra[i].data.options|
  {
    if extra == [] then 0
    else if FirstOption(OptionsOf(extra[0])) < |OptionsOf(extra[0])| then 0
    else
      var rest := FirstRecord(extra[1..]);
      assert extra[..rest + 1][1..] == extra[1..][..rest];
      assert OptionsOf(extra[0])[..|OptionsOf(extra[0])|] == OptionsOf(extra[0]);
      rest + 1
  }

  predicate EndsInOPT(extra: seq<RR>) {
    extra != [] && extra[|extra| - 1].data.OPT?
  }

  function NewOPT(options: seq<EdnsOption>): RR {
    RR(".", TYPE_OPT, 0, OPT(options))
  }

  /** The section with the subnet: in place of the first one, else in the last record if that is an OPT, else in a new one. */
  function WithSubnet(extra: seq<RR>, subnet: ClientSubnet): seq<RR> {
    var at := FirstRecord(extra);
    if at < |extra| then
      var options := extra[at].data.options;
      extra[at := extra[at].(data := OPT(options[FirstOption(options) := Subnet(subnet)]))]
    else if EndsInOPT(extra) then
      var last := extra[|extra| - 1];
      extra[|extra| - 1 := last.(data := OPT(last.data.options + [Subnet(subnet)]))]
    else extra + [NewOPT([Subnet(subnet)])]
  }

  function WithoutCode(options: seq<EdnsOption>): seq<EdnsOption> {
    if options == [] then []
    else (if Code(options[0]) != EDNS_SUBNET then [options[0]] else []) + WithoutCode(options[1..])
  }

  function Cleared(r: RR): RR {
    if r.data.OPT? then r.(data := OPT(WithoutCode(r.data.options))) else r
  }

  function WithoutSubnets(extra: seq<RR>): seq<RR> {
    seq(|extra|, i requires 0 <= i < |extra| => Cleared(extra[i]))
  }

  /** The subnet that options or, failing that, the client demand. */
  function Demanded(options: QueryOptions, client: Prefix): Prefix {
    if options.clientSubnet.Some? && options.clientSubnet.value.IsValid() then options.clientSubnet.value else client
  }

  function Prepared(m: Msg, options: QueryOptions, client: Prefix): Msg {
    if options.removeClientSubnet then m.(extra := WithoutSubnets(m.extra))
    else if Demanded(options, client).IsValid() then m.(extra := WithSubnet(m.extra, SubnetOf(Demanded(options, client))))
    else m
  }

  /** The subnet part of the cache key, from a message and the options. */
  function KeySubnet(m: Msg, options: QueryOptions, client: Prefix): Prefix {
    if options.removeClientSubnet then NO_PREFIX
    else if Demanded(options, client).IsValid() then Demanded(options, client)
    else Carried(m)
  }

  // ---------------------------------------------------------------- the key speaks of the message

  lemma {:induction false} SplitAt(extra: seq<RR>, i: nat)
    requires i < |extra|
    ensures AllSubnets(extra) == AllSubnets(extra[..i]) + Subnets(OptionsOf(extra[i])) + AllSubnets(extra[i + 1..])
  {
    assert extra == extra[..i] + extra[i..];
    AllSubnetsAppend(extra[..i], extra[i..]);
    assert extra[i..][1..] == extra[i + 1..];
  }

  lemma {:induction false} ReplaceFirst(options: seq<EdnsOption>, subnet: ClientSubnet)
    requires FirstOption(options) < |options|
    ensures Subnets(options) != []
    ensures Subnets(options[FirstOption(options) := Subnet(subnet)]) == [subnet] + Subnets(options)[1..]
  {
    var i := FirstOption(options);
    var changed := options[i := Subnet(subnet)];
    assert options == options[..i] + options[i..] && changed == options[..i] + changed[i..];
    SubnetsAppend(options[..i], options[i..]);
    SubnetsAppend(options[..i], changed[i..]);
    assert changed[i..][1..] == options[i..][1..];
  }

  /** One record of a section changed: only its own client subnets change. */
  lemma {:induction false} ChangeOne(extra: seq<RR>, i: nat, r: RR)
    requires i < |extra|
    ensures AllSubnets(extra[i := r]) == AllSubnets(extra[..i]) + Subnets(OptionsOf(r)) + AllSubnets(extra[i + 1..])
  {
    hide AllSubnets, Subnets, OptionsOf;
    var after := extra[i := r];
    SplitAt(after, i);
    assert after[..i] == extra[..i] && after[i + 1..] == extra[i + 1..];
  }

  lemma {:induction false} AfterReplacing(extra: seq<RR>, subnet: ClientSubnet)
    requires FirstRecord(extra) < |extra|
    ensures AllSubnets(extra) != [] && AllSubnets(WithSubnet(extra, subnet)) == [subnet] + AllSubnets(extra)[1..]
  {
    hide AllSubnets, Subnets, FirstOption;
    var at := FirstRecord(extra);
    var options := extra[at].data.options;
    ReplaceFirst(options, subnet);
    SplitAt(extra, at);
    ChangeOne(extra, at, extra[at].(data := OPT(options[FirstOption(options) := Subnet(subnet)])));
  }

  lemma {:induction false} AfterAdding(extra: seq<RR>, subnet: ClientSubnet)
    requires FirstRecord(extra) == |extra|
    ensures AllSubnets(extra) == [] && AllSubnets(WithSubnet(extra, subnet)) == [subnet]
  {
    assert extra[..|extra|] == extra;
    assert Subnets([Subnet(subnet)]) == [subnet];
    assert AllSubnets([NewOPT([Subnet(subnet)])]) == [subnet];
    hide AllSubnets, Subnets, FirstRecord;
    if EndsInOPT(extra) {
      var last := |extra| - 1;
      var options := extra[last].data.options;
      SplitAt(extra, last);
      SubnetsAppend(options, [Subnet(subnet)]);
      ChangeOne(extra, last, extra[last].(data := OPT(options + [Subnet(subnet)])));
    } else {
      AllSubnetsAppend(extra, [NewOPT([Subnet(subnet)])]);
    }
  }

  /** The demanded subnet becomes the first one; further ones stay as they were. */
  lemma {:induction false} SubnetsAfter(extra: seq<RR>, subnet: ClientSubnet)
    ensures AllSubnets(WithSubnet(extra, subnet)) == [subnet] + (if AllSubnets(extra) == [] then [] else AllSubnets(extra)[1..])
  {
    hide AllSubnets, WithSubnet;
    if FirstRecord(extra) < |extra| {
      AfterReplacing(extra, subnet);
    } else {
      AfterAdding(extra, subnet);
    }
  }

  lemma {:induction false} NoneLeft(options: seq<EdnsOption>)
    ensures Subnets(WithoutCode(options)) == []
  {
    if options != [] {
      NoneLeft(options[1..]);
      SubnetsAppend(if Code(options[0]) != EDNS_SUBNET then [options[0]] else [], WithoutCode(options[1..]));
    }
  }

  lemma {:induction false} NoneLeftAnywhere(extra: seq<RR>)
    ensures AllSubnets(WithoutSubnets(extra)) == []
  {
    if extra != [] {
      NoneLeft(OptionsOf(extra[0]));
      NoneLeftAnywhere(extra[1..]);
      assert WithoutSubnets(extra)[1..] == WithoutSubnets(extra[1..]);
    }
  }

  lemma {:induction false} WithoutCodeAppend(a: seq<EdnsOption>, b: seq<EdnsOption>)
    ensures WithoutCode(a + b) == WithoutCode(a) + WithoutCode(b)
  {
    if a == [] {
      assert a + b == b;
    } else {
      WithoutCodeAppend(a[1..], b);
      assert (a + b)[1..] == a[1..] + b;
      var head := if Code(a[0]) != EDNS_SUBNET then [a[0]] else [];
      assert head + (WithoutCode(a[1..]) + WithoutCode(b)) == (head + WithoutCode(a[1..])) + WithoutCode(b);
    }
  }

  lemma {:induction false} WithoutReplaced(options: seq<EdnsOption>, i: nat, subnet: ClientSubnet)
    requires i < |options| && options[i].Subnet?
    ensures WithoutCode(options[i := Subnet(subnet)]) == WithoutCode(options)
  {
    var changed := options[i := Subnet(subnet)];
    assert options == options[..i] + options[i..] && changed == options[..i] + changed[i..];
    WithoutCodeAppend(options[..i], options[i..]);
    WithoutCodeAppend(options[..i], changed[i..]);
    assert changed[i..][1..] == options[i..][1..];
  }

  /** Setting a subnet changes nothing but subnets: clearing them afterwards is clearing them before, up to a new empty OPT. */
  lemma {:induction false} OnlySubnetsChange(extra: seq<RR>, subnet: ClientSubnet)
    ensures WithoutSubnets(WithSubnet(extra, subnet))
         == WithoutSubnets(extra) + (if FirstRecord(extra) == |extra| && !EndsInOPT(extra) then [NewOPT([])] else [])
  {
    hide FirstRecord, FirstOption;
    var at := FirstRecord(extra);
    if at < |extra| {
      var options := extra[at].data.options;
      WithoutReplaced(options, FirstOption(options), subnet);
    } else if EndsInOPT(extra) {
      var options := extra[|extra| - 1].data.options;
      WithoutCodeAppend(options, [Subnet(subnet)]);
      assert WithoutCode([Subnet(subnet)]) == [];
      assert WithoutCode(options + [Subnet(subnet)]) == WithoutCode(options);
      assert Cleared(WithSubnet(extra, subnet)[|extra| - 1]) == Cleared(extra[|extra| - 1]);
    } else {
      assert WithoutCode([Subnet(subnet)]) == [];
    }
  }

  /** A prefix survives the way through the option unless its address is an IPv4 address written as IPv6. */
  lemma {:induction false} SurvivesExactlyWhen(prefix: Prefix)
    requires prefix.IsValid()
    ensures PrefixOf(SubnetOf(prefix)) == prefix <==> !IsMapped(prefix.address)
  {
  }

  /**
   The subnet in the cache key is the subnet carried by the query sent, for every message,
   options and client, exactly unless an IPv4-mapped prefix is demanded and not removed.
   */
  lemma {:induction false} KeyIsCarriedExactlyWhen(m: Msg, options: QueryOptions, client: Prefix)
    ensures
      var sent := Prepared(m, options, client);
      KeySubnet(sent, options, client) == Carried(sent)
      <==> options.removeClientSubnet || !Demanded(options, client).IsValid() || !IsMapped(Demanded(options, client).address)
  {
    hide AllSubnets, WithSubnet, WithoutSubnets, PrefixOf, IsMapped;
    NoneLeftAnywhere(m.extra);
    if Demanded(options, client).IsValid() {
      SubnetsAfter(m.extra, SubnetOf(Demanded(options, client)));
      SurvivesExactlyWhen(Demanded(options, client));
    }
  }

  /** A look into the cache alone, before any message is prepared, uses the same key. */
  lemma {:induction false} ProbeUsesSameKey(m: Msg, options: QueryOptions, client: Prefix)
    ensures KeySubnet(m, options, client) == KeySubnet(Prepared(m, options, client), options, client)
  {
  }

  /** A valid subnet of the options. */
  predicate Given(options: QueryOptions) {
    options.clientSubnet.Some? && options.clientSubnet.value.IsValid()
  }

  /**
   What the query sent carries: nothing if the subnet is to be removed; else a valid subnet of the
   options, whatever the client's; else a valid one of the client, whatever the message has; else
   what the message has. The key is under the same subnet, and speaks of an IPv4-mapped one as it is.
   */
  lemma {:induction false} WhatIsCarried(m: Msg, options: QueryOptions, client: Prefix)
    ensures
      var sent := Prepared(m, options, client);
      var key, carried := KeySubnet(sent, options, client), Carried(sent);
      && (options.removeClientSubnet ==> key == carried == NO_PREFIX)
      && (!options.removeClientSubnet && Given(options) ==>
            key == options.clientSubnet.value && (!IsMapped(key.address) ==> carried == options.clientSubnet.value))
      && (!options.removeClientSubnet && !Given(options) && client.IsValid() ==>
            key == client && (!IsMapped(client.address) ==> carried == client))
      && (!options.removeClientSubnet && !Given(options) && !client.IsValid() ==> sent == m && key == carried == Carried(m))
  {
    hide AllSubnets, WithSubnet, WithoutSubnets, PrefixOf, IsMapped, SubnetOf;
    KeyIsCarriedExactlyWhen(m, options, client);
    NoneLeftAnywhere(m.extra);
  }

  /** The places of the options that are no subnets, in order. */
  ghost predicate Places(options: seq<EdnsOption>, places: seq<nat>) {
    && (forall k, l :: 0 <= k < l < |places| ==> places[k] < places[l])
    && (forall k :: 0 <= k < |places| ==> places[k] < |options| && Code(options[places[k]]) != EDNS_SUBNET)
    && (forall i :: 0 <= i < |options| && Code(options[i]) != EDNS_SUBNET ==> i in places)
  }

  /** Exactly the options that are no subnets, in their order. */
  ghost predicate KeepsOthers(options: seq<EdnsOption>, kept: seq<EdnsOption>) {
    exists places: seq<nat> :: Places(options, places) && |places| == |kept| && forall k :: 0 <= k < |kept| ==> places[k] < |options| && kept[k] == options[places[k]]
  }

  /** Removing the subnets keeps every other option, in its order. */
  lemma {:induction false} OthersAreKept(options: seq<EdnsOption>)
    ensures KeepsOthers(options, WithoutCode(options))
  {
    hide WithoutCode;
    if options == [] {
      NoneKept();
      assert Places([], []);
    } else {
      var last := |options| - 1;
      OthersAreKept(options[..last]);
      assert options == options[..last] + [options[last]];
      WithoutCodeAppend(options[..last], [options[last]]);
      OneKept(options[last]);
      KeepsOn(options[..last], options[last], WithoutCode(options[..last]));
    }
  }

  lemma {:induction false} NoneKept()
    ensures WithoutCode([]) == []
  {
  }

  lemma {:induction false} OneKept(o: EdnsOption)
    ensures WithoutCode([o]) == if Code(o) != EDNS_SUBNET then [o] else []
  {
  }

  lemma {:induction false} PlacesOn(before: seq<EdnsOption>, o: EdnsOption, places: seq<nat>)
    requires Places(before, places)
    ensures Places(before + [o], if Code(o) != EDNS_SUBNET then places + [|before|] else places)
  {
    var options := before + [o];
    var more := if Code(o) != EDNS_SUBNET then places + [|before|] else places;
    forall k | 0 <= k < |more|
      ensures more[k] < |options| && Code(options[more[k]]) != EDNS_SUBNET
    {
      assert k < |places| ==> more[k] == places[k] && options[more[k]] == before[places[k]];
    }
    forall i | 0 <= i < |options| && Code(options[i]) != EDNS_SUBNET
      ensures i in more
    {
      if i < |before| {
        assert options[i] == before[i] && i in places;
      } else {
        assert more[|places|] == i;
      }
    }
  }

  lemma {:induction false} KeepsOn(before: seq<EdnsOption>, o: EdnsOption, kept: seq<EdnsOption>)
    requires KeepsOthers(before, kept)
    ensures KeepsOthers(before + [o], kept + if Code(o) != EDNS_SUBNET then [o] else [])
  {
    hide Places;
    var places: seq<nat> :| Places(before, places) && |places| == |kept| && forall k :: 0 <= k < |kept| ==> places[k] < |before| && kept[k] == before[places[k]];
    PlacesOn(before, o, places);
    var options, all := before + [o], kept + if Code(o) != EDNS_SUBNET then [o] else [];
    var more := if Code(o) != EDNS_SUBNET then places + [|before|] else places;
    forall k | 0 <= k < |all|
      ensures more[k] < |options| && all[k] == options[more[k]]
    {
      if k < |kept| {
        assert more[k] == places[k] && all[k] == kept[k] && options[places[k]] == before[places[k]];
      }
    }
    assert Places(options, more);
  }

  // ---------------------------------------------------------------- the code

  lemma {:induction false} NextOption(options: seq<EdnsOption>, i: nat)
    requires i < |options| && Subnets(options[..i]) == []
    ensures Subnets(options[..i + 1]) == if options[i].Subnet? then [options[i].subnet] else []
  {
    assert options[..i + 1] == options[..i] + [options[i]];
    SubnetsAppend(options[..i], [options[i]]);
  }

  lemma {:induction false} NextRecord(extra: seq<RR>, i: nat)
    requires i < |extra| && AllSubnets(extra[..i]) == []
    ensures AllSubnets(extra[..i + 1]) == Subnets(OptionsOf(extra[i]))
  {
    assert extra[..i + 1] == extra[..i] + [extra[i]];
    AllSubnetsAppend(extra[..i], [extra[i]]);
    assert AllSubnets([extra[i]]) == Subnets(OptionsOf(extra[i])) + [];
  }

  method ClientSubnetFromMessage(message: Message) returns (prefix: Prefix)
    ensures prefix == Carried(message.Value())
  {
    hide AllSubnets, Subnets;
    ghost var extra := Values(message.extra);
    NoRecords(extra);
    NoOptions();
    for i := 0 to |message.extra|
      invariant AllSubnets(extra[..i]) == []
    {
      NextRecord(extra, i);
      var record := message.extra[i];
      assert extra[i] == record.Value();
      if !record.data.OPT? {
        continue;
      }
      var options := record.data.options;
      assert options[..0] == [];
      for j := 0 to |options|
        invariant Subnets(options[..j]) == []
      {
        NextOption(options, j);
        if options[j].Subnet? {
          FirstIs(extra, i, options, j);
          var subnet := options[j].subnet;
          if |subnet.address| != 4 && |subnet.address| != 16 {
            return NO_PREFIX;
          }
          var address := Unmap(subnet.address);
          return Prefix(address, if subnet.netmask <= 8 * |address| then subnet.netmask else -1);
        }
      }
      assert options[..|options|] == options;
    }
    assert extra[..|extra|] == extra;
    return NO_PREFIX;
  }

  lemma {:induction false} FirstIs(extra: seq<RR>, i: nat, options: seq<EdnsOption>, j: nat)
    requires i < |extra| && extra[i].data.OPT? && extra[i].data.options == options && j < |options| && options[j].Subnet?
    requires AllSubnets(extra[..i]) == [] && Subnets(options[..j]) == []
    ensures AllSubnets(extra) != [] && AllSubnets(extra)[0] == options[j].subnet
  {
    hide AllSubnets, Subnets;
    SplitAt(extra, i);
    NextOption(options, j);
    assert options == options[..j + 1] + options[j + 1..];
    SubnetsAppend(options[..j + 1], options[j + 1..]);
  }

  lemma {:induction false} NothingToClear(options: seq<EdnsOption>)
    requires forall o :: o in options ==> Code(o) != EDNS_SUBNET
    ensures WithoutCode(options) == options
  {
    if options != [] {
      NothingToClear(options[1..]);
    }
  }

  predicate HasCode(r: RR) {
    exists o :: o in OptionsOf(r) && Code(o) == EDNS_SUBNET
  }

  /** Drops the client subnet options from a copy; a message without any is passed on as it is. */
  method RemoveClientSubnet(message: Message) returns (sent: Message)
    ensures sent.Value() == message.Value().(extra := WithoutSubnets(message.Value().extra))
  {
    var found := exists i :: 0 <= i < |message.extra| && HasCode(message.extra[i].Value());
    ghost var before := Values(message.extra);
    if !found {
      forall i | 0 <= i < |before|
        ensures Cleared(before[i]) == before[i]
      {
        assert !HasCode(message.extra[i].Value());
        NothingToClear(OptionsOf(before[i]));
      }
      assert WithoutSubnets(before) == before;
      return message;
    }
    sent := message.Copy();
    ClearSection(sent);
  }

  /** Edits the OPT records of a message in place. */
  method ClearSection(message: Message)
    requires Unshared(message.Records())
    modifies message.extra
    ensures message.Value() == old(message.Value()).(extra := WithoutSubnets(old(message.Value()).extra))
  {
    var extra := message.extra;
    ghost var before := Values(extra);
    InExtra(message);
    for i := 0 to |extra|
      invariant forall j :: 0 <= j < |extra| ==> extra[j].Value() == if j < i then Cleared(before[j]) else before[j]
      invariant forall j :: 0 <= j < |message.answer| ==> message.answer[j].Value() == old(message.answer[j].Value())
      invariant forall j :: 0 <= j < |message.ns| ==> message.ns[j].Value() == old(message.ns[j].Value())
    {
      var record := extra[i];
      if record.data.OPT? {
        record.data := OPT(WithoutCode(record.data.options));
      }
    }
    assert Values(extra) == WithoutSubnets(before);
    assert Values(message.answer) == old(Values(message.answer)) && Values(message.ns) == old(Values(message.ns));
  }

  /** In an unshared message, the additional records are distinct and in no other section. */
  lemma {:induction false} InExtra(message: Message)
    requires Unshared(message.Records())
    ensures Unshared(message.extra)
    ensures forall i, j :: 0 <= i < |message.extra| && 0 <= j < |message.answer| ==> message.extra[i] != message.answer[j]
    ensures forall i, j :: 0 <= i < |message.extra| && 0 <= j < |message.ns| ==> message.extra[i] != message.ns[j]
  {
    var n, m := |message.answer|, |message.answer| + |message.ns|;
    var all := message.Records();
    assert forall i :: 0 <= i < |message.answer| ==> all[i] == message.answer[i];
    assert forall i :: 0 <= i < |message.ns| ==> all[n + i] == message.ns[i];
    assert forall i :: 0 <= i < |message.extra| ==> all[m + i] == message.extra[i];
  }

  lemma {:induction false} NoneBefore(options: seq<EdnsOption>, n: nat, k: nat)
    requires k < n <= |options| && Subnets(options[..n]) == []
    ensures !options[k].Subnet?
  {
    var head := options[..n];
    assert head == head[..k] + head[k..];
    SubnetsAppend(head[..k], head[k..]);
  }

  lemma {:induction false} FirstOptionIs(options: seq<EdnsOption>, j: nat)
    requires j <= |options| && Subnets(options[..j]) == [] && (j < |options| ==> options[j].Subnet?)
    ensures FirstOption(options) == j
  {
    var f := FirstOption(options);
    if f < j {
      NoneBefore(options, j, f);
    } else if j < f {
      NoneBefore(options, f, j);
    }
  }

  lemma {:induction false} NoRecordBefore(extra: seq<RR>, n: nat, k: nat)
    requires k < n <= |extra| && AllSubnets(extra[..n]) == []
    ensures Subnets(OptionsOf(extra[k])) == []
  {
    SplitAt(extra[..n], k);
  }

  lemma {:induction false} FirstRecordIs(extra: seq<RR>, i: nat)
    requires i <= |extra| && AllSubnets(extra[..i]) == [] && (i < |extra| ==> Subnets(OptionsOf(extra[i])) != [])
    ensures FirstRecord(extra) == i
  {
    hide AllSubnets, Subnets;
    var f := FirstRecord(extra);
    if f < i {
      NoRecordBefore(extra, i, f);
      ReplaceFirst(extra[f].data.options, ClientSubnet(0, 0, []));
    } else if i < f {
      NoRecordBefore(extra, f, i);
    }
  }

  /** The record and the option to edit, -1 for none: the first client subnet, or else the last record if it is an OPT. */
  method FindSubnet(message: Message) returns (record: int, option: int)
    ensures
      var extra := Values(message.extra);
      if FirstRecord(extra) < |extra| then record == FirstRecord(extra) && option == FirstOption(extra[record].data.options)
      else option == -1 && record == if EndsInOPT(extra) then |extra| - 1 else -1
  {
    hide AllSubnets, Subnets, FirstRecord, FirstOption;
    record, option := -1, -1;
    ghost var extra := Values(message.extra);
    assert AllSubnets(extra[..0]) == [] by {
      NoRecords(extra);
    }
    for i := 0 to |message.extra|
      invariant AllSubnets(extra[..i]) == [] && option == -1
      invariant record == if i > 0 && extra[i - 1].data.OPT? then i - 1 else -1
    {
      NextRecord(extra, i);
      assert extra[i] == message.extra[i].Value();
      if message.extra[i].data.OPT? {
        record := i;
        var options := message.extra[i].data.options;
        option := ScanOptions(options);
        if option >= 0 {
          FirstRecordIs(extra, i);
          return;
        }
      } else {
        record := -1;
        NoOptions();
      }
    }
    assert extra[..|extra|] == extra;
    FirstRecordIs(extra, |extra|);
  }

  lemma {:induction false} NoRecords(extra: seq<RR>)
    ensures AllSubnets(extra[..0]) == []
  {
  }

  lemma {:induction false} NoOptions()
    ensures Subnets([]) == []
  {
  }

  method ScanOptions(options: seq<EdnsOption>) returns (option: int)
    ensures if Subnets(options) == [] then option == -1 else option == FirstOption(options) && 0 <= option < |options|
  {
    for j := 0 to |options|
      invariant Subnets(options[..j]) == []
    {
      NextOption(options, j);
      if options[j].Subnet? {
        FirstOptionIs(options, j);
        assert options == options[..j + 1] + options[j + 1..];
        SubnetsAppend(options[..j + 1], options[j + 1..]);
        return j;
      }
    }
    assert options[..|options|] == options;
    return -1;
  }

  /** Edits one record of a message in place: the first client subnet, or a new one in the last record. */
  method EditClientSubnet(message: Message, subnet: ClientSubnet)
    requires Unshared(message.Records())
    requires FirstRecord(Values(message.extra)) < |message.extra| || EndsInOPT(Values(message.extra))
    modifies message.extra
    ensures message.Value() == old(message.Value()).(extra := WithSubnet(old(message.Value()).extra, subnet))
  {
    hide FirstRecord, FirstOption;
    ghost var before := Values(message.extra);
    var at, option := FindSubnet(message);
    InExtra(message);
    var record := message.extra[at];
    assert before[at] == record.Value();
    if option < 0 {
      record.data := OPT(record.data.options + [Subnet(subnet)]);
    } else {
      record.data := OPT(record.data.options[option := Subnet(subnet)]);
    }
    assert Values(message.extra) == before[at := record.Value()];
    assert Values(message.answer) == old(Values(message.answer)) && Values(message.ns) == old(Values(message.ns));
  }

  /** A message that shares the records of another and has one more. */
  method AddOPT(message: Message, subnet: ClientSubnet) returns (sent: Message)
    requires FirstRecord(Values(message.extra)) == |message.extra| && !EndsInOPT(Values(message.extra))
    ensures sent.Value() == message.Value().(extra := WithSubnet(message.Value().extra, subnet))
  {
    hide FirstRecord, FirstOption;
    var record := new Record(NewOPT([Subnet(subnet)]));
    sent := new Message(message.id, message.rcode, message.question, message.answer, message.ns, message.extra + [record]);
    assert Values(sent.extra) == Values(message.extra) + [record.Value()];
  }

  /** A copy with the subnet; there is a record to edit. */
  method EditCopy(message: Message, subnet: ClientSubnet) returns (sent: Message)
    requires FirstRecord(Values(message.extra)) < |message.extra| || EndsInOPT(Values(message.extra))
    ensures sent.Value() == message.Value().(extra := WithSubnet(message.Value().extra, subnet))
  {
    hide FirstRecord, FirstOption, WithSubnet, EndsInOPT;
    sent := message.Copy();
    assert Values(sent.extra) == Values(message.extra);
    EditClientSubnet(sent, subnet);
  }

  /** A message with the subnet demanded; the message passed in keeps its own. */
  method SetClientSubnet(message: Message, prefix: Prefix) returns (sent: Message)
    requires prefix.IsValid()
    ensures sent.Value() == message.Value().(extra := WithSubnet(message.Value().extra, SubnetOf(prefix)))
  {
    hide FirstRecord, FirstOption, WithSubnet;
    var at, option := FindSubnet(message);
    if at < 0 {
      sent := AddOPT(message, SubnetOf(prefix));
    } else {
      sent := EditCopy(message, SubnetOf(prefix));
    }
  }

  /** The message a client sends for a query; the caller's message is not touched. */
  method PrepareExchangeMessage(message: Message, options: QueryOptions, client: Prefix) returns (sent: Message)
    ensures sent.Value() == Prepared(message.Value(), options, client)
  {
    hide WithSubnet, WithoutSubnets;
    if options.removeClientSubnet {
      sent := RemoveClientSubnet(message);
      return;
    }
    var demanded := if options.clientSubnet.Some? then options.clientSubnet.value else NO_PREFIX;
    if !demanded.IsValid() {
      demanded := client;
    }
    sent := message;
    if demanded.IsValid() {
      sent := SetClientSubnet(message, demanded);
    }
  }
}
