/** Records, messages and query options shared by the resolver's components. */
module Dns {

  datatype Option<+T> = None | Some(value: T)

  function Min(a: nat, b: nat): nat { if a < b then a else b }

  function Max(a: nat, b: nat): nat { if a < b then b else a }

  const TYPE_A: nat := 1
  const TYPE_AAAA: nat := 28
  const TYPE_CNAME: nat := 5
  const TYPE_OPT: nat := 41

  const RCODE_SUCCESS: int := 0
  const RCODE_NAME_ERROR: int := 3
  const RCODE_REFUSED: int := 5

  type byte = x: int | 0 <= x < 256

  /** An address prefix: 4 or 16 address bytes and a length, -1 when the length does not fit the address. */
  datatype Prefix = Prefix(address: seq<byte>, bits: int) {
    predicate IsValid() {
      (|address| == 4 && 0 <= bits <= 32) || (|address| == 16 && 0 <= bits <= 128)
    }
  }

  const NO_PREFIX := Prefix([], -1)

  /** A client subnet as an OPT record carries it. */
  datatype ClientSubnet = ClientSubnet(family: nat, netmask: byte, address: seq<byte>)

  /** An option of an OPT record; a client subnet has code 8. */
  datatype EdnsOption =
    | Subnet(subnet: ClientSubnet)
    | Local(number: nat)

  const EDNS_SUBNET: nat := 8

  function Code(option: EdnsOption): nat {
    match option
    case Subnet(_) => EDNS_SUBNET
    case Local(number) => number
  }

  /** The payload of a record: what Go's type switch on the record sees. An address that is none is the empty string. */
  datatype RData =
    | A(address: string)
    | AAAA(address: string)
    | CNAME(target: string)
    | SOA(minimum: nat)
    | OPT(options: seq<EdnsOption>)
    | HTTPS(hints: seq<string>)
    | Other(payload: nat)

  /** A record: its header (`name`, `rrtype`, `ttl`) and its payload. */
  datatype RR = RR(name: string, rrtype: nat, ttl: nat, data: RData)

  datatype Question = Question(name: string, qtype: nat, qclass: nat)

  datatype Msg = Msg(id: nat, rcode: int, question: seq<Question>, answer: seq<RR>, ns: seq<RR>, extra: seq<RR>)

  /** What a cached response is filed under; `subnet` is NO_PREFIX for a query without one. */
  datatype CacheKey = CacheKey(question: Question, transport: string, subnet: Prefix, environment: nat)

  function Valid(addresses: seq<string>): seq<string> {
    if addresses == [] then []
    else (if addresses[0] != "" then [addresses[0]] else []) + Valid(addresses[1..])
  }

  function AddressesOf(data: RData): seq<string> {
    match data
    case A(address) => Valid([address])
    case AAAA(address) => Valid([address])
    case HTTPS(hints) => Valid(hints)
    case _ => []
  }

  /** The addresses among answer records, address hints included. */
  function Addresses(records: seq<RR>): seq<string> {
    if records == [] then [] else AddressesOf(records[0].data) + Addresses(records[1..])
  }

  /** The addresses of a successful response. */
  function MessageAddresses(response: Msg): seq<string> {
    if response.rcode != RCODE_SUCCESS then [] else Addresses(response.answer)
  }

  /** The record holds an address: its own, or a hint. */
  ghost predicate HoldsAddress(r: RR) {
    || (r.data.A? && r.data.address != "")
    || (r.data.AAAA? && r.data.address != "")
    || (r.data.HTTPS? && exists k :: 0 <= k < |r.data.hints| && r.data.hints[k] != "")
  }

  lemma {:induction false} SomeValid(addresses: seq<string>)
    ensures Valid(addresses) != [] <==> exists k :: 0 <= k < |addresses| && addresses[k] != ""
  {
    if addresses != [] {
      var rest := addresses[1..];
      SomeValid(rest);
      assert forall k :: 0 < k < |addresses| ==> addresses[k] == rest[k - 1];
      if k :| 0 <= k < |rest| && rest[k] != "" {
        assert addresses[k + 1] == rest[k];
      }
    }
  }

  /** There is an address exactly when some record holds one. */
  lemma {:induction false} SomeAddress(records: seq<RR>)
    ensures Addresses(records) != [] <==> exists k :: 0 <= k < |records| && HoldsAddress(records[k])
  {
    hide HoldsAddress, AddressesOf;
    if records != [] {
      var rest := records[1..];
      SomeAddress(rest);
      OneHolds(records[0]);
      assert forall k :: 0 < k < |records| ==> records[k] == rest[k - 1];
      if k :| 0 <= k < |rest| && HoldsAddress(rest[k]) {
        assert records[k + 1] == rest[k];
      }
    }
  }

  lemma {:induction false} OneHolds(r: RR)
    ensures AddressesOf(r.data) != [] <==> HoldsAddress(r)
  {
    match r.data
    case A(address) => SomeValid([address]);
    case AAAA(address) => SomeValid([address]);
    case HTTPS(hints) => SomeValid(hints);
    case _ =>
  }

  datatype Transport = Transport(tag: string, fakeIP: bool)

  datatype Error = MissingResponse | Cancelled | Dropped | ExchangeFailed(code: nat)

  /** What one exchange with a server yields. */
  datatype Outcome = Reply(msg: Msg) | Failed(error: Error)

  /** The response seen through an outcome: nil when the exchange failed. */
  function View(outcome: Outcome): Option<Msg> {
    match outcome
    case Reply(msg) => Some(msg)
    case Failed(_) => None
  }

  function ErrorOf(outcome: Outcome): Option<Error> {
    match outcome
    case Reply(_) => None
    case Failed(error) => Some(error)
  }

  datatype Strategy = AsIs | PreferIPv4 | PreferIPv6 | IPv4Only | IPv6Only

  datatype QueryOptions = QueryOptions(
    strategy: Strategy,
    disableCache: bool,
    disableOptimisticCache: bool,
    rewriteTTL: Option<nat>,
    timeout: nat,
    clientSubnet: Option<Prefix>,
    removeClientSubnet: bool)

  const ZERO_OPTIONS := QueryOptions(AsIs, false, false, None, 0, None, false)

  /** The options a rule action adds to a query. */
  datatype RouteOptions = RouteOptions(
    disableCache: bool,
    disableOptimisticCache: bool,
    rewriteTTL: Option<nat>,
    timeout: nat,
    clientSubnet: Option<Prefix>,
    removeClientSubnet: bool)

  /** applyDNSRouteOptions: a rule's options laid over the ones in effect. */
  function ApplyRouteOptions(options: QueryOptions, add: RouteOptions): QueryOptions {
    var o1 := if add.disableCache then options.(disableCache := true) else options;
    var o2 := if add.disableOptimisticCache then o1.(disableOptimisticCache := true) else o1;
    var o3 := if add.rewriteTTL.Some? then o2.(rewriteTTL := add.rewriteTTL) else o2;
    var o4 := if add.timeout > 0 then o3.(timeout := add.timeout) else o3;
    var o5 := if add.clientSubnet.Some? then o4.(clientSubnet := add.clientSubnet, removeClientSubnet := false) else o4;
    if add.removeClientSubnet then o5.(clientSubnet := None, removeClientSubnet := true) else o5
  }

  /** A query either carries a subnet or has it removed. */
  predicate Exclusive(options: QueryOptions) {
    options.removeClientSubnet ==> options.clientSubnet.None?
  }

  /** A rule's options win over those in effect, applying them again changes nothing, and what a rule leaves unset stays. */
  lemma {:induction false} RouteOptionsWin(options: QueryOptions, add: RouteOptions)
    requires Exclusive(options)
    ensures
      var after := ApplyRouteOptions(options, add);
      && Exclusive(after)
      && ApplyRouteOptions(after, add) == after
      && (add.removeClientSubnet ==> after.removeClientSubnet)
      && (add.clientSubnet.Some? && !add.removeClientSubnet ==> after.clientSubnet == add.clientSubnet && !after.removeClientSubnet)
      && (add == RouteOptions(false, false, None, 0, None, false) ==> after == options)
  {
  }
}
