/** The stored form of a downloaded binary: its encoding and decoding. */
module SavedBinary {
  import opened Dns

  const HASH_SIZE: nat := 16
  const VERSION: byte := 2

  /** An instant: seconds since the epoch as a signed 64-bit number, and nanoseconds. */
  datatype Time = Time(seconds: int, nanoseconds: nat)

  const TWO_63: int := 0x8000_0000_0000_0000
  const TWO_64: int := 0x1_0000_0000_0000_0000

  datatype Saved = Saved(hash: seq<byte>, content: seq<byte>, lastUpdated: Time, lastEtag: seq<byte>, urlHash: seq<byte>)

  /** What a value of the Go type satisfies: a full hash, a 64-bit time, and fields that fit in memory. */
  predicate Representable(s: Saved) {
    && |s.hash| == HASH_SIZE
    && -TWO_63 <= s.lastUpdated.seconds < TWO_63
    && |s.content| < TWO_63 && |s.lastEtag| < TWO_63 && |s.urlHash| < TWO_63
  }

  // ---------------------------------------------------------------- encoding

  /** Base 128, least significant first; every byte but the last has its top bit set. */
  function Uvarint(n: nat): seq<byte> {
    if n < 128 then [n] else [n % 128 + 128] + Uvarint(n / 128)
  }

  function Blob(bytes: seq<byte>): seq<byte> {
    Uvarint(|bytes|) + bytes
  }

  function BigEndian(u: nat, width: nat): seq<byte> {
    if width == 0 then [] else BigEndian(u / 256, width - 1) + [u % 256]
  }

  /** Two's complement. */
  function Unsigned(i: int): nat
    requires -TWO_63 <= i < TWO_63
  {
    if i < 0 then i + TWO_64 else i
  }

  function Signed(u: nat): int {
    if u >= TWO_63 then u - TWO_64 else u
  }

  function Encoded(s: Saved): seq<byte>
    requires Representable(s)
  {
    [VERSION] + (Blob(s.hash) + (Blob(s.content) + (BigEndian(Unsigned(s.lastUpdated.seconds), 8) + (Blob(s.lastEtag) + Blob(s.urlHash)))))
  }

  // ---------------------------------------------------------------- decoding

  datatype Step<+T> = Bad | Good(value: T, rest: seq<byte>)

  /** A base 128 number from its byte `i` on: at most ten bytes, and no more than 64 bits. */
  function ReadUvarint(data: seq<byte>, i: nat): Step<nat>
    decreases |data|
  {
    if data == [] || i > 9 then Bad
    else if data[0] < 128 then (if i == 9 && data[0] > 1 then Bad else Good(data[0], data[1..]))
    else
      match ReadUvarint(data[1..], i + 1)
      case Bad => Bad
      case Good(value, rest) => Good(data[0] - 128 + 128 * value, rest)
  }

  function ReadBytes(data: seq<byte>, n: nat): Step<seq<byte>> {
    if n > |data| then Bad else Good(data[..n], data[n..])
  }

  function ReadBlob(data: seq<byte>): Step<seq<byte>> {
    match ReadUvarint(data, 0)
    case Bad => Bad
    case Good(n, rest) => ReadBytes(rest, n)
  }

  function Number(bytes: seq<byte>): nat {
    if bytes == [] then 0 else 256 * Number(bytes[..|bytes| - 1]) + bytes[|bytes| - 1]
  }

  function ReadInt64(data: seq<byte>): Step<int> {
    if |data| < 8 then Bad else Good(Signed(Number(data[..8])), data[8..])
  }

  /** What decoding makes of a value: the fields read before an error are assigned, the others are kept. */
  function Decoded(before: Saved, data: seq<byte>): (Saved, bool) {
    if data == [] then (before, false) else DecodedHash(before, data[0], data[1..])
  }

  function DecodedHash(before: Saved, version: byte, data: seq<byte>): (Saved, bool) {
    match ReadBlob(data)
    case Bad => (before, false)
    case Good(hash, rest) =>
      if |hash| != HASH_SIZE then (before, false) else DecodedContent(before.(hash := hash), version, rest)
  }

  function DecodedContent(before: Saved, version: byte, data: seq<byte>): (Saved, bool) {
    match ReadBlob(data)
    case Bad => (before, false)
    case Good(content, rest) => DecodedTime(before.(content := content), version, rest)
  }

  function DecodedTime(before: Saved, version: byte, data: seq<byte>): (Saved, bool) {
    match ReadInt64(data)
    case Bad => (before, false)
    case Good(seconds, rest) => DecodedEtag(before.(lastUpdated := Time(seconds, 0)), version, rest)
  }

  function DecodedEtag(before: Saved, version: byte, data: seq<byte>): (Saved, bool) {
    match ReadBlob(data)
    case Bad => (before, false)
    case Good(etag, rest) =>
      if version < 2 then (before.(lastEtag := etag), true) else DecodedURLHash(before.(lastEtag := etag), rest)
  }

  function DecodedURLHash(before: Saved, data: seq<byte>): (Saved, bool) {
    match ReadBlob(data)
    case Bad => (before, false)
    case Good(urlHash, _) => (before.(urlHash := urlHash), true)
  }

  // ---------------------------------------------------------------- what is written is what is read

  /** How large a number may be that starts at byte `i`. */
  function Limit(i: nat): nat
    requires i <= 9
    decreases 9 - i
  {
    if i == 9 then 2 else 128 * Limit(i + 1)
  }

  lemma {:induction false} LimitIs64Bits()
    ensures Limit(0) == TWO_64
  {
    assert Limit(8) == 256;
    assert Limit(6) == 0x40_0000;
    assert Limit(4) == 0x10_0000_0000;
    assert Limit(2) == 0x4_0000_0000_0000;
  }

  lemma {:induction false} UvarintReads(n: nat, i: nat, rest: seq<byte>)
    requires i <= 9 && n < Limit(i)
    ensures ReadUvarint(Uvarint(n) + rest, i) == Good(n, rest)
    decreases 9 - i
  {
    var data := Uvarint(n) + rest;
    if n < 128 {
      assert data[1..] == rest;
    } else {
      assert i < 9;
      assert data[1..] == Uvarint(n / 128) + rest;
      UvarintReads(n / 128, i + 1, rest);
    }
  }

  /** A number cut short is not read. */
  lemma {:induction false} UvarintCutShort(n: nat, i: nat, cut: seq<byte>)
    requires cut < Uvarint(n)
    ensures ReadUvarint(cut, i).Bad?
    decreases n
  {
    if cut != [] {
      assert n >= 128;
      assert cut[1..] < Uvarint(n / 128);
      UvarintCutShort(n / 128, i + 1, cut[1..]);
    }
  }

  lemma {:induction false} BlobReads(bytes: seq<byte>, rest: seq<byte>)
    requires |bytes| < TWO_63
    ensures ReadBlob(Blob(bytes) + rest) == Good(bytes, rest)
  {
    LimitIs64Bits();
    assert Blob(bytes) + rest == Uvarint(|bytes|) + (bytes + rest);
    UvarintReads(|bytes|, 0, bytes + rest);
  }

  lemma {:induction false} BlobCutShort(bytes: seq<byte>, cut: seq<byte>)
    requires |bytes| < TWO_63 && cut < Blob(bytes)
    ensures ReadBlob(cut).Bad?
  {
    var size := Uvarint(|bytes|);
    if |cut| < |size| {
      assert cut < size;
      UvarintCutShort(|bytes|, 0, cut);
    } else {
      LimitIs64Bits();
      assert cut == size + cut[|size|..];
      UvarintReads(|bytes|, 0, cut[|size|..]);
    }
  }

  function Power256(width: nat): nat {
    if width == 0 then 1 else 256 * Power256(width - 1)
  }

  lemma {:induction false} BigEndianReads(u: nat, width: nat)
    requires u < Power256(width)
    ensures |BigEndian(u, width)| == width && Number(BigEndian(u, width)) == u
  {
    if width > 0 {
      BigEndianReads(u / 256, width - 1);
      assert BigEndian(u, width)[..width - 1] == BigEndian(u / 256, width - 1);
    }
  }

  lemma {:induction false} Power256Is64Bits()
    ensures Power256(8) == TWO_64
  {
    assert Power256(2) == 0x1_0000;
    assert Power256(4) == 0x1_0000_0000;
    assert Power256(6) == 0x1_0000_0000_0000;
  }

  lemma {:induction false} Int64Reads(i: int, rest: seq<byte>)
    requires -TWO_63 <= i < TWO_63
    ensures |BigEndian(Unsigned(i), 8)| == 8 && ReadInt64(BigEndian(Unsigned(i), 8) + rest) == Good(i, rest)
  {
    Power256Is64Bits();
    BigEndianReads(Unsigned(i), 8);
    var bytes := BigEndian(Unsigned(i), 8);
    assert (bytes + rest)[..8] == bytes && (bytes + rest)[8..] == rest;
  }

  function ToTheSecond(s: Saved): Saved {
    s.(lastUpdated := Time(s.lastUpdated.seconds, 0))
  }

  /** Decoding an encoding gives back every field, the time to the second, whatever was there before and whatever follows. */
  lemma {:induction false} RoundTrip(s: Saved, before: Saved, extra: seq<byte>)
    requires Representable(s)
    ensures Decoded(before, Encoded(s) + extra) == (ToTheSecond(s), true)
  {
    hide ReadBlob, ReadInt64, Blob, BigEndian;
    var time := BigEndian(Unsigned(s.lastUpdated.seconds), 8);
    var d5 := Blob(s.urlHash) + extra;
    var d4 := Blob(s.lastEtag) + d5;
    var d3 := time + d4;
    var d2 := Blob(s.content) + d3;
    var d1 := Blob(s.hash) + d2;
    assert Encoded(s) + extra == [VERSION] + d1;
    BlobReads(s.hash, d2);
    BlobReads(s.content, d3);
    Int64Reads(s.lastUpdated.seconds, d4);
    BlobReads(s.lastEtag, d5);
    BlobReads(s.urlHash, extra);
  }

  /** A file as written before the hash of the URL was stored. */
  function EncodedBefore2(version: byte, s: Saved): seq<byte>
    requires Representable(s)
  {
    [version] + (Blob(s.hash) + (Blob(s.content) + (BigEndian(Unsigned(s.lastUpdated.seconds), 8) + Blob(s.lastEtag))))
  }

  /** Such a file decodes to every field it has; the hash of the URL is kept, and what follows is not read. */
  lemma {:induction false} OlderFilesDecode(version: byte, s: Saved, before: Saved, extra: seq<byte>)
    requires Representable(s) && version < 2
    ensures Decoded(before, EncodedBefore2(version, s) + extra) == (ToTheSecond(s).(urlHash := before.urlHash), true)
  {
    hide ReadBlob, ReadInt64, Blob, BigEndian;
    var time := BigEndian(Unsigned(s.lastUpdated.seconds), 8);
    var d4 := Blob(s.lastEtag) + extra;
    var d3 := time + d4;
    var d2 := Blob(s.content) + d3;
    var d1 := Blob(s.hash) + d2;
    assert EncodedBefore2(version, s) + extra == [version] + d1;
    BlobReads(s.hash, d2);
    BlobReads(s.content, d3);
    Int64Reads(s.lastUpdated.seconds, d4);
    BlobReads(s.lastEtag, extra);
  }

  /** A number without its `k` lowest bytes. */
  function WithoutBytes(n: nat, k: nat): nat
    decreases k
  {
    if k == 0 then n else WithoutBytes(n / 256, k - 1)
  }

  /** A number without its `k` lowest groups of seven bits. */
  function WithoutGroups(n: nat, k: nat): nat
    decreases k
  {
    if k == 0 then n else WithoutGroups(n / 128, k - 1)
  }

  /** The bytes of a fixed-width number are its digits, the highest first. */
  lemma {:induction false} BigEndianDigits(u: nat, width: nat, k: nat)
    requires k < width
    ensures |BigEndian(u, width)| == width && BigEndian(u, width)[k] == WithoutBytes(u, width - 1 - k) % 256
  {
    if k < width - 1 {
      BigEndianDigits(u / 256, width - 1, k);
    } else if width > 1 {
      BigEndianDigits(u / 256, width - 1, 0);
    }
  }

  /** The bytes of a length are its seven-bit digits, the lowest first, with the top bit set on all but the last. */
  lemma {:induction false} UvarintDigits(n: nat, k: nat)
    requires k < |Uvarint(n)|
    ensures Uvarint(n)[k] == WithoutGroups(n, k) % 128 + (if k + 1 < |Uvarint(n)| then 128 else 0)
    ensures k + 1 == |Uvarint(n)| ==> WithoutGroups(n, k) < 128
    decreases n
  {
    if n >= 128 && k > 0 {
      UvarintDigits(n / 128, k - 1);
    }
  }

  /** A cut in a concatenation falls into the first part or into the second. */
  lemma {:induction false} CutFalls(a: seq<byte>, b: seq<byte>, cut: seq<byte>)
    requires cut < a + b
    ensures cut < a || (|a| <= |cut| && cut == a + cut[|a|..] && cut[|a|..] < b)
  {
    if |cut| < |a| {
      assert cut < a;
    } else {
      assert cut == a + cut[|a|..];
    }
  }

  lemma {:induction false} URLHashCutShort(s: Saved, before: Saved, cut: seq<byte>)
    requires Representable(s) && cut < Blob(s.urlHash)
    ensures !DecodedURLHash(before, cut).1
  {
    BlobCutShort(s.urlHash, cut);
  }

  lemma {:induction false} EtagCutShort(s: Saved, before: Saved, cut: seq<byte>)
    requires Representable(s) && cut < Blob(s.lastEtag) + Blob(s.urlHash)
    ensures !DecodedEtag(before, VERSION, cut).1
  {
    hide Blob, ReadBlob;
    var part := Blob(s.lastEtag);
    CutFalls(part, Blob(s.urlHash), cut);
    if cut < part {
      BlobCutShort(s.lastEtag, cut);
    } else {
      BlobReads(s.lastEtag, cut[|part|..]);
      URLHashCutShort(s, before.(lastEtag := s.lastEtag), cut[|part|..]);
    }
  }

  lemma {:induction false} TimeCutShort(s: Saved, before: Saved, cut: seq<byte>)
    requires Representable(s) && cut < BigEndian(Unsigned(s.lastUpdated.seconds), 8) + (Blob(s.lastEtag) + Blob(s.urlHash))
    ensures !DecodedTime(before, VERSION, cut).1
  {
    hide Blob, DecodedEtag, BigEndian;
    var part := BigEndian(Unsigned(s.lastUpdated.seconds), 8);
    Int64Reads(s.lastUpdated.seconds, []);
    CutFalls(part, Blob(s.lastEtag) + Blob(s.urlHash), cut);
    if |part| <= |cut| {
      Int64Reads(s.lastUpdated.seconds, cut[|part|..]);
      EtagCutShort(s, before.(lastUpdated := Time(s.lastUpdated.seconds, 0)), cut[|part|..]);
    }
  }

  lemma {:induction false} ContentCutShort(s: Saved, before: Saved, cut: seq<byte>)
    requires Representable(s)
    requires cut < Blob(s.content) + (BigEndian(Unsigned(s.lastUpdated.seconds), 8) + (Blob(s.lastEtag) + Blob(s.urlHash)))
    ensures !DecodedContent(before, VERSION, cut).1
  {
    hide Blob, ReadBlob, DecodedTime, BigEndian;
    var part := Blob(s.content);
    CutFalls(part, BigEndian(Unsigned(s.lastUpdated.seconds), 8) + (Blob(s.lastEtag) + Blob(s.urlHash)), cut);
    if cut < part {
      BlobCutShort(s.content, cut);
    } else {
      BlobReads(s.content, cut[|part|..]);
      TimeCutShort(s, before.(content := s.content), cut[|part|..]);
    }
  }

  /** No strict prefix of an encoding decodes. */
  lemma {:induction false} NoPrefixDecodes(s: Saved, before: Saved, cut: seq<byte>)
    requires Representable(s) && cut < Encoded(s)
    ensures !Decoded(before, cut).1
  {
    hide Blob, ReadBlob, DecodedContent, BigEndian;
    var tail := Blob(s.content) + (BigEndian(Unsigned(s.lastUpdated.seconds), 8) + (Blob(s.lastEtag) + Blob(s.urlHash)));
    CutFalls([VERSION], Blob(s.hash) + tail, cut);
    if cut != [] {
      assert cut[0] == VERSION;
      var after := cut[1..];
      CutFalls(Blob(s.hash), tail, after);
      if after < Blob(s.hash) {
        BlobCutShort(s.hash, after);
      } else {
        BlobReads(s.hash, after[|Blob(s.hash)|..]);
        ContentCutShort(s, before.(hash := s.hash), after[|Blob(s.hash)|..]);
      }
    }
  }

  /** Two values with the same encoding agree, and neither encoding is the start of the other's. */
  lemma {:induction false} EncodingIsPrefixFree(a: Saved, b: Saved)
    requires Representable(a) && Representable(b) && Encoded(a) <= Encoded(b)
    ensures ToTheSecond(a) == ToTheSecond(b)
  {
    hide Decoded, Encoded;
    RoundTrip(a, a, []);
    RoundTrip(b, a, []);
    assert Encoded(a) + [] == Encoded(a) && Encoded(b) + [] == Encoded(b);
    if Encoded(a) < Encoded(b) {
      NoPrefixDecodes(b, a, Encoded(a));
    } else {
      assert Encoded(a) == Encoded(b)[..|Encoded(a)|] == Encoded(b);
    }
  }

  // ---------------------------------------------------------------- the code

  method WriteUvarint(n: nat) returns (bytes: seq<byte>)
    ensures bytes == Uvarint(n)
  {
    var x := n;
    bytes := [];
    while x >= 128
      invariant bytes + Uvarint(x) == Uvarint(n)
    {
      bytes := bytes + [x % 128 + 128];
      x := x / 128;
    }
    bytes := bytes + [x];
  }

  /** The unread part of the input. */
  class Reader {
    var rest: seq<byte>

    constructor (data: seq<byte>)
      ensures rest == data
    {
      rest := data;
    }

    /** Adds up the groups of seven bits as they come. */
    method Uvarint() returns (value: nat, ok: bool)
      modifies this
      ensures ReadUvarint(old(rest), 0) == if ok then Good(value, rest) else Bad
    {
      value := 0;
      var scale: nat := 1;
      for i := 0 to 10
        invariant ReadUvarint(old(rest), 0) == Scaled(value, scale, ReadUvarint(rest, i))
      {
        if rest == [] {
          return 0, false;
        }
        var b: nat := rest[0];
        ghost var data := rest;
        rest := rest[1..];
        if b < 128 {
          if i == 9 && b > 1 {
            return 0, false;
          }
          return value + scale * b, true;
        }
        ScaledOnce(value, scale, data, i);
        value := value + scale * (b - 128);
        scale := scale * 128;
      }
      return 0, false;
    }

    method Full(n: nat) returns (bytes: seq<byte>, ok: bool)
      modifies this
      ensures ReadBytes(old(rest), n) == if ok then Good(bytes, rest) else Bad
    {
      if n > |rest| {
        rest := [];
        return [], false;
      }
      bytes, rest, ok := rest[..n], rest[n..], true;
    }

    method LengthPrefixed() returns (bytes: seq<byte>, ok: bool)
      modifies this
      ensures ReadBlob(old(rest)) == if ok then Good(bytes, rest) else Bad
    {
      var n;
      n, ok := Uvarint();
      if !ok {
        return [], false;
      }
      bytes, ok := Full(n);
    }
  }

  function Scaled(value: nat, scale: nat, step: Step<nat>): Step<nat> {
    match step
    case Bad => Bad
    case Good(v, rest) => Good(value + scale * v, rest)
  }

  lemma {:induction false} ScaledOnce(value: nat, scale: nat, data: seq<byte>, i: nat)
    requires data != [] && data[0] >= 128 && i <= 9
    ensures Scaled(value, scale, ReadUvarint(data, i)) == Scaled(value + scale * (data[0] - 128), scale * 128, ReadUvarint(data[1..], i + 1))
  {
    var next := ReadUvarint(data[1..], i + 1);
    if next.Good? {
      var b, v := data[0] - 128, next.value;
      assert scale * (b + 128 * v) == scale * b + scale * 128 * v;
    }
  }

  class SavedFile {
    var hash: seq<byte>
    var content: seq<byte>
    var lastUpdated: Time
    var lastEtag: seq<byte>
    var urlHash: seq<byte>

    function Value(): Saved
      reads this
    {
      Saved(hash, content, lastUpdated, lastEtag, urlHash)
    }

    method MarshalBinary() returns (data: seq<byte>)
      requires Representable(Value())
      ensures data == Encoded(Value())
    {
      data := [VERSION];
      var size := WriteUvarint(|hash|);
      data := data + size + hash;
      size := WriteUvarint(|content|);
      data := data + size + content;
      data := data + BigEndian(Unsigned(lastUpdated.seconds), 8);
      size := WriteUvarint(|lastEtag|);
      data := data + size + lastEtag;
      size := WriteUvarint(|urlHash|);
      data := data + size + urlHash;
    }

    method UnmarshalBinary(data: seq<byte>) returns (ok: bool)
      modifies this
      ensures (Value(), ok) == Decoded(old(Value()), data)
    {
      hide ReadBlob, ReadInt64;
      if data == [] {
        return false;
      }
      var version := data[0];
      var reader := new Reader(data[1..]);
      var bytes;
      bytes, ok := reader.LengthPrefixed();
      if !ok || |bytes| != HASH_SIZE {
        return false;
      }
      hash := bytes;
      bytes, ok := reader.LengthPrefixed();
      if !ok {
        return;
      }
      content := bytes;
      ok := UnmarshalTail(reader, version);
    }

    /** The fields from the time on. */
    method UnmarshalTail(reader: Reader, version: byte) returns (ok: bool)
      modifies this, reader
      ensures (Value(), ok) == DecodedTime(old(Value()), version, old(reader.rest))
    {
      hide ReadBlob;
      var bytes;
      bytes, ok := reader.Full(8);
      if !ok {
        return;
      }
      lastUpdated := Time(Signed(Number(bytes)), 0);
      bytes, ok := reader.LengthPrefixed();
      if !ok {
        return;
      }
      lastEtag := bytes;
      if version < 2 {
        return true;
      }
      bytes, ok := reader.LengthPrefixed();
      if ok {
        urlHash := bytes;
      }
    }
  }
}
