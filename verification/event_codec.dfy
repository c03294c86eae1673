/**
 * The marketplace events on the wire: fixed-width BCS, 32-byte addresses and little-endian 64-bit
 * integers with no length prefixes, against the decoders the server reads them with.
 */
module EventCodec {
  import opened Common

  newtype byte = x: int | 0 <= x < 256

  type Bytes = seq<byte>

  const ADDR_SIZE := 32
  const U64_SIZE := 8
  const TWO64 := 0x1_0000_0000_0000_0000

  // ----- Hex text -----

  predicate IsHexDigit(c: char) {
    '0' <= c <= '9' || 'a' <= c <= 'f' || 'A' <= c <= 'F'
  }

  predicate IsHex(s: string) {
    forall i :: 0 <= i < |s| ==> IsHexDigit(s[i])
  }

  function DigitValue(c: char): (v: nat)
    requires IsHexDigit(c)
    ensures v < 16
  {
    if '0' <= c <= '9' then (c - '0') as nat
    else if 'a' <= c <= 'f' then (c - 'a') as nat + 10
    else (c - 'A') as nat + 10
  }

  function HexChar(v: nat): (c: char)
    requires v < 16
    ensures IsHexDigit(c) && DigitValue(c) == v
  {
    if v < 10 then '0' + v as char else 'a' + (v - 10) as char
  }

  lemma CharOfDigit(c: char)
    requires IsHexDigit(c)
    ensures HexChar(DigitValue(c)) == ToLower(c)
  {
  }

  /** `padStart(64, '0')`. */
  function PadStart(s: string, width: nat): string
    decreases width - |s|
  {
    if |s| >= width then s else PadStart("0" + s, width)
  }

  function Strip0x(hex: string): string {
    if "0x" <= hex then hex[2..] else hex
  }

  function Pad32(hex: string): string {
    "0x" + PadStart(Strip0x(hex), 64)
  }

  /** At most 32 bytes' worth of hex digits, with or without the prefix. */
  predicate IsId(hex: string) {
    |Strip0x(hex)| <= 64 && IsHex(Strip0x(hex))
  }

  lemma {:induction false} PadStartIs64(s: string, width: nat)
    requires |s| <= width && IsHex(s)
    ensures |PadStart(s, width)| == width && IsHex(PadStart(s, width))
    decreases width - |s|
  {
    if |s| < width {
      PadStartIs64("0" + s, width);
    }
  }

  function PairValue(c: char, d: char): byte
    requires IsHexDigit(c) && IsHexDigit(d)
  {
    (DigitValue(c) * 16 + DigitValue(d)) as byte
  }

  function HexPair(b: byte): string {
    [HexChar(b as int / 16), HexChar(b as int % 16)]
  }

  lemma SplitByte(x: nat, y: nat)
    requires y < 16
    ensures (x * 16 + y) / 16 == x && (x * 16 + y) % 16 == y
  {
  }

  lemma PairOfValue(c: char, d: char)
    requires IsHexDigit(c) && IsHexDigit(d)
    ensures HexPair(PairValue(c, d)) == [ToLower(c), ToLower(d)]
  {
    SplitByte(DigitValue(c), DigitValue(d));
    CharOfDigit(c);
    CharOfDigit(d);
  }

  lemma ValueOfPair(b: byte)
    ensures IsHexDigit(HexPair(b)[0]) && IsHexDigit(HexPair(b)[1])
    ensures PairValue(HexPair(b)[0], HexPair(b)[1]) == b
  {
    assert b as int == b as int / 16 * 16 + b as int % 16;
  }

  function FromHex(s: string): Bytes
    requires |s| % 2 == 0 && IsHex(s)
  {
    if s == "" then [] else [PairValue(s[0], s[1])] + FromHex(s[2..])
  }

  function ToHex(bytes: Bytes): string {
    if bytes == [] then "" else HexPair(bytes[0]) + ToHex(bytes[1..])
  }

  lemma HexCons(b: byte, rest: Bytes, pair: string)
    requires HexPair(b) == pair
    ensures ToHex([b] + rest) == pair + ToHex(rest)
  {
    assert ([b] + rest)[1..] == rest;
  }

  lemma FromHexCons(c: char, d: char, rest: string)
    requires IsHexDigit(c) && IsHexDigit(d) && |rest| % 2 == 0 && IsHex(rest)
    ensures var s := [c, d] + rest;
            |s| % 2 == 0 && IsHex(s) && FromHex(s) == [PairValue(c, d)] + FromHex(rest)
  {
    assert ([c, d] + rest)[2..] == rest;
  }

  lemma LowerPair(s: string)
    requires |s| >= 2
    ensures Lower(s) == [ToLower(s[0]), ToLower(s[1])] + Lower(s[2..])
  {
  }

  lemma {:induction false} HexRoundTrip(s: string)
    requires |s| % 2 == 0 && IsHex(s)
    ensures |FromHex(s)| * 2 == |s| && ToHex(FromHex(s)) == Lower(s)
    decreases |s|
  {
    if s != "" {
      var c, d, rest := s[0], s[1], s[2..];
      assert s == [c, d] + rest;
      HexRoundTrip(rest);
      FromHexCons(c, d, rest);
      PairOfValue(c, d);
      HexCons(PairValue(c, d), FromHex(rest), [ToLower(c), ToLower(d)]);
      LowerPair(s);
    }
  }

  lemma {:induction false} BytesRoundTrip(bytes: Bytes)
    ensures |ToHex(bytes)| == 2 * |bytes| && IsHex(ToHex(bytes)) && FromHex(ToHex(bytes)) == bytes
    decreases |bytes|
  {
    if bytes != [] {
      BytesRoundTrip(bytes[1..]);
      ValueOfPair(bytes[0]);
      assert ToHex(bytes)[2..] == ToHex(bytes[1..]);
    }
  }

  // ----- Integers -----

  /** A hex digit is one of twenty-two characters, whose value is its place among those of its case. */
  lemma HexDigitsAre(c: char)
    ensures IsHexDigit(c) <==> c in "0123456789abcdef" || c in "0123456789ABCDEF"
    ensures IsHexDigit(c) ==>
              "0123456789abcdef"[DigitValue(c)] == c || "0123456789ABCDEF"[DigitValue(c)] == c
  {
    assert forall i :: 0 <= i < 10 ==> "0123456789abcdef"[i] == "0123456789ABCDEF"[i] == '0' + i as char;
    assert forall i :: 10 <= i < 16 ==>
             "0123456789abcdef"[i] == 'a' + (i - 10) as char && "0123456789ABCDEF"[i] == 'A' + (i - 10) as char;
  }

  /** The low `n` bytes of `v`, least significant first. */
  function LittleEndian(v: nat, n: nat): Bytes {
    if n == 0 then [] else [(v % 256) as byte] + LittleEndian(v / 256, n - 1)
  }

  function ValueOf(bytes: Bytes): nat {
    if bytes == [] then 0 else bytes[0] as nat + 256 * ValueOf(bytes[1..])
  }

  function Power256(n: nat): nat {
    if n == 0 then 1 else 256 * Power256(n - 1)
  }

  lemma {:induction false} ValueOfLittleEndian(v: nat, n: nat)
    ensures |LittleEndian(v, n)| == n && Power256(n) > 0
    ensures ValueOf(LittleEndian(v, n)) == v % Power256(n)
    decreases n
  {
    if n > 0 {
      ValueOfLittleEndian(v / 256, n - 1);
      assert LittleEndian(v, n)[1..] == LittleEndian(v / 256, n - 1);
      ModSplit(v, Power256(n - 1));
    }
  }

  lemma ModSplit(v: nat, p: nat)
    requires p > 0
    ensures v % (256 * p) == v % 256 + 256 * ((v / 256) % p)
  {
    var q, r := (v / 256) / p, (v / 256) % p;
    assert v / 256 == q * p + r;
    assert v == 256 * (q * p + r) + v % 256;
    assert 256 * (q * p + r) == (256 * p) * q + 256 * r;
    assert 0 <= v % 256 + 256 * r < 256 * p;
    DivModUnique(v, 256 * p, q, v % 256 + 256 * r);
  }

  lemma DivModUnique(v: nat, d: nat, q: nat, r: nat)
    requires d > 0 && v == d * q + r && r < d
    ensures v % d == r
  {
    var k := q - v / d;
    assert d * k == d * q - d * (v / d);
    assert v == d * (v / d) + v % d;
    Multiple(d, k);
  }

  lemma Multiple(d: int, k: int)
    requires d >= 0
    ensures k >= 1 ==> d * k >= d
    ensures k <= -1 ==> d * k <= -d
  {
    assert d * k == d + d * (k - 1);
    assert d * k == -d + d * (k + 1);
    assert k >= 1 ==> d * (k - 1) >= 0;
    assert k <= -1 ==> d * (k + 1) <= 0;
  }

  lemma {:induction false} LittleEndianOfValue(bytes: Bytes)
    ensures LittleEndian(ValueOf(bytes), |bytes|) == bytes
    decreases |bytes|
  {
    if bytes != [] {
      LittleEndianOfValue(bytes[1..]);
      assert ValueOf(bytes) % 256 == bytes[0] as nat && ValueOf(bytes) / 256 == ValueOf(bytes[1..]);
    }
  }

  lemma Power256Of8()
    ensures Power256(8) == TWO64
  {
    assert Power256(2) == 65_536;
    assert Power256(4) == 65_536 * 65_536;
    assert Power256(6) == 65_536 * 65_536 * 65_536;
  }

  // ----- Writing, in loops over fresh buffers -----

  lemma NextPair(s: string, i: nat)
    requires IsHex(s) && 2 * i + 1 < |s|
    ensures FromHex(s[..2 * (i + 1)]) == FromHex(s[..2 * i]) + [PairValue(s[2 * i], s[2 * i + 1])]
  {
    FromHexSnoc(s[..2 * i], s[2 * i], s[2 * i + 1]);
    assert s[..2 * i] + [s[2 * i], s[2 * i + 1]] == s[..2 * (i + 1)];
  }

  method AddrBytes(hex: string) returns (out: array<byte>)
    requires IsId(hex)
    ensures out[..] == Address(hex) && fresh(out)
  {
    var stripped := Pad32(hex)[2..];
    PadStartIs64(Strip0x(hex), 64);
    out := new byte[32](_ => 0);
    for i := 0 to 32
      invariant out[..i] == FromHex(stripped[..2 * i])
    {
      NextPair(stripped, i);
      out[i] := PairValue(stripped[2 * i], stripped[2 * i + 1]);
    }
    assert stripped[..64] == stripped;
    assert out[..32] == out[..];
  }

  lemma {:induction false} FromHexSnoc(s: string, c: char, d: char)
    requires |s| % 2 == 0 && IsHex(s) && IsHexDigit(c) && IsHexDigit(d)
    ensures FromHex(s + [c, d]) == FromHex(s) + [PairValue(c, d)]
    decreases |s|
  {
    if s == "" {
      assert s + [c, d] == [c, d];
      assert [c, d][2..] == "";
    } else {
      FromHexSnoc(s[2..], c, d);
      assert (s + [c, d])[2..] == s[2..] + [c, d];
    }
  }

  lemma LittleEndianHead(v: nat, n: nat)
    requires n > 0
    ensures LittleEndian(v, n) == [(v % 256) as byte] + LittleEndian(v / 256, n - 1)
  {
  }

  /** One more byte written, one fewer to come. */
  lemma LittleEndianMoves(whole: Bytes, done: Bytes, v: nat, n: nat)
    requires n > 0 && whole == done + LittleEndian(v, n)
    ensures whole == (done + [(v % 256) as byte]) + LittleEndian(v / 256, n - 1)
  {
    LittleEndianHead(v, n);
  }

  method U64Bytes(value: nat) returns (out: array<byte>)
    ensures out[..] == LittleEndian(value, U64_SIZE) && fresh(out)
  {
    out := new byte[8](_ => 0);
    var v := value;
    ghost var whole := LittleEndian(value, 8);
    for i := 0 to 8
      invariant whole == out[..i] + LittleEndian(v, 8 - i)
    {
      LittleEndianMoves(whole, out[..i], v, 8 - i);
      ghost var done := out[..i];
      out[i] := (v % 256) as byte;
      assert out[..i + 1] == done + [out[i]];
      v := v / 256;
    }
    assert out[..8] == out[..];
  }

  /** The 32 bytes of an id written in hex. */
  function Address(hex: string): Bytes
    requires IsId(hex)
  {
    PadStartIs64(Strip0x(hex), 64);
    FromHex(Pad32(hex)[2..])
  }

  lemma AddressIs32(hex: string)
    requires IsId(hex)
    ensures |Address(hex)| == ADDR_SIZE && "0x" + ToHex(Address(hex)) == Lower(Pad32(hex))
  {
    PadStartIs64(Strip0x(hex), 64);
    var digits := Pad32(hex)[2..];
    HexRoundTrip(digits);
    assert Pad32(hex) == ['0', 'x'] + digits;
    assert Lower(Pad32(hex)) == ['0', 'x'] + Lower(digits);
  }

  // ----- Reading -----

  datatype Field = AddressAt(offset: nat) | U64At(offset: nat)

  type Read<T> = Result<T, Field>

  function AddressIn(bytes: Bytes, offset: nat): Read<string> {
    if offset + ADDR_SIZE > |bytes| then Err(AddressAt(offset))
    else Ok("0x" + ToHex(bytes[offset..offset + ADDR_SIZE]))
  }

  function U64In(bytes: Bytes, offset: nat): Read<nat> {
    if offset + U64_SIZE > |bytes| then Err(U64At(offset))
    else Ok(ValueOf(bytes[offset..offset + U64_SIZE]))
  }

  lemma ToHexCons(b: byte, bytes: Bytes)
    ensures ToHex([b] + bytes) == HexPair(b) + ToHex(bytes)
  {
    assert ([b] + bytes)[1..] == bytes;
  }

  lemma {:induction false} ToHexSnoc(bytes: Bytes, b: byte)
    ensures ToHex(bytes + [b]) == ToHex(bytes) + HexPair(b)
    decreases |bytes|
  {
    if bytes == [] {
      ToHexCons(b, []);
      assert bytes + [b] == [b] + [];
    } else {
      var pair, rest := HexPair(bytes[0]), ToHex(bytes[1..]);
      ToHexSnoc(bytes[1..], b);
      ToHexCons(bytes[0], bytes[1..] + [b]);
      assert bytes + [b] == [bytes[0]] + (bytes[1..] + [b]);
      assert pair + (rest + HexPair(b)) == pair + rest + HexPair(b);
    }
  }

  lemma {:induction false} ValueOfSnoc(bytes: Bytes, b: byte)
    ensures ValueOf(bytes + [b]) == ValueOf(bytes) + b as nat * Power256(|bytes|)
    decreases |bytes|
  {
    if bytes == [] {
      assert bytes + [b] == [b];
      assert [b][1..] == [];
    } else {
      ValueOfSnoc(bytes[1..], b);
      assert (bytes + [b])[1..] == bytes[1..] + [b];
      assert b as nat * Power256(|bytes|) == 256 * (b as nat * Power256(|bytes| - 1));
    }
  }

  method ReadAddress(bytes: Bytes, offset: nat) returns (r: Read<string>)
    ensures r == AddressIn(bytes, offset)
  {
    if offset + ADDR_SIZE > |bytes| {
      return Err(AddressAt(offset));
    }
    var hex := "";
    for i := 0 to ADDR_SIZE
      invariant hex == ToHex(bytes[offset..offset + i])
    {
      ToHexSnoc(bytes[offset..offset + i], bytes[offset + i]);
      assert bytes[offset..offset + i] + [bytes[offset + i]] == bytes[offset..offset + i + 1];
      hex := hex + HexPair(bytes[offset + i]);
    }
    return Ok("0x" + hex);
  }

  /** Disjoint bytes: the source's bitwise or is addition. */
  method ReadU64LE(bytes: Bytes, offset: nat) returns (r: Read<nat>)
    ensures r == U64In(bytes, offset)
  {
    if offset + U64_SIZE > |bytes| {
      return Err(U64At(offset));
    }
    var v, place := 0, 1;
    for i := 0 to U64_SIZE
      invariant v == ValueOf(bytes[offset..offset + i]) && place == Power256(i)
    {
      ValueOfSnoc(bytes[offset..offset + i], bytes[offset + i]);
      assert bytes[offset..offset + i] + [bytes[offset + i]] == bytes[offset..offset + i + 1];
      v := v + bytes[offset + i] as nat * place;
      place := place * 256;
    }
    return Ok(v);
  }

  // ----- The four events -----

  datatype Event =
    | KioskCreated(kioskId: string, owner: string)
    | ItemListed(kioskId: string, itemId: string, price: nat, seller: string)
    | ItemDelisted(kioskId: string, itemId: string, seller: string)
    | ItemPurchased(kioskId: string, itemId: string, buyer: string, price: nat, royaltyPaid: nat)

  datatype Kind = Created | Listed | Delisted | Purchased

  function KindOf(e: Event): Kind {
    match e
    case KioskCreated(_, _) => Created
    case ItemListed(_, _, _, _) => Listed
    case ItemDelisted(_, _, _) => Delisted
    case ItemPurchased(_, _, _, _, _) => Purchased
  }

  function Size(k: Kind): nat {
    match k
    case Created => 64
    case Listed => 104
    case Delisted => 96
    case Purchased => 112
  }

  predicate HasIds(e: Event) {
    match e
    case KioskCreated(k, o) => IsId(k) && IsId(o)
    case ItemListed(k, i, _, s) => IsId(k) && IsId(i) && IsId(s)
    case ItemDelisted(k, i, s) => IsId(k) && IsId(i) && IsId(s)
    case ItemPurchased(k, i, b, _, _) => IsId(k) && IsId(i) && IsId(b)
  }

  function U64(v: nat): Bytes {
    LittleEndian(v, U64_SIZE)
  }

  function Encode(e: Event): Bytes
    requires HasIds(e)
  {
    match e
    case KioskCreated(k, o) => Address(k) + Address(o)
    case ItemListed(k, i, price, s) => Address(k) + Address(i) + U64(price) + Address(s)
    case ItemDelisted(k, i, s) => Address(k) + Address(i) + Address(s)
    case ItemPurchased(k, i, b, price, royalty) => Address(k) + Address(i) + Address(b) + U64(price) + U64(royalty)
  }

  /** Fields are read in order; the first that does not fit is the error. */
  method Decode(k: Kind, bytes: Bytes) returns (r: Read<Event>)
    ensures r == Decoded(k, bytes)
  {
    var first := ReadAddress(bytes, 0);
    if first.Err? { return Err(first.error); }
    var second := ReadAddress(bytes, 32);
    if second.Err? { return Err(second.error); }
    match k {
      case Created =>
        return Ok(KioskCreated(first.value, second.value));
      case Listed =>
        var price := ReadU64LE(bytes, 64);
        if price.Err? { return Err(price.error); }
        var seller := ReadAddress(bytes, 72);
        if seller.Err? { return Err(seller.error); }
        return Ok(ItemListed(first.value, second.value, price.value, seller.value));
      case Delisted =>
        var seller := ReadAddress(bytes, 64);
        if seller.Err? { return Err(seller.error); }
        return Ok(ItemDelisted(first.value, second.value, seller.value));
      case Purchased =>
        var buyer := ReadAddress(bytes, 64);
        if buyer.Err? { return Err(buyer.error); }
        var price := ReadU64LE(bytes, 96);
        if price.Err? { return Err(price.error); }
        var royalty := ReadU64LE(bytes, 104);
        if royalty.Err? { return Err(royalty.error); }
        return Ok(ItemPurchased(first.value, second.value, buyer.value, price.value, royalty.value));
    }
  }

  /** The first field, in reading order, that runs past the end of the bytes. */
  function Underrun(k: Kind, length: nat): (f: Option<Field>)
    ensures f.None? <==> length >= Size(k)
  {
    if length < 32 then Some(AddressAt(0))
    else if length < 64 then Some(AddressAt(32))
    else
      match k
      case Created => None
      case Listed =>
        if length < 72 then Some(U64At(64)) else if length < 104 then Some(AddressAt(72)) else None
      case Delisted => if length < 96 then Some(AddressAt(64)) else None
      case Purchased =>
        if length < 96 then Some(AddressAt(64))
        else if length < 104 then Some(U64At(96))
        else if length < 112 then Some(U64At(104))
        else None
  }

  /** The fields of each event in reading order. */
  function Layout(k: Kind): seq<Field> {
    match k
    case Created => [AddressAt(0), AddressAt(32)]
    case Listed => [AddressAt(0), AddressAt(32), U64At(64), AddressAt(72)]
    case Delisted => [AddressAt(0), AddressAt(32), AddressAt(64)]
    case Purchased => [AddressAt(0), AddressAt(32), AddressAt(64), U64At(96), U64At(104)]
  }

  function EndOf(f: Field): nat {
    match f
    case AddressAt(offset) => offset + 32
    case U64At(offset) => offset + 8
  }

  /** Fields follow one another without a gap, up to the event's size; the error is the first that does not fit. */
  lemma UnderrunIsTheFirst(k: Kind, length: nat, i: nat)
    requires i < |Layout(k)|
    ensures var fields := Layout(k);
            fields[i].offset == (if i == 0 then 0 else EndOf(fields[i - 1])) &&
            EndOf(fields[|fields| - 1]) == Size(k) &&
            (Underrun(k, length) == Some(fields[i]) <==>
               length < EndOf(fields[i]) && (i > 0 ==> length >= EndOf(fields[i - 1])))
  {
  }

  function Text(bytes: Bytes, offset: nat): string
    requires offset + 32 <= |bytes|
  {
    "0x" + ToHex(bytes[offset..offset + 32])
  }

  function Number(bytes: Bytes, offset: nat): nat
    requires offset + 8 <= |bytes|
  {
    ValueOf(bytes[offset..offset + 8])
  }

  /** Bytes beyond the event's size are ignored. */
  function Decoded(k: Kind, bytes: Bytes): Read<Event> {
    if Underrun(k, |bytes|).Some? then Err(Underrun(k, |bytes|).value)
    else
      match k
      case Created => Ok(KioskCreated(Text(bytes, 0), Text(bytes, 32)))
      case Listed => Ok(ItemListed(Text(bytes, 0), Text(bytes, 32), Number(bytes, 64), Text(bytes, 72)))
      case Delisted => Ok(ItemDelisted(Text(bytes, 0), Text(bytes, 32), Text(bytes, 64)))
      case Purchased =>
        Ok(ItemPurchased(Text(bytes, 0), Text(bytes, 32), Text(bytes, 64), Number(bytes, 96), Number(bytes, 104)))
  }

  /** What comes back of an event: ids padded to 32 bytes in lower case, amounts modulo 2^64. */
  function Normal(e: Event): Event {
    match e
    case KioskCreated(k, o) => KioskCreated(Lower(Pad32(k)), Lower(Pad32(o)))
    case ItemListed(k, i, price, s) =>
      ItemListed(Lower(Pad32(k)), Lower(Pad32(i)), price % TWO64, Lower(Pad32(s)))
    case ItemDelisted(k, i, s) => ItemDelisted(Lower(Pad32(k)), Lower(Pad32(i)), Lower(Pad32(s)))
    case ItemPurchased(k, i, b, price, royalty) =>
      ItemPurchased(Lower(Pad32(k)), Lower(Pad32(i)), Lower(Pad32(b)), price % TWO64, royalty % TWO64)
  }

  lemma U64Is8(v: nat)
    ensures |U64(v)| == U64_SIZE && ValueOf(U64(v)) == v % TWO64
  {
    ValueOfLittleEndian(v, 8);
    Power256Of8();
  }

  /**
   * Decoding what was encoded gives the event back in normal form, whatever follows it in the bytes;
   * each event has its fixed size.
   */
  lemma RoundTrip(e: Event, rest: Bytes)
    requires HasIds(e)
    ensures |Encode(e)| == Size(KindOf(e))
    ensures Decoded(KindOf(e), Encode(e) + rest) == Ok(Normal(e))
  {
    if e.KioskCreated? {
      CreatedRoundTrip(e, rest);
    } else if e.ItemListed? {
      ListedRoundTrip(e, rest);
    } else if e.ItemDelisted? {
      DelistedRoundTrip(e, rest);
    } else {
      PurchasedRoundTrip(e, rest);
    }
  }

  lemma CreatedRoundTrip(e: Event, rest: Bytes)
    requires HasIds(e) && e.KioskCreated?
    ensures |Encode(e)| == Size(KindOf(e)) && Decoded(KindOf(e), Encode(e) + rest) == Ok(Normal(e))
  {
    AddressIs32(e.kioskId);
    AddressIs32(e.owner);
    Two(Address(e.kioskId), Address(e.owner), rest);
  }

  lemma ListedRoundTrip(e: Event, rest: Bytes)
    requires HasIds(e) && e.ItemListed?
    ensures |Encode(e)| == Size(KindOf(e)) && Decoded(KindOf(e), Encode(e) + rest) == Ok(Normal(e))
  {
    AddressIs32(e.kioskId);
    AddressIs32(e.itemId);
    AddressIs32(e.seller);
    U64Is8(e.price);
    Four(Address(e.kioskId), Address(e.itemId), U64(e.price), Address(e.seller), rest);
  }

  lemma DelistedRoundTrip(e: Event, rest: Bytes)
    requires HasIds(e) && e.ItemDelisted?
    ensures |Encode(e)| == Size(KindOf(e)) && Decoded(KindOf(e), Encode(e) + rest) == Ok(Normal(e))
  {
    AddressIs32(e.kioskId);
    AddressIs32(e.itemId);
    AddressIs32(e.seller);
    Three(Address(e.kioskId), Address(e.itemId), Address(e.seller), rest);
  }

  lemma PurchasedRoundTrip(e: Event, rest: Bytes)
    requires HasIds(e) && e.ItemPurchased?
    ensures |Encode(e)| == Size(KindOf(e)) && Decoded(KindOf(e), Encode(e) + rest) == Ok(Normal(e))
  {
    AddressIs32(e.kioskId);
    AddressIs32(e.itemId);
    AddressIs32(e.buyer);
    U64Is8(e.price);
    U64Is8(e.royaltyPaid);
    Five(Address(e.kioskId), Address(e.itemId), Address(e.buyer), U64(e.price), U64(e.royaltyPaid), rest);
  }

  lemma Two(a: Bytes, b: Bytes, rest: Bytes)
    requires |a| == 32 && |b| == 32
    ensures (a + b + rest)[0..32] == a && (a + b + rest)[32..64] == b
  {
  }

  lemma Three(a: Bytes, b: Bytes, c: Bytes, rest: Bytes)
    requires |a| == 32 && |b| == 32 && |c| == 32
    ensures var all := a + b + c + rest; all[0..32] == a && all[32..64] == b && all[64..96] == c
  {
  }

  lemma Four(a: Bytes, b: Bytes, c: Bytes, d: Bytes, rest: Bytes)
    requires |a| == 32 && |b| == 32 && |c| == 8 && |d| == 32
    ensures var all := a + b + c + d + rest;
            all[0..32] == a && all[32..64] == b && all[64..72] == c && all[72..104] == d
  {
  }

  lemma Five(a: Bytes, b: Bytes, c: Bytes, d: Bytes, e: Bytes, rest: Bytes)
    requires |a| == 32 && |b| == 32 && |c| == 32 && |d| == 8 && |e| == 8
    ensures var all := a + b + c + d + e + rest;
            all[0..32] == a && all[32..64] == b && all[64..96] == c && all[96..104] == d && all[104..112] == e
  {
  }

  /** An event already in normal form comes back unchanged. */
  lemma NormalRoundTrip(e: Event)
    requires HasIds(e) && Normal(e) == e
    ensures Decoded(KindOf(e), Encode(e)) == Ok(e)
  {
    RoundTrip(e, []);
    assert Encode(e) + [] == Encode(e);
  }

  lemma TextIsId(bytes: Bytes, offset: nat)
    requires offset + 32 <= |bytes|
    ensures IsId(Text(bytes, offset)) && Address(Text(bytes, offset)) == bytes[offset..offset + 32]
  {
    BytesRoundTrip(bytes[offset..offset + 32]);
    var digits := ToHex(bytes[offset..offset + 32]);
    assert Strip0x("0x" + digits) == digits;
    assert PadStart(digits, 64) == digits;
    assert Pad32("0x" + digits)[2..] == digits;
  }

  /** Decoding fails exactly on bytes shorter than the event, and loses nothing of the ones it reads. */
  lemma DecodeThenEncode(k: Kind, bytes: Bytes)
    ensures Decoded(k, bytes).Ok? <==> |bytes| >= Size(k)
    ensures Decoded(k, bytes).Ok? ==>
              var e := Decoded(k, bytes).value;
              KindOf(e) == k && HasIds(e) && Encode(e) == bytes[..Size(k)]
  {
    if |bytes| >= Size(k) {
      match k
      case Created => CreatedBack(bytes);
      case Listed => ListedBack(bytes);
      case Delisted => DelistedBack(bytes);
      case Purchased => PurchasedBack(bytes);
    }
  }

  lemma NumberBack(bytes: Bytes, offset: nat)
    requires offset + 8 <= |bytes|
    ensures U64(Number(bytes, offset)) == bytes[offset..offset + 8]
  {
    LittleEndianOfValue(bytes[offset..offset + 8]);
  }

  lemma Join(bytes: Bytes, b: nat, c: nat)
    requires b <= c <= |bytes|
    ensures bytes[..b] + bytes[b..c] == bytes[..c]
  {
  }

  lemma CreatedBack(bytes: Bytes)
    requires |bytes| >= 64
    ensures var e := Decoded(Created, bytes).value; e.KioskCreated? && HasIds(e) && Encode(e) == bytes[..64]
  {
    var kiosk, owner := Text(bytes, 0), Text(bytes, 32);
    assert Decoded(Created, bytes).value == KioskCreated(kiosk, owner);
    TextIsId(bytes, 0);
    TextIsId(bytes, 32);
    Join(bytes, 32, 64);
  }

  lemma ListedOf(kiosk: string, item: string, price: nat, seller: string, a: Bytes, b: Bytes, c: Bytes, d: Bytes)
    requires IsId(kiosk) && IsId(item) && IsId(seller)
    requires Address(kiosk) == a && Address(item) == b && U64(price) == c && Address(seller) == d
    ensures var e := ItemListed(kiosk, item, price, seller); HasIds(e) && Encode(e) == a + b + c + d
  {
  }

  lemma ListedBack(bytes: Bytes)
    requires |bytes| >= 104
    ensures var e := Decoded(Listed, bytes).value; e.ItemListed? && HasIds(e) && Encode(e) == bytes[..104]
  {
    var kiosk, item, price, seller := Text(bytes, 0), Text(bytes, 32), Number(bytes, 64), Text(bytes, 72);
    assert Decoded(Listed, bytes).value == ItemListed(kiosk, item, price, seller);
    ThreeIds(bytes, 72);
    NumberBack(bytes, 64);
    FourJoin(bytes);
    ListedOf(kiosk, item, price, seller, bytes[..32], bytes[32..64], bytes[64..72], bytes[72..104]);
  }

  lemma DelistedOf(kiosk: string, item: string, seller: string, a: Bytes, b: Bytes, c: Bytes)
    requires IsId(kiosk) && IsId(item) && IsId(seller)
    requires Address(kiosk) == a && Address(item) == b && Address(seller) == c
    ensures var e := ItemDelisted(kiosk, item, seller); HasIds(e) && Encode(e) == a + b + c
  {
  }

  lemma DelistedBack(bytes: Bytes)
    requires |bytes| >= 96
    ensures var e := Decoded(Delisted, bytes).value; e.ItemDelisted? && HasIds(e) && Encode(e) == bytes[..96]
  {
    var kiosk, item, seller := Text(bytes, 0), Text(bytes, 32), Text(bytes, 64);
    assert Decoded(Delisted, bytes).value == ItemDelisted(kiosk, item, seller);
    ThreeIds(bytes, 64);
    ThreeJoin(bytes);
    DelistedOf(kiosk, item, seller, bytes[..32], bytes[32..64], bytes[64..96]);
  }

  lemma PurchasedOf(kiosk: string, item: string, buyer: string, price: nat, royalty: nat,
                    a: Bytes, b: Bytes, c: Bytes, d: Bytes, f: Bytes)
    requires IsId(kiosk) && IsId(item) && IsId(buyer)
    requires Address(kiosk) == a && Address(item) == b && Address(buyer) == c && U64(price) == d && U64(royalty) == f
    ensures var e := ItemPurchased(kiosk, item, buyer, price, royalty); HasIds(e) && Encode(e) == a + b + c + d + f
  {
  }

  lemma FiveJoin(bytes: Bytes)
    requires |bytes| >= 112
    ensures bytes[..32] + bytes[32..64] + bytes[64..96] + bytes[96..104] + bytes[104..112] == bytes[..112]
  {
    Join(bytes, 32, 64);
    Join(bytes, 64, 96);
    Join(bytes, 96, 104);
    Join(bytes, 104, 112);
  }

  lemma ThreeJoin(bytes: Bytes)
    requires |bytes| >= 96
    ensures bytes[..32] + bytes[32..64] + bytes[64..96] == bytes[..96]
  {
    Join(bytes, 32, 64);
    Join(bytes, 64, 96);
  }

  lemma FourJoin(bytes: Bytes)
    requires |bytes| >= 104
    ensures bytes[..32] + bytes[32..64] + bytes[64..72] + bytes[72..104] == bytes[..104]
  {
    Join(bytes, 32, 64);
    Join(bytes, 64, 72);
    Join(bytes, 72, 104);
  }

  lemma PurchasedBack(bytes: Bytes)
    requires |bytes| >= 112
    ensures var e := Decoded(Purchased, bytes).value; e.ItemPurchased? && HasIds(e) && Encode(e) == bytes[..112]
  {
    var kiosk, item, buyer := Text(bytes, 0), Text(bytes, 32), Text(bytes, 64);
    var price, royalty := Number(bytes, 96), Number(bytes, 104);
    assert Decoded(Purchased, bytes).value == ItemPurchased(kiosk, item, buyer, price, royalty);
    ThreeIds(bytes, 64);
    NumberBack(bytes, 96);
    NumberBack(bytes, 104);
    FiveJoin(bytes);
    PurchasedOf(kiosk, item, buyer, price, royalty,
                bytes[..32], bytes[32..64], bytes[64..96], bytes[96..104], bytes[104..112]);
  }

  lemma ThreeIds(bytes: Bytes, third: nat)
    requires 64 <= third && third + 32 <= |bytes|
    ensures IsId(Text(bytes, 0)) && Address(Text(bytes, 0)) == bytes[..32]
    ensures IsId(Text(bytes, 32)) && Address(Text(bytes, 32)) == bytes[32..64]
    ensures IsId(Text(bytes, third)) && Address(Text(bytes, third)) == bytes[third..third + 32]
  {
    TextIsId(bytes, 0);
    TextIsId(bytes, 32);
    TextIsId(bytes, third);
  }
}
