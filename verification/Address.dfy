/**
 * Kaspa addresses: encoding, decoding, and what the checksum detects. A `string` is the UTF-8
 * bytes of a text, one character for each byte.
 */
module Address {
  import opened Bytes
  import opened BitStrings
  import opened Regroup
  import opened Checksum

  datatype Net = Kaspa | KaspaTest | KaspaSim | KaspaDev {
    function Text(): (t: string)
      ensures 5 <= |t| <= 9
    {
      match this
      case Kaspa => "kaspa"
      case KaspaTest => "kaspatest"
      case KaspaSim => "kaspasim"
      case KaspaDev => "kaspadev"
    }
  }

  datatype Error = UnknownPrefix | TooShort | InvalidCharacter | ChecksumMismatch | PayloadTooShort

  datatype Result<+T> = Ok(value: T) | Err(error: Error)

  type Payload = s: seq<byte> | |s| == 32 witness seq(32, i => 0)

  /** `CHARSET`. */
  function Char(v: Symbol): char {
    match v
    case 0 => 'q'
    case 1 => 'p'
    case 2 => 'z'
    case 3 => 'r'
    case 4 => 'y'
    case 5 => '9'
    case 6 => 'x'
    case 7 => '8'
    case 8 => 'g'
    case 9 => 'f'
    case 10 => '2'
    case 11 => 't'
    case 12 => 'v'
    case 13 => 'd'
    case 14 => 'w'
    case 15 => '0'
    case 16 => 's'
    case 17 => '3'
    case 18 => 'j'
    case 19 => 'n'
    case 20 => '5'
    case 21 => '4'
    case 22 => 'k'
    case 23 => 'h'
    case 24 => 'c'
    case 25 => 'e'
    case 26 => '6'
    case 27 => 'm'
    case 28 => 'u'
    case 29 => 'a'
    case 30 => '7'
    case _ => 'l'
  }

  /** `REV_CHARSET`, with nothing for the entries that mark a character invalid. */
  function Rev(c: char): (v: Option<Symbol>)
    ensures v.Some? ==> Char(v.value) == c
  {
    match c
    case '0' => Some(15)
    case '2' => Some(10)
    case '3' => Some(17)
    case '4' => Some(21)
    case '5' => Some(20)
    case '6' => Some(26)
    case '7' => Some(30)
    case '8' => Some(7)
    case '9' => Some(5)
    case 'a' => Some(29)
    case 'c' => Some(24)
    case 'd' => Some(13)
    case 'e' => Some(25)
    case 'f' => Some(9)
    case 'g' => Some(8)
    case 'h' => Some(23)
    case 'j' => Some(18)
    case 'k' => Some(22)
    case 'l' => Some(31)
    case 'm' => Some(27)
    case 'n' => Some(19)
    case 'p' => Some(1)
    case 'q' => Some(0)
    case 'r' => Some(3)
    case 's' => Some(16)
    case 't' => Some(11)
    case 'u' => Some(28)
    case 'v' => Some(12)
    case 'w' => Some(14)
    case 'x' => Some(6)
    case 'y' => Some(4)
    case 'z' => Some(2)
    case _ => None
  }

  lemma RevOfChar(v: Symbol)
    ensures Rev(Char(v)) == Some(v)
  {
  }

  // ---- numbers as bytes ----

  /** The low `n` bytes of `v`, big-endian. */
  function BeBytes(v: nat, n: nat): (r: seq<byte>)
    ensures |r| == n
  {
    if n == 0 then [] else BeBytes(v / 256, n - 1) + [v % 256]
  }

  /** `u64::from_be_bytes` of up to eight bytes. */
  function FromBe(b: seq<byte>): nat {
    if b == [] then 0 else 256 * FromBe(b[..|b| - 1]) + b[|b| - 1] as int
  }

  lemma {:induction false} FromBeIsBits(b: seq<byte>)
    ensures FromBe(b) == Value(Bits8(b))
  {
    if b != [] {
      var n := |b| - 1;
      FromBeIsBits(b[..n]);
      BitsOfByte(b[n]);
      hide BitsOf, Value;
      ValueConcat(Bits8(b[..n]), BitsOf(b[n], 8));
      SmallPowers();
    }
  }

  lemma {:induction false} FiveBytes(v: nat)
    requires v < POW40
    ensures FromBe(BeBytes(v, 5)) == v
  {
    var v1, v2, v3, v4 := v / 256, v / 256 / 256, v / 256 / 256 / 256, v / 256 / 256 / 256 / 256;
    var b1, b2, b3, b4 := BeBytes(v4, 1), BeBytes(v3, 2), BeBytes(v2, 3), BeBytes(v1, 4);
    assert b1 == BeBytes(v4 / 256, 0) + [v4 % 256] && b1[..0] == [];
    assert b2 == b1 + [v3 % 256] && b2[..1] == b1;
    assert b3 == b2 + [v2 % 256] && b3[..2] == b2;
    assert b4 == b3 + [v1 % 256] && b4[..3] == b3;
    var b5 := BeBytes(v, 5);
    assert b5 == b4 + [v % 256] && b5[..4] == b4;
    assert FromBe(b1) == v4;
    assert FromBe(b2) == v3;
    assert FromBe(b3) == v2;
    assert FromBe(b4) == v1;
  }

  /** Whole bytes spell the bits of the symbols they were regrouped from. */
  lemma {:induction false} BytesSpell(symbols: seq<Symbol>)
    requires |symbols| % 8 == 0
    ensures Bits8(ToBytes(symbols)) == Bits5(symbols)
  {
    hide Bits5, Bits8, BitsOf, Value, ToBytes;
    var bytes := ToBytes(symbols);
    var all := Bits5(symbols);
    assert 8 * |bytes| == |all|;
    hide *;
    forall k | 0 <= k < |all|
      ensures |Bits8(bytes)| == |all| && Bits8(bytes)[k] == all[k]
    {
      ByteSpells(symbols, k / 8);
      SameCut(Bits8(bytes), all, k);
    }
  }

  lemma {:induction false} SameCut(a: Bits, b: Bits, k: nat)
    requires |a| == |b| && k < |a| && |a| % 8 == 0
    requires k / 8 * 8 + 8 <= |a| && a[8 * (k / 8)..8 * (k / 8) + 8] == b[8 * (k / 8)..8 * (k / 8) + 8]
    ensures a[k] == b[k]
  {
    var i := k / 8;
    assert a[8 * i..8 * i + 8][k - 8 * i] == b[8 * i..8 * i + 8][k - 8 * i];
  }

  lemma {:induction false} ByteSpells(symbols: seq<Symbol>, i: nat)
    requires i < |ToBytes(symbols)|
    ensures 8 * i + 8 <= |Bits5(symbols)|
              && Bits8(ToBytes(symbols))[8 * i..8 * i + 8] == Bits5(symbols)[8 * i..8 * i + 8]
  {
    hide Bits5, Bits8, BitsOf, Value;
    Bits8At(ToBytes(symbols), i);
    BitsOfValue(Bits5(symbols)[8 * i..8 * i + 8]);
  }

  // ---- encode ----

  function Chars(symbols: seq<Symbol>): (s: string)
    ensures |s| == |symbols|
  {
    seq(|symbols|, i requires 0 <= i < |symbols| => Char(symbols[i]))
  }

  /** `c & 0x1f` of every character of the prefix. */
  function PrefixSymbols(net: Net): seq<Symbol> {
    var t := net.Text();
    seq(|t|, i requires 0 <= i < |t| => (t[i] as int) % 32)
  }

  function Head(net: Net): string {
    net.Text() + ":"
  }

  function Encoded(net: Net, version: byte, payload: Payload): string {
    var data := ToSymbols([version] + payload);
    Head(net) + Chars(data) + Chars(ToSymbols(BeBytes(ChecksumOf(PrefixSymbols(net), data), 5)))
  }

  /** `encode_address`. */
  method EncodeAddress(payload: Payload, version: byte, net: Net) returns (address: string)
    ensures address == Encoded(net, version, payload)
  {
    hide ToSymbols, ChecksumOf, BeBytes, Char, PrefixSymbols;
    var data8: seq<byte> := [version];
    data8 := data8 + payload;
    var fiveBitPayload := Conv8to5(data8);
    var cs := ChecksumValue(fiveBitPayload, PrefixSymbols(net));
    var cs5 := Conv8to5(BeBytes(cs, 5));
    address := Head(net);
    for i := 0 to |fiveBitPayload|
      invariant address == Head(net) + Chars(fiveBitPayload)[..i]
    {
      address := address + [Char(fiveBitPayload[i])];
    }
    ghost var front := address;
    assert front == Head(net) + Chars(fiveBitPayload);
    for i := 0 to |cs5|
      invariant address == front + Chars(cs5)[..i]
    {
      address := address + [Char(cs5[i])];
    }
    assert Chars(cs5)[..|cs5|] == Chars(cs5);
  }

  // ---- decode ----

  function StartsWith(s: string, t: string): bool {
    |t| <= |s| && s[..|t|] == t
  }

  function NetOf(address: string): (net: Option<Net>)
    ensures net.Some? ==> StartsWith(address, Head(net.value))
  {
    if StartsWith(address, Head(Kaspa)) then Some(Kaspa)
    else if StartsWith(address, Head(KaspaTest)) then Some(KaspaTest)
    else if StartsWith(address, Head(KaspaSim)) then Some(KaspaSim)
    else if StartsWith(address, Head(KaspaDev)) then Some(KaspaDev)
    else None
  }

  /** Every character of `s` is in the character set. */
  predicate AllValid(s: string) {
    forall i :: 0 <= i < |s| ==> Rev(s[i]).Some?
  }

  function Symbols(s: string): (r: seq<Symbol>)
    requires AllValid(s)
    ensures |r| == |s|
  {
    seq(|s|, i requires 0 <= i < |s| => Rev(s[i]).value)
  }

  /** The last eight symbols as the number they spell. */
  function Expected(symbols: seq<Symbol>): nat
    requires |symbols| >= 8
  {
    FromBe(ToBytes(symbols[|symbols| - 8..]))
  }

  function DecodedData(net: Net, data: string): Result<(byte, Payload)> {
    if |data| < 9 then Err(TooShort)
    else if !AllValid(data) then Err(InvalidCharacter)
    else
      var symbols := Symbols(data);
      var payload5 := symbols[..|symbols| - 8];
      if ChecksumOf(PrefixSymbols(net), payload5) != Expected(symbols) then Err(ChecksumMismatch)
      else
        var payload8 := ToBytes(payload5);
        if |payload8| < 33 then Err(PayloadTooShort) else Ok((payload8[0], payload8[1..33]))
  }

  function Decoded(address: string): Result<(byte, Payload)> {
    var net := NetOf(address);
    if net.None? then Err(UnknownPrefix) else DecodedData(net.value, address[|Head(net.value)|..])
  }

  method ReadSymbols(data: string) returns (r: Option<seq<Symbol>>)
    ensures r.None? <==> !AllValid(data)
    ensures r.Some? ==> r.value == Symbols(data)
  {
    hide Rev;
    var values5: seq<Symbol> := [];
    for i := 0 to |data|
      invariant AllValid(data[..i]) && values5 == Symbols(data[..i])
    {
      var v := Rev(data[i]);
      if v.None? {
        return None;
      }
      assert data[..i + 1] == data[..i] + [data[i]];
      values5 := values5 + [v.value];
    }
    assert data[..|data|] == data;
    return Some(values5);
  }

  /** `decode_address`. */
  method DecodeAddress(address: string) returns (r: Result<(byte, Payload)>)
    ensures r == Decoded(address)
  {
    hide ToBytes, ChecksumOf, FromBe, PrefixSymbols, Rev, Symbols;
    var net := NetOf(address);
    if net.None? {
      return Err(UnknownPrefix);
    }
    var dataPart := address[|Head(net.value)|..];
    if |dataPart| < 9 {
      return Err(TooShort);
    }
    var values5 := ReadSymbols(dataPart);
    if values5.None? {
      return Err(InvalidCharacter);
    }
    var n := |values5.value| - 8;
    var payload5, checksum5 := values5.value[..n], values5.value[n..];
    var computed := ChecksumValue(payload5, PrefixSymbols(net.value));
    var cs8 := Conv5to8(checksum5);
    if computed != FromBe(cs8) {
      return Err(ChecksumMismatch);
    }
    var payload8 := Conv5to8(payload5);
    if |payload8| < 33 {
      return Err(PayloadTooShort);
    }
    return Ok((payload8[0], payload8[1..33]));
  }

  // ---- round trip ----

  lemma {:induction false} NetOfHead(net: Net, rest: string)
    ensures NetOf(Head(net) + rest) == Some(net)
  {
    var a := Head(net) + rest;
    assert a[..|Head(net)|] == Head(net);
    match net {
      case Kaspa =>
      case KaspaTest => assert a[5] == 't';
      case KaspaSim => assert a[5] == 's';
      case KaspaDev => assert a[5] == 'd';
    }
  }

  lemma {:induction false} SymbolsOfChars(symbols: seq<Symbol>)
    ensures AllValid(Chars(symbols)) && Symbols(Chars(symbols)) == symbols
  {
    forall i | 0 <= i < |symbols|
      ensures Rev(Chars(symbols)[i]) == Some(symbols[i])
    {
      RevOfChar(symbols[i]);
      hide Rev, Char;
    }
    hide Rev, Char;
  }

  lemma {:induction false} ChecksumSymbols(cs: nat)
    requires cs < POW40
    ensures |ToSymbols(BeBytes(cs, 5))| == 8 && FromBe(ToBytes(ToSymbols(BeBytes(cs, 5)))) == cs
  {
    assert SymbolCount(5) == 8;
    RegroupRoundTrip(BeBytes(cs, 5));
    FiveBytes(cs);
    hide ToSymbols, ToBytes, FromBe, BeBytes;
  }

  lemma {:induction false} ChecksumFits(prefix: seq<Symbol>, payload: seq<Symbol>)
    ensures ChecksumOf(prefix, payload) < POW40
  {
    ResidueFits(prefix + [0] + payload + ZeroSymbols(8));
    hide Xor, Poly, Value;
  }

  /** Every version and payload survive, under all four prefixes. */
  lemma {:induction false} AddressRoundTrip(net: Net, version: byte, payload: Payload)
    ensures Decoded(Encoded(net, version, payload)) == Ok((version, payload))
  {
    hide ToSymbols, ToBytes, ChecksumOf, BeBytes, FromBe, PrefixSymbols, Chars, Symbols, Rev, Head, NetOf, AllValid;
    var bytes: seq<byte> := [version] + payload;
    var data := ToSymbols(bytes);
    assert |data| == 53 by {
      assert SymbolCount(33) == 53;
    }
    var cs := ChecksumOf(PrefixSymbols(net), data);
    var cs5 := ToSymbols(BeBytes(cs, 5));
    ChecksumFits(PrefixSymbols(net), data);
    ChecksumSymbols(cs);
    RegroupRoundTrip(bytes);
    var text := Chars(data) + Chars(cs5);
    assert Encoded(net, version, payload) == Head(net) + text;
    NetOfHead(net, text);
    CharsConcat(data, cs5);
    SymbolsOfChars(data + cs5);
    assert (data + cs5)[..53] == data && (data + cs5)[53..] == cs5;
    DecodedText(net, text, data, cs5);
    assert bytes[0] == version && bytes[1..33] == payload;
  }

  lemma {:induction false} CharsConcat(a: seq<Symbol>, b: seq<Symbol>)
    ensures Chars(a + b) == Chars(a) + Chars(b)
  {
    hide Char;
  }

  lemma {:induction false} DecodedText(net: Net, text: string, data: seq<Symbol>, cs5: seq<Symbol>)
    requires |data| == 53 && |cs5| == 8 && AllValid(text) && Symbols(text) == data + cs5
    requires ChecksumOf(PrefixSymbols(net), data) == FromBe(ToBytes(cs5)) && |ToBytes(data)| == 33
    requires NetOf(Head(net) + text) == Some(net)
    ensures Decoded(Head(net) + text) == Ok((ToBytes(data)[0], ToBytes(data)[1..33]))
  {
    hide ToBytes, ChecksumOf, FromBe, PrefixSymbols, Symbols, Head, NetOf, AllValid;
    assert (Head(net) + text)[|Head(net)|..] == text;
    assert |text| == 61;
    var all := data + cs5;
    assert all[..|all| - 8] == data && all[|all| - 8..] == cs5;
  }

  // ---- burst errors ----

  /** The address names a network, is long enough and well spelled, and its checksum matches. */
  predicate PassesChecksum(address: string) {
    var net := NetOf(address);
    && net.Some?
    && var data := address[|Head(net.value)|..];
    && |data| >= 9 && AllValid(data)
    && ChecksumOf(PrefixSymbols(net.value), Symbols(data)[..|data| - 8]) == Expected(Symbols(data))
  }

  /** The decoder gets past the checksum exactly with these. */
  lemma {:induction false} DecodedPasses(address: string)
    ensures PassesChecksum(address) <==> Decoded(address).Ok? || Decoded(address) == Err(PayloadTooShort)
  {
    hide ToBytes, ChecksumOf, FromBe, PrefixSymbols, Symbols, Head, NetOf, AllValid;
  }

  lemma {:induction false} PassesIsResidue(address: string)
    requires PassesChecksum(address)
    ensures Residue(PrefixSymbols(NetOf(address).value), Symbols(address[|Head(NetOf(address).value)|..]))
              == Checksum.One()
  {
    hide ToBytes, ChecksumOf, FromBe, PrefixSymbols, Head, NetOf, AllValid, Residue, Bits5, Bits8, Value, Rev;
    var net := NetOf(address).value;
    var symbols := Symbols(address[|Head(net)|..]);
    var n := |symbols| - 8;
    var cs := symbols[n..];
    ChecksumIsResidue(PrefixSymbols(net), symbols[..n], cs);
    BytesSpell(cs);
    FromBeIsBits(ToBytes(cs));
    assert symbols[..n] + cs == symbols;
  }

  /**
   * Two addresses of the same network and length that both pass cannot differ only in eight
   * consecutive data characters.
   */
  lemma {:induction false} AddressBurst(a: string, b: string, i: nat)
    requires PassesChecksum(a) && PassesChecksum(b) && NetOf(a) == NetOf(b) && |a| == |b|
    requires |Head(NetOf(a).value)| <= i && i + 8 <= |a|
    requires forall j :: 0 <= j < |a| && !(i <= j < i + 8) ==> a[j] == b[j]
    ensures a == b
  {
    hide ToBytes, ChecksumOf, FromBe, PrefixSymbols, Head, NetOf, Residue, Fold, Fives, Rev, Expected;
    var net := NetOf(a).value;
    var h := |Head(net)|;
    var da, db := a[h..], b[h..];
    PassesIsResidue(a);
    PassesIsResidue(b);
    var sa, sb := Symbols(da), Symbols(db);
    SymbolsInWindow(da, db, i - h);
    ResiduesSplit(PrefixSymbols(net), sa);
    ResiduesSplit(PrefixSymbols(net), sb);
    BurstDetected(Fold(Checksum.One(), Fives(PrefixSymbols(net) + [0])), sa, sb, i - h);
    SameSymbols(da, db);
    assert a == a[..h] + da && b == b[..h] + db;
  }

  /**
   * What that means for the decoder: change an accepted address in up to eight consecutive data
   * characters, and it is refused.
   */
  lemma {:induction false} DamageIsRefused(a: string, b: string, i: nat)
    requires Decoded(a).Ok? && |a| == |b| && a != b
    requires NetOf(a).Some? ==> |Head(NetOf(a).value)| <= i && i + 8 <= |a|
    requires forall j :: 0 <= j < |a| && !(i <= j < i + 8) ==> a[j] == b[j]
    ensures Decoded(b) == Err(InvalidCharacter) || Decoded(b) == Err(ChecksumMismatch)
  {
    hide Decoded, PassesChecksum, Head, NetOf;
    DecodedPasses(a);
    LongEnough(a);
    SameNet(a, b, i);
    Refused(b);
    if PassesChecksum(b) {
      AddressBurst(a, b, i);
    }
  }

  lemma {:induction false} LongEnough(a: string)
    requires PassesChecksum(a)
    ensures NetOf(a).Some? && |a| >= |Head(NetOf(a).value)| + 9
  {
    hide Symbols, AllValid, ChecksumOf, Head, NetOf;
  }

  lemma {:induction false} SameNet(a: string, b: string, i: nat)
    requires NetOf(a).Some? && |a| == |b| && |Head(NetOf(a).value)| <= i
    requires forall j :: 0 <= j < |a| && j < i ==> a[j] == b[j]
    ensures NetOf(b) == NetOf(a)
  {
    var net := NetOf(a).value;
    var h := |Head(net)|;
    hide NetOf, Head;
    assert b[..h] == a[..h] == Head(net);
    assert b == Head(net) + b[h..];
    NetOfHead(net, b[h..]);
  }

  /** Long enough, of a known network, and yet the checksum does not pass: one of two errors. */
  lemma {:induction false} Refused(b: string)
    requires NetOf(b).Some? && |b| >= |Head(NetOf(b).value)| + 9
    ensures PassesChecksum(b) || Decoded(b) == Err(InvalidCharacter) || Decoded(b) == Err(ChecksumMismatch)
  {
    hide ToBytes, ChecksumOf, FromBe, PrefixSymbols, Symbols, Head, NetOf, AllValid, Expected;
  }

  lemma {:induction false} ResiduesSplit(prefix: seq<Symbol>, s: seq<Symbol>)
    ensures Residue(prefix, s) == Fold(Fold(Checksum.One(), Fives(prefix + [0])), Fives(s))
  {
    hide Fold, Fives;
    FivesConcat(prefix + [0], s);
    FoldConcat(Checksum.One(), Fives(prefix + [0]), Fives(s));
  }

  lemma {:induction false} SymbolsInWindow(a: string, b: string, i: nat)
    requires AllValid(a) && AllValid(b) && |a| == |b| && i + 8 <= |a|
    requires forall j :: 0 <= j < |a| && !(i <= j < i + 8) ==> a[j] == b[j]
    ensures DifferInWindow(Symbols(a), Symbols(b), i)
  {
    hide Rev;
  }

  /** No two characters stand for one symbol. */
  lemma {:induction false} SameSymbols(a: string, b: string)
    requires AllValid(a) && AllValid(b) && |a| == |b| && Symbols(a) == Symbols(b)
    ensures a == b
  {
    hide Rev, Char;
    forall i | 0 <= i < |a|
      ensures a[i] == b[i]
    {
      assert Symbols(a)[i] == Symbols(b)[i];
    }
  }
}
