/** The hybrid backend (src/services/crypto/custom_algo.ts): ChaCha20 under a key
    derived from the password and a first salt, an HMAC-SHA-256 integrity tag over
    that layer, a marker-inserting obfuscation, AES-GCM under a key from a second
    salt, and a `|`-separated text envelope of five fields
    hex(salt1) | hex(salt2) | hex(seed) | tag | second layer.

    Strings are sequences of characters, one character per UTF-16 code unit the
    source indexes; for text outside the Basic Multilingual Plane the two differ (see
    the README). */
module CustomAlgo {

  import opened Platform
  import opened CryptoTypes
  import ChaCha
  import Aes

  // ---------------------------------------------------------------------------------
  // Hexadecimal text: `uint8ArrayToHex` and `hexToUint8Array`.

  const HexDigits: string := "0123456789abcdef"

  /** `n.toString(16)`: the base-16 digits of `n`, most significant first, lower case,
      without leading zeros. */
  function Radix16(n: nat): (r: string)
    decreases n
  {
    if n < 16 then [HexDigits[n]] else Radix16(n / 16) + [HexDigits[n % 16]]
  }

  /** `s.padStart(2, '0')`. */
  function PadStart2(s: string): (r: string)
  {
    if |s| >= 2 then s else seq(2 - |s|, _ => '0') + s
  }

  /** `b.toString(16).padStart(2, '0')` for one byte. */
  function ByteHex(b: Byte): string
  {
    PadStart2(Radix16(b as nat))
  }

  /** Every byte becomes exactly two lower-case digits: the high nibble, then the low. */
  lemma ByteHexDigits(b: Byte)
    ensures ByteHex(b) == [HexDigits[b as nat / 16], HexDigits[b as nat % 16]]
  {
    var n := b as nat;
    if n >= 16 {
      assert Radix16(n / 16) == [HexDigits[n / 16]];
    }
  }

  /** `uint8ArrayToHex(array)`: the bytes' two-digit forms, joined. */
  function ToHex(bytes: Bytes): (r: string)
  {
    if |bytes| == 0 then "" else ByteHex(bytes[0]) + ToHex(bytes[1..])
  }

  lemma {:induction false} ToHexLength(bytes: Bytes)
    ensures |ToHex(bytes)| == 2 * |bytes|
  {
    if |bytes| > 0 {
      ByteHexDigits(bytes[0]);
      ToHexLength(bytes[1..]);
    }
  }

  /** Byte `k` sits at positions `2k` and `2k + 1` of the hex form. */
  lemma {:induction false} ToHexAt(bytes: Bytes, k: nat)
    requires k < |bytes|
    ensures |ToHex(bytes)| == 2 * |bytes|
    ensures ToHex(bytes)[2 * k] == HexDigits[bytes[k] as nat / 16]
    ensures ToHex(bytes)[2 * k + 1] == HexDigits[bytes[k] as nat % 16]
  {
    ByteHexDigits(bytes[0]);
    ToHexLength(bytes);
    ToHexLength(bytes[1..]);
    if k > 0 {
      ToHexAt(bytes[1..], k - 1);
      assert bytes[1..][k - 1] == bytes[k];
    }
  }

  /** The hex form has two characters per byte, all lower-case hexadecimal digits, the
      high nibble first. */
  lemma ToHexLayout(bytes: Bytes)
    ensures |ToHex(bytes)| == 2 * |bytes|
    ensures forall i :: 0 <= i < |ToHex(bytes)| ==> ToHex(bytes)[i] in HexDigits
    ensures forall k :: 0 <= k < |bytes| ==>
      ToHex(bytes)[2 * k] == HexDigits[bytes[k] as nat / 16] &&
      ToHex(bytes)[2 * k + 1] == HexDigits[bytes[k] as nat % 16]
  {
    ToHexLength(bytes);
    var hex := ToHex(bytes);
    forall k | 0 <= k < |bytes|
      ensures hex[2 * k] == HexDigits[bytes[k] as nat / 16]
      ensures hex[2 * k + 1] == HexDigits[bytes[k] as nat % 16]
    {
      ToHexAt(bytes, k);
    }
    forall i | 0 <= i < |hex| ensures hex[i] in HexDigits {
      ToHexAt(bytes, i / 2);
      assert i == 2 * (i / 2) || i == 2 * (i / 2) + 1;
    }
  }

  /** The characters `parseInt(_, 16)` reads as digits: 0-9, a-f, A-F. */
  predicate IsHexDigit(c: char)
  {
    ('0' <= c <= '9') || ('a' <= c <= 'f') || ('A' <= c <= 'F')
  }

  function DigitValue(c: char): (r: nat)
    requires IsHexDigit(c)
    ensures r < 16
  {
    if '0' <= c <= '9' then c as nat - '0' as nat
    else if 'a' <= c <= 'f' then c as nat - 'a' as nat + 10
    else c as nat - 'A' as nat + 10
  }

  /** The digits of `HexDigits` read back as their positions. */
  lemma DigitValueOfHexDigit(n: nat)
    requires n < 16
    ensures IsHexDigit(HexDigits[n]) && DigitValue(HexDigits[n]) == n
  {
  }

  /** The string with its leading white space (WhiteSpace and LineTerminator) removed. */
  function TrimStart(s: string): (r: string)
  {
    if |s| > 0 && IsJsWhiteSpace(s[0]) then TrimStart(s[1..]) else s
  }

  /** The number of hexadecimal digits `s` starts with. */
  function HexRunLength(s: string): (r: nat)
    ensures r <= |s|
  {
    if |s| > 0 && IsHexDigit(s[0]) then 1 + HexRunLength(s[1..]) else 0
  }

  /** The value of a string of hexadecimal digits. */
  function HexNumber(digits: string): nat
    requires forall i :: 0 <= i < |digits| ==> IsHexDigit(digits[i])
  {
    if |digits| == 0 then 0
    else 16 * HexNumber(digits[..|digits| - 1]) + DigitValue(digits[|digits| - 1])
  }

  lemma {:induction false} HexRunIsDigits(s: string)
    ensures forall i :: 0 <= i < HexRunLength(s) ==> IsHexDigit(s[i])
  {
    if |s| > 0 && IsHexDigit(s[0]) {
      HexRunIsDigits(s[1..]);
      forall i | 0 <= i < HexRunLength(s) ensures IsHexDigit(s[i]) {
        if i > 0 {
          assert s[i] == s[1..][i - 1];
        }
      }
    }
  }

  /** What `parseInt(s, 16)` returns: NaN, or a whole number. */
  datatype Parsed = NaN | Number(value: int)

  /** `parseInt(s, 16)`: leading white space skipped, an optional sign, an optional
      `0x`/`0X` prefix, then the longest run of hexadecimal digits; NaN when that run
      is empty. */
  function ParseIntHex(s: string): (r: Parsed)
  {
    var t := TrimStart(s);
    var negative := |t| > 0 && t[0] == '-';
    var u := if |t| > 0 && (t[0] == '-' || t[0] == '+') then t[1..] else t;
    var w := if |u| >= 2 && u[0] == '0' && (u[1] == 'x' || u[1] == 'X') then u[2..] else u;
    var n := HexRunLength(w);
    HexRunIsDigits(w);
    if n == 0 then NaN
    else if negative then Number(-(HexNumber(w[..n]) as int))
    else Number(HexNumber(w[..n]))
  }

  /** A store into a Uint8Array (ToUint8): NaN becomes 0, an integer is taken modulo 256. */
  function ToUint8(v: Parsed): Byte
  {
    match v
    case NaN => 0
    case Number(x) => (x % 256) as bv8
  }

  /** `s.substr(start, length)` for a start within the string. */
  function Substr(s: string, start: nat, length: nat): (r: string)
    requires start <= |s|
  {
    s[start..Min(start + length, |s|)]
  }

  /** What `hexToUint8Array(hex)` returns: `hex.length / 2` bytes (the length
      conversion of `new Uint8Array` drops the half), byte `k` the parse of the
      characters at `2k` and `2k + 1`.  A trailing odd character is parsed into an
      index past the end, where the store does nothing. */
  function HexToBytes(hex: string): (r: Bytes)
    ensures |r| == |hex| / 2
  {
    seq(|hex| / 2, k requires 0 <= k < |hex| / 2 => ToUint8(ParseIntHex(Substr(hex, 2 * k, 2))))
  }

  /** `hexToUint8Array(hex)`: a loop over even positions, one `parseInt` each. */
  method HexToUint8Array(hex: string) returns (bytes: array<bv8>)
    ensures fresh(bytes)
    ensures bytes[..] == HexToBytes(hex)
  {
    bytes := new bv8[|hex| / 2];
    var i := 0;
    ghost var k := 0;
    while i < |hex|
      invariant i == 2 * k && k <= bytes.Length + 1
      invariant k <= bytes.Length ==> bytes[..k] == HexToBytes(hex)[..k]
      invariant k > bytes.Length ==> bytes[..] == HexToBytes(hex)
      decreases |hex| - i
    {
      var value := ToUint8(ParseIntHex(Substr(hex, i, 2)));
      if i / 2 < bytes.Length {
        bytes[i / 2] := value;
      }
      i := i + 2;
      k := k + 1;
    }
    assert bytes[..] == bytes[..bytes.Length];
  }

  lemma ByteAsInt(b: Byte)
    ensures 0 <= b as int < 256 && (b as int) as bv8 == b
  {
  }

  /** A byte is its two nibbles. */
  lemma Nibbles(b: Byte)
    ensures ((16 * (b as nat / 16) + b as nat % 16) % 256) as bv8 == b
  {
    ByteAsInt(b);
    var n := b as int;
    var m := 16 * (n / 16) + n % 16;
    assert m == n;
    assert m % 256 == n;
  }

  /** Two digits of `HexDigits` parse as the number they spell. */
  lemma ParsePair(hi: nat, lo: nat)
    requires hi < 16 && lo < 16
    ensures ParseIntHex([HexDigits[hi], HexDigits[lo]]) == Number(16 * hi + lo)
  {
    var s := [HexDigits[hi], HexDigits[lo]];
    DigitValueOfHexDigit(hi);
    DigitValueOfHexDigit(lo);
    assert TrimStart(s) == s;
    assert HexRunLength(s) == 2 by {
      assert s[1..][1..] == [];
    }
    assert s[..2] == s;
    assert s[..1] == [s[0]];
    assert HexNumber(s[..1]) == hi;
  }

  /** The two characters at an even position of a hex form parse back to their byte. */
  lemma PairParsesBack(hex: string, i: nat, b: Byte)
    requires i + 1 < |hex|
    requires hex[i] == HexDigits[b as nat / 16] && hex[i + 1] == HexDigits[b as nat % 16]
    ensures ToUint8(ParseIntHex(Substr(hex, i, 2))) == b
  {
    var hi, lo := b as nat / 16, b as nat % 16;
    assert Substr(hex, i, 2) == [HexDigits[hi], HexDigits[lo]];
    ParsePair(hi, lo);
    Nibbles(b);
  }

  /** `hexToUint8Array` inverts `uint8ArrayToHex`. */
  lemma HexRoundTrip(bytes: Bytes)
    ensures HexToBytes(ToHex(bytes)) == bytes
  {
    var hex := ToHex(bytes);
    ToHexLength(bytes);
    forall k | 0 <= k < |bytes| ensures HexToBytes(hex)[k] == bytes[k] {
      ToHexAt(bytes, k);
      PairParsesBack(hex, 2 * k, bytes[k]);
    }
  }

  // ---------------------------------------------------------------------------------
  // Obfuscation: `obfuscate` and `deobfuscate`.

  /** The seven marker characters. */
  const Patterns: string := ['\U{00A7}', '\U{00A2}', '\U{20AC}', '\U{00A3}', '\U{00A5}', '\U{20B9}', '\U{20BF}']

  /** `new DataView(seed.buffer).getUint32(0, false)`: the first four seed bytes as a
      big-endian unsigned 32-bit number. */
  function SeedValue(seed: Bytes): (r: nat)
    requires |seed| >= 4
    ensures r < 0x1_0000_0000
  {
    ((seed[0] as nat * 256 + seed[1] as nat) * 256 + seed[2] as nat) * 256 + seed[3] as nat
  }

  /** The marker period `3 + seedValue % 5`. */
  function Period(seedValue: nat): (r: nat)
    ensures 3 <= r <= 7
  {
    3 + seedValue % 5
  }

  /** The marker written after character `i`: `patterns[(seedValue + i) % 7]`. */
  function Marker(seedValue: nat, i: nat): char
  {
    Patterns[(seedValue + i) % |Patterns|]
  }

  /** What `obfuscate` has built after the first `n` characters: each character,
      followed by its marker when its position is one less than a multiple of the
      period. */
  function ObfuscatedPrefix(text: string, seedValue: nat, n: nat): (r: string)
    requires n <= |text|
  {
    if n == 0 then ""
    else
      var i := n - 1;
      ObfuscatedPrefix(text, seedValue, i) + [text[i]]
        + (if i % Period(seedValue) == Period(seedValue) - 1 then [Marker(seedValue, i)] else "")
  }

  function Obfuscated(text: string, seedValue: nat): string
  {
    ObfuscatedPrefix(text, seedValue, |text|)
  }

  /** `obfuscate(text, seed)`: the result built character by character. */
  method Obfuscate(text: string, seed: Bytes) returns (result: string)
    requires |seed| >= 4
    ensures result == Obfuscated(text, SeedValue(seed))
  {
    var seedValue := SeedValue(seed);
    result := "";
    var patterns := Patterns;
    for i := 0 to |text|
      invariant result == ObfuscatedPrefix(text, seedValue, i)
    {
      result := result + [text[i]];
      var patternIndex := (seedValue + i) % |patterns|;
      var frequency := 3 + (seedValue % 5);
      if i % frequency == frequency - 1 {
        result := result + [patterns[patternIndex]];
      }
    }
  }

  /** `(m + 1) / f` counts one more multiple than `m / f` exactly when `m` is one short
      of a multiple of `f`. */
  lemma DivStep(m: nat, f: nat)
    requires 3 <= f <= 7
    ensures (m + 1) / f == m / f + (if m % f == f - 1 then 1 else 0)
  {
    if f == 3 {
    } else if f == 4 {
    } else if f == 5 {
    } else if f == 6 {
    } else {
    }
  }

  /** One marker per completed period: the output is `|t| + |t| / f` long. */
  lemma {:induction false} ObfuscatedLength(text: string, seedValue: nat, n: nat)
    requires n <= |text|
    ensures |ObfuscatedPrefix(text, seedValue, n)| == n + n / Period(seedValue)
  {
    if n > 0 {
      ObfuscatedLength(text, seedValue, n - 1);
      DivStep(n - 1, Period(seedValue));
    }
  }

  /** The output after `m` characters is a prefix of the output after `n >= m`. */
  lemma {:induction false} ObfuscatedPrefixGrows(text: string, seedValue: nat, m: nat, n: nat)
    requires m <= n <= |text|
    ensures ObfuscatedPrefix(text, seedValue, m) <= ObfuscatedPrefix(text, seedValue, n)
    decreases n
  {
    if m < n {
      ObfuscatedPrefixGrows(text, seedValue, m, n - 1);
    }
  }

  /** Character `i` of the text sits at position `i + i / f` of the output.  A marker,
      `patterns[(seedValue + i) % 7]`, follows it exactly when `i % f == f - 1`:
      otherwise character `i + 1` follows directly, or the output ends. */
  lemma ObfuscatedLayout(text: string, seedValue: nat, i: nat)
    requires i < |text|
    ensures var out, f := Obfuscated(text, seedValue), Period(seedValue);
      i + i / f < |out| && out[i + i / f] == text[i] &&
      (i % f == f - 1 ==> i + i / f + 1 < |out| && out[i + i / f + 1] == Marker(seedValue, i)) &&
      (i % f != f - 1 && i + 1 < |text| ==> i + i / f + 1 < |out| && out[i + i / f + 1] == text[i + 1]) &&
      (i % f != f - 1 && i + 1 == |text| ==> |out| == i + i / f + 1)
  {
    var f := Period(seedValue);
    ObfuscatedLength(text, seedValue, i);
    ObfuscatedLength(text, seedValue, i + 1);
    ObfuscatedPrefixGrows(text, seedValue, i + 1, |text|);
    var before := ObfuscatedPrefix(text, seedValue, i);
    var upTo := ObfuscatedPrefix(text, seedValue, i + 1);
    assert upTo[|before|] == text[i];
    if i % f == f - 1 {
      assert upTo[|before| + 1] == Marker(seedValue, i);
    } else {
      DivStep(i, f);
      if i + 1 < |text| {
        ObfuscatedPrefixGrows(text, seedValue, i + 2, |text|);
        var next := ObfuscatedPrefix(text, seedValue, i + 2);
        assert next[|upTo|] == text[i + 1];
      }
    }
  }

  predicate IsMarker(c: char)
  {
    c in Patterns
  }

  /** `text.replace(/[§¢€£¥₹₿]/g, '')`: every marker character removed. */
  function Deobfuscate(text: string): (r: string)
  {
    if |text| == 0 then ""
    else (if IsMarker(text[0]) then "" else [text[0]]) + Deobfuscate(text[1..])
  }

  /** The result holds no marker, and removing markers distributes over concatenation. */
  lemma {:induction false} DeobfuscateConcat(a: string, b: string)
    ensures Deobfuscate(a + b) == Deobfuscate(a) + Deobfuscate(b)
  {
    if |a| > 0 {
      assert (a + b)[1..] == a[1..] + b;
      DeobfuscateConcat(a[1..], b);
    } else {
      assert a + b == b;
    }
  }

  /** Text without markers survives `deobfuscate` unchanged. */
  lemma {:induction false} DeobfuscateMarkerFree(text: string)
    requires forall i :: 0 <= i < |text| ==> !IsMarker(text[i])
    ensures Deobfuscate(text) == text
  {
    if |text| > 0 {
      DeobfuscateMarkerFree(text[1..]);
    }
  }

  /** Whatever it is given, `deobfuscate` leaves no marker behind. */
  lemma {:induction false} DeobfuscateRemovesMarkers(text: string)
    ensures forall i :: 0 <= i < |Deobfuscate(text)| ==> !IsMarker(Deobfuscate(text)[i])
  {
    if |text| > 0 {
      DeobfuscateRemovesMarkers(text[1..]);
    }
  }

  /** `deobfuscate` inverts `obfuscate` on text that holds none of the markers. */
  lemma {:induction false} ObfuscateRoundTrip(text: string, seedValue: nat, n: nat)
    requires n <= |text|
    requires forall i :: 0 <= i < |text| ==> !IsMarker(text[i])
    ensures Deobfuscate(ObfuscatedPrefix(text, seedValue, n)) == text[..n]
  {
    if n > 0 {
      var i := n - 1;
      var tail := if i % Period(seedValue) == Period(seedValue) - 1 then [Marker(seedValue, i)] else "";
      ObfuscateRoundTrip(text, seedValue, i);
      DeobfuscateConcat(ObfuscatedPrefix(text, seedValue, i) + [text[i]], tail);
      DeobfuscateConcat(ObfuscatedPrefix(text, seedValue, i), [text[i]]);
      assert Deobfuscate([text[i]]) == [text[i]];
      assert Deobfuscate(tail) == "" by {
        if tail != "" {
          assert tail[0] in Patterns;
        }
      }
      assert text[..n] == text[..i] + [text[i]];
    }
  }

  // ---------------------------------------------------------------------------------
  // The integrity tag: `generateIntegrityHash` and `verifyIntegrityHash`.

  /** `generateIntegrityHash(data, key)`: HMAC-SHA-256 keyed with the UTF-8 bytes of
      `key` over the UTF-8 bytes of `data`, in hex. */
  function GenerateIntegrityHash(p: Platform, data: string, key: string): string
  {
    ToHex(p.hmacSha256(p.utf8Encode(key), p.utf8Encode(data)))
  }

  /** `a ^ b` on non-negative numbers: bitwise exclusive or. */
  function BitXor(a: nat, b: nat): nat
    decreases a + b
  {
    if a == 0 && b == 0 then 0 else 2 * BitXor(a / 2, b / 2) + (if a % 2 == b % 2 then 0 else 1)
  }

  /** `a | b` on non-negative numbers: bitwise or. */
  function BitOr(a: nat, b: nat): nat
    decreases a + b
  {
    if a == 0 && b == 0 then 0 else 2 * BitOr(a / 2, b / 2) + (if a % 2 == 1 || b % 2 == 1 then 1 else 0)
  }

  /** The exclusive or of two codes is zero exactly when they are equal. */
  lemma {:induction false} XorZero(a: nat, b: nat)
    ensures BitXor(a, b) == 0 <==> a == b
    decreases a + b
  {
    if !(a == 0 && b == 0) {
      XorZero(a / 2, b / 2);
    }
  }

  /** The or of two numbers is zero exactly when both are. */
  lemma {:induction false} OrZero(a: nat, b: nat)
    ensures BitOr(a, b) == 0 <==> a == 0 && b == 0
    decreases a + b
  {
    if !(a == 0 && b == 0) {
      OrZero(a / 2, b / 2);
    }
  }

  /** `verifyIntegrityHash(data, key, expectedHash)`: false on a length mismatch,
      otherwise the or of the exclusive ors of all character codes compared with 0.
      The answer is whether the recomputed tag equals the expected one. */
  method VerifyIntegrityHash(p: Platform, data: string, key: string, expectedHash: string) returns (valid: bool)
    ensures valid <==> GenerateIntegrityHash(p, data, key) == expectedHash
  {
    var actualHash := GenerateIntegrityHash(p, data, key);
    if |actualHash| != |expectedHash| {
      return false;
    }
    var result: nat := 0;
    for i := 0 to |actualHash|
      invariant result == 0 <==> actualHash[..i] == expectedHash[..i]
    {
      XorZero(actualHash[i] as nat, expectedHash[i] as nat);
      OrZero(result, BitXor(actualHash[i] as nat, expectedHash[i] as nat));
      assert actualHash[..i + 1] == actualHash[..i] + [actualHash[i]];
      assert expectedHash[..i + 1] == expectedHash[..i] + [expectedHash[i]];
      result := BitOr(result, BitXor(actualHash[i] as nat, expectedHash[i] as nat));
    }
    assert actualHash[..|actualHash|] == actualHash && expectedHash[..|expectedHash|] == expectedHash;
    valid := result == 0;
  }

  // ---------------------------------------------------------------------------------
  // The text envelope.

  const Separator: char := '|'

  /** `s.split(sep)` for a one-character separator: the pieces between separators,
      empty pieces included, at least one. */
  function SplitOn(s: string, sep: char): (r: seq<string>)
    ensures |r| >= 1
  {
    if |s| == 0 then [""]
    else
      var rest := SplitOn(s[1..], sep);
      if s[0] == sep then [""] + rest else [[s[0]] + rest[0]] + rest[1..]
  }

  /** Splitting a string that starts with a separator-free piece: the piece extends
      the first part of the rest. */
  lemma {:induction false} SplitCons(a: string, rest: string, sep: char)
    requires sep !in a
    ensures SplitOn(a + rest, sep) == [a + SplitOn(rest, sep)[0]] + SplitOn(rest, sep)[1..]
  {
    if |a| > 0 {
      assert (a + rest)[1..] == a[1..] + rest;
      SplitCons(a[1..], rest, sep);
      assert [a[0]] + (a[1..] + SplitOn(rest, sep)[0]) == a + SplitOn(rest, sep)[0];
    } else {
      var parts := SplitOn(rest, sep);
      assert a + rest == rest;
      assert a + parts[0] == parts[0];
      assert [parts[0]] + parts[1..] == parts;
    }
  }

  /** A separator-free piece followed by a separator becomes one whole part. */
  lemma SplitField(a: string, rest: string, sep: char)
    requires sep !in a
    ensures SplitOn(a + [sep] + rest, sep) == [a] + SplitOn(rest, sep)
  {
    var tail := [sep] + rest;
    SplitCons(a, tail, sep);
    assert a + [sep] + rest == a + tail;
    assert tail[1..] == rest;
    assert SplitOn(tail, sep) == [""] + SplitOn(rest, sep);
    assert a + "" == a;
  }

  /** A separator-free string is one part. */
  lemma SplitWhole(a: string, sep: char)
    requires sep !in a
    ensures SplitOn(a, sep) == [a]
  {
    SplitCons(a, "", sep);
    assert a + "" == a;
  }

  /** The parts of a split hold no separator. */
  lemma {:induction false} SplitPartsHaveNoSeparator(s: string, sep: char)
    ensures forall k :: 0 <= k < |SplitOn(s, sep)| ==> sep !in SplitOn(s, sep)[k]
  {
    if |s| > 0 {
      SplitPartsHaveNoSeparator(s[1..], sep);
    }
  }

  /** The five-field text `a|b|c|d|e` the encrypt pipeline returns. */
  function Fields(a: string, b: string, c: string, d: string, e: string): string
  {
    a + [Separator] + b + [Separator] + c + [Separator] + d + [Separator] + e
  }

  /** Fields that hold no `|` come back out of `split('|')` one for one. */
  lemma SplitFields(a: string, b: string, c: string, d: string, e: string)
    requires Separator !in a && Separator !in b && Separator !in c
    requires Separator !in d && Separator !in e
    ensures SplitOn(Fields(a, b, c, d, e), Separator) == [a, b, c, d, e]
  {
    var sep := [Separator];
    assert Fields(a, b, c, d, e) == a + sep + (b + sep + (c + sep + (d + sep + e)));
    SplitWhole(e, Separator);
    SplitField(d, e, Separator);
    SplitField(c, d + sep + e, Separator);
    SplitField(b, c + sep + (d + sep + e), Separator);
    SplitField(a, b + sep + (c + sep + (d + sep + e)), Separator);
  }

  /** Hex text holds no `|`. */
  lemma HexHasNoSeparator(bytes: Bytes)
    ensures Separator !in ToHex(bytes)
  {
    ToHexLayout(bytes);
  }

  /** Base64 text holds neither `|` nor a marker. */
  lemma Base64HasNoSeparatorOrMarker(p: Platform, b: Bytes)
    requires Base64Shape(p)
    ensures Separator !in p.base64Encode(b)
    ensures forall i :: 0 <= i < |p.base64Encode(b)| ==> !IsMarker(p.base64Encode(b)[i])
  {
    var s := p.base64Encode(b);
    forall i | 0 <= i < |s| ensures s[i] != Separator && !IsMarker(s[i]) {
      assert IsBase64Char(s[i]);
    }
  }

  // ---------------------------------------------------------------------------------
  // The pipelines.

  const EncryptFallback: string := "Unknown error during encryption"
  const DecryptFallback: string := "Unknown error during decryption"
  const FirstLayerFailed: string := "First layer encryption failed"
  const SecondLayerFailed: string := "Second layer encryption failed"
  const InvalidFormat: string := "Invalid encrypted data format"
  const OuterLayerFailed: string := "Outer layer decryption failed"
  const TamperingDetected: string := "Data integrity verification failed - possible tampering detected"
  const InnerLayerFailed: string := "Inner layer decryption failed"

  /** The two layer keys, as the hex text the backends take for a password. */
  datatype LayerKeys = LayerKeys(key1: string, key2: string)

  /** `deriveMultipleKeys(password, salt1, salt2)`: two 256-bit PBKDF2-HMAC-SHA-256
      derivations (100000 iterations) from the password's UTF-8 bytes, one per salt,
      each in hex. */
  function DeriveMultipleKeys(p: Platform, password: string, salt1: Bytes, salt2: Bytes): (r: Outcome<LayerKeys>)
  {
    var passwordBuffer := p.utf8Encode(password);
    match p.pbkdf2(passwordBuffer, salt1, Pbkdf2Iterations, DerivedKeyBits)
    case Throw(t) => Throw(t)
    case Ok(bits1) =>
      match p.pbkdf2(passwordBuffer, salt2, Pbkdf2Iterations, DerivedKeyBits)
      case Throw(t) => Throw(t)
      case Ok(bits2) => Ok(LayerKeys(ToHex(bits1), ToHex(bits2)))
  }

  /** The HMAC key: the hex SHA-256 of the UTF-8 bytes of `password + 'INTEGRITY'`. */
  function IntegrityKey(p: Platform, password: string): string
  {
    ToHex(p.sha256(p.utf8Encode(password + "INTEGRITY")))
  }

  /** `encrypt(text, password)` with its random values given (`salt1`, `salt2`, `seed`
      here; `salt`/`nonce` for the ChaCha20 layer and `outerSalt`/`outerNonce` for the
      AES layer).  A layer that reports failure or an empty result raises the layer's
      error, which the catch block reports by its message. */
  function EncryptSpec(p: Platform, text: string, password: string, e: Entropy): (r: CryptoResult)
    requires |e.seed| >= 4
  {
    match DeriveMultipleKeys(p, password, e.salt1, e.salt2)
    case Throw(t) => Failure(CaughtMessage(t, EncryptFallback))
    case Ok(keys) =>
      var integrityKey := IntegrityKey(p, password);
      var first := ChaCha.EncryptSpec(p, text, keys.key1, e.salt, e.nonce);
      if !HasText(first) then Failure(FirstLayerFailed)
      else
        var integrityHash := GenerateIntegrityHash(p, first.result, integrityKey);
        var obfuscated := Obfuscated(first.result, SeedValue(e.seed));
        var second := Aes.EncryptSpec(p, obfuscated, keys.key2, e.outerSalt, e.outerNonce);
        if !HasText(second) then Failure(SecondLayerFailed)
        else Success(Fields(ToHex(e.salt1), ToHex(e.salt2), ToHex(e.seed), integrityHash, second.result))
  }

  /** How far decryption gets: stopped with an error message before the inner layer,
      or the inner layer's result. */
  datatype Stage = Stopped(error: string) | Inner(result: CryptoResult)

  /** Decryption up to and including the inner ChaCha20 layer: the five-field check, the
      keys from the two salts (the seed field is parsed and never read), the outer AES
      layer, deobfuscation, and the integrity check, which comes before the inner layer. */
  function DecryptStages(p: Platform, encryptedText: string, password: string): (r: Stage)
  {
    var parts := SplitOn(encryptedText, Separator);
    if |parts| != 5 then Stopped(InvalidFormat)
    else
      var salt1 := HexToBytes(parts[0]);
      var salt2 := HexToBytes(parts[1]);
      match DeriveMultipleKeys(p, password, salt1, salt2)
      case Throw(t) => Stopped(CaughtMessage(t, DecryptFallback))
      case Ok(keys) =>
        var integrityKey := IntegrityKey(p, password);
        var outer := Aes.DecryptSpec(p, parts[4], keys.key2);
        if !HasText(outer) then Stopped(OuterLayerFailed)
        else
          var deobfuscated := Deobfuscate(outer.result);
          if GenerateIntegrityHash(p, deobfuscated, integrityKey) != parts[3] then Stopped(TamperingDetected)
          else Inner(ChaCha.DecryptSpec(p, deobfuscated, keys.key1))
  }

  /** `decrypt(encryptedText, password)`: the stages, then the inner result, which is
      rejected when it failed or is the empty string. */
  function DecryptSpec(p: Platform, encryptedText: string, password: string): (r: CryptoResult)
  {
    match DecryptStages(p, encryptedText, password)
    case Stopped(error) => Failure(error)
    case Inner(inner) => if !HasText(inner) then Failure(InnerLayerFailed) else Success(inner.result)
  }

  /** `encrypt`, step by step as the source runs it. */
  method Encrypt(p: Platform, text: string, password: string, e: Entropy) returns (r: CryptoResult)
    requires |e.seed| >= 4
    ensures r == EncryptSpec(p, text, password, e)
  {
    var keys := DeriveMultipleKeys(p, password, e.salt1, e.salt2);
    if keys.Throw? {
      return Failure(CaughtMessage(keys.thrown, EncryptFallback));
    }
    var integrityKey := IntegrityKey(p, password);
    var firstLayerResult := ChaCha.Encrypt(p, text, keys.value.key1, e.salt, e.nonce);
    if !HasText(firstLayerResult) {
      return Failure(FirstLayerFailed);
    }
    var integrityHash := GenerateIntegrityHash(p, firstLayerResult.result, integrityKey);
    var obfuscated := Obfuscate(firstLayerResult.result, e.seed);
    var secondLayerResult := Aes.Encrypt(p, obfuscated, keys.value.key2, e.outerSalt, e.outerNonce);
    if !HasText(secondLayerResult) {
      return Failure(SecondLayerFailed);
    }
    r := Success(Fields(ToHex(e.salt1), ToHex(e.salt2), ToHex(e.seed), integrityHash, secondLayerResult.result));
  }

  /** `decrypt`, step by step as the source runs it. */
  method Decrypt(p: Platform, encryptedText: string, password: string) returns (r: CryptoResult)
    ensures r == DecryptSpec(p, encryptedText, password)
  {
    var parts := SplitOn(encryptedText, Separator);
    if |parts| != 5 {
      return Failure(InvalidFormat);
    }
    var salt1 := HexToUint8Array(parts[0]);
    var salt2 := HexToUint8Array(parts[1]);
    var obfuscationSeed := HexToUint8Array(parts[2]);
    var expectedIntegrityHash := parts[3];
    var actualEncryptedData := parts[4];
    var keys := DeriveMultipleKeys(p, password, salt1[..], salt2[..]);
    if keys.Throw? {
      return Failure(CaughtMessage(keys.thrown, DecryptFallback));
    }
    var integrityKey := IntegrityKey(p, password);
    var outerDecryptResult := Aes.Decrypt(p, actualEncryptedData, keys.value.key2);
    if !HasText(outerDecryptResult) {
      return Failure(OuterLayerFailed);
    }
    var deobfuscated := Deobfuscate(outerDecryptResult.result);
    var integrityValid := VerifyIntegrityHash(p, deobfuscated, integrityKey, expectedIntegrityHash);
    if !integrityValid {
      return Failure(TamperingDetected);
    }
    var innerDecryptResult := ChaCha.Decrypt(p, deobfuscated, keys.value.key1);
    if !HasText(innerDecryptResult) {
      return Failure(InnerLayerFailed);
    }
    r := Success(innerDecryptResult.result);
  }

  // ---------------------------------------------------------------------------------
  // Properties of the pipelines.

  /** Base64 text of at least one byte is not empty. */
  lemma Base64NotEmpty(p: Platform, b: Bytes)
    requires Base64Shape(p) && |b| > 0
    ensures |p.base64Encode(b)| > 0
  {
  }

  /** The first layer of a successful key derivation: a non-empty base64 text with no
      marker and no `|`. */
  lemma FirstLayerShape(p: Platform, text: string, key1: string, salt: Bytes, nonce: Bytes)
    requires Base64Shape(p) && |salt| == 16 && |nonce| == 12
    requires DeriveKey(p, key1, salt).Ok?
    ensures var first := ChaCha.EncryptSpec(p, text, key1, salt, nonce);
      HasText(first) &&
      forall i :: 0 <= i < |first.result| ==> !IsMarker(first.result[i])
  {
    var key := DeriveKey(p, key1, salt).value;
    var envelope := salt + nonce + ChaCha.ProcessSpec(p.utf8Encode(text), key, nonce);
    Base64NotEmpty(p, envelope);
    Base64HasNoSeparatorOrMarker(p, envelope);
  }

  /** The second layer, when sealing succeeds: a base64 text with no `|`, and not empty
      when the salt is not. */
  lemma SecondLayerShape(p: Platform, obfuscated: string, key2: string, outerSalt: Bytes, outerNonce: Bytes)
    requires Base64Shape(p)
    requires Aes.EncryptSpec(p, obfuscated, key2, outerSalt, outerNonce).Success?
    ensures var second := Aes.EncryptSpec(p, obfuscated, key2, outerSalt, outerNonce);
      Separator !in second.result && (|outerSalt| > 0 ==> HasText(second))
  {
    var key := DeriveKey(p, key2, outerSalt).value;
    var sealed := p.aesGcmSeal(key, outerNonce, p.utf8Encode(obfuscated)).value;
    if |outerSalt| > 0 {
      Base64NotEmpty(p, outerSalt + outerNonce + sealed);
    }
    Base64HasNoSeparatorOrMarker(p, outerSalt + outerNonce + sealed);
  }

  /** Decryption rejects any text that does not split into exactly five fields. */
  lemma WrongFieldCountFails(p: Platform, encryptedText: string, password: string)
    requires |SplitOn(encryptedText, Separator)| != 5
    ensures DecryptSpec(p, encryptedText, password) == Failure(InvalidFormat)
  {
  }

  /** The seed field is parsed but never used: replacing it changes nothing. */
  lemma SeedFieldIgnored(p: Platform, password: string, salt1: string, salt2: string,
                         seed: string, otherSeed: string, tag: string, data: string)
    requires Separator !in salt1 && Separator !in salt2 && Separator !in tag && Separator !in data
    requires Separator !in seed && Separator !in otherSeed
    ensures DecryptSpec(p, Fields(salt1, salt2, seed, tag, data), password)
         == DecryptSpec(p, Fields(salt1, salt2, otherSeed, tag, data), password)
  {
    SplitFields(salt1, salt2, seed, tag, data);
    SplitFields(salt1, salt2, otherSeed, tag, data);
  }

  /** When the outer layer opens but the recomputed tag differs from the tag field,
      decryption stops with the tampering error before the inner layer. */
  lemma TamperedTagFails(p: Platform, password: string, salt1: string, salt2: string,
                         seed: string, tag: string, data: string)
    requires Separator !in salt1 && Separator !in salt2 && Separator !in seed
    requires Separator !in tag && Separator !in data
    requires DeriveMultipleKeys(p, password, HexToBytes(salt1), HexToBytes(salt2)).Ok?
    requires var keys := DeriveMultipleKeys(p, password, HexToBytes(salt1), HexToBytes(salt2)).value;
      var outer := Aes.DecryptSpec(p, data, keys.key2);
      HasText(outer) && GenerateIntegrityHash(p, Deobfuscate(outer.result), IntegrityKey(p, password)) != tag
    ensures DecryptSpec(p, Fields(salt1, salt2, seed, tag, data), password) == Failure(TamperingDetected)
  {
    SplitFields(salt1, salt2, seed, tag, data);
  }

  /** A successful decryption got through every stage in order: five fields, the outer
      layer opened to a non-empty text, the tag of its deobfuscation matched the tag
      field, and the inner layer produced the (non-empty) result. */
  lemma SuccessPassedEveryStage(p: Platform, encryptedText: string, password: string)
    requires DecryptSpec(p, encryptedText, password).Success?
    ensures var parts := SplitOn(encryptedText, Separator);
      |parts| == 5 &&
      DeriveMultipleKeys(p, password, HexToBytes(parts[0]), HexToBytes(parts[1])).Ok? &&
      var keys := DeriveMultipleKeys(p, password, HexToBytes(parts[0]), HexToBytes(parts[1])).value;
      var outer := Aes.DecryptSpec(p, parts[4], keys.key2);
      HasText(outer) &&
      GenerateIntegrityHash(p, Deobfuscate(outer.result), IntegrityKey(p, password)) == parts[3] &&
      ChaCha.DecryptSpec(p, Deobfuscate(outer.result), keys.key1) == DecryptSpec(p, encryptedText, password) &&
      DecryptSpec(p, encryptedText, password).result != ""
  {
  }

  /** The foreign calls of one encryption succeed: both PBKDF2 derivations of the
      layer keys, the key derivations inside the two layers, and the AES-GCM sealing. */
  predicate LayersSucceed(p: Platform, text: string, password: string, e: Entropy)
    requires |e.seed| >= 4
  {
    && DeriveMultipleKeys(p, password, e.salt1, e.salt2).Ok?
    && var keys := DeriveMultipleKeys(p, password, e.salt1, e.salt2).value;
    && DeriveKey(p, keys.key1, e.salt).Ok?
    && DeriveKey(p, keys.key2, e.outerSalt).Ok?
    && var first := ChaCha.EncryptSpec(p, text, keys.key1, e.salt, e.nonce);
    && p.aesGcmSeal(DeriveKey(p, keys.key2, e.outerSalt).value, e.outerNonce,
                    p.utf8Encode(Obfuscated(first.result, SeedValue(e.seed)))).Ok?
  }

  /** With both layers producing text, encryption is the five fields. */
  lemma EncryptionIsFields(p: Platform, text: string, password: string, e: Entropy,
                           keys: LayerKeys, first: CryptoResult, second: CryptoResult)
    requires |e.seed| >= 4
    requires DeriveMultipleKeys(p, password, e.salt1, e.salt2) == Ok(keys)
    requires ChaCha.EncryptSpec(p, text, keys.key1, e.salt, e.nonce) == first && HasText(first)
    requires Aes.EncryptSpec(p, Obfuscated(first.result, SeedValue(e.seed)), keys.key2, e.outerSalt, e.outerNonce) == second
    requires HasText(second)
    ensures EncryptSpec(p, text, password, e)
         == Success(Fields(ToHex(e.salt1), ToHex(e.salt2), ToHex(e.seed),
                           GenerateIntegrityHash(p, first.result, IntegrityKey(p, password)), second.result))
  {
  }

  /** Four hex fields and a separator-free last field split back into themselves. */
  lemma HexFieldsSplit(salt1: Bytes, salt2: Bytes, seed: Bytes, mac: Bytes, data: string)
    requires Separator !in data
    ensures var parts := SplitOn(Fields(ToHex(salt1), ToHex(salt2), ToHex(seed), ToHex(mac), data), Separator);
      parts == [ToHex(salt1), ToHex(salt2), ToHex(seed), ToHex(mac), data]
  {
    HexHasNoSeparator(salt1);
    HexHasNoSeparator(salt2);
    HexHasNoSeparator(seed);
    HexHasNoSeparator(mac);
    SplitFields(ToHex(salt1), ToHex(salt2), ToHex(seed), ToHex(mac), data);
  }

  /** A successful encryption is the five fields hex(salt1), hex(salt2), hex(seed), the
      tag and the second layer, and `split('|')` recovers exactly them; with the sizes
      the source draws, the first four are 64, 64, 8 and 64 characters long. */
  lemma EnvelopeHasFiveFields(p: Platform, text: string, password: string, e: Entropy)
    requires Base64Shape(p) && |e.seed| >= 4
    requires EncryptSpec(p, text, password, e).Success?
    ensures var parts := SplitOn(EncryptSpec(p, text, password, e).result, Separator);
      |parts| == 5 && parts[0] == ToHex(e.salt1) && parts[1] == ToHex(e.salt2) && parts[2] == ToHex(e.seed)
    ensures WellSized(e) && HmacIs256Bits(p) ==>
      var parts := SplitOn(EncryptSpec(p, text, password, e).result, Separator);
      |parts[0]| == 64 && |parts[1]| == 64 && |parts[2]| == 8 && |parts[3]| == 64
  {
    var keys := DeriveMultipleKeys(p, password, e.salt1, e.salt2).value;
    var first := ChaCha.EncryptSpec(p, text, keys.key1, e.salt, e.nonce);
    var obfuscated := Obfuscated(first.result, SeedValue(e.seed));
    var second := Aes.EncryptSpec(p, obfuscated, keys.key2, e.outerSalt, e.outerNonce);
    var mac := p.hmacSha256(p.utf8Encode(IntegrityKey(p, password)), p.utf8Encode(first.result));
    EncryptionIsFields(p, text, password, e, keys, first, second);
    SecondLayerShape(p, obfuscated, keys.key2, e.outerSalt, e.outerNonce);
    HexFieldsSplit(e.salt1, e.salt2, e.seed, mac, second.result);
    if WellSized(e) && HmacIs256Bits(p) {
      ToHexLength(e.salt1);
      ToHexLength(e.salt2);
      ToHexLength(e.seed);
      ToHexLength(mac);
    }
  }

  /** Five separator-free fields whose salts give the layer keys, whose last field opens
      under the outer key to a text that deobfuscates to `inner`, and whose tag is the
      tag of `inner`, reach the inner layer with `inner`. */
  lemma DecryptOfFields(p: Platform, password: string, salt1: string, salt2: string, seed: string,
                        tag: string, data: string, keys: LayerKeys, outer: string, inner: string)
    requires Separator !in salt1 && Separator !in salt2 && Separator !in seed
    requires Separator !in tag && Separator !in data
    requires DeriveMultipleKeys(p, password, HexToBytes(salt1), HexToBytes(salt2)) == Ok(keys)
    requires Aes.DecryptSpec(p, data, keys.key2) == Success(outer) && outer != ""
    requires Deobfuscate(outer) == inner
    requires GenerateIntegrityHash(p, inner, IntegrityKey(p, password)) == tag
    ensures DecryptStages(p, Fields(salt1, salt2, seed, tag, data), password)
         == Inner(ChaCha.DecryptSpec(p, inner, keys.key1))
  {
    SplitFields(salt1, salt2, seed, tag, data);
  }

  /** Decrypting the five fields of a successful encryption: the outer layer gives the
      obfuscated first layer back, deobfuscation restores the first layer, its tag
      matches, and the inner layer decrypts it. */
  lemma DecryptOfEnvelope(p: Platform, text: string, password: string, e: Entropy)
    requires Base64RoundTrips(p) && Utf8RoundTrips(p) && AeadRoundTrips(p) && Base64Shape(p)
    requires WellSized(e) && LayersSucceed(p, text, password, e)
    ensures EncryptSpec(p, text, password, e).Success?
    ensures DecryptStages(p, EncryptSpec(p, text, password, e).result, password) == Inner(Success(text))
  {
    var keys := DeriveMultipleKeys(p, password, e.salt1, e.salt2).value;
    FirstLayerShape(p, text, keys.key1, e.salt, e.nonce);
    var first := ChaCha.EncryptSpec(p, text, keys.key1, e.salt, e.nonce);
    var seedValue := SeedValue(e.seed);
    var obfuscated := Obfuscated(first.result, seedValue);
    ObfuscatedLength(first.result, seedValue, |first.result|);
    SecondLayerShape(p, obfuscated, keys.key2, e.outerSalt, e.outerNonce);
    var second := Aes.EncryptSpec(p, obfuscated, keys.key2, e.outerSalt, e.outerNonce);
    var integrityHash := GenerateIntegrityHash(p, first.result, IntegrityKey(p, password));
    EncryptionIsFields(p, text, password, e, keys, first, second);
    HexHasNoSeparator(e.salt1);
    HexHasNoSeparator(e.salt2);
    HexHasNoSeparator(e.seed);
    HexHasNoSeparator(p.hmacSha256(p.utf8Encode(IntegrityKey(p, password)), p.utf8Encode(first.result)));
    HexRoundTrip(e.salt1);
    HexRoundTrip(e.salt2);
    Aes.RoundTrip(p, obfuscated, keys.key2, e.outerSalt, e.outerNonce);
    ObfuscateRoundTrip(first.result, seedValue, |first.result|);
    assert first.result[..|first.result|] == first.result;
    DecryptOfFields(p, password, ToHex(e.salt1), ToHex(e.salt2), ToHex(e.seed), integrityHash,
                    second.result, keys, obfuscated, first.result);
    ChaCha.RoundTrip(p, text, keys.key1, e.salt, e.nonce);
  }

  /** The round trip holds for every text but the empty one: the inner layer then
      decrypts to the empty string, which the final check rejects, so a successfully
      encrypted empty text can never be decrypted. */
  lemma RoundTrip(p: Platform, text: string, password: string, e: Entropy)
    requires Base64RoundTrips(p) && Utf8RoundTrips(p) && AeadRoundTrips(p) && Base64Shape(p)
    requires WellSized(e) && LayersSucceed(p, text, password, e)
    ensures EncryptSpec(p, text, password, e).Success?
    ensures DecryptSpec(p, EncryptSpec(p, text, password, e).result, password)
         == if text == "" then Failure(InnerLayerFailed) else Success(text)
  {
    DecryptOfEnvelope(p, text, password, e);
  }

  /** The empty text: its encryption succeeds and its decryption fails. */
  lemma EmptyTextDoesNotRoundTrip(p: Platform, password: string, e: Entropy)
    requires Base64RoundTrips(p) && Utf8RoundTrips(p) && AeadRoundTrips(p) && Base64Shape(p)
    requires WellSized(e) && LayersSucceed(p, "", password, e)
    ensures EncryptSpec(p, "", password, e).Success?
    ensures DecryptSpec(p, EncryptSpec(p, "", password, e).result, password).Failure?
  {
    RoundTrip(p, "", password, e);
  }

  /** Decryption as evidently intended: the inner layer's result is rejected only when
      it failed, so that an empty text, which encrypts successfully, decrypts too. */
  function DecryptFixedSpec(p: Platform, encryptedText: string, password: string): (r: CryptoResult)
  {
    match DecryptStages(p, encryptedText, password)
    case Stopped(error) => Failure(error)
    case Inner(inner) => if inner.Failure? then Failure(InnerLayerFailed) else inner
  }

  /** The intended decryption inverts encryption for every text, the empty one included. */
  lemma RoundTripFixed(p: Platform, text: string, password: string, e: Entropy)
    requires Base64RoundTrips(p) && Utf8RoundTrips(p) && AeadRoundTrips(p) && Base64Shape(p)
    requires WellSized(e) && LayersSucceed(p, text, password, e)
    ensures EncryptSpec(p, text, password, e).Success?
    ensures DecryptFixedSpec(p, EncryptSpec(p, text, password, e).result, password) == Success(text)
  {
    DecryptOfEnvelope(p, text, password, e);
  }

  /** The intended decryption differs from the one as written only on an empty inner
      result. */
  lemma FixedAgreesOnText(p: Platform, encryptedText: string, password: string)
    ensures DecryptSpec(p, encryptedText, password) != DecryptFixedSpec(p, encryptedText, password) <==>
      DecryptStages(p, encryptedText, password) == Inner(Success(""))
  {
  }
}

