/** The primitives the crypto engine takes from the browser platform and does not
    implement itself: TextEncoder/TextDecoder, btoa/atob, the Web Crypto calls
    (PBKDF2, SHA-256, HMAC-SHA-256, AES-GCM), the engine's RangeError message and
    String.prototype.toLowerCase/toUpperCase.

    Each primitive is a field of `Platform`, a record of total functions that every
    operation receives as a parameter.  Nothing is assumed about them except what a
    lemma states in its `requires` through the predicates at the end of this module
    (round trips, output shapes).  Randomness is not a primitive here: the random
    salts, nonces and seeds are parameters of the encrypt operations. */
module Platform {

  type Byte = bv8
  type Bytes = seq<bv8>

  /** A value thrown by a foreign call: an `Error` object with its message, or some
      other value (the case `error instanceof Error` rejects). */
  datatype Thrown = ErrorObject(message: string) | OtherValue

  /** The outcome of a foreign call that may throw. */
  datatype Outcome<+T> = Ok(value: T) | Throw(thrown: Thrown)

  /** What `catch (error) { ... error instanceof Error ? error.message : fallback }` reports. */
  function CaughtMessage(t: Thrown, fallback: string): string
  {
    match t
    case ErrorObject(message) => message
    case OtherValue => fallback
  }

  datatype Platform = Platform(
    /** TextEncoder.prototype.encode: string to UTF-8 bytes. */
    utf8Encode: string -> Bytes,
    /** TextDecoder.prototype.decode: UTF-8 bytes to string, lossy on invalid input. */
    utf8Decode: Bytes -> string,
    /** btoa(String.fromCharCode(...bytes)): bytes to base64 text. */
    base64Encode: Bytes -> string,
    /** atob(text) mapped through charCodeAt: throws on text that is not base64. */
    base64Decode: string -> Outcome<Bytes>,
    /** PBKDF2 with HMAC-SHA-256 (importKey + deriveKey/deriveBits):
        (password bytes, salt, iterations, output length in bits). */
    pbkdf2: (Bytes, Bytes, nat, nat) -> Outcome<Bytes>,
    /** crypto.subtle.digest('SHA-256', data). */
    sha256: Bytes -> Bytes,
    /** crypto.subtle.sign('HMAC', key, data) with an HMAC-SHA-256 key: (key, data). */
    hmacSha256: (Bytes, Bytes) -> Bytes,
    /** crypto.subtle.encrypt with AES-GCM: (key, iv, plaintext) to ciphertext with tag. */
    aesGcmSeal: (Bytes, Bytes, Bytes) -> Outcome<Bytes>,
    /** crypto.subtle.decrypt with AES-GCM: (key, iv, ciphertext with tag); throws when
        the tag does not verify. */
    aesGcmOpen: (Bytes, Bytes, Bytes) -> Outcome<Bytes>,
    /** The message of the RangeError that `new Uint8Array(n)` throws for a negative
        length n; the thrown value is always an `Error`. */
    invalidLengthMessage: int -> string,
    /** String.prototype.toLowerCase and toUpperCase. */
    toLowerCase: string -> string,
    toUpperCase: string -> string
  )

  /** The key-derivation parameters every backend uses; changing either breaks the
      decryption of envelopes written with the other value. */
  const Pbkdf2Iterations: nat := 100000
  const DerivedKeyBits: nat := 256

  /** `deriveKey(password, salt)`: PBKDF2-HMAC-SHA-256 over the UTF-8 bytes of the
      password, 100000 iterations, 256 bits.  The AES, ChaCha20 and hybrid backends
      each contain a copy of this derivation with the same parameters. */
  function DeriveKey(p: Platform, password: string, salt: Bytes): Outcome<Bytes>
  {
    p.pbkdf2(p.utf8Encode(password), salt, Pbkdf2Iterations, DerivedKeyBits)
  }

  /** Reading a typed array: an index past the end yields `undefined`, which every
      bitwise operator and every store into a Uint8Array turns into 0. */
  function ByteAt(s: Bytes, i: int): Byte
  {
    if 0 <= i < |s| then s[i] else 0
  }

  /** `s[i % s.length]` on a typed array: for an empty array `i % 0` is NaN and the
      read is `undefined`, hence 0. */
  function ByteAtMod(s: Bytes, i: nat): Byte
  {
    if |s| == 0 then 0 else s[i % |s|]
  }

  function Min(a: int, b: int): int { if a <= b then a else b }

  /** TypedArray.prototype.slice(start, end) for non-negative bounds: both bounds are
      clamped to the length, and an end before the start gives the empty array. */
  function Slice<T>(s: seq<T>, start: nat, end: nat): (r: seq<T>)
    ensures |r| == if Min(end, |s|) <= Min(start, |s|) then 0 else Min(end, |s|) - Min(start, |s|)
    ensures forall k :: 0 <= k < |r| ==> r[k] == s[start + k]
  {
    var a := Min(start, |s|);
    var b := Min(end, |s|);
    if b <= a then [] else s[a..b]
  }

  /** TypedArray.prototype.slice(start) for a non-negative start. */
  function SliceFrom<T>(s: seq<T>, start: nat): (r: seq<T>)
    ensures |r| == if start <= |s| then |s| - start else 0
    ensures forall k :: 0 <= k < |r| ==> r[k] == s[start + k]
  {
    if start <= |s| then s[start..] else []
  }

  /** ECMAScript WhiteSpace and LineTerminator code points (StrWhiteSpaceChar); the same
      set is the regular-expression class `\s`. */
  predicate IsJsWhiteSpace(c: char)
  {
    c == '\t' || c == '\U{000B}' || c == '\U{000C}' || c == ' ' || c == '\U{00A0}' ||
    c == '\U{FEFF}' || c == '\U{1680}' || ('\U{2000}' <= c <= '\U{200A}') ||
    c == '\U{202F}' || c == '\U{205F}' || c == '\U{3000}' ||
    IsLineTerminator(c)
  }

  /** ECMAScript LineTerminator: the characters the regular-expression `.` does not match. */
  predicate IsLineTerminator(c: char)
  {
    c == '\n' || c == '\r' || c == '\U{2028}' || c == '\U{2029}'
  }

  /** The characters btoa emits: A-Z, a-z, 0-9, '+', '/' and the padding '='. */
  predicate IsBase64Char(c: char)
  {
    ('A' <= c <= 'Z') || ('a' <= c <= 'z') || ('0' <= c <= '9') || c == '+' || c == '/' || c == '='
  }

  // ---------------------------------------------------------------------------------
  // Properties of the primitives, assumed only where a lemma names them.

  /** TextDecoder inverts TextEncoder (the reverse does not hold: decoding is lossy). */
  ghost predicate Utf8RoundTrips(p: Platform)
  {
    forall s: string :: p.utf8Decode(p.utf8Encode(s)) == s
  }

  /** The UTF-8 encoding of the empty string is empty. */
  ghost predicate Utf8EmptyIsEmpty(p: Platform)
  {
    p.utf8Encode("") == []
  }

  /** atob inverts btoa. */
  ghost predicate Base64RoundTrips(p: Platform)
  {
    forall b: Bytes :: p.base64Decode(p.base64Encode(b)) == Ok(b)
  }

  /** btoa emits 4 characters per started group of 3 bytes, all from the base64 alphabet. */
  ghost predicate Base64Shape(p: Platform)
  {
    && (forall b: Bytes :: |p.base64Encode(b)| == 4 * ((|b| + 2) / 3))
    && (forall b: Bytes, i :: 0 <= i < |p.base64Encode(b)| ==> IsBase64Char(p.base64Encode(b)[i]))
  }

  /** AES-GCM decryption with the same key and IV returns what encryption sealed. */
  ghost predicate AeadRoundTrips(p: Platform)
  {
    forall k: Bytes, iv: Bytes, m: Bytes ::
      p.aesGcmSeal(k, iv, m).Ok? ==> p.aesGcmOpen(k, iv, p.aesGcmSeal(k, iv, m).value) == Ok(m)
  }

  /** An HMAC-SHA-256 signature is 32 bytes long. */
  ghost predicate HmacIs256Bits(p: Platform)
  {
    forall k: Bytes, d: Bytes :: |p.hmacSha256(k, d)| == 32
  }
}
