/** The simulated "Kyber" backend (src/services/crypto/kyber_sim.ts): no lattice
    cryptography, only byte XOR chains.  A key pair is derived from the password's UTF-8
    bytes, encapsulation XORs the message with a 32-byte shared secret built from the
    public key and the message, and decapsulation undoes it with the private key.

    Because decapsulation XORs in the private key where encapsulation used the public
    key, decryption does not recover the message: byte `i` comes back XOR
    `0xAA ^ (17 (i mod 32) mod 256)`.  This module states that behaviour
    (`DecryptOfEncrypt`) and, beside it, the decapsulation with the public key that the
    design evidently intends (`DecapsulateFixedSpec`, `RoundTripFixed`). */
module KyberSim {

  import opened Platform
  import opened CryptoTypes

  const EncryptFallback: string := "Unknown error during encryption"
  const DecryptFallback: string := "Unknown error during decryption"

  /** `i * 17 % 256`, the byte the public key derivation mixes in at position `i`,
      computed in byte arithmetic (`WeightIsProduct` relates the two). */
  function Weight(i: nat): Byte
  {
    (i % 256) as bv8 * 17
  }

  /** The byte weight is the source's integer expression `i * 17 % 256` at every key
      position. */
  lemma WeightIsProduct(i: nat)
    requires i < 32
    ensures Weight(i) as int == i * 17 % 256
  {
  }

  /** What the public key adds to the private key at position `i`. */
  function Mask(i: nat): Byte
  {
    0xAA ^ Weight(i)
  }

  // ---------------------------------------------------------------------------------
  // Specification.

  datatype KeyPair = KeyPair(publicKey: Bytes, privateKey: Bytes)

  /** The private key of `generateKeyPair`: the seed bytes repeated
      (`seedBytes[i % seedBytes.length]`, which reads `undefined`, stored as 0, when
      there are none). */
  function PrivateKeyOf(seedBytes: Bytes): (r: Bytes)
  {
    seq(32, i requires 0 <= i < 32 => ByteAtMod(seedBytes, i))
  }

  /** The public key of `generateKeyPair`: the private key XOR 0xAA XOR `i * 17 % 256`. */
  function PublicKeyOf(privateKey: Bytes): (r: Bytes)
    requires |privateKey| == 32
  {
    seq(32, i requires 0 <= i < 32 => (privateKey[i] ^ 0xAA) ^ Weight(i))
  }

  function KeyPairOf(seedBytes: Bytes): (r: KeyPair)
    ensures |r.privateKey| == 32 && |r.publicKey| == 32
  {
    var privateKey := PrivateKeyOf(seedBytes);
    KeyPair(PublicKeyOf(privateKey), privateKey)
  }

  /** The keys come from the seed bytes as the source promises: repeated seed bytes, or
      zeros for an empty seed, and the public key differs from the private key by the
      mask at each position. */
  lemma KeyPairLayout(seedBytes: Bytes, i: nat)
    requires i < 32
    ensures |seedBytes| > 0 ==> KeyPairOf(seedBytes).privateKey[i] == seedBytes[i % |seedBytes|]
    ensures |seedBytes| == 0 ==> KeyPairOf(seedBytes).privateKey[i] == 0
    ensures KeyPairOf(seedBytes).publicKey[i] ^ KeyPairOf(seedBytes).privateKey[i] == Mask(i)
  {
  }

  datatype Encapsulation = Encapsulation(ciphertext: Bytes, sharedSecret: Bytes)

  /** The shared secret of `encapsulate`: `publicKey[i % publicKey.length] ^
      message[i % message.length]`; an empty message reads as 0. */
  function SharedSecret(publicKey: Bytes, message: Bytes): (r: Bytes)
    ensures |r| == 32
  {
    seq(32, i requires 0 <= i < 32 => ByteAtMod(publicKey, i) ^ ByteAtMod(message, i))
  }

  /** The "encrypted public key information": public key XOR shared secret. */
  function CipherHead(publicKey: Bytes, ss: Bytes): (r: Bytes)
    requires |ss| == 32
    ensures |r| == 32
  {
    seq(32, i requires 0 <= i < 32 => ByteAt(publicKey, i) ^ ss[i])
  }

  /** Each byte of `m` XOR the shared secret, cyclically: the message part of
      `encapsulate` and of `decapsulate` alike. */
  function CipherBody(m: Bytes, ss: Bytes): (r: Bytes)
    requires |ss| == 32
    ensures |r| == |m|
  {
    seq(|m|, i requires 0 <= i < |m| => m[i] ^ ss[i % 32])
  }

  /** `encapsulate(publicKey, message)`: 32 bytes of public key XOR shared secret, then
      each message byte XOR the shared secret, cyclically. */
  function EncapsulateSpec(publicKey: Bytes, message: Bytes): (r: Encapsulation)
    ensures |r.ciphertext| == |message| + 32 && |r.sharedSecret| == 32
  {
    var ss := SharedSecret(publicKey, message);
    Encapsulation(CipherHead(publicKey, ss) + CipherBody(message, ss), ss)
  }

  datatype Decapsulation = Decapsulation(message: Bytes, sharedSecret: Bytes)

  /** The secret `decapsulate` recovers: the first 32 bytes of the ciphertext
      (`slice(0, 32)`, short reads giving 0) XOR the given key. */
  function RecoveredSecret(ciphertext: Bytes, key: Bytes): (r: Bytes)
    ensures |r| == 32
  {
    var info := Slice(ciphertext, 0, 32);
    seq(32, i requires 0 <= i < 32 => ByteAt(info, i) ^ ByteAt(key, i))
  }

  /** `decapsulate(privateKey, ciphertext)`: the shared secret from the head and the
      private key, the message from the rest.  `new Uint8Array(ciphertext.length - 32)`
      throws a RangeError when the ciphertext is shorter than 32 bytes. */
  function DecapsulateSpec(p: Platform, privateKey: Bytes, ciphertext: Bytes): (r: Outcome<Decapsulation>)
    ensures r.Throw? <==> |ciphertext| < 32
    ensures r.Ok? ==> |r.value.message| == |ciphertext| - 32
  {
    var ss := RecoveredSecret(ciphertext, privateKey);
    if |ciphertext| < 32 then Throw(ErrorObject(p.invalidLengthMessage(|ciphertext| - 32)))
    else Ok(Decapsulation(CipherBody(ciphertext[32..], ss), ss))
  }

  /** `encrypt(text, password)`: the public key from the password, the UTF-8 bytes of
      the text encapsulated, the ciphertext in base64.  No step of the model throws,
      and there is no randomness: the result is a function of text and password. */
  function EncryptSpec(p: Platform, text: string, password: string): (r: CryptoResult)
    ensures r.Success?
  {
    var keys := KeyPairOf(p.utf8Encode(password));
    Success(p.base64Encode(EncapsulateSpec(keys.publicKey, p.utf8Encode(text)).ciphertext))
  }

  /** `decrypt(encryptedText, password)`: the private key from the password, atob, the
      decapsulation, TextDecoder; a throw from atob or from the length check is reported
      through the catch block. */
  function DecryptSpec(p: Platform, encryptedText: string, password: string): (r: CryptoResult)
  {
    var keys := KeyPairOf(p.utf8Encode(password));
    match p.base64Decode(encryptedText)
    case Throw(t) => Failure(CaughtMessage(t, DecryptFallback))
    case Ok(ciphertext) =>
      match DecapsulateSpec(p, keys.privateKey, ciphertext)
      case Throw(t) => Failure(CaughtMessage(t, DecryptFallback))
      case Ok(d) => Success(p.utf8Decode(d.message))
  }

  // ---------------------------------------------------------------------------------
  // The source's loops.

  /** `generateKeyPair(seed)`: two fresh 32-byte arrays filled by index loops. */
  method GenerateKeyPair(p: Platform, seed: string) returns (r: KeyPair)
    ensures r == KeyPairOf(p.utf8Encode(seed))
  {
    var seedBytes := p.utf8Encode(seed);
    var privateKey := new bv8[32];
    var publicKey := new bv8[32];
    ghost var sk := PrivateKeyOf(seedBytes);
    for i := 0 to 32
      invariant privateKey[..i] == sk[..i]
    {
      privateKey[i] := ByteAtMod(seedBytes, i);
    }
    assert privateKey[..] == privateKey[..32];
    ghost var pk := PublicKeyOf(sk);
    for i := 0 to 32
      invariant privateKey[..] == sk
      invariant publicKey[..i] == pk[..i]
    {
      publicKey[i] := (privateKey[i] ^ 0xAA) ^ Weight(i);
    }
    assert publicKey[..] == publicKey[..32];
    r := KeyPair(publicKey[..], privateKey[..]);
  }

  /** `encapsulate(publicKey, message)`: the shared secret, the ciphertext head and the
      ciphertext body, each filled by its own loop. */
  method Encapsulate(publicKey: Bytes, message: Bytes) returns (r: Encapsulation)
    ensures r == EncapsulateSpec(publicKey, message)
  {
    var ciphertext := new bv8[|message| + 32];
    var sharedSecret := new bv8[32];
    ghost var ss := SharedSecret(publicKey, message);
    for i := 0 to 32
      invariant forall j :: 0 <= j < i ==> sharedSecret[j] == ss[j]
    {
      sharedSecret[i] := ByteAtMod(publicKey, i) ^ ByteAtMod(message, i);
    }
    assert sharedSecret[..] == ss;
    ghost var head := CipherHead(publicKey, ss);
    for i := 0 to 32
      invariant sharedSecret[..] == ss
      invariant forall j :: 0 <= j < i ==> ciphertext[j] == head[j]
    {
      ciphertext[i] := ByteAt(publicKey, i) ^ sharedSecret[i];
    }
    ghost var body := CipherBody(message, ss);
    for i := 0 to |message|
      invariant sharedSecret[..] == ss
      invariant forall j :: 0 <= j < 32 ==> ciphertext[j] == head[j]
      invariant forall j :: 32 <= j < i + 32 ==> ciphertext[j] == body[j - 32]
    {
      ciphertext[i + 32] := message[i] ^ sharedSecret[i % 32];
    }
    assert ciphertext[..] == head + body;
    r := Encapsulation(ciphertext[..], sharedSecret[..]);
  }

  /** `decapsulate(privateKey, ciphertext)`: the shared secret loop, the length check of
      `new Uint8Array`, the message loop. */
  method Decapsulate(p: Platform, privateKey: Bytes, ciphertext: Bytes) returns (r: Outcome<Decapsulation>)
    ensures r == DecapsulateSpec(p, privateKey, ciphertext)
  {
    var sharedSecret := new bv8[32];
    var encPublicKeyInfo := Slice(ciphertext, 0, 32);
    ghost var ss := RecoveredSecret(ciphertext, privateKey);
    for i := 0 to 32
      invariant forall j :: 0 <= j < i ==> sharedSecret[j] == ss[j]
    {
      sharedSecret[i] := ByteAt(encPublicKeyInfo, i) ^ ByteAt(privateKey, i);
    }
    assert sharedSecret[..] == ss;
    var messageLength := |ciphertext| - 32;
    if messageLength < 0 {
      return Throw(ErrorObject(p.invalidLengthMessage(messageLength)));
    }
    var message := new bv8[messageLength];
    ghost var body := CipherBody(ciphertext[32..], ss);
    for i := 0 to messageLength
      invariant sharedSecret[..] == ss
      invariant forall j :: 0 <= j < i ==> message[j] == body[j]
    {
      message[i] := ciphertext[i + 32] ^ sharedSecret[i % 32];
    }
    assert message[..] == body;
    r := Ok(Decapsulation(message[..], sharedSecret[..]));
  }

  /** `encrypt`, step by step. */
  method Encrypt(p: Platform, text: string, password: string) returns (r: CryptoResult)
    ensures r == EncryptSpec(p, text, password)
  {
    var message := p.utf8Encode(text);
    var keys := GenerateKeyPair(p, password);
    var e := Encapsulate(keys.publicKey, message);
    r := Success(p.base64Encode(e.ciphertext));
  }

  /** `decrypt`, step by step. */
  method Decrypt(p: Platform, encryptedText: string, password: string) returns (r: CryptoResult)
    ensures r == DecryptSpec(p, encryptedText, password)
  {
    var keys := GenerateKeyPair(p, password);
    var ciphertext := p.base64Decode(encryptedText);
    if ciphertext.Throw? {
      return Failure(CaughtMessage(ciphertext.thrown, DecryptFallback));
    }
    var d := Decapsulate(p, keys.privateKey, ciphertext.value);
    if d.Throw? {
      return Failure(CaughtMessage(d.thrown, DecryptFallback));
    }
    r := Success(p.utf8Decode(d.value.message));
  }

  // ---------------------------------------------------------------------------------
  // What decryption actually returns.

  /** The message XOR the mask of its position modulo 32. */
  function Masked(m: Bytes): (r: Bytes)
    ensures |r| == |m|
  {
    seq(|m|, i requires 0 <= i < |m| => m[i] ^ Mask(i % 32))
  }

  /** The secret recovered from a ciphertext that starts with a head is the head's
      public key XOR shared secret XOR the key used to recover it. */
  lemma RecoveredFromHead(publicKey: Bytes, ss: Bytes, rest: Bytes, key: Bytes)
    requires |ss| == 32
    ensures forall k :: 0 <= k < 32 ==>
      RecoveredSecret(CipherHead(publicKey, ss) + rest, key)[k] == ByteAt(publicKey, k) ^ ss[k] ^ ByteAt(key, k)
  {
    var head := CipherHead(publicKey, ss);
    assert Slice(head + rest, 0, 32) == head;
  }

  /** Masking a body twice XORs both secrets into each byte. */
  lemma BodyTwice(m: Bytes, ss: Bytes, ss2: Bytes)
    requires |ss| == 32 && |ss2| == 32
    ensures forall i :: 0 <= i < |m| ==> CipherBody(CipherBody(m, ss), ss2)[i] == m[i] ^ ss[i % 32] ^ ss2[i % 32]
  {
  }

  /** Decapsulating with any 32-byte private key what was encapsulated with a 32-byte
      public key gives the message XOR both keys, cyclically: the shared secret
      cancels, the keys do not. */
  lemma DecapsulateEncapsulate(p: Platform, publicKey: Bytes, privateKey: Bytes, m: Bytes)
    requires |publicKey| == 32 && |privateKey| == 32
    ensures DecapsulateSpec(p, privateKey, EncapsulateSpec(publicKey, m).ciphertext).Ok?
    ensures var d := DecapsulateSpec(p, privateKey, EncapsulateSpec(publicKey, m).ciphertext).value;
      |d.message| == |m| &&
      forall i :: 0 <= i < |m| ==>
        d.message[i] == m[i] ^ publicKey[i % 32] ^ privateKey[i % 32]
  {
    var ss := SharedSecret(publicKey, m);
    var head, body := CipherHead(publicKey, ss), CipherBody(m, ss);
    assert (head + body)[32..] == body;
    RecoveredFromHead(publicKey, ss, body, privateKey);
    var recovered := RecoveredSecret(head + body, privateKey);
    BodyTwice(m, ss, recovered);
  }

  /** The defect: decrypting an encryption under the same password gives (before UTF-8
      decoding) the message XOR the mask, not the message, when atob inverts btoa. */
  lemma DecryptOfEncrypt(p: Platform, text: string, password: string)
    requires Base64RoundTrips(p)
    ensures DecryptSpec(p, EncryptSpec(p, text, password).result, password)
      == Success(p.utf8Decode(Masked(p.utf8Encode(text))))
  {
    var keys := KeyPairOf(p.utf8Encode(password));
    var m := p.utf8Encode(text);
    var ct := EncapsulateSpec(keys.publicKey, m).ciphertext;
    assert p.base64Decode(p.base64Encode(ct)) == Ok(ct);
    DecapsulateEncapsulate(p, keys.publicKey, keys.privateKey, m);
    var d := DecapsulateSpec(p, keys.privateKey, ct).value;
    forall i | 0 <= i < |m| ensures d.message[i] == Masked(m)[i] {
      KeyPairLayout(p.utf8Encode(password), i % 32);
    }
    assert d.message == Masked(m);
  }

  /** The mask leaves the message unchanged exactly when it is empty: byte 0 is always
      flipped by 0xAA. */
  lemma MaskedChanges(m: Bytes)
    ensures Masked(m) == m <==> |m| == 0
  {
    if |m| > 0 {
      assert Masked(m)[0] == m[0] ^ 0xAA;
    }
  }

  /** Among the 32 key positions, the mask is zero only at position 10, since
      17 * 10 = 0xAA: that byte of every 32 is the only one decryption gets back. */
  lemma MaskZeroAtTen(k: nat)
    requires k < 32
    ensures Mask(k) == 0 <==> k == 10
  {
  }

  /** An empty message reads as 0 at every position, so the shared secret is the
      32-byte public key itself and the ciphertext head is all zero. */
  lemma EmptyMessageSecretIsKey(publicKey: Bytes)
    requires |publicKey| == 32
    ensures EncapsulateSpec(publicKey, []).sharedSecret == publicKey
    ensures EncapsulateSpec(publicKey, []).ciphertext == seq(32, i => 0 as bv8)
  {
    var ss := SharedSecret(publicKey, []);
    forall i | 0 <= i < 32 ensures ss[i] == publicKey[i] {
      assert ByteAtMod(publicKey, i) == publicKey[i];
    }
    assert CipherBody([], ss) == [];
    assert CipherHead(publicKey, ss) + [] == CipherHead(publicKey, ss);
  }

  /** A ciphertext shorter than the 32-byte head makes decryption fail with the message
      of the RangeError of the negative array length. */
  lemma ShortCiphertextFails(p: Platform, encryptedText: string, password: string)
    requires p.base64Decode(encryptedText).Ok? && |p.base64Decode(encryptedText).value| < 32
    ensures DecryptSpec(p, encryptedText, password)
      == Failure(p.invalidLengthMessage(|p.base64Decode(encryptedText).value| - 32))
  {
  }

  // ---------------------------------------------------------------------------------
  // The decapsulation the design intends.

  /** Decapsulation that recovers the shared secret with the public key derived from the
      private key, the inverse of the head of `encapsulate`. */
  function DecapsulateFixedSpec(p: Platform, privateKey: Bytes, ciphertext: Bytes): (r: Outcome<Decapsulation>)
    requires |privateKey| == 32
    ensures r.Throw? <==> |ciphertext| < 32
  {
    var ss := RecoveredSecret(ciphertext, PublicKeyOf(privateKey));
    if |ciphertext| < 32 then Throw(ErrorObject(p.invalidLengthMessage(|ciphertext| - 32)))
    else Ok(Decapsulation(CipherBody(ciphertext[32..], ss), ss))
  }

  /** `decrypt` with the intended decapsulation. */
  function DecryptFixedSpec(p: Platform, encryptedText: string, password: string): (r: CryptoResult)
  {
    var keys := KeyPairOf(p.utf8Encode(password));
    match p.base64Decode(encryptedText)
    case Throw(t) => Failure(CaughtMessage(t, DecryptFallback))
    case Ok(ciphertext) =>
      match DecapsulateFixedSpec(p, keys.privateKey, ciphertext)
      case Throw(t) => Failure(CaughtMessage(t, DecryptFallback))
      case Ok(d) => Success(p.utf8Decode(d.message))
  }

  /** With the intended decapsulation, decryption inverts encryption and recovers the
      shared secret. */
  lemma RoundTripFixed(p: Platform, text: string, password: string)
    requires Base64RoundTrips(p) && Utf8RoundTrips(p)
    ensures DecryptFixedSpec(p, EncryptSpec(p, text, password).result, password) == Success(text)
  {
    var keys := KeyPairOf(p.utf8Encode(password));
    var m := p.utf8Encode(text);
    var e := EncapsulateSpec(keys.publicKey, m);
    assert p.base64Decode(p.base64Encode(e.ciphertext)) == Ok(e.ciphertext);
    var d := DecapsulateFixedSpec(p, keys.privateKey, e.ciphertext).value;
    forall k | 0 <= k < 32 ensures d.sharedSecret[k] == e.sharedSecret[k] {
      assert e.ciphertext[k] == keys.publicKey[k] ^ e.sharedSecret[k];
    }
    forall i | 0 <= i < |m| ensures d.message[i] == m[i] {
      assert e.ciphertext[i + 32] == m[i] ^ e.sharedSecret[i % 32];
    }
    assert d.message == m;
  }
}
