/** The AES-256-GCM backend (src/services/crypto/aes.ts): a key derived from the
    password with PBKDF2, the platform's AES-GCM for the cipher and its tag, and the
    salt[16] ‖ iv[12] ‖ ciphertext envelope in base64.  The CryptoKey the source keeps
    non-extractable is modelled by its raw bytes, which is all AES-GCM is applied to. */
module Aes {

  import opened Platform
  import opened CryptoTypes
  import Envelope

  const EncryptFallback: string := "Encryption failed"
  const DecryptFallback: string := "Decryption failed"

  /** `encrypt(text, password)` with the random salt (16 bytes) and IV (12 bytes) given:
      the key from password and salt, AES-GCM over the UTF-8 bytes of the text, and
      base64(salt ‖ iv ‖ sealed).  A throw from the key derivation or from the cipher is
      reported through the catch block. */
  function EncryptSpec(p: Platform, text: string, password: string, salt: Bytes, iv: Bytes): (r: CryptoResult)
  {
    match DeriveKey(p, password, salt)
    case Throw(t) => Failure(CaughtMessage(t, EncryptFallback))
    case Ok(key) =>
      match p.aesGcmSeal(key, iv, p.utf8Encode(text))
      case Throw(t) => Failure(CaughtMessage(t, EncryptFallback))
      case Ok(encrypted) => Success(p.base64Encode(salt + iv + encrypted))
  }

  /** `decrypt(encryptedText, password)`: base64 decoding, the split at 16 and 28, the
      key from the envelope's salt, AES-GCM decryption (which throws when the tag does
      not verify), UTF-8 decoding. */
  function DecryptSpec(p: Platform, encryptedText: string, password: string): (r: CryptoResult)
  {
    match p.base64Decode(encryptedText)
    case Throw(t) => Failure(CaughtMessage(t, DecryptFallback))
    case Ok(encryptedData) =>
      var parts := Envelope.Split(encryptedData);
      match DeriveKey(p, password, parts.salt)
      case Throw(t) => Failure(CaughtMessage(t, DecryptFallback))
      case Ok(key) =>
        match p.aesGcmOpen(key, parts.nonce, parts.payload)
        case Throw(t) => Failure(CaughtMessage(t, DecryptFallback))
        case Ok(decrypted) => Success(p.utf8Decode(decrypted))
  }

  /** `encrypt`, step by step as the source runs it. */
  method Encrypt(p: Platform, text: string, password: string, salt: Bytes, iv: Bytes) returns (r: CryptoResult)
    ensures r == EncryptSpec(p, text, password, salt, iv)
  {
    var key := DeriveKey(p, password, salt);
    if key.Throw? {
      return Failure(CaughtMessage(key.thrown, EncryptFallback));
    }
    var data := p.utf8Encode(text);
    var encrypted := p.aesGcmSeal(key.value, iv, data);
    if encrypted.Throw? {
      return Failure(CaughtMessage(encrypted.thrown, EncryptFallback));
    }
    var result := Envelope.Assemble(salt, iv, encrypted.value);
    r := Success(p.base64Encode(result[..]));
  }

  /** `decrypt`, one statement per statement of the source: atob (aes.ts:94-96), the
      three slices (99-101), `deriveKey` (104), `crypto.subtle.decrypt` (107-114) and
      the decoding of the result (116-119).  Each call that can throw leaves at once
      through the catch block (120-125); the early returns stand for those exits.  The
      method is checked against the single expression `DecryptSpec`. */
  method Decrypt(p: Platform, encryptedText: string, password: string) returns (r: CryptoResult)
    ensures r == DecryptSpec(p, encryptedText, password)
  {
    var encryptedData := p.base64Decode(encryptedText);
    if encryptedData.Throw? {
      return Failure(CaughtMessage(encryptedData.thrown, DecryptFallback));
    }
    var salt := Slice(encryptedData.value, 0, 16);
    var iv := Slice(encryptedData.value, 16, 28);
    var data := SliceFrom(encryptedData.value, 28);
    var key := DeriveKey(p, password, salt);
    if key.Throw? {
      return Failure(CaughtMessage(key.thrown, DecryptFallback));
    }
    var decrypted := p.aesGcmOpen(key.value, iv, data);
    if decrypted.Throw? {
      return Failure(CaughtMessage(decrypted.thrown, DecryptFallback));
    }
    r := Success(p.utf8Decode(decrypted.value));
  }

  /** Decrypting what encryption produced with the same password gives the text back,
      when atob inverts btoa, TextDecoder inverts TextEncoder, AES-GCM decryption
      inverts encryption, and neither the key derivation nor the sealing throws. */
  lemma RoundTrip(p: Platform, text: string, password: string, salt: Bytes, iv: Bytes)
    requires Base64RoundTrips(p) && Utf8RoundTrips(p) && AeadRoundTrips(p)
    requires |salt| == Envelope.SaltLength && |iv| == Envelope.NonceLength
    requires DeriveKey(p, password, salt).Ok?
    requires p.aesGcmSeal(DeriveKey(p, password, salt).value, iv, p.utf8Encode(text)).Ok?
    ensures EncryptSpec(p, text, password, salt, iv).Success?
    ensures DecryptSpec(p, EncryptSpec(p, text, password, salt, iv).result, password) == Success(text)
  {
    var key := DeriveKey(p, password, salt).value;
    var data := p.utf8Encode(text);
    var sealed := p.aesGcmSeal(key, iv, data).value;
    assert p.base64Decode(p.base64Encode(salt + iv + sealed)) == Ok(salt + iv + sealed);
    Envelope.SplitInvertsAssembly(salt, iv, sealed);
    assert p.aesGcmOpen(key, iv, sealed) == Ok(data);
  }

  /** The encoded envelope carries the salt and IV in the clear, ahead of the sealed
      bytes, so that decryption can find them. */
  lemma EnvelopeLayout(p: Platform, text: string, password: string, salt: Bytes, iv: Bytes)
    requires Base64RoundTrips(p)
    requires |salt| == Envelope.SaltLength && |iv| == Envelope.NonceLength
    requires EncryptSpec(p, text, password, salt, iv).Success?
    ensures p.base64Decode(EncryptSpec(p, text, password, salt, iv).result).Ok?
    ensures var parts := Envelope.Split(p.base64Decode(EncryptSpec(p, text, password, salt, iv).result).value);
      parts.salt == salt && parts.nonce == iv &&
      Ok(parts.payload) == p.aesGcmSeal(DeriveKey(p, password, salt).value, iv, p.utf8Encode(text))
  {
    var key := DeriveKey(p, password, salt).value;
    var sealed := p.aesGcmSeal(key, iv, p.utf8Encode(text)).value;
    assert p.base64Decode(p.base64Encode(salt + iv + sealed)) == Ok(salt + iv + sealed);
    Envelope.SplitInvertsAssembly(salt, iv, sealed);
  }

  /** Encryption fails exactly when the key derivation or the sealing throws. */
  lemma EncryptFailure(p: Platform, text: string, password: string, salt: Bytes, iv: Bytes)
    ensures EncryptSpec(p, text, password, salt, iv).Failure? <==>
      DeriveKey(p, password, salt).Throw? ||
      p.aesGcmSeal(DeriveKey(p, password, salt).value, iv, p.utf8Encode(text)).Throw?
  {
  }

  /** Decryption is authenticated by the cipher: it succeeds exactly when the text is
      base64, the key derivation succeeds and AES-GCM accepts the tag; when AES-GCM
      rejects it, the result is a failure carrying the cipher's error message. */
  lemma DecryptSucceedsIff(p: Platform, encryptedText: string, password: string)
    ensures var data := p.base64Decode(encryptedText);
      DecryptSpec(p, encryptedText, password).Success? <==>
        data.Ok? &&
        DeriveKey(p, password, Envelope.Split(data.value).salt).Ok? &&
        p.aesGcmOpen(DeriveKey(p, password, Envelope.Split(data.value).salt).value,
                     Envelope.Split(data.value).nonce, Envelope.Split(data.value).payload).Ok?
    ensures var data := p.base64Decode(encryptedText);
      data.Ok? && DeriveKey(p, password, Envelope.Split(data.value).salt).Ok? ==>
        var result := p.aesGcmOpen(DeriveKey(p, password, Envelope.Split(data.value).salt).value,
                                   Envelope.Split(data.value).nonce, Envelope.Split(data.value).payload);
        result.Throw? ==> DecryptSpec(p, encryptedText, password) == Failure(CaughtMessage(result.thrown, DecryptFallback))
  {
  }
}
