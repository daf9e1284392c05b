/** The dispatch of src/services/crypto/index.ts: `encrypt` and `decrypt` choose the
    backend by the algorithm tag.  The tag is a string here, since a JavaScript caller
    can pass any string and the `default` branch is then taken. */
module Router {

  import opened Platform
  import opened CryptoTypes
  import ChaCha
  import KyberSim
  import Aes
  import CustomAlgo

  const UnknownAlgorithm: string := "Unknown algorithm"

  /** The four tags the switch statements recognise. */
  predicate IsKnownTag(algorithm: string)
  {
    algorithm == "aes" || algorithm == "chacha" || algorithm == "kyber" || algorithm == "custom"
  }

  /** `encrypt(text, password, algorithm)`, with the random values the backends draw
      passed in. */
  function EncryptSpec(p: Platform, text: string, password: string, algorithm: string, e: Entropy): (r: CryptoResult)
    requires |e.seed| >= 4
    ensures !IsKnownTag(algorithm) ==> r == Failure(UnknownAlgorithm)
  {
    if algorithm == "aes" then Aes.EncryptSpec(p, text, password, e.salt, e.nonce)
    else if algorithm == "chacha" then ChaCha.EncryptSpec(p, text, password, e.salt, e.nonce)
    else if algorithm == "kyber" then KyberSim.EncryptSpec(p, text, password)
    else if algorithm == "custom" then CustomAlgo.EncryptSpec(p, text, password, e)
    else Failure(UnknownAlgorithm)
  }

  /** `decrypt(encryptedText, password, algorithm)`. */
  function DecryptSpec(p: Platform, encryptedText: string, password: string, algorithm: string): (r: CryptoResult)
    ensures !IsKnownTag(algorithm) ==> r == Failure(UnknownAlgorithm)
  {
    if algorithm == "aes" then Aes.DecryptSpec(p, encryptedText, password)
    else if algorithm == "chacha" then ChaCha.DecryptSpec(p, encryptedText, password)
    else if algorithm == "kyber" then KyberSim.DecryptSpec(p, encryptedText, password)
    else if algorithm == "custom" then CustomAlgo.DecryptSpec(p, encryptedText, password)
    else Failure(UnknownAlgorithm)
  }

  /** The tags of the four algorithms are recognised and pairwise distinct, so each
      algorithm has its own branch in both switches. */
  lemma TagsAreKnownAndDistinct(a: Algorithm, b: Algorithm)
    ensures IsKnownTag(Tag(a))
    ensures Tag(a) == Tag(b) <==> a == b
  {
  }

  /** Encryption under the tag of an algorithm is that backend's encryption, unchanged,
      failures included. */
  lemma EncryptRoutesToBackend(p: Platform, text: string, password: string, a: Algorithm, e: Entropy)
    requires |e.seed| >= 4
    ensures EncryptSpec(p, text, password, Tag(a), e) == match a
      case Aes => Aes.EncryptSpec(p, text, password, e.salt, e.nonce)
      case ChaCha => ChaCha.EncryptSpec(p, text, password, e.salt, e.nonce)
      case Kyber => KyberSim.EncryptSpec(p, text, password)
      case Custom => CustomAlgo.EncryptSpec(p, text, password, e)
  {
  }

  /** Decryption under the tag of an algorithm is the decryption of the backend that
      encryption under the same tag used. */
  lemma DecryptRoutesToBackend(p: Platform, encryptedText: string, password: string, a: Algorithm)
    ensures DecryptSpec(p, encryptedText, password, Tag(a)) == match a
      case Aes => Aes.DecryptSpec(p, encryptedText, password)
      case ChaCha => ChaCha.DecryptSpec(p, encryptedText, password)
      case Kyber => KyberSim.DecryptSpec(p, encryptedText, password)
      case Custom => CustomAlgo.DecryptSpec(p, encryptedText, password)
  {
  }

  /** The foreign calls an encryption under `a` makes all succeed. */
  predicate PrimitivesSucceed(p: Platform, text: string, password: string, a: Algorithm, e: Entropy)
    requires |e.seed| >= 4
  {
    match a
    case Aes =>
      DeriveKey(p, password, e.salt).Ok? &&
      p.aesGcmSeal(DeriveKey(p, password, e.salt).value, e.nonce, p.utf8Encode(text)).Ok?
    case ChaCha => DeriveKey(p, password, e.salt).Ok?
    case Kyber => true
    case Custom => CustomAlgo.LayersSucceed(p, text, password, e)
  }

  /** Round trip through the AES-GCM branch. */
  lemma AesRoundTrip(p: Platform, text: string, password: string, e: Entropy)
    requires Base64RoundTrips(p) && Utf8RoundTrips(p) && AeadRoundTrips(p)
    requires WellSized(e) && PrimitivesSucceed(p, text, password, Algorithm.Aes, e)
    ensures EncryptSpec(p, text, password, "aes", e).Success?
    ensures DecryptSpec(p, EncryptSpec(p, text, password, "aes", e).result, password, "aes") == Success(text)
  {
    Aes.RoundTrip(p, text, password, e.salt, e.nonce);
  }

  /** Round trip through the ChaCha20 branch. */
  lemma ChaChaRoundTrip(p: Platform, text: string, password: string, e: Entropy)
    requires Base64RoundTrips(p) && Utf8RoundTrips(p)
    requires WellSized(e) && PrimitivesSucceed(p, text, password, Algorithm.ChaCha, e)
    ensures EncryptSpec(p, text, password, "chacha", e).Success?
    ensures DecryptSpec(p, EncryptSpec(p, text, password, "chacha", e).result, password, "chacha") == Success(text)
  {
    ChaCha.RoundTrip(p, text, password, e.salt, e.nonce);
  }

  /** Round trip through the Kyber-simulation branch: the text comes back masked. */
  lemma KyberRoundTrip(p: Platform, text: string, password: string, e: Entropy)
    requires Base64RoundTrips(p) && |e.seed| >= 4
    ensures EncryptSpec(p, text, password, "kyber", e).Success?
    ensures DecryptSpec(p, EncryptSpec(p, text, password, "kyber", e).result, password, "kyber")
         == Success(p.utf8Decode(KyberSim.Masked(p.utf8Encode(text))))
  {
    KyberSim.DecryptOfEncrypt(p, text, password);
  }

  /** Round trip through the hybrid branch: every text but the empty one comes back. */
  lemma CustomRoundTrip(p: Platform, text: string, password: string, e: Entropy)
    requires Base64RoundTrips(p) && Utf8RoundTrips(p) && AeadRoundTrips(p) && Base64Shape(p)
    requires WellSized(e) && PrimitivesSucceed(p, text, password, Algorithm.Custom, e)
    ensures EncryptSpec(p, text, password, "custom", e).Success?
    ensures DecryptSpec(p, EncryptSpec(p, text, password, "custom", e).result, password, "custom")
         == if text == "" then Failure(CustomAlgo.InnerLayerFailed) else Success(text)
  {
    var encrypted := CustomAlgo.EncryptSpec(p, text, password, e);
    assert EncryptSpec(p, text, password, "custom", e) == encrypted;
    CustomAlgo.RoundTrip(p, text, password, e);
    assert DecryptSpec(p, encrypted.result, password, "custom") == CustomAlgo.DecryptSpec(p, encrypted.result, password);
  }

  /** What decrypting an encryption under the same tag and password gives: the text for
      AES-GCM and ChaCha20; the text for the hybrid backend unless the text is empty;
      and for the Kyber simulation the text with its UTF-8 bytes masked. */
  lemma RoutedRoundTrip(p: Platform, text: string, password: string, a: Algorithm, e: Entropy)
    requires Base64RoundTrips(p) && Utf8RoundTrips(p) && AeadRoundTrips(p) && Base64Shape(p)
    requires WellSized(e) && PrimitivesSucceed(p, text, password, a, e)
    ensures EncryptSpec(p, text, password, Tag(a), e).Success?
    ensures DecryptSpec(p, EncryptSpec(p, text, password, Tag(a), e).result, password, Tag(a)) == match a
      case Aes => Success(text)
      case ChaCha => Success(text)
      case Kyber => Success(p.utf8Decode(KyberSim.Masked(p.utf8Encode(text))))
      case Custom => if text == "" then Failure(CustomAlgo.InnerLayerFailed) else Success(text)
  {
    match a
    case Aes => AesRoundTrip(p, text, password, e);
    case ChaCha => ChaChaRoundTrip(p, text, password, e);
    case Kyber => KyberRoundTrip(p, text, password, e);
    case Custom => CustomRoundTrip(p, text, password, e);
  }
}
