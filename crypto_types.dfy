/** The types shared by the crypto engine and its callers (src/types/crypto.ts). */
module CryptoTypes {

  import opened Platform

  /** The algorithm tags 'aes' | 'chacha' | 'kyber' | 'custom'. */
  datatype Algorithm = Aes | ChaCha | Kyber | Custom

  function Tag(a: Algorithm): string
  {
    match a
    case Aes => "aes"
    case ChaCha => "chacha"
    case Kyber => "kyber"
    case Custom => "custom"
  }

  /** `CryptoResult`: every backend returns either `{success: true, result}` or
      `{success: false, error}`, never both fields. */
  datatype CryptoResult = Success(result: string) | Failure(error: string)

  /** `!r.success || !r.result`, the test a caller applies before using a result: it
      also rejects a successful empty string, which is falsy. */
  predicate HasText(r: CryptoResult)
  {
    r.Success? && r.result != ""
  }

  /** The random values an encrypt call draws with crypto.getRandomValues, passed in.
      The AES and ChaCha20 backends use `salt` and `nonce`; the hybrid backend draws
      `salt1`, `salt2` and `seed` itself, and its ChaCha20 layer uses `salt`/`nonce`
      and its AES layer `outerSalt`/`outerNonce`. */
  datatype Entropy = Entropy(
    salt: Bytes, nonce: Bytes,
    salt1: Bytes, salt2: Bytes, seed: Bytes,
    outerSalt: Bytes, outerNonce: Bytes)

  /** The sizes the source asks getRandomValues for. */
  predicate WellSized(e: Entropy)
  {
    && |e.salt| == 16 && |e.nonce| == 12
    && |e.salt1| == 32 && |e.salt2| == 32 && |e.seed| == 4
    && |e.outerSalt| == 16 && |e.outerNonce| == 12
  }
}
