# BlackBox crypto engine in Dafny

A model of the encryption engine of BlackBox (`src/services/crypto/`) and of the password
strength meter of its encryptor screen, with proofs of what each part does.

- **ChaCha20** (`chacha.dfy`, module `ChaCha`). The quarter round, the block function and
  counter-mode processing follow sections 2.1, 2.3 and 2.4 of RFC 8439. They are written
  as methods over `array<bv32>` and `array<bv8>`, in the source's loop structure, and each
  is proved equal to a specification function. The password envelope is
  salt[16] ‖ nonce[12] ‖ ciphertext in base64, and it carries no authentication.
- **Simulated Kyber** (`kyber_sim.dfy`, module `KyberSim`). Key generation, encapsulation
  and decapsulation are the byte-XOR loops of the source. As written, decryption does not
  invert encryption: every byte comes back XORed with a fixed mask.
- **AES-GCM** (`aes.dfy`, module `Aes`). This covers the envelope salt[16] ‖ iv[12] ‖ sealed
  bytes, its split, and the error wrapping. AES-GCM itself is abstract.
- **Hybrid backend** (`custom_algo.dfy`, module `CustomAlgo`). It chains:
  - ChaCha20 under a PBKDF2 key;
  - marker obfuscation with a seed-derived period;
  - AES-GCM under a second key;
  - an HMAC-SHA-256 integrity tag over the first layer;
  - the `hex(salt1)|hex(salt2)|hex(seed)|tag|layer2` text.

  It also includes the hex codec, the `parseInt`-based hex decoder and the OR-of-XOR tag
  comparison.
- **Router** (`router.dfy`, module `Router`). The `switch` on the algorithm tag in
  `index.ts`.
- **Password strength** (`password_strength.dfy`, module `PasswordStrength`). The
  bonus/penalty accumulation of `calculatePasswordStrength`, its clamps, and the
  score-to-label buckets.

Shared modules:
- `Platform` (`platform.dfy`): byte types, JavaScript exception values and the browser
  primitives. It includes the clamped `slice` and the `undefined`-reads-as-0 byte access.
- `CryptoTypes` (`crypto_types.dfy`): the algorithm tags and the `{success, result | error}`
  result.
- `Envelope` (`envelope.dfy`): the salt ‖ nonce ‖ payload buffer shared by AES and ChaCha20.

The browser primitives are fields of one `Platform` value:
- TextEncoder and TextDecoder;
- `btoa` and `atob`;
- PBKDF2, SHA-256, HMAC-SHA-256;
- AES-GCM seal and open;
- toLowerCase and toUpperCase.

Every operation receives this value as a parameter. The assumptions the round trips need
are separate predicates, required only by the lemmas that use them:

| predicate | states |
|---|---|
| `Utf8RoundTrips` | decode undoes encode |
| `Base64RoundTrips` | `atob` undoes `btoa` |
| `AeadRoundTrips` | open undoes seal |
| `Base64Shape` | base64 text uses only the base64 alphabet and is empty only for no bytes |
| `HmacIs256Bits` | HMAC output is 32 bytes |

A thrown exception is an `Outcome.Throw` carrying either an `Error` object (its message is
reported) or another value (the fallback message is reported). The random salts, nonces
and seed are parameters.

## Model

| member | source | states |
|---|---|---|
| Platform.CaughtMessage | src/services/crypto/aes.ts:120-125 | the catch block reports an `Error` object by its message and any other thrown value by the fallback text |
| Platform.DeriveKey | src/services/crypto/chacha.ts:98-128 | `deriveKey` is PBKDF2-HMAC-SHA-256 over the password's UTF-8 bytes with the given salt, 100000 iterations and 256 bits, and throws when the platform does |
| Platform.ByteAt | src/services/crypto/chacha.ts:48-60 | a typed-array read past the end is `undefined`, which a bitwise operator turns into 0 |
| Platform.ByteAtMod | src/services/crypto/kyber_sim.ts:29 | `seedBytes[i % seedBytes.length]` reads byte i mod n, and 0 for an empty array, where `i % 0` is NaN |
| Platform.Slice | src/services/crypto/chacha.ts:187-188 | `slice(start, end)` clamps both ends to the array: the length is the clamped difference and element k is element start + k |
| Platform.SliceFrom | src/services/crypto/chacha.ts:189 | `slice(start)` keeps what lies past start, or nothing when start is past the end |
| Envelope.SetAt | src/services/crypto/aes.ts:74-76 | `set(src, offset)` overwrites exactly the positions from offset on, as many as src has, with src and keeps the rest |
| Envelope.Split | src/services/crypto/aes.ts:99-101 | the salt is `slice(0, 16)`, the nonce `slice(16, 28)` and the payload `slice(28)`, each clamped to the data |
| Envelope.Assemble | src/services/crypto/aes.ts:73-76 | the new buffer is salt ‖ nonce ‖ payload, with the salt at 0, the nonce at 16 and the payload at 28 |
| Envelope.SplitInvertsAssembly | src/services/crypto/aes.ts:98-101 | slicing at 16 and 28 returns exactly the salt, nonce and payload that were packed |
| Envelope.SplitCoversData | src/services/crypto/chacha.ts:187-189 | the three slices concatenate back to the data; the salt and nonce are short only when the data is |
| Aes.Encrypt | src/services/crypto/aes.ts:52-89 | returns the key derivation's or the cipher's error message through the catch block, else base64(salt ‖ iv ‖ sealed) |
| Aes.EncryptSpec | src/services/crypto/aes.ts:52-89 | encryption as one expression: the key derivation, AES-GCM sealing of the UTF-8 text, base64(salt ‖ iv ‖ sealed), and each throw reported by its message or "Encryption failed" |
| Aes.DecryptSpec | src/services/crypto/aes.ts:91-126 | decryption as one expression: atob, the split at 16 and 28, the key from the salt, AES-GCM open, UTF-8 decoding, and each throw reported by its message or "Decryption failed" |
| Aes.Decrypt | src/services/crypto/aes.ts:91-126 | atob, the split at 16 and 28, the key from the envelope's salt, AES-GCM open, UTF-8 decoding, each throw reported as a failure |
| Aes.RoundTrip | src/services/crypto/aes.ts:52-126 | when the codecs and AES-GCM invert themselves and the derivation and sealing succeed, decryption gives the text back |
| Aes.EnvelopeLayout | src/services/crypto/aes.ts:73-76 | the decoded envelope carries the salt and IV in the clear ahead of exactly the sealed bytes |
| Aes.EncryptFailure | src/services/crypto/aes.ts:83-88 | encryption fails exactly when the key derivation or the sealing throws |
| Aes.DecryptSucceedsIff | src/services/crypto/aes.ts:120-125 | decryption succeeds iff atob, the derivation and the tag check all succeed; a tag rejection is reported with the cipher's message |
| ChaCha.StepAt | src/services/crypto/chacha.ts:30 | one add-xor-rotate step keeps the state's length |
| ChaCha.Qr | src/services/crypto/chacha.ts:29-34 | the word-level quarter round of section 2.1 of RFC 8439, the four add-xor-rotate lines with rotations 16, 12, 8 and 7 |
| ChaCha.RotL | src/services/crypto/chacha.ts:24-26 | the OR of `a << b` and `a >>> (32 - b)`, with JavaScript's shift counts taken modulo 32, stored back as 32 bits |
| ChaCha.StepAtEffect | src/services/crypto/chacha.ts:30-33 | a step writes `x += y` then `z = rotl(z ^ x, n)` modulo 2^32 and leaves every other word unchanged |
| ChaCha.QuarterRoundAt | src/services/crypto/chacha.ts:29-34 | the quarter round keeps the state's length |
| ChaCha.QuarterRoundAtIsQr | src/services/crypto/chacha.ts:29-34 | on distinct indices the quarter round puts the section 2.1 quarter round of RFC 8439 into words a, b, c, d and changes no other word |
| ChaCha.Run | src/services/crypto/chacha.ts:66-78 | the round schedule keeps 16 words |
| ChaCha.DoubleRound | src/services/crypto/chacha.ts:68-77 | a column round then a diagonal round keep 16 words |
| ChaCha.Rounds | src/services/crypto/chacha.ts:66 | n double rounds keep 16 words |
| ChaCha.DoubleRoundSteps | src/services/crypto/chacha.ts:68-77 | the eight quarter rounds in the source's order are one double round |
| ChaCha.SigmaWords | src/services/crypto/chacha.ts:41-44 | the four SIGMA words read little-endian are the constants "expand 32-byte k" of RFC 8439 |
| ChaCha.RoundsStep | src/services/crypto/chacha.ts:66-78 | n double rounds are one double round followed by n - 1 more |
| ChaCha.WordLE | src/services/crypto/chacha.ts:41-60 | the little-endian word of four bytes (byte k shifted by 8k, all OR-ed), a byte past the end reading as 0 |
| ChaCha.IsInitialState | src/services/crypto/chacha.ts:41-60 | the layout of the initial state: the four constants, eight key words, the counter, three nonce words |
| ChaCha.InitialState | src/services/crypto/chacha.ts:38-60 | the initial state has 16 words |
| ChaCha.InitialStateLayout | src/services/crypto/chacha.ts:41-60 | words 0-3 are the constants, 4-11 the key, 12 the counter and 13-15 the nonce, read little-endian, with missing bytes as 0 |
| ChaCha.InitialStateUnique | src/services/crypto/chacha.ts:41-60 | that layout determines the state |
| ChaCha.Serialize | src/services/crypto/chacha.ts:86-92 | serialization yields 4 bytes per word |
| ChaCha.WordByte | src/services/crypto/chacha.ts:88-91 | byte j of a word is `(w >>> 8j) & 0xff` |
| ChaCha.SerializeAt | src/services/crypto/chacha.ts:88-91 | byte 4i + j is byte j (least significant first) of word i |
| ChaCha.AddWords | src/services/crypto/chacha.ts:81-83 | each word is added to the initial state's word modulo 2^32 |
| ChaCha.BlockSpec | src/services/crypto/chacha.ts:37-95 | a block is 64 bytes |
| ChaCha.XorChunk | src/services/crypto/chacha.ts:139-141 | each byte of the chunk is XORed with the keystream byte at the same offset |
| ChaCha.XorStream | src/services/crypto/chacha.ts:135-142 | XOR with consecutive 64-byte blocks keeps the length |
| ChaCha.BlockCount | src/services/crypto/chacha.ts:135 | the loop runs the fewest 64-byte blocks covering the data |
| ChaCha.BlockCounter | src/services/crypto/chacha.ts:136 | the counter of block b counts up from 1 modulo 2^32, as a Uint32Array slot keeps it |
| ChaCha.KeystreamBlock | src/services/crypto/chacha.ts:136 | keystream block b is the block function at counter BlockCounter(b) |
| ChaCha.Keystream | src/services/crypto/chacha.ts:133-136 | the keystream has one block per iteration |
| ChaCha.ProcessSpec | src/services/crypto/chacha.ts:131-145 | the output has the input's length |
| ChaCha.XorStreamAt | src/services/crypto/chacha.ts:139-141 | byte 64b + j of the output is the data byte XOR byte j of block b |
| ChaCha.XorStreamInvolution | src/services/crypto/chacha.ts:131-145 | XOR with the same blocks twice restores the data |
| ChaCha.RotLRotates | src/services/crypto/chacha.ts:24-26 | the shift-or of line 25, stored as 32 bits, is the rotate-left by 7, 8, 12 and 16 |
| ChaCha.Step | src/services/crypto/chacha.ts:30-33 | the in-place step leaves the array as the step function says |
| ChaCha.QuarterRound | src/services/crypto/chacha.ts:29-34 | the in-place quarter round leaves the array as the quarter round function says |
| ChaCha.Setup | src/services/crypto/chacha.ts:38-60 | the fresh state has the constant, key, counter and nonce layout |
| ChaCha.DoubleRoundInPlace | src/services/crypto/chacha.ts:67-77 | the eight in-place quarter rounds perform one double round |
| ChaCha.TwentyRounds | src/services/crypto/chacha.ts:66-78 | the loop performs ten double rounds |
| ChaCha.AddInitial | src/services/crypto/chacha.ts:81-83 | the loop adds the initial state word by word |
| ChaCha.ToBytes | src/services/crypto/chacha.ts:86-94 | the fresh 64-byte output is the little-endian serialization of the state |
| ChaCha.Block | src/services/crypto/chacha.ts:37-95 | `chacha20Block` returns the section 2.3 block of RFC 8439: serialize(20 rounds of the state + the state) |
| ChaCha.XorInto | src/services/crypto/chacha.ts:139-141 | the inner loop writes the XORed chunk after the finished prefix and leaves the rest alone |
| ChaCha.XorChunkInto | src/services/crypto/chacha.ts:136-141 | one outer iteration extends the output so that it is the XOR stream of the longer prefix |
| ChaCha.NextBlock | src/services/crypto/chacha.ts:136 | `chacha20Block(key, counter++, nonce)` is the next block of the keystream |
| ChaCha.Process | src/services/crypto/chacha.ts:131-145 | `chacha20Process` returns the data XORed with the keystream whose counter starts at 1 |
| ChaCha.ProcessInvolution | src/services/crypto/chacha.ts:131-145 | processing twice with the same key and nonce restores the data |
| ChaCha.ProcessByte | src/services/crypto/chacha.ts:131-145 | output byte i is data byte i XOR byte i mod 64 of the block with counter 1 + i div 64 (mod 2^32) |
| ChaCha.QrTestVector | src/services/crypto/chacha.ts:29-34 | the quarter round maps the inputs of test vector 2.1.1 of RFC 8439 to its outputs |
| ChaCha.QuarterRoundAtIsQuarterRoundOn | src/services/crypto/chacha.ts:29-34 | on four distinct indices the in-place quarter round is QUARTERROUND(a, b, c, d) of section 2.2 of RFC 8439: the four words replaced by their quarter round |
| ChaCha.FirstColumnsAreQuarterRounds | src/services/crypto/chacha.ts:68-69 | the first two column quarter rounds written on words are QUARTERROUND(0, 4, 8, 12) then QUARTERROUND(1, 5, 9, 13) |
| ChaCha.LastColumnsAreQuarterRounds | src/services/crypto/chacha.ts:70-71 | the last two column quarter rounds are QUARTERROUND(2, 6, 10, 14) then QUARTERROUND(3, 7, 11, 15) |
| ChaCha.FirstDiagonalsAreQuarterRounds | src/services/crypto/chacha.ts:74-75 | the first two diagonal quarter rounds are QUARTERROUND(0, 5, 10, 15) then QUARTERROUND(1, 6, 11, 12) |
| ChaCha.LastDiagonalsAreQuarterRounds | src/services/crypto/chacha.ts:76-77 | the last two diagonal quarter rounds are QUARTERROUND(2, 7, 8, 13) then QUARTERROUND(3, 4, 9, 14) |
| ChaCha.InnerBlock | src/services/crypto/chacha.ts:68-77 | inner_block of section 2.3.1 of RFC 8439 keeps 16 words |
| ChaCha.DoubleRoundIsInnerBlock | src/services/crypto/chacha.ts:68-77 | the source's double round is inner_block of section 2.3.1 of RFC 8439 |
| ChaCha.RoundsOfInnerBlocks | src/services/crypto/chacha.ts:66-78 | ten successive inner_block states are the 20 rounds of the first |
| ChaCha.SerializeAppend | src/services/crypto/chacha.ts:86-92 | the serialization of two word sequences side by side is their serializations side by side |
| ChaCha.AddWordsAppend | src/services/crypto/chacha.ts:81-83 | adding states word by word works piece by piece |
| ChaCha.SerializeAddQuarters | src/services/crypto/chacha.ts:81-92 | the 64 output bytes are the output of words 0-3, 4-7, 8-11 and 12-15 in turn |
| ChaCha.BlockTestInitialState | src/services/crypto/chacha.ts:38-60 | the key, counter 1 and nonce of test vector 2.3.2 of RFC 8439 set up the initial state printed there |
| ChaCha.BlockTestOutput | src/services/crypto/chacha.ts:81-92 | the state after 20 rounds of test vector 2.3.2 plus its initial state serializes to the block printed there |
| ChaCha.BlockTestVector | src/services/crypto/chacha.ts:37-95 | the block function on the key, counter 1 and nonce of test vector 2.3.2 of RFC 8439 gives the 64-byte serialized block printed there |
| ChaCha.Encrypt | src/services/crypto/chacha.ts:147-177 | the key derivation's error through the catch block, else base64(salt ‖ nonce ‖ processed UTF-8 text) |
| ChaCha.EncryptSpec | src/services/crypto/chacha.ts:147-177 | encryption as one expression: the key derivation, then base64(salt ‖ nonce ‖ processed UTF-8 text), a derivation throw reported by its message or "Encryption failed" |
| ChaCha.DecryptSpec | src/services/crypto/chacha.ts:179-207 | decryption as one expression: atob, the split at 16 and 28, the key from the salt, processing and UTF-8 decoding, each throw reported by its message or "Decryption failed" |
| ChaCha.Decrypt | src/services/crypto/chacha.ts:179-207 | atob, the split at 16 and 28, the key from the salt, processing and UTF-8 decoding, throws reported as failures |
| ChaCha.RoundTrip | src/services/crypto/chacha.ts:147-207 | with bijective codecs and a succeeding key derivation, decryption returns success and the text |
| ChaCha.EncryptFailsOnlyInDerivation | src/services/crypto/chacha.ts:171-176 | encryption fails exactly when the key derivation throws, with its message |
| ChaCha.NoAuthentication | src/services/crypto/chacha.ts:179-206 | decryption succeeds whenever atob and the key derivation succeed, whatever the password |
| KyberSim.WeightIsProduct | src/services/crypto/kyber_sim.ts:34 | the byte weight is `i * 17 % 256` at every key position |
| KyberSim.Mask | src/services/crypto/kyber_sim.ts:34 | the public key differs from the private key at position i by 0xAA XOR (17i mod 256) |
| KyberSim.PrivateKeyOf | src/services/crypto/kyber_sim.ts:28-30 | the private key is 32 bytes, byte i the seed byte i mod n, or 0 for an empty seed |
| KyberSim.PublicKeyOf | src/services/crypto/kyber_sim.ts:33-35 | public key byte i is private key byte i XOR 0xAA XOR (17i mod 256) |
| KyberSim.KeyPairOf | src/services/crypto/kyber_sim.ts:24-25 | both keys are 32 bytes |
| KyberSim.KeyPairLayout | src/services/crypto/kyber_sim.ts:28-35 | the private key repeats the seed bytes, or is all zeros for an empty seed; public XOR private is 0xAA ^ (17i mod 256) |
| KyberSim.SharedSecret | src/services/crypto/kyber_sim.ts:49-52 | the shared secret is 32 bytes |
| KyberSim.CipherHead | src/services/crypto/kyber_sim.ts:55-57 | the ciphertext head is 32 bytes |
| KyberSim.CipherBody | src/services/crypto/kyber_sim.ts:60-62 | the ciphertext body has the message's length |
| KyberSim.EncapsulateSpec | src/services/crypto/kyber_sim.ts:45-46 | the ciphertext is 32 bytes longer than the message and the secret is 32 bytes |
| KyberSim.RecoveredSecret | src/services/crypto/kyber_sim.ts:75-80 | the recovered secret is 32 bytes |
| KyberSim.DecapsulateSpec | src/services/crypto/kyber_sim.ts:83-84 | decapsulation throws exactly when the ciphertext is shorter than 32 bytes, else the message is 32 bytes shorter than the ciphertext |
| KyberSim.EncryptSpec | src/services/crypto/kyber_sim.ts:93-116 | encryption always succeeds, and it depends only on the password and the text |
| KyberSim.DecryptSpec | src/services/crypto/kyber_sim.ts:118-144 | decryption as one expression: the private key from the password, atob, decapsulation, TextDecoder, each throw reported by its message or the fallback |
| KyberSim.GenerateKeyPair | src/services/crypto/kyber_sim.ts:19-38 | the two index loops build the key pair of the seed's UTF-8 bytes |
| KyberSim.Encapsulate | src/services/crypto/kyber_sim.ts:41-65 | the three loops build the secret, the head and the body |
| KyberSim.Decapsulate | src/services/crypto/kyber_sim.ts:68-91 | the secret loop, the length check and the message loop decapsulate as specified |
| KyberSim.Encrypt | src/services/crypto/kyber_sim.ts:93-116 | `encrypt` step by step is the encryption function |
| KyberSim.Decrypt | src/services/crypto/kyber_sim.ts:118-144 | `decrypt` step by step is the decryption function |
| KyberSim.Masked | src/services/crypto/kyber_sim.ts:33-35 | the masked message keeps its length |
| KyberSim.RecoveredFromHead | src/services/crypto/kyber_sim.ts:78-80 | the secret recovered from a head is public key XOR secret XOR the decapsulation key |
| KyberSim.BodyTwice | src/services/crypto/kyber_sim.ts:60-62 | XORing a body with two secrets XORs both into each byte |
| KyberSim.DecapsulateEncapsulate | src/services/crypto/kyber_sim.ts:55-62 | decapsulating with key sk what was encapsulated with pk gives m[i] ^ pk[i mod 32] ^ sk[i mod 32] |
| KyberSim.DecryptOfEncrypt | src/services/crypto/kyber_sim.ts:33-35 | decrypting an encryption gives the UTF-8 decoding of the text's bytes XOR the fixed mask |
| KyberSim.MaskedChanges | src/services/crypto/kyber_sim.ts:33-35 | the mask changes every non-empty message and leaves only the empty one unchanged |
| KyberSim.MaskZeroAtTen | src/services/crypto/kyber_sim.ts:34 | among the 32 positions the mask byte is zero only at position 10 |
| KyberSim.EmptyMessageSecretIsKey | src/services/crypto/kyber_sim.ts:49-52 | for an empty message the shared secret is the public key and the ciphertext is 32 zero bytes |
| KyberSim.ShortCiphertextFails | src/services/crypto/kyber_sim.ts:138-142 | a ciphertext under 32 bytes makes decryption fail with the RangeError message |
| KyberSim.DecapsulateFixedSpec | src/services/crypto/kyber_sim.ts:78-80 | the intended decapsulation throws exactly on a ciphertext under 32 bytes |
| KyberSim.RoundTripFixed | src/services/crypto/kyber_sim.ts:118-144 | with the intended decapsulation, decryption returns the text |
| KyberSim.DecryptFixedSpec | src/services/crypto/kyber_sim.ts:118-144 | decryption with the intended decapsulation, otherwise as written |
| CustomAlgo.ByteHexDigits | src/services/crypto/custom_algo.ts:133-134 | each byte becomes its high and low lower-case hex digits |
| CustomAlgo.Radix16 | src/services/crypto/custom_algo.ts:134 | `n.toString(16)`: base-16 digits, lower case, most significant first, no leading zeros |
| CustomAlgo.PadStart2 | src/services/crypto/custom_algo.ts:134 | `padStart(2, '0')` puts zeros ahead of a string shorter than 2 |
| CustomAlgo.ByteHex | src/services/crypto/custom_algo.ts:134 | one byte as `b.toString(16).padStart(2, '0')` |
| CustomAlgo.ToHex | src/services/crypto/custom_algo.ts:132-136 | `uint8ArrayToHex`: the two-digit forms of the bytes, joined |
| CustomAlgo.ToHexLength | src/services/crypto/custom_algo.ts:132-136 | the hex form has two characters per byte |
| CustomAlgo.ToHexAt | src/services/crypto/custom_algo.ts:132-136 | byte k sits at positions 2k and 2k + 1 |
| CustomAlgo.ToHexLayout | src/services/crypto/custom_algo.ts:132-136 | every character is a lower-case hex digit, two per byte |
| CustomAlgo.DigitValueOfHexDigit | src/services/crypto/custom_algo.ts:142 | `parseInt` reads each emitted digit as its value |
| CustomAlgo.HexRunIsDigits | src/services/crypto/custom_algo.ts:142 | the run `parseInt` consumes holds only hex digits |
| CustomAlgo.TrimStart | src/services/crypto/custom_algo.ts:142 | `parseInt` first skips leading white space and line terminators |
| CustomAlgo.HexNumber | src/services/crypto/custom_algo.ts:142 | the value of a run of hex digits, most significant first |
| CustomAlgo.ParseIntHex | src/services/crypto/custom_algo.ts:142 | `parseInt(s, 16)`: leading white space, an optional sign and `0x`, then the longest run of hex digits, NaN when that run is empty |
| CustomAlgo.Substr | src/services/crypto/custom_algo.ts:142 | `substr(start, length)` keeps at most length characters from start |
| CustomAlgo.ToUint8 | src/services/crypto/custom_algo.ts:142 | a store into a Uint8Array turns NaN into 0 and keeps an integer modulo 256 |
| CustomAlgo.HexToBytes | src/services/crypto/custom_algo.ts:139-145 | the decoded array has `hex.length / 2` bytes |
| CustomAlgo.HexToUint8Array | src/services/crypto/custom_algo.ts:139-145 | the loop over even positions fills the array as specified |
| CustomAlgo.ParsePair | src/services/crypto/custom_algo.ts:142 | two emitted digits parse as the number they spell |
| CustomAlgo.PairParsesBack | src/services/crypto/custom_algo.ts:142 | the pair at an even position parses back to its byte |
| CustomAlgo.HexRoundTrip | src/services/crypto/custom_algo.ts:132-145 | `hexToUint8Array` inverts `uint8ArrayToHex` |
| CustomAlgo.SeedValue | src/services/crypto/custom_algo.ts:63 | the big-endian 32-bit seed value is below 2^32 |
| CustomAlgo.Period | src/services/crypto/custom_algo.ts:71 | the marker period lies between 3 and 7 |
| CustomAlgo.Marker | src/services/crypto/custom_algo.ts:65-73 | the marker after character i is `patterns[(seed + i) % 7]` |
| CustomAlgo.ObfuscatedPrefix | src/services/crypto/custom_algo.ts:67-75 | what the loop has built after n characters: each character, then its marker when i mod f = f - 1 |
| CustomAlgo.Obfuscated | src/services/crypto/custom_algo.ts:61-77 | `obfuscate` on the whole text |
| CustomAlgo.Obfuscate | src/services/crypto/custom_algo.ts:61-77 | the loop builds each character followed by the marker `patterns[(seed + i) % 7]` when i % f == f - 1 |
| CustomAlgo.ObfuscatedLength | src/services/crypto/custom_algo.ts:67-75 | the output is n + n div f long for an n-character text |
| CustomAlgo.ObfuscatedPrefixGrows | src/services/crypto/custom_algo.ts:67-75 | the output only grows as the loop goes on |
| CustomAlgo.ObfuscatedLayout | src/services/crypto/custom_algo.ts:67-75 | character i sits at i + i div f; its marker follows it exactly when i mod f = f - 1, and otherwise character i + 1 follows or the output ends |
| CustomAlgo.IsMarker | src/services/crypto/custom_algo.ts:82 | the character class `[§¢€£¥₹₿]` is exactly the seven patterns |
| CustomAlgo.Deobfuscate | src/services/crypto/custom_algo.ts:80-83 | `replace(/[§¢€£¥₹₿]/g, '')` drops every marker character and keeps the rest in order |
| CustomAlgo.DeobfuscateConcat | src/services/crypto/custom_algo.ts:80-83 | removing markers distributes over concatenation |
| CustomAlgo.DeobfuscateMarkerFree | src/services/crypto/custom_algo.ts:80-83 | marker-free text is left unchanged |
| CustomAlgo.DeobfuscateRemovesMarkers | src/services/crypto/custom_algo.ts:80-83 | no marker is left in the output |
| CustomAlgo.ObfuscateRoundTrip | src/services/crypto/custom_algo.ts:61-83 | `deobfuscate` inverts `obfuscate` on marker-free text |
| CustomAlgo.XorZero | src/services/crypto/custom_algo.ts:120 | the XOR of two codes is 0 iff they are equal |
| CustomAlgo.GenerateIntegrityHash | src/services/crypto/custom_algo.ts:86-107 | the tag is the hex HMAC-SHA-256, keyed with the UTF-8 key, of the UTF-8 data |
| CustomAlgo.BitXor | src/services/crypto/custom_algo.ts:120 | `^` on the non-negative character codes, bit by bit |
| CustomAlgo.BitOr | src/services/crypto/custom_algo.ts:120 | bitwise OR on non-negative numbers, bit by bit |
| CustomAlgo.OrZero | src/services/crypto/custom_algo.ts:120 | the OR is 0 iff both operands are |
| CustomAlgo.VerifyIntegrityHash | src/services/crypto/custom_algo.ts:110-124 | the check returns true iff the recomputed tag equals the expected one |
| CustomAlgo.SplitOn | src/services/crypto/custom_algo.ts:203 | `split` yields at least one part |
| CustomAlgo.SplitCons | src/services/crypto/custom_algo.ts:203 | a separator-free head extends the first part |
| CustomAlgo.SplitField | src/services/crypto/custom_algo.ts:203 | a separator-free field and a separator make one part |
| CustomAlgo.SplitWhole | src/services/crypto/custom_algo.ts:203 | a separator-free string is one part |
| CustomAlgo.SplitPartsHaveNoSeparator | src/services/crypto/custom_algo.ts:203 | no part holds the separator |
| CustomAlgo.SplitFields | src/services/crypto/custom_algo.ts:182-186 | five separator-free fields split back one for one |
| CustomAlgo.Fields | src/services/crypto/custom_algo.ts:182-186 | the five fields joined by the separator character |
| CustomAlgo.HexHasNoSeparator | src/services/crypto/custom_algo.ts:132-136 | hex text holds no separator |
| CustomAlgo.Base64HasNoSeparatorOrMarker | src/services/crypto/custom_algo.ts:176-186 | base64 text holds neither the separator nor a marker |
| CustomAlgo.Encrypt | src/services/crypto/custom_algo.ts:147-198 | the pipeline step by step: keys, integrity key, ChaCha20, tag, obfuscation, AES-GCM, five fields |
| CustomAlgo.DeriveMultipleKeys | src/services/crypto/custom_algo.ts:12-58 | two PBKDF2-HMAC-SHA-256 derivations (100000 iterations, 256 bits) from the password, one per salt, each in hex; a throw from either is passed on |
| CustomAlgo.IntegrityKey | src/services/crypto/custom_algo.ts:158-161 | the HMAC key is the hex SHA-256 of the UTF-8 `password + 'INTEGRITY'` |
| CustomAlgo.EncryptSpec | src/services/crypto/custom_algo.ts:147-198 | encryption as one expression: the keys, ChaCha20, the tag, obfuscation, AES-GCM and the five fields; a layer without text raises its error, reported by message |
| CustomAlgo.DecryptStages | src/services/crypto/custom_algo.ts:200-239 | decryption up to the inner layer: the field count, the keys, AES-GCM, deobfuscation and the tag check, each stop carrying its error message |
| CustomAlgo.DecryptSpec | src/services/crypto/custom_algo.ts:200-254 | the stages, then the inner result rejected when it failed or is empty |
| CustomAlgo.Decrypt | src/services/crypto/custom_algo.ts:200-254 | the pipeline step by step: split, keys, AES-GCM, deobfuscation, tag check, ChaCha20 |
| CustomAlgo.Base64NotEmpty | src/services/crypto/custom_algo.ts:177 | base64 of at least one byte is not empty |
| CustomAlgo.FirstLayerShape | src/services/crypto/custom_algo.ts:164-167 | the first layer has text, so the check at line 165 passes, and it holds neither the separator nor a marker |
| CustomAlgo.SecondLayerShape | src/services/crypto/custom_algo.ts:176-179 | the second layer holds no separator and has text when the envelope is non-empty |
| CustomAlgo.WrongFieldCountFails | src/services/crypto/custom_algo.ts:203-206 | any field count other than 5 fails with "Invalid encrypted data format" |
| CustomAlgo.SeedFieldIgnored | src/services/crypto/custom_algo.ts:210 | replacing the seed field does not change the decryption outcome |
| CustomAlgo.TamperedTagFails | src/services/crypto/custom_algo.ts:233-236 | when the outer layer opens but the tag differs, decryption fails with the tampering message before the inner layer |
| CustomAlgo.SuccessPassedEveryStage | src/services/crypto/custom_algo.ts:203-242 | a success passed, in order, the field count, the outer layer, the tag check and the inner layer |
| CustomAlgo.EncryptionIsFields | src/services/crypto/custom_algo.ts:182-186 | a successful encryption is hex(salt1), hex(salt2), hex(seed), the tag and the second layer, joined by the separator |
| CustomAlgo.HexFieldsSplit | src/services/crypto/custom_algo.ts:182-186 | four hex fields and a separator-free last field split back into themselves |
| CustomAlgo.EnvelopeHasFiveFields | src/services/crypto/custom_algo.ts:182-186 | an encryption splits into exactly 5 parts, the first three the hex salts and seed; with the source's sizes they are 64, 64, 8 and 64 characters |
| CustomAlgo.DecryptOfFields | src/services/crypto/custom_algo.ts:208-242 | fields whose outer layer opens and whose tag matches reach the inner ChaCha20 decryption |
| CustomAlgo.DecryptOfEnvelope | src/services/crypto/custom_algo.ts:200-242 | decrypting an encryption reaches the inner layer, which returns the text |
| CustomAlgo.RoundTrip | src/services/crypto/custom_algo.ts:239-247 | the round trip gives the text back for every non-empty text and fails for the empty one |
| CustomAlgo.EmptyTextDoesNotRoundTrip | src/services/crypto/custom_algo.ts:240-242 | the empty text encrypts but does not decrypt |
| CustomAlgo.RoundTripFixed | src/services/crypto/custom_algo.ts:239-247 | the intended decryption inverts encryption for every text |
| CustomAlgo.DecryptFixedSpec | src/services/crypto/custom_algo.ts:239-247 | decryption that rejects only a failed inner layer, otherwise as written |
| CustomAlgo.FixedAgreesOnText | src/services/crypto/custom_algo.ts:240-242 | the intended and as-written decryptions differ exactly when the inner layer yields the empty text |
| Router.EncryptSpec | src/services/crypto/index.ts:21-25 | an unknown tag gives failure "Unknown algorithm" |
| Router.DecryptSpec | src/services/crypto/index.ts:43-47 | an unknown tag gives failure "Unknown algorithm" |
| Router.TagsAreKnownAndDistinct | src/services/crypto/index.ts:12-20 | the four tags are routed and distinct |
| Router.EncryptRoutesToBackend | src/services/crypto/index.ts:12-20 | each tag returns its backend's result unchanged |
| Router.DecryptRoutesToBackend | src/services/crypto/index.ts:34-42 | each tag returns the same backend's decryption unchanged |
| Router.AesRoundTrip | src/services/crypto/index.ts:13-14 | routed through 'aes' the text comes back |
| Router.ChaChaRoundTrip | src/services/crypto/index.ts:15-16 | routed through 'chacha' the text comes back |
| Router.KyberRoundTrip | src/services/crypto/index.ts:17-18 | routed through 'kyber' the text comes back masked |
| Router.CustomRoundTrip | src/services/crypto/index.ts:19-20 | routed through 'custom' the text comes back unless it is empty |
| Router.RoutedRoundTrip | src/services/crypto/index.ts:7-49 | encryption and decryption under the same tag agree with that backend's round trip |
| PasswordStrength.Fold | src/components/Encryptor.tsx:114 | under the `i` flag a letter folds to lower case and nothing else changes |
| PasswordStrength.HasUpper | src/components/Encryptor.tsx:77 | `/[A-Z]/`: some ASCII upper-case letter |
| PasswordStrength.HasLower | src/components/Encryptor.tsx:78 | `/[a-z]/`: some ASCII lower-case letter |
| PasswordStrength.HasDigit | src/components/Encryptor.tsx:79 | `/[0-9]/`: some digit |
| PasswordStrength.HasNonAlphanumeric | src/components/Encryptor.tsx:80 | `/[^A-Za-z0-9]/`: some character that is neither an ASCII letter nor a digit |
| PasswordStrength.HasSpecial | src/components/Encryptor.tsx:83 | some character of the special-symbol class |
| PasswordStrength.HasAccented | src/components/Encryptor.tsx:84 | `/[À-ÿ]/`: some character from U+00C0 to U+00FF |
| PasswordStrength.HasTripleRun | src/components/Encryptor.tsx:89 | `/(.)\1{2,}/`: three equal characters in a row, none a line terminator |
| PasswordStrength.HasDoubleRun | src/components/Encryptor.tsx:90 | `/(.)\1/`: two equal characters in a row, none a line terminator |
| PasswordStrength.HasMixedCase | src/components/Encryptor.tsx:93 | a lower-case letter before an upper-case one, or the reverse, on one line |
| PasswordStrength.EndsWithDigits | src/components/Encryptor.tsx:96 | `/\d+$/`: the last character is a digit |
| PasswordStrength.HasAllKindsAhead | src/components/Encryptor.tsx:99 | from some position, lower case, upper case, a digit and a non-alphanumeric all follow on the same line |
| PasswordStrength.ContainsAnyIgnoringCase | src/components/Encryptor.tsx:114-122 | an alternation of words under the `i` flag: one of the words occurs, ASCII case ignored; applied to the sequential (line 114), common (118) and keyboard (122) word lists |
| PasswordStrength.HasDate | src/components/Encryptor.tsx:126 | a year 19xx, 20xx or 21xx, a d/m/y date with 1-2, 1-2 and 2-4 digits around `/`, `-` or `.`, or eight digits |
| PasswordStrength.HasPhoneNumber | src/components/Encryptor.tsx:130 | ten digits, a 3-3-4 number with optional separators, or `+` and a country code followed by three groups of 3-4 digits |
| PasswordStrength.HasRepetition | src/components/Encryptor.tsx:134 | a piece of at least two characters repeated three times in a row |
| PasswordStrength.OnlyDigits | src/components/Encryptor.tsx:143 | `/^\d+$/`: non-empty and digits only |
| PasswordStrength.OnlyLetters | src/components/Encryptor.tsx:143 | `/^[a-zA-Z]+$/i`: non-empty and ASCII letters only |
| PasswordStrength.HasPersonalInfo | src/components/Encryptor.tsx:148 | one of the name words, letters ending in 1-4 final digits, or 1-4 leading digits followed by a letter |
| PasswordStrength.MatchesOf | src/components/Encryptor.tsx:67-149 | the outcome of every test the scorer applies to the password |
| PasswordStrength.LengthBonus | src/components/Encryptor.tsx:70-74 | the length bonus is at most 5 and 0 exactly under 6 characters |
| PasswordStrength.CharacterKinds | src/components/Encryptor.tsx:102-108 | at most five kinds are counted |
| PasswordStrength.Bonus | src/components/Encryptor.tsx:70-109 | the fired bonuses sum to between 0 and 31 |
| PasswordStrength.Penalty | src/components/Encryptor.tsx:114-149 | the fired penalties sum to between 0 and 30 |
| PasswordStrength.RawScore | src/components/Encryptor.tsx:67-149 | the score before clamping: the fired bonuses less the fired penalties |
| PasswordStrength.Score | src/components/Encryptor.tsx:152-156 | the raw score clamped at 0, less 5 and clamped again under six characters, and 0 under four |
| PasswordStrength.LabelFor | src/components/Encryptor.tsx:159-178 | the label of the first case of the switch the score meets |
| PasswordStrength.ColorFor | src/components/Encryptor.tsx:159-178 | the colour of the first case of the switch the score meets |
| PasswordStrength.AddLengthBonus | src/components/Encryptor.tsx:70-74 | the if-chain adds exactly the length bonus |
| PasswordStrength.AddVarietyBonus | src/components/Encryptor.tsx:77-80 | adds 2 per character class present |
| PasswordStrength.AddAdvancedBonus | src/components/Encryptor.tsx:83-86 | adds the symbol, accent and extra-length bonuses |
| PasswordStrength.AddRepeatBonus | src/components/Encryptor.tsx:89-90 | adds 2 for no triple and 1 for no double run |
| PasswordStrength.AddMixingBonus | src/components/Encryptor.tsx:93-109 | adds the mixed-case, digit-placement, all-kinds and diversity bonuses |
| PasswordStrength.SubtractPatternPenalty | src/components/Encryptor.tsx:114-135 | subtracts the sequential, common, keyboard, date, phone and repetition penalties |
| PasswordStrength.SubtractShapePenalty | src/components/Encryptor.tsx:138-149 | subtracts the same-case, single-kind and personal-info penalties |
| PasswordStrength.AccumulateScore | src/components/Encryptor.tsx:67-156 | the sequential updates and clamps give the score function, a sum independent of evaluation order |
| PasswordStrength.Rate | src/components/Encryptor.tsx:159-178 | the switch picks the colour and label of the score's bucket |
| PasswordStrength.CalculatePasswordStrength | src/components/Encryptor.tsx:62-178 | the score of the password's test results, with the colour and label of its bucket |
| PasswordStrength.Bucket | src/components/Encryptor.tsx:159-178 | there are nine buckets |
| PasswordStrength.ThresholdsReached | src/components/Encryptor.tsx:70-74 | at most five length thresholds are reached |
| PasswordStrength.LengthBonusCountsThresholds | src/components/Encryptor.tsx:70-74 | the bonus is the number of thresholds 6, 8, 12, 16 and 20 reached: exactly one of 0, 1, 2, 3, 4, 5 |
| PasswordStrength.LengthBonusMonotone | src/components/Encryptor.tsx:70-74 | a longer password never has a smaller length bonus |
| PasswordStrength.LabelIsBucket | src/components/Encryptor.tsx:159-178 | label and colour depend only on the bucket of the score |
| PasswordStrength.BucketMonotone | src/components/Encryptor.tsx:159-178 | the buckets are monotone in the score |
| PasswordStrength.ScoreRange | src/components/Encryptor.tsx:152-156 | the final score lies between 0 and 31 |
| PasswordStrength.VeryShortIsVeryWeak | src/components/Encryptor.tsx:156-161 | under 4 characters the score is 0 and the label "VERY WEAK" |
| PasswordStrength.ShortScore | src/components/Encryptor.tsx:155 | with 4 or 5 characters the score is max(0, clamped - 5), at most 15 |
| PasswordStrength.LongScore | src/components/Encryptor.tsx:152 | from 6 characters on the score is the clamped raw score |
| PasswordStrength.AllKindsImpliesVariety | src/components/Encryptor.tsx:99 | the look-ahead test firing implies all four variety tests fire |
| PasswordStrength.SpecialImpliesNonAlphanumeric | src/components/Encryptor.tsx:80-83 | a special symbol is a non-alphanumeric character |

## Left out

- PBKDF2, SHA-256, HMAC-SHA-256, AES-GCM, base64 and UTF-8 are abstract fields of `Platform`. Only the inverse laws named above are assumed, and the reverse direction of TextDecoder is never assumed. AES-GCM's confidentiality and authenticity are not modelled beyond "open fails or inverts seal".
- The `CryptoKey` that `importKey`/`deriveKey` produce is modelled by its raw bytes. A failure of `importKey` is folded into the failure of the derivation.
- `crypto.getRandomValues` becomes parameters: the salts, nonces and seed of the `Entropy` record.
- async/Promise sequencing is not modelled. Every operation runs to completion in order.
- The argument-count limit of `String.fromCharCode(...result)` and `apply(null, …)` on very large arrays is not modelled. The conversion is part of `btoa`'s abstract input.
- Strings are sequences of code points, while JavaScript counts and indexes UTF-16 code units. UTF-16 surrogate pairs are not modelled, so the model differs from the source on characters outside the Basic Multilingual Plane in these places:
  - the lone-surrogate behaviour of `text[i]` in `obfuscate`;
  - `hexToUint8Array` sizing its array by `hex.length / 2` on the untrusted fields of `decrypt`;
  - `password.length` in `calculatePasswordStrength` ("😀😀" is 4 long in JavaScript, 2 in the model);
  - the three back-reference tests of `calculatePasswordStrength`, `/(.)\1{2,}/`, `/(.)\1/` and `/(.{2,})\1{2,}/` (Encryptor.tsx lines 89, 90 and 134). They carry no `u` flag, so JavaScript compares UTF-16 code units, while `PasswordStrength.HasTripleRun`, `PasswordStrength.HasDoubleRun` and `PasswordStrength.HasRepetition` compare code points. For "abcdef😀😀" the source finds no double run and adds 1, while the model finds one and does not; for "😀😀😀" the source finds a repetition of the two-unit piece and the model does not.
- VerifyIntegrityHash: the promise of a constant-time comparison is a timing property. Only the functional result is stated.
- PasswordStrength: each regular expression is a predicate. A repeated group stated with a trailing `{2,}` or a leading `+` uses its least count, which gives the same match/no-match answer for an unanchored search. The regex engine itself is not modelled. `toLowerCase`/`toUpperCase` are `Platform` fields.
- Rendering of the strength bar (`activeSegments`, floating point) and the rest of the UI (`handleProcess`, the clipboard) are not part of this model.
- Router.EncryptSpec: it takes the algorithm as a string, so that the `default` branch the TypeScript type hides stays reachable.

## Findings

| source | as written | input that shows it | evidently intended | confidence | as-written member | corrected member |
|---|---|---|---|---|---|---|
| src/services/crypto/kyber_sim.ts:78-80 | decapsulation recovers the shared secret with the private key, while encapsulation hid it under the public key | text "a" under any password: byte 0x61 comes back as 0x61 ^ 0xAA = 0xCB | the secret is recovered with the public key derived from the same seed, so decryption inverts encryption | not executed | KyberSim.DecryptOfEncrypt | KyberSim.RoundTripFixed |
| src/services/crypto/custom_algo.ts:240-242 | `!innerDecryptResult.result` also rejects a successful inner decryption whose text is empty | the text "": it encrypts, and its decryption fails with "Inner layer decryption failed" | only a failed inner decryption is rejected | not executed | CustomAlgo.EmptyTextDoesNotRoundTrip | CustomAlgo.RoundTripFixed |
