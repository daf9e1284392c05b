/** The binary envelope shared by the AES-GCM and ChaCha20 backends:
    salt[16] ‖ nonce[12] ‖ payload.  Encryption allocates one buffer and copies the
    three parts in with `set` at offsets 0, 16 and 28; decryption takes them back out
    with `slice(0, 16)`, `slice(16, 28)` and `slice(28)`. */
module Envelope {

  import opened Platform

  const SaltLength: nat := 16
  const NonceLength: nat := 12

  /** `dst.set(src, offset)`: copies `src` into `dst` from `offset` on, leaving the rest. */
  method SetAt(dst: array<bv8>, src: Bytes, offset: nat)
    requires offset + |src| <= dst.Length
    modifies dst
    ensures dst[..] == old(dst[..offset]) + src + old(dst[offset + |src|..])
  {
    for k := 0 to |src|
      invariant forall j :: 0 <= j < offset ==> dst[j] == old(dst[j])
      invariant forall j :: 0 <= j < k ==> dst[offset + j] == src[j]
      invariant forall j :: offset + k <= j < dst.Length ==> dst[j] == old(dst[j])
    {
      dst[offset + k] := src[k];
    }
    assert dst[..] == old(dst[..offset]) + src + old(dst[offset + |src|..]) by {
      var r := old(dst[..offset]) + src + old(dst[offset + |src|..]);
      assert |r| == dst.Length;
      forall j | 0 <= j < dst.Length ensures dst[j] == r[j] {
        if j < offset {
        } else if j < offset + |src| {
          assert dst[offset + (j - offset)] == src[j - offset];
        }
      }
    }
  }

  /** The envelope assembly: `new Uint8Array(salt.length + nonce.length + payload.length)`
      then three `set` calls.  The result is the concatenation, in that order. */
  method Assemble(salt: Bytes, nonce: Bytes, payload: Bytes) returns (result: array<bv8>)
    ensures fresh(result)
    ensures result[..] == salt + nonce + payload
    ensures result[..|salt|] == salt
    ensures result[|salt|..|salt| + |nonce|] == nonce
    ensures result[|salt| + |nonce|..] == payload
  {
    result := new bv8[|salt| + |nonce| + |payload|];
    SetAt(result, salt, 0);
    SetAt(result, nonce, |salt|);
    SetAt(result, payload, |salt| + |nonce|);
    assert result[..] == salt + nonce + payload;
  }

  datatype Parts = Parts(salt: Bytes, nonce: Bytes, payload: Bytes)

  /** The decrypt side: `slice(0, 16)`, `slice(16, 28)`, `slice(28)`, each clamped to the
      data, so a short envelope yields short (possibly empty) parts rather than an error. */
  function Split(data: Bytes): Parts
  {
    Parts(Slice(data, 0, SaltLength), Slice(data, SaltLength, SaltLength + NonceLength),
          SliceFrom(data, SaltLength + NonceLength))
  }

  /** Splitting inverts the assembly whenever salt and nonce have their fixed sizes. */
  lemma SplitInvertsAssembly(salt: Bytes, nonce: Bytes, payload: Bytes)
    requires |salt| == SaltLength && |nonce| == NonceLength
    ensures Split(salt + nonce + payload) == Parts(salt, nonce, payload)
  {
    var data := salt + nonce + payload;
    assert data[..16] == salt;
    assert data[16..28] == nonce;
    assert data[28..] == payload;
  }

  /** Splitting loses nothing: the parts concatenate back to the data, and the salt and
      nonce are short only when the data is. */
  lemma SplitCoversData(data: Bytes)
    ensures Split(data).salt + Split(data).nonce + Split(data).payload == data
    ensures |Split(data).salt| == Min(|data|, SaltLength)
    ensures |Split(data).nonce| == if |data| <= SaltLength then 0 else Min(|data| - SaltLength, NonceLength)
  {
    var parts := Split(data);
    if |data| >= 28 {
      assert data == data[..16] + data[16..28] + data[28..];
    } else if |data| >= 16 {
      assert data == data[..16] + data[16..];
    }
  }
}
