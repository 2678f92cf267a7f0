# AES-256-CTR + Poly1305-AES detached AEAD, modelled in Dafny

This project models the composition layer of the `aes256ctr_poly1305aes` Rust
crate: an encrypt-then-MAC AEAD with detached 16-byte tags built from
AES-256 in counter mode (section 6.5 of NIST SP 800-38A, the nonce being the
initial counter block) and Poly1305-AES (section 2 of Bernstein's "The
Poly1305-AES message-authentication code", 2005).

What the crate itself decides, and this model states and proves:

- `NewAead::new` cuts the 64-byte master key into the AES-256-CTR key
  (bytes 0-31), the AES-128 key of Poly1305-AES (bytes 32-47) and the Poly1305
  multiplier r (bytes 48-63).
- `cipher_from_nonce` builds the per-nonce Poly1305 key `r || AES-128_k(nonce)`
  in a scratch buffer, builds a fresh stream cipher and MAC, and wipes the
  scratch buffers.
- `Cipher::encrypt_in_place_detached` refuses associated data, XORs the
  keystream into the caller's buffer and returns the Poly1305 tag of the
  ciphertext.
- `Cipher::decrypt_in_place_detached` refuses associated data, computes the
  tag of the ciphertext as received, compares it with the given tag over all
  16 bytes, and decrypts only if they match. On failure the buffer is
  untouched.
- `Drop::drop` overwrites all three key buffers with zeros.

The three foreign primitives are the fields of `Primitives.Suite`. Each is an
arbitrary total function: AES-128 block encryption, the byte of the AES-256-CTR
keystream at a given offset, and Poly1305 `compute_unpadded`. Every property
below holds for every choice of them. The files follow the source:
`types.dfy` holds byte strings and the `copy_from_slice` and `zeroize` helpers.
`primitives.dfy` holds the foreign primitives. `cipher.dfy` models
`src/cipher.rs`. `aead.dfy` models `src/lib.rs`. `properties.dfy` holds the
cross-cutting lemmas and two client methods.

Associated data is checked only after `cipher_from_nonce` has run:
src/lib.rs:202 and src/lib.rs:212 call it before the checks at
src/cipher.rs:35 and src/cipher.rs:53. So the MAC key is derived and wiped,
and the cipher is built, even when the call is refused. The model does the
same in `Aead.Aes256CtrPoly1305Aes.EncryptInPlaceDetached` and
`Aead.Aes256CtrPoly1305Aes.DecryptInPlaceDetached`. The buffer is untouched
either way.

## Model

| member | source | states |
|---|---|---|
| `Types.XorCancel` | src/cipher.rs:64 | Applying the same keystream a second time restores the input, which is why decryption is the same XOR as encryption. |
| `Types.CopyFromSlice` | src/lib.rs:156 | `copy_from_slice` writes the source bytes at the given offset and leaves every other byte of the destination as it was. |
| `Types.Zeroize` | src/lib.rs:161 | After `zeroize`, every byte of the buffer is 0 and its length is unchanged. |
| `Primitives.KeystreamConcat` | src/lib.rs:164 | The CTR keystream of the cipher built from the AES-256 key and the nonce is seekable: a window of length m + n at an offset is the window of length m there followed by the window of length n right after it, so each byte depends only on key, nonce and offset. |
| `Primitives.EncryptBlock` | src/lib.rs:159 | The 16-byte block is replaced in place by its AES-128 encryption under the given key. |
| `Cipher.Difference` | src/cipher.rs:61 | The OR of the byte-wise XOR differences of the first n bytes is zero if and only if those prefixes are equal. |
| `Cipher.ConstantTimeEq` | src/cipher.rs:61 | The loop accumulates over all 16 byte pairs with no early exit, and returns true exactly when the two tags are equal. |
| `Cipher.Cipher.constructor` | src/cipher.rs:25-27 | A new cipher holds the given stream key, nonce and MAC key, and has used no keystream yet (offset 0). |
| `Cipher.Cipher.ApplyKeystream` | src/cipher.rs:41 | Every buffer byte becomes old byte XOR the keystream byte at its position from the current offset, and the offset advances by the buffer length. |
| `Cipher.Cipher.EncryptInPlaceDetached` | src/cipher.rs:30-43 | Non-empty associated data gives `Err` with the buffer and stream untouched. Otherwise the buffer becomes plaintext XOR keystream, the stream advances by the buffer length, and the result is `Ok` of the Poly1305 tag of the new buffer, i.e. of the ciphertext. |
| `Cipher.Cipher.DecryptInPlaceDetached` | src/cipher.rs:47-69 | Non-empty associated data gives `Err`. Otherwise the result is `Ok` exactly when the tag equals the Poly1305 tag of the buffer as received. On `Err` the buffer and stream are untouched. On `Ok` the buffer becomes ciphertext XOR keystream and the stream advances by the buffer length. |
| `Aead.SplitKey` | src/lib.rs:180-186 | The three sub-keys (32, 16 and 16 bytes) concatenated in order give back the master key, so they are disjoint and together cover it. |
| `Aead.DeriveMacKey` | src/lib.rs:155-160 | The 32-byte Poly1305 key has r as bytes 0-15 and AES-128 of the nonce as bytes 16-31. It is computed without the stream cipher key. |
| `Aead.Seal` | src/cipher.rs:35-42 | Encryption succeeds exactly when there is no associated data. The ciphertext is as long as the plaintext (overhead 0, as the constants of src/lib.rs:189-193 say). The tag is the Poly1305 tag, under the per-nonce key, of the ciphertext. |
| `Aead.Open` | src/cipher.rs:53-68 | Decryption succeeds exactly when there is no associated data and the tag is the Poly1305 tag of the ciphertext under the per-nonce key. A success yields as many bytes as the ciphertext has. |
| `Aead.Aes256CtrPoly1305Aes.constructor` | src/lib.rs:180-186 | The three key buffers are fresh, have sizes 32, 16 and 16, and hold `SplitKey` of the master key. |
| `Aead.Aes256CtrPoly1305Aes.CipherFromNonce` | src/lib.rs:153-169 | The cipher is fresh, at keystream offset 0, keyed by the AES-256 key and the nonce. Its MAC key is r followed by AES-128 of the nonce. Both scratch buffers (block, mac_key) are all zero on return. |
| `Aead.Aes256CtrPoly1305Aes.EncryptInPlaceDetached` | src/lib.rs:196-203 | The keys are unchanged. Buffer and result are exactly `Seal` of the keys, nonce, associated data and old buffer. On `Err` the buffer is unchanged. The outcome depends only on those inputs. |
| `Aead.Aes256CtrPoly1305Aes.DecryptInPlaceDetached` | src/lib.rs:205-213 | The keys are unchanged. On success the buffer holds the plaintext `Open` yields. On failure the result is `Err` and the buffer still holds the ciphertext passed in. |
| `Aead.Aes256CtrPoly1305Aes.Drop` | src/lib.rs:216-221 | All three key buffers are all zero afterwards and keep their sizes 32, 16 and 16. |
| `AeadProperties.RoundTrip` | src/cipher.rs:41-64 | For every key set, nonce and message (the empty message included), encryption succeeds, and decrypting its ciphertext with its tag gives the message back. |
| `AeadProperties.TamperedCiphertextNeedsCollision` | src/cipher.rs:58-68 | A ciphertext accepted under an honestly produced tag has the same Poly1305 tag, under the same per-nonce key, as the honest ciphertext. |
| `AeadProperties.MacKeyIgnoresCipherKey` | src/lib.rs:155-160 | Two master keys that agree on bytes 32-63 give the same Poly1305 key for every nonce, whatever their bytes 0-31. |
| `AeadProperties.CiphertextIgnoresMacKeys` | src/lib.rs:163-165 | Two master keys that agree on bytes 0-31 give the same ciphertext for every nonce and message, whatever their bytes 32-63. |
| `AeadProperties.EncryptTwice` | src/lib.rs:196-203 | Encrypting the same message twice with the same object and nonce gives identical ciphertexts and tags, because each call builds a fresh cipher at offset 0. |
| `AeadProperties.RoundTripInPlace` | src/lib.rs:196-213 | In-place encryption followed by in-place decryption with the returned tag succeeds and leaves the original plaintext in the buffer. |

## Left out

- AES-128 and AES-256 block internals, CTR counter increment and keystream generation, and Poly1305 field arithmetic and clamping belong to the `aes`, `cipher` and `poly1305` crates. They appear only as the uninterpreted functions of `Primitives.Suite`.
- Timing: `subtle::ConstantTimeEq` is modelled by its functional result and by a comparison loop with no early exit. Constant execution time is not expressible here.
- Zeroization is modelled as plain writes of 0. Whether the compiler keeps them is not modelled.
- The stream cipher and Poly1305 instances inside `Cipher` (which keep a copy of the MAC key after the scratch `mac_key` is wiped) are wiped, if at all, by their own crates. That is not part of this model.
- Rust ownership is not modelled. A `Cipher` is consumed by `mut self` in the source and is used once here by construction. The caller's buffer cannot alias the key buffers; the methods require it.
- Panics and unwinding are not modelled. Every path in the modelled code returns normally.
- The `alloc` and `heapless` `Buffer` conveniences, the combined (tag-appended) encrypt and decrypt of the `aead` crate, and crate documentation (src/lib.rs:1-93) are not part of this model.
- The generic trait plumbing (`NewAead`, `AeadCore`, `AeadInPlace`, `GenericArray`, typenum sizes) appears only as the fixed sizes it encodes. These are the sizes `KeySize`, `Key32Size` and `BlockSize` (nonce and tag) that define the types `Key64`, `Key32` and `Block`, and the constant `CiphertextOverhead`.
- The `Clone` and `Debug` derives (src/lib.rs:140) are not modelled.
