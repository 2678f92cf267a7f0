/** What the composition guarantees for every choice of the external
    primitives: decryption undoes encryption, acceptance requires the exact
    tag of the exact ciphertext, the sub-keys stay in their roles, and each
    call starts from a fresh cipher. */
module AeadProperties {
  import opened Types
  import opened Primitives
  import opened Aead

  /** Decrypting with the tag that encryption returned gives the plaintext
      back, for every message including the empty one. */
  lemma RoundTrip(suite: Suite, keys: KeySet, nonce: Block, plaintext: seq<Byte>)
    ensures Seal(suite, keys, nonce, [], plaintext).Ok?
    ensures var sealed := Seal(suite, keys, nonce, [], plaintext).value;
            Open(suite, keys, nonce, [], sealed.ciphertext, sealed.tag) == Ok(plaintext)
  {
    var ks := Keystream(suite, keys.aes256CtrKey, nonce, 0, |plaintext|);
    XorCancel(plaintext, ks);
  }

  /** A changed ciphertext is accepted under the original tag only if
      Poly1305, under the same per-nonce key, gives both ciphertexts the same
      tag. */
  lemma TamperedCiphertextNeedsCollision(suite: Suite, keys: KeySet, nonce: Block, plaintext: seq<Byte>, forged: seq<Byte>)
    requires Seal(suite, keys, nonce, [], plaintext).Ok?
    requires Open(suite, keys, nonce, [], forged, Seal(suite, keys, nonce, [], plaintext).value.tag).Ok?
    ensures var key := MacKey(suite, keys, nonce);
            suite.poly1305(key, forged) == suite.poly1305(key, Seal(suite, keys, nonce, [], plaintext).value.ciphertext)
  {
  }

  /** Key separation, MAC side: the Poly1305 key for a nonce is decided by
      bytes [32, 64) of the master key alone. */
  lemma MacKeyIgnoresCipherKey(suite: Suite, key1: Key64, key2: Key64, nonce: Block)
    requires key1[32..] == key2[32..]
    ensures MacKey(suite, SplitKey(key1), nonce) == MacKey(suite, SplitKey(key2), nonce)
  {
    assert key1[32..48] == key1[32..][..16] == key2[32..][..16] == key2[32..48];
    assert key1[48..64] == key1[32..][16..] == key2[32..][16..] == key2[48..64];
  }

  /** Key separation, cipher side: the ciphertext is decided by bytes [0, 32)
      of the master key alone; bytes [32, 64) only influence the tag. */
  lemma CiphertextIgnoresMacKeys(suite: Suite, key1: Key64, key2: Key64, nonce: Block, plaintext: seq<Byte>)
    requires key1[..32] == key2[..32]
    ensures Seal(suite, SplitKey(key1), nonce, [], plaintext).value.ciphertext
         == Seal(suite, SplitKey(key2), nonce, [], plaintext).value.ciphertext
  {
  }

  /** Encrypting the same message twice under the same object and nonce gives
      the same ciphertext and tag: no keystream state survives a call. */
  method EncryptTwice(aead: Aes256CtrPoly1305Aes, nonce: Block, plaintext: seq<Byte>)
    returns (first: seq<Byte>, firstTag: Result<Block>, second: seq<Byte>, secondTag: Result<Block>)
    requires aead.Valid()
    ensures firstTag.Ok? && first == second && firstTag == secondTag
    ensures |first| == |plaintext|
  {
    var buffer1 := new Byte[|plaintext|](i requires 0 <= i < |plaintext| => plaintext[i]);
    assert buffer1[..] == plaintext;
    firstTag := aead.EncryptInPlaceDetached(nonce, [], buffer1);
    var buffer2 := new Byte[|plaintext|](i requires 0 <= i < |plaintext| => plaintext[i]);
    assert buffer2[..] == plaintext;
    secondTag := aead.EncryptInPlaceDetached(nonce, [], buffer2);
    first, second := buffer1[..], buffer2[..];
  }

  /** Encrypting a buffer in place and then decrypting it in place with the
      returned tag succeeds and leaves the original plaintext in the buffer. */
  method RoundTripInPlace(aead: Aes256CtrPoly1305Aes, nonce: Block, plaintext: seq<Byte>)
    returns (result: Result<()>, restored: seq<Byte>)
    requires aead.Valid()
    ensures result.Ok? && restored == plaintext
  {
    var buffer := new Byte[|plaintext|](i requires 0 <= i < |plaintext| => plaintext[i]);
    assert buffer[..] == plaintext;
    var sealed := aead.EncryptInPlaceDetached(nonce, [], buffer);
    RoundTrip(aead.suite, aead.Keys(), nonce, plaintext);
    result := aead.DecryptInPlaceDetached(nonce, [], buffer, sealed.value);
    restored := buffer[..];
  }
}
