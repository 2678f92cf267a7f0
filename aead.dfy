/** `Aes256CtrPoly1305Aes` of `src/lib.rs`: key splitting, the per-nonce
    Poly1305-AES key (r || AES-128_k(nonce), section 2 of Bernstein's "The
    Poly1305-AES message-authentication code"), delegation to the generic
    cipher, and zeroization of the long-lived keys. */
module Aead {
  import opened Types
  import opened Primitives
  import Cipher

  /** `AeadCore::CiphertextOverhead`: the ciphertext is exactly as long as the
      plaintext. */
  const CiphertextOverhead: nat := 0

  /** The three sub-keys kept by the AEAD object. */
  datatype KeySet = KeySet(aes256CtrKey: Key32, aes128Key: Block, poly1305R: Block)

  /** `NewAead::new`: bytes [0, 32) key AES-256-CTR, [32, 48) key the AES-128
      of Poly1305-AES, [48, 64) are the Poly1305 multiplier r. */
  function SplitKey(key: Key64): (keys: KeySet)
    ensures keys.aes256CtrKey + keys.aes128Key + keys.poly1305R == key
  {
    KeySet(key[0..32], key[32..48], key[48..64])
  }

  /** The Poly1305 key for one nonce: r followed by AES-128 of the nonce. It
      takes neither the stream cipher key nor the message. */
  function DeriveMacKey(suite: Suite, aes128Key: Block, poly1305R: Block, nonce: Block): (macKey: Key32)
    ensures macKey[..16] == poly1305R
    ensures macKey[16..] == suite.aes128(aes128Key, nonce)
  {
    poly1305R + suite.aes128(aes128Key, nonce)
  }

  /** The Poly1305 key that `keys` give for `nonce`. */
  function MacKey(suite: Suite, keys: KeySet, nonce: Block): Key32
  {
    DeriveMacKey(suite, keys.aes128Key, keys.poly1305R, nonce)
  }

  /** Ciphertext and detached tag. */
  datatype Sealed = Sealed(ciphertext: seq<Byte>, tag: Block)

  /** What detached encryption computes: the plaintext XOR the keystream from
      offset 0, and the Poly1305 tag of that ciphertext. */
  function Seal(suite: Suite, keys: KeySet, nonce: Block, associatedData: seq<Byte>, plaintext: seq<Byte>): (r: Result<Sealed>)
    ensures r.Ok? <==> associatedData == []
    ensures r.Err? ==> r == Err(Error)
    ensures r.Ok? ==> |r.value.ciphertext| == |plaintext| + CiphertextOverhead
    ensures r.Ok? ==> r.value.tag == suite.poly1305(MacKey(suite, keys, nonce), r.value.ciphertext)
  {
    if associatedData != [] then Err(Error)
    else
      var ciphertext := Xor(plaintext, Keystream(suite, keys.aes256CtrKey, nonce, 0, |plaintext|));
      Ok(Sealed(ciphertext, suite.poly1305(MacKey(suite, keys, nonce), ciphertext)))
  }

  /** What detached decryption computes: the plaintext, if and only if there
      is no associated data and `tag` is the Poly1305 tag of the ciphertext. */
  function Open(suite: Suite, keys: KeySet, nonce: Block, associatedData: seq<Byte>, ciphertext: seq<Byte>, tag: Block): (r: Result<seq<Byte>>)
    ensures r.Ok? <==> associatedData == [] && tag == suite.poly1305(MacKey(suite, keys, nonce), ciphertext)
    ensures r.Err? ==> r == Err(Error)
    ensures r.Ok? ==> |r.value| == |ciphertext|
  {
    if associatedData != [] then Err(Error)
    else if suite.poly1305(MacKey(suite, keys, nonce), ciphertext) != tag then Err(Error)
    else Ok(Xor(ciphertext, Keystream(suite, keys.aes256CtrKey, nonce, 0, |ciphertext|)))
  }

  /** The AEAD object: three fixed-size key buffers, wiped in place on drop. */
  class Aes256CtrPoly1305Aes {
    const suite: Suite
    const aes256CtrKey: array<Byte>
    const aes128Key: array<Byte>
    const poly1305R: array<Byte>

    ghost predicate Valid()
    {
      && aes256CtrKey.Length == 32 && aes128Key.Length == 16 && poly1305R.Length == 16
      && aes128Key != poly1305R
    }

    /** The sub-keys currently held. */
    ghost function Keys(): KeySet
      requires Valid()
      reads aes256CtrKey, aes128Key, poly1305R
    {
      KeySet(aes256CtrKey[..], aes128Key[..], poly1305R[..])
    }

    /** `NewAead::new`: copies the three slices of the master key into three
        fresh buffers. */
    constructor (suite: Suite, key: Key64)
      ensures Valid() && fresh(aes256CtrKey) && fresh(aes128Key) && fresh(poly1305R)
      ensures this.suite == suite && Keys() == SplitKey(key)
    {
      this.suite := suite;
      aes256CtrKey := new Byte[32](i requires 0 <= i < 32 => key[i]);
      aes128Key := new Byte[16](i requires 0 <= i < 16 => key[32 + i]);
      poly1305R := new Byte[16](i requires 0 <= i < 16 => key[48 + i]);
      new;
      assert aes256CtrKey[..] == key[0..32];
      assert aes128Key[..] == key[32..48];
      assert poly1305R[..] == key[48..64];
    }

    /** `cipher_from_nonce`: builds the Poly1305 key in a scratch buffer
        (`mac_key[0..16] = r`, `mac_key[16..32] = AES-128(nonce)` computed in
        the scratch block), builds a fresh cipher at keystream offset 0, and
        wipes both scratch buffers. They are returned, as ghosts, only so that
        their final contents can be stated. */
    method CipherFromNonce(nonce: Block) returns (c: Cipher.Cipher, ghost block: array<Byte>, ghost macKey: array<Byte>)
      requires Valid()
      ensures fresh(c) && c.suite == suite && c.position == 0
      ensures c.key == aes256CtrKey[..] && c.nonce == nonce
      ensures c.macKey[..16] == poly1305R[..]
      ensures c.macKey[16..] == suite.aes128(aes128Key[..], nonce)
      ensures fresh(block) && block[..] == Zeros(16)
      ensures fresh(macKey) && macKey[..] == Zeros(32)
    {
      var key := new Byte[32];
      CopyFromSlice(key, 0, poly1305R[..]);

      assert key[..16] == poly1305R[..];

      var b := new Byte[16](i requires 0 <= i < 16 => nonce[i]);
      assert b[..] == nonce;
      EncryptBlock(suite, aes128Key[..], b);
      CopyFromSlice(key, 16, b[..]);
      assert key[..] == DeriveMacKey(suite, aes128Key[..], poly1305R[..], nonce);
      Zeroize(b);

      c := new Cipher.Cipher(suite, aes256CtrKey[..], nonce, key[..]);
      Zeroize(key);
      block, macKey := b, key;
    }

    /** `encrypt_in_place_detached`: a fresh cipher for `nonce`, then the
        generic encryption. Associated data is refused only after the cipher
        has been built. */
    method EncryptInPlaceDetached(nonce: Block, associatedData: seq<Byte>, buffer: array<Byte>) returns (r: Result<Block>)
      requires Valid()
      requires buffer != aes256CtrKey && buffer != aes128Key && buffer != poly1305R
      modifies buffer
      ensures Keys() == old(Keys())
      ensures match Seal(suite, Keys(), nonce, associatedData, old(buffer[..]))
                case Ok(sealed) => r == Ok(sealed.tag) && buffer[..] == sealed.ciphertext
                case Err(e) => r == Err(e) && buffer[..] == old(buffer[..])
    {
      var c, _, _ := CipherFromNonce(nonce);
      assert c.macKey == MacKey(suite, Keys(), nonce) by {
        assert c.macKey == c.macKey[..16] + c.macKey[16..];
      }
      r := c.EncryptInPlaceDetached(associatedData, buffer);
    }

    /** `decrypt_in_place_detached`: a fresh cipher for `nonce`, then the
        generic verify-then-decrypt. On failure the buffer is untouched. */
    method DecryptInPlaceDetached(nonce: Block, associatedData: seq<Byte>, buffer: array<Byte>, tag: Block) returns (r: Result<()>)
      requires Valid()
      requires buffer != aes256CtrKey && buffer != aes128Key && buffer != poly1305R
      modifies buffer
      ensures Keys() == old(Keys())
      ensures match Open(suite, Keys(), nonce, associatedData, old(buffer[..]), tag)
                case Ok(plaintext) => r.Ok? && buffer[..] == plaintext
                case Err(e) => r == Err(e) && buffer[..] == old(buffer[..])
    {
      var c, _, _ := CipherFromNonce(nonce);
      assert c.macKey == MacKey(suite, Keys(), nonce) by {
        assert c.macKey == c.macKey[..16] + c.macKey[16..];
      }
      r := c.DecryptInPlaceDetached(associatedData, buffer, tag);
    }

    /** `Drop::drop`: every byte of the three key buffers becomes 0; the
        buffers keep their sizes. */
    method Drop()
      requires Valid()
      modifies aes256CtrKey, aes128Key, poly1305R
      ensures Valid()
      ensures aes256CtrKey[..] == Zeros(32) && aes128Key[..] == Zeros(16) && poly1305R[..] == Zeros(16)
    {
      Zeroize(aes256CtrKey);
      Zeroize(aes128Key);
      Zeroize(poly1305R);
    }
  }
}
