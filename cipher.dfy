/** The generic AEAD of `src/cipher.rs`: a stream cipher instance and a Poly1305
    instance, used once for an encrypt-then-MAC or a verify-then-decrypt over a
    caller's buffer with a detached tag. */
module Cipher {
  import opened Types
  import opened Primitives

  /** The bitwise OR of the byte differences `a[k] ^ b[k]` for `k < n`: the
      accumulator of a comparison that reads every byte before deciding. */
  function Difference(a: Block, b: Block, n: nat): (d: Byte)
    requires n <= 16
    ensures d == 0 <==> a[..n] == b[..n]
  {
    if n == 0 then 0
    else
      var d := Difference(a, b, n - 1) | (a[n - 1] ^ b[n - 1]);
      assert a[..n] == a[..n - 1] + [a[n - 1]] && b[..n] == b[..n - 1] + [b[n - 1]];
      d
  }

  /** `expected_tag.ct_eq(tag)`: every one of the 16 byte pairs is examined,
      with no early exit, and the answer is whether the tags are equal. */
  method ConstantTimeEq(a: Block, b: Block) returns (equal: bool)
    ensures equal <==> a == b
  {
    var acc: Byte := 0;
    for i := 0 to 16
      invariant acc == Difference(a, b, i)
    {
      acc := acc | (a[i] ^ b[i]);
    }
    assert a[..16] == a && b[..16] == b;
    equal := acc == 0;
  }

  /** `Cipher<Aes256Ctr>`: the stream cipher state (key, initial counter block,
      bytes of keystream already used) and the Poly1305 instance, known by its
      key. The source consumes the value on use (`mut self`). */
  class Cipher {
    const suite: Suite
    const key: Key32
    const nonce: Block
    var position: nat
    const macKey: Key32

    /** `Cipher::new`: a stream cipher that has produced no keystream yet. */
    constructor (suite: Suite, key: Key32, nonce: Block, macKey: Key32)
      ensures this.suite == suite && this.key == key && this.nonce == nonce
      ensures this.macKey == macKey && position == 0
    {
      this.suite := suite;
      this.key := key;
      this.nonce := nonce;
      this.macKey := macKey;
      position := 0;
    }

    /** `apply_keystream`: XOR the next `buffer.Length` keystream bytes into
        `buffer` and advance the stream. */
    method ApplyKeystream(buffer: array<Byte>)
      modifies this, buffer
      ensures buffer[..] == Xor(old(buffer[..]), Keystream(suite, key, nonce, old(position), buffer.Length))
      ensures position == old(position) + buffer.Length
    {
      var start := position;
      ghost var ks := Keystream(suite, key, nonce, start, buffer.Length);
      for i := 0 to buffer.Length
        invariant position == start
        invariant forall k :: 0 <= k < i ==> buffer[k] == old(buffer[k]) ^ ks[k]
        invariant forall k :: i <= k < buffer.Length ==> buffer[k] == old(buffer[k])
      {
        buffer[i] := buffer[i] ^ suite.ctrByte(key, nonce, start + i);
      }
      position := start + buffer.Length;
    }

    /** `Cipher::encrypt_in_place_detached`: refuse associated data; otherwise
        turn the buffer into ciphertext and return the MAC of that ciphertext. */
    method EncryptInPlaceDetached(associatedData: seq<Byte>, buffer: array<Byte>) returns (r: Result<Block>)
      modifies this, buffer
      ensures associatedData != [] ==>
                r == Err(Error) && buffer[..] == old(buffer[..]) && position == old(position)
      ensures associatedData == [] ==>
                && buffer[..] == Xor(old(buffer[..]), Keystream(suite, key, nonce, old(position), buffer.Length))
                && r == Ok(suite.poly1305(macKey, buffer[..]))
                && position == old(position) + buffer.Length
    {
      if associatedData != [] {
        return Err(Error);
      }
      ApplyKeystream(buffer);
      r := Ok(suite.poly1305(macKey, buffer[..]));
    }

    /** `Cipher::decrypt_in_place_detached`: refuse associated data; otherwise
        compute the MAC of the ciphertext as received, compare it with `tag`,
        and decrypt only when they are equal. On every failure the buffer still
        holds exactly what the caller passed in. */
    method DecryptInPlaceDetached(associatedData: seq<Byte>, buffer: array<Byte>, tag: Block) returns (r: Result<()>)
      modifies this, buffer
      ensures associatedData != [] ==> r == Err(Error)
      ensures associatedData == [] ==> (r.Ok? <==> tag == suite.poly1305(macKey, old(buffer[..])))
      ensures r.Err? ==> r == Err(Error) && buffer[..] == old(buffer[..]) && position == old(position)
      ensures r.Ok? ==>
                && buffer[..] == Xor(old(buffer[..]), Keystream(suite, key, nonce, old(position), buffer.Length))
                && position == old(position) + buffer.Length
    {
      if associatedData != [] {
        return Err(Error);
      }
      var expectedTag := suite.poly1305(macKey, buffer[..]);
      var equal := ConstantTimeEq(expectedTag, tag);
      if equal {
        ApplyKeystream(buffer);
        r := Ok(());
      } else {
        r := Err(Error);
      }
    }
  }
}
