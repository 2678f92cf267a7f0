/** The three primitives the construction borrows from other crates (`aes`,
    `cipher`, `poly1305`). Their internals are not part of this model: each is
    an arbitrary total function, and every property proved elsewhere holds for
    every choice of them. */
module Primitives {
  import opened Types

  /** One choice of the external primitives.
      - `aes128(key, block)`: AES-128 encryption of one block (`encrypt_block`).
      - `ctrByte(key, nonce, offset)`: the byte at position `offset` of the
        AES-256-CTR keystream whose initial counter block is `nonce`.
      - `poly1305(key, message)`: Poly1305 `compute_unpadded` over the exact
        bytes of `message`, under a 32-byte key `r || s`. */
  datatype Suite = Suite(
    aes128: (Block, Block) -> Block,
    ctrByte: (Key32, Block, nat) -> Byte,
    poly1305: (Key32, seq<Byte>) -> Block)

  /** The `len` keystream bytes that start at `offset` of the stream keyed by
      `key` and `nonce`. */
  function Keystream(suite: Suite, key: Key32, nonce: Block, offset: nat, len: nat): (ks: seq<Byte>)
    ensures |ks| == len
    ensures forall i :: 0 <= i < len ==> ks[i] == suite.ctrByte(key, nonce, offset + i)
  {
    seq(len, i requires 0 <= i < len => suite.ctrByte(key, nonce, offset + i))
  }

  /** The stream is seekable: the keystream window of length `m + n` at
      `offset` is the window of length `m` there followed by the window of
      length `n` at `offset + m`. So each byte depends only on key, nonce and
      its offset, however the stream is consumed. */
  lemma KeystreamConcat(suite: Suite, key: Key32, nonce: Block, offset: nat, m: nat, n: nat)
    ensures Keystream(suite, key, nonce, offset, m + n)
         == Keystream(suite, key, nonce, offset, m) + Keystream(suite, key, nonce, offset + m, n)
  {
  }

  /** `Aes128::new(key).encrypt_block(block)`: encrypts the 16 bytes of
      `block` in place. */
  method EncryptBlock(suite: Suite, key: Block, block: array<Byte>)
    requires block.Length == 16
    modifies block
    ensures block[..] == suite.aes128(key, old(block[..]))
  {
    var out := suite.aes128(key, block[..]);
    forall i | 0 <= i < 16 {
      block[i] := out[i];
    }
  }
}
