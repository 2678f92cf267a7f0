/** Byte strings, the fixed-size byte values of the construction, and the
    in-place byte-array helpers (`copy_from_slice`, `zeroize`) it uses. */
module Types {

  type Byte = bv8

  // The fixed sizes of `AeadCore` and `NewAead`: nonces and tags are one AES
  // block, and the master key is 64 bytes.
  const BlockSize: nat := 16
  const Key32Size: nat := 32
  const KeySize: nat := 64

  /** A 16-byte value: an AES block, a nonce, a Poly1305 tag, an AES-128 key or
      the Poly1305 multiplier r. */
  type Block = s: seq<Byte> | |s| == BlockSize witness Zeros(BlockSize)

  /** A 32-byte value: the AES-256 key of the stream cipher or a Poly1305 key. */
  type Key32 = s: seq<Byte> | |s| == Key32Size witness Zeros(Key32Size)

  /** The 64-byte master key. */
  type Key64 = s: seq<Byte> | |s| == KeySize witness Zeros(KeySize)

  /** The opaque error of the `aead` crate: it carries no payload, so a caller
      cannot tell which check failed. */
  datatype Error = Error

  datatype Result<T> = Ok(value: T) | Err(error: Error)

  function Zeros(n: nat): (z: seq<Byte>)
    ensures |z| == n
    ensures forall i :: 0 <= i < n ==> z[i] == 0
  {
    seq(n, _ => 0)
  }

  /** Byte-wise exclusive or of two strings of equal length. */
  function Xor(a: seq<Byte>, b: seq<Byte>): (c: seq<Byte>)
    requires |a| == |b|
    ensures |c| == |a|
    ensures forall i :: 0 <= i < |a| ==> c[i] == a[i] ^ b[i]
  {
    seq(|a|, i requires 0 <= i < |a| => a[i] ^ b[i])
  }

  /** Applying the same keystream twice gives the input back. */
  lemma XorCancel(a: seq<Byte>, b: seq<Byte>)
    requires |a| == |b|
    ensures Xor(Xor(a, b), b) == a
  {
  }

  /** `dst[at..at + |src|].copy_from_slice(src)`: the rest of `dst` is kept. */
  method CopyFromSlice(dst: array<Byte>, at: nat, src: seq<Byte>)
    requires at + |src| <= dst.Length
    modifies dst
    ensures dst[..] == old(dst[..at]) + src + old(dst[at + |src|..])
  {
    forall i | at <= i < at + |src| {
      dst[i] := src[i - at];
    }
  }

  /** `zeroize`: overwrite every byte with 0, one write per byte. */
  method Zeroize(a: array<Byte>)
    modifies a
    ensures a[..] == Zeros(a.Length)
  {
    for i := 0 to a.Length
      invariant forall k :: 0 <= k < i ==> a[k] == 0
    {
      a[i] := 0;
    }
  }
}
