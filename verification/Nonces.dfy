// The 24-byte packet nonce.
module Nonces {
  import opened Config
  import opened Bytes

  const NONCE_LENGTH: nat := 24

  ghost function NonceOf(connId: nat, sequence: nat): seq<byte> {
    seq(8, _ => 0 as byte) + (BigEndian(connId, 8) + BigEndian(sequence, 8))
  }

  lemma {:induction false} ShiftIsByte(v: nat, n: nat, i: nat)
    requires i < n
    ensures BigEndian(v, n)[i] == ShiftRight8(v, n - 1 - i) % 256
  {
    if i < n - 1 {
      ShiftIsByte(v / 256, n - 1, i);
      ShiftCommutes(v, n - 2 - i);
    }
  }

  lemma {:induction false} ShiftCommutes(v: nat, i: nat)
    ensures ShiftRight8(v / 256, i) == ShiftRight8(v, i + 1)
  {
    if i > 0 { ShiftCommutes(v, i - 1); }
  }

  // Byte i of a U64 written high byte first.
  function ByteOf(v: nat, i: nat): byte
    requires i < 8
  {
    ShiftRight8(v, 7 - i) % 256
  }

  lemma AssembleNonce(out: seq<byte>, connId: nat, sequence: nat)
    requires |out| == NONCE_LENGTH && forall k | 0 <= k < 8 :: out[k] == 0
    requires forall k | 0 <= k < 8 :: out[8 + k] == ByteOf(connId, k)
    requires forall k | 0 <= k < 8 :: out[16 + k] == ByteOf(sequence, k)
    ensures out == NonceOf(connId, sequence)
  {
    forall k | 0 <= k < 8 ensures out[8 + k] == BigEndian(connId, 8)[k] && out[16 + k] == BigEndian(sequence, 8)[k] {
      assert out[8 + k] == ByteOf(connId, k) && out[16 + k] == ByteOf(sequence, k);
      ShiftIsByte(connId, 8, k);
      ShiftIsByte(sequence, 8, k);
    }
    assert out == out[..8] + (out[8..16] + out[16..]);
    assert out[8..16] == BigEndian(connId, 8) && out[16..] == BigEndian(sequence, 8);
  }

  method MakePacketNonce(connId: nat, sequence: nat, out: array<byte>)
    requires out.Length == NONCE_LENGTH && connId < U64_LIMIT && sequence < U64_LIMIT
    modifies out
    ensures out[..] == NonceOf(connId, sequence)
  {
    for i := 0 to NONCE_LENGTH
      invariant forall k | 0 <= k < i :: out[k] == 0
    {
      out[i] := 0;
    }
    for i := 0 to 8
      invariant forall k | 0 <= k < 8 :: out[k] == 0
      invariant forall k | 0 <= k < i :: out[8 + k] == ByteOf(connId, k)
      invariant forall k | 0 <= k < i :: out[16 + k] == ByteOf(sequence, k)
    {
      out[8 + i] := ShiftRight8(connId, 7 - i) % 256;
      out[16 + i] := ShiftRight8(sequence, 7 - i) % 256;
    }
    AssembleNonce(out[..], connId, sequence);
  }

  lemma NonceParts(nonce: seq<byte>, connId: nat, sequence: nat)
    requires nonce == NonceOf(connId, sequence)
    ensures |nonce| == NONCE_LENGTH && nonce[8..16] == BigEndian(connId, 8) && nonce[16..] == BigEndian(sequence, 8)
  {
  }

  // Different connection ids or sequence numbers give different nonces.
  lemma NonceInjective(connId: nat, sequence: nat, connId': nat, sequence': nat)
    requires connId < U64_LIMIT && sequence < U64_LIMIT && connId' < U64_LIMIT && sequence' < U64_LIMIT
    requires NonceOf(connId, sequence) == NonceOf(connId', sequence')
    ensures connId == connId' && sequence == sequence'
  {
    var nonce := NonceOf(connId, sequence);
    NonceParts(nonce, connId, sequence);
    NonceParts(nonce, connId', sequence');
    assert U64_LIMIT == Pow256(8) by { Widths(); }
    BigEndianInjective(connId, connId', 8);
    BigEndianInjective(sequence, sequence', 8);
  }
}
