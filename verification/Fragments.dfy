// Splitting a message into fragments, and the fragment codec.
module Fragments {
  import opened Config
  import opened Bytes

  // ---------------------------------------------------------------- arithmetic

  // fragment_count_for_length and fragment_size_for_index, with their casts to U16 written out.
  function Count(length: nat): nat {
    if length == 0 then 0 else ((length + MAX_FRAGMENT_DATA_BYTES - 1) / MAX_FRAGMENT_DATA_BYTES) % U16_LIMIT
  }

  function Size(length: nat, index: nat): nat {
    var count := Count(length);
    if count == 0 || index >= count then 0
    else
      var offset := (index * MAX_FRAGMENT_DATA_BYTES) % U16_LIMIT;
      var remaining := (length - offset) % U16_LIMIT;
      if remaining < MAX_FRAGMENT_DATA_BYTES then remaining else MAX_FRAGMENT_DATA_BYTES
  }

  function Offset(index: nat): nat { index * MAX_FRAGMENT_DATA_BYTES }

  lemma CountBounds(length: nat)
    requires 0 < length < U16_LIMIT
    ensures 0 < Count(length) <= 55
    ensures Offset(Count(length) - 1) < length <= Offset(Count(length))
  {
    var n := length + 1211;
    assert n / 1212 < 56;
    assert Count(length) == n / 1212;
    assert n == 1212 * (n / 1212) + n % 1212;
  }

  // No cast wraps: every fragment is non-empty, starts where the one before it ends, and the last one
  // ends at the length.
  lemma Layout(length: nat, index: nat)
    requires length < U16_LIMIT && index < Count(length)
    ensures 0 < Size(length, index) <= MAX_FRAGMENT_DATA_BYTES
    ensures Offset(index) + Size(length, index) <= length
    ensures index + 1 < Count(length) ==> Offset(index) + Size(length, index) == Offset(index + 1)
    ensures index + 1 == Count(length) ==> Offset(index) + Size(length, index) == length
  {
    CountBounds(length);
    var count := Count(length);
    assert index * 1212 <= (count - 1) * 1212;
    assert Offset(index) % U16_LIMIT == Offset(index);
    assert (length - Offset(index)) % U16_LIMIT == length - Offset(index);
    assert index + 1 < count ==> (index + 1) * 1212 <= (count - 1) * 1212;
  }

  // Every byte of a message lies in exactly one fragment.
  lemma HomeOf(length: nat, position: nat, index: nat)
    requires position < length < U16_LIMIT
    ensures position / MAX_FRAGMENT_DATA_BYTES < Count(length)
    ensures index < Count(length) ==>
      (Offset(index) <= position < Offset(index) + Size(length, index) <==> index == position / MAX_FRAGMENT_DATA_BYTES)
  {
    if index < Count(length) { Layout(length, index); }
  }

  function Slice(payload: seq<byte>, index: nat): (s: seq<byte>)
    requires |payload| < U16_LIMIT && index < Count(|payload|)
    ensures |s| == Size(|payload|, index)
  {
    Layout(|payload|, index);
    payload[Offset(index)..Offset(index) + Size(|payload|, index)]
  }

  function Join(payload: seq<byte>, n: nat): seq<byte>
    requires |payload| < U16_LIMIT && n <= Count(|payload|)
  {
    if n == 0 then [] else Join(payload, n - 1) + Slice(payload, n - 1)
  }

  lemma {:induction false} JoinPrefix(payload: seq<byte>, n: nat)
    requires |payload| < U16_LIMIT && n <= Count(|payload|)
    ensures n < Count(|payload|) ==> Offset(n) <= |payload| && Join(payload, n) == payload[..Offset(n)]
    ensures n == Count(|payload|) ==> Join(payload, n) == payload
  {
    if n > 0 {
      JoinPrefix(payload, n - 1);
      Layout(|payload|, n - 1);
      if n < Count(|payload|) { Layout(|payload|, n); }
      var start := Offset(n - 1);
      assert payload[..start] + Slice(payload, n - 1) == payload[..start + Size(|payload|, n - 1)];
    }
  }

  // The fragments of a message, put end to end, are the message.
  lemma JoinAll(payload: seq<byte>)
    requires |payload| < U16_LIMIT
    ensures Join(payload, Count(|payload|)) == payload
  {
    JoinPrefix(payload, Count(|payload|));
  }

  // Under a validated configuration the sender never meets its count-exceeds-policy branch.
  lemma PolicyAllowsCount(cfg: FragmentationConfig, length: nat)
    requires cfg.Valid() && cfg.enabled && 0 < length <= cfg.maxReassembledMessageBytes
    ensures 0 < Count(length) <= cfg.maxFragmentsPerMessage
  {
  }

  // --------------------------------------------------------------------- codec

  datatype Fragment = Fragment(
    messageId: nat, deliverySequence: nat, channel: Channel, kind: byte,
    index: nat, count: nat, length: nat, data: seq<byte>)

  const FRAGMENT_WIDTHS: seq<nat> := [8, 8, 1, 1, 2, 2, 2]

  lemma FragmentWidths()
    ensures Total(FRAGMENT_WIDTHS) == FRAGMENT_HEADER_BYTES
  {
    assert FRAGMENT_WIDTHS[1..] == [8, 1, 1, 2, 2, 2];
    assert [8, 1, 1, 2, 2, 2][1..] == [1, 1, 2, 2, 2];
    assert [1, 1, 2, 2, 2][1..] == [1, 2, 2, 2];
    assert [1, 2, 2, 2][1..] == [2, 2, 2];
    assert [2, 2, 2][1..] == [2, 2];
    assert [2, 2][1..] == [2];
  }

  // What write_fragment_payload accepts: the field widths and its argument checks.
  predicate Writable(f: Fragment) {
    && 0 < f.messageId < U64_LIMIT && f.deliverySequence < U64_LIMIT
    && f.channel.IsApplication()
    && 0 < f.length < U16_LIMIT
    && f.count == Count(f.length) && f.index < f.count
    && |f.data| == Size(f.length, f.index)
  }

  function Fields(f: Fragment): seq<nat> {
    [f.messageId, f.deliverySequence, f.channel.Code(), f.kind, f.index, f.count, f.length]
  }

  function EncodeFragment(f: Fragment): seq<byte> { Pack(Fields(f), FRAGMENT_WIDTHS) + f.data }

  function ReadFragment(s: seq<byte>): Result<Fragment> {
    if |s| < FRAGMENT_HEADER_BYTES then Failure(BadPacket)
    else
      FragmentWidths(); UnpackInRange(s, FRAGMENT_WIDTHS); Widths();
      var v := Unpack(s, FRAGMENT_WIDTHS);
      var rest := s[FRAGMENT_HEADER_BYTES..];
      if v[0] == 0 || v[2] > 3 then Failure(BadPacket)
      else if v[5] == 0 || v[4] >= v[5] || v[6] == 0 then Failure(BadPacket)
      else if v[5] != Count(v[6]) then Failure(BadPacket)
      else if Size(v[6], v[4]) == 0 || |rest| != Size(v[6], v[4]) then Failure(BadPacket)
      else Success(Fragment(v[0], v[1], ChannelOf(v[2]), v[3], v[4], v[5], v[6], rest))
  }

  // The reader accepts exactly the encodings the writer produces, and gives back what was written.
  lemma FragmentRoundTrip(s: seq<byte>, f: Fragment)
    ensures ReadFragment(s) == Success(f) <==> Writable(f) && s == EncodeFragment(f)
  {
    FragmentWidths();
    Widths();
    if Writable(f) && s == EncodeFragment(f) {
      Layout(f.length, f.index);
      UnpackOfPack(Fields(f), FRAGMENT_WIDTHS, f.data);
    }
    if ReadFragment(s) == Success(f) {
      UnpackInRange(s, FRAGMENT_WIDTHS);
      PackOfUnpack(s, FRAGMENT_WIDTHS);
      assert Fields(f) == Unpack(s, FRAGMENT_WIDTHS);
    }
  }
}
