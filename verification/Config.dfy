// Sizes, configuration records and their validators, and the types shared by all modules.
module Config {

  type byte = b: int | 0 <= b < 0x100

  const U16_LIMIT: nat := 0x1_0000
  const U32_LIMIT: nat := 0x1_0000_0000
  const U64_LIMIT: nat := 0x1_0000_0000_0000_0000

  // The value a U64, a U32 keeps of a result.
  function W64(v: nat): (r: nat) ensures r <= v && r < U64_LIMIT { if v < U64_LIMIT then v else v % U64_LIMIT }
  function W32(v: nat): (r: nat) ensures r <= v && r < U32_LIMIT { if v < U32_LIMIT then v else v % U32_LIMIT }

  function Max(a: int, b: int): int { if a < b then b else a }
  function Min(a: int, b: int): int { if a < b then a else b }
  function Clamp(v: int, lo: int, hi: int): int { if v < lo then lo else if hi < v then hi else v }

  datatype Errc =
    | InvalidArg | Truncated | BadPacket | EndOfStream | TooLarge | QueueFull | Backpressure
    | StateError | ProtocolError | UnsupportedVersion | AuthFailed

  datatype Result<+T> = Success(value: T) | Failure(error: Errc) {
    predicate IsFailure() { Failure? }
    function PropagateFailure<U>(): Result<U> requires Failure? { Failure(error) }
    function Extract(): T requires Success? { value }
  }

  datatype Status = Ok | Err(error: Errc)

  datatype Option<+T> = None | Some(value: T)

  // ---------------------------------------------------------------- size chain

  const MAX_PACKET_BYTES: nat := 1300
  const PACKET_HEADER_BYTES: nat := 28
  const MAX_PAYLOAD_BYTES: nat := MAX_PACKET_BYTES - PACKET_HEADER_BYTES
  const AEAD_TAG_BYTES: nat := 16
  const MESSAGE_HEADER_BYTES: nat := 4
  const MAX_ENCRYPTED_PLAINTEXT_BYTES: nat := MAX_PAYLOAD_BYTES - AEAD_TAG_BYTES
  const MAX_MESSAGE_BYTES: nat := MAX_ENCRYPTED_PLAINTEXT_BYTES - MESSAGE_HEADER_BYTES
  const MAX_RELIABLE_MESSAGE_BYTES: nat := MAX_MESSAGE_BYTES - 8
  const MAX_ORDERED_MESSAGE_BYTES: nat := MAX_RELIABLE_MESSAGE_BYTES - 8
  const MAX_SEQUENCED_MESSAGE_BYTES: nat := MAX_MESSAGE_BYTES - 8
  const FRAGMENT_HEADER_BYTES: nat := 24
  const MAX_FRAGMENT_DATA_BYTES: nat := MAX_ORDERED_MESSAGE_BYTES - FRAGMENT_HEADER_BYTES
  const PROTOCOL_VERSION: nat := 3
  const MAGIC: nat := 0x53434E33

  // ------------------------------------------------------------------ channels

  datatype Channel = Unreliable | Reliable | ReliableOrdered | SequencedUnreliable | Control {
    predicate IsReliable() { Reliable? || ReliableOrdered? }
    predicate IsApplication() { !Control? }
    function Code(): (c: byte) {
      match this
      case Unreliable => 0
      case Reliable => 1
      case ReliableOrdered => 2
      case SequencedUnreliable => 3
      case Control => 4
    }
    // The largest payload sent in one packet on this channel.
    function MaxInline(): nat {
      match this
      case Reliable => MAX_RELIABLE_MESSAGE_BYTES
      case ReliableOrdered => MAX_ORDERED_MESSAGE_BYTES
      case SequencedUnreliable => MAX_SEQUENCED_MESSAGE_BYTES
      case _ => MAX_MESSAGE_BYTES
    }
  }

  function ChannelOf(code: byte): Channel
    requires code <= 4
  {
    if code == 0 then Unreliable
    else if code == 1 then Reliable
    else if code == 2 then ReliableOrdered
    else if code == 3 then SequencedUnreliable
    else Control
  }

  const CONTROL_ACK: byte := 1
  const CONTROL_FRAGMENT: byte := 2

  // --------------------------------------------------------------- validators

  datatype ReliabilityConfig = ReliabilityConfig(
    initialRtoMs: nat, minRtoMs: nat, maxRtoMs: nat,
    maxPendingMessages: nat, maxPendingBytes: nat, maxInflightMessages: nat, orderedReceiveWindow: nat)
  {
    predicate Valid() {
      && initialRtoMs != 0 && minRtoMs != 0 && maxRtoMs != 0
      && minRtoMs <= initialRtoMs <= maxRtoMs
      && maxPendingMessages != 0 && maxInflightMessages != 0
      && maxPendingBytes >= MAX_RELIABLE_MESSAGE_BYTES
      && orderedReceiveWindow != 0
    }
  }

  datatype FragmentationConfig = FragmentationConfig(
    enabled: bool, maxFragmentsPerMessage: nat, maxReassembledMessageBytes: nat,
    maxConcurrentReassemblies: nat, maxReassemblyMemory: nat, reassemblyTimeoutMs: nat)
  {
    predicate Valid() {
      enabled ==>
        && maxFragmentsPerMessage != 0
        && 0 < maxReassembledMessageBytes < U16_LIMIT
        && (maxReassembledMessageBytes + MAX_FRAGMENT_DATA_BYTES - 1) / MAX_FRAGMENT_DATA_BYTES
             <= maxFragmentsPerMessage
        && maxConcurrentReassemblies != 0
        && maxReassemblyMemory >= maxReassembledMessageBytes
        && reassemblyTimeoutMs != 0
    }
  }

  datatype CongestionConfig = CongestionConfig(
    enabled: bool, minRate: nat, initialRate: nat, maxRate: nat, additiveIncrease: nat,
    lossDecreasePerMille: nat, backpressureDecreasePerMille: nat,
    minWindow: nat, maxWindow: nat, lossCooldownMs: nat, backpressureCooldownMs: nat)
  {
    predicate Valid(sendBudget: nat) {
      enabled ==>
        && sendBudget != 0
        && minRate != 0
        && minRate <= (if maxRate == 0 then sendBudget else maxRate)
        && (initialRate != 0 ==> minRate <= initialRate <= (if maxRate == 0 then sendBudget else maxRate))
        && additiveIncrease != 0
        && 0 < lossDecreasePerMille <= 1000
        && 0 < backpressureDecreasePerMille <= 1000
        && minWindow >= MAX_PACKET_BYTES
        && (maxWindow != 0 ==> maxWindow >= minWindow)
        && lossCooldownMs != 0 && backpressureCooldownMs != 0
    }
  }

  datatype Priority = Low | Normal | High {
    function Rank(): nat { if Low? then 0 else if Normal? then 1 else 2 }
  }

  // ------------------------------------------------------------- connection states

  datatype Phase = Idle | Handshaking | Established | Closing | Closed {
    function Rank(): nat {
      match this
      case Idle => 0
      case Handshaking => 1
      case Established => 2
      case Closing => 3
      case Closed => 4
    }
  }

  // now - since on U64
  function Elapsed(now: nat, since: nat): nat {
    if now >= since then now - since else W64(now + U64_LIMIT - W64(since))
  }
}
