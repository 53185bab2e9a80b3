/** Wire formats of the copyrpc DC transport: padding, little-endian headers, response ids. */
module DcEncoding {
  import opened Prelude

  /** All ring positions are multiples of this. */
  const ALIGNMENT: nat := 32

  /** Batch header: delta, credit return and message count, padded to the alignment. */
  const BATCH_HEADER_SIZE: nat := 32

  /** Message header: call id and payload length. */
  const DC_HEADER_SIZE: nat := 8

  /** Message count that marks a wrap batch. */
  const WRAP_MESSAGE_COUNT: nat := 0xFFFF_FFFF

  const RESPONSE_FLAG: nat := 0x8000_0000

  function PaddedMessageSize(payloadLen: nat): (size: nat)
    ensures size % ALIGNMENT == 0
    ensures DC_HEADER_SIZE + payloadLen <= size < DC_HEADER_SIZE + payloadLen + ALIGNMENT
  {
    var total := DC_HEADER_SIZE + payloadLen;
    (total + ALIGNMENT - 1) / ALIGNMENT * ALIGNMENT
  }

  // Little-endian words.

  function EncodeU16(x: nat): (b: Bytes)
    ensures |b| == 2
  {
    [(x % 256) as Byte, (x / 256 % 256) as Byte]
  }

  function DecodeU16(b: Bytes): (x: nat)
    requires |b| == 2
    ensures x < 0x1_0000
  {
    b[0] as nat + 256 * (b[1] as nat)
  }

  function EncodeU32(x: nat): (b: Bytes)
    ensures |b| == 4
  {
    EncodeU16(x % 0x1_0000) + EncodeU16(x / 0x1_0000)
  }

  function DecodeU32(b: Bytes): (x: nat)
    requires |b| == 4
    ensures x < U32
  {
    DecodeU16(b[..2]) + 0x1_0000 * DecodeU16(b[2..])
  }

  function EncodeU64(x: nat): (b: Bytes)
    ensures |b| == 8
  {
    EncodeU32(x % U32) + EncodeU32(x / U32)
  }

  function DecodeU64(b: Bytes): (x: nat)
    requires |b| == 8
    ensures x < U64
  {
    DecodeU32(b[..4]) + U32 * DecodeU32(b[4..])
  }

  lemma RoundTrip32(x: nat)
    requires x < U32
    ensures DecodeU32(EncodeU32(x)) == x
  {
  }

  lemma RoundTrip64(x: nat)
    requires x < U64
    ensures DecodeU64(EncodeU64(x)) == x
  {
    var b := EncodeU64(x);
    assert b[..4] == EncodeU32(x % U32) && b[4..] == EncodeU32(x / U32);
    RoundTrip32(x % U32);
    RoundTrip32(x / U32);
  }

  function EncodeHeader(callId: nat, payloadLen: nat): (b: Bytes)
    ensures |b| == DC_HEADER_SIZE
  {
    EncodeU32(callId) + EncodeU32(payloadLen)
  }

  function DecodeHeader(b: Bytes): (nat, nat)
    requires |b| == DC_HEADER_SIZE
  {
    (DecodeU32(b[..4]), DecodeU32(b[4..8]))
  }

  lemma HeaderRoundTrip(callId: nat, payloadLen: nat)
    requires callId < U32 && payloadLen < U32
    ensures DecodeHeader(EncodeHeader(callId, payloadLen)) == (callId, payloadLen)
  {
    var b := EncodeHeader(callId, payloadLen);
    assert b[..4] == EncodeU32(callId) && b[4..8] == EncodeU32(payloadLen);
    RoundTrip32(callId);
    RoundTrip32(payloadLen);
  }

  datatype BatchHeader = BatchHeader(delta: nat, creditReturn: nat, messageCount: nat)

  function Zeros(k: nat): (b: Bytes)
    ensures |b| == k
  {
    seq(k, _ => 0)
  }

  function EncodeBatchHeader(h: BatchHeader): (b: Bytes)
    ensures |b| == BATCH_HEADER_SIZE
  {
    EncodeU64(h.delta) + EncodeU64(h.creditReturn) + EncodeU32(h.messageCount) + Zeros(12)
  }

  function DecodeBatchHeader(b: Bytes): BatchHeader
    requires |b| == BATCH_HEADER_SIZE
  {
    BatchHeader(DecodeU64(b[..8]), DecodeU64(b[8..16]), DecodeU32(b[16..20]))
  }

  lemma BatchHeaderRoundTrip(h: BatchHeader)
    requires h.delta < U64 && h.creditReturn < U64 && h.messageCount < U32
    ensures DecodeBatchHeader(EncodeBatchHeader(h)) == h
  {
    var b := EncodeBatchHeader(h);
    assert b[..8] == EncodeU64(h.delta);
    assert b[8..16] == EncodeU64(h.creditReturn);
    assert b[16..20] == EncodeU32(h.messageCount);
    RoundTrip64(h.delta);
    RoundTrip64(h.creditReturn);
    RoundTrip32(h.messageCount);
  }

  // Call ids are 32-bit words; the highest bit tells responses from requests.

  predicate IsResponse(callId: nat) {
    callId / RESPONSE_FLAG % 2 == 1
  }

  function ToResponseId(callId: nat): nat {
    if IsResponse(callId) then callId else callId + RESPONSE_FLAG
  }

  function FromResponseId(callId: nat): nat {
    if IsResponse(callId) then callId - RESPONSE_FLAG else callId
  }

  /** A slab key below the flag survives the trip through a response, and only there looks like one. */
  lemma ResponseIdRoundTrip(callId: nat)
    requires callId < RESPONSE_FLAG
    ensures !IsResponse(callId) && IsResponse(ToResponseId(callId))
    ensures ToResponseId(callId) < U32 && FromResponseId(ToResponseId(callId)) == callId
  {
  }
}
