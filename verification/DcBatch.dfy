/** Messages laid out in ring memory, and their decoding. */
module DcBatch {
  import opened Prelude
  import opened DcEncoding

  datatype Msg = Msg(callId: nat, payload: Bytes)

  /** Both fields of the message header are 32-bit words. */
  predicate Encodable(m: Msg) {
    m.callId < U32 && |m.payload| < U32
  }

  function MsgSize(m: Msg): nat {
    PaddedMessageSize(|m.payload|)
  }

  function MsgsSize(msgs: seq<Msg>): (size: nat)
    ensures size % ALIGNMENT == 0
    ensures size >= ALIGNMENT * |msgs|
  {
    if msgs == [] then 0 else MsgSize(msgs[0]) + MsgsSize(msgs[1..])
  }

  /** Copy of `bytes` into `ring` at `off`. */
  function WriteAt(ring: Bytes, off: nat, bytes: Bytes): (r: Bytes)
    requires off + |bytes| <= |ring|
    ensures |r| == |ring|
    ensures r[off..off + |bytes|] == bytes
    ensures r[..off] == ring[..off] && r[off + |bytes|..] == ring[off + |bytes|..]
  {
    ring[..off] + bytes + ring[off + |bytes|..]
  }

  function EncodeMsg(m: Msg): (b: Bytes)
    ensures |b| == DC_HEADER_SIZE + |m.payload|
  {
    EncodeHeader(m.callId, |m.payload|) + m.payload
  }

  /** Message `m` stands at `off`. */
  predicate MsgAt(ring: Bytes, off: nat, m: Msg) {
    && Encodable(m)
    && off + MsgSize(m) <= |ring|
    && ring[off..off + DC_HEADER_SIZE + |m.payload|] == EncodeMsg(m)
  }

  /** The messages stand one after the other from `off` on. */
  predicate Layout(ring: Bytes, off: nat, msgs: seq<Msg>)
    decreases |msgs|
  {
    msgs == [] || (MsgAt(ring, off, msgs[0]) && Layout(ring, off + MsgSize(msgs[0]), msgs[1..]))
  }

  lemma SliceOfSlice(s: Bytes, a: nat, b: nat, i: nat, j: nat)
    requires a <= b <= |s| && i <= j && a + j <= b
    ensures s[a..b][i..j] == s[a + i..a + j]
  {
    var u, v := s[a..b][i..j], s[a + i..a + j];
    assert |u| == |v| && forall k :: 0 <= k < |u| ==> u[k] == v[k];
  }

  /** A message that stands at `a + off` in `s` stands at `b + off` wherever the bytes are copied. */
  lemma MsgAtMoves(s: Bytes, t: Bytes, a: nat, b: nat, len: nat, off: nat, m: Msg)
    requires a + len <= |s| && b + len <= |t| && s[a..a + len] == t[b..b + len]
    requires MsgAt(s, a + off, m) && off + MsgSize(m) <= len
    ensures MsgAt(t, b + off, m)
  {
    var k := DC_HEADER_SIZE + |m.payload|;
    SliceOfSlice(s, a, a + len, off, off + k);
    SliceOfSlice(t, b, b + len, off, off + k);
  }

  lemma {:induction false} LayoutMoves(s: Bytes, t: Bytes, a: nat, b: nat, len: nat, off: nat, msgs: seq<Msg>)
    requires a + len <= |s| && b + len <= |t| && s[a..a + len] == t[b..b + len]
    requires Layout(s, a + off, msgs) && off + MsgsSize(msgs) <= len
    ensures Layout(t, b + off, msgs)
    decreases |msgs|
  {
    if msgs != [] {
      MsgAtMoves(s, t, a, b, len, off, msgs[0]);
      LayoutMoves(s, t, a, b, len, off + MsgSize(msgs[0]), msgs[1..]);
    }
  }

  /** Writing a message behind the others extends the layout. */
  lemma {:induction false} LayoutAppend(ring: Bytes, off: nat, msgs: seq<Msg>, m: Msg)
    requires Layout(ring, off, msgs) && MsgAt(ring, off + MsgsSize(msgs), m)
    ensures Layout(ring, off, msgs + [m]) && MsgsSize(msgs + [m]) == MsgsSize(msgs) + MsgSize(m)
    decreases |msgs|
  {
    if msgs == [] {
      assert [m][1..] == [];
      assert msgs + [m] == [m];
    } else {
      assert (msgs + [m])[1..] == msgs[1..] + [m];
      LayoutAppend(ring, off + MsgSize(msgs[0]), msgs[1..], m);
    }
  }

  /** The layout depends only on the bytes it covers. */
  lemma LayoutFrame(ring: Bytes, ring': Bytes, off: nat, end: nat, msgs: seq<Msg>)
    requires |ring'| == |ring| && off + MsgsSize(msgs) <= end <= |ring| && ring'[off..end] == ring[off..end]
    requires Layout(ring, off, msgs)
    ensures Layout(ring', off, msgs)
  {
    LayoutMoves(ring, ring', off, off, end - off, 0, msgs);
  }

  /** A batch is a header and the messages it counts, or a wrap that only covers space. */
  datatype Batch = Batch(start: nat, bytes: Bytes, header: BatchHeader, msgs: seq<Msg>)

  predicate IsWrap(b: Batch) {
    b.header.messageCount == WRAP_MESSAGE_COUNT
  }

  predicate BatchOk(b: Batch) {
    && BATCH_HEADER_SIZE <= |b.bytes| == b.header.delta
    && b.bytes[..BATCH_HEADER_SIZE] == EncodeBatchHeader(b.header)
    && b.header.delta < U64 && b.header.creditReturn < U64 && b.header.messageCount < U32
    && (IsWrap(b) ==> b.msgs == [])
    && (!IsWrap(b) ==>
          && |b.msgs| == b.header.messageCount
          && Layout(b.bytes, BATCH_HEADER_SIZE, b.msgs)
          && BATCH_HEADER_SIZE + MsgsSize(b.msgs) == |b.bytes|)
  }
}
