/** AMS header codec (crates/tc-otel-ads/src/ams.rs). */
module Ams {
  import opened Bytes

  type NetId = b: bytes | |b| == 6 witness [0, 0, 0, 0, 0, 0]

  const CMD_READ_DEVICE_INFO: u16 := 1
  const CMD_READ: u16 := 2
  const CMD_WRITE: u16 := 3
  const CMD_READ_STATE: u16 := 4
  const CMD_ADD_NOTIFICATION: u16 := 6
  const CMD_READ_WRITE: u16 := 9

  const STATE_REQUEST: u16 := 4
  const STATE_RESPONSE: u16 := 5
  const SRVNOTSUPP: u32 := 0x0701

  const HEADER_LEN: nat := 32

  datatype Header = Header(
    targetNetId: NetId,
    targetPort: u16,
    sourceNetId: NetId,
    sourcePort: u16,
    commandId: u16,
    stateFlags: u16,
    dataLength: u32,
    errorCode: u32,
    invokeId: u32)

  /** Bit 0 of the state flags marks a reply. */
  predicate IsResponse(h: Header) {
    h.stateFlags % 2 == 1
  }

  function Parse(data: bytes): (r: Option<Header>)
    ensures r.Some? <==> |data| >= HEADER_LEN
  {
    if |data| < HEADER_LEN then None
    else Some(Header(
      data[0..6], U16(data[6..8]), data[8..14], U16(data[14..16]),
      U16(data[16..18]), U16(data[18..20]),
      U32(data[20..24]), U32(data[24..28]), U32(data[28..32])))
  }

  /** The 32 bytes of a header in wire order. */
  function Layout(h: Header): (b: bytes)
    ensures |b| == HEADER_LEN
  {
    h.targetNetId + Le16(h.targetPort) + h.sourceNetId + Le16(h.sourcePort)
    + Le16(h.commandId) + Le16(h.stateFlags)
    + Le32(h.dataLength) + Le32(h.errorCode) + Le32(h.invokeId)
  }

  lemma LayoutFields(h: Header)
    ensures var b := Layout(h);
            && b[0..6] == h.targetNetId && b[6..8] == Le16(h.targetPort)
            && b[8..14] == h.sourceNetId && b[14..16] == Le16(h.sourcePort)
            && b[16..18] == Le16(h.commandId) && b[18..20] == Le16(h.stateFlags)
            && b[20..24] == Le32(h.dataLength) && b[24..28] == Le32(h.errorCode)
            && b[28..32] == Le32(h.invokeId)
  {
  }

  /** A header is read back from its own bytes, whatever payload follows. */
  lemma ParseOfLayout(h: Header, payload: bytes)
    ensures Parse(Layout(h) + payload) == Some(h)
  {
    LayoutFields(h);
    var b := Layout(h) + payload;
    assert b[..32] == Layout(h);
    assert forall i, j | 0 <= i <= j <= 32 :: b[i..j] == b[..32][i..j];
  }

  lemma LeOfU(b: bytes)
    ensures |b| == 2 ==> Le16(U16(b)) == b
    ensures |b| == 4 ==> Le32(U32(b)) == b
  {
    LeOfFromLe(b);
  }

  /** The header format has no slack: the first 32 bytes are determined by the parsed header. */
  lemma LayoutOfParse(data: bytes)
    requires |data| >= HEADER_LEN
    ensures Layout(Parse(data).value) == data[..HEADER_LEN]
  {
    LeOfU(data[6..8]);
    LeOfU(data[14..16]);
    LeOfU(data[16..18]);
    LeOfU(data[18..20]);
    LeOfU(data[20..24]);
    LeOfU(data[24..28]);
    LeOfU(data[28..32]);
    assert data[..32] == data[0..6] + data[6..8] + data[8..14] + data[14..16] + data[16..18] + data[18..20]
                         + data[20..24] + data[24..28] + data[28..32];
  }

  /** Overwrite `src` into the buffer at `off`, as `copy_from_slice` on a subslice does. */
  method CopyInto(buf: array<byte>, off: nat, src: bytes)
    requires off + |src| <= buf.Length
    modifies buf
    ensures buf[..off + |src|] == old(buf[..off]) + src
    ensures buf[off + |src|..] == old(buf[off + |src|..])
  {
    for i := 0 to |src|
      invariant forall k | 0 <= k < buf.Length ::
                  buf[k] == if off <= k < off + i then src[k - off] else old(buf[k])
    {
      buf[off + i] := src[i];
    }
  }

  /** `AmsHeader::serialize`: nine writes into a zeroed 32-byte buffer. */
  method Serialize(h: Header) returns (buf: array<byte>)
    ensures fresh(buf)
    ensures buf[..] == Layout(h)
  {
    buf := new byte[32](_ => 0);
    CopyInto(buf, 0, h.targetNetId);
    ghost var done: bytes := h.targetNetId;
    assert buf[..6] == done;
    CopyInto(buf, 6, Le16(h.targetPort));
    done := done + Le16(h.targetPort);
    assert buf[..8] == done;
    CopyInto(buf, 8, h.sourceNetId);
    done := done + h.sourceNetId;
    assert buf[..14] == done;
    CopyInto(buf, 14, Le16(h.sourcePort));
    done := done + Le16(h.sourcePort);
    assert buf[..16] == done;
    CopyInto(buf, 16, Le16(h.commandId));
    done := done + Le16(h.commandId);
    assert buf[..18] == done;
    CopyInto(buf, 18, Le16(h.stateFlags));
    done := done + Le16(h.stateFlags);
    assert buf[..20] == done;
    CopyInto(buf, 20, Le32(h.dataLength));
    done := done + Le32(h.dataLength);
    assert buf[..24] == done;
    CopyInto(buf, 24, Le32(h.errorCode));
    done := done + Le32(h.errorCode);
    assert buf[..28] == done;
    CopyInto(buf, 28, Le32(h.invokeId));
    done := done + Le32(h.invokeId);
    assert buf[..] == buf[..32] == done;
  }

  /** `AmsHeader::make_response` */
  function MakeResponse(h: Header, errorCode: u32): Header {
    Header(h.sourceNetId, h.sourcePort, h.targetNetId, h.targetPort,
           h.commandId, STATE_RESPONSE, 4, errorCode, h.invokeId)
  }

  /** `len as u32` */
  function AsU32(n: nat): u32 {
    n % 0x1_0000_0000
  }

  /** `build_ams_frame`: header and payload, without the TCP prefix. */
  function BuildFrame(targetNetId: NetId, targetPort: u16, sourceNetId: NetId, sourcePort: u16,
                      cmd: u16, stateFlags: u16, invokeId: u32, payload: bytes): bytes
  {
    Layout(Header(targetNetId, targetPort, sourceNetId, sourcePort, cmd, stateFlags,
                  AsU32(|payload|), 0, invokeId)) + payload
  }

  datatype WriteRequest = WriteRequest(indexGroup: u32, indexOffset: u32, data: bytes)

  /** `AdsWriteRequest::parse` */
  function ParseWrite(data: bytes): Option<WriteRequest> {
    if |data| < 12 then None
    else
      var n := U32(data[8..12]);
      if |data| < 12 + n then None
      else Some(WriteRequest(U32(data[0..4]), U32(data[4..8]), data[12..12 + n]))
  }

  /** `AdsWriteRequest::serialize` */
  function WriteLayout(w: WriteRequest): bytes {
    Le32(w.indexGroup) + Le32(w.indexOffset) + Le32(AsU32(|w.data|)) + w.data
  }

  /** A write request survives the wire exactly when its length fits the 32-bit field. */
  lemma WriteRoundTrip(w: WriteRequest, rest: bytes)
    ensures |w.data| < 0x1_0000_0000 ==> ParseWrite(WriteLayout(w) + rest) == Some(w)
    ensures ParseWrite(WriteLayout(w)) == Some(w) <==> |w.data| < 0x1_0000_0000
  {
    var b := WriteLayout(w);
    assert b[0..4] == Le32(w.indexGroup);
    assert b[4..8] == Le32(w.indexOffset);
    assert b[8..12] == Le32(AsU32(|w.data|));
    assert b[12..] == w.data;
    var c := b + rest;
    assert c[0..4] == b[0..4] && c[4..8] == b[4..8] && c[8..12] == b[8..12];
    if |w.data| < 0x1_0000_0000 {
      assert c[12..12 + |w.data|] == w.data;
      assert b[12..12 + |w.data|] == w.data;
    }
  }
}
