/** Decoder of the diagnostic polls (crates/tc-otel-ads/src/diagnostics.rs). */
module Diagnostics {
  import opened Bytes
  import opened Ams

  const IG_RT_SYSTEM: u32 := 0xF200
  const IG_RT_USAGE: u32 := 1
  const IO_EXCEED_COUNTER: u32 := 0x100
  const IO_TASK_STATS: u32 := 0
  const IO_RT_USAGE: u32 := 0xF

  const TASK_STATS_LEN: nat := 16
  const EXCEED_COUNTER_LEN: nat := 4
  const RT_USAGE_LEN: nat := 24

  datatype PendingRequest = PendingRequest(
    commandId: u16, indexGroup: u32, indexOffset: u32, size: u32, targetPort: u16)

  datatype Event =
    | ExceedCounter(value: u32)
    | ExceedReset
    | TaskStats(taskPort: u16, typeMarker: u16, cycleCounter: u16, cpuTicks: u32, execTicks: u32)
    | RtUsage(peakLatency: u32, systemLatency: u32, cpuPercent: u32)

  predicate IsKnownRead(ig: u32, io: u32) {
    || (ig == IG_RT_SYSTEM && io == IO_EXCEED_COUNTER)
    || (ig == IG_RT_SYSTEM && io == IO_TASK_STATS)
    || (ig == IG_RT_USAGE && io == IO_RT_USAGE)
  }

  predicate IsKnownWrite(ig: u32, io: u32) {
    ig == IG_RT_SYSTEM && io == IO_EXCEED_COUNTER
  }

  function DecodeRequest(h: Header, payload: bytes): Option<PendingRequest> {
    if h.stateFlags != STATE_REQUEST then None
    else if h.commandId != CMD_READ && h.commandId != CMD_WRITE then None
    else if |payload| < 12 then None
    else
      var ig, io, size := U32(payload[0..4]), U32(payload[4..8]), U32(payload[8..12]);
      var known := if h.commandId == CMD_READ then IsKnownRead(ig, io) else IsKnownWrite(ig, io);
      if known then Some(PendingRequest(h.commandId, ig, io, size, h.targetPort)) else None
  }

  function DecodeWriteFromRequest(h: Header, payload: bytes): Option<Event> {
    if h.stateFlags != STATE_REQUEST || h.commandId != CMD_WRITE || |payload| < 12 then None
    else if IsKnownWrite(U32(payload[0..4]), U32(payload[4..8])) then Some(ExceedReset)
    else None
  }

  function DecodeReadResponse(payload: bytes, req: PendingRequest): Option<Event> {
    if |payload| < 8 then None
    else
      var result, n := U32(payload[0..4]), U32(payload[4..8]);
      if result != 0 || |payload| < 8 + n then None
      else
        var data := payload[8..8 + n];
        if req.indexGroup == IG_RT_SYSTEM && req.indexOffset == IO_EXCEED_COUNTER && n == EXCEED_COUNTER_LEN then
          Some(ExceedCounter(U32(data)))
        else if req.indexGroup == IG_RT_SYSTEM && req.indexOffset == IO_TASK_STATS && n == TASK_STATS_LEN then
          Some(TaskStats(req.targetPort, U16(data[2..4]), U16(data[0..2]), U32(data[4..8]), U32(data[8..12])))
        else if req.indexGroup == IG_RT_USAGE && req.indexOffset == IO_RT_USAGE && n == RT_USAGE_LEN then
          Some(RtUsage(U32(data[4..8]), U32(data[8..12]), U32(data[16..20])))
        else None
  }

  function DecodeWriteResponse(req: PendingRequest): Option<Event> {
    if req.indexGroup == IG_RT_SYSTEM && req.indexOffset == IO_EXCEED_COUNTER then Some(ExceedReset) else None
  }

  function DecodeResponse(h: Header, payload: bytes, req: PendingRequest): Option<Event> {
    if !IsResponse(h) then None
    else if req.commandId == CMD_READ then DecodeReadResponse(payload, req)
    else if req.commandId == CMD_WRITE then DecodeWriteResponse(req)
    else None
  }

  /** A request is stashed for its response only if it is a known read: a known write already yields
      its event from the request. */
  lemma StashedAreKnownReads(h: Header, payload: bytes)
    requires DecodeWriteFromRequest(h, payload).None? && DecodeRequest(h, payload).Some?
    ensures var r := DecodeRequest(h, payload).value;
            r.commandId == CMD_READ && IsKnownRead(r.indexGroup, r.indexOffset) && r.targetPort == h.targetPort
  {
  }

  function ReadPayload(ig: u32, io: u32, size: u32): (b: bytes)
    ensures |b| == 12
  {
    Le32(ig) + Le32(io) + Le32(size)
  }

  lemma ReadPayloadFields(ig: u32, io: u32, size: u32)
    ensures var b := ReadPayload(ig, io, size);
            U32(b[0..4]) == ig && U32(b[4..8]) == io && U32(b[8..12]) == size
  {
    Cat3(Le32(ig), Le32(io), Le32(size));
  }

  /** A successful read reply: result 0, length, data. */
  function ReadReply(data: bytes): bytes
    requires |data| < 0x1_0000_0000
  {
    Le32(0) + Le32(|data|) + data
  }

  lemma ReadReplyFields(data: bytes)
    requires |data| < 0x1_0000_0000
    ensures var b := ReadReply(data);
            |b| == 8 + |data| && U32(b[0..4]) == 0 && U32(b[4..8]) == |data| && b[8..8 + |data|] == data
  {
    Cat3(Le32(0), Le32(|data|), data);
  }

  /** The length of the data a known read asks for. */
  function DataLen(ig: u32, io: u32): Option<nat> {
    match (ig, io)
    case (0xF200, 0x100) => Some(4)
    case (0xF200, 0) => Some(16)
    case (1, 0xF) => Some(24)
    case _ => None
  }

  /** A read response yields an event if and only if it reports success and holds at least the data it announces,
      which must be as long as the read asks for. */
  lemma ReadEventIff(payload: bytes, req: PendingRequest)
    ensures DecodeReadResponse(payload, req).Some? <==>
            && |payload| >= 8 && U32(payload[0..4]) == 0
            && |payload| >= 8 + U32(payload[4..8])
            && DataLen(req.indexGroup, req.indexOffset) == Some(U32(payload[4..8]))
  {
    hide U32, U16;
  }

  lemma ExceedCounterReadsBack(value: u32, req: PendingRequest)
    requires req.indexGroup == 0xF200 && req.indexOffset == 0x100
    ensures DecodeReadResponse(ReadReply(Le32(value)), req) == Some(ExceedCounter(value))
  {
    ReadReplyFields(Le32(value));
    hide U32, Le32, ReadReply;
  }

  lemma TaskStatsReadBack(cycles: u16, marker: u16, cpu: u32, exec: u32, pad: bytes, req: PendingRequest)
    requires |pad| == 4 && req.indexGroup == 0xF200 && req.indexOffset == 0
    ensures var data := Le16(cycles) + Le16(marker) + Le32(cpu) + Le32(exec) + pad;
            DecodeReadResponse(ReadReply(data), req) == Some(TaskStats(req.targetPort, marker, cycles, cpu, exec))
  {
    hide U32, U16, Le32, Le16, ReadReply;
    var data := Le16(cycles) + Le16(marker) + Le32(cpu) + Le32(exec) + pad;
    ReadReplyFields(data);
    assert data[0..2] == Le16(cycles) && data[2..4] == Le16(marker);
    assert data[4..8] == Le32(cpu) && data[8..12] == Le32(exec);
  }

  lemma RtUsageReadsBack(a: bytes, peak: u32, system: u32, b: bytes, percent: u32, c: bytes, req: PendingRequest)
    requires |a| == |b| == |c| == 4 && req.indexGroup == 1 && req.indexOffset == 0xF
    ensures var data := a + Le32(peak) + Le32(system) + b + Le32(percent) + c;
            DecodeReadResponse(ReadReply(data), req) == Some(RtUsage(peak, system, percent))
  {
    hide U32, Le32, ReadReply;
    var data := a + Le32(peak) + Le32(system) + b + Le32(percent) + c;
    ReadReplyFields(data);
    assert data[4..8] == Le32(peak) && data[8..12] == Le32(system) && data[16..20] == Le32(percent);
  }
}
