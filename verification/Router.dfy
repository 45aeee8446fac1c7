/** The reply side of `AdsRouter::dispatch` (crates/tc-otel-ads/src/router.rs) and the round trip of
    a request through dispatcher, router and back. */
module Router {
  import opened Bytes
  import opened Ams
  import D = Dispatcher

  /** "tc-otel", padded to the 16 bytes of a device name. */
  const DEVICE_NAME: bytes := [0x74, 0x63, 0x2D, 0x6F, 0x74, 0x65, 0x6C, 0, 0, 0, 0, 0, 0, 0, 0, 0]

  /** The length asked for by an ADS read; 0 when the frame is too short to hold it. */
  function ReadLength(frame: bytes): u32 {
    if |frame| >= 44 then U32(frame[40..44]) else 0
  }

  /** The ADS payload of the reply, by command. */
  function Answer(cmd: u16, frame: bytes): bytes {
    if cmd == CMD_READ_STATE then [0, 0, 0, 0, 5, 0, 0, 0]
    else if cmd == CMD_READ_DEVICE_INFO then Le32(0) + [0, 1] + Le16(1) + DEVICE_NAME
    else if cmd == CMD_READ then Le32(0) + Le32(ReadLength(frame)) + Zeros(ReadLength(frame))
    else if cmd == CMD_WRITE then [0, 0, 0, 0]
    else if cmd == CMD_READ_WRITE || cmd == CMD_ADD_NOTIFICATION then Le32(SRVNOTSUPP) + Le32(0)
    else Le32(SRVNOTSUPP)
  }

  /** The header `build_response` puts before a payload of `n` bytes. */
  function ReplyHeader(h: Header, n: nat): Header {
    MakeResponse(h, 0).(dataLength := AsU32(n), stateFlags := 5)
  }

  /** `build_response` */
  function BuildResponse(h: Header, payload: bytes): bytes {
    Layout(ReplyHeader(h, |payload|)) + payload
  }

  /** The reply to one inbound frame; `None` stands for the "frame too short" error. */
  function Dispatch(frame: bytes): (r: Option<bytes>)
    ensures r.None? <==> |frame| < HEADER_LEN
  {
    if |frame| < HEADER_LEN then None
    else
      var h := Parse(frame).value;
      Some(BuildResponse(h, Answer(h.commandId, frame)))
  }

  /** The 32-bit length field holds the reply's length unless an ADS read asked for too much. */
  lemma AnswerFitsIff(cmd: u16, frame: bytes)
    ensures AsU32(|Answer(cmd, frame)|) == |Answer(cmd, frame)|
            <==> !(cmd == CMD_READ && ReadLength(frame) + 8 >= 0x1_0000_0000)
  {
  }

  lemma DispatchIsBuildResponse(h: Header, payload: bytes)
    ensures var frame := Layout(h) + payload;
            Dispatch(frame) == Some(BuildResponse(h, Answer(h.commandId, frame)))
  {
    ParseOfLayout(h, payload);
  }

  lemma ResponseParses(h: Header, answer: bytes)
    ensures var reply := BuildResponse(h, answer);
            |reply| >= HEADER_LEN && reply[HEADER_LEN..] == answer && Parse(reply) == Some(ReplyHeader(h, |answer|))
  {
    ParseOfLayout(ReplyHeader(h, |answer|), answer);
  }

  /** The reply to any frame parses to swapped addresses, the response flags and the caller's invoke id;
      its length field equals its payload unless an ADS read asked for so much that the field wraps. */
  lemma DispatchAnswers(frame: bytes, h: Header)
    requires Parse(frame) == Some(h)
    ensures Dispatch(frame).Some? && |Dispatch(frame).value| >= HEADER_LEN
    ensures var reply, answer := Dispatch(frame).value, Answer(h.commandId, frame);
            && reply[HEADER_LEN..] == answer
            && Parse(reply) == Some(Header(h.sourceNetId, h.sourcePort, h.targetNetId, h.targetPort, h.commandId,
                                           STATE_RESPONSE, AsU32(|answer|), 0, h.invokeId))
            && (AsU32(|answer|) == |answer| <==> !(h.commandId == CMD_READ && ReadLength(frame) + 8 >= 0x1_0000_0000))
  {
    ResponseParses(h, Answer(h.commandId, frame));
    AnswerFitsIff(h.commandId, frame);
  }

  /** The name in the device info is "tc-otel". */
  lemma DeviceNameText()
    ensures |DEVICE_NAME| == 16 && forall i | 0 <= i < 16 :: DEVICE_NAME[i] == if i < 7 then "tc-otel"[i] as int else 0
  {
    assert DEVICE_NAME[0] == "tc-otel"[0] as int && DEVICE_NAME[1] == "tc-otel"[1] as int;
  }

  /** The reply's payload as a client reads it: a result, and after it what the command asked for. */
  predicate Answers(cmd: u16, asked: u32, a: bytes) {
    && |a| >= 4
    && U32(a[..4]) == (if 1 <= cmd <= 4 then 0 else 0x701)
    && match cmd
       case 1 => |a| == 24 && a[4] == 0 && a[5] == 1 && U16(a[6..8]) == 1 && a[8..] == DEVICE_NAME
       case 2 => |a| == 8 + asked && U32(a[4..8]) == asked && (forall i | 8 <= i < |a| :: a[i] == 0)
       case 3 => |a| == 4
       case 4 => |a| == 8 && U16(a[4..6]) == 5 && U16(a[6..8]) == 0
       case 6 => |a| == 8 && U32(a[4..8]) == 0
       case 9 => |a| == 8 && U32(a[4..8]) == 0
       case _ => |a| == 4
  }

  lemma AnswerReads(cmd: u16, frame: bytes)
    ensures Answers(cmd, ReadLength(frame), Answer(cmd, frame))
  {
    hide U32, U16, Le32, Le16;
    var n := ReadLength(frame);
    SmallNumbers();
    match cmd
    case 1 =>
      var a := Answer(cmd, frame);
      assert a[..4] == Le32(0) && a[6..8] == Le16(1) && a[8..] == DEVICE_NAME;
    case 2 =>
      Cat3(Le32(0), Le32(n), Zeros(n));
      assert Answer(cmd, frame)[..4] == Answer(cmd, frame)[0..4];
    case 3 => assert [0, 0, 0, 0][..4] == [0, 0, 0, 0];
    case 4 =>
      var a := [0, 0, 0, 0, 5, 0, 0, 0];
      assert a[..4] == [0, 0, 0, 0] && a[4..6] == [5, 0] && a[6..8] == [0, 0];
    case 6 => NotSupported();
    case 9 => NotSupported();
    case _ => assert Le32(SRVNOTSUPP)[..4] == Le32(SRVNOTSUPP);
  }

  lemma NotSupported()
    ensures var a := Le32(SRVNOTSUPP) + Le32(0); |a| == 8 && U32(a[..4]) == 0x701 && U32(a[4..8]) == 0
  {
    hide U32, Le32;
    var a := Le32(SRVNOTSUPP) + Le32(0);
    assert a[..4] == Le32(SRVNOTSUPP) && a[4..8] == Le32(0);
  }

  lemma SmallNumbers()
    ensures U32([0, 0, 0, 0]) == 0 && U16([5, 0]) == 5 && U16([0, 0]) == 0
  {
  }

  /** A read request asks for the number of bytes it says, and one that is cut short for none. */
  lemma ReadRequestAsks(h: Header, indexGroup: u32, indexOffset: u32, size: u32)
    ensures ReadLength(Layout(h) + (Le32(indexGroup) + Le32(indexOffset) + Le32(size))) == size
    ensures forall frame: bytes | |frame| < 44 :: ReadLength(frame) == 0
  {
    hide Layout;
    var payload := Le32(indexGroup) + Le32(indexOffset) + Le32(size);
    Cat3(Le32(indexGroup), Le32(indexOffset), Le32(size));
    assert (Layout(h) + payload)[40..44] == payload[8..12];
  }

  /** The frame `send_request` publishes for a future. */
  function RequestFrame(s: D.System, t: D.Task, target: NetId, targetPort: u16, cmd: u16, payload: bytes): bytes
    requires t in s.tasks
  {
    BuildFrame(target, targetPort, s.us, s.port, cmd, STATE_REQUEST, s.tasks[t].id, payload)
  }

  /** What `send_request` returns once its future is finished. */
  datatype SendResult = Payload(data: bytes) | AdsError(code: u32) | Failed(outcome: D.Outcome)

  function ResultOf(o: D.Outcome): SendResult {
    match o
    case Reply(f) => if f.header.errorCode != 0 then AdsError(f.header.errorCode) else Payload(f.payload)
    case _ => Failed(o)
  }

  /** End to end: for every command and payload, the router's reply to a published request resolves
      exactly the future that sent it, which then returns the router's payload. */
  lemma RequestIsAnswered(s: D.System, t: D.Task, target: NetId, targetPort: u16, cmd: u16, payload: bytes)
    requires D.NoneLost(s)
    requires D.InPhase(s, t, D.Waiting) && s.tasks[t].channel.Open?
    ensures var frame := RequestFrame(s, t, target, targetPort, cmd, payload);
            && Dispatch(frame).Some?
            && var s1 := D.Step(s, D.MqttFrame(Dispatch(frame).value));
            && t in s1.tasks
            && s1.tasks == s.tasks[t := s1.tasks[t]]
            && var s2 := D.Step(s1, D.TakeReply(t));
            && t in s2.tasks && s2.tasks[t].phase.Finished?
            && ResultOf(s2.tasks[t].phase.outcome) == Payload(Answer(cmd, frame))
  {
    var h := Header(target, targetPort, s.us, s.port, cmd, STATE_REQUEST, AsU32(|payload|), 0, s.tasks[t].id);
    var frame := RequestFrame(s, t, target, targetPort, cmd, payload);
    DispatchIsBuildResponse(h, payload);
    var answer := Answer(cmd, frame);
    var f := D.Frame(ReplyHeader(h, |answer|), answer);
    D.ReplyReachesItsWaiter(s, t, f);
    ReplyIsTaken(D.Step(s, D.MqttFrame(BuildResponse(h, answer))), t, f);
  }

  /** A finished future returns the reply's payload, or the error code in its header. */
  lemma ReplyIsTaken(s: D.System, t: D.Task, f: D.Frame)
    requires D.InPhase(s, t, D.Waiting) && s.tasks[t].channel == D.Holding(f)
    ensures var s' := D.Step(s, D.TakeReply(t));
            && D.InPhase(s', t, D.Finished(D.Reply(f)))
            && ResultOf(D.Reply(f))
                 == if f.header.errorCode == 0 then Payload(f.payload) else AdsError(f.header.errorCode)
  {
  }
}
