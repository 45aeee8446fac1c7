/** `AdsParser::parse_all` (crates/tc-otel-ads/src/parser.rs): a buffer of mixed messages, with recovery. */
module Parser {
  import opened Bytes
  import opened Wire
  import opened Values
  import opened Logs
  import opened Telemetry
  import opened LogWriter
  import opened TelemetryWriter
  import opened V1Writer

  const MAX_MESSAGE_SIZE: nat := 1_048_576

  /** What has been accepted so far. */
  datatype Messages = Messages(
    entries: seq<LogEntry>, registrations: seq<Registration>, metrics: seq<Metric>, traces: seq<TraceEvent>)

  const NOTHING: Messages := Messages([], [], [], [])

  datatype Outcome = Done(messages: Messages) | Failed(error: Error)

  /** One turn of the loop: go on with what remains, stop with what there is, or give up. */
  datatype Turn = More(messages: Messages, rest: bytes) | Stop(messages: Messages) | Fail(error: Error)

  /** Where the loop may pick up again after a broken v2 entry. */
  predicate SkipTarget(x: byte) {
    x <= 6 || x == 0xFF
  }

  /** Length of a v2 entry by its header, counting the header. */
  function DeclaredEnd(b: bytes): (n: nat)
    requires |b| >= 3
    ensures n >= 3
  {
    3 + U16(b[1..3])
  }

  /** The declared end of a v2 entry lies inside the buffer, on a byte where the loop may pick up. */
  predicate Skippable(b: bytes) {
    |b| >= 3 && DeclaredEnd(b) < |b| && SkipTarget(b[DeclaredEnd(b)])
  }

  function AfterBrokenV2(b: bytes, acc: Messages, e: Error): (r: Turn)
    ensures r.More? ==> |r.rest| <= |b| - 3
  {
    if Skippable(b) then More(acc, b[DeclaredEnd(b)..])
    else if acc.entries == [] && acc.registrations == [] then Fail(e)
    else Stop(acc)
  }

  /** `unread` is what was left when the error showed. */
  function AfterBrokenTraced(b: bytes, acc: Messages, unread: bytes): (r: Turn)
    requires |unread| <= |b|
    ensures r.More? ==> |r.rest| <= |b| - 3
  {
    if acc.entries != [] || acc.registrations != [] then Stop(acc)
    else if |unread| >= 3 then More(acc, Skip(b, DeclaredEnd(b)))
    else Stop(acc)
  }

  function Step(b: bytes, acc: Messages): (r: Turn)
    requires b != []
    ensures r.More? ==> |r.rest| <= |b| - 3
  {
    match b[0]
    case 1 => (
      match GetV1(b)
      case Ok(entry, rest) => More(acc.(entries := acc.entries + [entry]), rest)
      case Err(e, _) =>
        if acc.entries == [] && acc.registrations == [] && acc.metrics == [] then Fail(e) else Stop(acc)
      )
    case 2 => (
      match GetV2(b)
      case Ok(entry, rest) => More(acc.(entries := acc.entries + [entry]), rest)
      case Err(e, _) => AfterBrokenV2(b, acc, e)
      )
    case 3 => (
      match GetRegistration(b)
      case Ok(reg, rest) => More(acc.(registrations := acc.registrations + [reg]), rest)
      case Err(_, _) => Stop(acc)
      )
    case 4 => (
      match GetMetric(b)
      case Ok(metric, rest) => More(acc.(metrics := acc.metrics + [metric]), rest)
      case Err(e, _) =>
        if acc.entries == [] && acc.registrations == [] && acc.metrics == [] then Fail(e) else Stop(acc)
      )
    case 9 => (
      match GetTraced(b)
      case Ok(entry, rest) => More(acc.(entries := acc.entries + [entry]), rest)
      case Err(_, unread) => AfterBrokenTraced(b, acc, unread)
      )
    case x =>
      if 5 <= x <= 8 then
        match GetTrace(b)
        case Ok(event, rest) => More(acc.(traces := acc.traces + [event]), rest)
        case Err(e, _) => if acc == NOTHING then Fail(e) else Stop(acc)
      else Stop(acc)
  }

  /** The loop, from any state. */
  function ParseFrom(b: bytes, acc: Messages): Outcome
    decreases |b|
  {
    if b == [] then Done(acc)
    else
      match Step(b, acc)
      case More(next, rest) => ParseFrom(rest, next)
      case Stop(m) => Done(m)
      case Fail(e) => Failed(e)
  }

  function ParseAll(data: bytes): Outcome {
    if |data| > MAX_MESSAGE_SIZE then Failed(TooBig(|data|)) else ParseFrom(data, NOTHING)
  }

  // The loop as it is written

  /** Goes back to the header at `start` and reads where the entry should end. */
  method ReadDeclaredEnd(reader: Reader, start: nat) returns (next: nat)
    requires start + 3 <= |reader.data|
    modifies reader`pos
    ensures next == start + DeclaredEnd(reader.data[start..])
  {
    hide U16;
    ghost var b := reader.data[start..];
    reader.pos := start + 1;
    assert reader.Rest()[..2] == b[1..3];
    var length := reader.ReadU16();
    next := start + 3 + length.value;
  }

  /** Skips a broken v2 entry if its declared end looks like the start of a message. */
  method SkipBrokenV2(reader: Reader, start: nat) returns (skipped: bool)
    requires start < |reader.data|
    modifies reader`pos
    ensures var b := reader.data[start..];
            && (skipped <==> Skippable(b))
            && (skipped ==> start + 3 <= reader.pos <= |reader.data| && reader.Rest() == b[DeclaredEnd(b)..])
  {
    hide DeclaredEnd;
    ghost var b := reader.data[start..];
    reader.pos := start;
    skipped := false;
    if reader.Remaining() >= 3 {
      var next := ReadDeclaredEnd(reader, start);
      if next < |reader.data| && next > start {
        if SkipTarget(reader.data[next]) {
          reader.pos := next;
          assert reader.Rest() == b[DeclaredEnd(b)..];
          skipped := true;
        }
      }
    }
  }

  /** Follows the declared length of a broken traced entry, wherever it leads. */
  method SkipBrokenTraced(reader: Reader, start: nat)
    requires start + 3 <= |reader.data|
    modifies reader`pos
    ensures var b := reader.data[start..];
            reader.pos >= start + 3 && reader.Rest() == Skip(b, DeclaredEnd(b))
  {
    hide DeclaredEnd;
    ghost var b := reader.data[start..];
    reader.pos := ReadDeclaredEnd(reader, start);
    assert DeclaredEnd(b) <= |b| ==> b[DeclaredEnd(b)..] == reader.data[start + DeclaredEnd(b)..];
  }

  /** How a turn of the loop ends: `continue`, `break` or `return Err`. */
  datatype Flow = Continue(messages: Messages) | Break | Return(error: Error)

  function AsTurn(f: Flow, acc: Messages, rest: bytes): Turn {
    match f
    case Continue(m) => More(m, rest)
    case Break => Stop(acc)
    case Return(e) => Fail(e)
  }

  method TurnV2(reader: Reader, acc: Messages) returns (f: Flow)
    requires reader.pos < |reader.data| && reader.Rest()[0] == 2
    modifies reader`pos
    ensures f.Continue? ==> reader.pos > old(reader.pos)
    ensures AsTurn(f, acc, reader.Rest()) == Step(old(reader.Rest()), acc)
  {
    hide GetV1, GetV2, GetRegistration, GetMetric, GetTraced, GetTrace, Skip, DeclaredEnd, SkipTarget;
    var start := reader.pos;
    var entry := ParseV2(reader);
    if entry.Good? {
      return Continue(acc.(entries := acc.entries + [entry.value]));
    }
    var skipped := SkipBrokenV2(reader, start);
    if skipped {
      return Continue(acc);
    }
    if acc.entries == [] && acc.registrations == [] {
      return Return(entry.error);
    }
    f := Break;
  }

  method TurnTraced(reader: Reader, acc: Messages) returns (f: Flow)
    requires reader.pos < |reader.data| && reader.Rest()[0] == 9
    modifies reader`pos
    ensures f.Continue? ==> reader.pos > old(reader.pos)
    ensures AsTurn(f, acc, reader.Rest()) == Step(old(reader.Rest()), acc)
  {
    hide GetV1, GetV2, GetRegistration, GetMetric, GetTraced, GetTrace, Skip, DeclaredEnd, SkipTarget;
    var start := reader.pos;
    var entry := ParseTraced(reader);
    if entry.Good? {
      return Continue(acc.(entries := acc.entries + [entry.value]));
    }
    if acc.entries != [] || acc.registrations != [] {
      return Break;
    }
    if reader.Remaining() < 3 {
      return Break;
    }
    SkipBrokenTraced(reader, start);
    f := Continue(acc);
  }

  method TurnOther(reader: Reader, acc: Messages) returns (f: Flow)
    requires reader.pos < |reader.data| && reader.Rest()[0] != 2 && reader.Rest()[0] != 9
    modifies reader`pos
    ensures f.Continue? ==> reader.pos > old(reader.pos)
    ensures AsTurn(f, acc, reader.Rest()) == Step(old(reader.Rest()), acc)
  {
    hide GetV1, GetV2, GetRegistration, GetMetric, GetTraced, GetTrace, Skip, DeclaredEnd, SkipTarget;
    var kind := reader.Peek().value;
    f := Break;
    match kind
    case 1 =>
      var entry := ParseV1(reader);
      if entry.Good? {
        return Continue(acc.(entries := acc.entries + [entry.value]));
      }
      if acc.entries == [] && acc.registrations == [] && acc.metrics == [] {
        return Return(entry.error);
      }
    case 3 =>
      var reg := ParseRegistration(reader);
      if reg.Good? {
        return Continue(acc.(registrations := acc.registrations + [reg.value]));
      }
    case 4 =>
      var metric := ParseMetric(reader);
      if metric.Good? {
        return Continue(acc.(metrics := acc.metrics + [metric.value]));
      }
      if acc.entries == [] && acc.registrations == [] && acc.metrics == [] {
        return Return(metric.error);
      }
    case x =>
      if 5 <= x <= 8 {
        var event := ParseTrace(reader);
        if event.Good? {
          return Continue(acc.(traces := acc.traces + [event.value]));
        }
        if acc == NOTHING {
          return Return(event.error);
        }
      }
  }

  /** The loop; its body is split by message type. */
  method ParseBuffer(data: bytes) returns (r: Outcome)
    ensures r == ParseAll(data)
  {
    hide Step;
    if |data| > MAX_MESSAGE_SIZE {
      return Failed(TooBig(|data|));
    }
    var acc := NOTHING;
    var reader := new Reader(data);
    while reader.Remaining() > 0
      invariant reader.data == data
      invariant ParseFrom(reader.Rest(), acc) == ParseFrom(data, NOTHING)
      decreases |data| - reader.pos
    {
      var kind := reader.Peek().value;
      if kind == 0 || kind == 0xFF {
        Padding(reader.Rest(), acc);
        return Done(acc);
      }
      var flow;
      if kind == 2 {
        flow := TurnV2(reader, acc);
      } else if kind == 9 {
        flow := TurnTraced(reader, acc);
      } else {
        flow := TurnOther(reader, acc);
      }
      match flow
      case Continue(next) =>
        acc := next;
      case Break =>
        return Done(acc);
      case Return(e) =>
        return Failed(e);
    }
    r := Done(acc);
  }

  // What holds of every buffer

  function Size(m: Messages): nat {
    |m.entries| + |m.registrations| + |m.metrics| + |m.traces|
  }

  /** NOTHING that was accepted is taken back or reordered. */
  predicate Extends(a: Messages, b: Messages) {
    a.entries <= b.entries && a.registrations <= b.registrations && a.metrics <= b.metrics && a.traces <= b.traces
  }

  lemma StepAccepts(b: bytes, acc: Messages)
    requires b != []
    ensures var r := Step(b, acc);
            && (r.More? ==> Extends(acc, r.messages) && Size(r.messages) <= Size(acc) + 1)
            && (r.Stop? ==> r.messages == acc)
            && (r.Fail? ==> acc.entries == [] && acc.registrations == [])
  {
    hide GetV1, GetV2, GetRegistration, GetMetric, GetTraced, GetTrace, Skip, DeclaredEnd, SkipTarget;
  }

  /** Every message takes at least three bytes, so a buffer yields at most a third as many as it has bytes. */
  lemma {:induction false} MessagesAreBounded(b: bytes, acc: Messages)
    ensures var r := ParseFrom(b, acc);
            r.Done? ==> Extends(acc, r.messages) && 3 * Size(r.messages) <= 3 * Size(acc) + |b|
    decreases |b|
  {
    hide Step;
    if b != [] {
      StepAccepts(b, acc);
      if Step(b, acc).More? {
        MessagesAreBounded(Step(b, acc).rest, Step(b, acc).messages);
      }
    }
  }

  /** Everything accepted before the loop ended, however it ended. */
  function Accepted(b: bytes, acc: Messages): Messages
    decreases |b|
  {
    if b == [] then acc
    else
      match Step(b, acc)
      case More(next, rest) => Accepted(rest, next)
      case _ => acc
  }

  /** A buffer of permitted size fails only if no log entry and no registration had been accepted. */
  lemma {:induction false} FailureLosesNoLogs(b: bytes, acc: Messages)
    ensures ParseFrom(b, acc).Failed? ==> Accepted(b, acc).entries == [] && Accepted(b, acc).registrations == []
    ensures ParseFrom(b, acc).Done? ==> ParseFrom(b, acc).messages == Accepted(b, acc)
    ensures Extends(acc, Accepted(b, acc))
    decreases |b|
  {
    hide Step;
    if b != [] {
      StepAccepts(b, acc);
      if Step(b, acc).More? {
        FailureLosesNoLogs(Step(b, acc).rest, Step(b, acc).messages);
      }
    }
  }

  /** A message of kind 1 to 8 that cannot be read and that the loop cannot step over. */
  predicate Broken(b: bytes)
    requires b != []
  {
    match b[0]
    case 1 => GetV1(b).Err?
    case 2 => GetV2(b).Err? && !Skippable(b)
    case 3 => GetRegistration(b).Err?
    case 4 => GetMetric(b).Err?
    case x => 5 <= x <= 8 && GetTrace(b).Err?
  }

  /** Which broken messages turn what was accepted into an error: each kind looks at some of the lists only. */
  predicate GivesUp(m: Messages, kind: byte) {
    && m.entries == [] && m.registrations == []
    && (|| kind == 2
        || (kind in {1, 4} && m.metrics == [])
        || (5 <= kind <= 8 && m.metrics == [] && m.traces == []))
  }

  lemma StepFailsIff(b: bytes, acc: Messages)
    requires b != []
    ensures Step(b, acc).Fail? <==> Broken(b) && GivesUp(acc, b[0])
    ensures Broken(b) && !GivesUp(acc, b[0]) ==> Step(b, acc) == Stop(acc)
  {
    hide GetV1, GetV2, GetRegistration, GetMetric, GetTraced, GetTrace, Skip, DeclaredEnd, SkipTarget;
  }

  /** The bytes at which the loop ended. */
  function Remainder(b: bytes, acc: Messages): bytes
    decreases |b|
  {
    if b == [] then b
    else
      match Step(b, acc)
      case More(next, rest) => Remainder(rest, next)
      case _ => b
  }

  /** Exactly when a buffer fails, whatever it holds: it ends at a broken message whose kind gives up what was
      accepted. Everything accepted is then lost. */
  lemma {:induction false} FailsIff(b: bytes, acc: Messages)
    ensures var rest, m := Remainder(b, acc), Accepted(b, acc);
            ParseFrom(b, acc).Failed? <==> rest != [] && Broken(rest) && GivesUp(m, rest[0])
    decreases |b|
  {
    hide Step, Broken, GivesUp;
    if b != [] {
      StepFailsIff(b, acc);
      if Step(b, acc).More? {
        FailsIff(Step(b, acc).rest, Step(b, acc).messages);
      }
    }
  }

  /** So an accepted metric is lost when a broken log entry follows it. */
  lemma MetricLostToBrokenLog(m: Reading)
    requires FitsReading(m) && ReadingSize(m) < 0x1_0000
    ensures ParseFrom(PutMetric(m, [2, 0, 0]), NOTHING).Failed?
    ensures Accepted(PutMetric(m, [2, 0, 0]), NOTHING).metrics == [MetricOf(m)]
  {
    hide PutMetric, GetMetric, MetricOf, FitsReading, ReadingSize, Broken;
    var b, acc := [2, 0, 0], NOTHING.(metrics := [MetricOf(m)]);
    MetricReadsBack(m, b);
    assert Step(PutMetric(m, b), NOTHING) == More(acc, b) by {
      assert NOTHING.metrics + [MetricOf(m)] == [MetricOf(m)];
    }
    EmptyV2Fails();
    StepFailsIff(b, acc);
  }

  /** And so is an accepted trace event. */
  lemma TraceLostToBrokenLog(e: TraceEvent)
    requires FitsTrace(e)
    ensures ParseFrom(PutTrace(e, [2, 0, 0]), NOTHING).Failed?
    ensures Accepted(PutTrace(e, [2, 0, 0]), NOTHING).traces == [e]
  {
    hide PutTrace, GetTrace, FitsTrace, Broken;
    var b, acc := [2, 0, 0], NOTHING.(traces := [e]);
    TraceReadsBack(e, b);
    assert Step(PutTrace(e, b), NOTHING) == More(acc, b) by {
      assert NOTHING.traces + [e] == [e];
    }
    EmptyV2Fails();
    StepFailsIff(b, acc);
  }

  lemma EmptyV2Fails()
    ensures Broken([2, 0, 0]) && GetV2([2, 0, 0]).Err?
  {
    var b: bytes := [2, 0, 0];
    assert GetU8(b) == Ok(2, b[1..]);
    assert GetU16(b[1..]).rest == [];
  }

  // Round trip

  datatype Message =
    | Version1(v1: V1Log)
    | Plain(log: Log)
    | WithTrace(traceId: bytes, spanId: bytes, log: Log)
    | Registers(registration: Registration)
    | Measures(reading: Reading)
    | Traces(event: TraceEvent)

  predicate FitsMessage(m: Message) {
    match m
    case Version1(log) => FitsV1(log)
    case Plain(log) => Fits(log) && BodySize(log) < 0x1_0000
    case WithTrace(traceId, spanId, log) =>
      |traceId| == 16 && |spanId| == 8 && Fits(log) && 24 + BodySize(log) < 0x1_0000
    case Registers(reg) => FitsRegistration(reg)
    case Measures(reading) => FitsReading(reading) && ReadingSize(reading) < 0x1_0000
    case Traces(event) => FitsTrace(event)
  }

  function PutMessage(m: Message, t: bytes): (r: bytes)
    requires FitsMessage(m)
    ensures r != []
  {
    match m
    case Version1(log) => PutV1(log, t)
    case Plain(log) => PutV2(log, t)
    case WithTrace(traceId, spanId, log) => PutTraced(traceId, spanId, log, t)
    case Registers(reg) => PutRegistration(reg, t)
    case Measures(reading) => PutMetric(reading, t)
    case Traces(event) => PutTrace(event, t)
  }

  /** The messages one after the other, and then `tail`. */
  function EncodeAll(ms: seq<Message>, tail: bytes): bytes
    requires forall m | m in ms :: FitsMessage(m)
  {
    if ms == [] then tail else PutMessage(ms[0], EncodeAll(ms[1..], tail))
  }

  function EntriesOf(ms: seq<Message>): seq<LogEntry>
    requires forall m | m in ms :: FitsMessage(m)
  {
    if ms == [] then []
    else
      assert FitsMessage(ms[0]);
      (match ms[0]
       case Version1(log) => [V1EntryOf(log)]
       case Plain(log) => [EntryFor(log, Zeros(16), Zeros(8))]
       case WithTrace(traceId, spanId, log) => [EntryFor(log, traceId, spanId)]
       case _ => []) + EntriesOf(ms[1..])
  }

  function RegistrationsOf(ms: seq<Message>): seq<Registration> {
    if ms == [] then []
    else (if ms[0].Registers? then [ms[0].registration] else []) + RegistrationsOf(ms[1..])
  }

  function MetricsOf(ms: seq<Message>): seq<Metric> {
    if ms == [] then []
    else (if ms[0].Measures? then [MetricOf(ms[0].reading)] else []) + MetricsOf(ms[1..])
  }

  function TracesOf(ms: seq<Message>): seq<TraceEvent> {
    if ms == [] then []
    else (if ms[0].Traces? then [ms[0].event] else []) + TracesOf(ms[1..])
  }

  /** The messages split by kind, each kind in order. */
  function Split(ms: seq<Message>): Messages
    requires forall m | m in ms :: FitsMessage(m)
  {
    Messages(EntriesOf(ms), RegistrationsOf(ms), MetricsOf(ms), TracesOf(ms))
  }

  function Merge(a: Messages, b: Messages): Messages {
    Messages(a.entries + b.entries, a.registrations + b.registrations, a.metrics + b.metrics, a.traces + b.traces)
  }

  function Accept(acc: Messages, m: Message): Messages
    requires FitsMessage(m)
  {
    match m
    case Version1(log) => acc.(entries := acc.entries + [V1EntryOf(log)])
    case Plain(log) => acc.(entries := acc.entries + [EntryFor(log, Zeros(16), Zeros(8))])
    case WithTrace(traceId, spanId, log) => acc.(entries := acc.entries + [EntryFor(log, traceId, spanId)])
    case Registers(reg) => acc.(registrations := acc.registrations + [reg])
    case Measures(reading) => acc.(metrics := acc.metrics + [MetricOf(reading)])
    case Traces(event) => acc.(traces := acc.traces + [event])
  }

  lemma StepReadsBack(m: Message, t: bytes, acc: Messages)
    requires FitsMessage(m)
    ensures Step(PutMessage(m, t), acc) == More(Accept(acc, m), t)
  {
    hide PutV2, GetV2, PutTraced, GetTraced, PutRegistration, GetRegistration, PutMetric, GetMetric, PutTrace, GetTrace;
    hide PutV1, GetV1, V1EntryOf, FitsV1, Fits, FitsReading, FitsTrace, FitsRegistration, BodySize, ReadingSize;
    hide EntryFor, MetricOf, Zeros;
    match m
    case Version1(log) => V1ReadsBack(log, t);
    case Plain(log) => V2ReadsBack(log, t);
    case WithTrace(traceId, spanId, log) => TracedReadsBack(traceId, spanId, log, t);
    case Registers(reg) => RegistrationReadsBack(reg, t);
    case Measures(reading) => MetricReadsBack(reading, t);
    case Traces(event) => TraceReadsBack(event, t);
  }

  lemma AcceptFirst(ms: seq<Message>, acc: Messages)
    requires ms != [] && forall m | m in ms :: FitsMessage(m)
    ensures FitsMessage(ms[0]) && Merge(Accept(acc, ms[0]), Split(ms[1..])) == Merge(acc, Split(ms))
  {
    hide FitsMessage, V1EntryOf, EntryFor, MetricOf, Zeros;
    var a, b, c := Accept(acc, ms[0]), Split(ms[1..]), Split(ms);
    Associate(acc.entries, a.entries, b.entries, c.entries);
    Associate(acc.registrations, a.registrations, b.registrations, c.registrations);
    Associate(acc.metrics, a.metrics, b.metrics, c.metrics);
    Associate(acc.traces, a.traces, b.traces, c.traces);
  }

  /** If `a` is `acc` with something added and `c` is `b` with the same put before it, they join up alike. */
  lemma Associate<T>(acc: seq<T>, a: seq<T>, b: seq<T>, c: seq<T>)
    ensures a == acc && (c == b || c == [] + b) ==> a + b == acc + c
    ensures |a| == |acc| + 1 && a[..|acc|] == acc && c == [a[|acc|]] + b ==> a + b == acc + c
  {
  }

  /** From any accumulated state and whatever follows, messages are read back one after the other. */
  lemma {:induction false} RoundTripFrom(ms: seq<Message>, tail: bytes, acc: Messages)
    requires forall m | m in ms :: FitsMessage(m)
    ensures ParseFrom(EncodeAll(ms, tail), acc) == ParseFrom(tail, Merge(acc, Split(ms)))
    decreases |ms|
  {
    hide FitsMessage, PutMessage, Step, Accept, Split, Merge;
    if ms == [] {
      EmptySplit(acc);
    } else {
      StepReadsBack(ms[0], EncodeAll(ms[1..], tail), acc);
      AcceptFirst(ms, acc);
      RoundTripFrom(ms[1..], tail, Accept(acc, ms[0]));
    }
  }

  lemma EmptySplit(acc: Messages)
    ensures Merge(acc, Split([])) == acc
    ensures forall m: Messages :: Merge(NOTHING, m) == m
  {
  }

  lemma Padding(tail: bytes, acc: Messages)
    requires tail != [] ==> tail[0] == 0 || tail[0] == 0xFF
    ensures ParseFrom(tail, acc) == Done(acc)
  {
  }

  /** Every buffer of encodable messages within the size limit parses to exactly those messages. */
  lemma RoundTrip(ms: seq<Message>, tail: bytes)
    requires forall m | m in ms :: FitsMessage(m)
    requires tail == [] || tail[0] == 0 || tail[0] == 0xFF
    requires |EncodeAll(ms, tail)| <= MAX_MESSAGE_SIZE
    ensures ParseAll(EncodeAll(ms, tail)) == Done(Split(ms))
  {
    hide ParseFrom, EncodeAll, Split;
    RoundTripFrom(ms, tail, NOTHING);
    EmptySplit(NOTHING);
    Padding(tail, Split(ms));
  }

  /** Exactly when messages are lost to a broken one after them: logs and registrations never, metrics to a broken
      v2 entry, trace events to a broken v1, v2 or metric entry; otherwise all of them are returned. */
  lemma BrokenTailLosesIff(ms: seq<Message>, bad: bytes)
    requires forall m | m in ms :: FitsMessage(m)
    requires bad != [] && Broken(bad)
    ensures var r := ParseFrom(EncodeAll(ms, bad), NOTHING);
            && (r.Failed? <==>
                && EntriesOf(ms) == [] && RegistrationsOf(ms) == []
                && (|| bad[0] == 2
                    || (bad[0] in {1, 4} && MetricsOf(ms) == [])
                    || (5 <= bad[0] <= 8 && MetricsOf(ms) == [] && TracesOf(ms) == [])))
            && (r.Done? ==> r.messages == Split(ms))
  {
    hide Step, EncodeAll, Broken, EntriesOf, RegistrationsOf, MetricsOf, TracesOf, FitsMessage;
    RoundTripFrom(ms, bad, NOTHING);
    EmptySplit(NOTHING);
    StepFailsIff(bad, Split(ms));
  }

  // Resynchronisation

  /** A v2 frame whose length is accurate. */
  function Frame(body: bytes): bytes
    requires |body| < 0x1_0000
  {
    [2] + Le16(|body|) + body
  }

  lemma FrameEnd(body: bytes, rest: bytes)
    requires |body| < 0x1_0000
    ensures var b := Frame(body) + rest;
            |b| == 3 + |body| + |rest| && b[0] == 2 && DeclaredEnd(b) == 3 + |body| && b[DeclaredEnd(b)..] == rest
  {
    var b := Frame(body) + rest;
    assert b[1..3] == Le16(|body|);
  }

  /** A broken frame is skipped exactly when a byte that can start a message (or end the buffer) follows:
      then what follows is parsed as if the frame were not there, and otherwise it is lost. */
  lemma BrokenFrameIsSkippedIff(body: bytes, rest: bytes, acc: Messages)
    requires |body| < 0x1_0000 && GetV2(Frame(body) + rest).Err?
    ensures ParseFrom(Frame(body) + rest, acc)
            == if rest != [] && (rest[0] <= 6 || rest[0] == 0xFF) then ParseFrom(rest, acc)
               else if acc.entries == [] && acc.registrations == [] then Failed(GetV2(Frame(body) + rest).error)
               else Done(acc)
  {
    hide GetV2, Frame, DeclaredEnd;
    var b := Frame(body) + rest;
    FrameEnd(body, rest);
    assert rest != [] ==> b[DeclaredEnd(b)] == rest[0];
  }

  /** A broken traced entry is stepped over exactly when no log entry and no registration was accepted and at least
      three bytes were unread at the error; otherwise the loop stops with what there is. It never gives up. */
  lemma BrokenTracedIsSkippedIff(b: bytes, acc: Messages)
    requires b != [] && b[0] == 9 && GetTraced(b).Err?
    ensures ParseFrom(b, acc)
            == if acc.entries == [] && acc.registrations == [] && |GetTraced(b).rest| >= 3
               then ParseFrom(Skip(b, DeclaredEnd(b)), acc)
               else Done(acc)
  {
    hide GetTraced, Skip, DeclaredEnd;
  }

  lemma BadLevelFails(body: bytes, rest: bytes)
    requires 0 < |body| < 0x1_0000 && body[0] > 5
    ensures GetV2(Frame(body) + rest).Err?
  {
    hide GetU64, GetI64, GetU32;
    var b := Frame(body) + rest;
    var b1, b2 := b[1..], b[3..];
    assert GetU8(b) == Ok(2, b1);
    assert b1[2..] == b2;
    assert GetU16(b1).Ok? && GetU16(b1).rest == b2;
    assert b2[0] == body[0];
    assert GetLevel(b2).Err?;
  }

  /** Resynchronisation after a frame with an invalid level byte. */
  lemma Resync(body: bytes, rest: bytes)
    requires 0 < |body| < 0x1_0000 && body[0] > 5
    requires rest != [] && (rest[0] <= 6 || rest[0] == 0xFF)
    requires |Frame(body) + rest| <= MAX_MESSAGE_SIZE
    ensures ParseAll(Frame(body) + rest) == ParseAll(rest)
  {
    hide ParseFrom, GetV2;
    BadLevelFails(body, rest);
    BrokenFrameIsSkippedIff(body, rest, NOTHING);
  }
}
