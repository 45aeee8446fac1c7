/** Registrations, metrics and trace events (crates/tc-otel-ads/src/parser.rs). */
module Telemetry {
  import opened Bytes
  import opened Wire
  import opened Values
  import opened Logs

  const MAX_METRIC_ATTRIBUTES: nat := 32
  const MAX_HISTOGRAM_BUCKETS: nat := 100

  // Registrations

  datatype Registration = Registration(
    taskIndex: byte, taskName: bytes, appName: bytes, projectName: bytes, onlineChanges: u32, appPort: u16)

  function GetRegistration(b: bytes): (r: Parsed<Registration>)
    ensures |r.rest| <= |b| && (r.Ok? ==> |r.rest| <= |b| - 3)
  {
    var (found, b0) :- GetU8(b);
    if found != 3 then Err(InvalidType(found), b0)
    else
      var (taskIndex, b1) :- GetU8(b0);
      var (taskName, b2) :- GetText(b1);
      var (appName, b3) :- GetText(b2);
      var (projectName, b4) :- GetText(b3);
      var (onlineChanges, b5) :- GetU32(b4);
      var (appPort, b6) :- GetU16(b5);
      Ok(Registration(taskIndex, taskName, appName, projectName, onlineChanges, appPort), b6)
  }

  // Metrics; kind 2 is a histogram, and floats are kept as bits

  datatype Histogram = Histogram(bounds: seq<u64>, counts: seq<u64>, count: u64, sum: u64)

  datatype Metric = Metric(
    name: bytes, description: bytes, unit: bytes, kind: byte, value: u64, time: Time, taskIndex: int, cycle: u32,
    monotonic: bool, attributes: map<bytes, Json>, histogram: Histogram)

  const NO_HISTOGRAM: Histogram := Histogram([], [], 0, 0)

  datatype MetricHead = MetricHead(kind: byte, filetime: u64, task: byte, cycle: u32, attributes: byte, flags: byte)

  function GetKind(b: bytes): (r: Parsed<byte>)
    ensures |r.rest| <= |b|
  {
    var (kind, t) :- GetU8(b);
    if kind > 2 then Err(InvalidKind(kind), t) else Ok(kind, t)
  }

  function GetMetricHead(b: bytes): (r: Parsed<MetricHead>)
    ensures |r.rest| <= |b|
  {
    var (kind, b1) :- GetKind(b);
    var (filetime, b2) :- GetU64(b1);
    var (task, b3) :- GetU8(b2);
    var (cycle, b4) :- GetU32(b3);
    var (attributes, b5) :- GetU8(b4);
    var (flags, b6) :- GetU8(b5);
    if attributes as nat > MAX_METRIC_ATTRIBUTES then Err(TooManyAttributes(attributes), b6)
    else Ok(MetricHead(kind, filetime, task, cycle, attributes, flags), b6)
  }

  function GetWords(b: bytes, left: nat, got: seq<u64>): (r: Parsed<seq<u64>>)
    ensures |r.rest| <= |b|
    decreases left
  {
    if left == 0 then Ok(got, b)
    else
      var (x, t) :- GetU64(b);
      GetWords(t, left - 1, got + [x])
  }

  function GetHistogram(b: bytes): (r: Parsed<Histogram>)
    ensures |r.rest| <= |b|
  {
    var (buckets, b1) :- GetU8(b);
    if buckets as nat > MAX_HISTOGRAM_BUCKETS then Err(TooManyBuckets(buckets), b1)
    else
      var (bounds, b2) :- GetWords(b1, buckets, []);
      var (counts, b3) :- GetWords(b2, buckets as nat + 1, []);
      var (count, b4) :- GetU64(b3);
      var (sum, b5) :- GetU64(b4);
      Ok(Histogram(bounds, counts, count, sum), b5)
  }

  function GetHistogramOf(b: bytes, kind: byte): (r: Parsed<Histogram>)
    ensures |r.rest| <= |b|
  {
    if kind == 2 then GetHistogram(b) else Ok(NO_HISTOGRAM, b)
  }

  function GetAttributes(b: bytes, left: nat, got: map<bytes, Json>): (r: Parsed<map<bytes, Json>>)
    ensures |r.rest| <= |b|
    decreases left
  {
    if left == 0 then Ok(got, b)
    else
      var (key, t) :- GetText(b);
      var (v, u) :- GetTyped(t);
      GetAttributes(u, left - 1, got[key := v])
  }

  function GetMetricBody(b: bytes): (r: Parsed<Metric>)
    ensures |r.rest| <= |b|
  {
    var (head, b1) :- GetMetricHead(b);
    var (name, b2) :- GetText(b1);
    var (description, b3) :- GetText(b2);
    var (unit, b4) :- GetText(b3);
    var (value, b5) :- GetU64(b4);
    var (histogram, b6) :- GetHistogramOf(b5, head.kind);
    var (attributes, b7) :- GetAttributes(b6, head.attributes, map[]);
    Ok(Metric(name, description, unit, head.kind, value, FileTime(head.filetime), head.task, head.cycle,
              head.flags % 2 == 1, attributes, histogram), b7)
  }

  function GetMetric(b: bytes): (r: Parsed<Metric>)
    ensures |r.rest| <= |b| && (r.Ok? ==> |r.rest| <= |b| - 3)
  {
    var (found, b1) :- GetU8(b);
    if found != 4 then Err(InvalidType(found), b1)
    else
      var (length, b2) :- GetU16(b1);
      var (metric, _) :- GetMetricBody(b2);
      Ok(metric, Skip(b2, length))
  }

  // Trace events

  datatype AttrValue = I64(number: i64) | F64(bits: u64) | Flag(flag: bool) | Chars(text: bytes)

  datatype Attr = Attr(key: bytes, value: AttrValue)

  datatype TraceEvent =
    | Begin(localId: byte, task: byte, flags: byte, dcTime: i64, parent: bytes, kind: byte, name: bytes,
            traceparent: Option<bytes>, traceId: bytes, spanId: bytes, namespace: bytes)
    | Attribute(spanId: bytes, task: byte, flags: byte, dcTime: i64, key: bytes, value: AttrValue)
    | Event(spanId: bytes, task: byte, flags: byte, dcTime: i64, name: bytes, attrs: seq<Attr>)
    | End(spanId: bytes, task: byte, flags: byte, dcTime: i64, status: byte, message: bytes)

  /** The header all four share. In the last three its second byte is the first of the span id. */
  datatype TraceHead = TraceHead(kind: byte, id: byte, task: byte, flags: byte, dcTime: i64)

  function GetTraceHead(b: bytes): (r: Parsed<TraceHead>)
    ensures |r.rest| <= |b| && (r.Ok? ==> |r.rest| <= |b| - 3)
  {
    var (kind, b1) :- GetU8(b);
    var (id, b2) :- GetU8(b1);
    var (task, b3) :- GetU8(b2);
    var (flags, b4) :- GetU8(b3);
    var (dcTime, b5) :- GetI64(b4);
    Ok(TraceHead(kind, id, task, flags, dcTime), b5)
  }

  /** A string of the given length, which must not exceed `max`. */
  function GetLimited(b: bytes, length: nat, max: nat): (r: Parsed<bytes>)
    ensures |r.rest| <= |b|
  {
    if length > max then Err(TooLong(length), b) else GetStrict(b, length)
  }

  /** An optional field of SPAN_BEGIN: a length byte and a string of at most 127 bytes. */
  function GetOptional(b: bytes, present: bool): (r: Parsed<Option<bytes>>)
    ensures |r.rest| <= |b|
  {
    if !present then Ok(None, b)
    else
      var (length, t) :- GetU8(b);
      var (s, u) :- GetLimited(t, length, 127);
      Ok(Some(s), u)
  }

  predicate HasParent(flags: byte) {
    flags / 2 % 2 == 1
  }

  predicate HasNamespace(flags: byte) {
    flags / 4 % 2 == 1
  }

  datatype BeginHead = BeginHead(parent: bytes, kind: byte, length: byte)

  function GetBeginHead(b: bytes): (r: Parsed<BeginHead>)
    ensures |r.rest| <= |b|
  {
    var (parent, b1) :- Take(b, 8);
    var (kind, b2) :- GetU8(b1);
    var (length, b3) :- GetU8(b2);
    var (_, b4) :- Take(b3, 2);
    if length > 127 then Err(TooLong(length), b4) else Ok(BeginHead(parent, kind, length), b4)
  }

  function GetBegin(b: bytes, h: TraceHead): (r: Parsed<TraceEvent>)
    ensures |r.rest| <= |b|
  {
    var (start, b1) :- GetBeginHead(b);
    var (traceId, b2) :- Take(b1, 16);
    var (spanId, b3) :- Take(b2, 8);
    var (name, b4) :- GetStrict(b3, start.length);
    var (traceparent, b5) :- GetOptional(b4, HasParent(h.flags));
    var (namespace, b6) :- GetOptional(b5, HasNamespace(h.flags));
    Ok(Begin(h.id, h.task, h.flags, h.dcTime, start.parent, start.kind, name, traceparent, traceId, spanId,
             if namespace.Some? then namespace.value else []), b6)
  }

  function GetAttrValue(b: bytes, kind: byte, length: nat): (r: Parsed<AttrValue>)
    ensures |r.rest| <= |b|
  {
    match kind
    case 1 =>
      var (x, t) :- GetI64(b);
      Ok(I64(x), t)
    case 2 =>
      var (x, t) :- GetU64(b);
      Ok(F64(x), t)
    case 3 =>
      var (x, t) :- GetU8(b);
      Ok(AttrValue.Flag(x != 0), t)
    case 4 =>
      var (s, t) :- GetStrict(b, length);
      Ok(AttrValue.Chars(s), t)
    case _ => Err(InvalidValueType(kind), b)
  }

  datatype AttrHead = AttrHead(kind: byte, keyLength: byte, valueLength: byte)

  /** Value type, two lengths and a reserved byte. */
  function GetAttrHead(b: bytes): (r: Parsed<AttrHead>)
    ensures |r.rest| <= |b|
  {
    var (kind, b1) :- GetU8(b);
    var (keyLength, b2) :- GetU8(b1);
    var (valueLength, b3) :- GetU8(b2);
    var (_, b4) :- GetU8(b3);
    if keyLength > 31 then Err(TooLong(keyLength), b4) else Ok(AttrHead(kind, keyLength, valueLength), b4)
  }

  function GetAttribute(b: bytes, h: TraceHead): (r: Parsed<TraceEvent>)
    ensures |r.rest| <= |b|
  {
    var (span, b1) :- Take(b, 7);
    var (attr, b2) :- GetAttrHead(b1);
    if attr.valueLength > 127 then Err(TooLong(attr.valueLength), b2)
    else
      var (key, b3) :- GetStrict(b2, attr.keyLength);
      var (value, b4) :- GetAttrValue(b3, attr.kind, attr.valueLength);
      Ok(Attribute([h.id] + span, h.task, h.flags, h.dcTime, key, value), b4)
  }

  /** An attribute of a span event is a number or a flag, with type ids of its own. */
  function GetInlineValue(b: bytes, kind: byte): (r: Parsed<AttrValue>)
    ensures |r.rest| <= |b|
  {
    match kind
    case 1 =>
      var (x, t) :- GetI64(b);
      Ok(I64(x), t)
    case 2 =>
      var (x, t) :- GetU8(b);
      Ok(AttrValue.Flag(x != 0), t)
    case _ => Err(InvalidValueType(kind), b)
  }

  function GetInlineAttrs(b: bytes, left: nat, got: seq<Attr>): (r: Parsed<seq<Attr>>)
    ensures |r.rest| <= |b|
    decreases left
  {
    if left == 0 then Ok(got, b)
    else
      var (attr, b1) :- GetAttrHead(b);
      var (key, b2) :- GetStrict(b1, attr.keyLength);
      var (value, b3) :- GetInlineValue(b2, attr.kind);
      GetInlineAttrs(b3, left - 1, got + [Attr(key, value)])
  }

  function GetEvent(b: bytes, h: TraceHead): (r: Parsed<TraceEvent>)
    ensures |r.rest| <= |b|
  {
    var (span, b1) :- Take(b, 7);
    var (length, b2) :- GetU8(b1);
    var (count, b3) :- GetU8(b2);
    var (_, b4) :- GetU16(b3);
    if length > 31 then Err(TooLong(length), b4)
    else if count > 4 then Err(TooManyAttributes(count), b4)
    else
      var (name, b5) :- GetStrict(b4, length);
      var (attrs, b6) :- GetInlineAttrs(b5, count, []);
      Ok(Event([h.id] + span, h.task, h.flags, h.dcTime, name, attrs), b6)
  }

  function GetEnd(b: bytes, h: TraceHead): (r: Parsed<TraceEvent>)
    ensures |r.rest| <= |b|
  {
    var (span, b1) :- Take(b, 7);
    var (status, b2) :- GetU8(b1);
    var (length, b3) :- GetU8(b2);
    var (_, b4) :- GetU16(b3);
    var (message, b5) :- GetLimited(b4, length, 127);
    Ok(End([h.id] + span, h.task, h.flags, h.dcTime, status, message), b5)
  }

  function GetTrace(b: bytes): (r: Parsed<TraceEvent>)
    ensures |r.rest| <= |b| && (r.Ok? ==> |r.rest| <= |b| - 3)
  {
    var (h, t) :- GetTraceHead(b);
    match h.kind
    case 5 => GetBegin(t, h)
    case 6 => GetAttribute(t, h)
    case 7 => GetEvent(t, h)
    case 8 => GetEnd(t, h)
    case _ => Err(InvalidType(h.kind), t)
  }

  // The reader

  method ParseRegistration(reader: Reader) returns (r: Result<Registration>)
    requires reader.pos <= |reader.data|
    modifies reader`pos
    ensures old(reader.pos) <= reader.pos <= |reader.data|
    ensures AsParsed(r, reader.Rest()) == GetRegistration(old(reader.Rest()))
  {
    hide Take, GetU8, GetU16, GetU32, GetU64, GetI64, GetText, GetStrict;
    var found :- reader.ReadU8();
    if found != 3 {
      return Bad(InvalidType(found));
    }
    var taskIndex :- reader.ReadU8();
    var taskName :- reader.ReadText();
    var appName :- reader.ReadText();
    var projectName :- reader.ReadText();
    var onlineChanges :- reader.ReadU32();
    var appPort :- reader.ReadU16();
    r := Good(Registration(taskIndex, taskName, appName, projectName, onlineChanges, appPort));
  }

  method ReadMetricHead(reader: Reader) returns (r: Result<MetricHead>)
    requires reader.pos <= |reader.data|
    modifies reader`pos
    ensures old(reader.pos) <= reader.pos <= |reader.data|
    ensures AsParsed(r, reader.Rest()) == GetMetricHead(old(reader.Rest()))
  {
    hide Take, GetU8, GetU16, GetU32, GetU64, GetI64, GetText, GetStrict;
    var kind :- reader.ReadU8();
    if kind > 2 {
      return Bad(InvalidKind(kind));
    }
    var filetime :- reader.ReadU64();
    var task :- reader.ReadU8();
    var cycle :- reader.ReadU32();
    var attributes :- reader.ReadU8();
    var flags :- reader.ReadU8();
    if attributes as nat > MAX_METRIC_ATTRIBUTES {
      return Bad(TooManyAttributes(attributes));
    }
    r := Good(MetricHead(kind, filetime, task, cycle, attributes, flags));
  }

  method ReadWords(reader: Reader, count: nat) returns (r: Result<seq<u64>>)
    requires reader.pos <= |reader.data|
    modifies reader`pos
    ensures old(reader.pos) <= reader.pos <= |reader.data|
    ensures AsParsed(r, reader.Rest()) == GetWords(old(reader.Rest()), count, [])
  {
    hide GetU64;
    var words: seq<u64> := [];
    for i := 0 to count
      invariant old(reader.pos) <= reader.pos <= |reader.data|
      invariant GetWords(reader.Rest(), count - i, words) == GetWords(old(reader.Rest()), count, [])
    {
      var x :- reader.ReadU64();
      words := words + [x];
    }
    r := Good(words);
  }

  method ReadHistogram(reader: Reader) returns (r: Result<Histogram>)
    requires reader.pos <= |reader.data|
    modifies reader`pos
    ensures old(reader.pos) <= reader.pos <= |reader.data|
    ensures AsParsed(r, reader.Rest()) == GetHistogram(old(reader.Rest()))
  {
    hide GetU8, GetU64, GetWords;
    var buckets :- reader.ReadU8();
    if buckets as nat > MAX_HISTOGRAM_BUCKETS {
      return Bad(TooManyBuckets(buckets));
    }
    var bounds :- ReadWords(reader, buckets);
    var counts :- ReadWords(reader, buckets as nat + 1);
    var count :- reader.ReadU64();
    var sum :- reader.ReadU64();
    r := Good(Histogram(bounds, counts, count, sum));
  }

  method ReadAttributes(reader: Reader, count: nat) returns (r: Result<map<bytes, Json>>)
    requires reader.pos <= |reader.data|
    modifies reader`pos
    ensures old(reader.pos) <= reader.pos <= |reader.data|
    ensures AsParsed(r, reader.Rest()) == GetAttributes(old(reader.Rest()), count, map[])
  {
    hide GetText, GetTyped;
    var attributes: map<bytes, Json> := map[];
    for i := 0 to count
      invariant old(reader.pos) <= reader.pos <= |reader.data|
      invariant GetAttributes(reader.Rest(), count - i, attributes) == GetAttributes(old(reader.Rest()), count, map[])
    {
      var key :- reader.ReadText();
      var v :- ReadTyped(reader);
      attributes := attributes[key := v];
    }
    r := Good(attributes);
  }

  method ReadMetricBody(reader: Reader) returns (r: Result<Metric>)
    requires reader.pos <= |reader.data|
    modifies reader`pos
    ensures old(reader.pos) <= reader.pos <= |reader.data|
    ensures AsParsed(r, reader.Rest()) == GetMetricBody(old(reader.Rest()))
  {
    hide GetMetricHead, GetText, GetU64, GetHistogram, GetAttributes, FileTime;
    var head :- ReadMetricHead(reader);
    var name :- reader.ReadText();
    var description :- reader.ReadText();
    var unit :- reader.ReadText();
    var value :- reader.ReadU64();
    var histogram := NO_HISTOGRAM;
    if head.kind == 2 {
      histogram :- ReadHistogram(reader);
    }
    var attributes :- ReadAttributes(reader, head.attributes);
    r := Good(Metric(name, description, unit, head.kind, value, FileTime(head.filetime), head.task, head.cycle,
                     head.flags % 2 == 1, attributes, histogram));
  }

  method ParseMetric(reader: Reader) returns (r: Result<Metric>)
    requires reader.pos <= |reader.data|
    modifies reader`pos
    ensures old(reader.pos) <= reader.pos && (r.Bad? ==> reader.pos <= |reader.data|)
    ensures AsParsed(r, reader.Rest()) == GetMetric(old(reader.Rest()))
  {
    hide GetU8, GetU16, GetMetricBody, Skip;
    var found :- reader.ReadU8();
    if found != 4 {
      return Bad(InvalidType(found));
    }
    var length :- reader.ReadU16();
    var start := reader.pos;
    ghost var b2 := reader.Rest();
    var metric :- ReadMetricBody(reader);
    JumpTo(reader, start, length, b2);
    r := Good(metric);
  }

  method ReadTraceHead(reader: Reader) returns (r: Result<TraceHead>)
    requires reader.pos <= |reader.data|
    modifies reader`pos
    ensures old(reader.pos) <= reader.pos <= |reader.data|
    ensures AsParsed(r, reader.Rest()) == GetTraceHead(old(reader.Rest()))
  {
    hide Take, GetU8, GetU16, GetU32, GetU64, GetI64, GetText, GetStrict;
    var kind :- reader.ReadU8();
    var id :- reader.ReadU8();
    var task :- reader.ReadU8();
    var flags :- reader.ReadU8();
    var dcTime :- reader.ReadI64();
    r := Good(TraceHead(kind, id, task, flags, dcTime));
  }

  method ReadLimited(reader: Reader, length: nat, max: nat) returns (r: Result<bytes>)
    requires reader.pos <= |reader.data|
    modifies reader`pos
    ensures old(reader.pos) <= reader.pos <= |reader.data|
    ensures AsParsed(r, reader.Rest()) == GetLimited(old(reader.Rest()), length, max)
  {
    hide Take, GetU8, GetU16, GetU32, GetU64, GetI64, GetText, GetStrict;
    if length > max {
      return Bad(TooLong(length));
    }
    r := reader.ReadStrict(length);
  }

  method ReadOptional(reader: Reader, present: bool) returns (r: Result<Option<bytes>>)
    requires reader.pos <= |reader.data|
    modifies reader`pos
    ensures old(reader.pos) <= reader.pos <= |reader.data|
    ensures AsParsed(r, reader.Rest()) == GetOptional(old(reader.Rest()), present)
  {
    hide Take, GetU8, GetU16, GetU32, GetU64, GetI64, GetText, GetStrict, GetLimited;
    if !present {
      return Good(None);
    }
    var length :- reader.ReadU8();
    var s :- ReadLimited(reader, length, 127);
    r := Good(Some(s));
  }

  method ReadBeginHead(reader: Reader) returns (r: Result<BeginHead>)
    requires reader.pos <= |reader.data|
    modifies reader`pos
    ensures old(reader.pos) <= reader.pos <= |reader.data|
    ensures AsParsed(r, reader.Rest()) == GetBeginHead(old(reader.Rest()))
  {
    hide Take, GetU8, GetU16, GetU32, GetU64, GetI64, GetText, GetStrict;
    var parent :- reader.ReadBytes(8);
    var kind :- reader.ReadU8();
    var length :- reader.ReadU8();
    var _ :- reader.ReadBytes(2);
    if length > 127 {
      return Bad(TooLong(length));
    }
    r := Good(BeginHead(parent, kind, length));
  }

  method ReadBegin(reader: Reader, h: TraceHead) returns (r: Result<TraceEvent>)
    requires reader.pos <= |reader.data|
    modifies reader`pos
    ensures old(reader.pos) <= reader.pos <= |reader.data|
    ensures AsParsed(r, reader.Rest()) == GetBegin(old(reader.Rest()), h)
  {
    hide Take, GetU8, GetU16, GetU32, GetU64, GetI64, GetText, GetStrict, GetBeginHead, GetOptional, HasParent;
    hide HasNamespace;
    var start :- ReadBeginHead(reader);
    var traceId :- reader.ReadBytes(16);
    var spanId :- reader.ReadBytes(8);
    var name :- reader.ReadStrict(start.length);
    var traceparent :- ReadOptional(reader, HasParent(h.flags));
    var namespace :- ReadOptional(reader, HasNamespace(h.flags));
    r := Good(Begin(h.id, h.task, h.flags, h.dcTime, start.parent, start.kind, name, traceparent, traceId, spanId,
                    if namespace.Some? then namespace.value else []));
  }

  method ReadAttrValue(reader: Reader, kind: byte, length: nat) returns (r: Result<AttrValue>)
    requires reader.pos <= |reader.data|
    modifies reader`pos
    ensures old(reader.pos) <= reader.pos <= |reader.data|
    ensures AsParsed(r, reader.Rest()) == GetAttrValue(old(reader.Rest()), kind, length)
  {
    hide Take, GetU8, GetU16, GetU32, GetU64, GetI64, GetText, GetStrict;
    match kind
    case 1 =>
      var x :- reader.ReadI64();
      r := Good(I64(x));
    case 2 =>
      var x :- reader.ReadU64();
      r := Good(F64(x));
    case 3 =>
      var x :- reader.ReadU8();
      r := Good(AttrValue.Flag(x != 0));
    case 4 =>
      var s :- reader.ReadStrict(length);
      r := Good(AttrValue.Chars(s));
    case _ =>
      r := Bad(InvalidValueType(kind));
  }

  method ReadAttrHead(reader: Reader) returns (r: Result<AttrHead>)
    requires reader.pos <= |reader.data|
    modifies reader`pos
    ensures old(reader.pos) <= reader.pos <= |reader.data|
    ensures AsParsed(r, reader.Rest()) == GetAttrHead(old(reader.Rest()))
  {
    hide Take, GetU8, GetU16, GetU32, GetU64, GetI64, GetText, GetStrict;
    var kind :- reader.ReadU8();
    var keyLength :- reader.ReadU8();
    var valueLength :- reader.ReadU8();
    var _ :- reader.ReadU8();
    if keyLength > 31 {
      return Bad(TooLong(keyLength));
    }
    r := Good(AttrHead(kind, keyLength, valueLength));
  }

  method ReadAttribute(reader: Reader, h: TraceHead) returns (r: Result<TraceEvent>)
    requires reader.pos <= |reader.data|
    modifies reader`pos
    ensures old(reader.pos) <= reader.pos <= |reader.data|
    ensures AsParsed(r, reader.Rest()) == GetAttribute(old(reader.Rest()), h)
  {
    hide Take, GetU8, GetU16, GetU32, GetU64, GetI64, GetText, GetStrict, GetAttrHead, GetAttrValue;
    var span :- reader.ReadBytes(7);
    var attr :- ReadAttrHead(reader);
    if attr.valueLength > 127 {
      return Bad(TooLong(attr.valueLength));
    }
    var key :- reader.ReadStrict(attr.keyLength);
    var value :- ReadAttrValue(reader, attr.kind, attr.valueLength);
    r := Good(Attribute([h.id] + span, h.task, h.flags, h.dcTime, key, value));
  }

  method ReadInlineValue(reader: Reader, kind: byte) returns (r: Result<AttrValue>)
    requires reader.pos <= |reader.data|
    modifies reader`pos
    ensures old(reader.pos) <= reader.pos <= |reader.data|
    ensures AsParsed(r, reader.Rest()) == GetInlineValue(old(reader.Rest()), kind)
  {
    hide Take, GetU8, GetU16, GetU32, GetU64, GetI64, GetText, GetStrict;
    match kind
    case 1 =>
      var x :- reader.ReadI64();
      r := Good(I64(x));
    case 2 =>
      var x :- reader.ReadU8();
      r := Good(AttrValue.Flag(x != 0));
    case _ =>
      r := Bad(InvalidValueType(kind));
  }

  method ReadInlineAttrs(reader: Reader, count: nat) returns (r: Result<seq<Attr>>)
    requires reader.pos <= |reader.data|
    modifies reader`pos
    ensures old(reader.pos) <= reader.pos <= |reader.data|
    ensures AsParsed(r, reader.Rest()) == GetInlineAttrs(old(reader.Rest()), count, [])
  {
    hide GetAttrHead, GetStrict, GetInlineValue;
    var attrs: seq<Attr> := [];
    for i := 0 to count
      invariant old(reader.pos) <= reader.pos <= |reader.data|
      invariant GetInlineAttrs(reader.Rest(), count - i, attrs) == GetInlineAttrs(old(reader.Rest()), count, [])
    {
      var attr :- ReadAttrHead(reader);
      var key :- reader.ReadStrict(attr.keyLength);
      var value :- ReadInlineValue(reader, attr.kind);
      attrs := attrs + [Attr(key, value)];
    }
    r := Good(attrs);
  }

  method ReadEvent(reader: Reader, h: TraceHead) returns (r: Result<TraceEvent>)
    requires reader.pos <= |reader.data|
    modifies reader`pos
    ensures old(reader.pos) <= reader.pos <= |reader.data|
    ensures AsParsed(r, reader.Rest()) == GetEvent(old(reader.Rest()), h)
  {
    hide Take, GetU8, GetU16, GetU32, GetU64, GetI64, GetText, GetStrict, GetInlineAttrs;
    var span :- reader.ReadBytes(7);
    var length :- reader.ReadU8();
    var count :- reader.ReadU8();
    var _ :- reader.ReadU16();
    if length > 31 {
      return Bad(TooLong(length));
    }
    if count > 4 {
      return Bad(TooManyAttributes(count));
    }
    var name :- reader.ReadStrict(length);
    var attrs :- ReadInlineAttrs(reader, count);
    r := Good(Event([h.id] + span, h.task, h.flags, h.dcTime, name, attrs));
  }

  method ReadEnd(reader: Reader, h: TraceHead) returns (r: Result<TraceEvent>)
    requires reader.pos <= |reader.data|
    modifies reader`pos
    ensures old(reader.pos) <= reader.pos <= |reader.data|
    ensures AsParsed(r, reader.Rest()) == GetEnd(old(reader.Rest()), h)
  {
    hide Take, GetU8, GetU16, GetU32, GetU64, GetI64, GetText, GetStrict, GetLimited;
    var span :- reader.ReadBytes(7);
    var status :- reader.ReadU8();
    var length :- reader.ReadU8();
    var _ :- reader.ReadU16();
    var message :- ReadLimited(reader, length, 127);
    r := Good(End([h.id] + span, h.task, h.flags, h.dcTime, status, message));
  }

  method ParseTrace(reader: Reader) returns (r: Result<TraceEvent>)
    requires reader.pos <= |reader.data|
    modifies reader`pos
    ensures old(reader.pos) <= reader.pos <= |reader.data|
    ensures AsParsed(r, reader.Rest()) == GetTrace(old(reader.Rest()))
  {
    hide GetTraceHead, GetBegin, GetAttribute, GetEvent, GetEnd;
    var h :- ReadTraceHead(reader);
    match h.kind
    case 5 =>
      r := ReadBegin(reader, h);
    case 6 =>
      r := ReadAttribute(reader, h);
    case 7 =>
      r := ReadEvent(reader, h);
    case 8 =>
      r := ReadEnd(reader, h);
    case _ =>
      r := Bad(InvalidType(h.kind));
  }
}
