/** Encoders for registrations, metrics and trace events, and what the parser makes of them. */
module TelemetryWriter {
  import opened Bytes
  import opened Wire
  import opened Values
  import opened Logs
  import opened Telemetry
  import opened LogWriter
  import Utf8

  // Registrations

  predicate FitsRegistration(m: Registration) {
    IsText(m.taskName) && IsText(m.appName) && IsText(m.projectName)
  }

  predicate IsText(s: bytes) {
    |s| < 256 && Utf8.Valid(s)
  }

  function PutRegistration(m: Registration, t: bytes): (r: bytes)
    requires FitsRegistration(m)
    ensures r != [] && r[0] == 3
  {
    hide Tail;
    PutU8(3, PutU8(m.taskIndex, PutText(m.taskName, PutText(m.appName, PutText(m.projectName,
      PutU32(m.onlineChanges, PutU16(m.appPort, t)))))))
  }

  lemma RegistrationReadsBack(m: Registration, t: bytes)
    requires FitsRegistration(m)
    ensures GetRegistration(PutRegistration(m, t)) == Ok(m, t)
  {
    hide PutU8, GetU8, PutText, GetText, PutU32, GetU32, PutU16, GetU16, Tail;
  }

  // Metrics

  datatype Reading = Reading(
    kind: byte, filetime: u64, task: byte, cycle: u32, flags: byte, name: Text, description: Text, unit: Text,
    value: u64, histogram: Histogram, attributes: seq<Prop>)

  predicate FitsHistogram(h: Histogram) {
    |h.bounds| <= MAX_HISTOGRAM_BUCKETS && |h.counts| == |h.bounds| + 1
  }

  predicate FitsReading(m: Reading) {
    && m.kind <= 2
    && |m.attributes| <= MAX_METRIC_ATTRIBUTES && (forall p | p in m.attributes :: Encodable(p.value))
    && (if m.kind == 2 then FitsHistogram(m.histogram) else m.histogram == NO_HISTOGRAM)
  }

  /** The attributes by name; the last of the same name wins. */
  function Named(props: seq<Prop>): map<bytes, Json> {
    if props == [] then map[]
    else Named(props[..|props| - 1])[props[|props| - 1].name := JsonOf(props[|props| - 1].value)]
  }

  function MetricOf(m: Reading): Metric {
    Metric(m.name, m.description, m.unit, m.kind, m.value, FileTime(m.filetime), m.task, m.cycle, m.flags % 2 == 1,
           Named(m.attributes), m.histogram)
  }

  function PutWords(ws: seq<u64>, t: bytes): (r: bytes)
    ensures |r| == 8 * |ws| + |t| && Tail(t, r)
  {
    if ws == [] then t
    else
      var u := PutWords(ws[1..], t);
      TailOfTail(t, u, PutU64(ws[0], u));
      PutU64(ws[0], u)
  }

  lemma {:induction false} WordsReadBack(ws: seq<u64>, got: seq<u64>, t: bytes)
    ensures GetWords(PutWords(ws, t), |ws|, got) == Ok(got + ws, t)
    decreases |ws|
  {
    hide PutU64, GetU64, Tail;
    if ws == [] {
      assert got + ws == got;
    } else {
      WordsReadBack(ws[1..], got + [ws[0]], t);
      assert got + [ws[0]] + ws[1..] == got + ws;
    }
  }

  function PutHistogram(h: Histogram, t: bytes): (r: bytes)
    requires FitsHistogram(h)
    ensures |r| == 25 + 16 * |h.bounds| + |t| && Tail(t, r)
  {
    var t1 := PutU64(h.count, PutU64(h.sum, t));
    var t2 := PutWords(h.counts, t1);
    var t3 := PutWords(h.bounds, t2);
    TailOfTail(t, PutU64(h.sum, t), t1);
    TailOfTail(t, t1, t2);
    TailOfTail(t, t2, t3);
    TailOfTail(t, t3, PutU8(|h.bounds|, t3));
    PutU8(|h.bounds|, t3)
  }

  lemma HistogramReadsBack(h: Histogram, t: bytes)
    requires FitsHistogram(h)
    ensures GetHistogram(PutHistogram(h, t)) == Ok(h, t)
  {
    hide PutU64, GetU64, PutU8, GetU8, PutWords, GetWords, Tail;
    var t1 := PutU64(h.count, PutU64(h.sum, t));
    WordsReadBack(h.counts, [], t1);
    WordsReadBack(h.bounds, [], PutWords(h.counts, t1));
    assert [] + h.counts == h.counts && [] + h.bounds == h.bounds;
  }

  lemma AttributeStep(p: Prop, left: nat, got: map<bytes, Json>, t: bytes)
    requires Encodable(p.value)
    ensures GetAttributes(PutProp(p, t), left + 1, got) == GetAttributes(t, left, got[p.name := JsonOf(p.value)])
  {
    hide GetText, GetTyped, PutTyped, PutText, JsonOf, Encodable, PutProp, Tail;
  }

  lemma {:induction false} AttributesReadBack(props: seq<Prop>, done: nat, t: bytes)
    requires done <= |props| && forall p | p in props :: Encodable(p.value)
    ensures GetAttributes(PutProps(props[done..], t), |props| - done, Named(props[..done])) == Ok(Named(props), t)
    decreases |props| - done
  {
    hide JsonOf, Encodable, PutProp, GetAttributes, Utf8.Valid, Tail, PropsSize, PayloadSize, GetText, PutTyped;
    hide GetTyped;
    if done == |props| {
      assert props[..done] == props;
      NoAttributes(Named(props), t);
    } else {
      var p := props[done];
      assert props[done..][1..] == props[done + 1..] && props[done..][0] == p;
      assert props[..done + 1][..done] == props[..done];
      AttributesReadBack(props, done + 1, t);
      AttributeStep(p, |props| - done - 1, Named(props[..done]), PutProps(props[done + 1..], t));
    }
  }

  lemma NoAttributes(got: map<bytes, Json>, t: bytes)
    ensures GetAttributes(t, 0, got) == Ok(got, t)
  {
  }

  function MetricHeadOf(m: Reading): MetricHead
    requires FitsReading(m)
  {
    MetricHead(m.kind, m.filetime, m.task, m.cycle, |m.attributes|, m.flags)
  }

  function PutMetricHead(h: MetricHead, t: bytes): (r: bytes)
    ensures |r| == 16 + |t| && Tail(t, r)
    ensures h.kind <= 2 && h.attributes as nat <= MAX_METRIC_ATTRIBUTES ==> GetMetricHead(r) == Ok(h, t)
  {
    var t1 := PutU8(h.attributes, PutU8(h.flags, t));
    var t2 := PutU8(h.task, PutU32(h.cycle, t1));
    var t3 := PutU64(h.filetime, t2);
    TailOfTail(t, PutU8(h.flags, t), t1);
    TailOfTail(t1, PutU32(h.cycle, t1), t2);
    TailOfTail(t, t1, t2);
    TailOfTail(t, t2, t3);
    TailOfTail(t, t3, PutU8(h.kind, t3));
    PutU8(h.kind, t3)
  }

  function PutHistogramOf(m: Reading, t: bytes): (r: bytes)
    requires FitsReading(m)
    ensures |r| == (if m.kind == 2 then 25 + 16 * |m.histogram.bounds| else 0) + |t| && Tail(t, r)
  {
    if m.kind == 2 then PutHistogram(m.histogram, t) else t
  }

  lemma HistogramOfReadsBack(m: Reading, t: bytes)
    requires FitsReading(m)
    ensures GetHistogramOf(PutHistogramOf(m, t), m.kind) == Ok(m.histogram, t)
  {
    hide GetHistogram, PutHistogram;
    if m.kind == 2 {
      HistogramReadsBack(m.histogram, t);
    }
  }

  function ReadingSize(m: Reading): nat
    requires FitsReading(m)
  {
    27 + |m.name| + |m.description| + |m.unit| + (if m.kind == 2 then 25 + 16 * |m.histogram.bounds| else 0)
    + PropsSize(m.attributes)
  }

  /** Name, description, unit and value. */
  function PutLabels(m: Reading, t: bytes): (r: bytes)
    ensures |r| == 11 + |m.name| + |m.description| + |m.unit| + |t| && Tail(t, r)
  {
    hide Tail;
    var t1 := PutU64(m.value, t);
    var t2 := PutText(m.unit, t1);
    var t3 := PutText(m.description, t2);
    TailOfTail(t, t1, t2);
    TailOfTail(t, t2, t3);
    TailOfTail(t, t3, PutText(m.name, t3));
    PutText(m.name, t3)
  }

  function PutMetricBody(m: Reading, t: bytes): bytes
    requires FitsReading(m)
  {
    PutMetricHead(MetricHeadOf(m), PutLabels(m, PutHistogramOf(m, PutProps(m.attributes, t))))
  }

  lemma MetricBodyEnds(m: Reading, t: bytes)
    requires FitsReading(m)
    ensures |PutMetricBody(m, t)| == ReadingSize(m) + |t| && Tail(t, PutMetricBody(m, t))
  {
    hide Tail, PutProps, PutHistogramOf, PutLabels, PutMetricHead, GetMetricHead, PropsSize, Encodable, FitsHistogram;
    var t1 := PutProps(m.attributes, t);
    var t2 := PutHistogramOf(m, t1);
    var t3 := PutLabels(m, t2);
    TailOfTail(t, t1, t2);
    TailOfTail(t, t2, t3);
    TailOfTail(t, t3, PutMetricHead(MetricHeadOf(m), t3));
  }

  lemma MetricBodyReadsBack(m: Reading, t: bytes)
    requires FitsReading(m)
    ensures GetMetricBody(PutMetricBody(m, t)) == Ok(MetricOf(m), t)
  {
    hide PutMetricHead, GetMetricHead, PutText, GetText, PutU64, GetU64, PutHistogramOf, GetHistogramOf, PutProps;
    hide GetAttributes, Named, Tail, FileTime, ReadingSize;
    HistogramOfReadsBack(m, PutProps(m.attributes, t));
    AttributesReadBack(m.attributes, 0, t);
    assert m.attributes[0..] == m.attributes && m.attributes[..0] == [];
    NothingNamed();
  }

  lemma NothingNamed()
    ensures Named([]) == map[]
  {
  }

  function PutMetric(m: Reading, t: bytes): (r: bytes)
    requires FitsReading(m) && ReadingSize(m) < 0x1_0000
    ensures r != [] && r[0] == 4
  {
    PutU8(4, PutU16(ReadingSize(m), PutMetricBody(m, t)))
  }

  lemma MetricReadsBack(m: Reading, t: bytes)
    requires FitsReading(m) && ReadingSize(m) < 0x1_0000
    ensures GetMetric(PutMetric(m, t)) == Ok(MetricOf(m), t)
  {
    hide PutU8, GetU8, PutU16, GetU16, PutMetricBody, GetMetricBody, MetricOf, FitsReading, Skip, ReadingSize;
    MetricBodyReadsBack(m, t);
    MetricBodyEnds(m, t);
    SkipToTail(t, PutMetricBody(m, t), ReadingSize(m));
  }

  // Trace events

  predicate Short(s: bytes, max: nat) {
    |s| <= max && Utf8.Valid(s)
  }

  function PutOptional(o: Option<bytes>, t: bytes): (r: bytes)
    requires o.Some? ==> Short(o.value, 127)
    ensures GetOptional(r, o.Some?) == Ok(o, t)
  {
    hide Tail, Utf8.Valid;
    match o
    case None => t
    case Some(s) => PutU8(|s|, PutStrict(s, t))
  }

  predicate FitsAttrValue(v: AttrValue) {
    v.Chars? ==> Short(v.text, 127)
  }

  predicate FitsInline(a: Attr) {
    Short(a.key, 31) && (a.value.I64? || a.value.Flag?)
  }

  /** Bits 1 and 2 of the flags say whether a traceparent and a namespace follow. */
  predicate WithParent(flags: byte) {
    flags % 4 >= 2
  }

  predicate WithNamespace(flags: byte) {
    flags % 8 >= 4
  }

  lemma FlagBits(flags: byte)
    ensures HasParent(flags) <==> WithParent(flags)
    ensures HasNamespace(flags) <==> WithNamespace(flags)
  {
  }

  /** The namespace field is there exactly when its flag is set. */
  function NamespaceOf(e: TraceEvent): Option<bytes>
    requires e.Begin?
  {
    if WithNamespace(e.flags) then Some(e.namespace) else None
  }

  predicate FitsTrace(e: TraceEvent) {
    && |e.spanId| == 8
    && match e
       case Begin(_, _, _, _, _, _, _, _, _, _, _) =>
         && |e.parent| == 8 && |e.traceId| == 16 && Short(e.name, 127) && Short(e.namespace, 127)
         && (e.traceparent.Some? <==> WithParent(e.flags)) && (e.traceparent.Some? ==> Short(e.traceparent.value, 127))
         && (!WithNamespace(e.flags) ==> e.namespace == [])
       case Attribute(_, _, _, _, key, value) => Short(key, 31) && FitsAttrValue(value)
       case Event(_, _, _, _, name, attrs) =>
         Short(name, 31) && |attrs| <= 4 && (forall a | a in attrs :: FitsInline(a))
       case End(_, _, _, _, _, message) => Short(message, 127)
  }

  function PutTraceHead(h: TraceHead, t: bytes): (r: bytes)
    ensures r != [] && r[0] == h.kind
    ensures GetTraceHead(r) == Ok(h, t)
  {
    hide Tail;
    PutU8(h.kind, PutU8(h.id, PutU8(h.task, PutU8(h.flags, PutI64(h.dcTime, t)))))
  }

  function PutBegin(e: TraceEvent, t: bytes): bytes
    requires e.Begin? && FitsTrace(e)
  {
    hide Tail, Utf8.Valid;
    Put(e.parent, PutU8(e.kind, PutU8(|e.name|, Put([0, 0], Put(e.traceId, Put(e.spanId, PutStrict(e.name,
      PutOptional(e.traceparent, PutOptional(NamespaceOf(e), t)))))))))
  }

  lemma BeginReadsBack(e: TraceEvent, h: TraceHead, t: bytes)
    requires e.Begin? && FitsTrace(e) && h == TraceHead(5, e.localId, e.task, e.flags, e.dcTime)
    ensures GetBegin(PutBegin(e, t), h) == Ok(e, t)
  {
    hide Put, Take, PutU8, GetU8, PutStrict, GetStrict, PutOptional, GetOptional, HasParent, HasNamespace, Tail;
    hide Utf8.Valid, WithParent, WithNamespace;
    FlagBits(e.flags);
  }

  function AttrKind(v: AttrValue): byte {
    match v
    case I64(_) => 1
    case F64(_) => 2
    case Flag(_) => 3
    case Chars(_) => 4
  }

  function AttrLength(v: AttrValue): byte
    requires FitsAttrValue(v)
  {
    match v
    case I64(_) => 8
    case F64(_) => 8
    case Flag(_) => 1
    case Chars(s) => |s|
  }

  function PutAttrValue(v: AttrValue, t: bytes): bytes
    requires FitsAttrValue(v)
  {
    hide Tail, Utf8.Valid;
    match v
    case I64(x) => PutI64(x, t)
    case F64(x) => PutU64(x, t)
    case Flag(x) => PutU8(if x then 1 else 0, t)
    case Chars(s) => PutStrict(s, t)
  }

  lemma AttrValueReadsBack(v: AttrValue, t: bytes)
    requires FitsAttrValue(v)
    ensures GetAttrValue(PutAttrValue(v, t), AttrKind(v), AttrLength(v)) == Ok(v, t)
  {
    hide Tail, Utf8.Valid, PutI64, GetI64, PutU64, GetU64, PutU8, GetU8, PutStrict, GetStrict;
  }

  function PutAttrHead(h: AttrHead, t: bytes): (r: bytes)
    ensures h.keyLength <= 31 ==> GetAttrHead(r) == Ok(h, t)
  {
    hide Tail;
    PutU8(h.kind, PutU8(h.keyLength, PutU8(h.valueLength, PutU8(0, t))))
  }

  function PutAttribute(e: TraceEvent, t: bytes): bytes
    requires e.Attribute? && FitsTrace(e)
  {
    hide Tail, Utf8.Valid;
    Put(e.spanId[1..], PutAttrHead(AttrHead(AttrKind(e.value), |e.key|, AttrLength(e.value)),
      PutStrict(e.key, PutAttrValue(e.value, t))))
  }

  lemma AttributeReadsBack(e: TraceEvent, h: TraceHead, t: bytes)
    requires e.Attribute? && FitsTrace(e) && h == TraceHead(6, e.spanId[0], e.task, e.flags, e.dcTime)
    ensures GetAttribute(PutAttribute(e, t), h) == Ok(e, t)
  {
    hide Put, Take, PutAttrHead, GetAttrHead, PutStrict, GetStrict, PutAttrValue, GetAttrValue, AttrKind, Tail;
    hide Utf8.Valid;
    AttrValueReadsBack(e.value, t);
    assert [e.spanId[0]] + e.spanId[1..] == e.spanId;
  }

  function PutInline(a: Attr, t: bytes): bytes
    requires FitsInline(a)
  {
    hide Tail, Utf8.Valid;
    match a.value
    case I64(x) => PutAttrHead(AttrHead(1, |a.key|, 8), PutStrict(a.key, PutI64(x, t)))
    case Flag(x) => PutAttrHead(AttrHead(2, |a.key|, 1), PutStrict(a.key, PutU8(if x then 1 else 0, t)))
  }

  function PutInlines(attrs: seq<Attr>, t: bytes): bytes
    requires forall a | a in attrs :: FitsInline(a)
  {
    if attrs == [] then t else PutInline(attrs[0], PutInlines(attrs[1..], t))
  }

  lemma InlineStep(a: Attr, left: nat, got: seq<Attr>, t: bytes)
    requires FitsInline(a)
    ensures GetInlineAttrs(PutInline(a, t), left + 1, got) == GetInlineAttrs(t, left, got + [a])
  {
    hide PutAttrHead, GetAttrHead, PutStrict, GetStrict, PutI64, GetI64, PutU8, GetU8, Tail, Utf8.Valid;
  }

  lemma {:induction false} InlinesReadBack(attrs: seq<Attr>, got: seq<Attr>, t: bytes)
    requires forall a | a in attrs :: FitsInline(a)
    ensures GetInlineAttrs(PutInlines(attrs, t), |attrs|, got) == Ok(got + attrs, t)
    decreases |attrs|
  {
    hide FitsInline, PutInline, GetInlineAttrs;
    if attrs == [] {
      assert got + attrs == got;
      NoInlines(got, t);
    } else {
      InlinesReadBack(attrs[1..], got + [attrs[0]], t);
      InlineStep(attrs[0], |attrs| - 1, got, PutInlines(attrs[1..], t));
      assert got + [attrs[0]] + attrs[1..] == got + attrs;
    }
  }

  lemma NoInlines(got: seq<Attr>, t: bytes)
    ensures GetInlineAttrs(t, 0, got) == Ok(got, t)
  {
  }

  function PutEvent(e: TraceEvent, t: bytes): bytes
    requires e.Event? && FitsTrace(e)
  {
    hide Tail, Utf8.Valid;
    Put(e.spanId[1..], PutU8(|e.name|, PutU8(|e.attrs|, PutU16(0, PutStrict(e.name, PutInlines(e.attrs, t))))))
  }

  lemma EventReadsBack(e: TraceEvent, h: TraceHead, t: bytes)
    requires e.Event? && FitsTrace(e) && h == TraceHead(7, e.spanId[0], e.task, e.flags, e.dcTime)
    ensures GetEvent(PutEvent(e, t), h) == Ok(e, t)
  {
    hide Put, Take, PutU8, GetU8, PutU16, GetU16, PutStrict, GetStrict, PutInlines, GetInlineAttrs, FitsInline;
    hide Tail, Utf8.Valid;
    InlinesReadBack(e.attrs, [], t);
    assert [] + e.attrs == e.attrs;
    assert [e.spanId[0]] + e.spanId[1..] == e.spanId;
  }

  function PutEnd(e: TraceEvent, t: bytes): bytes
    requires e.End? && FitsTrace(e)
  {
    hide Tail, Utf8.Valid;
    Put(e.spanId[1..], PutU8(e.status, PutU8(|e.message|, PutU16(0, PutStrict(e.message, t)))))
  }

  lemma EndReadsBack(e: TraceEvent, h: TraceHead, t: bytes)
    requires e.End? && FitsTrace(e) && h == TraceHead(8, e.spanId[0], e.task, e.flags, e.dcTime)
    ensures GetEnd(PutEnd(e, t), h) == Ok(e, t)
  {
    hide Put, Take, PutU8, GetU8, PutU16, GetU16, PutStrict, GetStrict, Tail, Utf8.Valid;
    assert [e.spanId[0]] + e.spanId[1..] == e.spanId;
  }

  function PutTrace(e: TraceEvent, t: bytes): (r: bytes)
    requires FitsTrace(e)
    ensures r != [] && 5 <= r[0] <= 8
  {
    hide Tail, Utf8.Valid;
    match e
    case Begin(_, _, _, _, _, _, _, _, _, _, _) =>
      PutTraceHead(TraceHead(5, e.localId, e.task, e.flags, e.dcTime), PutBegin(e, t))
    case Attribute(_, _, _, _, _, _) =>
      PutTraceHead(TraceHead(6, e.spanId[0], e.task, e.flags, e.dcTime), PutAttribute(e, t))
    case Event(_, _, _, _, _, _) =>
      PutTraceHead(TraceHead(7, e.spanId[0], e.task, e.flags, e.dcTime), PutEvent(e, t))
    case End(_, _, _, _, _, _) =>
      PutTraceHead(TraceHead(8, e.spanId[0], e.task, e.flags, e.dcTime), PutEnd(e, t))
  }

  lemma TraceReadsBack(e: TraceEvent, t: bytes)
    requires FitsTrace(e)
    ensures GetTrace(PutTrace(e, t)) == Ok(e, t)
  {
    hide FitsTrace, PutTraceHead, GetTraceHead, PutBegin, GetBegin, PutAttribute, GetAttribute, PutEvent, GetEvent;
    hide PutEnd, GetEnd;
    SpanIdFits(e);
    match e
    case Begin(_, _, _, _, _, _, _, _, _, _, _) =>
      BeginReadsBack(e, TraceHead(5, e.localId, e.task, e.flags, e.dcTime), t);
    case Attribute(_, _, _, _, _, _) =>
      AttributeReadsBack(e, TraceHead(6, e.spanId[0], e.task, e.flags, e.dcTime), t);
    case Event(_, _, _, _, _, _) =>
      EventReadsBack(e, TraceHead(7, e.spanId[0], e.task, e.flags, e.dcTime), t);
    case End(_, _, _, _, _, _) =>
      EndReadsBack(e, TraceHead(8, e.spanId[0], e.task, e.flags, e.dcTime), t);
  }

  lemma SpanIdFits(e: TraceEvent)
    requires FitsTrace(e)
    ensures |e.spanId| == 8
  {
  }
}
