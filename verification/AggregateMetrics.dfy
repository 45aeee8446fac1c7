/** FB_Metrics aggregate frames (`decode_metric_aggregate` in crates/tc-otel-ads/src/diagnostics_push.rs). */
module AggregateMetrics {
  import opened Bytes
  import opened Wire
  import PushMetrics
  import Utf8
  import Values

  const HAS_TRACE_CTX: nat := 1
  const HAS_SAMPLE_TS: nat := 4
  const HAS_NAMESPACE: nat := 8
  const HAS_SAMPLE_TS_DC: nat := 16

  predicate Has(flags: byte, bit: nat)
    requires bit > 0
  {
    flags as nat / bit % 2 == 1
  }

  /** Floats are kept as bits. */
  datatype Sample =
    | Flag(flag: bool)
    | Numeric(bits: u64)
    | Discrete(raw: bytes)
    | Text(text: bytes)
    | Wide(units: seq<u16>)
    | Aggregated(mask: byte, values: seq<u64>)

  /** Body schema, sample size and statistics mask: how the value of a slot lies in the frame. */
  datatype Format = Format(schema: byte, size: u32, mask: byte)

  function PopCount(x: nat): nat {
    if x == 0 then 0 else x % 2 + PopCount(x / 2)
  }

  lemma Bit0(x: byte)
    ensures Has(x, 1) <==> x % 2 >= 1
  {
    assert x as nat / 1 == x;
  }

  lemma Bit2(x: byte)
    ensures Has(x, 4) <==> x % 8 >= 4
  {
    assert x / 4 == 2 * (x / 8) + x % 8 / 4;
  }

  lemma Bit3(x: byte)
    ensures Has(x, 8) <==> x % 16 >= 8
  {
    assert x / 8 == 2 * (x / 16) + x % 16 / 8;
  }

  lemma Bit4(x: byte)
    ensures Has(x, 16) <==> x % 32 >= 16
  {
    assert x / 16 == 2 * (x / 32) + x % 32 / 16;
  }

  /** The flags are bits 0, 2, 3 and 4. */
  lemma FlagBits(flags: byte)
    ensures Has(flags, HAS_TRACE_CTX) <==> flags % 2 >= 1
    ensures Has(flags, HAS_SAMPLE_TS) <==> flags % 8 >= 4
    ensures Has(flags, HAS_NAMESPACE) <==> flags % 16 >= 8
    ensures Has(flags, HAS_SAMPLE_TS_DC) <==> flags % 32 >= 16
  {
    hide Has;
    Bit0(flags);
    Bit2(flags);
    Bit3(flags);
    Bit4(flags);
  }

  lemma PopCountStep(bit: nat, x: nat)
    requires bit < 2
    ensures PopCount(2 * x + bit) == bit + PopCount(x)
  {
    assert (2 * x + bit) / 2 == x && (2 * x + bit) % 2 == bit;
  }

  /** The number of ones among the eight bits of a mask. */
  lemma PopCountIsSum(a: nat, b: nat, c: nat, d: nat, e: nat, f: nat, g: nat, h: nat)
    requires a < 2 && b < 2 && c < 2 && d < 2 && e < 2 && f < 2 && g < 2 && h < 2
    ensures PopCount(128 * a + 64 * b + 32 * c + 16 * d + 8 * e + 4 * f + 2 * g + h) == a + b + c + d + e + f + g + h
  {
    hide PopCount;
    PopCountStep(a, 0);
    PopCountStep(b, a);
    PopCountStep(c, 2 * a + b);
    PopCountStep(d, 4 * a + 2 * b + c);
    PopCountStep(e, 8 * a + 4 * b + 2 * c + d);
    PopCountStep(f, 16 * a + 8 * b + 4 * c + 2 * d + e);
    PopCountStep(g, 32 * a + 16 * b + 8 * c + 4 * d + 2 * e + f);
    PopCountStep(h, 64 * a + 32 * b + 16 * c + 8 * d + 4 * e + 2 * f + g);
    NoBits();
  }

  lemma NoBits()
    ensures PopCount(0) == 0
  {
  }

  lemma {:induction false} SomeBits(x: nat)
    requires x > 0
    ensures PopCount(x) > 0
  {
    if x % 2 == 0 {
      SomeBits(x / 2);
    }
  }

  predicate Possible(f: Format) {
    match f.schema
    case 1 => f.size == 1
    case 2 => f.size == 8
    case 3 => 0 < f.size <= 65535
    case 4 => 0 < f.size <= 65535
    case 5 => 0 < f.size <= 65535
    case 6 => 0 < PopCount(f.mask) && f.size == 8 * PopCount(f.mask)
    case _ => false
  }

  /** Which sizes go with a schema. */
  lemma PossibleIff(f: Format)
    ensures Possible(f) <==>
            || (f.schema == 1 && f.size == 1)
            || (f.schema == 2 && f.size == 8)
            || (3 <= f.schema <= 5 && 1 <= f.size < 0x1_0000)
            || (f.schema == 6 && f.mask != 0 && f.size == 8 * PopCount(f.mask))
  {
    hide PopCount;
    NoBits();
    if f.mask > 0 {
      SomeBits(f.mask);
    }
  }

  function Trim(s: bytes): bytes {
    if s == [] || s[|s| - 1] != 0 then s else Trim(s[..|s| - 1])
  }

  function TrimUnits(s: seq<u16>): seq<u16> {
    if s == [] || s[|s| - 1] != 0 then s else TrimUnits(s[..|s| - 1])
  }

  function Words(b: bytes, n: nat): seq<u64>
    requires 8 * n <= |b|
  {
    if n == 0 then [] else [U64(b[..8])] + Words(b[8..], n - 1)
  }

  function SampleOf(f: Format, raw: bytes): Sample
    requires Possible(f) && |raw| == f.size
  {
    match f.schema
    case 1 => Flag(raw[0] != 0)
    case 2 => Numeric(U64(raw))
    case 3 => Discrete(raw)
    case 4 => Text(Utf8.Lossy(Trim(raw)))
    case 5 => Wide(TrimUnits(Values.Units(raw)))
    case 6 => Aggregated(f.mask, Words(raw, PopCount(f.mask)))
  }

  /** What comes before each value: nothing, a cycle offset or an absolute time. */
  datatype Stamping = Unstamped | ByCycle | ByTime

  function PrefixSize(s: Stamping): nat {
    match s
    case Unstamped => 0
    case ByCycle => 2
    case ByTime => 8
  }

  /** The three vectors the decoder fills. */
  datatype Slots = Slots(samples: seq<Sample>, offsets: seq<u16>, times: seq<i64>)

  function GetStamp(b: bytes, s: Stamping, got: Slots): (r: Parsed<Slots>)
    ensures |r.rest| <= |b|
    ensures r.Ok? ==> |r.rest| == |b| - PrefixSize(s)
  {
    match s
    case Unstamped => Ok(got, b)
    case ByCycle =>
      var (x, t) :- GetU16(b);
      Ok(got.(offsets := got.offsets + [x]), t)
    case ByTime =>
      var (x, t) :- GetI64(b);
      Ok(got.(times := got.times + [x]), t)
  }

  function GetSlot(b: bytes, f: Format, s: Stamping, got: Slots): (r: Parsed<Slots>)
    requires Possible(f)
    ensures |r.rest| <= |b|
    ensures r.Ok? ==> |r.rest| == |b| - (f.size + PrefixSize(s))
  {
    var (stamped, t) :- GetStamp(b, s, got);
    var (raw, u) :- Take(t, f.size);
    Ok(stamped.(samples := stamped.samples + [SampleOf(f, raw)]), u)
  }

  function GetSlots(b: bytes, left: nat, f: Format, s: Stamping, got: Slots): (r: Parsed<Slots>)
    requires Possible(f)
    ensures |r.rest| <= |b|
    decreases left
  {
    if left == 0 then Ok(got, b)
    else
      var (next, t) :- GetSlot(b, f, s, got);
      GetSlots(t, left - 1, f, s, next)
  }

  datatype Aggregate = Aggregate(
    metricId: u32, task: byte, flags: byte, format: Format, cycleStart: u32, cycleEnd: u32, dcStart: i64, dcEnd: i64,
    name: bytes, unit: bytes, namespace: bytes, traceId: Option<bytes>, spanId: Option<bytes>,
    samples: seq<Sample>, cycleOffsets: Option<seq<u16>>, dcTimes: Option<seq<i64>>)

  /** The first 20 bytes. */
  datatype Start = Start(flags: byte, format: Format, count: u32, metricId: u32, task: byte)

  function GetStart(b: bytes): (r: Parsed<Start>)
    ensures |r.rest| <= |b|
    ensures r.Ok? ==> |r.rest| == |b| - 20 && Possible(r.value.format)
  {
    var (version, b1) :- GetU8(b);
    var (kind, b2) :- GetU8(b1);
    var (flags, b3) :- GetU8(b2);
    var (schema, b4) :- GetU8(b3);
    var (size, b5) :- GetU32(b4);
    var (count, b6) :- GetU32(b5);
    var (metricId, b7) :- GetU32(b6);
    var (task, b8) :- GetU8(b7);
    var (mask, b9) :- GetU8(b8);
    var (_, b10) :- Take(b9, 2);
    if version != PushMetrics.PUSH_WIRE_VERSION || kind != PushMetrics.PUSH_METRIC_AGG_EVENT_TYPE then
      Err(PushMetrics.MALFORMED, b10)
    else if !Possible(Format(schema, size, mask)) then Err(PushMetrics.MALFORMED, b10)
    else Ok(Start(flags, Format(schema, size, mask), count, metricId, task), b10)
  }

  /** The other 32 bytes of the header. */
  datatype Span = Span(cycleStart: u32, cycleEnd: u32, dcStart: i64, dcEnd: i64, name: byte, unit: byte)

  function GetSpan(b: bytes): (r: Parsed<Span>)
    ensures |r.rest| <= |b|
    ensures r.Ok? ==> |r.rest| == |b| - 32
  {
    var (cycleStart, b1) :- GetU32(b);
    var (cycleEnd, b2) :- GetU32(b1);
    var (_, b3) :- Take(b2, 4);
    var (dcStart, b4) :- GetI64(b3);
    var (dcEnd, b5) :- GetI64(b4);
    var (name, b6) :- GetU8(b5);
    var (unit, b7) :- GetU8(b6);
    var (_, b8) :- Take(b7, 2);
    Ok(Span(cycleStart, cycleEnd, dcStart, dcEnd, name, unit), b8)
  }

  datatype Trace = NoTrace | Trace(traceId: bytes, spanId: bytes)

  function GetTraceContext(b: bytes, present: bool): (r: Parsed<Trace>)
    ensures |r.rest| <= |b|
    ensures r.Ok? ==> |r.rest| == |b| - (if present then 24 else 0) && (r.value.Trace? <==> present)
  {
    if !present then Ok(NoTrace, b)
    else
      var (traceId, t) :- Take(b, 16);
      var (spanId, u) :- Take(t, 8);
      Ok(Trace(traceId, spanId), u)
  }

  function GetNamespace(b: bytes, present: bool): (r: Parsed<bytes>)
    ensures |r.rest| <= |b|
    ensures r.Ok? ==> |r.rest| == |b| - (if present then 1 + |r.value| else 0)
  {
    if !present then Ok([], b)
    else
      var (n, t) :- GetU8(b);
      GetStrict(t, n)
  }

  function StampingOf(flags: byte): Option<Stamping> {
    if Has(flags, HAS_SAMPLE_TS) && Has(flags, HAS_SAMPLE_TS_DC) then None
    else if Has(flags, HAS_SAMPLE_TS) then Some(ByCycle)
    else if Has(flags, HAS_SAMPLE_TS_DC) then Some(ByTime)
    else Some(Unstamped)
  }

  /** What lies between the header and the slots. */
  datatype Labels = Labels(trace: Trace, name: bytes, unit: bytes, namespace: bytes)

  function GetLabels(b: bytes, flags: byte, p: Span): (r: Parsed<Labels>)
    ensures |r.rest| <= |b|
    ensures r.Ok? ==> && |r.rest| == |b| - (if Has(flags, HAS_TRACE_CTX) then 24 else 0)
                                     - |r.value.name| - |r.value.unit|
                                     - (if Has(flags, HAS_NAMESPACE) then 1 + |r.value.namespace| else 0)
                      && (r.value.trace.Trace? <==> Has(flags, HAS_TRACE_CTX))
  {
    hide Has;
    var (trace, b1) :- GetTraceContext(b, Has(flags, HAS_TRACE_CTX));
    var (name, b2) :- GetStrict(b1, p.name);
    var (unit, b3) :- GetStrict(b2, p.unit);
    var (namespace, b4) :- GetNamespace(b3, Has(flags, HAS_NAMESPACE));
    Ok(Labels(trace, name, unit, namespace), b4)
  }

  function Assemble(a: Start, p: Span, l: Labels, s: Stamping, slots: Slots): Aggregate {
    Aggregate(a.metricId, a.task, a.flags, a.format, p.cycleStart, p.cycleEnd, p.dcStart, p.dcEnd,
              l.name, l.unit, l.namespace,
              if l.trace.Trace? then Some(l.trace.traceId) else None,
              if l.trace.Trace? then Some(l.trace.spanId) else None,
              slots.samples, if s == ByCycle then Some(slots.offsets) else None,
              if s == ByTime then Some(slots.times) else None)
  }

  const NO_SLOTS: Slots := Slots([], [], [])

  function GetAggregate(b: bytes): (r: Parsed<Aggregate>) {
    var (start, b1) :- GetStart(b);
    var (span, b2) :- GetSpan(b1);
    var (labels, b3) :- GetLabels(b2, start.flags, span);
    match StampingOf(start.flags)
    case None => Err(PushMetrics.MALFORMED, b3)
    case Some(s) =>
      var (slots, b4) :- GetSlots(b3, start.count, start.format, s, NO_SLOTS);
      Ok(Assemble(start, span, labels, s, slots), b4)
  }

  /** A frame is a whole aggregate and nothing after it. */
  function MetricAggregate(b: bytes): Option<Aggregate> {
    match GetAggregate(b)
    case Ok(a, rest) => if rest == [] then Some(a) else None
    case Err(_, _) => None
  }

  // Which frames are accepted

  /** Where slot number `i` starts. */
  function SlotBase(i: nat, stride: nat): nat {
    i * stride
  }

  lemma NextBase(i: nat, stride: nat)
    ensures SlotBase(i + 1, stride) == SlotBase(i, stride) + stride
    ensures SlotBase(0, stride) == 0
  {
  }

  lemma {:induction false} SlotsLength(b: bytes, left: nat, f: Format, s: Stamping, got: Slots)
    requires Possible(f)
    ensures GetSlots(b, left, f, s, got).Ok? <==> SlotBase(left, f.size + PrefixSize(s)) <= |b|
    ensures var r := GetSlots(b, left, f, s, got);
            r.Ok? ==> && |r.rest| == |b| - SlotBase(left, f.size + PrefixSize(s))
                      && |r.value.samples| == |got.samples| + left
                      && |r.value.offsets| == |got.offsets| + (if s == ByCycle then left else 0)
                      && |r.value.times| == |got.times| + (if s == ByTime then left else 0)
    decreases left
  {
    hide Possible, SampleOf, SlotBase, GetSlot;
    NextBase(0, f.size + PrefixSize(s));
    if left > 0 {
      SlotLength(b, f, s, got);
      NextBase(left - 1, f.size + PrefixSize(s));
      if GetSlot(b, f, s, got).Ok? {
        SlotsLength(GetSlot(b, f, s, got).rest, left - 1, f, s, GetSlot(b, f, s, got).value);
      }
    }
  }

  lemma SlotLength(b: bytes, f: Format, s: Stamping, got: Slots)
    requires Possible(f)
    ensures GetSlot(b, f, s, got).Ok? <==> f.size + PrefixSize(s) <= |b|
    ensures var r := GetSlot(b, f, s, got);
            r.Ok? ==> && |r.value.samples| == |got.samples| + 1
                      && |r.value.offsets| == |got.offsets| + (if s == ByCycle then 1 else 0)
                      && |r.value.times| == |got.times| + (if s == ByTime then 1 else 0)
  {
  }

  /** The length of an accepted frame follows from what it holds, and the vectors are as long as they should be. */
  lemma AcceptedLength(b: bytes)
    requires MetricAggregate(b).Some?
    ensures var a := MetricAggregate(b).value; var s := StampingOf(a.flags);
            && s.Some? && Possible(a.format)
            && |b| == 52 + (if Has(a.flags, HAS_TRACE_CTX) then 24 else 0) + |a.name| + |a.unit|
                      + (if Has(a.flags, HAS_NAMESPACE) then 1 + |a.namespace| else 0)
                      + |a.samples| * (a.format.size + PrefixSize(s.value))
            && (a.traceId.Some? <==> Has(a.flags, HAS_TRACE_CTX)) && (a.spanId.Some? <==> Has(a.flags, HAS_TRACE_CTX))
            && (a.cycleOffsets.Some? <==> Has(a.flags, HAS_SAMPLE_TS))
            && (a.cycleOffsets.Some? ==> |a.cycleOffsets.value| == |a.samples|)
            && (a.dcTimes.Some? <==> Has(a.flags, HAS_SAMPLE_TS_DC))
            && (a.dcTimes.Some? ==> |a.dcTimes.value| == |a.samples|)
  {
    hide GetStart, GetSpan, GetLabels, GetSlots, Possible, Has;
    var start := GetStart(b);
    var span := GetSpan(start.rest);
    var labels := GetLabels(span.rest, start.value.flags, span.value);
    SlotsLength(labels.rest, start.value.count, start.value.format, StampingOf(start.value.flags).value, NO_SLOTS);
  }

  // Writing

  lemma {:induction false} TrimPadding(s: bytes, n: nat)
    requires s == [] || s[|s| - 1] != 0
    ensures Trim(s + Zeros(n)) == s
  {
    var b := s + Zeros(n);
    if n == 0 {
      assert b == s;
    } else {
      assert b[|b| - 1] == 0;
      assert b[..|b| - 1] == s + Zeros(n - 1);
      TrimPadding(s, n - 1);
    }
  }

  lemma {:induction false} TrimUnitPadding(s: seq<u16>, n: nat)
    requires s == [] || s[|s| - 1] != 0
    ensures TrimUnits(s + Repeated<u16>(0, n)) == s
  {
    var b := s + Repeated<u16>(0, n);
    if n == 0 {
      assert b == s;
    } else {
      assert b[|b| - 1] == 0;
      assert b[..|b| - 1] == s + Repeated<u16>(0, n - 1);
      TrimUnitPadding(s, n - 1);
    }
  }

  lemma {:induction false} UnitsOfZeros(n: nat)
    ensures exists k: nat :: Values.Units(Zeros(n)) == Repeated<u16>(0, k)
  {
    if n < 2 {
      assert Values.Units(Zeros(n)) == Repeated<u16>(0, 0);
    } else {
      UnitsOfZeros(n - 2);
      var k: nat :| Values.Units(Zeros(n - 2)) == Repeated<u16>(0, k);
      assert Zeros(n)[2..] == Zeros(n - 2);
      assert Zeros(n)[..2] == Le16(0) by {
        assert Le(2, 0) == [0] + Le(1, 0);
        assert Le(1, 0) == [0] + Le(0, 0);
      }
      assert Values.Units(Zeros(n)) == [0] + Repeated<u16>(0, k) == Repeated<u16>(0, k + 1);
    }
  }

  lemma UnitsCons(x: u16, rest: bytes)
    ensures Values.Units(Le16(x) + rest) == [x] + Values.Units(rest)
  {
    var b := Le16(x) + rest;
    assert b[..2] == Le16(x) && b[2..] == rest;
  }

  lemma {:induction false} UnitsOfPadded(units: seq<u16>, n: nat)
    ensures Values.Units(Values.FromUnits(units) + Zeros(n)) == units + Values.Units(Zeros(n))
  {
    hide Le16, Zeros, Values.Units;
    if units == [] {
      assert Values.FromUnits(units) + Zeros(n) == Zeros(n);
    } else {
      var rest := Values.FromUnits(units[1..]);
      UnitsOfPadded(units[1..], n);
      UnitsCons(units[0], rest + Zeros(n));
      assert Le16(units[0]) + rest + Zeros(n) == Le16(units[0]) + (rest + Zeros(n));
      assert [units[0]] + (units[1..] + Values.Units(Zeros(n))) == units + Values.Units(Zeros(n));
    }
  }

  function FromWords(ws: seq<u64>): (b: bytes)
    ensures |b| == 8 * |ws| && Words(b, |ws|) == ws
  {
    if ws == [] then []
    else
      var b := Le64(ws[0]) + FromWords(ws[1..]);
      assert b[..8] == Le64(ws[0]) && b[8..] == FromWords(ws[1..]);
      b
  }

  /** What a sample of some format can be. Strings are padded with zeros, so they must not end in one. */
  predicate FitsSample(f: Format, s: Sample) {
    match f.schema
    case 1 => s.Flag?
    case 2 => s.Numeric?
    case 3 => s.Discrete? && |s.raw| == f.size
    case 4 => s.Text? && |s.text| <= f.size && Utf8.Valid(s.text) && (s.text == [] || s.text[|s.text| - 1] != 0)
    case 5 => s.Wide? && 2 * |s.units| <= f.size && (s.units == [] || s.units[|s.units| - 1] != 0)
    case 6 => s.Aggregated? && s.mask == f.mask && |s.values| == PopCount(f.mask)
    case _ => false
  }

  function RawOf(f: Format, s: Sample): (raw: bytes)
    requires Possible(f) && FitsSample(f, s)
    ensures |raw| == f.size
  {
    match s
    case Flag(b) => [if b then 1 else 0]
    case Numeric(bits) => Le64(bits)
    case Discrete(raw) => raw
    case Text(text) => text + Zeros(f.size - |text|)
    case Wide(units) => Values.FromUnits(units) + Zeros(f.size - 2 * |units|)
    case Aggregated(_, values) => FromWords(values)
  }

  lemma SampleReadsBack(f: Format, s: Sample)
    requires Possible(f) && FitsSample(f, s)
    ensures SampleOf(f, RawOf(f, s)) == s
  {
    hide PopCount, Trim, TrimUnits, Words, Zeros, Values.Units, Values.FromUnits, FromWords, Utf8.Lossy, Utf8.Valid;
    match s
    case Text(text) =>
      PaddedText(text, f.size - |text|);
    case Wide(units) =>
      PaddedUnits(units, f.size - 2 * |units|);
    case _ =>
  }

  lemma PaddedText(text: bytes, n: nat)
    requires Utf8.Valid(text) && (text == [] || text[|text| - 1] != 0)
    ensures Utf8.Lossy(Trim(text + Zeros(n))) == text
  {
    TrimPadding(text, n);
    Utf8.LossyOfValid(text);
  }

  lemma PaddedUnits(units: seq<u16>, n: nat)
    requires units == [] || units[|units| - 1] != 0
    ensures TrimUnits(Values.Units(Values.FromUnits(units) + Zeros(n))) == units
  {
    hide Values.Units, Values.FromUnits, TrimUnits;
    UnitsOfPadded(units, n);
    UnitsOfZeros(n);
    var k: nat :| Values.Units(Zeros(n)) == Repeated<u16>(0, k);
    TrimUnitPadding(units, k);
  }

  predicate FitsAggregate(a: Aggregate) {
    && Possible(a.format) && |a.samples| < 0x1_0000_0000 && (forall s | s in a.samples :: FitsSample(a.format, s))
    && PushMetrics.Label(a.name) && PushMetrics.Label(a.unit) && PushMetrics.Label(a.namespace)
    && (Has(a.flags, HAS_NAMESPACE) || a.namespace == [])
    && (if Has(a.flags, HAS_TRACE_CTX)
        then a.traceId.Some? && |a.traceId.value| == 16 && a.spanId.Some? && |a.spanId.value| == 8
        else a.traceId.None? && a.spanId.None?)
    && !(Has(a.flags, HAS_SAMPLE_TS) && Has(a.flags, HAS_SAMPLE_TS_DC))
    && (if Has(a.flags, HAS_SAMPLE_TS)
        then a.cycleOffsets.Some? && |a.cycleOffsets.value| == |a.samples| else a.cycleOffsets.None?)
    && (if Has(a.flags, HAS_SAMPLE_TS_DC) then a.dcTimes.Some? && |a.dcTimes.value| == |a.samples| else a.dcTimes.None?)
  }

  /** The stamps of an aggregate, one for each sample if there are any. */
  datatype Stamps = None_ | Offsets(offsets: seq<u16>) | Times(times: seq<i64>)

  predicate Stamped(st: Stamps, n: nat) {
    match st
    case None_ => true
    case Offsets(xs) => |xs| == n
    case Times(xs) => |xs| == n
  }

  function Kind(st: Stamps): Stamping {
    match st
    case None_ => Unstamped
    case Offsets(_) => ByCycle
    case Times(_) => ByTime
  }

  function PutStamp(st: Stamps, i: nat, t: bytes): bytes
    requires st.Offsets? ==> i < |st.offsets|
    requires st.Times? ==> i < |st.times|
  {
    match st
    case None_ => t
    case Offsets(xs) => PutU16(xs[i], t)
    case Times(xs) => PutI64(xs[i], t)
  }

  /** The slots from number `i` on. */
  function PutSlots(f: Format, ss: seq<Sample>, st: Stamps, i: nat, t: bytes): bytes
    requires Possible(f) && i <= |ss| && Stamped(st, |ss|) && forall s | s in ss :: FitsSample(f, s)
    decreases |ss| - i
  {
    if i == |ss| then t
    else PutStamp(st, i, Put(RawOf(f, ss[i]), PutSlots(f, ss, st, i + 1, t)))
  }

  /** The vectors after the first `i` slots. */
  function Filled(ss: seq<Sample>, st: Stamps, i: nat): Slots
    requires i <= |ss| && Stamped(st, |ss|)
  {
    Slots(ss[..i], if st.Offsets? then st.offsets[..i] else [], if st.Times? then st.times[..i] else [])
  }

  lemma SlotReadsBack(f: Format, ss: seq<Sample>, st: Stamps, i: nat, t: bytes)
    requires Possible(f) && i < |ss| && Stamped(st, |ss|) && FitsSample(f, ss[i])
    ensures GetSlot(PutStamp(st, i, Put(RawOf(f, ss[i]), t)), f, Kind(st), Filled(ss, st, i))
            == Ok(Filled(ss, st, i + 1), t)
  {
    hide PutU16, GetU16, PutI64, GetI64, Put, Take, Tail, Possible, FitsSample, SampleOf, RawOf;
    SampleReadsBack(f, ss[i]);
    assert ss[..i] + [ss[i]] == ss[..i + 1];
    assert st.Offsets? ==> st.offsets[..i] + [st.offsets[i]] == st.offsets[..i + 1];
    assert st.Times? ==> st.times[..i] + [st.times[i]] == st.times[..i + 1];
  }

  lemma {:induction false} SlotsReadBack(f: Format, ss: seq<Sample>, st: Stamps, i: nat, t: bytes)
    requires Possible(f) && i <= |ss| && Stamped(st, |ss|) && forall s | s in ss :: FitsSample(f, s)
    ensures GetSlots(PutSlots(f, ss, st, i, t), |ss| - i, f, Kind(st), Filled(ss, st, i)) == Ok(Filled(ss, st, |ss|), t)
    decreases |ss| - i
  {
    hide Possible, FitsSample, GetSlot, PutStamp, Put, RawOf, Filled;
    if i < |ss| {
      SlotReadsBack(f, ss, st, i, PutSlots(f, ss, st, i + 1, t));
      SlotsReadBack(f, ss, st, i + 1, t);
    }
  }

  function PutStart(x: Start, t: bytes): (r: bytes)
    ensures Possible(x.format) ==> GetStart(r) == Ok(x, t)
  {
    hide Tail, Possible;
    PutU8(PushMetrics.PUSH_WIRE_VERSION, PutU8(PushMetrics.PUSH_METRIC_AGG_EVENT_TYPE,
      PutU8(x.flags, PutU8(x.format.schema,
      PutU32(x.format.size, PutU32(x.count, PutU32(x.metricId, PutU8(x.task, PutU8(x.format.mask,
      Put([0, 0], t))))))))))
  }

  function PutSpan(x: Span, t: bytes): (r: bytes)
    ensures GetSpan(r) == Ok(x, t)
  {
    hide Tail;
    PutU32(x.cycleStart, PutU32(x.cycleEnd, Put([0, 0, 0, 0], PutI64(x.dcStart, PutI64(x.dcEnd,
      PutU8(x.name, PutU8(x.unit, Put([0, 0], t))))))))
  }

  function PutTraceContext(x: Trace, t: bytes): (r: bytes)
    requires x.Trace? ==> |x.traceId| == 16 && |x.spanId| == 8
    ensures GetTraceContext(r, x.Trace?) == Ok(x, t)
  {
    hide Tail;
    match x
    case NoTrace => t
    case Trace(traceId, spanId) => Put(traceId, Put(spanId, t))
  }

  function PutNamespace(s: bytes, present: bool, t: bytes): (r: bytes)
    requires PushMetrics.Label(s) && (present || s == [])
    ensures GetNamespace(r, present) == Ok(s, t)
  {
    hide Tail, Utf8.Valid;
    if present then PutU8(|s|, PutStrict(s, t)) else t
  }

  function StartOf(a: Aggregate): Start
    requires FitsAggregate(a)
  {
    Start(a.flags, a.format, |a.samples|, a.metricId, a.task)
  }

  function SpanOf(a: Aggregate): Span
    requires FitsAggregate(a)
  {
    Span(a.cycleStart, a.cycleEnd, a.dcStart, a.dcEnd, |a.name|, |a.unit|)
  }

  function TraceOf(a: Aggregate): Trace {
    if a.traceId.Some? && a.spanId.Some? then Trace(a.traceId.value, a.spanId.value) else NoTrace
  }

  function StampsOf(a: Aggregate): Stamps {
    if a.cycleOffsets.Some? then Offsets(a.cycleOffsets.value)
    else if a.dcTimes.Some? then Times(a.dcTimes.value)
    else None_
  }

  function PutLabels(a: Aggregate, t: bytes): (r: bytes)
    requires FitsAggregate(a)
    ensures GetLabels(r, a.flags, SpanOf(a)) == Ok(Labels(TraceOf(a), a.name, a.unit, a.namespace), t)
  {
    hide Tail, Utf8.Valid, Has, Possible, FitsSample, GetTraceContext, GetStrict, GetNamespace;
    PutTraceContext(TraceOf(a), PutStrict(a.name, PutStrict(a.unit,
      PutNamespace(a.namespace, Has(a.flags, HAS_NAMESPACE), t))))
  }

  function PutAggregate(a: Aggregate, t: bytes): bytes
    requires FitsAggregate(a)
  {
    hide Tail, Utf8.Valid, Has, Possible, FitsSample;
    PutStart(StartOf(a), PutSpan(SpanOf(a), PutLabels(a, PutSlots(a.format, a.samples, StampsOf(a), 0, t))))
  }

  /** Every aggregate, of every schema and under every legal combination of flags, is read back, and refused
      if anything follows it. */
  lemma AggregateReadsBack(a: Aggregate, extra: bytes)
    requires FitsAggregate(a)
    ensures MetricAggregate(PutAggregate(a, extra)) == if extra == [] then Some(a) else None
  {
    hide PutStart, GetStart, PutSpan, GetSpan, PutLabels, GetLabels;
    hide PutSlots, GetSlots, Utf8.Valid, Has, Possible, FitsSample, Tail;
    var st, n := StampsOf(a), |a.samples|;
    SlotsReadBack(a.format, a.samples, st, 0, extra);
    assert Filled(a.samples, st, 0) == NO_SLOTS;
    assert a.samples[..n] == a.samples;
    assert st.Offsets? ==> st.offsets[..n] == st.offsets;
    assert st.Times? ==> st.times[..n] == st.times;
  }

  // Reading by offset

  lemma StartByIndex(b: bytes)
    requires |b| >= 52
    ensures var f := Format(b[3], U32(b[4..8]), b[17]);
            if b[0] != PushMetrics.PUSH_WIRE_VERSION || b[1] != PushMetrics.PUSH_METRIC_AGG_EVENT_TYPE || !Possible(f)
            then GetStart(b).Err?
            else GetStart(b) == Ok(Start(b[2], f, U32(b[8..12]), U32(b[12..16]), b[16]), b[20..])
  {
    hide GetU8, GetU32, Take, Possible, U32;
    assert b[0..] == b;
    ByteAt(b, 0);
    ByteAt(b, 1);
    ByteAt(b, 2);
    ByteAt(b, 3);
    U32At(b, 4);
    U32At(b, 8);
    U32At(b, 12);
    ByteAt(b, 16);
    ByteAt(b, 17);
    TakeAt(b, 18, 2);
  }

  lemma SpanByIndex(b: bytes)
    requires |b| >= 52
    ensures GetSpan(b[20..])
            == Ok(Span(U32(b[20..24]), U32(b[24..28]), I64(b[32..40]), I64(b[40..48]), b[48], b[49]), b[52..])
  {
    hide GetU8, GetU32, GetI64, Take, U32, I64;
    U32At(b, 20);
    U32At(b, 24);
    TakeAt(b, 28, 4);
    I64At(b, 32);
    I64At(b, 40);
    ByteAt(b, 48);
    ByteAt(b, 49);
    TakeAt(b, 50, 2);
  }

  /** Where name, unit, the length byte of the namespace and the slots begin, by the bytes of the frame. */
  function NameAt(b: bytes): nat
    requires |b| >= 52
  {
    52 + (if Has(b[2], HAS_TRACE_CTX) then 24 else 0)
  }

  function UnitAt(b: bytes): nat
    requires |b| >= 52
  {
    NameAt(b) + b[48]
  }

  function UnitEnd(b: bytes): nat
    requires |b| >= 52
  {
    UnitAt(b) + b[49]
  }

  function BodyAt(b: bytes): nat
    requires |b| >= 52
  {
    UnitEnd(b) + (if Has(b[2], HAS_NAMESPACE) && UnitEnd(b) < |b| then 1 + b[UnitEnd(b)] as nat else 0)
  }

  /** Name, unit and, if there is one, namespace lie inside the frame and are well-formed text. */
  predicate WellLabelled(b: bytes)
    requires |b| >= 52
  {
    && UnitEnd(b) <= BodyAt(b) <= |b|
    && Utf8.Valid(b[NameAt(b)..UnitAt(b)]) && Utf8.Valid(b[UnitAt(b)..UnitEnd(b)])
    && (Has(b[2], HAS_NAMESPACE) ==> UnitEnd(b) < |b| && Utf8.Valid(b[UnitEnd(b) + 1..BodyAt(b)]))
  }

  lemma StrictAt(b: bytes, i: nat, n: nat)
    requires i <= |b|
    ensures GetStrict(b[i..], n).Ok? <==> i + n <= |b| && Utf8.Valid(b[i..i + n])
    ensures GetStrict(b[i..], n).Ok? ==> GetStrict(b[i..], n) == Ok(b[i..i + n], b[i + n..])
  {
    hide Utf8.Valid;
    TakeAt(b, i, n);
  }

  lemma TraceContextAt(b: bytes, present: bool)
    requires |b| >= 52
    ensures var n := if present then 24 else 0;
            var r := GetTraceContext(b[52..], present);
            (r.Ok? <==> 52 + n <= |b|) && (r.Ok? ==> r.rest == b[52 + n..])
  {
    hide Take;
    if present {
      TakeAt(b, 52, 16);
      if 68 <= |b| {
        TakeAt(b, 68, 8);
      }
    }
  }

  lemma NamespaceIff(b: bytes, i: nat, present: bool)
    requires i <= |b|
    ensures var r := GetNamespace(b[i..], present);
            var end := i + (if present && i < |b| then 1 + b[i] as nat else 0);
            && (r.Ok? <==> end <= |b| && (present ==> i < |b| && Utf8.Valid(b[i + 1..end])))
            && (r.Ok? ==> r.rest == b[end..])
  {
    hide GetStrict, Utf8.Valid;
    if present && i < |b| {
      ByteAt(b, i);
      StrictAt(b, i + 1, b[i]);
    }
  }

  lemma LabelsIff(b: bytes, p: Span)
    requires |b| >= 52 && p.name == b[48] && p.unit == b[49]
    ensures var r := GetLabels(b[52..], b[2], p);
            (r.Ok? <==> WellLabelled(b)) && (r.Ok? ==> r.rest == b[BodyAt(b)..])
  {
    hide GetTraceContext, GetStrict, GetNamespace, Utf8.Valid, Has;
    TraceContextAt(b, Has(b[2], HAS_TRACE_CTX));
    if NameAt(b) <= |b| {
      StrictAt(b, NameAt(b), b[48]);
      if UnitAt(b) <= |b| {
        StrictAt(b, UnitAt(b), b[49]);
        if UnitEnd(b) <= |b| {
          NamespaceIff(b, UnitEnd(b), Has(b[2], HAS_NAMESPACE));
        }
      }
    }
  }

  /** Bytes before each sample: two for a cycle offset, eight for a time. */
  function StampSize(flags: byte): nat {
    if flags % 8 >= 4 then 2 else if flags % 32 >= 16 then 8 else 0
  }

  lemma StampSizeIs(flags: byte)
    ensures StampingOf(flags).None? <==> flags % 8 >= 4 && flags % 32 >= 16
    ensures StampingOf(flags).Some? ==> PrefixSize(StampingOf(flags).value) == StampSize(flags)
  {
    hide Has;
    FlagBits(flags);
  }

  /** Exactly which frames are accepted: version and type, a possible format, not both kinds of stamp, well-formed
      labels, and after them precisely the bytes of the announced slots. */
  lemma AcceptedIff(b: bytes)
    ensures MetricAggregate(b).Some? <==>
            && |b| >= 52
            && b[0] == 2 && b[1] == 21
            && Possible(Format(b[3], U32(b[4..8]), b[17]))
            && !(b[2] % 8 >= 4 && b[2] % 32 >= 16)
            && WellLabelled(b)
            && |b| == BodyAt(b) + U32(b[8..12]) * (U32(b[4..8]) + StampSize(b[2]))
  {
    hide GetStart, GetSpan, GetLabels, GetSlots, Possible, U32, I64, WellLabelled, BodyAt, Assemble;
    hide StampingOf, StampSize, PrefixSize;
    if |b| < 52 {
      TooShort(b);
    } else {
      StampSizeIs(b[2]);
      StartByIndex(b);
      SpanByIndex(b);
      var f, count := Format(b[3], U32(b[4..8]), b[17]), U32(b[8..12]);
      LabelsIff(b, Span(U32(b[20..24]), U32(b[24..28]), I64(b[32..40]), I64(b[40..48]), b[48], b[49]));
      if Possible(f) && StampingOf(b[2]).Some? && WellLabelled(b) {
        BodyInside(b);
        SlotsLength(b[BodyAt(b)..], count, f, StampingOf(b[2]).value, NO_SLOTS);
      }
    }
  }

  lemma BodyInside(b: bytes)
    requires |b| >= 52 && WellLabelled(b)
    ensures BodyAt(b) <= |b|
  {
  }

  lemma TooShort(b: bytes)
    requires |b| < 52
    ensures GetAggregate(b).Err?
  {
    hide GetStart, GetSpan;
  }

  method TraceAt(b: bytes, offset: nat, present: bool) returns (r: Option<(Trace, nat)>)
    requires offset <= |b|
    ensures PushMetrics.Agrees(r, GetTraceContext(b[offset..], present), b)
  {
    if !present {
      return Some((NoTrace, offset));
    }
    TakeAt(b, offset, 16);
    if |b| < offset + 24 {
      return None;
    }
    TakeAt(b, offset + 16, 8);
    r := Some((Trace(b[offset..offset + 16], b[offset + 16..offset + 24]), offset + 24));
  }

  method NamespaceAt(b: bytes, offset: nat, present: bool) returns (r: Option<(bytes, nat)>)
    requires offset <= |b|
    ensures PushMetrics.Agrees(r, GetNamespace(b[offset..], present), b)
  {
    hide GetStrict;
    if !present {
      return Some(([], offset));
    }
    if |b| < offset + 1 {
      return None;
    }
    ByteAt(b, offset);
    var s :- PushMetrics.TextAt(b, offset + 1, b[offset]);
    r := Some((s, offset + 1 + b[offset]));
  }

  /** Drops zero units from the end. */
  method PopZeros(units0: seq<u16>) returns (units: seq<u16>)
    ensures units == TrimUnits(units0)
  {
    units := units0;
    while units != [] && units[|units| - 1] == 0
      invariant TrimUnits(units) == TrimUnits(units0)
    {
      units := units[..|units| - 1];
    }
  }

  method ReadStats(slot: bytes, n: nat) returns (values: seq<u64>)
    requires 8 * n <= |slot|
    ensures values == Words(slot, n)
  {
    values := [];
    for k := 0 to n
      invariant values + Words(slot[k * 8..], n - k) == Words(slot, n)
    {
      assert slot[k * 8..][..8] == slot[k * 8..k * 8 + 8] && slot[k * 8..][8..] == slot[(k + 1) * 8..];
      values := values + [U64(slot[k * 8..k * 8 + 8])];
    }
  }

  method DecodeSample(f: Format, slot: bytes) returns (s: Sample)
    requires Possible(f) && |slot| == f.size
    ensures s == SampleOf(f, slot)
  {
    match f.schema
    case 1 =>
      s := Flag(slot[0] != 0);
    case 2 =>
      s := Numeric(U64(slot));
    case 3 =>
      s := Discrete(slot);
    case 4 =>
      s := Text(Utf8.Lossy(Trim(slot)));
    case 5 =>
      var units := PopZeros(Values.Units(slot));
      s := Wide(units);
    case 6 =>
      var values := ReadStats(slot, PopCount(f.mask));
      s := Aggregated(f.mask, values);
  }

  lemma SlotByIndex(body: bytes, base: nat, f: Format, s: Stamping, got: Slots)
    requires Possible(f) && base + PrefixSize(s) + f.size <= |body|
    ensures var v := base + PrefixSize(s);
            var stamped := match s
                           case Unstamped => got
                           case ByCycle => got.(offsets := got.offsets + [U16(body[base..base + 2])])
                           case ByTime => got.(times := got.times + [I64(body[base..base + 8])]);
            GetSlot(body[base..], f, s, got)
            == Ok(stamped.(samples := stamped.samples + [SampleOf(f, body[v..v + f.size])]), body[v + f.size..])
  {
    hide GetU16, GetI64, Take, SampleOf, Possible;
    match s {
      case Unstamped =>
      case ByCycle => U16At(body, base);
      case ByTime => I64At(body, base);
    }
    TakeAt(body, base + PrefixSize(s), f.size);
  }

  lemma {:induction false} BaseFits(i: nat, count: nat, stride: nat)
    requires i <= count
    ensures SlotBase(i, stride) <= SlotBase(count, stride)
    decreases count - i
  {
    hide SlotBase;
    if i < count {
      NextBase(i, stride);
      BaseFits(i + 1, count, stride);
    }
  }

  method DecodeSlots(body: bytes, count: nat, f: Format, s: Stamping) returns (slots: Slots)
    requires Possible(f) && |body| == SlotBase(count, f.size + PrefixSize(s))
    ensures GetSlots(body, count, f, s, NO_SLOTS) == Ok(slots, [])
  {
    hide GetSlot, SampleOf, Possible, SlotBase;
    var prefix := PrefixSize(s);
    var stride: nat := f.size + prefix;
    slots := NO_SLOTS;
    NextBase(0, stride);
    assert body[0..] == body;
    for i := 0 to count
      invariant SlotBase(i, stride) <= |body|
      invariant GetSlots(body[SlotBase(i, stride)..], count - i, f, s, slots) == GetSlots(body, count, f, s, NO_SLOTS)
    {
      NextBase(i, stride);
      BaseFits(i + 1, count, stride);
      var base := SlotBase(i, stride);
      SlotByIndex(body, base, f, s, slots);
      if s == ByCycle {
        slots := slots.(offsets := slots.offsets + [U16(body[base..base + 2])]);
      } else if s == ByTime {
        slots := slots.(times := slots.times + [I64(body[base..base + 8])]);
      }
      var value := base + prefix;
      var sample := DecodeSample(f, body[value..value + f.size]);
      slots := slots.(samples := slots.samples + [sample]);
    }
    assert body[|body|..] == [];
  }

  method LabelsAt(b: bytes, start: nat, flags: byte, p: Span) returns (r: Option<(Labels, nat)>)
    requires start <= |b|
    ensures PushMetrics.Agrees(r, GetLabels(b[start..], flags, p), b)
  {
    hide GetTraceContext, GetStrict, GetNamespace, Has;
    var trace :- TraceAt(b, start, Has(flags, HAS_TRACE_CTX));
    var offset: nat := trace.1;
    var name :- PushMetrics.TextAt(b, offset, p.name);
    offset := offset + p.name;
    var unit :- PushMetrics.TextAt(b, offset, p.unit);
    offset := offset + p.unit;
    var namespace :- NamespaceAt(b, offset, Has(flags, HAS_NAMESPACE));
    r := Some((Labels(trace.0, name, unit, namespace.0), namespace.1));
  }

  method DecodeMetricAggregate(b: bytes) returns (r: Option<Aggregate>)
    ensures r == MetricAggregate(b)
  {
    hide GetStart, GetSpan, GetLabels, GetSlots, Possible, Has, Assemble, SlotBase, U32, I64, StampingOf;
    if |b| < 52 {
      TooShort(b);
      return None;
    }
    StartByIndex(b);
    SpanByIndex(b);
    var f := Format(b[3], U32(b[4..8]), b[17]);
    if b[0] != PushMetrics.PUSH_WIRE_VERSION || b[1] != PushMetrics.PUSH_METRIC_AGG_EVENT_TYPE || !Possible(f) {
      return None;
    }
    var start := Start(b[2], f, U32(b[8..12]), U32(b[12..16]), b[16]);
    var span := Span(U32(b[20..24]), U32(b[24..28]), I64(b[32..40]), I64(b[40..48]), b[48], b[49]);
    var labels :- LabelsAt(b, 52, start.flags, span);
    var offset := labels.1;
    var stamping :- StampingOf(start.flags);
    var length := SlotBase(start.count, f.size + PrefixSize(stamping));
    SlotsLength(b[offset..], start.count, f, stamping, NO_SLOTS);
    if |b| < offset + length {
      return None;
    }
    if offset + length != |b| {
      return None;
    }
    assert b[offset..offset + length] == b[offset..];
    var slots := DecodeSlots(b[offset..offset + length], start.count, f, stamping);
    r := Some(Assemble(start, span, labels.0, stamping, slots));
  }
}
