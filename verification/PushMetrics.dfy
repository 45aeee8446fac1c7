/** Push-metric frames (crates/tc-otel-ads/src/diagnostics_push.rs): what a frame means field by field, and
    the decoders, which work with offsets into the frame. */
module PushMetrics {
  import opened Bytes
  import opened Wire
  import Utf8

  const PUSH_WIRE_VERSION: byte := 2
  const PUSH_METRIC_EVENT_TYPE: byte := 20
  const PUSH_METRIC_AGG_EVENT_TYPE: byte := 21
  const MAX_DESCRIPTOR_ATTRIBUTES: nat := 8

  /** These decoders give no reason when they refuse a frame. */
  const MALFORMED: Error := InvalidType(0)

  // Descriptors

  datatype Descriptor = Descriptor(
    metricId: u16, kind: byte, flags: byte, name: bytes, unit: bytes, description: bytes, namespace: bytes,
    attributes: seq<(bytes, bytes)>, bounds: Option<seq<u32>>)

  datatype DescriptorHead = DescriptorHead(
    metricId: u16, kind: byte, flags: byte, name: byte, unit: byte, description: byte, attributes: byte, buckets: byte,
    namespace: byte)

  function GetDescriptorHead(b: bytes): (r: Parsed<DescriptorHead>)
    ensures |r.rest| <= |b| && (r.Ok? ==> |r.rest| == |b| - 12)
  {
    var (metricId, b1) :- GetU16(b);
    var (kind, b2) :- GetU8(b1);
    var (flags, b3) :- GetU8(b2);
    var (name, b4) :- GetU8(b3);
    var (unit, b5) :- GetU8(b4);
    var (description, b6) :- GetU8(b5);
    var (attributes, b7) :- GetU8(b6);
    var (buckets, b8) :- GetU8(b7);
    var (namespace, b9) :- GetU8(b8);
    var (_, b10) :- Take(b9, 2);
    Ok(DescriptorHead(metricId, kind, flags, name, unit, description, attributes, buckets, namespace), b10)
  }

  function GetPair(b: bytes): (r: Parsed<(bytes, bytes)>)
    ensures |r.rest| <= |b|
  {
    var (key, b1) :- GetU8(b);
    var (value, b2) :- GetU8(b1);
    var (k, b3) :- GetStrict(b2, key);
    var (v, b4) :- GetStrict(b3, value);
    Ok((k, v), b4)
  }

  function GetPairs(b: bytes, left: nat, got: seq<(bytes, bytes)>): (r: Parsed<seq<(bytes, bytes)>>)
    ensures |r.rest| <= |b|
    decreases left
  {
    if left == 0 then Ok(got, b)
    else
      var (p, t) :- GetPair(b);
      GetPairs(t, left - 1, got + [p])
  }

  function GetFloats(b: bytes, left: nat, got: seq<u32>): (r: Parsed<seq<u32>>)
    ensures |r.rest| <= |b|
    decreases left
  {
    if left == 0 then Ok(got, b)
    else
      var (x, t) :- GetU32(b);
      GetFloats(t, left - 1, got + [x])
  }

  function GetBounds(b: bytes, kind: byte, buckets: byte): (r: Parsed<Option<seq<u32>>>)
    ensures |r.rest| <= |b|
  {
    if kind == 2 && buckets > 0 then
      var (bounds, t) :- GetFloats(b, buckets, []);
      Ok(Some(bounds), t)
    else Ok(None, b)
  }

  function GetDescriptor(b: bytes): (r: Parsed<Descriptor>)
    ensures |r.rest| <= |b|
  {
    var (h, b0) :- GetDescriptorHead(b);
    if h.attributes as nat > MAX_DESCRIPTOR_ATTRIBUTES then Err(MALFORMED, b0)
    else
      var (name, b1) :- GetStrict(b0, h.name);
      var (unit, b2) :- GetStrict(b1, h.unit);
      var (description, b3) :- GetStrict(b2, h.description);
      var (attributes, b4) :- GetPairs(b3, h.attributes, []);
      var (bounds, b5) :- GetBounds(b4, h.kind, h.buckets);
      var (namespace, b6) :- GetStrict(b5, h.namespace);
      Ok(Descriptor(h.metricId, h.kind, h.flags, name, unit, description, namespace, attributes, bounds), b6)
  }

  // Batches of descriptors and samples

  datatype MetricSample = MetricSample(metricId: u16, flags: byte, dcTime: i64, value: u32)

  datatype Batch = Batch(
    window: u16, cycle: u32, dcStart: i64, dcEnd: i64, descriptors: seq<Descriptor>, samples: seq<MetricSample>)

  datatype BatchHead = BatchHead(descriptors: u16, samples: u16, window: u16, cycle: u32, dcStart: i64, dcEnd: i64)

  function GetBatchHead(b: bytes): (r: Parsed<BatchHead>)
    ensures |r.rest| <= |b| && (r.Ok? ==> |r.rest| == |b| - 32)
  {
    var (version, b1) :- GetU8(b);
    var (kind, b2) :- GetU8(b1);
    if version != PUSH_WIRE_VERSION || kind != PUSH_METRIC_EVENT_TYPE then Err(MALFORMED, b2)
    else
      var (_, b3) :- Take(b2, 2);
      var (descriptors, b4) :- GetU16(b3);
      var (samples, b5) :- GetU16(b4);
      var (window, b6) :- GetU16(b5);
      var (_, b7) :- Take(b6, 2);
      var (cycle, b8) :- GetU32(b7);
      var (dcStart, b9) :- GetI64(b8);
      var (dcEnd, b10) :- GetI64(b9);
      Ok(BatchHead(descriptors, samples, window, cycle, dcStart, dcEnd), b10)
  }

  function GetDescriptors(b: bytes, left: nat, got: seq<Descriptor>): (r: Parsed<seq<Descriptor>>)
    ensures |r.rest| <= |b|
    decreases left
  {
    if left == 0 then Ok(got, b)
    else
      var (d, t) :- GetDescriptor(b);
      GetDescriptors(t, left - 1, got + [d])
  }

  function GetSample(b: bytes): (r: Parsed<MetricSample>)
    ensures |r.rest| <= |b|
  {
    var (metricId, b1) :- GetU16(b);
    var (flags, b2) :- GetU8(b1);
    var (_, b3) :- GetU8(b2);
    var (dcTime, b4) :- GetI64(b3);
    var (value, b5) :- GetU32(b4);
    Ok(MetricSample(metricId, flags, dcTime, value), b5)
  }

  function GetSamples(b: bytes, left: nat, got: seq<MetricSample>): (r: Parsed<seq<MetricSample>>)
    ensures |r.rest| <= |b|
    decreases left
  {
    if left == 0 then Ok(got, b)
    else
      var (s, t) :- GetSample(b);
      GetSamples(t, left - 1, got + [s])
  }

  function GetBatch(b: bytes): (r: Parsed<Batch>)
    ensures |r.rest| <= |b|
  {
    var (h, b1) :- GetBatchHead(b);
    var (descriptors, b2) :- GetDescriptors(b1, h.descriptors, []);
    var (samples, b3) :- GetSamples(b2, h.samples, []);
    Ok(Batch(h.window, h.cycle, h.dcStart, h.dcEnd, descriptors, samples), b3)
  }

  /** A frame is a whole batch and nothing after it. */
  function MetricBatch(b: bytes): Option<Batch> {
    match GetBatch(b)
    case Ok(batch, rest) => if rest == [] then Some(batch) else None
    case Err(_, _) => None
  }

  // Writing descriptors and batches

  predicate Label(s: bytes) {
    |s| < 256 && Utf8.Valid(s)
  }

  predicate FitsPair(p: (bytes, bytes)) {
    Label(p.0) && Label(p.1)
  }

  predicate FitsDescriptor(d: Descriptor) {
    && Label(d.name) && Label(d.unit) && Label(d.description) && Label(d.namespace)
    && |d.attributes| <= MAX_DESCRIPTOR_ATTRIBUTES && (forall p | p in d.attributes :: FitsPair(p))
    && (d.bounds.Some? ==> d.kind == 2 && 0 < |d.bounds.value| < 256)
  }

  function PutDescriptorHead(h: DescriptorHead, t: bytes): (r: bytes)
    ensures GetDescriptorHead(r) == Ok(h, t)
  {
    hide Tail;
    PutU16(h.metricId, PutU8(h.kind, PutU8(h.flags, PutU8(h.name, PutU8(h.unit, PutU8(h.description,
      PutU8(h.attributes, PutU8(h.buckets, PutU8(h.namespace, Put([0, 0], t))))))))))
  }

  function PutPair(p: (bytes, bytes), t: bytes): (r: bytes)
    requires FitsPair(p)
    ensures GetPair(r) == Ok(p, t)
  {
    hide Tail, Utf8.Valid;
    PutU8(|p.0|, PutU8(|p.1|, PutStrict(p.0, PutStrict(p.1, t))))
  }

  function PutPairs(ps: seq<(bytes, bytes)>, t: bytes): bytes
    requires forall p | p in ps :: FitsPair(p)
  {
    if ps == [] then t else PutPair(ps[0], PutPairs(ps[1..], t))
  }

  lemma {:induction false} PairsReadBack(ps: seq<(bytes, bytes)>, got: seq<(bytes, bytes)>, t: bytes)
    requires forall p | p in ps :: FitsPair(p)
    ensures GetPairs(PutPairs(ps, t), |ps|, got) == Ok(got + ps, t)
    decreases |ps|
  {
    hide FitsPair, PutPair, GetPair;
    if ps == [] {
      assert got + ps == got;
    } else {
      PairsReadBack(ps[1..], got + [ps[0]], t);
      assert got + [ps[0]] + ps[1..] == got + ps;
    }
  }

  function PutFloats(xs: seq<u32>, t: bytes): bytes {
    if xs == [] then t else PutU32(xs[0], PutFloats(xs[1..], t))
  }

  lemma {:induction false} FloatsReadBack(xs: seq<u32>, got: seq<u32>, t: bytes)
    ensures GetFloats(PutFloats(xs, t), |xs|, got) == Ok(got + xs, t)
    decreases |xs|
  {
    hide PutU32, GetU32, Tail;
    if xs == [] {
      assert got + xs == got;
    } else {
      FloatsReadBack(xs[1..], got + [xs[0]], t);
      assert got + [xs[0]] + xs[1..] == got + xs;
    }
  }

  function Buckets(d: Descriptor): byte
    requires FitsDescriptor(d)
  {
    if d.bounds.Some? then |d.bounds.value| else 0
  }

  function PutBounds(d: Descriptor, t: bytes): (r: bytes)
    requires FitsDescriptor(d)
    ensures GetBounds(r, d.kind, Buckets(d)) == Ok(d.bounds, t)
  {
    match d.bounds
    case None => t
    case Some(xs) =>
      FloatsReadBack(xs, [], t);
      assert [] + xs == xs;
      PutFloats(xs, t)
  }

  function HeadOf(d: Descriptor): DescriptorHead
    requires FitsDescriptor(d)
  {
    DescriptorHead(d.metricId, d.kind, d.flags, |d.name|, |d.unit|, |d.description|, |d.attributes|,
                   Buckets(d), |d.namespace|)
  }

  function PutDescriptor(d: Descriptor, t: bytes): bytes
    requires FitsDescriptor(d)
  {
    hide Utf8.Valid, Buckets;
    PutDescriptorHead(HeadOf(d), PutStrict(d.name, PutStrict(d.unit, PutStrict(d.description,
      PutPairs(d.attributes, PutBounds(d, PutStrict(d.namespace, t)))))))
  }

  /** A descriptor can be read off the front of any bytes that start with it. */
  lemma DescriptorReadsBack(d: Descriptor, t: bytes)
    requires FitsDescriptor(d)
    ensures GetDescriptor(PutDescriptor(d, t)) == Ok(d, t)
  {
    hide PutDescriptorHead, GetDescriptorHead, PutStrict, GetStrict, PutPairs, GetPairs, PutBounds, GetBounds;
    hide Utf8.Valid, Buckets, FitsPair;
    PairsReadBack(d.attributes, [], PutBounds(d, PutStrict(d.namespace, t)));
    assert [] + d.attributes == d.attributes;
  }

  function PutDescriptors(ds: seq<Descriptor>, t: bytes): bytes
    requires forall d | d in ds :: FitsDescriptor(d)
  {
    if ds == [] then t else PutDescriptor(ds[0], PutDescriptors(ds[1..], t))
  }

  lemma {:induction false} DescriptorsReadBack(ds: seq<Descriptor>, got: seq<Descriptor>, t: bytes)
    requires forall d | d in ds :: FitsDescriptor(d)
    ensures GetDescriptors(PutDescriptors(ds, t), |ds|, got) == Ok(got + ds, t)
    decreases |ds|
  {
    hide FitsDescriptor, PutDescriptor, GetDescriptor;
    if ds == [] {
      assert got + ds == got;
    } else {
      DescriptorReadsBack(ds[0], PutDescriptors(ds[1..], t));
      DescriptorsReadBack(ds[1..], got + [ds[0]], t);
      assert got + [ds[0]] + ds[1..] == got + ds;
    }
  }

  function PutSample(s: MetricSample, t: bytes): (r: bytes)
    ensures GetSample(r) == Ok(s, t)
  {
    hide Tail;
    PutU16(s.metricId, PutU8(s.flags, PutU8(0, PutI64(s.dcTime, PutU32(s.value, t)))))
  }

  function PutSamples(ss: seq<MetricSample>, t: bytes): bytes {
    if ss == [] then t else PutSample(ss[0], PutSamples(ss[1..], t))
  }

  lemma {:induction false} SamplesReadBack(ss: seq<MetricSample>, got: seq<MetricSample>, t: bytes)
    ensures GetSamples(PutSamples(ss, t), |ss|, got) == Ok(got + ss, t)
    decreases |ss|
  {
    hide PutSample, GetSample;
    if ss == [] {
      assert got + ss == got;
    } else {
      SamplesReadBack(ss[1..], got + [ss[0]], t);
      assert got + [ss[0]] + ss[1..] == got + ss;
    }
  }

  predicate FitsBatch(x: Batch) {
    |x.descriptors| < 0x1_0000 && |x.samples| < 0x1_0000 && forall d | d in x.descriptors :: FitsDescriptor(d)
  }

  function PutBatchHead(h: BatchHead, t: bytes): (r: bytes)
    ensures GetBatchHead(r) == Ok(h, t)
  {
    hide Tail;
    PutU8(PUSH_WIRE_VERSION, PutU8(PUSH_METRIC_EVENT_TYPE, Put([0, 0], PutU16(h.descriptors, PutU16(h.samples,
      PutU16(h.window, Put([0, 0], PutU32(h.cycle, PutI64(h.dcStart, PutI64(h.dcEnd, t))))))))))
  }

  function PutBatch(x: Batch, t: bytes): bytes
    requires FitsBatch(x)
  {
    hide FitsDescriptor;
    PutBatchHead(BatchHead(|x.descriptors|, |x.samples|, x.window, x.cycle, x.dcStart, x.dcEnd),
      PutDescriptors(x.descriptors, PutSamples(x.samples, t)))
  }

  /** Every batch is read back, and refused if anything follows it. */
  lemma BatchReadsBack(x: Batch, extra: bytes)
    requires FitsBatch(x)
    ensures MetricBatch(PutBatch(x, extra)) == if extra == [] then Some(x) else None
  {
    hide FitsDescriptor, PutBatchHead, GetBatchHead, PutDescriptors, GetDescriptors, PutSamples, GetSamples;
    DescriptorsReadBack(x.descriptors, [], PutSamples(x.samples, extra));
    SamplesReadBack(x.samples, [], extra);
    assert [] + x.descriptors == x.descriptors && [] + x.samples == x.samples;
  }

  // Reading by offset

  /** `n` bytes of well-formed text at `offset`. */
  method TextAt(b: bytes, offset: nat, n: nat) returns (r: Option<bytes>)
    requires offset <= |b|
    ensures match GetStrict(b[offset..], n)
            case Ok(s, rest) => r == Some(s) && offset + n <= |b| && rest == b[offset + n..]
            case Err(_, _) => r == None
  {
    TakeAt(b, offset, n);
    if offset + n > |b| {
      return None;
    }
    r := Utf8.Strict(b[offset..offset + n]);
  }

  lemma DescriptorHeadByIndex(b: bytes)
    requires |b| >= 12
    ensures GetDescriptorHead(b)
            == Ok(DescriptorHead(U16(b[0..2]), b[2], b[3], b[4], b[5], b[6], b[7], b[8], b[9]), b[12..])
  {
    hide GetU8, GetU16, Take, U16;
    assert b[0..] == b;
    U16At(b, 0);
    ByteAt(b, 2);
    ByteAt(b, 3);
    ByteAt(b, 4);
    ByteAt(b, 5);
    ByteAt(b, 6);
    ByteAt(b, 7);
    ByteAt(b, 8);
    ByteAt(b, 9);
    TakeAt(b, 10, 2);
  }

  lemma ShortDescriptor(b: bytes)
    requires |b| < 12
    ensures GetDescriptor(b).Err?
  {
    hide GetDescriptorHead;
  }

  /** The decoder's answer: the value and how many bytes it took. */
  predicate Agrees<T(==)>(r: Option<(T, nat)>, p: Parsed<T>, b: bytes) {
    match p
    case Ok(x, rest) => r.Some? && r.value.0 == x && r.value.1 <= |b| && rest == b[r.value.1..]
    case Err(_, _) => r == None
  }

  method ParsePairs(b: bytes, start: nat, count: nat) returns (r: Option<(seq<(bytes, bytes)>, nat)>)
    requires start <= |b|
    ensures Agrees(r, GetPairs(b[start..], count, []), b)
  {
    hide GetU8, GetStrict;
    var offset: nat := start;
    var attributes: seq<(bytes, bytes)> := [];
    for i := 0 to count
      invariant offset <= |b|
      invariant GetPairs(b[offset..], count - i, attributes) == GetPairs(b[start..], count, [])
    {
      if offset + 2 > |b| {
        NoPair(b[offset..]);
        return None;
      }
      ByteAt(b, offset);
      ByteAt(b, offset + 1);
      var keyLen, valueLen := b[offset], b[offset + 1];
      offset := offset + 2;
      var key :- TextAt(b, offset, keyLen);
      offset := offset + keyLen;
      var value :- TextAt(b, offset, valueLen);
      offset := offset + valueLen;
      attributes := attributes + [(key, value)];
    }
    r := Some((attributes, offset));
  }

  lemma NoPair(b: bytes)
    requires |b| < 2
    ensures GetPair(b).Err?
  {
  }

  method ParseBounds(b: bytes, start: nat, kind: byte, buckets: byte) returns (r: Option<(Option<seq<u32>>, nat)>)
    requires start <= |b|
    ensures Agrees(r, GetBounds(b[start..], kind, buckets), b)
  {
    hide GetU32;
    if kind != 2 || buckets == 0 {
      return Some((None, start));
    }
    var count: nat := buckets;
    FloatsNeed(b[start..], count, []);
    if start + count * 4 > |b| {
      return None;
    }
    var bounds: seq<u32> := [];
    for i := 0 to count
      invariant GetFloats(b[start + i * 4..], count - i, bounds) == GetFloats(b[start..], count, [])
    {
      U32At(b, start + i * 4);
      bounds := bounds + [U32(b[start + i * 4..start + i * 4 + 4])];
    }
    r := Some((Some(bounds), start + count * 4));
  }

  lemma {:induction false} FloatsNeed(b: bytes, left: nat, got: seq<u32>)
    ensures GetFloats(b, left, got).Ok? <==> 4 * left <= |b|
    decreases left
  {
    if left > 0 && GetU32(b).Ok? {
      FloatsNeed(GetU32(b).rest, left - 1, got + [GetU32(b).value]);
    }
  }

  method ParseDescriptor(b: bytes) returns (r: Option<(Descriptor, nat)>)
    ensures Agrees(r, GetDescriptor(b), b)
  {
    hide GetDescriptorHead, GetStrict, GetPairs, GetBounds;
    if |b| < 12 {
      ShortDescriptor(b);
      return None;
    }
    DescriptorHeadByIndex(b);
    if b[7] as nat > MAX_DESCRIPTOR_ATTRIBUTES {
      return None;
    }
    var offset: nat := 12;
    var name :- TextAt(b, offset, b[4]);
    offset := offset + b[4];
    var unit :- TextAt(b, offset, b[5]);
    offset := offset + b[5];
    var description :- TextAt(b, offset, b[6]);
    offset := offset + b[6];
    var attributes :- ParsePairs(b, offset, b[7]);
    offset := attributes.1;
    var bounds :- ParseBounds(b, offset, b[2], b[8]);
    offset := bounds.1;
    var namespace :- TextAt(b, offset, b[9]);
    offset := offset + b[9];
    r := Some((Descriptor(U16(b[0..2]), b[2], b[3], name, unit, description, namespace,
               attributes.0, bounds.0), offset));
  }

  lemma BatchHeadByIndex(b: bytes)
    requires |b| >= 32
    ensures if b[0] != PUSH_WIRE_VERSION || b[1] != PUSH_METRIC_EVENT_TYPE then GetBatchHead(b).Err?
            else GetBatchHead(b) == Ok(BatchHead(U16(b[4..6]), U16(b[6..8]), U16(b[8..10]), U32(b[12..16]),
                                                 I64(b[16..24]), I64(b[24..32])), b[32..])
  {
    hide GetU8, GetU16, GetU32, GetI64, Take, U16, U32, I64;
    assert b[0..] == b;
    ByteAt(b, 0);
    ByteAt(b, 1);
    TakeAt(b, 2, 2);
    U16At(b, 4);
    U16At(b, 6);
    U16At(b, 8);
    TakeAt(b, 10, 2);
    U32At(b, 12);
    I64At(b, 16);
    I64At(b, 24);
  }

  lemma ShortBatch(b: bytes)
    requires |b| < 32
    ensures MetricBatch(b) == None
  {
    hide GetBatchHead;
  }

  lemma SampleByIndex(b: bytes, i: nat)
    requires i <= |b|
    ensures i + 16 > |b| ==> GetSample(b[i..]).Err?
    ensures i + 16 <= |b| ==>
              GetSample(b[i..])
              == Ok(MetricSample(U16(b[i..i + 2]), b[i + 2], I64(b[i + 4..i + 12]), U32(b[i + 12..i + 16])),
                    b[i + 16..])
  {
    hide GetU8, GetU16, GetU32, GetI64;
    if i + 16 <= |b| {
      U16At(b, i);
      ByteAt(b, i + 2);
      ByteAt(b, i + 3);
      I64At(b, i + 4);
      U32At(b, i + 12);
    }
  }

  method ParseDescriptors(b: bytes, start: nat, count: nat) returns (r: Option<(seq<Descriptor>, nat)>)
    requires start <= |b|
    ensures Agrees(r, GetDescriptors(b[start..], count, []), b)
  {
    hide GetDescriptor;
    var offset: nat := start;
    var descriptors: seq<Descriptor> := [];
    for i := 0 to count
      invariant offset <= |b|
      invariant GetDescriptors(b[offset..], count - i, descriptors) == GetDescriptors(b[start..], count, [])
    {
      var d :- ParseDescriptor(b[offset..]);
      assert b[offset..][d.1..] == b[offset + d.1..];
      descriptors := descriptors + [d.0];
      offset := offset + d.1;
    }
    r := Some((descriptors, offset));
  }

  method ParseSamples(b: bytes, start: nat, count: nat) returns (r: Option<(seq<MetricSample>, nat)>)
    requires start <= |b|
    ensures Agrees(r, GetSamples(b[start..], count, []), b)
  {
    hide GetSample;
    var offset: nat := start;
    var samples: seq<MetricSample> := [];
    for i := 0 to count
      invariant offset <= |b|
      invariant GetSamples(b[offset..], count - i, samples) == GetSamples(b[start..], count, [])
    {
      SampleByIndex(b, offset);
      if offset + 16 > |b| {
        return None;
      }
      samples := samples + [MetricSample(U16(b[offset..offset + 2]), b[offset + 2], I64(b[offset + 4..offset + 12]),
                                         U32(b[offset + 12..offset + 16]))];
      offset := offset + 16;
    }
    r := Some((samples, offset));
  }

  method DecodeMetricBatch(b: bytes) returns (r: Option<Batch>)
    ensures r == MetricBatch(b)
  {
    hide GetBatchHead, GetDescriptors, GetSamples;
    if |b| < 32 {
      ShortBatch(b);
      return None;
    }
    BatchHeadByIndex(b);
    if b[0] != PUSH_WIRE_VERSION || b[1] != PUSH_METRIC_EVENT_TYPE {
      return None;
    }
    var descriptors :- ParseDescriptors(b, 32, U16(b[4..6]));
    var samples :- ParseSamples(b, descriptors.1, U16(b[6..8]));
    if samples.1 != |b| {
      return None;
    }
    r := Some(Batch(U16(b[8..10]), U32(b[12..16]), I64(b[16..24]), I64(b[24..32]), descriptors.0, samples.0));
  }
}
