/** What the ADS parser lets through: whatever bytes arrive, every message it returns is within the limits its
    documentation sets (crates/tc-otel-ads/src/parser.rs). */
module Limits {
  import opened Bytes
  import opened Wire
  import opened Values
  import opened Logs
  import opened Telemetry
  import opened Parser
  import opened LogWriter
  import TelemetryWriter
  import Utf8

  // Log entries

  /** At most 32 arguments. A v1 entry has at most 64 variables; in v2 the limit is only looked at between scopes, so
      up to 63 variables and then the 255 of one scope get through. */
  predicate EntryWithinLimits(e: LogEntry) {
    && 1 <= e.version <= 2 && e.level <= 5
    && |e.arguments| <= 32
    && |e.context| <= (if e.version == 1 then 64 else 318)
    && |e.traceId| == 16 && |e.spanId| == 8
  }

  lemma {:induction false} ArgumentsWithin(b: bytes, done: nat, count: nat, got: map<nat, Json>)
    requires |got| <= 32
    ensures var r := GetArguments(b, done, count, got); r.Ok? ==> |r.value| <= 32
    decreases count - done
  {
    hide GetTyped;
    if done < count && |got| < 32 && GetTyped(b).Ok? {
      ArgumentsWithin(GetTyped(b).rest, done + 1, count, got[done + 1 := GetTyped(b).value]);
    }
  }

  lemma {:induction false} PropertiesWithin(b: bytes, scope: byte, left: nat, got: Context)
    requires |got.vars| <= got.seen
    ensures var r := GetProperties(b, scope, left, got);
            r.Ok? ==> |r.value.vars| <= r.value.seen && r.value.seen == got.seen + left
    decreases left
  {
    hide GetTyped, GetText, Key;
    if left > 0 && GetText(b).Ok? && GetTyped(GetText(b).rest).Ok? {
      var v := GetTyped(GetText(b).rest);
      var more := Context(got.vars[Key(scope, GetText(b).value) := v.value], got.seen + 1);
      PropertiesWithin(v.rest, scope, left - 1, more);
    }
  }

  lemma {:induction false} ScopesWithin(b: bytes, left: nat, got: Context)
    requires |got.vars| <= got.seen <= 318
    ensures var r := GetScopes(b, left, got); r.Ok? ==> |r.value.vars| <= 318
    decreases left
  {
    hide GetU8, GetProperties;
    if left > 0 && got.seen < 64 && GetU8(b).Ok? && GetU8(GetU8(b).rest).Ok? {
      var count := GetU8(GetU8(b).rest);
      PropertiesWithin(count.rest, GetU8(b).value, count.value, got);
      var more := GetProperties(count.rest, GetU8(b).value, count.value, got);
      if more.Ok? {
        ScopesWithin(more.rest, left - 1, more.value);
      }
    }
  }

  lemma HeadWithin(b: bytes)
    ensures GetHead(b).Ok? ==> GetHead(b).value.level <= 5
  {
    hide GetU8, GetU32, GetU64, GetI64;
  }

  lemma BodyWithin(b: bytes)
    ensures var r := GetBody(b);
            r.Ok? ==> r.value.head.level <= 5 && |r.value.arguments| <= 32 && |r.value.context| <= 318
  {
    hide GetHead, GetText, GetArguments, GetScopes;
    HeadWithin(b);
    if GetBody(b).Ok? {
      var head := GetHead(b);
      var b3 := GetText(GetText(head.rest).rest).rest;
      ArgumentsWithin(b3, 0, head.value.args, map[]);
      ScopesWithin(GetArguments(b3, 0, head.value.args, map[]).rest, head.value.scopes, Context(map[], 0));
    }
  }

  lemma V2Within(b: bytes)
    ensures GetV2(b).Ok? ==> EntryWithinLimits(GetV2(b).value)
    ensures GetTraced(b).Ok? ==> EntryWithinLimits(GetTraced(b).value)
  {
    hide GetU8, GetU16, GetBody, Skip;
    if GetV2(b).Ok? {
      BodyWithin(GetU16(GetU8(b).rest).rest);
    }
    if GetTraced(b).Ok? {
      BodyWithin(Take(Take(GetU16(GetU8(b).rest).rest, 16).rest, 8).rest);
    }
  }

  lemma {:induction false} ItemsWithin(b: bytes, got: Items)
    requires |got.arguments| <= 32 && |got.context| <= 64
    ensures var r := GetItems(b, got); r.Ok? ==> |r.value.arguments| <= 32 && |r.value.context| <= 64
    decreases |b|
  {
    hide GetU8, GetText, GetTagged, Key;
    if b != [] && GetU8(b).Ok? {
      var kind, t := GetU8(b).value, GetU8(b).rest;
      if kind == 1 {
        if |got.arguments| < 32 && GetU8(t).Ok? && GetTagged(GetU8(t).rest).Ok? {
          var v := GetTagged(GetU8(t).rest);
          ItemsWithin(v.rest, got.(arguments := got.arguments[GetU8(t).value as nat := v.value]));
        }
      } else if kind == 2 {
        VariableWithin(b, got);
      } else if kind != 0 && kind != 255 {
        ItemsWithin(t, got);
      }
    }
  }

  lemma {:induction false} VariableWithin(b: bytes, got: Items)
    requires |got.arguments| <= 32 && |got.context| <= 64
    requires b != [] && GetU8(b).Ok? && GetU8(b).value == 2
    ensures var r := GetItems(b, got); r.Ok? ==> |r.value.arguments| <= 32 && |r.value.context| <= 64
    decreases |b|, 0
  {
    hide GetU8, GetText, GetTagged, Key;
    var t := GetU8(b).rest;
    if |got.context| < 64 && GetU8(t).Ok? && GetText(GetU8(t).rest).Ok? && GetTagged(GetText(GetU8(t).rest).rest).Ok? {
      var name := GetText(GetU8(t).rest);
      var v := GetTagged(name.rest);
      ItemsWithin(v.rest, got.(context := got.context[Key(GetU8(t).value, name.value) := v.value]));
    }
  }

  lemma V1Within(b: bytes)
    requires b != [] && b[0] == 1
    ensures GetV1(b).Ok? ==> EntryWithinLimits(GetV1(b).value)
  {
    hide GetV1Start, GetV1Origin, GetItems, FileTime, DcTaskTime;
    StartWithin(b);
    if GetV1(b).Ok? {
      ItemsWithin(GetV1Origin(GetV1Start(b).rest).rest, Items(map[], map[]));
    }
  }

  lemma StartWithin(b: bytes)
    requires b != [] && b[0] == 1
    ensures GetV1Start(b).Ok? ==> GetV1Start(b).value.version == 1 && GetV1Start(b).value.level <= 5
  {
    hide GetText, GetU16, GetU64, GetI64;
  }

  // The limit of 318 variables is met

  /** A name for each number below 256: two ASCII bytes. */
  function NameNo(i: nat): Text
    requires i < 256
  {
    var s := [0x30 + i / 16, 0x30 + i % 16];
    TwoAscii(s[0], s[1]);
    s
  }

  lemma TwoAscii(x: byte, y: byte)
    requires x < 0x80 && y < 0x80
    ensures Utf8.Valid([x, y])
  {
    assert [x, y][1..] == [y] && [y][1..] == [];
  }

  /** Empty variables under the first names. */
  predicate Blank(props: seq<Prop>) {
    |props| < 256 && forall i: nat | i < |props| :: props[i] == Prop(NameNo(i), VNull)
  }

  function Blanks(n: nat): (props: seq<Prop>)
    requires n < 256
    ensures Blank(props) && |props| == n
  {
    if n == 0 then [] else Blanks(n - 1) + [Prop(NameNo(n - 1), VNull)]
  }

  function TwoScopes(p: seq<Prop>, q: seq<Prop>): Log {
    Log(0, 0, 0, 0, 0, [], [], [], [Scope(1, p), Scope(2, q)])
  }

  lemma {:induction false} VarsAt(id: byte, props: seq<Prop>)
    ensures |VarsOf(id, props)| == |props|
    ensures forall i | 0 <= i < |props| :: VarsOf(id, props)[i] == Var(id, props[i].name, props[i].value)
  {
    if props != [] {
      VarsAt(id, props[..|props| - 1]);
    }
  }

  /** No two variables share scope and name. */
  predicate AllDifferent(vars: seq<Var>) {
    forall i, j | 0 <= i < j < |vars| :: vars[i].scope != vars[j].scope || vars[i].name != vars[j].name
  }

  lemma {:induction false} CollectedCount(vars: seq<Var>)
    requires AllDifferent(vars)
    ensures |Collect(vars)| == |vars|
  {
    hide Key, JsonOf;
    if vars != [] {
      var n := |vars| - 1;
      CollectedCount(vars[..n]);
      if Key(vars[n].scope, vars[n].name) in Collect(vars[..n]) {
        CollectedAreVars(vars[..n], Key(vars[n].scope, vars[n].name));
        var i :| 0 <= i < n && Key(vars[n].scope, vars[n].name) == Key(vars[..n][i].scope, vars[..n][i].name);
        KeyInjective(vars[n].scope, vars[n].name, vars[i].scope, vars[i].name);
        assert false;
      }
    }
  }

  lemma TwoScopesVars(p: seq<Prop>, q: seq<Prop>)
    ensures AllVars(TwoScopes(p, q).scopes) == VarsOf(1, p) + VarsOf(2, q)
  {
    hide VarsOf;
    var scopes := TwoScopes(p, q).scopes;
    assert scopes[..1] == [Scope(1, p)] && scopes[..1][..0] == [];
    assert AllVars(scopes[..1]) == VarsOf(1, p);
  }

  lemma BlanksDiffer(p: seq<Prop>, q: seq<Prop>)
    requires Blank(p) && Blank(q)
    ensures |VarsOf(1, p) + VarsOf(2, q)| == |p| + |q| && AllDifferent(VarsOf(1, p) + VarsOf(2, q))
  {
    hide VarsOf, NameNo;
    VarsAt(1, p);
    VarsAt(2, q);
    NamesDiffer();
  }

  lemma NamesDiffer()
    ensures forall i: nat, j: nat | i < j < 256 :: NameNo(i) != NameNo(j)
  {
    forall i: nat, j: nat | i < j < 256 ensures NameNo(i) != NameNo(j) {
      assert i == 16 * (i / 16) + i % 16 && j == 16 * (j / 16) + j % 16;
      assert NameNo(i)[0] == 0x30 + i / 16 && NameNo(i)[1] == 0x30 + i % 16;
    }
  }

  lemma {:induction false} BlanksSize(props: seq<Prop>)
    requires forall p | p in props :: |p.name| == 2 && p.value == VNull
    ensures PropsSize(props) == 4 * |props|
  {
    if props != [] {
      BlanksSize(props[1..]);
    }
  }

  lemma BlankFits(props: seq<Prop>)
    requires Blank(props)
    ensures FitsProps(props) && PropsSize(props) == 4 * |props|
  {
    hide PropsSize;
    forall p | p in props ensures |p.name| == 2 && p.value == VNull {
      var i: nat :| i < |props| && props[i] == p;
    }
    BlanksSize(props);
  }

  lemma TwoScopesSize(p: seq<Prop>, q: seq<Prop>)
    requires FitsProps(p) && FitsProps(q)
    ensures var scopes := [Scope(1, p), Scope(2, q)];
            (forall s | s in scopes :: FitsProps(s.props)) && ScopesSize(scopes) == 4 + PropsSize(p) + PropsSize(q)
  {
    hide PropsSize, Encodable;
    var scopes := [Scope(1, p), Scope(2, q)];
    assert scopes[1..] == [Scope(2, q)] && scopes[1..][1..] == [];
    assert ScopesSize(scopes[1..]) == 2 + PropsSize(q) + ScopesSize(scopes[1..][1..]);
  }

  lemma TwoScopesFit(p: seq<Prop>, q: seq<Prop>)
    requires Blank(p) && Blank(q) && |p| < 64
    ensures Fits(TwoScopes(p, q)) && BodySize(TwoScopes(p, q)) < 0x1_0000
  {
    hide PropsSize, FitsProps, ScopesSize, Encodable;
    BlankFits(p);
    BlankFits(q);
    var scopes := TwoScopes(p, q).scopes;
    assert scopes[..0] == [] && scopes[..1] == [Scope(1, p)] && scopes[..1][..0] == [];
    assert Total(scopes[..0]) == 0 && Total(scopes[..1]) == |p|;
    TwoScopesSize(p, q);
  }

  /** The parser does read a v2 entry with 318 variables. */
  lemma LargestIsRead() returns (m: Log)
    ensures Fits(m) && BodySize(m) < 0x1_0000
    ensures GetV2(PutV2(m, [])).Ok? && |GetV2(PutV2(m, [])).value.context| == 318
  {
    hide GetV2, PutV2, Collect, AllVars, FileTime, DcTaskTime, Numbered, Fits, BodySize, Blanks, VarsOf, TwoScopes;
    hide AllDifferent, Blank;
    var p, q := Blanks(63), Blanks(255);
    m := TwoScopes(p, q);
    TwoScopesFit(p, q);
    V2ReadsBack(m, []);
    TwoScopesVars(p, q);
    BlanksDiffer(p, q);
    CollectedCount(VarsOf(1, p) + VarsOf(2, q));
  }

  // Metrics

  predicate MetricWithinLimits(m: Metric) {
    && m.kind <= 2
    && |m.attributes| <= 32
    && |m.histogram.bounds| <= 100
    && |m.histogram.counts| == if m.kind == 2 then |m.histogram.bounds| + 1 else 0
  }

  lemma {:induction false} WordsWithin(b: bytes, left: nat, got: seq<u64>)
    ensures var r := GetWords(b, left, got); r.Ok? ==> |r.value| == |got| + left
    decreases left
  {
    hide GetU64;
    if left > 0 && GetU64(b).Ok? {
      WordsWithin(GetU64(b).rest, left - 1, got + [GetU64(b).value]);
    }
  }

  lemma HistogramWithin(b: bytes)
    ensures var r := GetHistogram(b); r.Ok? ==> |r.value.bounds| <= 100 && |r.value.counts| == |r.value.bounds| + 1
  {
    hide GetU8, GetU64, GetWords;
    if GetHistogram(b).Ok? {
      var n, b1 := GetU8(b).value, GetU8(b).rest;
      WordsWithin(b1, n, []);
      WordsWithin(GetWords(b1, n, []).rest, n as nat + 1, []);
    }
  }

  lemma {:induction false} AttributesWithin(b: bytes, left: nat, got: map<bytes, Json>)
    ensures var r := GetAttributes(b, left, got); r.Ok? ==> |r.value| <= |got| + left
    decreases left
  {
    hide GetText, GetTyped;
    if left > 0 && GetText(b).Ok? && GetTyped(GetText(b).rest).Ok? {
      var v := GetTyped(GetText(b).rest);
      AttributesWithin(v.rest, left - 1, got[GetText(b).value := v.value]);
    }
  }

  lemma MetricHeadWithin(b: bytes)
    ensures var r := GetMetricHead(b); r.Ok? ==> r.value.kind <= 2 && r.value.attributes <= 32
  {
    hide GetU8, GetU32, GetU64;
  }

  lemma MetricBodyWithin(b: bytes)
    ensures GetMetricBody(b).Ok? ==> MetricWithinLimits(GetMetricBody(b).value)
  {
    hide GetMetricHead, GetText, GetU64, GetHistogram, GetAttributes, FileTime;
    MetricHeadWithin(b);
    if GetMetricBody(b).Ok? {
      var head := GetMetricHead(b);
      var b5 := GetU64(GetText(GetText(GetText(head.rest).rest).rest).rest).rest;
      HistogramWithin(b5);
      AttributesWithin(GetHistogramOf(b5, head.value.kind).rest, head.value.attributes, map[]);
    }
  }

  lemma MetricWithin(b: bytes)
    ensures GetMetric(b).Ok? ==> MetricWithinLimits(GetMetric(b).value)
  {
    hide GetU8, GetU16, GetMetricBody, Skip, MetricWithinLimits;
    if GetMetric(b).Ok? {
      MetricBodyWithin(GetU16(GetU8(b).rest).rest);
    }
  }

  // Trace events: what can be read is what can be written

  lemma OptionalWithin(b: bytes, present: bool)
    ensures var r := GetOptional(b, present);
            r.Ok? ==> (r.value.Some? <==> present) && (present ==> TelemetryWriter.Short(r.value.value, 127))
  {
    hide GetU8, Utf8.Valid;
  }

  lemma BeginHeadWithin(b: bytes)
    ensures var r := GetBeginHead(b); r.Ok? ==> |r.value.parent| == 8 && r.value.length <= 127
  {
    hide GetU8;
  }

  lemma StrictWithin(b: bytes, n: nat)
    ensures GetStrict(b, n).Ok? ==> |GetStrict(b, n).value| == n && Utf8.Valid(GetStrict(b, n).value)
  {
    hide Utf8.Valid;
  }

  lemma EmptyIsShort()
    ensures TelemetryWriter.Short([], 127)
  {
  }

  lemma BeginWithin(b: bytes, h: TraceHead)
    ensures GetBegin(b, h).Ok? ==> TelemetryWriter.FitsTrace(GetBegin(b, h).value)
  {
    hide GetBeginHead, GetStrict, GetOptional, HasParent, HasNamespace, Utf8.Valid;
    hide TelemetryWriter.WithParent, TelemetryWriter.WithNamespace;
    if GetBegin(b, h).Ok? {
      var start := GetBeginHead(b);
      BeginHeadWithin(b);
      var b3 := Take(Take(start.rest, 16).rest, 8).rest;
      StrictWithin(b3, start.value.length);
      var b4 := GetStrict(b3, start.value.length).rest;
      OptionalWithin(b4, HasParent(h.flags));
      OptionalWithin(GetOptional(b4, HasParent(h.flags)).rest, HasNamespace(h.flags));
      TelemetryWriter.FlagBits(h.flags);
      EmptyIsShort();
    }
  }

  lemma AttrHeadWithin(b: bytes)
    ensures GetAttrHead(b).Ok? ==> GetAttrHead(b).value.keyLength <= 31
  {
    hide GetU8;
  }

  lemma AttrValueWithin(b: bytes, kind: byte, length: nat)
    requires length <= 127
    ensures GetAttrValue(b, kind, length).Ok? ==> TelemetryWriter.FitsAttrValue(GetAttrValue(b, kind, length).value)
  {
    hide GetU8, GetU64, GetI64, GetStrict, Utf8.Valid;
    StrictWithin(b, length);
  }

  lemma AttributeWithin(b: bytes, h: TraceHead)
    ensures GetAttribute(b, h).Ok? ==> TelemetryWriter.FitsTrace(GetAttribute(b, h).value)
  {
    hide GetAttrHead, GetAttrValue, GetStrict, Utf8.Valid, TelemetryWriter.FitsAttrValue;
    if GetAttribute(b, h).Ok? {
      var attr := GetAttrHead(Take(b, 7).rest);
      AttrHeadWithin(Take(b, 7).rest);
      StrictWithin(attr.rest, attr.value.keyLength);
      AttrValueWithin(GetStrict(attr.rest, attr.value.keyLength).rest, attr.value.kind, attr.value.valueLength);
    }
  }

  lemma {:induction false} InlineWithin(b: bytes, left: nat, got: seq<Attr>)
    requires forall a | a in got :: TelemetryWriter.FitsInline(a)
    ensures var r := GetInlineAttrs(b, left, got);
            r.Ok? ==> |r.value| == |got| + left && forall a | a in r.value :: TelemetryWriter.FitsInline(a)
    decreases left
  {
    hide GetAttrHead, GetInlineValue, GetStrict, Utf8.Valid;
    if left > 0 && GetAttrHead(b).Ok? {
      var attr := GetAttrHead(b);
      AttrHeadWithin(b);
      StrictWithin(attr.rest, attr.value.keyLength);
      var key := GetStrict(attr.rest, attr.value.keyLength);
      if key.Ok? && GetInlineValue(key.rest, attr.value.kind).Ok? {
        var v := GetInlineValue(key.rest, attr.value.kind);
        InlineValueWithin(key.rest, attr.value.kind);
        InlineWithin(v.rest, left - 1, got + [Attr(key.value, v.value)]);
      }
    }
  }

  lemma InlineValueWithin(b: bytes, kind: byte)
    ensures var r := GetInlineValue(b, kind); r.Ok? ==> r.value.I64? || r.value.Flag?
  {
    hide GetU8, GetI64;
  }

  lemma EventWithin(b: bytes, h: TraceHead)
    ensures GetEvent(b, h).Ok? ==> TelemetryWriter.FitsTrace(GetEvent(b, h).value)
  {
    hide GetU8, GetU16, GetInlineAttrs, GetStrict, Utf8.Valid, TelemetryWriter.FitsInline;
    if GetEvent(b, h).Ok? {
      var length := GetU8(Take(b, 7).rest);
      var count := GetU8(length.rest);
      var b4 := GetU16(count.rest).rest;
      StrictWithin(b4, length.value);
      InlineWithin(GetStrict(b4, length.value).rest, count.value, []);
    }
  }

  lemma EndWithin(b: bytes, h: TraceHead)
    ensures GetEnd(b, h).Ok? ==> TelemetryWriter.FitsTrace(GetEnd(b, h).value)
  {
    hide GetU8, GetU16, GetStrict, Utf8.Valid;
    if GetEnd(b, h).Ok? {
      var length := GetU8(GetU8(Take(b, 7).rest).rest);
      StrictWithin(GetU16(length.rest).rest, length.value);
    }
  }

  /** A trace event that was read can be written, and then reads back. */
  lemma TraceWithin(b: bytes)
    ensures GetTrace(b).Ok? ==> TelemetryWriter.FitsTrace(GetTrace(b).value)
  {
    hide GetTraceHead, GetBegin, GetAttribute, GetEvent, GetEnd, TelemetryWriter.FitsTrace;
    if GetTraceHead(b).Ok? {
      var h, t := GetTraceHead(b).value, GetTraceHead(b).rest;
      BeginWithin(t, h);
      AttributeWithin(t, h);
      EventWithin(t, h);
      EndWithin(t, h);
    }
  }

  // Whole buffers

  predicate WithinLimits(m: Messages) {
    && (forall e | e in m.entries :: EntryWithinLimits(e))
    && (forall x | x in m.metrics :: MetricWithinLimits(x))
    && (forall x | x in m.traces :: TelemetryWriter.FitsTrace(x))
  }

  lemma StepWithin(b: bytes, acc: Messages)
    requires b != [] && WithinLimits(acc)
    ensures !Step(b, acc).Fail? ==> WithinLimits(Step(b, acc).messages)
  {
    hide GetV1, GetV2, GetTraced, GetRegistration, GetMetric, GetTrace, Skip, DeclaredEnd, Skippable;
    hide EntryWithinLimits, MetricWithinLimits, TelemetryWriter.FitsTrace;
    if b[0] == 1 {
      V1Within(b);
    }
    V2Within(b);
    MetricWithin(b);
    TraceWithin(b);
  }

  lemma {:induction false} LoopWithin(b: bytes, acc: Messages)
    requires WithinLimits(acc)
    ensures ParseFrom(b, acc).Done? ==> WithinLimits(ParseFrom(b, acc).messages)
    decreases |b|
  {
    hide Step, WithinLimits;
    if b != [] {
      StepWithin(b, acc);
      var turn := Step(b, acc);
      if turn.More? {
        LoopWithin(turn.rest, turn.messages);
      }
    }
  }

  /** A buffer of more than 1 MiB is refused; from any other, only messages within the limits come out. */
  lemma ParsedIsWithinLimits(data: bytes)
    ensures |data| > 1024 * 1024 ==> ParseAll(data) == Failed(TooBig(|data|))
    ensures ParseAll(data).Done? ==> WithinLimits(ParseAll(data).messages)
  {
    hide ParseFrom, EntryWithinLimits, MetricWithinLimits, TelemetryWriter.FitsTrace;
    LoopWithin(data, NOTHING);
  }
}
