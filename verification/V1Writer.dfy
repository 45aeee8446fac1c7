/** Encoders for v1 log messages, and what the parser makes of them. */
module V1Writer {
  import opened Bytes
  import opened Wire
  import opened Values
  import opened Logs
  import Utf8
  import Durations

  // Values: a 16-bit type code, also for the underlying type of an enum

  function TypeCode(v: Value): nat {
    Remap(TypeId(v))
  }

  function PutCode(code: nat, t: bytes): (r: bytes)
    requires code < 0x8000
    ensures |r| == 2 + |t|
    ensures Take(r, 2).Ok? && Take(r, 2).rest == t && SignedOf(Take(r, 2).value) == code
  {
    Pow256Widths();
    PutSint(code, 2, t)
  }

  function PutPayload1(v: Value, t: bytes): bytes
    requires Encodable(v)
  {
    if v.VEnum? then PutCode(v.code, PutUint(v.n, UintWidth(v.code).value, t)) else PutPayload(v, t)
  }

  lemma Payload1ReadsBack(v: Value, t: bytes)
    requires Encodable(v)
    ensures GetValue(PutPayload1(v, t), TypeCode(v), false) == Ok(JsonOf(v), t)
  {
    hide Take, GetU8, GetU32, GetU64, GetText, GetUint, GetWide, SignedOf, Json32, Json64, Durations.TimeOfDayText;
    hide Tail;
    hide PutPayload, PutUint, PutCode;
    PayloadReadsBack(v, t);
    if !v.VEnum? {
      SameWithoutEnum(v, PutPayload(v, t));
    }
  }

  /** Only enums tell the two versions apart. */
  lemma SameWithoutEnum(v: Value, b: bytes)
    requires Encodable(v) && !v.VEnum?
    ensures GetValue(b, TypeCode(v), false) == GetValue(b, TypeCode(v), true)
  {
    hide Take, GetU8, GetU32, GetU64, GetText, GetUint, GetEnum, GetWide, SignedOf, Json32, Json64;
    hide Durations.TimeOfDayText;
    assert !ShapeOf(TypeCode(v)).Enum?;
  }

  function PutTagged(v: Value, t: bytes): bytes
    requires Encodable(v)
  {
    PutCode(TypeCode(v), PutPayload1(v, t))
  }

  lemma TaggedReadsBack(v: Value, t: bytes)
    requires Encodable(v)
    ensures GetTagged(PutTagged(v, t)) == Ok(JsonOf(v), t)
  {
    hide Take, SignedOf, PutCode, PutPayload1, GetValue, TypeCode, JsonOf, Encodable;
    Payload1ReadsBack(v, t);
  }

  // Items

  datatype Item = Argument(index: byte, value: Value) | Variable(scope: byte, name: Text, value: Value)

  /** Later items of the same number or key replace earlier ones. */
  function Gathered(items: seq<Item>, n: nat): Items
    requires n <= |items|
  {
    if n == 0 then Items(map[], map[])
    else
      var before := Gathered(items, n - 1);
      match items[n - 1]
      case Argument(index, value) => before.(arguments := before.arguments[index as nat := JsonOf(value)])
      case Variable(scope, name, value) => before.(context := before.context[Key(scope, name) := JsonOf(value)])
  }

  /** The parser counts what it has gathered before it takes another. */
  predicate FitsItem(items: seq<Item>, i: nat)
    requires i < |items|
  {
    && Encodable(items[i].value)
    && (items[i].Argument? ==> |Gathered(items, i).arguments| < MAX_ARGUMENTS)
    && (items[i].Variable? ==> |Gathered(items, i).context| < MAX_CONTEXT_VARS)
  }

  predicate FitsItems(items: seq<Item>) {
    forall i | 0 <= i < |items| :: FitsItem(items, i)
  }

  function PutItem(item: Item, t: bytes): (r: bytes)
    requires Encodable(item.value)
    ensures r != []
  {
    match item
    case Argument(index, value) => PutU8(1, PutU8(index, PutTagged(value, t)))
    case Variable(scope, name, value) => PutU8(2, PutU8(scope, PutText(name, PutTagged(value, t))))
  }

  /** The items from number `i` on, and the end marker. */
  function PutItems(items: seq<Item>, i: nat, t: bytes): bytes
    requires i <= |items| && FitsItems(items)
    decreases |items| - i
  {
    if i == |items| then PutU8(255, t) else assert FitsItem(items, i); PutItem(items[i], PutItems(items, i + 1, t))
  }

  lemma ItemStep(items: seq<Item>, i: nat, t: bytes)
    requires i < |items| && FitsItem(items, i)
    ensures GetItems(PutItem(items[i], t), Gathered(items, i)) == GetItems(t, Gathered(items, i + 1))
  {
    hide PutU8, GetU8, PutText, GetText, PutTagged, GetTagged, Key, JsonOf, Encodable, Tail, Utf8.Valid;
    TaggedReadsBack(items[i].value, t);
  }

  lemma {:induction false} ItemsReadBack(items: seq<Item>, i: nat, t: bytes)
    requires i <= |items| && FitsItems(items)
    ensures GetItems(PutItems(items, i, t), Gathered(items, i)) == Ok(Gathered(items, |items|), t)
    decreases |items| - i
  {
    hide PutU8, GetU8, PutItem, FitsItem, Gathered, GetItems, Tail;
    if i == |items| {
      EndMarker(t, Gathered(items, i));
    } else {
      assert FitsItem(items, i);
      EncodableItem(items, i);
      ItemStep(items, i, PutItems(items, i + 1, t));
      ItemsReadBack(items, i + 1, t);
    }
  }

  lemma EncodableItem(items: seq<Item>, i: nat)
    requires i < |items| && FitsItem(items, i)
    ensures Encodable(items[i].value)
  {
  }

  lemma EndMarker(t: bytes, got: Items)
    ensures GetItems(PutU8(255, t), got) == Ok(got, t)
  {
    hide PutU8, GetU8, Tail;
  }

  // Messages

  datatype V1Log = V1Log(
    message: Text, logger: Text, level: byte, filetime: u64, dcTime: i64, taskIndex: int, taskName: Text, cycle: u32,
    appName: Text, projectName: Text, onlineChanges: u32, items: seq<Item>)

  predicate FitsV1(m: V1Log) {
    m.level <= 5 && -0x8000_0000 <= m.taskIndex < 0x8000_0000 && FitsItems(m.items)
  }

  function V1EntryOf(m: V1Log): LogEntry {
    var items := Gathered(m.items, |m.items|);
    LogEntry(1, m.message, m.logger, m.level, FileTime(m.filetime), DcTaskTime(m.dcTime), m.taskIndex,
             m.taskName, m.cycle,
             m.appName, m.projectName, m.onlineChanges, Zeros(16), Zeros(8), items.arguments, items.context)
  }

  function PutV1Start(m: V1Log, t: bytes): (r: bytes)
    requires FitsV1(m)
    ensures r != [] && r[0] == 1
  {
    hide Tail, Utf8.Valid;
    PutU8(1, PutText(m.message, PutText(m.logger, PutU16(m.level, PutU64(m.filetime, PutI64(m.dcTime, t))))))
  }

  function PutV1Origin(m: V1Log, t: bytes): bytes
    requires FitsV1(m)
  {
    hide Tail, Utf8.Valid;
    Pow256Widths();
    PutSint(m.taskIndex, 4, PutText(m.taskName, PutU32(m.cycle, PutText(m.appName, PutText(m.projectName,
      PutU32(m.onlineChanges, t))))))
  }

  function PutV1(m: V1Log, t: bytes): (r: bytes)
    requires FitsV1(m)
    ensures r != [] && r[0] == 1
  {
    PutV1Start(m, PutV1Origin(m, PutItems(m.items, 0, t)))
  }

  lemma V1StartReadsBack(m: V1Log, t: bytes)
    requires FitsV1(m)
    ensures GetV1Start(PutV1Start(m, t)) == Ok(V1Start(1, m.message, m.logger, m.level, m.filetime, m.dcTime), t)
  {
    hide PutU8, GetU8, PutText, GetText, PutU16, GetU16, PutU64, GetU64, PutI64, GetI64, Tail, Utf8.Valid;
  }

  lemma V1OriginReadsBack(m: V1Log, t: bytes)
    requires FitsV1(m)
    ensures GetV1Origin(PutV1Origin(m, t))
            == Ok(V1Origin(m.taskIndex, m.taskName, m.cycle, m.appName, m.projectName, m.onlineChanges), t)
  {
    hide Take, SignedOf, PutSint, PutText, GetText, PutU32, GetU32, Tail, Utf8.Valid;
    Pow256Widths();
  }

  /** An encoded v1 entry is read back whatever follows its end marker. */
  lemma V1ReadsBack(m: V1Log, t: bytes)
    requires FitsV1(m)
    ensures GetV1(PutV1(m, t)) == Ok(V1EntryOf(m), t)
  {
    hide PutV1Start, GetV1Start, PutV1Origin, GetV1Origin, PutItems, GetItems, FileTime, DcTaskTime, Zeros;
    var t1 := PutItems(m.items, 0, t);
    ItemsReadBack(m.items, 0, t);
    V1StartReadsBack(m, PutV1Origin(m, t1));
    V1OriginReadsBack(m, t1);
    assert Gathered(m.items, 0) == Items(map[], map[]);
  }
}
