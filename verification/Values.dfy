/** Typed values on the wire (`read_value` and `read_value_with_type` in crates/tc-otel-ads/src/parser.rs). */
module Values {
  import opened Bytes
  import opened Wire
  import Durations

  /** A JSON value. Floats keep their bits; a WSTRING keeps its code units; calendar dates keep their
      seconds, since their text is made by a library; other printed texts are `Literal`s. */
  datatype Json =
    | Null
    | Bool(value: bool)
    | Number(number: int)
    | Real32(bits32: u32)
    | Real64(bits64: u64)
    | Str(text: bytes)
    | Utf16(units: seq<u16>)
    | Literal(literal: string)
    | Date(seconds: u32)
    | DateTime(seconds: u32)

  /** How a value of some type lies on the wire. */
  datatype Shape = Nothing | Uint(width: nat) | Sint(width: nat) | Float32 | Float64 | Chars | Flag
                 | Duration | LongDuration | TimeOfDay | Day | DayAndTime | Enum | Wide

  function ShapeOf(code: int): Shape {
    match code
    case 1 => Uint(1)
    case 9 => Uint(1)
    case 2 => Uint(2)
    case 10 => Uint(2)
    case 3 => Uint(4)
    case 11 => Uint(4)
    case 15 => Uint(8)
    case 6 => Sint(1)
    case 7 => Sint(2)
    case 8 => Sint(4)
    case 17 => Sint(8)
    case 4 => Float32
    case 5 => Float64
    case 12 => Chars
    case 13 => Flag
    case 20000 => Duration
    case 20001 => LongDuration
    case 20002 => Day
    case 20003 => DayAndTime
    case 20004 => TimeOfDay
    case 20005 => Enum
    case 20006 => Wide
    case _ => Nothing
  }

  /** The one-byte type ids of v2 messages. */
  function Remap(id: byte): int {
    if 100 <= id <= 106 then 20000 + (id - 100) else id
  }

  /** Two's complement of any width. */
  function SignedOf(b: bytes): int {
    if 2 * FromLe(b) < Pow256(|b|) then FromLe(b) else FromLe(b) - Pow256(|b|)
  }

  /** JSON has no infinities and no NaN. */
  function Json32(bits: u32): Json {
    if bits / 0x80_0000 % 0x100 == 0xFF then Null else Real32(bits)
  }

  function Json64(bits: u64): Json {
    if bits / 0x10_0000_0000_0000 % 0x800 == 0x7FF then Null else Real64(bits)
  }

  /** A float becomes null exactly when its exponent bits are all ones. */
  lemma NullIffExponentFull32(sign: nat, exponent: nat, mantissa: nat)
    requires sign < 2 && exponent < 0x100 && mantissa < 0x80_0000
    ensures var bits := sign * 0x8000_0000 + exponent * 0x80_0000 + mantissa;
            bits < 0x1_0000_0000 && Json32(bits) == if exponent == 255 then Null else Real32(bits)
  {
    var bits := sign * 0x8000_0000 + exponent * 0x80_0000 + mantissa;
    assert bits / 0x80_0000 == sign * 0x100 + exponent;
  }

  lemma NullIffExponentFull64(sign: nat, exponent: nat, mantissa: nat)
    requires sign < 2 && exponent < 0x800 && mantissa < 0x10_0000_0000_0000
    ensures var bits := sign * 0x8000_0000_0000_0000 + exponent * 0x10_0000_0000_0000 + mantissa;
            bits < 0x1_0000_0000_0000_0000 && Json64(bits) == if exponent == 2047 then Null else Real64(bits)
  {
    var bits := sign * 0x8000_0000_0000_0000 + exponent * 0x10_0000_0000_0000 + mantissa;
    assert bits / 0x10_0000_0000_0000 == sign * 0x800 + exponent;
  }

  function Units(raw: bytes): seq<u16> {
    if |raw| < 2 then [] else [U16(raw[..2])] + Units(raw[2..])
  }

  function GetUint(b: bytes, width: nat): (r: Parsed<nat>)
    ensures |r.rest| <= |b|
  {
    var (x, t) :- Take(b, width);
    Ok(FromLe(x), t)
  }

  function GetEnum(b: bytes, underlying: int): (r: Parsed<Json>)
    ensures |r.rest| <= |b|
  {
    match ShapeOf(underlying)
    case Uint(w) =>
      var (x, t) :- GetUint(b, w);
      Ok(Number(x), t)
    case _ => Ok(Null, b)
  }

  function GetWide(b: bytes): (r: Parsed<Json>)
    ensures |r.rest| <= |b|
  {
    var (n, t) :- GetU8(b);
    var count: nat := n;
    var (raw, u) :- Take(t, 2 * count);
    Ok(Utf16(Units(raw)), u)
  }

  /** A value of a known type. The underlying type of an enum is a byte in v2 and an INT in v1. */
  function GetValue(b: bytes, code: int, v2: bool): (r: Parsed<Json>)
    ensures |r.rest| <= |b|
  {
    match ShapeOf(code)
    case Nothing => Ok(Null, b)
    case Uint(w) =>
      var (x, t) :- GetUint(b, w);
      Ok(Number(x), t)
    case Sint(w) =>
      var (x, t) :- Take(b, w);
      Ok(Number(SignedOf(x)), t)
    case Float32 =>
      var (x, t) :- GetU32(b);
      Ok(Json32(x), t)
    case Float64 =>
      var (x, t) :- GetU64(b);
      Ok(Json64(x), t)
    case Chars =>
      var (s, t) :- GetText(b);
      Ok(Str(s), t)
    case Flag =>
      var (x, t) :- GetU8(b);
      Ok(Bool(x != 0), t)
    case Duration =>
      var (x, t) :- GetU32(b);
      Ok(Literal(Durations.TimeText(x)), t)
    case LongDuration =>
      var (x, t) :- GetU64(b);
      Ok(Literal(Durations.LtimeText(x)), t)
    case TimeOfDay =>
      var (x, t) :- GetU32(b);
      Ok(Literal(Durations.TimeOfDayText(x)), t)
    case Day =>
      var (x, t) :- GetU32(b);
      Ok(Date(x), t)
    case DayAndTime =>
      var (x, t) :- GetU32(b);
      Ok(DateTime(x), t)
    case Enum =>
      if v2 then
        var (u, t) :- GetU8(b);
        GetEnum(t, u)
      else
        var (u, t) :- Take(b, 2);
        GetEnum(t, SignedOf(u))
    case Wide => GetWide(b)
  }

  /** v1: an INT names the type. */
  function GetTagged(b: bytes): (r: Parsed<Json>)
    ensures |r.rest| <= |b|
  {
    var (tag, t) :- Take(b, 2);
    GetValue(t, SignedOf(tag), false)
  }

  /** v2: a byte names the type. */
  function GetTyped(b: bytes): (r: Parsed<Json>)
    ensures |r.rest| <= |b| && (r.Ok? ==> |r.rest| < |b|)
  {
    var (tag, t) :- GetU8(b);
    GetValue(t, Remap(tag), true)
  }

  method ReadUint(reader: Reader, width: nat) returns (r: Result<nat>)
    requires reader.pos <= |reader.data|
    modifies reader`pos
    ensures old(reader.pos) <= reader.pos <= |reader.data|
    ensures AsParsed(r, reader.Rest()) == GetUint(old(reader.Rest()), width)
  {
    var b :- reader.ReadBytes(width);
    r := Good(FromLe(b));
  }

  method ReadEnum(reader: Reader, underlying: int) returns (r: Result<Json>)
    requires reader.pos <= |reader.data|
    modifies reader`pos
    ensures old(reader.pos) <= reader.pos <= |reader.data|
    ensures AsParsed(r, reader.Rest()) == GetEnum(old(reader.Rest()), underlying)
  {
    match ShapeOf(underlying)
    case Uint(w) =>
      var x :- ReadUint(reader, w);
      r := Good(Number(x));
    case _ =>
      r := Good(Null);
  }

  /** `chunks(2)` over the raw bytes of a WSTRING. */
  method ChunkUnits(raw: bytes) returns (units: seq<u16>)
    requires |raw| % 2 == 0
    ensures units == Units(raw)
  {
    units := [];
    var i := 0;
    while i < |raw|
      invariant 0 <= i <= |raw| && i % 2 == 0
      invariant units + Units(raw[i..]) == Units(raw)
    {
      assert raw[i..][..2] == raw[i..i + 2] && raw[i..][2..] == raw[i + 2..];
      units := units + [U16(raw[i..i + 2])];
      i := i + 2;
    }
  }

  method ReadWide(reader: Reader) returns (r: Result<Json>)
    requires reader.pos <= |reader.data|
    modifies reader`pos
    ensures old(reader.pos) <= reader.pos <= |reader.data|
    ensures AsParsed(r, reader.Rest()) == GetWide(old(reader.Rest()))
  {
    hide Take, GetU8;
    var n :- reader.ReadU8();
    var count: nat := n;
    var raw :- reader.ReadBytes(2 * count);
    var units := ChunkUnits(raw);
    r := Good(Utf16(units));
  }

  method ReadValueWithType(reader: Reader, code: int, v2: bool) returns (r: Result<Json>)
    requires reader.pos <= |reader.data|
    modifies reader`pos
    ensures old(reader.pos) <= reader.pos <= |reader.data|
    ensures AsParsed(r, reader.Rest()) == GetValue(old(reader.Rest()), code, v2)
  {
    hide Take, GetU8, GetU32, GetU64, GetText, GetUint, GetEnum, GetWide, SignedOf, Json32, Json64;
    hide Durations.TimeOfDayText;
    hide Durations.TimeText, Durations.LtimeText;
    match ShapeOf(code)
    case Nothing =>
      r := Good(Null);
    case Uint(w) =>
      var x :- ReadUint(reader, w);
      r := Good(Number(x));
    case Sint(w) =>
      var x :- reader.ReadBytes(w);
      r := Good(Number(SignedOf(x)));
    case Float32 =>
      var x :- reader.ReadU32();
      r := Good(Json32(x));
    case Float64 =>
      var x :- reader.ReadU64();
      r := Good(Json64(x));
    case Chars =>
      var s :- reader.ReadText();
      r := Good(Str(s));
    case Flag =>
      var x :- reader.ReadU8();
      r := Good(Bool(x != 0));
    case Duration =>
      var x :- reader.ReadU32();
      var text := Durations.RenderTime(x);
      r := Good(Literal(text));
    case LongDuration =>
      var x :- reader.ReadU64();
      var text := Durations.RenderLtime(x);
      r := Good(Literal(text));
    case TimeOfDay =>
      var x :- reader.ReadU32();
      r := Good(Literal(Durations.TimeOfDayText(x)));
    case Day =>
      var x :- reader.ReadU32();
      r := Good(Date(x));
    case DayAndTime =>
      var x :- reader.ReadU32();
      r := Good(DateTime(x));
    case Enum =>
      if v2 {
        var u :- reader.ReadU8();
        r := ReadEnum(reader, u);
      } else {
        var u :- reader.ReadBytes(2);
        r := ReadEnum(reader, SignedOf(u));
      }
    case Wide =>
      r := ReadWide(reader);
  }

  method ReadTagged(reader: Reader) returns (r: Result<Json>)
    requires reader.pos <= |reader.data|
    modifies reader`pos
    ensures old(reader.pos) <= reader.pos <= |reader.data|
    ensures AsParsed(r, reader.Rest()) == GetTagged(old(reader.Rest()))
  {
    var tag :- reader.ReadBytes(2);
    r := ReadValueWithType(reader, SignedOf(tag), false);
  }

  method ReadTyped(reader: Reader) returns (r: Result<Json>)
    requires reader.pos <= |reader.data|
    modifies reader`pos
    ensures old(reader.pos) <= reader.pos <= |reader.data|
    ensures AsParsed(r, reader.Rest()) == GetTyped(old(reader.Rest()))
  {
    var tag :- reader.ReadU8();
    r := ReadValueWithType(reader, Remap(tag), true);
  }

  // What a PLC can write

  datatype Value =
    | VNull
    | VUint(code: byte, n: nat)
    | VSint(code: byte, i: int)
    | VReal(bits32: u32)
    | VLreal(bits64: u64)
    | VText(s: Text)
    | VBool(b: bool)
    | VTime(ms: u32)
    | VLtime(ticks: u64)
    | VTimeOfDay(ms: u32)
    | VDate(seconds: u32)
    | VDateTime(seconds: u32)
    | VEnum(code: byte, n: nat)
    | VWide(units: seq<u16>)

  /** Bytes of an unsigned integer: BYTE and USINT, WORD and UINT, DWORD and UDINT, ULARGE. */
  function UintWidth(code: byte): Option<nat> {
    match code
    case 1 => Some(1)
    case 2 => Some(2)
    case 3 => Some(4)
    case 9 => Some(1)
    case 10 => Some(2)
    case 11 => Some(4)
    case 15 => Some(8)
    case _ => None
  }

  /** Bytes of a signed integer: SINT, INT, DINT, LARGE. */
  function SintWidth(code: byte): Option<nat> {
    match code
    case 6 => Some(1)
    case 7 => Some(2)
    case 8 => Some(4)
    case 17 => Some(8)
    case _ => None
  }

  predicate Encodable(v: Value) {
    match v
    case VUint(code, n) => UintWidth(code).Some? && n < Pow256(UintWidth(code).value)
    case VSint(code, i) =>
      SintWidth(code).Some? && 0 <= 2 * i + Pow256(SintWidth(code).value) < 2 * Pow256(SintWidth(code).value)
    case VEnum(code, n) => UintWidth(code).Some? && n < Pow256(UintWidth(code).value)
    case VWide(units) => |units| < 256
    case _ => true
  }

  /** The type id of a v2 message. */
  function TypeId(v: Value): byte {
    match v
    case VNull => 0
    case VUint(code, _) => code
    case VSint(code, _) => code
    case VReal(_) => 4
    case VLreal(_) => 5
    case VText(_) => 12
    case VBool(_) => 13
    case VTime(_) => 100
    case VLtime(_) => 101
    case VDate(_) => 102
    case VDateTime(_) => 103
    case VTimeOfDay(_) => 104
    case VEnum(_, _) => 105
    case VWide(_) => 106
  }

  /** What the bridge makes of a value. */
  function JsonOf(v: Value): Json {
    match v
    case VNull => Null
    case VUint(_, n) => Number(n)
    case VSint(_, i) => Number(i)
    case VReal(bits) => Json32(bits)
    case VLreal(bits) => Json64(bits)
    case VText(s) => Str(s)
    case VBool(b) => Bool(b)
    case VTime(ms) => Literal(Durations.TimeText(ms))
    case VLtime(ticks) => Literal(Durations.LtimeText(ticks))
    case VTimeOfDay(ms) => Literal(Durations.TimeOfDayText(ms))
    case VDate(seconds) => Date(seconds)
    case VDateTime(seconds) => DateTime(seconds)
    case VEnum(_, n) => Number(n)
    case VWide(units) => Utf16(units)
  }

  function PutUint(n: nat, width: nat, t: bytes): (r: bytes)
    requires n < Pow256(width)
    ensures |r| == width + |t| && Tail(t, r)
    ensures GetUint(r, width) == Ok(n, t)
  {
    FromLeOfLe(width, n);
    Put(Le(width, n), t)
  }

  function PutSint(i: int, width: nat, t: bytes): (r: bytes)
    requires 0 <= 2 * i + Pow256(width) < 2 * Pow256(width)
    ensures |r| == width + |t| && Tail(t, r)
    ensures Take(r, width).Ok? && Take(r, width).rest == t && SignedOf(Take(r, width).value) == i
  {
    var u := if i < 0 then i + Pow256(width) else i;
    FromLeOfLe(width, u);
    Put(Le(width, u), t)
  }

  function FromUnits(units: seq<u16>): (raw: bytes)
    ensures |raw| == 2 * |units|
    ensures Units(raw) == units
  {
    if units == [] then []
    else
      var raw := Le16(units[0]) + FromUnits(units[1..]);
      assert raw[..2] == Le16(units[0]) && raw[2..] == FromUnits(units[1..]);
      raw
  }

  function PutWide(units: seq<u16>, t: bytes): (r: bytes)
    requires |units| < 256
    ensures |r| == 1 + 2 * |units| + |t| && Tail(t, r)
    ensures GetWide(r) == Ok(Utf16(units), t)
  {
    var u := Put(FromUnits(units), t);
    TailOfTail(t, u, PutU8(|units|, u));
    PutU8(|units|, u)
  }

  function PutEnum(code: byte, n: nat, t: bytes): (r: bytes)
    requires Encodable(VEnum(code, n))
    ensures |r| == 1 + UintWidth(code).value + |t| && Tail(t, r)
    ensures GetU8(r).Ok? && GetEnum(GetU8(r).rest, GetU8(r).value) == Ok(Number(n), t)
  {
    var u := PutUint(n, UintWidth(code).value, t);
    TailOfTail(t, u, PutU8(code, u));
    PutU8(code, u)
  }

  function PayloadSize(v: Value): nat
    requires Encodable(v)
  {
    match v
    case VNull => 0
    case VUint(code, _) => UintWidth(code).value
    case VSint(code, _) => SintWidth(code).value
    case VReal(_) => 4
    case VLreal(_) => 8
    case VText(s) => 1 + |s|
    case VBool(_) => 1
    case VTime(_) => 4
    case VLtime(_) => 8
    case VTimeOfDay(_) => 4
    case VDate(_) => 4
    case VDateTime(_) => 4
    case VEnum(code, _) => 1 + UintWidth(code).value
    case VWide(units) => 1 + 2 * |units|
  }

  function PutPayload(v: Value, t: bytes): (r: bytes)
    requires Encodable(v)
    ensures |r| == PayloadSize(v) + |t| && Tail(t, r)
  {
    match v
    case VNull => t
    case VUint(code, n) => PutUint(n, UintWidth(code).value, t)
    case VSint(code, i) => PutSint(i, SintWidth(code).value, t)
    case VReal(bits) => PutU32(bits, t)
    case VLreal(bits) => PutU64(bits, t)
    case VText(s) => PutText(s, t)
    case VBool(b) => PutU8(if b then 1 else 0, t)
    case VTime(ms) => PutU32(ms, t)
    case VLtime(ticks) => PutU64(ticks, t)
    case VTimeOfDay(ms) => PutU32(ms, t)
    case VDate(seconds) => PutU32(seconds, t)
    case VDateTime(seconds) => PutU32(seconds, t)
    case VEnum(code, n) => PutEnum(code, n, t)
    case VWide(units) => PutWide(units, t)
  }

  lemma NumberReadsBack(v: Value, t: bytes)
    requires Encodable(v) && (v.VUint? || v.VSint? || v.VEnum?)
    ensures GetValue(PutPayload(v, t), Remap(TypeId(v)), true) == Ok(JsonOf(v), t)
  {
    hide Take, GetU8, GetUint, GetEnum, SignedOf, PutUint, PutSint, PutEnum, Tail;
    assert v.VEnum? || Remap(v.code) == v.code;
  }

  /** A type that is not in the table is null and takes no bytes. */
  lemma OtherTypesAreNull(code: int, b: bytes, v2: bool)
    requires !(1 <= code <= 13) && code != 15 && code != 17 && !(20000 <= code <= 20006)
    ensures GetValue(b, code, v2) == Ok(Null, b)
  {
    assert ShapeOf(code) == Nothing;
  }

  /** The same in v2, whose type ids are bytes and go on at 100 with the types from TIME to WSTRING. */
  lemma OtherIdsAreNull(id: byte, b: bytes)
    requires !(1 <= id <= 13) && id != 15 && id != 17 && !(100 <= id <= 106)
    ensures GetTyped([id] + b) == Ok(Null, b)
  {
    assert ([id] + b)[1..] == b;
    OtherTypesAreNull(id, b, true);
  }

  /** And so is an enum over anything but an unsigned integer. */
  lemma OtherEnumsAreNull(underlying: byte, b: bytes)
    ensures UintWidth(underlying).None? <==> GetEnum(b, underlying) == Ok(Null, b)
  {
    hide Take;
  }

  lemma PayloadReadsBack(v: Value, t: bytes)
    requires Encodable(v)
    ensures GetValue(PutPayload(v, t), Remap(TypeId(v)), true) == Ok(JsonOf(v), t)
  {
    hide Take, GetU8, GetU32, GetU64, GetText, GetUint, GetEnum, GetWide, SignedOf, Json32, Json64;
    hide Durations.TimeOfDayText;
    hide PutU8, PutU32, PutU64, PutText, PutUint, PutSint, PutEnum, PutWide, Tail;
    hide Durations.TimeText, Durations.LtimeText;
    if v.VUint? || v.VSint? || v.VEnum? {
      NumberReadsBack(v, t);
    }
  }

  /** A v2 value with its type id. */
  function PutTyped(v: Value, t: bytes): (r: bytes)
    requires Encodable(v)
    ensures |r| == 1 + PayloadSize(v) + |t| && Tail(t, r)
    ensures GetTyped(r) == Ok(JsonOf(v), t)
  {
    var u := PutPayload(v, t);
    PayloadReadsBack(v, t);
    TailOfTail(t, u, PutU8(TypeId(v), u));
    PutU8(TypeId(v), u)
  }
}
