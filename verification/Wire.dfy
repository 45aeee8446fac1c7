/** The byte cursor of the ADS parser (`BytesReader` in crates/tc-otel-ads/src/parser.rs), its meaning on
    the bytes that remain, and the encoders that undo it. */
module Wire {
  import opened Bytes
  import Utf8

  datatype Error =
    | Incomplete(expected: nat, got: nat)
    | InvalidVersion(version: byte)
    | InvalidType(found: byte)
    | InvalidLevel(level: u16)
    | InvalidKind(found: byte)
    | InvalidValueType(found: byte)
    | InvalidUtf8
    | TooLong(length: nat)
    | TooManyArguments
    | TooManyContextVars
    | TooManyAttributes(count: nat)
    | TooManyBuckets(count: nat)
    | TooBig(size: nat)

  /** The outcome of a step on the remaining bytes, and what then remains. */
  datatype Parsed<+T> = Ok(value: T, rest: bytes) | Err(error: Error, rest: bytes) {
    predicate IsFailure() { Err? }

    function PropagateFailure<U>(): Parsed<U>
      requires Err?
    {
      Err(error, rest)
    }

    function Extract(): (T, bytes)
      requires Ok?
    {
      (value, rest)
    }
  }

  /** What a method of the reader returns; the cursor says what remains. */
  datatype Result<+T> = Good(value: T) | Bad(error: Error) {
    predicate IsFailure() { Bad? }

    function PropagateFailure<U>(): Result<U>
      requires Bad?
    {
      Bad(error)
    }

    function Extract(): T
      requires Good?
    {
      value
    }
  }

  function AsParsed<T>(r: Result<T>, rest: bytes): Parsed<T> {
    match r
    case Good(x) => Ok(x, rest)
    case Bad(e) => Err(e, rest)
  }

  // Meaning of the primitive reads

  function Take(b: bytes, n: nat): (r: Parsed<bytes>)
    ensures |r.rest| <= |b|
    ensures r.Ok? ==> |r.value| == n && |r.rest| == |b| - n
    ensures r.Ok? <==> n <= |b|
  {
    if n > |b| then Err(Incomplete(n, |b|), b) else Ok(b[..n], b[n..])
  }

  function GetU8(b: bytes): (r: Parsed<byte>)
    ensures |r.rest| <= |b| && (r.Ok? ==> |r.rest| == |b| - 1)
  {
    var (x, t) :- Take(b, 1);
    Ok(x[0], t)
  }

  function GetU16(b: bytes): (r: Parsed<u16>)
    ensures |r.rest| <= |b| && (r.Ok? ==> |r.rest| == |b| - 2)
  {
    var (x, t) :- Take(b, 2);
    Ok(U16(x), t)
  }

  function GetU32(b: bytes): (r: Parsed<u32>)
    ensures |r.rest| <= |b| && (r.Ok? ==> |r.rest| == |b| - 4)
  {
    var (x, t) :- Take(b, 4);
    Ok(U32(x), t)
  }

  function GetU64(b: bytes): (r: Parsed<u64>)
    ensures |r.rest| <= |b| && (r.Ok? ==> |r.rest| == |b| - 8)
  {
    var (x, t) :- Take(b, 8);
    Ok(U64(x), t)
  }

  function GetI64(b: bytes): (r: Parsed<i64>)
    ensures |r.rest| <= |b| && (r.Ok? ==> |r.rest| == |b| - 8)
  {
    var (x, t) :- Take(b, 8);
    Ok(I64(x), t)
  }

  /** A string: one length byte and as many bytes, decoded lossily. */
  function GetText(b: bytes): (r: Parsed<bytes>)
    ensures |r.rest| <= |b| && (r.Ok? ==> |r.rest| < |b|)
  {
    var (n, t) :- GetU8(b);
    var (s, u) :- Take(t, n);
    Ok(Utf8.Lossy(s), u)
  }

  /** `n` bytes that must be well-formed UTF-8. */
  function GetStrict(b: bytes, n: nat): (r: Parsed<bytes>)
    ensures |r.rest| <= |b|
  {
    var (s, t) :- Take(b, n);
    if Utf8.Valid(s) then Ok(s, t) else Err(InvalidUtf8, t)
  }

  /** Without the first `n` bytes, or empty if there are not so many. */
  function Skip(b: bytes, n: nat): (r: bytes)
    ensures |r| <= |b|
    ensures n > 0 && b != [] ==> |r| < |b|
  {
    if n <= |b| then b[n..] else []
  }

  // Encoders: each puts a field in front of the bytes that follow

  /** `t` is the end of `b`. */
  predicate Tail(t: bytes, b: bytes) {
    |t| <= |b| && b[|b| - |t|..] == t
  }

  lemma TailOfTail(t: bytes, u: bytes, b: bytes)
    requires Tail(t, u) && Tail(u, b)
    ensures Tail(t, b)
  {
    assert b[|b| - |t|..] == b[|b| - |u|..][|u| - |t|..];
  }

  function Put(s: bytes, t: bytes): (r: bytes)
    ensures |r| == |s| + |t| && Tail(t, r)
    ensures Take(r, |s|) == Ok(s, t)
  {
    var r := s + t;
    assert r[..|s|] == s && r[|s|..] == t;
    r
  }

  function PutU8(x: byte, t: bytes): (r: bytes)
    ensures |r| == 1 + |t| && Tail(t, r)
    ensures GetU8(r) == Ok(x, t)
    ensures r[0] == x
  {
    Put([x], t)
  }

  function PutU16(x: u16, t: bytes): (r: bytes)
    ensures |r| == 2 + |t| && Tail(t, r)
    ensures GetU16(r) == Ok(x, t)
  {
    Put(Le16(x), t)
  }

  function PutU32(x: u32, t: bytes): (r: bytes)
    ensures |r| == 4 + |t| && Tail(t, r)
    ensures GetU32(r) == Ok(x, t)
  {
    Put(Le32(x), t)
  }

  function PutU64(x: u64, t: bytes): (r: bytes)
    ensures |r| == 8 + |t| && Tail(t, r)
    ensures GetU64(r) == Ok(x, t)
  {
    Put(Le64(x), t)
  }

  function PutI64(x: i64, t: bytes): (r: bytes)
    ensures |r| == 8 + |t| && Tail(t, r)
    ensures GetI64(r) == Ok(x, t)
  {
    Put(LeI64(x), t)
  }

  type Text = s: bytes | |s| < 256 && Utf8.Valid(s)

  function PutText(s: Text, t: bytes): (r: bytes)
    ensures |r| == 1 + |s| + |t| && Tail(t, r)
    ensures GetText(r) == Ok(s, t)
  {
    Utf8.LossyOfValid(s);
    TailOfTail(t, Put(s, t), PutU8(|s|, Put(s, t)));
    PutU8(|s|, Put(s, t))
  }

  function PutStrict(s: bytes, t: bytes): (r: bytes)
    requires Utf8.Valid(s)
    ensures |r| == |s| + |t| && Tail(t, r)
    ensures GetStrict(r, |s|) == Ok(s, t)
  {
    Put(s, t)
  }

  // The same reads by offset

  lemma ByteAt(b: bytes, i: nat)
    requires i < |b|
    ensures GetU8(b[i..]) == Ok(b[i], b[i + 1..])
  {
    assert b[i..][1..] == b[i + 1..];
  }

  lemma TakeAt(b: bytes, i: nat, n: nat)
    requires i <= |b|
    ensures Take(b[i..], n) == if i + n <= |b| then Ok(b[i..i + n], b[i + n..]) else Err(Incomplete(n, |b| - i), b[i..])
  {
    if i + n <= |b| {
      assert b[i..][..n] == b[i..i + n] && b[i..][n..] == b[i + n..];
    }
  }

  lemma U16At(b: bytes, i: nat)
    requires i + 2 <= |b|
    ensures GetU16(b[i..]) == Ok(U16(b[i..i + 2]), b[i + 2..])
  {
    TakeAt(b, i, 2);
  }

  lemma U32At(b: bytes, i: nat)
    requires i + 4 <= |b|
    ensures GetU32(b[i..]) == Ok(U32(b[i..i + 4]), b[i + 4..])
  {
    TakeAt(b, i, 4);
  }

  lemma I64At(b: bytes, i: nat)
    requires i + 8 <= |b|
    ensures GetI64(b[i..]) == Ok(I64(b[i..i + 8]), b[i + 8..])
  {
    TakeAt(b, i, 8);
  }

  // The cursor

  class Reader {
    const data: bytes
    var pos: nat

    constructor (data: bytes)
      ensures this.data == data && pos == 0 && Rest() == data
    {
      this.data := data;
      pos := 0;
    }

    /** The bytes that remain. The cursor can stand past the end after a jump. */
    function Rest(): bytes
      reads this
    {
      if pos <= |data| then data[pos..] else []
    }

    function Remaining(): (n: nat)
      reads this
      ensures n == |Rest()|
    {
      if pos <= |data| then |data| - pos else 0
    }

    function Peek(): (r: Option<byte>)
      reads this
      ensures r == if Rest() == [] then None else Some(Rest()[0])
    {
      if pos < |data| then Some(data[pos]) else None
    }

    /** Every read needs the cursor in bounds, and keeps it there. */
    method ReadBytes(n: nat) returns (r: Result<bytes>)
      requires pos <= |data|
      modifies this`pos
      ensures old(pos) <= pos <= |data|
      ensures AsParsed(r, Rest()) == Take(old(Rest()), n)
    {
      if Remaining() < n {
        return Bad(Incomplete(n, Remaining()));
      }
      assert Rest()[..n] == data[pos..pos + n] && Rest()[n..] == data[pos + n..];
      r := Good(data[pos..pos + n]);
      pos := pos + n;
    }

    method ReadU8() returns (r: Result<byte>)
      requires pos <= |data|
      modifies this`pos
      ensures old(pos) <= pos <= |data|
      ensures AsParsed(r, Rest()) == GetU8(old(Rest()))
    {
      var b :- ReadBytes(1);
      r := Good(b[0]);
    }

    method ReadU16() returns (r: Result<u16>)
      requires pos <= |data|
      modifies this`pos
      ensures old(pos) <= pos <= |data|
      ensures AsParsed(r, Rest()) == GetU16(old(Rest()))
    {
      var b :- ReadBytes(2);
      r := Good(U16(b));
    }

    method ReadU32() returns (r: Result<u32>)
      requires pos <= |data|
      modifies this`pos
      ensures old(pos) <= pos <= |data|
      ensures AsParsed(r, Rest()) == GetU32(old(Rest()))
    {
      var b :- ReadBytes(4);
      r := Good(U32(b));
    }

    method ReadU64() returns (r: Result<u64>)
      requires pos <= |data|
      modifies this`pos
      ensures old(pos) <= pos <= |data|
      ensures AsParsed(r, Rest()) == GetU64(old(Rest()))
    {
      var b :- ReadBytes(8);
      r := Good(U64(b));
    }

    method ReadI64() returns (r: Result<i64>)
      requires pos <= |data|
      modifies this`pos
      ensures old(pos) <= pos <= |data|
      ensures AsParsed(r, Rest()) == GetI64(old(Rest()))
    {
      var b :- ReadBytes(8);
      r := Good(I64(b));
    }

    method ReadText() returns (r: Result<bytes>)
      requires pos <= |data|
      modifies this`pos
      ensures old(pos) <= pos <= |data|
      ensures AsParsed(r, Rest()) == GetText(old(Rest()))
    {
      var n :- ReadU8();
      var s :- ReadBytes(n);
      r := Good(Utf8.Lossy(s));
    }

    method ReadStrict(n: nat) returns (r: Result<bytes>)
      requires pos <= |data|
      modifies this`pos
      ensures old(pos) <= pos <= |data|
      ensures AsParsed(r, Rest()) == GetStrict(old(Rest()), n)
    {
      var s :- ReadBytes(n);
      r := if Utf8.Valid(s) then Good(s) else Bad(InvalidUtf8);
    }
  }
}
