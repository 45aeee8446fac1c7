/** Log messages: v1, v2 and v2 with trace context (crates/tc-otel-ads/src/parser.rs). */
module Logs {
  import opened Bytes
  import opened Wire
  import opened Values

  const MAX_ARGUMENTS: nat := 32
  const MAX_CONTEXT_VARS: nat := 64

  /** A point in time; `Now` stands for the clock reading taken when the PLC's clock was not set. */
  datatype Time = Now | At(seconds: int, nanos: nat)

  function FileTime(x: u64): Time {
    if x < 116_444_736_000_000_000 then Now
    else At((x - 116_444_736_000_000_000) / 10_000_000, (x - 116_444_736_000_000_000) % 10_000_000 * 100)
  }

  function DcTaskTime(x: i64): Time {
    if x <= 0 then Now else At(946_684_800 + x / 1_000_000_000, x % 1_000_000_000)
  }

  /** A FILETIME counts units of 100 ns from 1601; no digit of it is lost. */
  lemma FileTimeExact(x: u64)
    ensures FileTime(x) == Now <==> x < 116_444_736_000_000_000
    ensures FileTime(x).At? ==>
              && FileTime(x).nanos < 1_000_000_000 && FileTime(x).nanos % 100 == 0
              && FileTime(x).seconds * 10_000_000 + FileTime(x).nanos / 100 + 116_444_736_000_000_000 == x
  {
  }

  /** A task time counts nanoseconds from 2000; no digit of it is lost. */
  lemma DcTaskTimeExact(x: i64)
    ensures DcTaskTime(x) == Now <==> x <= 0
    ensures DcTaskTime(x).At? ==>
              && DcTaskTime(x).nanos < 1_000_000_000
              && (DcTaskTime(x).seconds - 946_684_800) * 1_000_000_000 + DcTaskTime(x).nanos == x
  {
  }

  datatype LogEntry = LogEntry(
    version: byte, message: bytes, logger: bytes, level: byte, plcTime: Time, clockTime: Time,
    taskIndex: int, taskName: bytes, cycle: u32, appName: bytes, projectName: bytes, onlineChanges: u32,
    traceId: bytes, spanId: bytes, arguments: map<nat, Json>, context: map<bytes, Json>)

  // Context keys

  /** The prefix of every context key, before the number of the scope. */
  const KEY_PREFIX: bytes := [0x73, 0x63, 0x6F, 0x70, 0x65, 0x5F]

  function Key(scope: byte, name: bytes): bytes {
    KEY_PREFIX + (DecimalBytes(scope) + ([0x5F] + name))
  }

  // v2: the part that plain and traced entries share

  datatype Head = Head(level: byte, filetime: u64, dcTime: i64, task: byte, cycle: u32, args: byte, scopes: byte)

  datatype Body = Body(head: Head, message: bytes, logger: bytes, arguments: map<nat, Json>, context: map<bytes, Json>)

  function GetLevel(b: bytes): (r: Parsed<byte>)
    ensures |r.rest| <= |b|
  {
    var (level, t) :- GetU8(b);
    if level > 5 then Err(InvalidLevel(level), t) else Ok(level, t)
  }

  function GetHead(b: bytes): (r: Parsed<Head>)
    ensures |r.rest| <= |b|
  {
    var (level, b1) :- GetLevel(b);
    var (filetime, b2) :- GetU64(b1);
    var (dcTime, b3) :- GetI64(b2);
    var (task, b4) :- GetU8(b3);
    var (cycle, b5) :- GetU32(b4);
    var (args, b6) :- GetU8(b5);
    var (scopes, b7) :- GetU8(b6);
    Ok(Head(level, filetime, dcTime, task, cycle, args, scopes), b7)
  }

  function GetArguments(b: bytes, done: nat, count: nat, got: map<nat, Json>): (r: Parsed<map<nat, Json>>)
    ensures |r.rest| <= |b|
    decreases count - done
  {
    if done >= count then Ok(got, b)
    else if |got| >= MAX_ARGUMENTS then Err(TooManyArguments, b)
    else
      var (v, t) :- GetTyped(b);
      GetArguments(t, done + 1, count, got[done + 1 := v])
  }

  /** Context variables collected so far, and how many were read. */
  datatype Context = Context(vars: map<bytes, Json>, seen: nat)

  function GetProperties(b: bytes, scope: byte, left: nat, got: Context): (r: Parsed<Context>)
    ensures |r.rest| <= |b|
    decreases left
  {
    if left == 0 then Ok(got, b)
    else
      var (name, t) :- GetText(b);
      var (v, u) :- GetTyped(t);
      GetProperties(u, scope, left - 1, Context(got.vars[Key(scope, name) := v], got.seen + 1))
  }

  function GetScopes(b: bytes, left: nat, got: Context): (r: Parsed<Context>)
    ensures |r.rest| <= |b|
    decreases left
  {
    if left == 0 then Ok(got, b)
    else if got.seen >= MAX_CONTEXT_VARS then Err(TooManyContextVars, b)
    else
      var (scope, b1) :- GetU8(b);
      var (count, b2) :- GetU8(b1);
      var (more, b3) :- GetProperties(b2, scope, count, got);
      GetScopes(b3, left - 1, more)
  }

  function GetBody(b: bytes): (r: Parsed<Body>)
    ensures |r.rest| <= |b|
  {
    var (head, b1) :- GetHead(b);
    var (message, b2) :- GetText(b1);
    var (logger, b3) :- GetText(b2);
    var (arguments, b4) :- GetArguments(b3, 0, head.args, map[]);
    var (context, b5) :- GetScopes(b4, head.scopes, Context(map[], 0));
    Ok(Body(head, message, logger, arguments, context.vars), b5)
  }

  function EntryOf(body: Body, traceId: bytes, spanId: bytes): LogEntry {
    LogEntry(2, body.message, body.logger, body.head.level, FileTime(body.head.filetime), DcTaskTime(body.head.dcTime),
             body.head.task, [], body.head.cycle, [], [], 0, traceId, spanId, body.arguments, body.context)
  }

  /** The declared length decides where the entry ends, whatever was read. */
  function GetV2(b: bytes): (r: Parsed<LogEntry>)
    ensures |r.rest| <= |b| && (r.Ok? ==> |r.rest| <= |b| - 3)
  {
    var (version, b1) :- GetU8(b);
    if version != 2 then Err(InvalidVersion(version), b1)
    else
      var (length, b2) :- GetU16(b1);
      var (body, _) :- GetBody(b2);
      Ok(EntryOf(body, Zeros(16), Zeros(8)), Skip(b2, length))
  }

  function GetTraced(b: bytes): (r: Parsed<LogEntry>)
    ensures |r.rest| <= |b| && (r.Ok? ==> |r.rest| <= |b| - 3)
  {
    var (found, b1) :- GetU8(b);
    if found != 9 then Err(InvalidType(found), b1)
    else
      var (length, b2) :- GetU16(b1);
      var (traceId, b3) :- Take(b2, 16);
      var (spanId, b4) :- Take(b3, 8);
      var (body, _) :- GetBody(b4);
      Ok(EntryOf(body, traceId, spanId), Skip(b2, length))
  }

  // v1

  datatype Items = Items(arguments: map<nat, Json>, context: map<bytes, Json>)

  function GetItems(b: bytes, got: Items): (r: Parsed<Items>)
    ensures |r.rest| <= |b|
    decreases |b|
  {
    if b == [] then Ok(got, b)
    else
      var (kind, t) :- GetU8(b);
      if kind == 0 || kind == 255 then Ok(got, t)
      else if kind == 1 then
        if |got.arguments| >= MAX_ARGUMENTS then Err(TooManyArguments, t)
        else
          var (index, b1) :- GetU8(t);
          var (v, b2) :- GetTagged(b1);
          GetItems(b2, got.(arguments := got.arguments[index as nat := v]))
      else if kind == 2 then
        if |got.context| >= MAX_CONTEXT_VARS then Err(TooManyContextVars, t)
        else
          var (scope, b1) :- GetU8(t);
          var (name, b2) :- GetText(b1);
          var (v, b3) :- GetTagged(b2);
          GetItems(b3, got.(context := got.context[Key(scope, name) := v]))
      else GetItems(t, got)
  }

  /** Message, logger, level and the two times. */
  datatype V1Start = V1Start(version: byte, message: bytes, logger: bytes, level: byte, filetime: u64, dcTime: i64)

  function GetV1Start(b: bytes): (r: Parsed<V1Start>)
    ensures |r.rest| <= |b| && (r.Ok? ==> |r.rest| <= |b| - 3)
  {
    var (version, b1) :- GetU8(b);
    if !(1 <= version <= 3) then Err(InvalidVersion(version), b1)
    else
      var (message, b2) :- GetText(b1);
      var (logger, b3) :- GetText(b2);
      var (level, b4) :- GetU16(b3);
      if level % 256 > 5 then Err(InvalidLevel(level), b4)
      else
        var (filetime, b5) :- GetU64(b4);
        var (dcTime, b6) :- GetI64(b5);
        Ok(V1Start(version, message, logger, level % 256, filetime, dcTime), b6)
  }

  datatype V1Origin = V1Origin(
    taskIndex: int, taskName: bytes, cycle: u32, appName: bytes, projectName: bytes, onlineChanges: u32)

  function GetV1Origin(b: bytes): (r: Parsed<V1Origin>)
    ensures |r.rest| <= |b|
  {
    var (taskIndex, b1) :- Take(b, 4);
    var (taskName, b2) :- GetText(b1);
    var (cycle, b3) :- GetU32(b2);
    var (appName, b4) :- GetText(b3);
    var (projectName, b5) :- GetText(b4);
    var (onlineChanges, b6) :- GetU32(b5);
    Ok(V1Origin(SignedOf(taskIndex), taskName, cycle, appName, projectName, onlineChanges), b6)
  }

  function GetV1(b: bytes): (r: Parsed<LogEntry>)
    ensures |r.rest| <= |b| && (r.Ok? ==> |r.rest| <= |b| - 3)
  {
    var (start, b1) :- GetV1Start(b);
    var (origin, b2) :- GetV1Origin(b1);
    var (items, b3) :- GetItems(b2, Items(map[], map[]));
    Ok(LogEntry(start.version, start.message, start.logger, start.level, FileTime(start.filetime),
                DcTaskTime(start.dcTime), origin.taskIndex, origin.taskName, origin.cycle, origin.appName,
                origin.projectName, origin.onlineChanges, Zeros(16), Zeros(8), items.arguments, items.context), b3)
  }

  // The reader

  method ReadLevel(reader: Reader) returns (r: Result<byte>)
    requires reader.pos <= |reader.data|
    modifies reader`pos
    ensures old(reader.pos) <= reader.pos <= |reader.data|
    ensures AsParsed(r, reader.Rest()) == GetLevel(old(reader.Rest()))
  {
    hide Take, GetU8, GetU16, GetU32, GetU64, GetI64, GetText;
    var level :- reader.ReadU8();
    r := if level > 5 then Bad(InvalidLevel(level)) else Good(level);
  }

  method ReadHead(reader: Reader) returns (r: Result<Head>)
    requires reader.pos <= |reader.data|
    modifies reader`pos
    ensures old(reader.pos) <= reader.pos <= |reader.data|
    ensures AsParsed(r, reader.Rest()) == GetHead(old(reader.Rest()))
  {
    hide Take, GetU8, GetU16, GetU32, GetU64, GetI64, GetText, GetLevel;
    var level :- ReadLevel(reader);
    var filetime :- reader.ReadU64();
    var dcTime :- reader.ReadI64();
    var task :- reader.ReadU8();
    var cycle :- reader.ReadU32();
    var args :- reader.ReadU8();
    var scopes :- reader.ReadU8();
    r := Good(Head(level, filetime, dcTime, task, cycle, args, scopes));
  }

  method ReadArguments(reader: Reader, count: nat) returns (r: Result<map<nat, Json>>)
    requires reader.pos <= |reader.data|
    modifies reader`pos
    ensures old(reader.pos) <= reader.pos <= |reader.data|
    ensures AsParsed(r, reader.Rest()) == GetArguments(old(reader.Rest()), 0, count, map[])
  {
    hide GetTyped;
    var arguments: map<nat, Json> := map[];
    for i := 0 to count
      invariant old(reader.pos) <= reader.pos <= |reader.data|
      invariant GetArguments(reader.Rest(), i, count, arguments) == GetArguments(old(reader.Rest()), 0, count, map[])
    {
      if |arguments| >= MAX_ARGUMENTS {
        return Bad(TooManyArguments);
      }
      var v :- ReadTyped(reader);
      arguments := arguments[i + 1 := v];
    }
    r := Good(arguments);
  }

  method ReadProperties(reader: Reader, scope: byte, count: nat, got: Context) returns (r: Result<Context>)
    requires reader.pos <= |reader.data|
    modifies reader`pos
    ensures old(reader.pos) <= reader.pos <= |reader.data|
    ensures AsParsed(r, reader.Rest()) == GetProperties(old(reader.Rest()), scope, count, got)
  {
    hide GetTyped, GetText, Key;
    var context := got;
    for i := 0 to count
      invariant old(reader.pos) <= reader.pos <= |reader.data|
      invariant GetProperties(reader.Rest(), scope, count - i, context)
                == GetProperties(old(reader.Rest()), scope, count, got)
    {
      var name :- reader.ReadText();
      var v :- ReadTyped(reader);
      context := Context(context.vars[Key(scope, name) := v], context.seen + 1);
    }
    r := Good(context);
  }

  method ReadScopes(reader: Reader, count: nat) returns (r: Result<Context>)
    requires reader.pos <= |reader.data|
    modifies reader`pos
    ensures old(reader.pos) <= reader.pos <= |reader.data|
    ensures AsParsed(r, reader.Rest()) == GetScopes(old(reader.Rest()), count, Context(map[], 0))
  {
    hide GetU8, GetProperties;
    var context := Context(map[], 0);
    for i := 0 to count
      invariant old(reader.pos) <= reader.pos <= |reader.data|
      invariant GetScopes(reader.Rest(), count - i, context) == GetScopes(old(reader.Rest()), count, Context(map[], 0))
    {
      if context.seen >= MAX_CONTEXT_VARS {
        return Bad(TooManyContextVars);
      }
      var scope :- reader.ReadU8();
      var properties :- reader.ReadU8();
      context :- ReadProperties(reader, scope, properties, context);
    }
    r := Good(context);
  }

  method ReadBody(reader: Reader) returns (r: Result<Body>)
    requires reader.pos <= |reader.data|
    modifies reader`pos
    ensures old(reader.pos) <= reader.pos <= |reader.data|
    ensures AsParsed(r, reader.Rest()) == GetBody(old(reader.Rest()))
  {
    hide GetHead, GetText, GetArguments, GetScopes;
    var head :- ReadHead(reader);
    var message :- reader.ReadText();
    var logger :- reader.ReadText();
    var arguments :- ReadArguments(reader, head.args);
    var context :- ReadScopes(reader, head.scopes);
    r := Good(Body(head, message, logger, arguments, context.vars));
  }

  /** Moves the cursor to `length` bytes after `start`, backwards or past the end if need be. */
  method JumpTo(reader: Reader, start: nat, length: nat, ghost b: bytes)
    requires start <= |reader.data| && b == reader.data[start..]
    modifies reader`pos
    ensures reader.pos == start + length && reader.Rest() == Skip(b, length)
  {
    reader.pos := start + length;
    assert length <= |b| ==> b[length..] == reader.data[start + length..];
  }

  method ParseV2(reader: Reader) returns (r: Result<LogEntry>)
    requires reader.pos <= |reader.data|
    modifies reader`pos
    ensures old(reader.pos) <= reader.pos && (r.Bad? ==> reader.pos <= |reader.data|)
    ensures AsParsed(r, reader.Rest()) == GetV2(old(reader.Rest()))
  {
    hide GetU8, GetU16, GetBody, Skip, EntryOf, Zeros;
    var version :- reader.ReadU8();
    if version != 2 {
      return Bad(InvalidVersion(version));
    }
    var length :- reader.ReadU16();
    var start := reader.pos;
    ghost var b2 := reader.Rest();
    var body :- ReadBody(reader);
    JumpTo(reader, start, length, b2);
    r := Good(EntryOf(body, Zeros(16), Zeros(8)));
  }

  method ParseTraced(reader: Reader) returns (r: Result<LogEntry>)
    requires reader.pos <= |reader.data|
    modifies reader`pos
    ensures old(reader.pos) <= reader.pos && (r.Bad? ==> reader.pos <= |reader.data|)
    ensures AsParsed(r, reader.Rest()) == GetTraced(old(reader.Rest()))
  {
    hide GetU8, GetU16, Take, GetBody, Skip, EntryOf;
    var found :- reader.ReadU8();
    if found != 9 {
      return Bad(InvalidType(found));
    }
    var length :- reader.ReadU16();
    var start := reader.pos;
    ghost var b2 := reader.Rest();
    var traceId :- reader.ReadBytes(16);
    var spanId :- reader.ReadBytes(8);
    var body :- ReadBody(reader);
    JumpTo(reader, start, length, b2);
    r := Good(EntryOf(body, traceId, spanId));
  }

  method ReadItems(reader: Reader) returns (r: Result<Items>)
    requires reader.pos <= |reader.data|
    modifies reader`pos
    ensures old(reader.pos) <= reader.pos <= |reader.data|
    ensures AsParsed(r, reader.Rest()) == GetItems(old(reader.Rest()), Items(map[], map[]))
  {
    hide GetU8, GetText, GetTagged, Key;
    var arguments: map<nat, Json>, context: map<bytes, Json> := map[], map[];
    while true
      invariant old(reader.pos) <= reader.pos <= |reader.data|
      invariant GetItems(reader.Rest(), Items(arguments, context)) == GetItems(old(reader.Rest()), Items(map[], map[]))
      decreases |reader.data| - reader.pos
    {
      if reader.Remaining() == 0 {
        break;
      }
      var kind :- reader.ReadU8();
      if kind == 0 || kind == 255 {
        return Good(Items(arguments, context));
      }
      if kind == 1 {
        if |arguments| >= MAX_ARGUMENTS {
          return Bad(TooManyArguments);
        }
        var index :- reader.ReadU8();
        var v :- ReadTagged(reader);
        arguments := arguments[index as nat := v];
      } else if kind == 2 {
        if |context| >= MAX_CONTEXT_VARS {
          return Bad(TooManyContextVars);
        }
        var scope :- reader.ReadU8();
        var name :- reader.ReadText();
        var v :- ReadTagged(reader);
        context := context[Key(scope, name) := v];
      }
    }
    r := Good(Items(arguments, context));
  }

  method ReadV1Start(reader: Reader) returns (r: Result<V1Start>)
    requires reader.pos <= |reader.data|
    modifies reader`pos
    ensures old(reader.pos) <= reader.pos <= |reader.data|
    ensures AsParsed(r, reader.Rest()) == GetV1Start(old(reader.Rest()))
  {
    hide Take, GetU8, GetU16, GetU32, GetU64, GetI64, GetText;
    var version :- reader.ReadU8();
    if !(1 <= version <= 3) {
      return Bad(InvalidVersion(version));
    }
    var message :- reader.ReadText();
    var logger :- reader.ReadText();
    var level :- reader.ReadU16();
    if level % 256 > 5 {
      return Bad(InvalidLevel(level));
    }
    var filetime :- reader.ReadU64();
    var dcTime :- reader.ReadI64();
    r := Good(V1Start(version, message, logger, level % 256, filetime, dcTime));
  }

  method ReadV1Origin(reader: Reader) returns (r: Result<V1Origin>)
    requires reader.pos <= |reader.data|
    modifies reader`pos
    ensures old(reader.pos) <= reader.pos <= |reader.data|
    ensures AsParsed(r, reader.Rest()) == GetV1Origin(old(reader.Rest()))
  {
    hide Take, GetU8, GetU16, GetU32, GetU64, GetI64, GetText, SignedOf;
    var taskIndex :- reader.ReadBytes(4);
    var taskName :- reader.ReadText();
    var cycle :- reader.ReadU32();
    var appName :- reader.ReadText();
    var projectName :- reader.ReadText();
    var onlineChanges :- reader.ReadU32();
    r := Good(V1Origin(SignedOf(taskIndex), taskName, cycle, appName, projectName, onlineChanges));
  }

  method ParseV1(reader: Reader) returns (r: Result<LogEntry>)
    requires reader.pos <= |reader.data|
    modifies reader`pos
    ensures old(reader.pos) <= reader.pos <= |reader.data|
    ensures AsParsed(r, reader.Rest()) == GetV1(old(reader.Rest()))
  {
    hide GetV1Start, GetV1Origin, GetItems, Zeros, FileTime, DcTaskTime;
    var start :- ReadV1Start(reader);
    var origin :- ReadV1Origin(reader);
    var items :- ReadItems(reader);
    r := Good(LogEntry(start.version, start.message, start.logger, start.level, FileTime(start.filetime),
                       DcTaskTime(start.dcTime), origin.taskIndex, origin.taskName, origin.cycle, origin.appName,
                       origin.projectName, origin.onlineChanges, Zeros(16), Zeros(8), items.arguments, items.context));
  }
}
