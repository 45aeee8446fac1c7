/** Encoders for v2 log messages, written from the documented layouts, and what the parser makes of them. */
module LogWriter {
  import opened Bytes
  import opened Wire
  import opened Values
  import opened Logs
  import Durations
  import Utf8

  // Context keys

  predicate IsAscii(s: string) {
    forall i | 0 <= i < |s| :: s[i] as int < 128
  }

  function Ascii(s: string): (b: bytes)
    requires IsAscii(s)
    ensures |b| == |s| && forall i | 0 <= i < |s| :: b[i] == s[i] as int
  {
    if s == "" then [] else Ascii(s[..|s| - 1]) + [s[|s| - 1] as int]
  }

  lemma {:induction false} DecimalIsAscii(n: nat)
    ensures IsAscii(Durations.Decimal(n)) && Ascii(Durations.Decimal(n)) == DecimalBytes(n)
  {
    var s := Durations.Decimal(n);
    assert forall i | 0 <= i < |s| :: Durations.IsDigit(s[i]);
    if n < 10 {
      assert s[..|s| - 1] == "";
    } else {
      DecimalIsAscii(n / 10);
      assert s[..|s| - 1] == Durations.Decimal(n / 10);
    }
  }

  lemma AsciiAppend(a: string, b: string)
    requires IsAscii(a) && IsAscii(b)
    ensures IsAscii(a + b) && Ascii(a + b) == Ascii(a) + Ascii(b)
  {
    hide Ascii;
  }

  lemma LiteralsAreAscii()
    ensures IsAscii("scope_") && Ascii("scope_") == KEY_PREFIX
    ensures IsAscii("_") && Ascii("_") == [0x5F]
  {
    hide Ascii;
  }

  /** A context key reads as the scope's number and the variable's name. */
  lemma KeyText(scope: byte, name: bytes)
    ensures var text := "scope_" + Durations.Decimal(scope) + "_";
            IsAscii(text) && Key(scope, name) == Ascii(text) + name
  {
    hide Ascii, IsAscii;
    var d := Durations.Decimal(scope);
    DecimalIsAscii(scope);
    LiteralsAreAscii();
    AsciiAppend("scope_", d);
    AsciiAppend("scope_" + d, "_");
  }

  /** The number and the separator can be found again, so different variables get different keys. */
  lemma KeyInjective(s1: byte, n1: bytes, s2: byte, n2: bytes)
    requires Key(s1, n1) == Key(s2, n2)
    ensures s1 == s2 && n1 == n2
  {
    var d1, d2 := DecimalBytes(s1), DecimalBytes(s2);
    var k1, k2 := Key(s1, n1), Key(s2, n2);
    assert k1[6..] == d1 + ([0x5F] + n1) && k2[6..] == d2 + ([0x5F] + n2);
    SameLength(d1, n1, d2, n2);
    SameLength(d2, n2, d1, n1);
    assert k1[6..][..|d1|] == d1 && k2[6..][..|d2|] == d2;
    assert k1[6..][|d1| + 1..] == n1 && k2[6..][|d2| + 1..] == n2;
    DecimalInjective(s1, s2);
  }

  lemma SameLength(d1: bytes, n1: bytes, d2: bytes, n2: bytes)
    requires forall i | 0 <= i < |d1| :: 0x30 <= d1[i] <= 0x39
    requires d1 + ([0x5F] + n1) == d2 + ([0x5F] + n2)
    ensures |d1| <= |d2|
  {
    var k := d2 + ([0x5F] + n2);
    assert k[|d2|] == 0x5F;
    assert forall i | 0 <= i < |d1| :: k[i] == d1[i];
  }

  function ReadDecimal(s: bytes): int {
    if s == [] then 0 else 10 * ReadDecimal(s[..|s| - 1]) + (s[|s| - 1] as int - 0x30)
  }

  lemma {:induction false} DecimalReadsBack(n: nat)
    ensures ReadDecimal(DecimalBytes(n)) == n
  {
    var s := DecimalBytes(n);
    if n < 10 {
      assert s[..|s| - 1] == [];
    } else {
      DecimalReadsBack(n / 10);
      assert s[..|s| - 1] == DecimalBytes(n / 10);
    }
  }

  lemma DecimalInjective(a: nat, b: nat)
    requires DecimalBytes(a) == DecimalBytes(b)
    ensures a == b
  {
    DecimalReadsBack(a);
    DecimalReadsBack(b);
  }

  // What a PLC logs

  datatype Var = Var(scope: byte, name: Text, value: Value)

  datatype Prop = Prop(name: Text, value: Value)

  datatype Scope = Scope(id: byte, props: seq<Prop>)

  datatype Log = Log(level: byte, filetime: u64, dcTime: i64, task: byte, cycle: u32, message: Text, logger: Text,
                     args: seq<Value>, scopes: seq<Scope>)

  predicate FitsProps(props: seq<Prop>) {
    |props| < 256 && forall p | p in props :: Encodable(p.value)
  }

  function Total(scopes: seq<Scope>): nat {
    if scopes == [] then 0 else Total(scopes[..|scopes| - 1]) + |scopes[|scopes| - 1].props|
  }

  /** The parser gives up at a scope before which there already were 64 variables. */
  predicate FitsScopes(scopes: seq<Scope>) {
    && |scopes| < 256
    && (forall s | s in scopes :: FitsProps(s.props))
    && (forall i | 0 <= i < |scopes| :: Total(scopes[..i]) < MAX_CONTEXT_VARS)
  }

  predicate Fits(m: Log) {
    && m.level <= 5
    && |m.args| <= MAX_ARGUMENTS && (forall v | v in m.args :: Encodable(v))
    && FitsScopes(m.scopes)
  }

  // What the bridge should make of it

  /** Arguments are numbered from 1. */
  function Numbered(args: seq<Value>): map<nat, Json> {
    map k: nat | k in Numbers(|args|) :: JsonOf(args[k - 1])
  }

  function Numbers(n: nat): (s: set<nat>)
    ensures forall k :: k in s <==> 1 <= k <= n
  {
    if n == 0 then {} else Numbers(n - 1) + {n}
  }

  function VarsOf(id: byte, props: seq<Prop>): seq<Var> {
    if props == [] then []
    else VarsOf(id, props[..|props| - 1]) + [Var(id, props[|props| - 1].name, props[|props| - 1].value)]
  }

  function AllVars(scopes: seq<Scope>): seq<Var> {
    if scopes == [] then []
    else AllVars(scopes[..|scopes| - 1]) + VarsOf(scopes[|scopes| - 1].id, scopes[|scopes| - 1].props)
  }

  function Collect(vars: seq<Var>): map<bytes, Json> {
    if vars == [] then map[]
    else
      var last := vars[|vars| - 1];
      Collect(vars[..|vars| - 1])[Key(last.scope, last.name) := JsonOf(last.value)]
  }

  /** A variable that is not set again has its value in the collected context. */
  lemma {:induction false} LastVarWins(vars: seq<Var>, i: nat)
    requires i < |vars|
    requires forall j | i < j < |vars| :: vars[j].scope != vars[i].scope || vars[j].name != vars[i].name
    ensures Key(vars[i].scope, vars[i].name) in Collect(vars)
    ensures Collect(vars)[Key(vars[i].scope, vars[i].name)] == JsonOf(vars[i].value)
  {
    var n := |vars| - 1;
    if i < n {
      LastVarWins(vars[..n], i);
      if Key(vars[i].scope, vars[i].name) == Key(vars[n].scope, vars[n].name) {
        KeyInjective(vars[i].scope, vars[i].name, vars[n].scope, vars[n].name);
      }
    }
  }

  /** Nothing else is in it. */
  lemma {:induction false} CollectedAreVars(vars: seq<Var>, k: bytes)
    requires k in Collect(vars)
    ensures exists i | 0 <= i < |vars| :: k == Key(vars[i].scope, vars[i].name)
  {
    var n := |vars| - 1;
    if k != Key(vars[n].scope, vars[n].name) {
      CollectedAreVars(vars[..n], k);
      var i :| 0 <= i < n && k == Key(vars[..n][i].scope, vars[..n][i].name);
      assert vars[..n][i] == vars[i];
    }
  }

  function HeadOf(m: Log): Head
    requires Fits(m)
  {
    Head(m.level, m.filetime, m.dcTime, m.task, m.cycle, |m.args|, |m.scopes|)
  }

  function BodyOf(m: Log): Body
    requires Fits(m)
  {
    Body(HeadOf(m), m.message, m.logger, Numbered(m.args), Collect(AllVars(m.scopes)))
  }

  /** The entry a log stands for, with the ids of its trace. */
  function EntryFor(m: Log, traceId: bytes, spanId: bytes): LogEntry {
    LogEntry(version := 2, message := m.message, logger := m.logger, level := m.level,
             plcTime := FileTime(m.filetime), clockTime := DcTaskTime(m.dcTime),
             taskIndex := m.task, taskName := [], cycle := m.cycle, appName := [], projectName := [],
             onlineChanges := 0, traceId := traceId, spanId := spanId,
             arguments := Numbered(m.args), context := Collect(AllVars(m.scopes)))
  }

  // Writing

  function PutHead(h: Head, t: bytes): (r: bytes)
    ensures |r| == 24 + |t| && Tail(t, r)
    ensures h.level <= 5 ==> GetHead(r) == Ok(h, t)
  {
    var t1 := PutU8(h.args, PutU8(h.scopes, t));
    var t2 := PutU8(h.task, PutU32(h.cycle, t1));
    var t3 := PutU64(h.filetime, PutI64(h.dcTime, t2));
    TailOfTail(t, PutU8(h.scopes, t), t1);
    TailOfTail(t1, PutU32(h.cycle, t1), t2);
    TailOfTail(t2, PutI64(h.dcTime, t2), t3);
    TailOfTail(t, t1, t2);
    TailOfTail(t, t2, t3);
    TailOfTail(t, t3, PutU8(h.level, t3));
    PutU8(h.level, t3)
  }

  function ArgumentsSize(vs: seq<Value>): nat
    requires forall v | v in vs :: Encodable(v)
  {
    if vs == [] then 0 else 1 + PayloadSize(vs[0]) + ArgumentsSize(vs[1..])
  }

  function PutArguments(vs: seq<Value>, t: bytes): (r: bytes)
    requires forall v | v in vs :: Encodable(v)
    ensures |r| == ArgumentsSize(vs) + |t| && Tail(t, r)
  {
    if vs == [] then t
    else
      var u := PutArguments(vs[1..], t);
      TailOfTail(t, u, PutTyped(vs[0], u));
      PutTyped(vs[0], u)
  }

  lemma NumberedStep(args: seq<Value>, n: nat)
    requires n < |args|
    ensures Numbered(args[..n])[n + 1 := JsonOf(args[n])] == Numbered(args[..n + 1])
    ensures n + 1 !in Numbered(args[..n])
  {
    hide JsonOf, Numbers;
    var less, more := args[..n], args[..n + 1];
    assert forall i: nat | i < n :: less[i] == more[i];
  }

  lemma {:induction false} NumberedSize(args: seq<Value>, n: nat)
    requires n <= |args|
    ensures |Numbered(args[..n])| == n
    ensures n < |args| ==> Numbered(args[..n])[n + 1 := JsonOf(args[n])] == Numbered(args[..n + 1])
  {
    hide JsonOf, Numbered;
    if n < |args| {
      NumberedStep(args, n);
    }
    if n == 0 {
      NothingYet();
      assert args[..0] == [];
    } else {
      NumberedSize(args, n - 1);
      NumberedStep(args, n - 1);
    }
  }

  lemma {:induction false} ArgumentsReadBack(args: seq<Value>, done: nat, t: bytes)
    requires |args| <= MAX_ARGUMENTS && done <= |args| && forall v | v in args :: Encodable(v)
    ensures GetArguments(PutArguments(args[done..], t), done, |args|, Numbered(args[..done])) == Ok(Numbered(args), t)
    decreases |args| - done
  {
    hide Numbered, GetTyped, PutTyped, JsonOf, Encodable;
    NumberedSize(args, done);
    if done == |args| {
      assert args[..done] == args;
    } else {
      assert args[done..][1..] == args[done + 1..] && args[done..][0] == args[done];
      ArgumentsReadBack(args, done + 1, t);
    }
  }

  function PropsSize(props: seq<Prop>): nat
    requires forall p | p in props :: Encodable(p.value)
  {
    if props == [] then 0 else 2 + |props[0].name| + PayloadSize(props[0].value) + PropsSize(props[1..])
  }

  function PutProp(p: Prop, t: bytes): (r: bytes)
    requires Encodable(p.value)
    ensures |r| == 2 + |p.name| + PayloadSize(p.value) + |t| && Tail(t, r)
    ensures GetText(r) == Ok(p.name, PutTyped(p.value, t))
  {
    var u := PutTyped(p.value, t);
    TailOfTail(t, u, PutText(p.name, u));
    PutText(p.name, u)
  }

  function PutProps(props: seq<Prop>, t: bytes): (r: bytes)
    requires forall p | p in props :: Encodable(p.value)
    ensures |r| == PropsSize(props) + |t| && Tail(t, r)
  {
    if props == [] then t
    else
      var u := PutProps(props[1..], t);
      TailOfTail(t, u, PutProp(props[0], u));
      PutProp(props[0], u)
  }

  function ContextOf(vars: seq<Var>): Context {
    Context(Collect(vars), |vars|)
  }

  lemma CollectOne(vars: seq<Var>, v: Var)
    ensures var c := ContextOf(vars);
            ContextOf(vars + [v]) == Context(c.vars[Key(v.scope, v.name) := JsonOf(v.value)], c.seen + 1)
  {
    assert (vars + [v])[..|vars|] == vars;
  }

  lemma {:induction false} VarsOfCons(id: byte, props: seq<Prop>)
    requires props != []
    ensures VarsOf(id, props) == [Var(id, props[0].name, props[0].value)] + VarsOf(id, props[1..])
  {
    var n := |props| - 1;
    if n > 0 {
      VarsOfCons(id, props[..n]);
      assert props[1..][..n - 1] == props[..n][1..];
    } else {
      assert props[..0] == [] && props[1..] == [];
    }
  }

  lemma PropertyStep(id: byte, p: Prop, left: nat, got: Context, t: bytes)
    requires Encodable(p.value)
    ensures GetProperties(PutProp(p, t), id, left + 1, got)
            == GetProperties(t, id, left, Context(got.vars[Key(id, p.name) := JsonOf(p.value)], got.seen + 1))
  {
    hide GetText, GetTyped, PutTyped, PutText, Key, JsonOf, Encodable, PutProp;
  }

  lemma {:induction false} PropertiesReadBack(id: byte, props: seq<Prop>, before: seq<Var>, t: bytes)
    requires forall p | p in props :: Encodable(p.value)
    ensures GetProperties(PutProps(props, t), id, |props|, ContextOf(before))
            == Ok(ContextOf(before + VarsOf(id, props)), t)
    decreases |props|
  {
    hide Key, JsonOf, Encodable, ContextOf, PutProp, VarsOf, GetProperties, Utf8.Valid, Tail, PropsSize;
    hide PayloadSize, GetText, PutTyped, GetTyped;
    if props == [] {
      NoProperties(id, ContextOf(before), t);
      assert before + [] == before;
    } else {
      var p, v := props[0], Var(id, props[0].name, props[0].value);
      var more := VarsOf(id, props[1..]);
      VarsOfCons(id, props);
      CollectOne(before, v);
      PropertiesReadBack(id, props[1..], before + [v], t);
      assert before + [v] + more == before + ([v] + more);
      PropertyStep(id, p, |props| - 1, ContextOf(before), PutProps(props[1..], t));
    }
  }

  lemma NoProperties(id: byte, got: Context, t: bytes)
    ensures VarsOf(id, []) == []
    ensures GetProperties(t, id, 0, got) == Ok(got, t)
  {
  }

  function ScopesSize(scopes: seq<Scope>): nat
    requires forall s | s in scopes :: FitsProps(s.props)
  {
    if scopes == [] then 0
    else assert FitsProps(scopes[0].props); 2 + PropsSize(scopes[0].props) + ScopesSize(scopes[1..])
  }

  function PutScope(s: Scope, t: bytes): (r: bytes)
    requires FitsProps(s.props)
    ensures |r| == 2 + PropsSize(s.props) + |t| && Tail(t, r)
    ensures GetU8(r) == Ok(s.id, PutU8(|s.props|, PutProps(s.props, t)))
  {
    var u := PutProps(s.props, t);
    var w := PutU8(|s.props|, u);
    TailOfTail(t, u, w);
    TailOfTail(t, w, PutU8(s.id, w));
    PutU8(s.id, w)
  }

  function PutScopes(scopes: seq<Scope>, t: bytes): (r: bytes)
    requires forall s | s in scopes :: FitsProps(s.props)
    ensures |r| == ScopesSize(scopes) + |t| && Tail(t, r)
  {
    if scopes == [] then t
    else
      var u := PutScopes(scopes[1..], t);
      TailOfTail(t, u, PutScope(scopes[0], u));
      PutScope(scopes[0], u)
  }

  lemma {:induction false} VarsAreTotal(scopes: seq<Scope>)
    ensures |AllVars(scopes)| == Total(scopes)
  {
    if scopes != [] {
      VarsAreTotal(scopes[..|scopes| - 1]);
      VarsCount(scopes[|scopes| - 1].id, scopes[|scopes| - 1].props);
    }
  }

  lemma {:induction false} VarsCount(id: byte, props: seq<Prop>)
    ensures |VarsOf(id, props)| == |props|
  {
    if props != [] {
      VarsCount(id, props[..|props| - 1]);
    }
  }

  lemma ScopeStep(s: Scope, left: nat, before: seq<Var>, t: bytes)
    requires FitsProps(s.props) && |before| < MAX_CONTEXT_VARS
    ensures GetScopes(PutScope(s, t), left + 1, ContextOf(before))
            == GetScopes(t, left, ContextOf(before + VarsOf(s.id, s.props)))
  {
    hide GetU8, PutU8, GetProperties, PutProps, Collect, PutScope, VarsOf, Encodable;
    PropertiesReadBack(s.id, s.props, before, t);
  }

  lemma {:induction false} ScopesReadBack(scopes: seq<Scope>, done: nat, t: bytes)
    requires FitsScopes(scopes) && done <= |scopes|
    ensures GetScopes(PutScopes(scopes[done..], t), |scopes| - done, ContextOf(AllVars(scopes[..done])))
            == Ok(ContextOf(AllVars(scopes)), t)
    decreases |scopes| - done
  {
    hide FitsProps, ContextOf, PutScope, VarsOf, GetScopes, Tail, ScopesSize, PropsSize, GetU8, PutU8, PutProps;
    hide Utf8.Valid;
    if done == |scopes| {
      assert scopes[..done] == scopes;
      NoScopes(ContextOf(AllVars(scopes)), t);
    } else {
      var s, before := scopes[done], scopes[..done];
      assert scopes[done..][1..] == scopes[done + 1..] && scopes[done..][0] == s;
      VarsAreTotal(before);
      assert scopes[..done + 1][..done] == before;
      ScopesReadBack(scopes, done + 1, t);
      ScopeStep(s, |scopes| - done - 1, AllVars(before), PutScopes(scopes[done + 1..], t));
    }
  }

  lemma NoScopes(got: Context, t: bytes)
    ensures GetScopes(t, 0, got) == Ok(got, t)
  {
  }

  function BodySize(m: Log): nat
    requires Fits(m)
  {
    26 + |m.message| + |m.logger| + ArgumentsSize(m.args) + ScopesSize(m.scopes)
  }

  function PutBody(m: Log, t: bytes): (r: bytes)
    requires Fits(m)
    ensures |r| == BodySize(m) + |t| && Tail(t, r)
  {
    var t1 := PutScopes(m.scopes, t);
    var t2 := PutArguments(m.args, t1);
    var t3 := PutText(m.logger, t2);
    var t4 := PutText(m.message, t3);
    TailOfTail(t, t1, t2);
    TailOfTail(t, t2, t3);
    TailOfTail(t, t3, t4);
    TailOfTail(t, t4, PutHead(HeadOf(m), t4));
    PutHead(HeadOf(m), t4)
  }

  lemma BodyReadsBack(m: Log, t: bytes)
    requires Fits(m)
    ensures GetBody(PutBody(m, t)) == Ok(BodyOf(m), t)
  {
    hide PutHead, GetHead, PutText, GetText, PutArguments, GetArguments, PutScopes, GetScopes, Numbered, Collect;
    hide AllVars;
    ArgumentsReadBack(m.args, 0, PutScopes(m.scopes, t));
    ScopesReadBack(m.scopes, 0, t);
    assert m.args[0..] == m.args && m.scopes[0..] == m.scopes && m.args[..0] == [] && m.scopes[..0] == [];
    NothingYet();
  }

  lemma NothingYet()
    ensures Numbered([]) == map[] && ContextOf(AllVars([])) == Context(map[], 0)
  {
  }

  lemma SkipToTail(t: bytes, b: bytes, n: nat)
    requires Tail(t, b) && |b| == n + |t|
    ensures Skip(b, n) == t
  {
  }

  /** A v2 log message as the parser documents it. */
  function PutV2(m: Log, t: bytes): (r: bytes)
    requires Fits(m) && BodySize(m) < 0x1_0000
    ensures |r| == 3 + BodySize(m) + |t|
    ensures r[0] == 2
  {
    PutU8(2, PutU16(BodySize(m), PutBody(m, t)))
  }

  lemma EntryForBody(m: Log, traceId: bytes, spanId: bytes)
    requires Fits(m)
    ensures EntryOf(BodyOf(m), traceId, spanId) == EntryFor(m, traceId, spanId)
  {
    hide FileTime, DcTaskTime, Numbered, Collect, AllVars, Fits;
  }

  lemma V2ReadsBack(m: Log, t: bytes)
    requires Fits(m) && BodySize(m) < 0x1_0000
    ensures GetV2(PutV2(m, t)) == Ok(EntryFor(m, Zeros(16), Zeros(8)), t)
  {
    hide PutU8, GetU8, PutU16, GetU16, PutBody, GetBody, BodyOf, EntryOf, EntryFor, Fits, Skip, BodySize, Tail;
    EntryForBody(m, Zeros(16), Zeros(8));
    BodyReadsBack(m, t);
    SkipToTail(t, PutBody(m, t), BodySize(m));
  }

  /** A v2 log message with trace context. */
  function PutTraced(traceId: bytes, spanId: bytes, m: Log, t: bytes): (r: bytes)
    requires |traceId| == 16 && |spanId| == 8 && Fits(m) && 24 + BodySize(m) < 0x1_0000
    ensures |r| == 27 + BodySize(m) + |t|
    ensures r[0] == 9
  {
    PutU8(9, PutU16(24 + BodySize(m), Put(traceId, Put(spanId, PutBody(m, t)))))
  }

  lemma TracedReadsBack(traceId: bytes, spanId: bytes, m: Log, t: bytes)
    requires |traceId| == 16 && |spanId| == 8 && Fits(m) && 24 + BodySize(m) < 0x1_0000
    ensures GetTraced(PutTraced(traceId, spanId, m, t)) == Ok(EntryFor(m, traceId, spanId), t)
  {
    hide PutU8, GetU8, PutU16, GetU16, Put, Take, PutBody, GetBody, BodyOf, EntryOf, EntryFor, Fits, Skip, BodySize;
    hide Tail;
    EntryForBody(m, traceId, spanId);
    var b := PutBody(m, t);
    BodyReadsBack(m, t);
    TailOfTail(t, b, Put(spanId, b));
    TailOfTail(t, Put(spanId, b), Put(traceId, Put(spanId, b)));
    SkipToTail(t, Put(traceId, Put(spanId, b)), 24 + BodySize(m));
  }
}
