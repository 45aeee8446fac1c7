/** The message formatter (crates/tc-otel-core/src/formatter.rs): a single-pass scanner with a table of 16 names. */
module Formatter {
  import opened Bytes

  const OPEN: byte := 0x7B
  const CLOSE: byte := 0x7D
  const SLOTS: nat := 16
  const USIZE: nat := 0x1_0000_0000_0000_0000

  // Templates

  datatype Token = Literal(text: bytes) | Hole(key: bytes)

  /** Position of the first closing brace. */
  function FindClose(b: bytes): (r: Option<nat>)
    ensures r.Some? ==> r.value < |b| && b[r.value] == CLOSE
  {
    if b == [] then None
    else if b[0] == CLOSE then Some(0)
    else
      var n :- FindClose(b[1..]);
      Some(n + 1)
  }

  /** Length of the text before the next opening brace. */
  function Run(b: bytes): (n: nat)
    ensures n <= |b|
  {
    if b == [] || b[0] == OPEN then 0 else 1 + Run(b[1..])
  }

  /** A hole reaches from an opening brace to the next closing one; an opening brace that is never closed is text. */
  function Tokens(b: bytes): seq<Token>
    decreases |b|
  {
    if b == [] then []
    else if b[0] == OPEN then
      match FindClose(b[1..])
      case Some(n) => [Hole(b[1..n + 1])] + Tokens(b[n + 2..])
      case None => [Literal([OPEN])] + Tokens(b[1..])
    else [Literal(b[..Run(b)])] + Tokens(b[Run(b)..])
  }

  function Verbatim(t: Token): bytes {
    match t
    case Literal(text) => text
    case Hole(key) => [OPEN] + key + [CLOSE]
  }

  // Keys

  predicate IsDigit(x: byte) {
    0x30 <= x <= 0x39
  }

  function Digits(s: bytes): Option<nat> {
    if s == [] then Some(0)
    else
      var n :- Digits(s[..|s| - 1]);
      if IsDigit(s[|s| - 1]) then Some(10 * n + (s[|s| - 1] - 0x30)) else None
  }

  /** The argument a numeric key names, counting from 1. As in `parse::<usize>`, a plus sign may come first and
      the number must fit; adding 1 wraps around. */
  function NumericArg(key: bytes): Option<nat> {
    var s := if |key| > 1 && key[0] == 0x2B then key[1..] else key;
    if s == [] then None
    else
      var n :- Digits(s);
      if n < USIZE then Some((n + 1) % USIZE) else None
  }

  /** Arguments by number and context by name, each as the text its value is written as. */
  datatype Values = Values(arguments: map<nat, bytes>, context: map<bytes, bytes>)

  /** What stands for a token when a named key is taken to be argument number `index`. */
  function Piece(t: Token, index: nat, v: Values): bytes {
    match t
    case Literal(text) => text
    case Hole(key) =>
      if NumericArg(key).Some? then
        var n := NumericArg(key).value;
        if n in v.arguments then v.arguments[n] else Verbatim(t)
      else if key == [] then Verbatim(t)
      else if index in v.arguments then v.arguments[index]
      else if key in v.context then v.context[key]
      else Verbatim(t)
  }

  predicate Named(t: Token) {
    t.Hole? && t.key != [] && NumericArg(t.key).None?
  }

  predicate Numbered(t: Token) {
    t.Hole? && NumericArg(t.key).Some?
  }

  // What the documentation asks for

  /** The distinct keys of the first `n` tokens in order of first appearance. */
  function Distinct(ts: seq<Token>, n: nat): seq<bytes>
    requires n <= |ts|
  {
    if n == 0 then []
    else
      With(Distinct(ts, n - 1), ts[n - 1])
  }

  /** The distinct keys with one more token. */
  function With(d: seq<bytes>, t: Token): seq<bytes> {
    if t.Hole? && t.key != [] && t.key !in d then d + [t.key] else d
  }

  function Position(d: seq<bytes>, key: bytes): (i: nat)
    ensures key in d ==> i < |d| && d[i] == key
    ensures key !in d ==> i == |d|
    ensures forall j | 0 <= j < i :: d[j] != key
  {
    if d == [] || d[0] == key then 0 else 1 + Position(d[1..], key)
  }

  /** A named key is the argument with the number of its first appearance. */
  function Rank(ts: seq<Token>, t: Token): nat {
    if t.Hole? then Position(Distinct(ts, |ts|), t.key) + 1 else 0
  }

  function Wanted(ts: seq<Token>, n: nat, v: Values): bytes
    requires n <= |ts|
  {
    if n == 0 then [] else Wanted(ts, n - 1, v) + Piece(ts[n - 1], Rank(ts, ts[n - 1]), v)
  }

  // What the scanner does

  /** The table of names with their argument numbers, and the number of positions given out. */
  datatype State = State(seen: seq<(bytes, nat)>, given: nat)

  const START: State := State([], 0)

  function Lookup(seen: seq<(bytes, nat)>, key: bytes): Option<nat> {
    if seen == [] then None
    else if seen[0].0 == key then Some(seen[0].1)
    else Lookup(seen[1..], key)
  }

  function IndexFor(s: State, key: bytes): nat {
    match Lookup(s.seen, key)
    case Some(i) => i
    case None => s.given + 1
  }

  function After(s: State, t: Token): State {
    if Numbered(t) then
      if Lookup(s.seen, t.key).None? && |s.seen| < SLOTS
      then State(s.seen + [(t.key, NumericArg(t.key).value)], s.given + 1)
      else s
    else if Named(t) then
      if Lookup(s.seen, t.key).Some? then s
      else State(if |s.seen| < SLOTS then s.seen + [(t.key, s.given + 1)] else s.seen, s.given + 1)
    else s
  }

  function StateAt(ts: seq<Token>, n: nat): State
    requires n <= |ts|
  {
    if n == 0 then START else After(StateAt(ts, n - 1), ts[n - 1])
  }

  function IndexAt(ts: seq<Token>, n: nat): nat
    requires n < |ts|
  {
    if ts[n].Hole? then IndexFor(StateAt(ts, n), ts[n].key) else 0
  }

  function Written(ts: seq<Token>, n: nat, v: Values): bytes
    requires n <= |ts|
  {
    if n == 0 then [] else Written(ts, n - 1, v) + Piece(ts[n - 1], IndexAt(ts, n - 1), v)
  }

  // When the two agree

  /** A key beyond the first 16 does not get into the table. */
  predicate Late(ts: seq<Token>, t: Token) {
    t.Hole? && t.key != [] && Position(Distinct(ts, |ts|), t.key) >= SLOTS
  }

  predicate NoLateNumber(ts: seq<Token>, n: nat)
    requires n <= |ts|
  {
    forall j | 0 <= j < n :: !(Numbered(ts[j]) && Late(ts, ts[j]))
  }

  /** A late name does no harm at its first appearance, before any late number. */
  predicate Harmless(ts: seq<Token>, i: nat)
    requires i < |ts|
  {
    Named(ts[i]) && Late(ts, ts[i]) ==> ts[i].key !in Distinct(ts, i) && NoLateNumber(ts, i)
  }

  predicate AllHarmless(ts: seq<Token>, n: nat)
    requires n <= |ts|
  {
    forall i | 0 <= i < n :: Harmless(ts, i)
  }

  lemma {:induction false} DistinctGrows(ts: seq<Token>, n: nat, m: nat)
    requires n <= m <= |ts|
    ensures Distinct(ts, n) <= Distinct(ts, m)
    decreases m
  {
    if n < m {
      DistinctGrows(ts, n, m - 1);
    }
  }

  lemma {:induction false} DistinctAreKeys(ts: seq<Token>, n: nat, key: bytes)
    requires n <= |ts| && key in Distinct(ts, n)
    ensures exists j | 0 <= j < n :: ts[j] == Hole(key)
    ensures key != []
  {
    if key in Distinct(ts, n - 1) {
      DistinctAreKeys(ts, n - 1, key);
    } else {
      assert ts[n - 1] == Hole(key);
    }
  }

  lemma HoleIsDistinct(ts: seq<Token>, j: nat, n: nat)
    requires j < n <= |ts| && ts[j].Hole? && ts[j].key != []
    ensures ts[j].key in Distinct(ts, n)
  {
    DistinctGrows(ts, j + 1, n);
    var d := Distinct(ts, j + 1);
    assert ts[j].key in d;
    var p :| 0 <= p < |d| && d[p] == ts[j].key;
    assert Distinct(ts, n)[p] == d[p];
  }

  lemma {:induction false} PositionIs(d: seq<bytes>, key: bytes, p: nat)
    requires p < |d| && d[p] == key && forall i | 0 <= i < p :: d[i] != key
    ensures Position(d, key) == p
  {
    if p > 0 {
      PositionIs(d[1..], key, p - 1);
    }
  }

  /** The position of a key is settled when it first appears. */
  lemma PositionSettled(ts: seq<Token>, n: nat, key: bytes)
    requires n <= |ts| && key in Distinct(ts, n)
    ensures Position(Distinct(ts, |ts|), key) == Position(Distinct(ts, n), key)
  {
    DistinctGrows(ts, n, |ts|);
    PositionIs(Distinct(ts, |ts|), key, Position(Distinct(ts, n), key));
  }

  /** A hole that comes next is at the next position if its key is new. */
  lemma PositionOfNext(ts: seq<Token>, n: nat)
    requires n < |ts| && ts[n].Hole? && ts[n].key != []
    ensures Position(Distinct(ts, |ts|), ts[n].key) == Position(Distinct(ts, n), ts[n].key)
    ensures Rank(ts, ts[n]) == Position(Distinct(ts, n), ts[n].key) + 1
  {
    var d, key := Distinct(ts, n), ts[n].key;
    PositionSettled(ts, n + 1, key);
    if key !in d {
      PositionIs(d + [key], key, |d|);
    } else {
      PositionSettled(ts, n, key);
    }
  }

  lemma {:induction false} LookupAt(seen: seq<(bytes, nat)>, key: bytes, p: nat)
    requires p <= |seen| && forall i | 0 <= i < p :: seen[i].0 != key
    requires p < |seen| ==> seen[p].0 == key
    ensures Lookup(seen, key) == if p < |seen| then Some(seen[p].1) else None
  {
    if p > 0 {
      LookupAt(seen[1..], key, p - 1);
    }
  }

  /** The table holds the first keys, names with the number of their position. */
  predicate TableIs(seen: seq<(bytes, nat)>, d: seq<bytes>) {
    && |seen| == (if |d| < SLOTS then |d| else SLOTS)
    && (forall p | 0 <= p < |seen| :: seen[p].0 == d[p])
    && (forall p | 0 <= p < |seen| && NumericArg(seen[p].0).None? :: seen[p].1 == p + 1)
  }

  lemma LookupInTable(seen: seq<(bytes, nat)>, d: seq<bytes>, key: bytes)
    requires TableIs(seen, d)
    ensures Lookup(seen, key).Some? <==> Position(d, key) < |seen|
    ensures Lookup(seen, key).Some? && NumericArg(key).None? ==> Lookup(seen, key) == Some(Position(d, key) + 1)
  {
    hide Lookup, NumericArg;
    var p := Position(d, key);
    LookupAt(seen, key, if p < |seen| then p else |seen|);
  }

  lemma TableStep(s: State, d: seq<bytes>, t: Token)
    requires TableIs(s.seen, d) && (|d| <= SLOTS ==> s.given == |d|)
    ensures TableIs(After(s, t).seen, With(d, t))
    ensures |With(d, t)| <= SLOTS ==> After(s, t).given == |With(d, t)|
  {
    hide NumericArg, Lookup, Position;
    if t.Hole? && t.key != [] {
      LookupInTable(s.seen, d, t.key);
    } else {
      EmptyIsNotNumeric();
    }
  }

  lemma {:induction false} TableAt(ts: seq<Token>, n: nat)
    requires n <= |ts|
    ensures TableIs(StateAt(ts, n).seen, Distinct(ts, n))
    ensures |Distinct(ts, n)| <= SLOTS ==> StateAt(ts, n).given == |Distinct(ts, n)|
  {
    hide After, TableIs;
    if n > 0 {
      TableAt(ts, n - 1);
      TableStep(StateAt(ts, n - 1), Distinct(ts, n - 1), ts[n - 1]);
    } else {
      EmptyTable();
    }
  }

  lemma EmptyTable()
    ensures TableIs([], [])
  {
  }

  lemma EmptyIsNotNumeric()
    ensures NumericArg([]) == None
  {
  }

  /** While all is harmless the scanner's count is that of the distinct keys, until a late number appears;
      and every late name was given a number within the count. */
  predicate CountIs(ts: seq<Token>, n: nat)
    requires n <= |ts|
  {
    var d, given := Distinct(ts, n), StateAt(ts, n).given;
    && (if NoLateNumber(ts, n) then given == |d| else given < |d|)
    && (forall p | SLOTS <= p < |d| && NumericArg(d[p]).None? :: p + 1 <= given)
  }

  /** With no more than 16 keys so far nothing can have been late. */
  lemma NothingLateYet(ts: seq<Token>, n: nat)
    requires n <= |ts| && |Distinct(ts, n)| <= SLOTS
    ensures NoLateNumber(ts, n)
  {
    forall j | 0 <= j < n ensures !(Numbered(ts[j]) && Late(ts, ts[j])) {
      if ts[j].Hole? && ts[j].key != [] {
        HoleIsDistinct(ts, j, n);
        PositionSettled(ts, n, ts[j].key);
      }
    }
  }

  lemma {:induction false} CountAt(ts: seq<Token>, n: nat)
    requires n <= |ts| && AllHarmless(ts, n)
    ensures CountIs(ts, n)
  {
    hide NumericArg, Late, Distinct, StateAt, CountIs, Harmless, TableIs;
    TableAt(ts, n);
    if |Distinct(ts, n)| <= SLOTS {
      NothingLateYet(ts, n);
      FewKeys(ts, n);
    } else {
      NoKeysYet(ts);
      CountAt(ts, n - 1);
      assert Harmless(ts, n - 1);
      CountStep(ts, n - 1);
    }
  }

  lemma NoKeysYet(ts: seq<Token>)
    ensures Distinct(ts, 0) == []
  {
  }

  lemma FewKeys(ts: seq<Token>, n: nat)
    requires n <= |ts| && |Distinct(ts, n)| <= SLOTS && StateAt(ts, n).given == |Distinct(ts, n)| && NoLateNumber(ts, n)
    ensures CountIs(ts, n)
  {
    hide NumericArg, Late, Distinct, StateAt;
  }

  lemma CountStep(ts: seq<Token>, n: nat)
    requires n < |ts| && CountIs(ts, n) && Harmless(ts, n) && |Distinct(ts, n + 1)| > SLOTS
    ensures CountIs(ts, n + 1)
  {
    hide NumericArg, Late, Lookup, Position;
    var t, s, d := ts[n], StateAt(ts, n), Distinct(ts, n);
    TableAt(ts, n);
    EmptyIsNotNumeric();
    if t.Hole? && t.key != [] {
      LateNext(ts, n);
      LookupInTable(s.seen, d, t.key);
      if Numbered(t) && Late(ts, t) {
        LateNumber(ts, n);
        LateNumberCounts(ts, n);
      } else if Late(ts, t) {
        LateNameCounts(ts, n);
      } else {
        EarlyCounts(ts, n);
      }
    } else {
      SameCount(ts, n);
    }
  }

  /** A token that leaves keys and count alone. */
  lemma SameCount(ts: seq<Token>, n: nat)
    requires n < |ts| && CountIs(ts, n) && !(Numbered(ts[n]) && Late(ts, ts[n]))
    requires Distinct(ts, n + 1) == Distinct(ts, n) && StateAt(ts, n + 1) == StateAt(ts, n)
    ensures CountIs(ts, n + 1)
  {
    hide NumericArg, Late, Distinct, StateAt;
    assert NoLateNumber(ts, n + 1) == NoLateNumber(ts, n);
  }

  lemma EarlyCounts(ts: seq<Token>, n: nat)
    requires n < |ts| && CountIs(ts, n) && |Distinct(ts, n + 1)| > SLOTS
    requires ts[n].Hole? && ts[n].key != [] && !Late(ts, ts[n])
    ensures CountIs(ts, n + 1)
  {
    hide NumericArg, Late, Lookup, Position;
    LateNext(ts, n);
    TableAt(ts, n);
    LookupInTable(StateAt(ts, n).seen, Distinct(ts, n), ts[n].key);
    SameCount(ts, n);
  }

  lemma LateNumberCounts(ts: seq<Token>, n: nat)
    requires n < |ts| && CountIs(ts, n) && Numbered(ts[n]) && Late(ts, ts[n])
    requires NoLateNumber(ts, n) ==> ts[n].key !in Distinct(ts, n)
    requires !NoLateNumber(ts, n + 1) && StateAt(ts, n + 1) == StateAt(ts, n)
    ensures CountIs(ts, n + 1)
  {
    hide NumericArg, Late, StateAt, NoLateNumber;
    EmptyIsNotNumeric();
  }

  lemma LateNameCounts(ts: seq<Token>, n: nat)
    requires n < |ts| && CountIs(ts, n) && Named(ts[n]) && Late(ts, ts[n]) && Harmless(ts, n)
    requires StateAt(ts, n + 1).given == StateAt(ts, n).given + 1
    ensures CountIs(ts, n + 1)
  {
    hide NumericArg, Late, StateAt;
    assert NoLateNumber(ts, n + 1);
  }

  lemma LateNext(ts: seq<Token>, n: nat)
    requires n < |ts| && ts[n].Hole? && ts[n].key != []
    ensures Late(ts, ts[n]) <==> Position(Distinct(ts, n), ts[n].key) >= SLOTS
  {
    PositionOfNext(ts, n);
  }

  /** The first late number has a new key. */
  lemma LateNumber(ts: seq<Token>, n: nat)
    requires n < |ts| && Numbered(ts[n]) && Late(ts, ts[n])
    ensures NoLateNumber(ts, n) ==> ts[n].key !in Distinct(ts, n)
    ensures !NoLateNumber(ts, n + 1)
  {
    if ts[n].key in Distinct(ts, n) {
      DistinctAreKeys(ts, n, ts[n].key);
      var j :| 0 <= j < n && ts[j] == Hole(ts[n].key);
      assert Numbered(ts[j]) && Late(ts, ts[j]);
    }
  }

  /** A harmless named hole gets the number it should get. */
  lemma HarmlessIsRanked(ts: seq<Token>, i: nat)
    requires i < |ts| && Named(ts[i]) && AllHarmless(ts, i) && Harmless(ts, i)
    ensures IndexAt(ts, i) == Rank(ts, ts[i])
  {
    hide NumericArg, Distinct, StateAt;
    var d, s, key := Distinct(ts, i), StateAt(ts, i), ts[i].key;
    TableAt(ts, i);
    LookupInTable(s.seen, d, key);
    PositionOfNext(ts, i);
    LateNext(ts, i);
    if Late(ts, ts[i]) {
      CountAt(ts, i);
    }
  }

  /** The first one that is not harmless gets another. */
  lemma HarmIsMisranked(ts: seq<Token>, i: nat)
    requires i < |ts| && Named(ts[i]) && AllHarmless(ts, i) && !Harmless(ts, i)
    ensures IndexAt(ts, i) != Rank(ts, ts[i])
  {
    hide NumericArg, Distinct, StateAt;
    var d, s, key := Distinct(ts, i), StateAt(ts, i), ts[i].key;
    TableAt(ts, i);
    LookupInTable(s.seen, d, key);
    PositionOfNext(ts, i);
    LateNext(ts, i);
    CountAt(ts, i);
    var p := Position(d, key);
    assert key in d ==> d[p] == key;
  }

  // What the choice of number does to the text

  lemma {:induction false} SameSoFar(ts: seq<Token>, n: nat, v: Values)
    requires n <= |ts|
    requires forall i | 0 <= i < n :: Piece(ts[i], IndexAt(ts, i), v) == Piece(ts[i], Rank(ts, ts[i]), v)
    ensures Written(ts, n, v) == Wanted(ts, n, v)
  {
    hide IndexAt, Rank, Piece;
    if n > 0 {
      SameSoFar(ts, n - 1, v);
    }
  }

  lemma {:induction false} OutputsGrow(ts: seq<Token>, n: nat, m: nat, v: Values)
    requires n <= m <= |ts|
    ensures Written(ts, n, v) <= Written(ts, m, v) && Wanted(ts, n, v) <= Wanted(ts, m, v)
    decreases m
  {
    hide IndexAt, Rank, Piece;
    if n < m {
      OutputsGrow(ts, n, m - 1, v);
    }
  }

  predicate Clash(a: bytes, b: bytes) {
    a != [] && b != [] && a[0] != b[0]
  }

  /** If two pieces clash at some place and elsewhere are equal or clash too, the texts differ. */
  lemma {:induction false} ClashShows(ts: seq<Token>, i: nat, v: Values)
    requires i < |ts|
    requires forall j | 0 <= j <= i :: var a, b := Piece(ts[j], IndexAt(ts, j), v), Piece(ts[j], Rank(ts, ts[j]), v);
                                       a == b || Clash(a, b)
    requires Clash(Piece(ts[i], IndexAt(ts, i), v), Piece(ts[i], Rank(ts, ts[i]), v))
    ensures Written(ts, |ts|, v) != Wanted(ts, |ts|, v)
    decreases i
  {
    hide IndexAt, Rank, Piece;
    if j: nat :| j < i && Piece(ts[j], IndexAt(ts, j), v) != Piece(ts[j], Rank(ts, ts[j]), v) {
      ClashShows(ts, j, v);
    } else {
      SameSoFar(ts, i, v);
      OutputsGrow(ts, i + 1, |ts|, v);
      var k := |Written(ts, i, v)|;
      assert Written(ts, i + 1, v)[k] != Wanted(ts, i + 1, v)[k];
    }
  }

  /** With one argument, an exclamation mark, pieces are equal or clash. */
  lemma MarkClashes(t: Token, a: nat, b: nat, c: nat)
    ensures var v := Values(map[c := [0x21]], map[]);
            && (Piece(t, a, v) == Piece(t, b, v) || Clash(Piece(t, a, v), Piece(t, b, v)))
            && (Named(t) && (a == c) != (b == c) ==> Clash(Piece(t, a, v), Piece(t, b, v)))
  {
  }

  /** The numbers matter only where names are. */
  lemma IndexMattersForNames(t: Token, a: nat, b: nat, v: Values)
    requires Named(t) ==> a == b
    ensures Piece(t, a, v) == Piece(t, b, v)
  {
  }

  /** The first hole that is not harmless. */
  lemma {:induction false} FirstHarm(ts: seq<Token>, n: nat) returns (i: nat)
    requires n <= |ts| && !AllHarmless(ts, n)
    ensures i < n && AllHarmless(ts, i) && !Harmless(ts, i)
  {
    hide Harmless;
    if AllHarmless(ts, n - 1) {
      i := n - 1;
    } else {
      i := FirstHarm(ts, n - 1);
    }
  }

  /** The scanner writes what is wanted, whatever the arguments and the context, exactly when every late name
      is harmless. */
  lemma ScannerRefinesIff(ts: seq<Token>)
    ensures (forall v: Values :: Written(ts, |ts|, v) == Wanted(ts, |ts|, v)) <==> AllHarmless(ts, |ts|)
  {
    hide IndexAt, Rank, Piece, Harmless, Named;
    if AllHarmless(ts, |ts|) {
      forall v: Values ensures Written(ts, |ts|, v) == Wanted(ts, |ts|, v) {
        HarmlessSame(ts, v);
      }
    } else {
      var i := FirstHarm(ts, |ts|);
      HarmShows(ts, i);
    }
  }

  lemma HarmlessSame(ts: seq<Token>, v: Values)
    requires AllHarmless(ts, |ts|)
    ensures Written(ts, |ts|, v) == Wanted(ts, |ts|, v)
  {
    hide IndexAt, Rank, Piece, Harmless, Named;
    forall i | 0 <= i < |ts| ensures Piece(ts[i], IndexAt(ts, i), v) == Piece(ts[i], Rank(ts, ts[i]), v) {
      if Named(ts[i]) {
        HarmlessIsRanked(ts, i);
      }
      IndexMattersForNames(ts[i], IndexAt(ts, i), Rank(ts, ts[i]), v);
    }
    SameSoFar(ts, |ts|, v);
  }

  lemma HarmShows(ts: seq<Token>, i: nat)
    requires i < |ts| && AllHarmless(ts, i) && !Harmless(ts, i)
    ensures exists v: Values :: Written(ts, |ts|, v) != Wanted(ts, |ts|, v)
  {
    hide IndexAt, Rank, Piece, Written, Wanted;
    var c := IndexAt(ts, i);
    var v := Values(map[c := [0x21]], map[]);
    HarmIsMisranked(ts, i);
    forall j | 0 <= j <= i
      ensures var a, b := Piece(ts[j], IndexAt(ts, j), v), Piece(ts[j], Rank(ts, ts[j]), v); a == b || Clash(a, b)
    {
      MarkClashes(ts[j], IndexAt(ts, j), Rank(ts, ts[j]), c);
    }
    MarkClashes(ts[i], c, Rank(ts, ts[i]), c);
    ClashShows(ts, i, v);
  }

  /** Up to 16 distinct keys there is nothing late, and the scanner does what the documentation says. */
  lemma SixteenKeysAreSafe(ts: seq<Token>, v: Values)
    requires |Distinct(ts, |ts|)| <= SLOTS
    ensures Written(ts, |ts|, v) == Wanted(ts, |ts|, v)
  {
    forall i | 0 <= i < |ts| ensures Harmless(ts, i) {
      if Named(ts[i]) {
        HoleIsDistinct(ts, i, |ts|);
      }
    }
    HarmlessSame(ts, v);
  }

  // Without any values the template comes out as it went in

  function TextOf(ts: seq<Token>): bytes {
    if ts == [] then [] else Verbatim(ts[0]) + TextOf(ts[1..])
  }

  lemma TextOfCons(t: Token, ts: seq<Token>)
    ensures TextOf([t] + ts) == Verbatim(t) + TextOf(ts)
  {
    assert ([t] + ts)[1..] == ts;
  }

  lemma HoleText(b: bytes, n: nat)
    requires n + 2 <= |b| && b[0] == OPEN && b[1..][n] == CLOSE
    ensures Verbatim(Hole(b[1..n + 1])) + b[n + 2..] == b
  {
    assert b == [b[0]] + b[1..n + 1] + [b[n + 1]] + b[n + 2..];
  }

  /** Nothing of a template is lost in its tokens. */
  lemma {:induction false} TokensCover(b: bytes)
    ensures TextOf(Tokens(b)) == b
    decreases |b|
  {
    hide TextOf, Verbatim, FindClose, Run;
    if b == [] {
      NoText();
    } else if b[0] == OPEN {
      var close := FindClose(b[1..]);
      if close.Some? {
        var n := close.value;
        TokensCover(b[n + 2..]);
        TextOfCons(Hole(b[1..n + 1]), Tokens(b[n + 2..]));
        HoleText(b, n);
      } else {
        TokensCover(b[1..]);
        TextOfCons(Literal([OPEN]), Tokens(b[1..]));
        LiteralIsVerbatim(Literal([OPEN]));
        Join(b, 1);
        assert b[..1] == [OPEN];
      }
    } else {
      RunMoves(b);
      TokensCover(b[Run(b)..]);
      TextOfCons(Literal(b[..Run(b)]), Tokens(b[Run(b)..]));
      LiteralIsVerbatim(Literal(b[..Run(b)]));
      Join(b, Run(b));
    }
  }

  lemma Join(b: bytes, n: nat)
    requires n <= |b|
    ensures b[..n] + b[n..] == b
  {
  }

  lemma NoText()
    ensures TextOf([]) == []
  {
  }

  lemma RunMoves(b: bytes)
    requires b != [] && b[0] != OPEN
    ensures Run(b) > 0
  {
  }

  lemma {:induction false} TextOfAppend(ts: seq<Token>, t: Token)
    ensures TextOf(ts + [t]) == TextOf(ts) + Verbatim(t)
  {
    hide Verbatim;
    if ts == [] {
      assert ts + [t] == [t] && [t][1..] == [];
    } else {
      assert (ts + [t])[1..] == ts[1..] + [t];
      TextOfAppend(ts[1..], t);
    }
  }

  lemma {:induction false} NothingReplaced(ts: seq<Token>, n: nat)
    requires n <= |ts|
    ensures Written(ts, n, Values(map[], map[])) == TextOf(ts[..n])
  {
    hide IndexAt, Verbatim;
    if n > 0 {
      NothingReplaced(ts, n - 1);
      TextOfAppend(ts[..n - 1], ts[n - 1]);
      assert ts[..n - 1] + [ts[n - 1]] == ts[..n];
      assert Piece(ts[n - 1], IndexAt(ts, n - 1), Values(map[], map[])) == Verbatim(ts[n - 1]) by {
        LiteralIsVerbatim(ts[n - 1]);
      }
    } else {
      assert ts[..0] == [];
    }
  }

  lemma LiteralIsVerbatim(t: Token)
    ensures t.Literal? ==> Verbatim(t) == t.text
  {
  }

  /** With empty maps the output is the template. */
  lemma EmptyMapsKeepTemplate(template: bytes)
    ensures Written(Tokens(template), |Tokens(template)|, Values(map[], map[])) == template
  {
    hide Written, Tokens;
    var ts := Tokens(template);
    NothingReplaced(ts, |ts|);
    assert ts[..|ts|] == ts;
    TokensCover(template);
  }

  // Beyond 16 keys the documentation is not always met

  function Letter(i: nat): bytes
    requires i <= SLOTS
  {
    [0x61 + i]
  }

  /** Sixteen different names and then a seventeenth twice. */
  const CROWDED: seq<Token> :=
    seq(SLOTS, i requires 0 <= i < SLOTS => Hole(Letter(i))) + [Hole(Letter(SLOTS)), Hole(Letter(SLOTS))]

  lemma LettersAreNames(i: nat)
    requires i <= SLOTS
    ensures Named(Hole(Letter(i)))
  {
    var key := Letter(i);
    assert key[..0] == [];
    assert Digits(key) == None;
  }

  lemma {:induction false} CrowdedKeys(n: nat)
    requires n <= SLOTS + 1
    ensures |Distinct(CROWDED, n)| == n && forall i | 0 <= i < n :: Distinct(CROWDED, n)[i] == Letter(i)
  {
    if n > 0 {
      CrowdedKeys(n - 1);
      assert CROWDED[n - 1] == Hole(Letter(n - 1));
      assert Letter(n - 1) !in Distinct(CROWDED, n - 1);
    }
  }

  lemma CrowdedIsHarmful()
    ensures !Harmless(CROWDED, SLOTS + 1)
  {
    hide Position;
    var last := SLOTS + 1;
    CrowdedKeys(last);
    LettersAreNames(SLOTS);
    assert CROWDED[last] == Hole(Letter(SLOTS));
    assert Distinct(CROWDED, last)[SLOTS] == Letter(SLOTS);
    PositionOfNext(CROWDED, last);
    PositionIs(Distinct(CROWDED, last), Letter(SLOTS), SLOTS);
  }

  /** A template on which the scanner and the documentation part: the last name should be argument 17 both times,
      and is taken for argument 18 the second time. */
  lemma CrowdedParts()
    ensures exists v: Values :: Written(CROWDED, |CROWDED|, v) != Wanted(CROWDED, |CROWDED|, v)
    ensures exists template: bytes :: Tokens(template) == CROWDED
  {
    hide Tokens, Written, Wanted, Harmless, TextOf;
    CrowdedIsHarmful();
    var i := FirstHarm(CROWDED, |CROWDED|);
    HarmShows(CROWDED, i);
    HolesReadBack(CROWDED);
    assert Tokens(TextOf(CROWDED)) == CROWDED;
  }

  lemma HoleStep(key: bytes, rest: bytes)
    requires CLOSE !in key
    ensures Tokens(Verbatim(Hole(key)) + rest) == [Hole(key)] + Tokens(rest)
  {
    hide FindClose, Run;
    var b := Verbatim(Hole(key)) + rest;
    assert b[1..] == key + ([CLOSE] + rest);
    FindCloseAfter(key, rest);
    assert b[1..|key| + 1] == key && b[|key| + 2..] == rest;
  }

  /** Holes whose keys hold no closing brace are found again in their text. */
  lemma {:induction false} HolesReadBack(ts: seq<Token>)
    requires forall t | t in ts :: t.Hole? && CLOSE !in t.key
    ensures Tokens(TextOf(ts)) == ts
  {
    hide Tokens, Verbatim;
    if ts == [] {
      NoTokens();
    } else {
      assert ts[0] in ts;
      HolesReadBack(ts[1..]);
      HoleStep(ts[0].key, TextOf(ts[1..]));
      assert [ts[0]] + ts[1..] == ts;
    }
  }

  lemma NoTokens()
    ensures Tokens([]) == []
  {
  }

  lemma {:induction false} FindCloseAfter(key: bytes, rest: bytes)
    requires CLOSE !in key
    ensures FindClose(key + ([CLOSE] + rest)) == Some(|key|)
  {
    var b := key + ([CLOSE] + rest);
    if key != [] {
      assert b[1..] == key[1..] + ([CLOSE] + rest);
      FindCloseAfter(key[1..], rest);
    }
  }

  // Numbers and names

  /** A number in decimal, with any zeros in front and perhaps a plus sign. */
  function Spelled(plus: bool, zeros: nat, n: nat): bytes {
    (if plus then [0x2B] else []) + (Repeated(0x30, zeros) + DecimalBytes(n))
  }

  /** The key is a number of 64 bits. */
  ghost predicate SpellsNumber(key: bytes) {
    exists plus: bool, zeros: nat, n: nat | n < USIZE :: key == Spelled(plus, zeros, n)
  }

  lemma {:induction false} DigitsOfDecimal(n: nat)
    ensures Digits(DecimalBytes(n)) == Some(n)
  {
    var s := DecimalBytes(n);
    if n < 10 {
      assert s[..|s| - 1] == [];
    } else {
      DigitsOfDecimal(n / 10);
      assert s[..|s| - 1] == DecimalBytes(n / 10);
    }
  }

  lemma {:induction false} DigitsAfterZeros(zeros: nat, s: bytes)
    ensures Digits(Repeated(0x30, zeros) + s) == Digits(s)
    decreases zeros, |s|
  {
    var t := Repeated(0x30, zeros) + s;
    if s != [] {
      assert t[..|t| - 1] == Repeated(0x30, zeros) + s[..|s| - 1];
      DigitsAfterZeros(zeros, s[..|s| - 1]);
    } else if zeros > 0 {
      assert t[..|t| - 1] == Repeated(0x30, zeros - 1) + s;
      DigitsAfterZeros(zeros - 1, s);
    }
  }

  /** Every string of digits is a number with zeros in front of it. */
  lemma {:induction false} DigitsAreSpelled(s: bytes) returns (zeros: nat)
    requires s != [] && Digits(s).Some?
    ensures s == Repeated(0x30, zeros) + DecimalBytes(Digits(s).value)
  {
    var p, d := s[..|s| - 1], s[|s| - 1] - 0x30;
    zeros := 0;
    assert s == p + [0x30 + d];
    if p != [] {
      zeros := DigitsAreSpelled(p);
      var n := Digits(p).value;
      if n == 0 {
        assert p == Repeated(0x30, zeros + 1);
        zeros := zeros + 1;
      } else {
        assert (10 * n + d) / 10 == n && (10 * n + d) % 10 == d;
      }
    }
  }

  /** A number names the argument one further, whatever the sign and the zeros; the largest one names argument 0,
      and one that is too large none. */
  lemma NumberNamesArgument(plus: bool, zeros: nat, n: nat)
    ensures n + 1 < USIZE ==> NumericArg(Spelled(plus, zeros, n)) == Some(n + 1)
    ensures n + 1 == USIZE ==> NumericArg(Spelled(plus, zeros, n)) == Some(0)
    ensures n >= USIZE ==> NumericArg(Spelled(plus, zeros, n)) == None
  {
    hide Digits;
    var s := Repeated(0x30, zeros) + DecimalBytes(n);
    DigitsOfDecimal(n);
    DigitsAfterZeros(zeros, DecimalBytes(n));
    assert Spelled(true, zeros, n)[1..] == s && Spelled(false, zeros, n) == s;
  }

  /** Only numbers name arguments by number: not the empty key, not a sign alone, not a key with another byte. */
  lemma NumericArgIff(key: bytes)
    ensures NumericArg(key).Some? <==> SpellsNumber(key)
  {
    hide Digits;
    var plus := |key| > 1 && key[0] == 0x2B;
    var s := if plus then key[1..] else key;
    if NumericArg(key).Some? {
      var zeros := DigitsAreSpelled(s);
      assert key == Spelled(plus, zeros, Digits(s).value);
    }
    if SpellsNumber(key) {
      var p: bool, z: nat, n: nat :| n < USIZE && key == Spelled(p, z, n);
      NumberNamesArgument(p, z, n);
    }
  }

  lemma SpelledHasNoClose(plus: bool, zeros: nat, n: nat)
    ensures CLOSE !in Spelled(plus, zeros, n)
  {
    assert forall x | x in DecimalBytes(n) :: x <= 0x39;
  }

  lemma OneHole(key: bytes, v: Values)
    requires CLOSE !in key
    ensures var template := [OPEN] + key + [CLOSE];
            Written(Tokens(template), |Tokens(template)|, v) == Piece(Hole(key), IndexAt([Hole(key)], 0), v)
  {
    hide Tokens, Piece, IndexAt;
    var ts := [Hole(key)];
    HoleStep(key, []);
    NoTokens();
    assert Verbatim(Hole(key)) + [] == [OPEN] + key + [CLOSE];
    assert ts + [] == ts;
    assert Written(ts, 1, v) == Written(ts, 0, v) + Piece(ts[0], IndexAt(ts, 0), v);
  }

  /** A template that is one numeric hole. */
  lemma NumberHoleIsArgument(plus: bool, zeros: nat, n: nat, v: Values)
    requires n < USIZE
    ensures var template := [OPEN] + Spelled(plus, zeros, n) + [CLOSE];
            var argument := if n + 1 < USIZE then n + 1 else 0;
            Written(Tokens(template), |Tokens(template)|, v)
              == if argument in v.arguments then v.arguments[argument] else template
  {
    hide NumericArg, Tokens, Spelled, Written, IndexAt;
    SpelledHasNoClose(plus, zeros, n);
    NumberNamesArgument(plus, zeros, n);
    OneHole(Spelled(plus, zeros, n), v);
  }

  /** Different names without a closing brace in them. */
  ghost predicate DifferentNames(keys: seq<bytes>) {
    && (forall k | k in keys :: k != [] && !SpellsNumber(k) && CLOSE !in k)
    && (forall i, j | 0 <= i < j < |keys| :: keys[i] != keys[j])
  }

  function HolesFor(keys: seq<bytes>): seq<Token> {
    seq(|keys|, i requires 0 <= i < |keys| => Hole(keys[i]))
  }

  /** The argument of the same position, else the variable of that name, else the name in its braces. */
  function Filled(keys: seq<bytes>, n: nat, v: Values): bytes
    requires n <= |keys|
  {
    if n == 0 then []
    else
      Filled(keys, n - 1, v) +
      (if n in v.arguments then v.arguments[n]
       else if keys[n - 1] in v.context then v.context[keys[n - 1]]
       else [OPEN] + keys[n - 1] + [CLOSE])
  }

  lemma {:induction false} LookupMisses(seen: seq<(bytes, nat)>, key: bytes)
    requires forall e | e in seen :: e.0 != key
    ensures Lookup(seen, key) == None
  {
    if seen != [] {
      assert seen[0] in seen;
      LookupMisses(seen[1..], key);
    }
  }

  /** Names that come once are counted one by one, also when the table is full. */
  lemma {:induction false} NamesCount(keys: seq<bytes>, n: nat)
    requires DifferentNames(keys) && n <= |keys|
    ensures var s := StateAt(HolesFor(keys), n);
            s.given == n && forall e | e in s.seen :: e.0 in keys[..n]
  {
    hide NumericArg, SpellsNumber, Lookup, DifferentNames, Named, Numbered;
    if n > 0 {
      NamesCount(keys, n - 1);
      NameMisses(keys, n - 1);
      assert keys[..n] == keys[..n - 1] + [keys[n - 1]];
    }
  }

  lemma NameMisses(keys: seq<bytes>, n: nat)
    requires DifferentNames(keys) && n < |keys|
    requires forall e | e in StateAt(HolesFor(keys), n).seen :: e.0 in keys[..n]
    ensures Named(HolesFor(keys)[n]) && !Numbered(HolesFor(keys)[n])
    ensures Lookup(StateAt(HolesFor(keys), n).seen, keys[n]) == None
  {
    hide NumericArg, SpellsNumber, Lookup, StateAt;
    assert keys[n] in keys;
    NumericArgIff(keys[n]);
    LookupMisses(StateAt(HolesFor(keys), n).seen, keys[n]);
  }

  lemma NameIsNext(keys: seq<bytes>, n: nat)
    requires DifferentNames(keys) && n < |keys|
    ensures Named(HolesFor(keys)[n]) && IndexAt(HolesFor(keys), n) == n + 1
  {
    hide NumericArg, SpellsNumber, Lookup, StateAt, Named, Numbered;
    NamesCount(keys, n);
    NameMisses(keys, n);
  }

  lemma {:induction false} NamesFilled(keys: seq<bytes>, n: nat, v: Values)
    requires DifferentNames(keys) && n <= |keys|
    ensures Written(HolesFor(keys), n, v) == Filled(keys, n, v)
  {
    hide NumericArg, IndexAt, DifferentNames, Piece;
    if n > 0 {
      NamesFilled(keys, n - 1, v);
      NameIsNext(keys, n - 1);
      NamePiece(keys[n - 1], n, v);
    }
  }

  lemma NamePiece(key: bytes, index: nat, v: Values)
    requires Named(Hole(key))
    ensures Piece(Hole(key), index, v)
              == if index in v.arguments then v.arguments[index]
                 else if key in v.context then v.context[key]
                 else [OPEN] + key + [CLOSE]
  {
    hide NumericArg;
  }

  /** Named holes take the arguments in order of appearance, however many there are. */
  lemma NamesByPosition(keys: seq<bytes>, v: Values)
    requires DifferentNames(keys)
    ensures var ts := Tokens(TextOf(HolesFor(keys))); Written(ts, |ts|, v) == Filled(keys, |keys|, v)
  {
    hide Tokens, TextOf, Written, Filled, SpellsNumber;
    var ts := HolesFor(keys);
    forall t | t in ts ensures t.Hole? && CLOSE !in t.key {
      var i :| 0 <= i < |ts| && ts[i] == t;
      assert keys[i] in keys;
    }
    HolesReadBack(ts);
    NamesFilled(keys, |keys|, v);
  }

  // The scanner as it is written

  method MemchrBrace(b: bytes, start: nat) returns (r: Option<nat>)
    requires start <= |b|
    ensures r == match FindClose(b[start..])
                 case Some(n) => Some(start + n)
                 case None => None
  {
    var i := start;
    while i < |b|
      invariant start <= i <= |b|
      invariant FindClose(b[start..]) == match FindClose(b[i..])
                                         case Some(n) => Some(i - start + n)
                                         case None => None
    {
      assert b[i..][1..] == b[i + 1..];
      if b[i] == CLOSE {
        return Some(i);
      }
      i := i + 1;
    }
    r := None;
  }

  method FindSeen(seen: array<(bytes, nat)>, count: nat, key: bytes) returns (r: Option<nat>)
    requires count <= seen.Length
    ensures r == Lookup(seen[..count], key)
  {
    var i := 0;
    while i < count
      invariant i <= count
      invariant Lookup(seen[..count], key) == Lookup(seen[i..count], key)
    {
      assert seen[i..count][0] == seen[i] && seen[i..count][1..] == seen[i + 1..count];
      if seen[i].0 == key {
        return Some(seen[i].1);
      }
      i := i + 1;
    }
    r := None;
  }

  /** The part of the loop that looks at one hole: what to put there, if anything, and the new state. */
  method TakeHole(key: bytes, v: Values, seen: array<(bytes, nat)>, count0: nat, given0: nat)
    returns (text: Option<bytes>, count: nat, given: nat)
    requires count0 <= seen.Length == SLOTS
    modifies seen
    ensures count <= SLOTS && State(seen[..count], given) == After(old(State(seen[..count0], given0)), Hole(key))
    ensures Piece(Hole(key), old(IndexFor(State(seen[..count0], given0), key)), v)
            == if text.Some? then text.value else Verbatim(Hole(key))
  {
    hide NumericArg, Verbatim, Lookup;
    text, count, given := None, count0, given0;
    EmptyIsNotNumeric();
    var known := FindSeen(seen, count, key);
    var number := NumericArg(key);
    if number.Some? {
      var index := number.value;
      if index in v.arguments {
        text := Some(v.arguments[index]);
      }
      if known.None? && count < SLOTS {
        seen[count] := (key, index);
        count := count + 1;
        given := given + 1;
        assert seen[..count] == old(seen[..count0]) + [(key, index)];
      }
    } else if key != [] {
      var index;
      if known.Some? {
        index := known.value;
      } else {
        index := given + 1;
        if count < SLOTS {
          seen[count] := (key, index);
          count := count + 1;
          assert seen[..count] == old(seen[..count0]) + [(key, index)];
        }
        given := given + 1;
      }
      if index in v.arguments {
        text := Some(v.arguments[index]);
      } else if key in v.context {
        text := Some(v.context[key]);
      }
    }
  }

  /** Length of the run of text at `start`. */
  method RunFrom(b: bytes, start: nat) returns (end: nat)
    requires start <= |b|
    ensures end == start + Run(b[start..]) && end <= |b|
  {
    end := start;
    while end < |b| && b[end] != OPEN
      invariant start <= end <= |b| && Run(b[start..]) == end - start + Run(b[end..])
    {
      assert b[end..][1..] == b[end + 1..];
      end := end + 1;
    }
  }

  lemma HoleFrom(b: bytes, i: nat, n: nat)
    requires i < |b| && b[i] == OPEN && FindClose(b[i + 1..]) == Some(n)
    ensures i + n + 2 <= |b| && Tokens(b[i..]) == [Hole(b[i + 1..i + n + 1])] + Tokens(b[i + n + 2..])
  {
    hide FindClose, Run;
    var c := b[i..];
    assert c[1..] == b[i + 1..];
    assert c[1..n + 1] == b[i + 1..i + n + 1] && c[n + 2..] == b[i + n + 2..];
  }

  lemma BraceFrom(b: bytes, i: nat)
    requires i < |b| && b[i] == OPEN && FindClose(b[i + 1..]) == None
    ensures Tokens(b[i..]) == [Literal([OPEN])] + Tokens(b[i + 1..])
  {
    hide FindClose, Run;
    assert b[i..][1..] == b[i + 1..];
  }

  lemma TextFrom(b: bytes, i: nat, e: nat)
    requires i < |b| && b[i] != OPEN && e == i + Run(b[i..])
    ensures i < e <= |b| && Tokens(b[i..]) == [Literal(b[i..e])] + Tokens(b[e..])
  {
    hide FindClose, Run;
    var c := b[i..];
    RunMoves(c);
    assert c[..Run(c)] == b[i..e] && c[Run(c)..] == b[e..];
  }

  /** One token further. */
  lemma NextToken(ts: seq<Token>, k: nat, t: Token, more: seq<Token>, v: Values)
    requires k <= |ts| && ts[k..] == [t] + more
    ensures k < |ts| && ts[k] == t && ts[k + 1..] == more
    ensures Written(ts, k + 1, v) == Written(ts, k, v) + Piece(t, IndexAt(ts, k), v)
    ensures StateAt(ts, k + 1) == After(StateAt(ts, k), t)
  {
    hide IndexAt, Piece, After;
    assert ts[k..][0] == t && ts[k..][1..] == more;
  }

  lemma LiteralChangesNothing(s: State, text: bytes)
    ensures After(s, Literal(text)) == s
  {
  }

  method FormatWithContext(template: bytes, v: Values) returns (result: bytes)
    ensures result == Written(Tokens(template), |Tokens(template)|, v)
  {
    if OPEN !in template {
      NoHoles(template, v);
      return template;
    }
    result := Scan(template, v);
  }

  method Scan(template: bytes, v: Values) returns (result: bytes)
    ensures result == Written(Tokens(template), |Tokens(template)|, v)
  {
    hide Tokens, Written, StateAt, After, Verbatim, FindClose, Run, IndexFor;
    ghost var ts := Tokens(template);
    ghost var k := 0;
    var len := |template|;
    var i := 0;
    var seen := new (bytes, nat)[SLOTS](_ => ([], 0));
    var count: nat, given: nat := 0, 0;
    result := [];
    Beginning(ts, v);
    assert template[0..] == template && ts[0..] == ts && seen[..0] == [];
    while i < len
      invariant i <= len && k <= |ts| && count <= SLOTS && fresh(seen) && seen.Length == SLOTS
      invariant Tokens(template[i..]) == ts[k..]
      invariant State(seen[..count], given) == StateAt(ts, k)
      invariant result == Written(ts, k, v)
    {
      if template[i] == OPEN {
        var close := MemchrBrace(template, i + 1);
        if close.Some? {
          var end := close.value;
          var key := template[i + 1..end];
          HoleFrom(template, i, end - i - 1);
          NextToken(ts, k, Hole(key), Tokens(template[end + 1..]), v);
          var text;
          text, count, given := TakeHole(key, v, seen, count, given);
          if text.Some? {
            result := result + text.value;
          } else {
            HoleVerbatim(template, i, end);
            result := result + template[i..end + 1];
          }
          i := end + 1;
        } else {
          BraceFrom(template, i);
          NextToken(ts, k, Literal([OPEN]), Tokens(template[i + 1..]), v);
          LiteralChangesNothing(StateAt(ts, k), [OPEN]);
          result := result + [OPEN];
          i := i + 1;
        }
      } else {
        var end := RunFrom(template, i);
        TextFrom(template, i, end);
        NextToken(ts, k, Literal(template[i..end]), Tokens(template[end..]), v);
        LiteralChangesNothing(StateAt(ts, k), template[i..end]);
        result := result + template[i..end];
        i := end;
      }
      k := k + 1;
    }
    assert template[len..] == [];
    NoTokens();
  }

  lemma Beginning(ts: seq<Token>, v: Values)
    ensures Written(ts, 0, v) == [] && StateAt(ts, 0) == START
  {
  }

  lemma HoleVerbatim(b: bytes, i: nat, end: nat)
    requires i < end < |b| && b[i] == OPEN && b[end] == CLOSE
    ensures b[i..end + 1] == Verbatim(Hole(b[i + 1..end]))
  {
    assert b[i..i + 1] == [b[i]] && b[end..end + 1] == [b[end]];
    assert b[i..end + 1] == b[i..i + 1] + b[i + 1..end] + b[end..end + 1];
  }

  /** The shortcut for templates without holes changes nothing. */
  lemma NoHoles(template: bytes, v: Values)
    requires OPEN !in template
    ensures Written(Tokens(template), |Tokens(template)|, v) == template
  {
    if template != [] {
      WholeRun(template);
      assert template[..|template|] == template && template[|template|..] == [];
      assert Tokens(template) == [Literal(template)];
      assert Written(Tokens(template), 1, v) == [] + template;
    }
  }

  lemma {:induction false} WholeRun(b: bytes)
    requires OPEN !in b
    ensures Run(b) == |b|
  {
    if b != [] {
      WholeRun(b[1..]);
    }
  }

  /** The keys of the holes, without the empty ones. */
  function KeysOf(ts: seq<Token>): seq<bytes> {
    if ts == [] then []
    else (if ts[0].Hole? && ts[0].key != [] then [ts[0].key] else []) + KeysOf(ts[1..])
  }

  lemma KeysOfCons(t: Token, ts: seq<Token>)
    ensures KeysOf([t] + ts) == (if t.Hole? && t.key != [] then [t.key] else []) + KeysOf(ts)
  {
    assert ([t] + ts)[1..] == ts;
  }

  /** A byte of text holds no key. */
  lemma TextHasNoKeys(b: bytes)
    requires b != [] && b[0] != OPEN
    ensures KeysOf(Tokens(b)) == KeysOf(Tokens(b[1..]))
  {
    hide KeysOf;
    var r := Run(b);
    KeysOfCons(Literal(b[..r]), Tokens(b[r..]));
    if r > 1 {
      assert b[1..][Run(b[1..])..] == b[r..];
      KeysOfCons(Literal(b[1..][..r - 1]), Tokens(b[r..]));
    }
  }

  method ExtractPlaceholders(template: bytes) returns (placeholders: seq<bytes>)
    ensures placeholders == KeysOf(Tokens(template))
  {
    hide Tokens, KeysOf, FindClose;
    placeholders := [];
    var i := 0;
    assert template[0..] == template;
    while i < |template|
      invariant i <= |template|
      invariant placeholders + KeysOf(Tokens(template[i..])) == KeysOf(Tokens(template))
    {
      if template[i] == OPEN {
        var close := MemchrBrace(template, i + 1);
        if close.Some? {
          var key := template[i + 1..close.value];
          HoleFrom(template, i, close.value - i - 1);
          KeysOfCons(Hole(key), Tokens(template[close.value + 1..]));
          if key != [] {
            placeholders := placeholders + [key];
          }
          i := close.value + 1;
        } else {
          BraceFrom(template, i);
          KeysOfCons(Literal([OPEN]), Tokens(template[i + 1..]));
          i := i + 1;
        }
      } else {
        TextHasNoKeys(template[i..]);
        assert template[i..][1..] == template[i + 1..];
        i := i + 1;
      }
    }
    assert template[i..] == [];
    NoKeys();
  }

  lemma NoKeys()
    ensures KeysOf(Tokens([])) == []
  {
  }
}
