/** The PLC symbol table and its two parsers (crates/tc-otel-ads/src/symbol.rs and
    crates/tc-otel-client/src/browse.rs). Why a table is refused is not modelled. */
module Symbols {
  import opened Bytes
  import opened Wire
  import Utf8

  datatype Symbol = Symbol(
    indexGroup: u32, indexOffset: u32, size: u32, dataType: u32, flags: u32,
    name: bytes, typeName: bytes, comment: bytes)

  /** The 30 bytes before the strings. */
  datatype Header = Header(
    entryLength: u32, indexGroup: u32, indexOffset: u32, size: u32, dataType: u32, flags: u32,
    name: u16, typeName: u16, comment: u16)

  function GetHeader(b: bytes): (r: Parsed<Header>)
    ensures |r.rest| <= |b|
    ensures r.Ok? ==> |r.rest| == |b| - 30
  {
    var (entryLength, b1) :- GetU32(b);
    var (indexGroup, b2) :- GetU32(b1);
    var (indexOffset, b3) :- GetU32(b2);
    var (size, b4) :- GetU32(b3);
    var (dataType, b5) :- GetU32(b4);
    var (flags, b6) :- GetU32(b5);
    var (name, b7) :- GetU16(b6);
    var (typeName, b8) :- GetU16(b7);
    var (comment, b9) :- GetU16(b8);
    Ok(Header(entryLength, indexGroup, indexOffset, size, dataType, flags, name, typeName, comment), b9)
  }

  function Node(h: Header, name: bytes, typeName: bytes, comment: bytes): Symbol {
    Symbol(h.indexGroup, h.indexOffset, h.size, h.dataType, h.flags, name, typeName, comment)
  }

  // The first parser reads each string up to its terminator

  /** Everything before the first zero. */
  function UpToNul(s: bytes): bytes {
    if s == [] || s[0] == 0 then [] else [s[0]] + UpToNul(s[1..])
  }

  /** A string in `n + 1` bytes. */
  function GetTerminated(b: bytes, n: nat): (r: Parsed<bytes>)
    ensures |r.rest| <= |b|
    ensures r.Ok? ==> |r.rest| == |b| - n - 1
  {
    var (s, t) :- Take(b, n + 1);
    if Utf8.Valid(UpToNul(s)) then Ok(UpToNul(s), t) else Err(InvalidUtf8, t)
  }

  datatype Entry = Entry(symbol: Symbol, consumed: nat)

  function GetEntry(b: bytes): Parsed<Entry> {
    var (h, b1) :- GetHeader(b);
    var (name, b2) :- GetTerminated(b1, h.name);
    var (typeName, b3) :- GetTerminated(b2, h.typeName);
    var (comment, b4) :- GetTerminated(b3, h.comment);
    Ok(Entry(Node(h, name, typeName, comment), h.entryLength), b4)
  }

  function Table(b: bytes): Option<seq<Symbol>>
    decreases |b|
  {
    if |b| < 4 then Some([])
    else
      match GetEntry(b)
      case Err(_, _) => None
      case Ok(e, _) =>
        if e.consumed == 0 then None
        else
          var more :- Table(Skip(b, e.consumed));
          Some([e.symbol] + more)
  }

  // The second parser goes by the declared lengths

  function GetNode(b: bytes): (r: Option<Entry>)
    ensures r.Some? ==> 32 <= r.value.consumed <= |b|
  {
    match GetHeader(b)
    case Err(_, _) => None
    case Ok(h, b1) =>
      if h.entryLength > |b| || 32 + h.name as nat + h.typeName as nat + h.comment as nat > h.entryLength then None
      else
        var name :- Utf8.Strict(b1[..h.name]);
        var b2 := b1[h.name as nat + 1..];
        var typeName :- Utf8.Strict(b2[..h.typeName]);
        var b3 := b2[h.typeName as nat + 1..];
        var comment :- Utf8.Strict(b3[..h.comment]);
        Some(Entry(Node(h, name, typeName, comment), h.entryLength))
  }

  function Nodes(b: bytes, left: nat): Option<seq<Symbol>>
    decreases left
  {
    if |b| < 30 || left == 0 then Some([])
    else
      var e :- GetNode(b);
      var more :- Nodes(b[e.consumed..], left - 1);
      Some([e.symbol] + more)
  }

  /** `UploadInfo`, of which only the first two fields are used. */
  datatype Info = Info(symbolCount: u32, symbolLength: u32)

  function Upload(b: bytes, info: Info): Option<seq<Symbol>> {
    if |b| < info.symbolLength then None else Nodes(b, info.symbolCount)
  }

  // Writing

  predicate IsName(s: bytes) {
    |s| < 0x1_0000 && Utf8.Valid(s) && 0 !in s
  }

  predicate Fits(e: Symbol) {
    IsName(e.name) && IsName(e.typeName) && IsName(e.comment)
  }

  function EntryLength(e: Symbol): u32
    requires Fits(e)
  {
    33 + |e.name| + |e.typeName| + |e.comment|
  }

  /** The lengths are cut to the width of their fields. */
  function HeaderOf(e: Symbol): (h: Header)
    ensures Node(h, e.name, e.typeName, e.comment) == e
    ensures Fits(e) ==> h.entryLength == EntryLength(e)
    ensures Fits(e) ==> h.name == |e.name| && h.typeName == |e.typeName| && h.comment == |e.comment|
  {
    hide Utf8.Valid;
    Header((33 + |e.name| + |e.typeName| + |e.comment|) % 0x1_0000_0000, e.indexGroup, e.indexOffset, e.size,
           e.dataType,
           e.flags, |e.name| % 0x1_0000, |e.typeName| % 0x1_0000, |e.comment| % 0x1_0000)
  }

  function PutHeader(h: Header, t: bytes): (r: bytes)
    ensures |r| == 30 + |t|
    ensures GetHeader(r) == Ok(h, t)
  {
    hide Tail;
    PutU32(h.entryLength, PutU32(h.indexGroup, PutU32(h.indexOffset, PutU32(h.size, PutU32(h.dataType, PutU32(h.flags,
      PutU16(h.name, PutU16(h.typeName, PutU16(h.comment, t)))))))))
  }

  function PutTerminated(s: bytes, t: bytes): (r: bytes)
    ensures |r| == |s| + 1 + |t| && Tail(t, r)
  {
    TailOfTail(t, PutU8(0, t), Put(s, PutU8(0, t)));
    Put(s, PutU8(0, t))
  }

  function PutStrings(e: Symbol, t: bytes): (r: bytes)
    ensures |r| == |e.name| + |e.typeName| + |e.comment| + 3 + |t| && Tail(t, r)
  {
    var t1 := PutTerminated(e.comment, t);
    var t2 := PutTerminated(e.typeName, t1);
    TailOfTail(t, t1, t2);
    TailOfTail(t, t2, PutTerminated(e.name, t2));
    PutTerminated(e.name, t2)
  }

  function PutEntry(e: Symbol, t: bytes): (r: bytes)
    ensures |r| == 33 + |e.name| + |e.typeName| + |e.comment| + |t|
  {
    PutHeader(HeaderOf(e), PutStrings(e, t))
  }

  function PutTable(es: seq<Symbol>, t: bytes): bytes {
    if es == [] then t else PutEntry(es[0], PutTable(es[1..], t))
  }

  // Both parsers give the table back

  lemma {:induction false} UpToNulOf(s: bytes, t: bytes)
    requires 0 !in s
    ensures UpToNul(s + [0] + t) == s
  {
    var b := s + [0] + t;
    if s != [] {
      assert b[1..] == s[1..] + [0] + t;
      UpToNulOf(s[1..], t);
    }
  }

  lemma TerminatedReadsBack(s: bytes, t: bytes)
    requires IsName(s)
    ensures GetTerminated(PutTerminated(s, t), |s|) == Ok(s, t)
  {
    var b := PutTerminated(s, t);
    assert b[..|s| + 1] == s + [0] + [];
    assert b[|s| + 1..] == t;
    UpToNulOf(s, []);
  }

  lemma EntryEnds(e: Symbol, t: bytes)
    requires Fits(e)
    ensures PutEntry(e, t)[EntryLength(e)..] == t
  {
    hide PutHeader, PutStrings, Utf8.Valid;
    var s := PutStrings(e, t);
    var b := PutEntry(e, t);
    HeaderEnds(HeaderOf(e), s);
    assert b[EntryLength(e)..] == b[30..][|s| - |t|..];
  }

  lemma HeaderEnds(h: Header, t: bytes)
    ensures PutHeader(h, t)[30..] == t
  {
    hide PutHeader;
    HeaderByIndex(PutHeader(h, t));
  }

  lemma HeaderByIndex(b: bytes)
    requires |b| >= 30
    ensures GetHeader(b) == Ok(Header(U32(b[0..4]), U32(b[4..8]), U32(b[8..12]), U32(b[12..16]), U32(b[16..20]),
                                      U32(b[20..24]), U16(b[24..26]), U16(b[26..28]), U16(b[28..30])), b[30..])
  {
    hide GetU16, GetU32, U16, U32;
    assert b[0..] == b;
    U32At(b, 0);
    U32At(b, 4);
    U32At(b, 8);
    U32At(b, 12);
    U32At(b, 16);
    U32At(b, 20);
    U16At(b, 24);
    U16At(b, 26);
    U16At(b, 28);
  }

  lemma EntryReadsBack(e: Symbol, t: bytes)
    requires Fits(e)
    ensures GetEntry(PutEntry(e, t)) == Ok(Entry(e, EntryLength(e)), t)
  {
    hide PutHeader, GetHeader, PutTerminated, GetTerminated, Utf8.Valid, Tail, HeaderOf;
    var t1 := PutTerminated(e.comment, t);
    var t2 := PutTerminated(e.typeName, t1);
    TerminatedReadsBack(e.comment, t);
    TerminatedReadsBack(e.typeName, t1);
    TerminatedReadsBack(e.name, t2);
  }

  lemma TerminatedByLength(s: bytes, t: bytes)
    ensures PutTerminated(s, t)[..|s|] == s && PutTerminated(s, t)[|s| + 1..] == t
  {
  }

  lemma NodeReadsBack(e: Symbol, t: bytes)
    requires Fits(e)
    ensures GetNode(PutEntry(e, t)) == Some(Entry(e, EntryLength(e)))
  {
    hide PutHeader, GetHeader, PutTerminated, Utf8.Valid, Tail, HeaderOf;
    var t1 := PutTerminated(e.comment, t);
    var t2 := PutTerminated(e.typeName, t1);
    TerminatedByLength(e.comment, t);
    TerminatedByLength(e.typeName, t1);
    TerminatedByLength(e.name, t2);
  }

  lemma {:induction false} TableReadsBack(es: seq<Symbol>)
    requires forall e | e in es :: Fits(e)
    ensures Table(PutTable(es, [])) == Some(es)
  {
    hide Fits, GetEntry, PutEntry;
    if es != [] {
      var t := PutTable(es[1..], []);
      EntryReadsBack(es[0], t);
      EntryEnds(es[0], t);
      EntryIsLong(es[0]);
      TableReadsBack(es[1..]);
      assert [es[0]] + es[1..] == es;
    }
  }

  lemma EntryIsLong(e: Symbol)
    requires Fits(e)
    ensures EntryLength(e) >= 33
  {
  }

  /** The second parser stops at the announced number of symbols. */
  lemma {:induction false} NodesReadBack(es: seq<Symbol>, left: nat)
    requires forall e | e in es :: Fits(e)
    ensures Nodes(PutTable(es, []), left) == Some(if left <= |es| then es[..left] else es)
  {
    hide Fits, GetNode, PutEntry;
    if es != [] && left > 0 {
      var t := PutTable(es[1..], []);
      NodeReadsBack(es[0], t);
      EntryEnds(es[0], t);
      EntryIsLong(es[0]);
      NodesReadBack(es[1..], left - 1);
      assert left <= |es| ==> [es[0]] + es[1..][..left - 1] == es[..left];
      assert [es[0]] + es[1..] == es;
    } else if es != [] {
      assert es[..0] == [];
    }
  }

  /** Both parsers read every table back, and so agree on it. */
  lemma ParsersAgree(es: seq<Symbol>, info: Info)
    requires forall e | e in es :: Fits(e)
    requires info.symbolCount >= |es| && info.symbolLength <= |PutTable(es, [])|
    ensures Table(PutTable(es, [])) == Some(es) == Upload(PutTable(es, []), info)
  {
    hide Fits, Table, Nodes, PutTable;
    TableReadsBack(es);
    NodesReadBack(es, info.symbolCount);
    assert es[..|es|] == es;
  }

  // Where the two parsers agree on arbitrary bytes

  /** The `n` bytes at `i` hold no zero, and one follows them. */
  predicate Terminated(b: bytes, i: nat, n: nat) {
    i + n < |b| && 0 !in b[i..i + n] && b[i + n] == 0
  }

  lemma {:induction false} UpToNulIsIff(s: bytes, x: byte)
    ensures UpToNul(s + [x]) == s <==> 0 !in s && x == 0
  {
    var b := s + [x];
    if s != [] {
      assert b[1..] == s[1..] + [x];
      UpToNulIsIff(s[1..], x);
      assert s == [s[0]] + s[1..];
      assert 0 in s <==> s[0] == 0 || 0 in s[1..];
    }
  }

  /** A string read up to its terminator is the one of its declared length exactly when it is terminated there. */
  lemma SameStringIff(b: bytes, i: nat, n: nat)
    requires i + n < |b|
    ensures UpToNul(b[i..i + n + 1]) == b[i..i + n] <==> Terminated(b, i, n)
  {
    hide UpToNul;
    assert b[i..i + n + 1] == b[i..i + n] + [b[i + n]];
    UpToNulIsIff(b[i..i + n], b[i + n]);
  }

  lemma EntryStrings(b: bytes, h: Header)
    requires |b| >= 30 && GetHeader(b) == Ok(h, b[30..]) && GetEntry(b).Ok?
    ensures var o1 := 30 + h.name as nat; var o2 := o1 + 1 + h.typeName as nat; var o3 := o2 + 1 + h.comment as nat;
            && o3 < |b|
            && GetEntry(b).value.symbol
               == Node(h, UpToNul(b[30..o1 + 1]), UpToNul(b[o1 + 1..o2 + 1]), UpToNul(b[o2 + 1..o3 + 1]))
  {
    hide GetHeader, Take, UpToNul, Utf8.Valid;
    var o1 := 30 + h.name as nat;
    var o2 := o1 + 1 + h.typeName as nat;
    TakeAt(b, 30, h.name as nat + 1);
    if o1 + 1 <= |b| {
      TakeAt(b, o1 + 1, h.typeName as nat + 1);
      if o2 + 1 <= |b| {
        TakeAt(b, o2 + 1, h.comment as nat + 1);
      }
    }
  }

  lemma NodeStrings(b: bytes, h: Header)
    requires |b| >= 30 && GetHeader(b) == Ok(h, b[30..]) && GetNode(b).Some?
    ensures var o1 := 30 + h.name as nat; var o2 := o1 + 1 + h.typeName as nat; var o3 := o2 + 1 + h.comment as nat;
            && o3 <= |b|
            && GetNode(b).value.symbol == Node(h, b[30..o1], b[o1 + 1..o2], b[o2 + 1..o3])
  {
    hide GetHeader, Utf8.Valid;
    var o1 := 30 + h.name as nat;
    var o2 := o1 + 1 + h.typeName as nat;
    var o3 := o2 + 1 + h.comment as nat;
    var b1 := b[30..];
    var b2 := b1[h.name as nat + 1..];
    assert b2 == b[o1 + 1..] && b2[h.typeName as nat + 1..] == b[o2 + 1..];
    assert b1[..h.name] == b[30..o1] && b2[..h.typeName] == b[o1 + 1..o2];
    assert b[o2 + 1..][..h.comment] == b[o2 + 1..o3];
  }

  /** Exactly which bytes each parser takes for an entry: the first needs three strings with room for a terminator
      each, of which the part before the first zero is well-formed; the second an entry length that fits and covers
      the strings and two terminators, and strings that are well-formed as a whole. */
  lemma EntryAcceptedIff(b: bytes)
    requires |b| >= 30
    ensures var name, typeName, comment := U16(b[24..26]), U16(b[26..28]), U16(b[28..30]);
            var o1 := 30 + name as nat; var o2 := o1 + 1 + typeName as nat; var o3 := o2 + 1 + comment as nat;
            && (GetEntry(b).Ok? <==>
                  && o3 < |b| && Utf8.Valid(UpToNul(b[30..o1 + 1])) && Utf8.Valid(UpToNul(b[o1 + 1..o2 + 1]))
                  && Utf8.Valid(UpToNul(b[o2 + 1..o3 + 1])))
            && (GetNode(b).Some? <==>
                  && o3 <= U32(b[0..4]) <= |b| && Utf8.Valid(b[30..o1]) && Utf8.Valid(b[o1 + 1..o2])
                  && Utf8.Valid(b[o2 + 1..o3]))
  {
    hide GetHeader, Utf8.Valid, U16, U32, UpToNul, Take;
    HeaderByIndex(b);
    var h := GetHeader(b).value;
    EntryStringsIff(b, h);
    NodeStringsIff(b, h);
  }

  lemma EntryStringsIff(b: bytes, h: Header)
    requires |b| >= 30 && GetHeader(b) == Ok(h, b[30..])
    ensures var o1 := 30 + h.name as nat; var o2 := o1 + 1 + h.typeName as nat; var o3 := o2 + 1 + h.comment as nat;
            GetEntry(b).Ok? <==>
              && o3 < |b| && Utf8.Valid(UpToNul(b[30..o1 + 1])) && Utf8.Valid(UpToNul(b[o1 + 1..o2 + 1]))
              && Utf8.Valid(UpToNul(b[o2 + 1..o3 + 1]))
  {
    hide GetHeader, Take, UpToNul, Utf8.Valid;
    var o1 := 30 + h.name as nat;
    var o2 := o1 + 1 + h.typeName as nat;
    TakeAt(b, 30, h.name as nat + 1);
    if o1 + 1 <= |b| {
      TakeAt(b, o1 + 1, h.typeName as nat + 1);
      if o2 + 1 <= |b| {
        TakeAt(b, o2 + 1, h.comment as nat + 1);
      }
    }
  }

  lemma NodeStringsIff(b: bytes, h: Header)
    requires |b| >= 30 && GetHeader(b) == Ok(h, b[30..])
    ensures var o1 := 30 + h.name as nat; var o2 := o1 + 1 + h.typeName as nat; var o3 := o2 + 1 + h.comment as nat;
            GetNode(b).Some? <==>
              && o3 <= h.entryLength <= |b| && Utf8.Valid(b[30..o1]) && Utf8.Valid(b[o1 + 1..o2])
              && Utf8.Valid(b[o2 + 1..o3])
  {
    hide GetHeader, Utf8.Valid;
    var o1 := 30 + h.name as nat;
    var o2 := o1 + 1 + h.typeName as nat;
    var o3 := o2 + 1 + h.comment as nat;
    if o3 <= h.entryLength <= |b| {
      var b1 := b[30..];
      var b2 := b1[h.name as nat + 1..];
      assert b2 == b[o1 + 1..] && b2[h.typeName as nat + 1..] == b[o2 + 1..];
      assert b1[..h.name] == b[30..o1] && b2[..h.typeName] == b[o1 + 1..o2];
      assert b[o2 + 1..][..h.comment] == b[o2 + 1..o3];
    }
  }

  /** Bytes that are left over: the first parser overlooks up to three and refuses more, the second overlooks up to
      29 and refuses more unless it has its symbols. */
  lemma LeftoverBytes(b: bytes, left: nat)
    ensures |b| < 4 ==> Table(b) == Some([])
    ensures 4 <= |b| < 33 ==> Table(b) == None
    ensures |b| < 30 || left == 0 ==> Nodes(b, left) == Some([])
    ensures 30 <= |b| < 32 && left > 0 ==> Nodes(b, left) == None
  {
    hide GetHeader, Utf8.Valid, UpToNul;
  }

  /** On any bytes that both parsers accept they read the same symbol, and the same length, if and only if every
      declared string holds no zero and is followed by one. */
  lemma EntriesAgreeIff(b: bytes)
    requires GetEntry(b).Ok? && GetNode(b).Some?
    ensures |b| >= 30 && GetHeader(b).Ok?
    ensures var h := GetHeader(b).value;
            var o1 := 30 + h.name as nat; var o2 := o1 + 1 + h.typeName as nat;
            GetEntry(b).value == GetNode(b).value
            <==> Terminated(b, 30, h.name) && Terminated(b, o1 + 1, h.typeName) && Terminated(b, o2 + 1, h.comment)
  {
    hide GetHeader, GetTerminated, UpToNul, Terminated, Utf8.Valid;
    HeaderByIndex(b);
    var h := GetHeader(b).value;
    EntryStrings(b, h);
    NodeStrings(b, h);
    var o1 := 30 + h.name as nat;
    var o2 := o1 + 1 + h.typeName as nat;
    SameStringIff(b, 30, h.name);
    SameStringIff(b, o1 + 1, h.typeName);
    SameStringIff(b, o2 + 1, h.comment);
  }

  // The parsers as they are written

  method ParseHeader(b: bytes) returns (r: Option<Header>)
    ensures match GetHeader(b)
            case Ok(h, rest) => r == Some(h) && |b| >= 30 && rest == b[30..]
            case Err(_, _) => r == None
  {
    hide GetHeader, U16, U32;
    if |b| < 30 {
      return None;
    }
    HeaderByIndex(b);
    r := Some(Header(U32(b[0..4]), U32(b[4..8]), U32(b[8..12]), U32(b[12..16]), U32(b[16..20]), U32(b[20..24]),
                     U16(b[24..26]), U16(b[26..28]), U16(b[28..30])));
  }

  method ParseEntry(b: bytes) returns (r: Option<Entry>)
    ensures match GetEntry(b)
            case Ok(e, _) => r == Some(e)
            case Err(_, _) => r == None
  {
    hide GetHeader, Take, UpToNul, Utf8.Valid;
    var h :- ParseHeader(b);
    var needed := 30 + (h.name as nat + 1) + (h.typeName as nat + 1) + (h.comment as nat + 1);
    if |b| < needed {
      return None;
    }
    var o1 := 30 + h.name as nat + 1;
    var o2 := o1 + h.typeName as nat + 1;
    TakeAt(b, 30, h.name as nat + 1);
    TakeAt(b, o1, h.typeName as nat + 1);
    TakeAt(b, o2, h.comment as nat + 1);
    var name :- Utf8.Strict(UpToNul(b[30..o1]));
    var typeName :- Utf8.Strict(UpToNul(b[o1..o2]));
    var comment :- Utf8.Strict(UpToNul(b[o2..needed]));
    r := Some(Entry(Node(h, name, typeName, comment), h.entryLength));
  }

  lemma SkipFurther(b: bytes, i: nat, n: nat)
    requires i <= |b|
    ensures Skip(b[i..], n) == Skip(b, i + n)
  {
    if i + n <= |b| {
      assert b[i..][n..] == b[i + n..];
    }
  }

  /** What the rest of the table adds to what was read already. */
  function Prepend(xs: seq<Symbol>, more: Option<seq<Symbol>>): Option<seq<Symbol>> {
    if more.Some? then Some(xs + more.value) else None
  }

  lemma PrependNothing(xs: seq<Symbol>, more: Option<seq<Symbol>>)
    ensures Prepend([], more) == more && Prepend(xs, Some([])) == Some(xs)
  {
    if more.Some? {
      assert [] + more.value == more.value;
    }
    assert xs + [] == xs;
  }

  lemma PrependOne(xs: seq<Symbol>, x: Symbol, more: Option<seq<Symbol>>)
    ensures Prepend(xs + [x], more) == Prepend(xs, Prepend([x], more))
  {
    if more.Some? {
      assert xs + [x] + more.value == xs + ([x] + more.value);
    }
  }

  /** `parse_symbol_table` */
  method ParseTable(data: bytes) returns (r: Option<seq<Symbol>>)
    ensures r == Table(data)
  {
    hide GetEntry;
    var symbols: seq<Symbol> := [];
    var offset: nat := 0;
    PrependNothing([], Table(data));
    while offset < |data|
      invariant Table(data) == Prepend(symbols, Table(Skip(data, offset)))
      decreases |data| - offset
    {
      if offset + 4 > |data| {
        break;
      }
      var e :- ParseEntry(data[offset..]);
      if e.consumed == 0 {
        return None;
      }
      SkipFurther(data, offset, e.consumed);
      PrependOne(symbols, e.symbol, Table(Skip(data, offset + e.consumed)));
      symbols := symbols + [e.symbol];
      offset := offset + e.consumed;
    }
    PrependNothing(symbols, None);
    r := Some(symbols);
  }

  /** The nodes and, by name, where to find them. */
  datatype SymbolTree = SymbolTree(nodes: seq<Symbol>, index: map<bytes, nat>) {
    function Get(name: bytes): Option<Symbol> {
      if name in index && index[name] < |nodes| then Some(nodes[index[name]]) else None
    }
  }

  /** The position of the last node of each name. */
  function IndexOf(nodes: seq<Symbol>): map<bytes, nat> {
    if nodes == [] then map[] else IndexOf(nodes[..|nodes| - 1])[nodes[|nodes| - 1].name := |nodes| - 1]
  }

  function LastNamed(nodes: seq<Symbol>, name: bytes): Option<Symbol> {
    if nodes == [] then None
    else if nodes[|nodes| - 1].name == name then Some(nodes[|nodes| - 1])
    else LastNamed(nodes[..|nodes| - 1], name)
  }

  /** Looking a name up gives what a scan from the end would find. */
  lemma {:induction false} GetIsLastNamed(nodes: seq<Symbol>, name: bytes)
    ensures SymbolTree(nodes, IndexOf(nodes)).Get(name) == LastNamed(nodes, name)
    ensures forall k | k in IndexOf(nodes) :: IndexOf(nodes)[k] < |nodes|
  {
    if nodes != [] {
      GetIsLastNamed(nodes[..|nodes| - 1], name);
    }
  }

  lemma NodesStep(b: bytes, cursor: nat, left: nat)
    requires cursor + 30 <= |b| && left > 0
    ensures match GetNode(b[cursor..])
            case None => Nodes(b[cursor..], left) == None
            case Some(e) =>
              cursor + e.consumed <= |b|
              && Nodes(b[cursor..], left) == Prepend([e.symbol], Nodes(b[cursor + e.consumed..], left - 1))
  {
    hide GetNode;
    if GetNode(b[cursor..]).Some? {
      assert b[cursor..][GetNode(b[cursor..]).value.consumed..] == b[cursor + GetNode(b[cursor..]).value.consumed..];
    }
  }

  /** One turn of `parse_upload`; the bounds it checks keep every slice inside the buffer. */
  method ParseNode(b: bytes, cursor: nat) returns (r: Option<Entry>)
    requires cursor + 30 <= |b|
    ensures r == GetNode(b[cursor..])
  {
    hide GetHeader, Utf8.Valid;
    var h :- ParseHeader(b[cursor..]);
    var entryEnd := cursor + h.entryLength;
    if entryEnd > |b| {
      return None;
    }
    var start := cursor + 30;
    var nameEnd := start + h.name;
    var typeEnd := nameEnd + 1 + h.typeName;
    var commentEnd := typeEnd + 1 + h.comment;
    if commentEnd > entryEnd {
      return None;
    }
    ghost var b1 := b[cursor..][30..];
    ghost var b2 := b1[h.name as nat + 1..];
    assert b1 == b[start..] && b2 == b[nameEnd + 1..] && b2[h.typeName as nat + 1..] == b[typeEnd + 1..];
    assert b[start..][..h.name] == b[start..nameEnd];
    assert b[nameEnd + 1..][..h.typeName] == b[nameEnd + 1..typeEnd];
    assert b[typeEnd + 1..][..h.comment] == b[typeEnd + 1..commentEnd];
    var name :- Utf8.Strict(b[start..nameEnd]);
    var typeName :- Utf8.Strict(b[nameEnd + 1..typeEnd]);
    var comment :- Utf8.Strict(b[typeEnd + 1..commentEnd]);
    r := Some(Entry(Node(h, name, typeName, comment), h.entryLength));
  }

  /** `parse_upload` */
  method ParseUpload(b: bytes, info: Info) returns (r: Option<SymbolTree>)
    ensures r == match Upload(b, info)
                 case Some(nodes) => Some(SymbolTree(nodes, IndexOf(nodes)))
                 case None => None
  {
    hide GetNode;
    if |b| < info.symbolLength {
      return None;
    }
    var nodes: seq<Symbol> := [];
    var index: map<bytes, nat> := map[];
    var cursor: nat := 0;
    assert b[0..] == b;
    PrependNothing([], Nodes(b, info.symbolCount));
    while cursor + 30 <= |b| && |nodes| < info.symbolCount
      invariant cursor <= |b| && |nodes| <= info.symbolCount && index == IndexOf(nodes)
      invariant Nodes(b, info.symbolCount) == Prepend(nodes, Nodes(b[cursor..], info.symbolCount - |nodes|))
      decreases |b| - cursor
    {
      NodesStep(b, cursor, info.symbolCount - |nodes|);
      var e :- ParseNode(b, cursor);
      PrependOne(nodes, e.symbol, Nodes(b[cursor + e.consumed..], info.symbolCount - |nodes| - 1));
      index := index[e.symbol.name := |nodes|];
      assert (nodes + [e.symbol])[..|nodes|] == nodes;
      nodes := nodes + [e.symbol];
      cursor := cursor + e.consumed;
    }
    PrependNothing(nodes, None);
    r := Some(SymbolTree(nodes, index));
  }

  /** `extend_from_slice`: what is still to come is `rest`. */
  method Extend(buf: bytes, field: bytes, ghost rest: bytes, ghost whole: bytes) returns (r: bytes)
    requires whole == buf + Put(field, rest)
    ensures whole == r + rest
  {
    r := buf + field;
    assert r + rest == buf + (field + rest);
  }

  method SerializeHeader(h: Header, ghost rest: bytes) returns (r: bytes)
    ensures PutHeader(h, rest) == r + rest
  {
    hide Put, Tail, Le16, Le32;
    ghost var whole := PutHeader(h, rest);
    ghost var t8 := PutU16(h.comment, rest);
    ghost var t7 := PutU16(h.typeName, t8);
    ghost var t6 := PutU16(h.name, t7);
    ghost var t5 := PutU32(h.flags, t6);
    ghost var t4 := PutU32(h.dataType, t5);
    ghost var t3 := PutU32(h.size, t4);
    ghost var t2 := PutU32(h.indexOffset, t3);
    ghost var t1 := PutU32(h.indexGroup, t2);
    assert whole == [] + whole;
    r := Extend([], Le32(h.entryLength), t1, whole);
    r := Extend(r, Le32(h.indexGroup), t2, whole);
    r := Extend(r, Le32(h.indexOffset), t3, whole);
    r := Extend(r, Le32(h.size), t4, whole);
    r := Extend(r, Le32(h.dataType), t5, whole);
    r := Extend(r, Le32(h.flags), t6, whole);
    r := Extend(r, Le16(h.name), t7, whole);
    r := Extend(r, Le16(h.typeName), t8, whole);
    r := Extend(r, Le16(h.comment), rest, whole);
  }

  /** `AdsSymbolEntry::serialize`; `rest` is whatever follows the entry in the table. */
  method Serialize(e: Symbol, ghost rest: bytes) returns (buf: bytes)
    ensures PutEntry(e, rest) == buf + rest
  {
    hide Put, Tail, PutHeader, Utf8.Valid;
    ghost var whole := PutEntry(e, rest);
    ghost var t5 := PutU8(0, rest);
    ghost var t4 := Put(e.comment, t5);
    ghost var t3 := PutU8(0, t4);
    ghost var t2 := Put(e.typeName, t3);
    ghost var t1 := PutU8(0, t2);
    buf := SerializeHeader(HeaderOf(e), Put(e.name, t1));
    buf := Extend(buf, e.name, t1, whole);
    buf := Extend(buf, [0], t2, whole);
    buf := Extend(buf, e.typeName, t3, whole);
    buf := Extend(buf, [0], t4, whole);
    buf := Extend(buf, e.comment, t5, whole);
    buf := Extend(buf, [0], rest, whole);
  }
}
