/** The TIME and LTIME texts of the value reader (crates/tc-otel-ads/src/parser.rs), and a reader of
    duration literals (section 6.3.4 of IEC 61131-3:2013) that gives the number back. */
module Durations {
  import opened Bytes

  /** The units of a duration literal. */
  datatype Unit = Days | Hours | Minutes | Seconds | Millis | Micros | Nanos

  function Suffix(u: Unit): string {
    match u
    case Days => "d"
    case Hours => "h"
    case Minutes => "m"
    case Seconds => "s"
    case Millis => "ms"
    case Micros => "us"
    case Nanos => "ns"
  }

  function InNanos(u: Unit): nat {
    match u
    case Days => 86_400_000_000_000
    case Hours => 3_600_000_000_000
    case Minutes => 60_000_000_000
    case Seconds => 1_000_000_000
    case Millis => 1_000_000
    case Micros => 1_000
    case Nanos => 1
  }

  datatype Part = Part(count: nat, unit: Unit)

  predicate IsDigit(c: char) {
    '0' <= c <= '9'
  }

  function DigitValue(c: char): nat
    requires IsDigit(c)
  {
    c as int - '0' as int
  }

  predicate AllDigits(s: string) {
    forall i | 0 <= i < |s| :: IsDigit(s[i])
  }

  /** Decimal notation without leading zeros. */
  function Decimal(n: nat): (s: string)
    ensures s != [] && AllDigits(s)
  {
    var last := ['0' + (n % 10) as char];
    if n < 10 then last else Decimal(n / 10) + last
  }

  /** The number a string of digits stands for. */
  function Value(s: string): nat
    requires AllDigits(s)
  {
    if s == [] then 0 else 10 * Value(s[..|s| - 1]) + DigitValue(s[|s| - 1])
  }

  lemma {:induction false} ValueOfDecimal(n: nat)
    ensures Value(Decimal(n)) == n
  {
    var s := Decimal(n);
    if n < 10 {
      assert s[..|s| - 1] == [];
    } else {
      ValueOfDecimal(n / 10);
      assert s[..|s| - 1] == Decimal(n / 10);
    }
  }

  // Writing

  function PartText(p: Part): string {
    Decimal(p.count) + Suffix(p.unit)
  }

  function TextOf(parts: seq<Part>): string {
    if parts == [] then "" else PartText(parts[0]) + TextOf(parts[1..])
  }

  function NonZero(parts: seq<Part>): seq<Part> {
    if parts == [] then []
    else (if parts[0].count > 0 then [parts[0]] else []) + NonZero(parts[1..])
  }

  /** The parts that are written: those that are not zero, or zero seconds when all of them are. */
  function Written(parts: seq<Part>): seq<Part> {
    if NonZero(parts) == [] then [Part(0, Seconds)] else NonZero(parts)
  }

  function TimeParts(ms: nat): seq<Part> {
    [Part(ms / 86_400_000, Days), Part(ms % 86_400_000 / 3_600_000, Hours), Part(ms % 3_600_000 / 60_000, Minutes),
     Part(ms % 60_000 / 1000, Seconds), Part(ms % 1000, Millis)]
  }

  function LtimeParts(ns: nat): seq<Part> {
    [Part(ns / 86_400_000_000_000, Days), Part(ns % 86_400_000_000_000 / 3_600_000_000_000, Hours),
     Part(ns % 3_600_000_000_000 / 60_000_000_000, Minutes), Part(ns % 60_000_000_000 / 1_000_000_000, Seconds),
     Part(ns % 1_000_000_000 / 1_000_000, Millis), Part(ns % 1_000_000 / 1_000, Micros), Part(ns % 1_000, Nanos)]
  }

  function TimeText(ms: u32): string {
    "T#" + TextOf(Written(TimeParts(ms)))
  }

  /** The product is a u64 in the source, so it wraps around. */
  function LtimeText(ticks: u64): string {
    "LTIME#" + TextOf(Written(LtimeParts(ticks * 100 % 0x1_0000_0000_0000_0000)))
  }

  // The pushes of the source, one component after the other

  lemma {:induction false} TextOfAppend(a: seq<Part>, p: Part)
    ensures TextOf(a + [p]) == TextOf(a) + PartText(p)
  {
    if a == [] {
      assert a + [p] == [p];
      assert TextOf([p][1..]) == "";
    } else {
      assert (a + [p])[1..] == a[1..] + [p];
      TextOfAppend(a[1..], p);
    }
  }

  lemma {:induction false} NonZeroAppend(a: seq<Part>, p: Part)
    ensures NonZero(a + [p]) == NonZero(a) + (if p.count > 0 then [p] else [])
  {
    if a == [] {
      assert a + [p] == [p];
      assert NonZero([p][1..]) == [];
    } else {
      assert (a + [p])[1..] == a[1..] + [p];
      NonZeroAppend(a[1..], p);
      var first, last := if a[0].count > 0 then [a[0]] else [], if p.count > 0 then [p] else [];
      assert first + (NonZero(a[1..]) + last) == first + NonZero(a[1..]) + last;
    }
  }

  /** The text after the first `k` components have been pushed. */
  function Pushed(all: seq<Part>, k: nat): string
    requires k <= |all|
  {
    TextOf(NonZero(all[..k]))
  }

  lemma Push(all: seq<Part>, k: nat)
    requires k < |all|
    ensures Pushed(all, k + 1) == Pushed(all, k) + (if all[k].count > 0 then PartText(all[k]) else "")
    ensures NonZero(all[..k + 1]) == [] <==> NonZero(all[..k]) == [] && all[k].count == 0
  {
    assert all[..k + 1] == all[..k] + [all[k]];
    NonZeroAppend(all[..k], all[k]);
    if all[k].count > 0 {
      TextOfAppend(NonZero(all[..k]), all[k]);
      assert |NonZero(all[..k + 1])| > 0;
    } else {
      assert NonZero(all[..k]) + [] == NonZero(all[..k]);
    }
  }

  method RenderTime(totalMs: u32) returns (parts: string)
    ensures parts == TimeText(totalMs)
  {
    parts := JoinTime(totalMs / 86_400_000, totalMs % 86_400_000 / 3_600_000, totalMs % 3_600_000 / 60_000,
                      totalMs % 60_000 / 1000, totalMs % 1000);
  }

  /** A component is written if it is not zero. */
  method PushPart(parts: string, p: Part, ghost prefix: string, ghost all: seq<Part>, ghost k: nat) returns (r: string)
    requires k < |all| && all[k] == p && parts == prefix + Pushed(all, k)
    ensures r == prefix + Pushed(all, k + 1)
  {
    Push(all, k);
    r := parts;
    if p.count > 0 {
      r := r + PartText(p);
    }
  }

  method JoinTime(d: nat, h: nat, m: nat, s: nat, ms: nat) returns (parts: string)
    ensures parts == "T#" + TextOf(Written([Part(d, Days), Part(h, Hours), Part(m, Minutes), Part(s, Seconds),
                                            Part(ms, Millis)]))
  {
    hide TextOf, NonZero, Pushed, PartText;
    ghost var all := [Part(d, Days), Part(h, Hours), Part(m, Minutes), Part(s, Seconds), Part(ms, Millis)];
    Start(all);
    parts := PushPart("T#", Part(d, Days), "T#", all, 0);
    parts := PushPart(parts, Part(h, Hours), "T#", all, 1);
    parts := PushPart(parts, Part(m, Minutes), "T#", all, 2);
    AllZero(all);
    Push(all, 3);
    Push(all, 4);
    Associate("T#", Pushed(all, 3), PartText(Part(s, Seconds)));
    Associate("T#", Pushed(all, 4), PartText(Part(ms, Millis)));
    if s > 0 || (d == 0 && h == 0 && m == 0 && ms == 0) {
      parts := parts + PartText(Part(s, Seconds));
    }
    if ms > 0 {
      parts := parts + PartText(Part(ms, Millis));
    }
    Whole(all);
  }

  lemma Associate(a: string, b: string, c: string)
    ensures (a + b) + c == a + (b + c)
    ensures b + "" == b
  {
  }

  lemma {:induction false} AllZero(all: seq<Part>)
    ensures NonZero(all) == [] <==> forall i | 0 <= i < |all| :: all[i].count == 0
    ensures NonZero(all) == [] ==> forall k: nat | k <= |all| :: Pushed(all, k) == ""
  {
    if all != [] {
      AllZero(all[1..]);
      assert NonZero(all) == [] ==> forall i | 0 < i < |all| :: all[1..][i - 1] == all[i];
      forall k: nat | 0 < k <= |all| && NonZero(all) == [] ensures Pushed(all, k) == "" {
        assert all[..k][1..] == all[1..][..k - 1];
        assert Pushed(all[1..], k - 1) == "";
      }
    }
  }

  lemma Whole(all: seq<Part>)
    ensures Pushed(all, |all|) == TextOf(NonZero(all))
  {
    assert all[..|all|] == all;
  }

  lemma Start(all: seq<Part>)
    ensures Pushed(all, 0) == "" && NonZero(all[..0]) == []
    ensures TextOf([Part(0, Seconds)]) == PartText(Part(0, Seconds))
  {
    assert all[..0] == [];
    assert [Part(0, Seconds)][1..] == [];
  }

  method RenderLtime(ticks: u64) returns (parts: string)
    ensures parts == LtimeText(ticks)
  {
    var totalNs := ticks * 100 % 0x1_0000_0000_0000_0000;
    parts := JoinLtime(totalNs / 86_400_000_000_000, totalNs % 86_400_000_000_000 / 3_600_000_000_000,
                       totalNs % 3_600_000_000_000 / 60_000_000_000, totalNs % 60_000_000_000 / 1_000_000_000,
                       totalNs % 1_000_000_000 / 1_000_000, totalNs % 1_000_000 / 1_000, totalNs % 1_000);
  }

  method JoinLtime(d: nat, h: nat, m: nat, s: nat, ms: nat, us: nat, ns: nat) returns (parts: string)
    ensures parts == "LTIME#" + TextOf(Written([Part(d, Days), Part(h, Hours), Part(m, Minutes), Part(s, Seconds),
                                                Part(ms, Millis), Part(us, Micros), Part(ns, Nanos)]))
  {
    hide TextOf, NonZero, Pushed, PartText, Decimal;
    ghost var all := [Part(d, Days), Part(h, Hours), Part(m, Minutes), Part(s, Seconds), Part(ms, Millis),
                      Part(us, Micros), Part(ns, Nanos)];
    Start(all);
    parts := PushPart("LTIME#", Part(d, Days), "LTIME#", all, 0);
    parts := PushPart(parts, Part(h, Hours), "LTIME#", all, 1);
    parts := PushPart(parts, Part(m, Minutes), "LTIME#", all, 2);
    parts := PushPart(parts, Part(s, Seconds), "LTIME#", all, 3);
    parts := PushPart(parts, Part(ms, Millis), "LTIME#", all, 4);
    parts := PushPart(parts, Part(us, Micros), "LTIME#", all, 5);
    parts := PushPart(parts, Part(ns, Nanos), "LTIME#", all, 6);
    Whole(all);
    EmptyText(NonZero(all));
    if parts == "LTIME#" {
      parts := parts + "0s";
    }
  }

  lemma EmptyText(parts: seq<Part>)
    ensures TextOf(parts) == "" <==> parts == []
    ensures PartText(Part(0, Seconds)) == "0s"
  {
  }

  // Reading

  /** Length of the digits at the front. */
  function Digits(s: string): (n: nat)
    ensures n <= |s| && AllDigits(s[..n])
  {
    if s == "" || !IsDigit(s[0]) then 0
    else
      var n := 1 + Digits(s[1..]);
      assert s[..n] == [s[0]] + s[1..][..n - 1];
      n
  }

  /** Length of the unit at the front: everything up to the next digit. */
  function Letters(s: string): (n: nat)
    ensures n <= |s|
  {
    if s == "" || IsDigit(s[0]) then 0 else 1 + Letters(s[1..])
  }

  function UnitNamed(s: string): Option<Unit> {
    match s
    case "d" => Some(Days)
    case "h" => Some(Hours)
    case "m" => Some(Minutes)
    case "s" => Some(Seconds)
    case "ms" => Some(Millis)
    case "us" => Some(Micros)
    case "ns" => Some(Nanos)
    case _ => None
  }

  /** Nanoseconds in a run of numbers with units. */
  function ReadParts(s: string): Option<nat> {
    if s == "" then Some(0)
    else
      var n := Digits(s);
      var k := Letters(s[n..]);
      if n == 0 || k == 0 then None
      else
        var first :- Scaled(Value(s[..n]), s[n..][..k]);
        var more :- ReadParts(s[n..][k..]);
        Some(first + more)
  }

  function Scaled(count: nat, unit: string): Option<nat> {
    var u :- UnitNamed(unit);
    Some(count * InNanos(u))
  }

  /** A duration literal: the keyword and at least one number with its unit. */
  function ReadLiteral(keyword: string, s: string): Option<nat> {
    if keyword < s then ReadParts(s[|keyword|..]) else None
  }

  lemma {:induction false} DigitsOf(a: string, b: string)
    requires AllDigits(a) && (b == "" || !IsDigit(b[0]))
    ensures Digits(a + b) == |a|
  {
    if a == "" {
      assert a + b == b;
    } else {
      assert (a + b)[1..] == a[1..] + b;
      DigitsOf(a[1..], b);
    }
  }

  predicate NoDigits(s: string) {
    forall i | 0 <= i < |s| :: !IsDigit(s[i])
  }

  lemma {:induction false} LettersOf(a: string, b: string)
    requires NoDigits(a) && (b == "" || IsDigit(b[0]))
    ensures Letters(a + b) == |a|
  {
    if a == "" {
      assert a + b == b;
    } else {
      assert (a + b)[1..] == a[1..] + b;
      LettersOf(a[1..], b);
    }
  }

  lemma SuffixIsLetters(u: Unit)
    ensures |Suffix(u)| > 0 && NoDigits(Suffix(u))
  {
  }

  lemma ScaledBySuffix(count: nat, u: Unit)
    ensures Scaled(count, Suffix(u)) == Some(count * InNanos(u))
  {
  }

  function Total(parts: seq<Part>): nat {
    if parts == [] then 0 else parts[0].count * InNanos(parts[0].unit) + Total(parts[1..])
  }

  /** Every text made of numbers with units is read back to its total. */
  lemma {:induction false} ReadPartsOfText(parts: seq<Part>)
    ensures ReadParts(TextOf(parts)) == Some(Total(parts))
  {
    if parts != [] {
      ReadPartsOfText(parts[1..]);
      StartsWithDigit(parts[1..]);
      ReadOne(parts[0], TextOf(parts[1..]));
    }
  }

  lemma StartsWithDigit(parts: seq<Part>)
    ensures TextOf(parts) == "" || IsDigit(TextOf(parts)[0])
  {
    if parts != [] {
      var d := Decimal(parts[0].count);
      assert TextOf(parts) == d + Suffix(parts[0].unit) + TextOf(parts[1..]);
      assert TextOf(parts)[0] == d[0];
    }
  }

  lemma ReadOne(p: Part, tail: string)
    requires tail == "" || IsDigit(tail[0])
    requires ReadParts(tail).Some?
    ensures ReadParts(PartText(p) + tail) == Some(p.count * InNanos(p.unit) + ReadParts(tail).value)
  {
    hide Decimal, Value, Scaled, Digits, Letters, InNanos, Suffix, ReadParts;
    var d, u := Decimal(p.count), Suffix(p.unit);
    SuffixIsLetters(p.unit);
    DigitsOf(d, u + tail);
    LettersOf(u, tail);
    ScaledBySuffix(p.count, p.unit);
    ValueOfDecimal(p.count);
    ReadStep(d, u, tail);
    assert PartText(p) + tail == d + (u + tail);
  }

  lemma ReadStep(d: string, u: string, tail: string)
    requires AllDigits(d) && d != "" && u != "" && Digits(d + (u + tail)) == |d| && Letters(u + tail) == |u|
    requires Scaled(Value(d), u).Some? && ReadParts(tail).Some?
    ensures ReadParts(d + (u + tail)) == Some(Scaled(Value(d), u).value + ReadParts(tail).value)
  {
    hide Value, Scaled, Digits, Letters;
    var s := d + (u + tail);
    assert s[|d|..] == u + tail && s[..|d|] == d;
    assert (u + tail)[..|u|] == u && (u + tail)[|u|..] == tail;
  }

  lemma {:induction false} TotalOfNonZero(parts: seq<Part>)
    ensures Total(NonZero(parts)) == Total(parts)
  {
    if parts != [] {
      TotalOfNonZero(parts[1..]);
      if parts[0].count > 0 {
        assert NonZero(parts)[1..] == NonZero(parts[1..]);
      } else {
        assert NonZero(parts) == NonZero(parts[1..]);
      }
    }
  }

  lemma TotalOfWritten(parts: seq<Part>)
    ensures Total(Written(parts)) == Total(parts)
  {
    TotalOfNonZero(parts);
    assert [Part(0, Seconds)][1..] == [];
  }

  lemma TotalOf5(a: Part, b: Part, c: Part, d: Part, e: Part)
    ensures Total([a, b, c, d, e]) == a.count * InNanos(a.unit) + b.count * InNanos(b.unit) + c.count * InNanos(c.unit)
                                      + d.count * InNanos(d.unit) + e.count * InNanos(e.unit)
  {
    hide InNanos;
    assert [a, b, c, d, e][1..] == [b, c, d, e];
    assert [b, c, d, e][1..] == [c, d, e];
    assert [c, d, e][1..] == [d, e];
    assert [d, e][1..] == [e];
    assert Total([e]) == e.count * InNanos(e.unit);
    assert Total([d, e]) == d.count * InNanos(d.unit) + Total([e]);
    assert Total([c, d, e]) == c.count * InNanos(c.unit) + Total([d, e]);
    assert Total([b, c, d, e]) == b.count * InNanos(b.unit) + Total([c, d, e]);
  }

  lemma Split(x: nat, big: nat, small: nat, k: nat)
    requires small > 0 && k > 0 && big == k * small
    ensures x % big == small * (x % big / small) + x % small
  {
    var q, r := x / big, x % big;
    assert x == small * (k * q) + r;
    ModAdd(small, k * q, r);
  }

  lemma ModAdd(m: nat, a: nat, r: nat)
    requires m > 0
    ensures (m * a + r) % m == r % m
  {
    var q := r / m;
    assert m * a + r == m * (a + q) + r % m;
    RemainderIs(m * a + r, m, a + q, r % m);
  }

  lemma RemainderIs(x: nat, m: nat, q: nat, r: nat)
    requires m > 0 && r < m && x == m * q + r
    ensures x % m == r
  {
    var d: int := q - x / m;
    assert x == m * (x / m) + x % m;
    assert m * d == m * q - m * (x / m);
    AtLeastOne(m, d);
  }

  lemma AtLeastOne(m: nat, d: int)
    ensures d >= 1 ==> m * d >= m
    ensures d <= -1 ==> m * d + m <= 0
  {
  }

  lemma TotalOfTime(ms: nat)
    ensures Total(TimeParts(ms)) == ms * 1_000_000
  {
    var p := TimeParts(ms);
    TotalOf5(p[0], p[1], p[2], p[3], p[4]);
    Split(ms, 86_400_000, 3_600_000, 24);
    Split(ms, 3_600_000, 60_000, 60);
    Split(ms, 60_000, 1000, 60);
  }

  lemma TotalOfLtime(ns: nat)
    ensures Total(LtimeParts(ns)) == ns
  {
    hide LtimeParts;
    var p := LtimeParts(ns);
    assert |p| == 7 by {
      LtimeUnits(ns);
    }
    assert p[1..][1..] == [p[2], p[3], p[4], p[5], p[6]];
    assert Total(p) == p[0].count * InNanos(p[0].unit) + Total(p[1..]);
    assert Total(p[1..]) == p[1].count * InNanos(p[1].unit) + Total(p[1..][1..]);
    TotalOf5(p[2], p[3], p[4], p[5], p[6]);
    LtimeSum(ns);
    LtimeUnits(ns);
  }

  lemma LtimeUnits(ns: nat)
    ensures var p := LtimeParts(ns);
            && |p| == 7 && p[0].unit == Days && p[1].unit == Hours && p[2].unit == Minutes && p[3].unit == Seconds
            && p[4].unit == Millis && p[5].unit == Micros && p[6].unit == Nanos
  {
  }

  lemma LtimeSum(ns: nat)
    ensures var p := LtimeParts(ns);
            |p| == 7
            && ns == p[0].count * 86_400_000_000_000 + p[1].count * 3_600_000_000_000 + p[2].count * 60_000_000_000
                     + p[3].count * 1_000_000_000 + p[4].count * 1_000_000 + p[5].count * 1_000 + p[6].count
  {
    Split(ns, 86_400_000_000_000, 3_600_000_000_000, 24);
    Split(ns, 3_600_000_000_000, 60_000_000_000, 60);
    Split(ns, 60_000_000_000, 1_000_000_000, 60);
    Split(ns, 1_000_000_000, 1_000_000, 1000);
    Split(ns, 1_000_000, 1_000, 1000);
  }

  /** Every TIME value can be read back from its text. */
  lemma TimeReadsBack(ms: u32)
    ensures ReadLiteral("T#", TimeText(ms)) == Some(ms * 1_000_000)
  {
    hide TextOf, Written, TimeParts, ReadParts, Total;
    var w := Written(TimeParts(ms));
    WrittenIsSomething(TimeParts(ms));
    ReadPartsOfText(w);
    TotalOfWritten(TimeParts(ms));
    TotalOfTime(ms);
    assert TimeText(ms)[2..] == TextOf(w);
  }

  lemma WrittenIsSomething(parts: seq<Part>)
    ensures TextOf(Written(parts)) != ""
  {
    EmptyText(Written(parts));
  }

  /** An LTIME value can be read back exactly when the multiplication by 100 does not wrap around. */
  lemma LtimeReadsBackIff(ticks: u64)
    ensures ReadLiteral("LTIME#", LtimeText(ticks)) == Some(ticks * 100) <==> ticks * 100 < 0x1_0000_0000_0000_0000
  {
    hide TextOf, Written, LtimeParts, ReadParts, Total;
    var ns := ticks * 100 % 0x1_0000_0000_0000_0000;
    var w := Written(LtimeParts(ns));
    WrittenIsSomething(LtimeParts(ns));
    ReadPartsOfText(w);
    TotalOfWritten(LtimeParts(ns));
    TotalOfLtime(ns);
    assert LtimeText(ticks)[6..] == TextOf(w);
  }

  // TIME_OF_DAY

  /** Decimal notation, filled up with zeros on the left. */
  function Padded(n: nat, width: nat): (s: string)
    ensures s != [] && AllDigits(s)
  {
    var s := Decimal(n);
    if |s| < width then seq(width - |s|, _ => '0') + s else s
  }

  function TimeOfDayText(ms: u32): string {
    "TOD#" + (Padded(ms / 3_600_000, 2) + (":" + (Padded(ms % 3_600_000 / 60_000, 2)
      + (":" + (Padded(ms % 60_000 / 1000, 2)
      + (if ms % 1000 > 0 then "." + Padded(ms % 1000, 3) else ""))))))
  }

  /** A number and the text after it. */
  function ReadNumber(s: string): Option<(nat, string)> {
    var n := Digits(s);
    if n == 0 then None else Some((Value(s[..n]), s[n..]))
  }

  /** The text after one particular character. */
  function ReadChar(c: char, s: string): Option<string> {
    if s != "" && s[0] == c then Some(s[1..]) else None
  }

  /** Milliseconds in a time-of-day literal. */
  function ReadTimeOfDay(s: string): Option<nat> {
    if !("TOD#" <= s) then None
    else
      var h :- ReadNumber(s[4..]);
      var s1 :- ReadChar(':', h.1);
      var m :- ReadNumber(s1);
      var s2 :- ReadChar(':', m.1);
      var sec :- ReadNumber(s2);
      var whole := h.0 * 3_600_000 + m.0 * 60_000 + sec.0 * 1000;
      if sec.1 == "" then Some(whole)
      else
        var s3 :- ReadChar('.', sec.1);
        var ms :- ReadNumber(s3);
        if ms.1 == "" then Some(whole + ms.0) else None
  }

  lemma {:induction false} LeadingZero(s: string)
    requires AllDigits(s)
    ensures Value("0" + s) == Value(s)
  {
    var z := "0" + s;
    if s == "" {
      assert z[..0] == "";
    } else {
      LeadingZero(s[..|s| - 1]);
      assert z[..|z| - 1] == "0" + s[..|s| - 1];
    }
  }

  lemma {:induction false} LeadingZeros(k: nat, s: string)
    requires AllDigits(s)
    ensures Value(seq(k, _ => '0') + s) == Value(s)
  {
    var zs := seq(k, _ => '0');
    if k == 0 {
      assert zs + s == s;
    } else {
      var fewer := seq(k - 1, _ => '0');
      assert zs + s == "0" + (fewer + s);
      LeadingZeros(k - 1, s);
      LeadingZero(fewer + s);
    }
  }

  lemma PaddedReadsBack(n: nat, width: nat, t: string)
    requires t == "" || !IsDigit(t[0])
    ensures ReadNumber(Padded(n, width) + t) == Some((n, t))
  {
    hide Decimal, Value, Digits;
    var p := Padded(n, width);
    DigitsOf(p, t);
    assert (p + t)[..|p|] == p && (p + t)[|p|..] == t;
    ValueOfDecimal(n);
    if |Decimal(n)| < width {
      LeadingZeros(width - |Decimal(n)|, Decimal(n));
    }
  }

  lemma CharReadsBack(c: char, t: string)
    ensures ReadChar(c, [c] + t) == Some(t)
  {
    assert ([c] + t)[1..] == t;
  }

  /** Every time of day can be read back from its text, whether or not it has milliseconds. */
  lemma TimeOfDayReadsBack(ms: u32)
    ensures ReadTimeOfDay(TimeOfDayText(ms)) == Some(ms)
  {
    hide Padded, ReadNumber, ReadChar;
    var h, m, sec, rest := ms / 3_600_000, ms % 3_600_000 / 60_000, ms % 60_000 / 1000, ms % 1000;
    assert ms == h * 3_600_000 + m * 60_000 + sec * 1000 + rest by {
      Split(ms, 3_600_000, 60_000, 60);
      Split(ms, 60_000, 1000, 60);
    }
    ClockReadsBack(h, m, sec, rest);
  }

  lemma ClockReadsBack(h: nat, m: nat, sec: nat, rest: nat)
    ensures ReadTimeOfDay("TOD#" + (Padded(h, 2) + (":" + (Padded(m, 2) + (":" + (Padded(sec, 2)
              + (if rest > 0 then "." + Padded(rest, 3) else "")))))))
            == Some(h * 3_600_000 + m * 60_000 + sec * 1000 + rest)
  {
    hide Padded, ReadNumber, ReadChar;
    var t4 := if rest > 0 then "." + Padded(rest, 3) else "";
    var t3 := Padded(sec, 2) + t4;
    var t2 := Padded(m, 2) + (":" + t3);
    var t1 := Padded(h, 2) + (":" + t2);
    assert ("TOD#" + t1)[4..] == t1;
    PaddedReadsBack(h, 2, ":" + t2);
    CharReadsBack(':', t2);
    PaddedReadsBack(m, 2, ":" + t3);
    CharReadsBack(':', t3);
    PaddedReadsBack(sec, 2, t4);
    if rest > 0 {
      CharReadsBack('.', Padded(rest, 3));
      PaddedReadsBack(rest, 3, "");
      assert Padded(rest, 3) + "" == Padded(rest, 3);
    }
  }
}
