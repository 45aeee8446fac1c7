/** Subscription reconciliation of `Notifier` (crates/tc-otel-client/src/notify.rs). */
module Notifier {
  import opened Bytes

  type Symbol = string
  type Handle = u32

  datatype Mode = OnChange | Cyclic

  datatype NotificationConfig = NotificationConfig(minPeriodMs: u32, maxPeriodMs: u32, maxDelayMs: u32, mode: Mode)

  datatype MetricDef = MetricDef(symbol: Symbol, metricName: string, notification: Option<NotificationConfig>)

  datatype SymbolMeta = SymbolMeta(size: u32, typeName: string, indexGroup: u32, indexOffset: u32)

  datatype Attrs = Attrs(length: u32, mode: Mode, maxDelayMs: u32, cycleTimeMs: u32)

  /** `NotifAttrs::from_def`; `None` is the missing-config error. */
  function FromDef(def: MetricDef, size: u32): (r: Option<Attrs>)
    ensures r.Some? <==> def.notification.Some?
    ensures r.Some? ==> var c := def.notification.value;
                        && r.value.length == size && r.value.mode == c.mode && r.value.maxDelayMs == c.maxDelayMs
                        && r.value.cycleTimeMs >= 10 && r.value.cycleTimeMs >= c.minPeriodMs
                        && r.value.cycleTimeMs in {10, c.minPeriodMs}
  {
    var cfg :- def.notification;
    Some(Attrs(size, cfg.mode, cfg.maxDelayMs, if cfg.minPeriodMs < 10 then 10 else cfg.minPeriodMs))
  }

  datatype Subscription = Subscription(def: MetricDef, meta: SymbolMeta, attrs: Attrs)

  const HANDLES: nat := 0x1_0000_0000

  lemma {:induction false} FullRange(xs: set<Handle>, n: nat)
    requires n <= HANDLES && forall h: Handle | h < n :: h in xs
    ensures |xs| >= n
  {
    if n > 0 {
      FullRange(xs - {n - 1}, n - 1);
    }
  }

  lemma RoomMeansFresh(xs: set<Handle>)
    requires |xs| < HANDLES
    ensures exists h: Handle :: h !in xs
  {
    if forall h: Handle :: h in xs {
      FullRange(xs, HANDLES);
    }
  }

  /** What the backend was asked to watch under a handle. */
  datatype Service = Service(attrs: Attrs, meta: SymbolMeta)

  /** Every subscription is served under its handle, with its own attributes and address. */
  predicate Serves(served: map<Handle, Service>, subs: map<Handle, Subscription>) {
    forall h | h in subs :: h in served && served[h] == Service(subs[h].attrs, subs[h].meta)
  }

  /** All of `a` is in `b`. */
  predicate Within(a: map<Handle, Service>, b: map<Handle, Service>) {
    forall h | h in a :: h in b && b[h] == a[h]
  }

  /** The PLC side. What it answers is up to it: any call may fail, and a failed call may or may not have
      taken effect; a successful subscribe returns a handle that was not in use and serves what it was asked. */
  class Backend {
    var served: map<Handle, Service>
    var subscribes: nat
    var unsubscribes: nat
    const reliable: bool

    function Active(): set<Handle>
      reads this
    {
      served.Keys
    }

    constructor (reliable: bool)
      ensures this.reliable == reliable && served == map[] && subscribes == 0 && unsubscribes == 0
    {
      this.reliable := reliable;
      served := map[];
      subscribes := 0;
      unsubscribes := 0;
    }

    method Subscribe(attrs: Attrs, meta: SymbolMeta) returns (r: Option<Handle>)
      modifies this
      ensures subscribes == old(subscribes) + 1 && unsubscribes == old(unsubscribes)
      ensures r.Some? ==> r.value !in old(served) && served == old(served)[r.value := Service(attrs, meta)]
      ensures r.None? ==> Within(old(served), served)
      ensures reliable && |old(served.Keys)| < HANDLES ==> r.Some?
    {
      subscribes := subscribes + 1;
      if |served.Keys| < HANDLES {
        RoomMeansFresh(served.Keys);
        var h: Handle :| h !in served.Keys;
        var answered: bool := *;
        if reliable || answered {
          served := served[h := Service(attrs, meta)];
          return Some(h);
        } else if * {
          served := served[h := Service(attrs, meta)];
        }
      }
      return None;
    }

    method Unsubscribe(h: Handle) returns (ok: bool)
      modifies this
      ensures unsubscribes == old(unsubscribes) + 1 && subscribes == old(subscribes)
      ensures ok ==> served == old(served) - {h}
      ensures served == old(served) || served == old(served) - {h}
      ensures reliable ==> ok
    {
      unsubscribes := unsubscribes + 1;
      var answered: bool := *;
      if reliable || answered {
        served := served - {h};
        return true;
      } else if * {
        served := served - {h};
      }
      return false;
    }
  }

  datatype Error = NoConfig | BackendError

  datatype Outcome = Done | Failed(error: Error)

  datatype Report = Report(added: seq<Symbol>, removed: seq<Symbol>, changed: seq<Symbol>)

  datatype Reconciled = Ok(report: Report) | Err(error: Error)

  /** What a subscription should be: the definition and the attributes computed from it. */
  type Wish = Subscription

  /** The desired list as a map, with the last duplicate winning; `None` if any entry has no config. */
  function Wishes(desired: seq<(MetricDef, SymbolMeta)>): (r: Option<map<Symbol, Wish>>)
    ensures r.Some? ==> forall s | s in r.value :: WellFormed(s, r.value[s])
    ensures r.Some? <==> forall d | d in desired :: d.0.notification.Some?
  {
    if desired == [] then Some(map[])
    else
      var before := Wishes(desired[..|desired| - 1]);
      var (def, meta) := desired[|desired| - 1];
      var attrs := FromDef(def, meta.size);
      assert desired == desired[..|desired| - 1] + [desired[|desired| - 1]];
      if before.Some? && attrs.Some? then Some(before.value[def.symbol := Subscription(def, meta, attrs.value)])
      else None
  }

  predicate WellFormed(s: Symbol, w: Wish) {
    w.def.symbol == s && FromDef(w.def, w.meta.size) == Some(w.attrs)
  }

  /** The last entry for a symbol is the one that counts. */
  lemma {:induction false} LastWishWins(desired: seq<(MetricDef, SymbolMeta)>, i: nat)
    requires Wishes(desired).Some? && i < |desired|
    requires forall j | i < j < |desired| :: desired[j].0.symbol != desired[i].0.symbol
    ensures var w := Wishes(desired).value; var (def, meta) := desired[i];
            def.symbol in w && w[def.symbol].def == def && w[def.symbol].meta == meta
  {
    if i < |desired| - 1 {
      LastWishWins(desired[..|desired| - 1], i);
    }
  }

  /** Nothing is wished for that the list does not ask for. */
  lemma {:induction false} WishesAreAskedFor(desired: seq<(MetricDef, SymbolMeta)>, s: Symbol)
    requires Wishes(desired).Some? && s in Wishes(desired).value
    ensures exists i | 0 <= i < |desired| :: desired[i].0.symbol == s
  {
    var n := |desired|;
    if desired[n - 1].0.symbol != s {
      WishesAreAskedFor(desired[..n - 1], s);
      var i :| 0 <= i < n - 1 && desired[..n - 1][i].0.symbol == s;
      assert desired[i].0.symbol == s;
    }
  }

  function AttrsOf(w: map<Symbol, Wish>): map<Symbol, Attrs> {
    map s | s in w :: w[s].attrs
  }

  function Removed(current: map<Symbol, Subscription>, want: map<Symbol, Subscription>): set<Symbol> {
    current.Keys - want.Keys
  }

  function Added(current: map<Symbol, Subscription>, want: map<Symbol, Subscription>): set<Symbol> {
    want.Keys - current.Keys
  }

  function Changed(current: map<Symbol, Subscription>, want: map<Symbol, Subscription>): set<Symbol> {
    set s | s in current && s in want && current[s].attrs != want[s].attrs
  }

  /** What reconciling leaves alone. */
  function Kept(current: map<Symbol, Subscription>, want: map<Symbol, Subscription>): map<Symbol, Subscription> {
    map s | s in current && s in want && current[s].attrs == want[s].attrs :: current[s]
  }

  /** What reconciling arrives at: a subscription whose attributes are right stays as it is, definition and address
      included; all others are the wanted ones. */
  function Target(current: map<Symbol, Subscription>, want: map<Symbol, Wish>): map<Symbol, Subscription> {
    map s | s in want :: if s in Kept(current, want) then current[s] else want[s]
  }

  /** So the attributes are the wanted ones, and the subscriptions are the wanted ones in full exactly when those
      that stay already were. */
  lemma TargetIsWishIff(current: map<Symbol, Subscription>, want: map<Symbol, Wish>)
    ensures AttrsOf(Target(current, want)) == AttrsOf(want)
    ensures Target(current, want) == want <==> forall s | s in Kept(current, want) :: current[s] == want[s]
  {
    var target := Target(current, want);
    forall s | s in want ensures target[s].attrs == want[s].attrs {
    }
    if target == want {
      forall s | s in Kept(current, want) ensures current[s] == want[s] {
        assert target[s] == current[s];
      }
    }
  }

  /** The table between the two passes, with the symbols of `todo` not yet looked at. */
  function Midway(current: map<Symbol, Subscription>, want: map<Symbol, Subscription>, todo: set<Symbol>)
    : map<Symbol, Subscription>
  {
    map s | s in current && (s in todo || s in Kept(current, want)) :: current[s]
  }

  /** `list` names each member of `names` once. */
  predicate Lists(list: seq<Symbol>, names: set<Symbol>) {
    && |list| == |names|
    && (forall s | s in names :: s in list)
    && (forall s | s in list :: s in names)
  }

  lemma ListsAppend(list: seq<Symbol>, names: set<Symbol>, s: Symbol)
    requires Lists(list, names) && s !in names
    ensures Lists(list + [s], names + {s})
  {
  }

  /** The two tables of the notifier. */
  datatype Tables = Tables(subs: map<Handle, Subscription>, bySymbol: map<Symbol, Handle>)

  predicate Points(t: Tables, s: Symbol)
    requires s in t.bySymbol
  {
    t.bySymbol[s] in t.subs && t.subs[t.bySymbol[s]].def.symbol == s
  }

  predicate Indexed(t: Tables, h: Handle)
    requires h in t.subs
  {
    var sub := t.subs[h];
    sub.def.symbol in t.bySymbol && t.bySymbol[sub.def.symbol] == h && WellFormed(sub.def.symbol, sub)
  }

  /** The tables are inverse to each other and hold the attributes their definitions call for. */
  predicate Inverse(t: Tables) {
    && (forall s | s in t.bySymbol :: Points(t, s))
    && (forall h | h in t.subs :: Indexed(t, h))
  }

  /** Every subscription by its symbol. */
  function View(t: Tables): map<Symbol, Subscription>
    requires Inverse(t)
  {
    map s | s in t.bySymbol :: assert Points(t, s); t.subs[t.bySymbol[s]]
  }

  function Insert(t: Tables, h: Handle, sub: Subscription): Tables {
    Tables(t.subs[h := sub], t.bySymbol[sub.def.symbol := h])
  }

  function Remove(t: Tables, h: Handle): Tables {
    if h in t.subs then Tables(t.subs - {h}, t.bySymbol - {t.subs[h].def.symbol}) else t
  }

  /** A fresh handle keeps the tables inverse exactly when the symbol had no subscription. */
  lemma InsertKeepsInverseIff(t: Tables, h: Handle, sub: Subscription)
    requires Inverse(t) && h !in t.subs && WellFormed(sub.def.symbol, sub)
    ensures Inverse(Insert(t, h, sub)) <==> sub.def.symbol !in t.bySymbol
    ensures sub.def.symbol !in t.bySymbol ==> View(Insert(t, h, sub)) == View(t)[sub.def.symbol := sub]
  {
    hide FromDef;
    var s, u := sub.def.symbol, Insert(t, h, sub);
    if s in t.bySymbol {
      var old_ := t.bySymbol[s];
      assert Points(t, s);
      assert old_ in u.subs && !Indexed(u, old_);
    } else {
      forall x | x in u.bySymbol ensures Points(u, x) {
        if x != s {
          assert Points(t, x);
        }
      }
      forall k | k in u.subs ensures Indexed(u, k) {
        if k != h {
          assert Indexed(t, k);
        }
      }
    }
  }

  lemma RemoveKeepsInverse(t: Tables, h: Handle)
    requires Inverse(t)
    ensures Inverse(Remove(t, h))
    ensures View(Remove(t, h)) == if h in t.subs then View(t) - {t.subs[h].def.symbol} else View(t)
  {
    if h in t.subs {
      hide FromDef;
      var s, u := t.subs[h].def.symbol, Remove(t, h);
      assert Indexed(t, h);
      forall x | x in u.bySymbol ensures Points(u, x) {
        assert Points(t, x);
      }
      forall k | k in u.subs ensures Indexed(u, k) {
        assert Indexed(t, k);
      }
    }
  }

  /** The report names exactly the differences. */
  ghost predicate Reports(report: Report, cur: map<Symbol, Subscription>, want: map<Symbol, Subscription>) {
    && Lists(report.added, Added(cur, want))
    && Lists(report.removed, Removed(cur, want))
    && Lists(report.changed, Changed(cur, want))
  }

  /** Even half way, every subscription is the old one or the wanted one, and none that was right is lost. */
  predicate Settled(cur: map<Symbol, Subscription>, want: map<Symbol, Subscription>, now: map<Symbol, Subscription>) {
    && (forall s | s in now :: (s in cur && cur[s] == now[s]) || (s in want && want[s] == now[s]))
    && (forall s | s in Kept(cur, want) :: s in now)
  }

  lemma SettledAtOnce(cur: map<Symbol, Subscription>, want: map<Symbol, Subscription>)
    ensures Settled(cur, want, cur)
    ensures AttrsOf(cur) == AttrsOf(want) ==> Removed(cur, want) + Changed(cur, want) == {}
  {
    if AttrsOf(cur) == AttrsOf(want) {
      assert AttrsOf(cur).Keys == cur.Keys && AttrsOf(want).Keys == want.Keys;
      forall s | s in cur ensures cur[s].attrs == want[s].attrs {
        assert AttrsOf(cur)[s] == AttrsOf(want)[s];
      }
    }
  }

  lemma BetweenSettles(cur: map<Symbol, Subscription>, want: map<Symbol, Subscription>,
                       low: map<Symbol, Subscription>, now: map<Symbol, Subscription>, high: map<Symbol, Subscription>)
    requires Between(low, now, high) && low == Kept(cur, want) && (high == cur || high == Target(cur, want))
    ensures Settled(cur, want, now)
  {
  }

  lemma SubsetSize<T>(a: set<T>, b: set<T>)
    requires a <= b
    ensures |a| <= |b|
  {
    assert b == a + (b - a);
  }

  /** What the first pass leaves is what the second pass needs. */
  lemma PlanMeets(cur: map<Symbol, Subscription>, want: map<Symbol, Wish>,
                  left: map<Symbol, Wish>, removed: seq<Symbol>, changed: set<Symbol>)
    requires Sorted(cur, want, {}, left, removed, changed) && forall s | s in want :: WellFormed(s, want[s])
    ensures && Fresh(left, Kept(cur, want))
            && Kept(cur, want) + left == Target(cur, want)
            && Lists(removed, Removed(cur, want)) && changed == Changed(cur, want)
            && left.Keys - changed == Added(cur, want) && left.Keys * changed == changed
            && |left| <= |want|
            && (AttrsOf(cur) == AttrsOf(want) ==> left == map[])
  {
    hide Kept, Removed, Changed, Added, AttrsOf, Lists, WellFormed, Target;
    assert Kept(cur, want).Keys - {} == Kept(cur, want).Keys && Removed(cur, want) - {} == Removed(cur, want);
    assert Changed(cur, want) - {} == Changed(cur, want);
    KeptAndLeft(cur, want);
    KeptIfSame(cur, want);
    SubsetSize(left.Keys, want.Keys);
    SizeOfKeys(left);
    SizeOfKeys(want);
  }

  lemma KeptAndLeft(cur: map<Symbol, Subscription>, want: map<Symbol, Wish>)
    ensures var left := want - Kept(cur, want).Keys;
            && Kept(cur, want) + left == Target(cur, want)
            && left.Keys - Changed(cur, want) == Added(cur, want)
            && left.Keys * Changed(cur, want) == Changed(cur, want)
  {
    var kept := Kept(cur, want);
    var left := want - kept.Keys;
    assert forall s | s in want :: s in kept || s in left;
    assert (kept + left).Keys == want.Keys;
  }

  lemma KeptIfSame(cur: map<Symbol, Subscription>, want: map<Symbol, Wish>)
    ensures AttrsOf(cur) == AttrsOf(want) ==> want - Kept(cur, want).Keys == map[]
  {
    if AttrsOf(cur) == AttrsOf(want) {
      assert AttrsOf(cur).Keys == cur.Keys && AttrsOf(want).Keys == want.Keys;
      forall s | s in want ensures s in Kept(cur, want) {
        assert AttrsOf(cur)[s] == AttrsOf(want)[s];
      }
    }
  }

  lemma TalliedEnds(left: map<Symbol, Wish>, changed: set<Symbol>, added: seq<Symbol>, again: seq<Symbol>)
    requires Tallied(left, map[], changed, added, again)
    ensures Lists(added, left.Keys - changed) && Lists(again, left.Keys * changed)
    ensures |left| == |added| + |again|
  {
    var none: map<Symbol, Wish> := map[];
    assert left.Keys - changed - none.Keys == left.Keys - changed;
    assert left.Keys * changed - none.Keys == left.Keys * changed;
    assert left.Keys == (left.Keys - changed) + (left.Keys * changed);
    SizeOfKeys(left);
  }

  lemma NothingToReport(report: Report, cur: map<Symbol, Subscription>, want: map<Symbol, Subscription>)
    requires Reports(report, cur, want) && AttrsOf(cur) == AttrsOf(want)
    ensures report == Report([], [], [])
  {
    SettledAtOnce(cur, want);
    assert AttrsOf(cur).Keys == cur.Keys && AttrsOf(want).Keys == want.Keys;
    assert Added(cur, want) == {} && Removed(cur, want) == {} && Changed(cur, want) == {};
  }

  predicate Part(todo: map<Symbol, Wish>, left: map<Symbol, Wish>) {
    forall s | s in todo :: s in left && todo[s] == left[s]
  }

  predicate Fresh(left: map<Symbol, Wish>, base: map<Symbol, Subscription>) {
    forall s | s in left :: WellFormed(s, left[s]) && s !in base
  }

  /** What the second pass has reported when only `todo` is left to subscribe. */
  predicate Tallied(left: map<Symbol, Wish>, todo: map<Symbol, Wish>, changed: set<Symbol>,
                    added: seq<Symbol>, again: seq<Symbol>)
  {
    && Lists(added, left.Keys - changed - todo.Keys)
    && Lists(again, left.Keys * changed - todo.Keys)
  }

  lemma TalliedStarts(left: map<Symbol, Wish>, changed: set<Symbol>)
    ensures Part(left, left) && Tallied(left, left, changed, [], [])
  {
    assert left.Keys - changed - left.Keys == {};
    assert left.Keys * changed - left.Keys == {};
  }

  lemma TalliedStep(left: map<Symbol, Wish>, todo: map<Symbol, Wish>, changed: set<Symbol>,
                    added: seq<Symbol>, again: seq<Symbol>, s: Symbol)
    requires Part(todo, left) && Tallied(left, todo, changed, added, again) && s in todo
    ensures Part(todo - {s}, left) && |todo - {s}| == |todo| - 1
    ensures Tallied(left, todo - {s}, changed,
                    if s in changed then added else added + [s], if s in changed then again + [s] else again)
  {
    hide Lists;
    assert (todo - {s}).Keys == todo.Keys - {s};
    SizeOfKeys(todo);
    SizeOfKeys(todo - {s});
    TakeOne(left.Keys - changed, todo.Keys, s);
    TakeOne(left.Keys * changed, todo.Keys, s);
    if s in changed {
      ListsAppend(again, left.Keys * changed - todo.Keys, s);
    } else {
      ListsAppend(added, left.Keys - changed - todo.Keys, s);
    }
  }

  lemma SizeOfKeys<K, V>(m: map<K, V>)
    ensures |m| == |m.Keys|
  {
  }

  lemma SubscribedNames(t: Tables)
    requires Inverse(t)
    ensures View(t).Keys == t.bySymbol.Keys
  {
  }

  /** The table with every wish of `left` outside `todo` subscribed. */
  function Partly(base: map<Symbol, Subscription>, left: map<Symbol, Wish>, todo: set<Symbol>)
    : map<Symbol, Subscription>
  {
    map s | s in base.Keys + (left.Keys - todo) :: if s in base then base[s] else left[s]
  }

  lemma PartlyBetween(base: map<Symbol, Subscription>, left: map<Symbol, Wish>, todo: set<Symbol>)
    requires Fresh(left, base)
    ensures Between(base, Partly(base, left, todo), base + left)
    ensures todo == {} ==> Partly(base, left, todo) == base + left
    ensures todo == left.Keys ==> Partly(base, left, todo) == base
  {
  }

  lemma PartlyStep(base: map<Symbol, Subscription>, left: map<Symbol, Wish>, todo: map<Symbol, Wish>, s: Symbol)
    requires Part(todo, left) && Fresh(left, base) && s in todo
    ensures WellFormed(s, todo[s]) && s !in Partly(base, left, todo.Keys)
    ensures Partly(base, left, todo.Keys - {s}) == Partly(base, left, todo.Keys)[s := todo[s]]
  {
    assert base.Keys + (left.Keys - (todo.Keys - {s})) == base.Keys + (left.Keys - todo.Keys) + {s};
  }

  /** `low` is part of `mid`, and `mid` of `high`. */
  predicate Between(low: map<Symbol, Subscription>, mid: map<Symbol, Subscription>, high: map<Symbol, Subscription>) {
    && (forall s | s in low :: s in mid && mid[s] == low[s])
    && (forall s | s in mid :: s in high && high[s] == mid[s])
  }

  /** What the first pass has found out when only `todo` is left to look at. */
  ghost predicate Sorted(cur: map<Symbol, Subscription>, want: map<Symbol, Wish>, todo: set<Symbol>,
                         left: map<Symbol, Wish>, removed: seq<Symbol>, changed: set<Symbol>)
  {
    && left == want - (Kept(cur, want).Keys - todo)
    && Lists(removed, Removed(cur, want) - todo)
    && changed == Changed(cur, want) - todo
  }

  lemma MidwayStarts(t: Tables, want: map<Symbol, Wish>)
    requires Inverse(t)
    ensures forall s | s in t.bySymbol :: t.bySymbol[s] in t.subs && t.subs[t.bySymbol[s]] == View(t)[s]
    ensures View(t) == Midway(View(t), want, t.bySymbol.Keys)
    ensures View(t).Keys == t.bySymbol.Keys
  {
    forall s | s in t.bySymbol ensures t.bySymbol[s] in t.subs {
      assert Points(t, s);
    }
  }

  lemma SortedStarts(cur: map<Symbol, Subscription>, want: map<Symbol, Wish>)
    ensures Sorted(cur, want, cur.Keys, want, [], {})
  {
    assert Kept(cur, want).Keys - cur.Keys == {};
    assert Removed(cur, want) - cur.Keys == {};
  }

  lemma MidwayBetween(cur: map<Symbol, Subscription>, want: map<Symbol, Subscription>, todo: set<Symbol>)
    ensures Between(Kept(cur, want), Midway(cur, want, todo), cur)
    ensures todo == {} ==> Midway(cur, want, todo) == Kept(cur, want)
  {
  }

  /** Looking at one symbol: dropping its handle is the step of `Midway` unless the symbol is kept. */
  lemma MidwayStep(t: Tables, cur: map<Symbol, Subscription>, want: map<Symbol, Wish>, todo: set<Symbol>, s: Symbol)
    requires Inverse(t) && View(t) == Midway(cur, want, todo) && s in todo && s in cur
    ensures s in t.bySymbol && t.bySymbol[s] in t.subs && t.subs[t.bySymbol[s]].def.symbol == s
    ensures if s in want && want[s].attrs == cur[s].attrs
            then Midway(cur, want, todo - {s}) == View(t)
            else Midway(cur, want, todo - {s}) == View(t) - {s}
    ensures forall x | x in t.bySymbol && x != s :: t.bySymbol[x] != t.bySymbol[s]
  {
    assert s in View(t);
    assert Points(t, s);
    forall x | x in t.bySymbol && x != s ensures t.bySymbol[x] != t.bySymbol[s] {
      assert Points(t, x);
    }
  }

  lemma SortedStep(cur: map<Symbol, Subscription>, want: map<Symbol, Wish>, todo: set<Symbol>,
                   left: map<Symbol, Wish>, removed: seq<Symbol>, changed: set<Symbol>, s: Symbol)
    requires Sorted(cur, want, todo, left, removed, changed) && s in todo && s in cur
    ensures s in left <==> s in want
    ensures s in want ==> left[s] == want[s]
    ensures s !in want ==> Sorted(cur, want, todo - {s}, left, removed + [s], changed)
    ensures s !in want ==> s in Removed(cur, want)
    ensures s in want && want[s].attrs != cur[s].attrs ==> Sorted(cur, want, todo - {s}, left, removed, changed + {s})
    ensures s in want && want[s].attrs != cur[s].attrs ==> s in Changed(cur, want) && s !in changed
    ensures s in want && want[s].attrs == cur[s].attrs ==> Sorted(cur, want, todo - {s}, left - {s}, removed, changed)
  {
    hide Lists, Kept, Removed, Changed, AttrsOf;
    Classify(cur, want, s);
    var kept, gone, diff := Kept(cur, want).Keys, Removed(cur, want), Changed(cur, want);
    assert left == want - (kept - todo);
    TakeOne(kept, todo, s);
    TakeOne(gone, todo, s);
    TakeOne(diff, todo, s);
    if s !in want {
      ListsAppend(removed, gone - todo, s);
    } else if want[s].attrs == cur[s].attrs {
      assert want - (kept - todo + {s}) == left - {s};
    }
  }

  lemma Classify(cur: map<Symbol, Subscription>, want: map<Symbol, Wish>, s: Symbol)
    requires s in cur
    ensures && (s in Removed(cur, want) <==> s !in want)
            && (s in Changed(cur, want) <==> s in want && want[s].attrs != cur[s].attrs)
            && (s in Kept(cur, want) <==> s in want && want[s].attrs == cur[s].attrs)
  {
  }

  lemma TakeOne(names: set<Symbol>, todo: set<Symbol>, s: Symbol)
    requires s in todo
    ensures names - (todo - {s}) == if s in names then (names - todo) + {s} else names - todo
  {
  }

  method BuildWishes(desired: seq<(MetricDef, SymbolMeta)>) returns (r: Option<map<Symbol, Wish>>)
    ensures r == Wishes(desired)
  {
    var wishes: map<Symbol, Wish> := map[];
    for i := 0 to |desired|
      invariant Wishes(desired[..i]) == Some(wishes)
    {
      var (def, meta) := desired[i];
      assert desired[..i + 1][..i] == desired[..i];
      var attrs := FromDef(def, meta.size);
      if attrs.None? {
        assert desired[i] in desired;
        return None;
      }
      wishes := wishes[def.symbol := Subscription(def, meta, attrs.value)];
    }
    assert desired[..|desired|] == desired;
    r := Some(wishes);
  }

  class Notifier {
    const backend: Backend
    var subs: map<Handle, Subscription>
    var bySymbol: map<Symbol, Handle>

    function Contents(): Tables
      reads this
    {
      Tables(subs, bySymbol)
    }

    /** The tables are inverse, and the backend watches every subscription at the address and with the attributes
        the tables have for it. */
    predicate Consistent()
      reads this, backend
    {
      Inverse(Contents()) && Serves(backend.served, subs)
    }

    function Subscribed(): map<Symbol, Subscription>
      requires Consistent()
      reads this, backend
    {
      View(Contents())
    }

    constructor (backend: Backend)
      ensures this.backend == backend && Consistent() && Subscribed() == map[]
    {
      this.backend := backend;
      subs := map[];
      bySymbol := map[];
    }

    /** On a symbol that already has a subscription the old one stays behind, and the tables part. */
    method Subscribe(def: MetricDef, meta: SymbolMeta) returns (r: Outcome, h: Handle)
      requires Consistent()
      modifies this, backend
      ensures Serves(backend.served, subs)
      ensures Consistent() <==> (r.Failed? || def.symbol !in old(bySymbol))
      ensures r == Failed(NoConfig) <==> FromDef(def, meta.size).None?
      ensures r == Failed(NoConfig) ==> unchanged(backend)
      ensures r != Failed(NoConfig) ==> backend.subscribes == old(backend.subscribes) + 1
      ensures backend.unsubscribes == old(backend.unsubscribes)
      ensures r.Failed? ==> Contents() == old(Contents()) && Within(old(backend.served), backend.served)
      ensures r.Done? ==> h !in old(backend.Active())
      ensures r.Done? ==>
                backend.served == old(backend.served)[h := Service(FromDef(def, meta.size).value, meta)]
      ensures r.Done? && old(backend.Active() == subs.Keys) ==> backend.Active() == subs.Keys
      ensures r.Done? ==>
                Contents() == Insert(old(Contents()), h, Subscription(def, meta, FromDef(def, meta.size).value))
      ensures r.Done? && def.symbol !in old(bySymbol) ==>
                Subscribed() == old(Subscribed())[def.symbol := Subscription(def, meta, FromDef(def, meta.size).value)]
      ensures backend.reliable && |old(backend.Active())| < HANDLES && FromDef(def, meta.size).Some? ==> r.Done?
    {
      h := 0;
      var attrs := FromDef(def, meta.size);
      if attrs.None? {
        return Failed(NoConfig), h;
      }
      var got := backend.Subscribe(attrs.value, meta);
      if got.None? {
        return Failed(BackendError), h;
      }
      h := got.value;
      InsertKeepsInverseIff(Contents(), h, Subscription(def, meta, attrs.value));
      subs := subs[h := Subscription(def, meta, attrs.value)];
      bySymbol := bySymbol[def.symbol := h];
      r := Done;
    }

    /** The local tables forget the handle whether or not the backend call works. */
    method Unsubscribe(h: Handle) returns (r: Outcome)
      requires Consistent()
      modifies this, backend
      ensures Consistent() && Contents() == Remove(old(Contents()), h)
      ensures Subscribed() ==
                if h in old(subs) then old(Subscribed()) - {old(subs)[h].def.symbol} else old(Subscribed())
      ensures backend.unsubscribes == old(backend.unsubscribes) + 1 && backend.subscribes == old(backend.subscribes)
      ensures backend.served == old(backend.served) || backend.served == old(backend.served) - {h}
      ensures forall s | s in old(bySymbol) && old(bySymbol)[s] != h :: s in bySymbol && bySymbol[s] == old(bySymbol)[s]
      ensures r.Done? ==> backend.served == old(backend.served) - {h}
      ensures r.Done? && old(backend.Active() == subs.Keys) ==> backend.Active() == subs.Keys
      ensures r.Done? || r == Failed(BackendError)
      ensures backend.reliable ==> r.Done?
    {
      RemoveKeepsInverse(Contents(), h);
      assert h in subs ==> Indexed(Contents(), h);
      if h in subs {
        var sub := subs[h];
        subs := subs - {h};
        bySymbol := bySymbol - {sub.def.symbol};
      }
      var ok := backend.Unsubscribe(h);
      r := if ok then Done else Failed(BackendError);
    }

    /** The state of the first pass when the symbols of `todo` are still to be looked at. */
    ghost predicate Passing(cur: map<Symbol, Subscription>, want: map<Symbol, Wish>, todo: map<Symbol, (Handle, Attrs)>,
                            left: map<Symbol, Wish>, removed: seq<Symbol>, changed: set<Symbol>)
      reads this, backend
    {
      && Consistent()
      && Subscribed() == Midway(cur, want, todo.Keys)
      && (forall s | s in todo :: s in cur && todo[s].1 == cur[s].attrs)
      && (forall s | s in todo :: s in bySymbol && todo[s].0 == bySymbol[s])
      && Sorted(cur, want, todo.Keys, left, removed, changed)
    }

    method Snapshot(ghost want: map<Symbol, Wish>) returns (todo: map<Symbol, (Handle, Attrs)>)
      requires Consistent()
      ensures Passing(Subscribed(), want, todo, want, [], {})
    {
      hide View, Inverse, Midway, Sorted, Kept, Removed, Changed, AttrsOf, Between;
      MidwayStarts(Contents(), want);
      todo := map s | s in bySymbol && bySymbol[s] in subs :: (bySymbol[s], subs[bySymbol[s]].attrs);
      assert todo.Keys == bySymbol.Keys;
      SortedStarts(Subscribed(), want);
    }

    lemma PassingEnds(cur: map<Symbol, Subscription>, want: map<Symbol, Wish>, todo: map<Symbol, (Handle, Attrs)>,
                      left: map<Symbol, Wish>, removed: seq<Symbol>, changed: set<Symbol>)
      requires Passing(cur, want, todo, left, removed, changed) && todo.Keys == {}
      ensures Consistent() && Subscribed() == Kept(cur, want)
      ensures Between(Kept(cur, want), Subscribed(), cur)
      ensures Sorted(cur, want, {}, left, removed, changed)
    {
      hide View, Inverse, Midway, Sorted, Kept, AttrsOf, Between;
      MidwayBetween(cur, want, {});
    }

    /** One turn of the first pass. */
    method Examine(s: Symbol, todo: map<Symbol, (Handle, Attrs)>,
                   left0: map<Symbol, Wish>, removed0: seq<Symbol>, changed0: set<Symbol>,
                   ghost cur: map<Symbol, Subscription>, ghost want: map<Symbol, Wish>)
      returns (r: Outcome, left: map<Symbol, Wish>, removed: seq<Symbol>, changed: set<Symbol>)
      requires Passing(cur, want, todo, left0, removed0, changed0) && s in todo
      modifies this, backend
      ensures Consistent() && Between(Kept(cur, want), Subscribed(), cur)
      ensures backend.subscribes == old(backend.subscribes) && backend.Active() <= old(backend.Active())
      ensures r.Done? ==> Passing(cur, want, todo - {s}, left, removed, changed)
      ensures r.Done? ==>
                backend.unsubscribes - |removed| - |changed| == old(backend.unsubscribes) - |removed0| - |changed0|
      ensures r.Done? && old(backend.Active() == subs.Keys) ==> backend.Active() == subs.Keys
      ensures r.Failed? ==> r.error == BackendError && backend.unsubscribes == old(backend.unsubscribes) + 1
      ensures r.Failed? ==> Removed(cur, want) + Changed(cur, want) != {}
      ensures backend.reliable ==> r.Done?
    {
      hide View, Inverse, Midway, Sorted, Kept, Removed, Changed, AttrsOf, Between, Remove;
      MidwayStep(Contents(), cur, want, todo.Keys, s);
      SortedStep(cur, want, todo.Keys, left0, removed0, changed0, s);
      MidwayBetween(cur, want, todo.Keys - {s});
      assert (todo - {s}).Keys == todo.Keys - {s};
      r, left, removed, changed := Done, left0, removed0, changed0;
      if s !in left {
        r := Unsubscribe(todo[s].0);
        removed := removed + [s];
      } else if left[s].attrs != todo[s].1 {
        r := Unsubscribe(todo[s].0);
        changed := changed + {s};
      } else {
        left := left - {s};
      }
    }

    /** First pass: drop what is no longer wanted or has changed. */
    method RemovePass(want: map<Symbol, Wish>)
      returns (r: Outcome, left: map<Symbol, Wish>, removed: seq<Symbol>, changed: set<Symbol>)
      requires Consistent()
      modifies this, backend
      ensures Consistent() && backend.subscribes == old(backend.subscribes)
      ensures backend.Active() <= old(backend.Active())
      ensures Between(Kept(old(Subscribed()), want), Subscribed(), old(Subscribed()))
      ensures r.Done? ==> Subscribed() == Kept(old(Subscribed()), want)
      ensures r.Done? ==> Sorted(old(Subscribed()), want, {}, left, removed, changed)
      ensures r.Done? ==> backend.unsubscribes == old(backend.unsubscribes) + |removed| + |changed|
      ensures r.Done? && old(backend.Active() == subs.Keys) ==> backend.Active() == subs.Keys
      ensures r.Failed? ==> r.error == BackendError && backend.unsubscribes > old(backend.unsubscribes)
      ensures r.Failed? ==> Removed(old(Subscribed()), want) + Changed(old(Subscribed()), want) != {}
      ensures backend.reliable ==> r.Done?
    {
      hide *;
      ghost var cur := Subscribed();
      left, removed, changed := want, [], {};
      var todo := Snapshot(want);
      while todo.Keys != {}
        invariant Passing(cur, want, todo, left, removed, changed)
        invariant backend.subscribes == old(backend.subscribes) && backend.Active() <= old(backend.Active())
        invariant backend.unsubscribes == old(backend.unsubscribes) + |removed| + |changed|
        invariant old(backend.Active() == subs.Keys) ==> backend.Active() == subs.Keys
        decreases |todo.Keys|
      {
        var s :| s in todo;
        r, left, removed, changed := Examine(s, todo, left, removed, changed, cur, want);
        if r.Failed? {
          return;
        }
        assert (todo - {s}).Keys == todo.Keys - {s};
        todo := todo - {s};
      }
      PassingEnds(cur, want, todo, left, removed, changed);
      r := Done;
    }

    /** The state of the second pass when `todo` is still to be subscribed. */
    ghost predicate Adding(base: map<Symbol, Subscription>, left: map<Symbol, Wish>, todo: map<Symbol, Wish>)
      reads this, backend
    {
      Consistent() && Subscribed() == Partly(base, left, todo.Keys)
    }

    /** One turn of the second pass. */
    method AddOne(s: Symbol, wish: Wish, ghost todo: map<Symbol, Wish>,
                  ghost base: map<Symbol, Subscription>, ghost left: map<Symbol, Wish>)
      returns (r: Outcome)
      requires Adding(base, left, todo) && Part(todo, left) && Fresh(left, base)
      requires s in todo && todo[s] == wish
      modifies this, backend
      ensures Consistent() && Between(base, Subscribed(), base + left)
      ensures backend.unsubscribes == old(backend.unsubscribes)
      ensures backend.subscribes == old(backend.subscribes) + 1
      ensures r.Done? ==> Adding(base, left, todo - {s})
      ensures r.Done? ==> |backend.Active()| == |old(backend.Active())| + 1
      ensures r.Done? && old(backend.Active() == subs.Keys) ==> backend.Active() == subs.Keys
      ensures r.Failed? ==> r.error == BackendError
      ensures backend.reliable && |old(backend.Active())| < HANDLES ==> r.Done?
    {
      hide View, Inverse, Partly, AttrsOf, Between, Insert, Part, Fresh;
      PartlyStep(base, left, todo, s);
      PartlyBetween(base, left, todo.Keys);
      PartlyBetween(base, left, todo.Keys - {s});
      SubscribedNames(Contents());
      assert (todo - {s}).Keys == todo.Keys - {s};
      assert wish.def.symbol == s && s !in bySymbol;
      var h;
      r, h := Subscribe(wish.def, wish.meta);
    }

    /** Second pass: subscribe what is left of the wishes. */
    method AddPass(left: map<Symbol, Wish>, changed: set<Symbol>)
      returns (r: Outcome, added: seq<Symbol>, again: seq<Symbol>)
      requires Consistent() && Fresh(left, Subscribed())
      modifies this, backend
      ensures Consistent() && Between(old(Subscribed()), Subscribed(), old(Subscribed()) + left)
      ensures backend.unsubscribes == old(backend.unsubscribes)
      ensures r.Done? ==> Subscribed() == old(Subscribed()) + left
      ensures r.Done? ==> Tallied(left, map[], changed, added, again)
      ensures r.Done? ==> backend.subscribes == old(backend.subscribes) + |left|
      ensures r.Done? && old(backend.Active() == subs.Keys) ==> backend.Active() == subs.Keys
      ensures r.Failed? ==> r.error == BackendError && backend.subscribes > old(backend.subscribes) && left != map[]
      ensures backend.reliable && |old(backend.Active())| + |left| <= HANDLES ==> r.Done?
    {
      hide View, Inverse, Partly, AttrsOf, Between, Lists, Tallied, Part, Fresh;
      ghost var base := Subscribed();
      added, again := [], [];
      var todo := left;
      PartlyBetween(base, left, todo.Keys);
      TalliedStarts(left, changed);
      while todo != map[]
        invariant Adding(base, left, todo) && Part(todo, left) && Tallied(left, todo, changed, added, again)
        invariant backend.unsubscribes == old(backend.unsubscribes)
        invariant backend.subscribes == old(backend.subscribes) + |left| - |todo|
        invariant |backend.Active()| == |old(backend.Active())| + |left| - |todo|
        invariant old(backend.Active() == subs.Keys) ==> backend.Active() == subs.Keys
        decreases |todo|
      {
        var s :| s in todo;
        TalliedStep(left, todo, changed, added, again, s);
        r := AddOne(s, todo[s], todo, base, left);
        if r.Failed? {
          return;
        }
        if s in changed {
          again := again + [s];
        } else {
          added := added + [s];
        }
        todo := todo - {s};
      }
      PartlyBetween(base, left, {});
      r := Done;
    }

    /** Brings the subscriptions in line with `desired`. */
    method Reconcile(desired: seq<(MetricDef, SymbolMeta)>) returns (r: Reconciled)
      requires Consistent()
      modifies this, backend
      ensures Consistent()
      ensures r == Err(NoConfig) <==> Wishes(desired).None?
      ensures r == Err(NoConfig) ==> Contents() == old(Contents()) && unchanged(backend)
      ensures Wishes(desired).Some? ==>
                Settled(old(Subscribed()), Wishes(desired).value, Subscribed())
      ensures r.Ok? ==> Subscribed() == Target(old(Subscribed()), Wishes(desired).value)
      ensures r.Ok? ==> AttrsOf(Subscribed()) == AttrsOf(Wishes(desired).value)
      ensures r.Ok? ==> Reports(r.report, old(Subscribed()), Wishes(desired).value)
      ensures r.Ok? ==> backend.subscribes == old(backend.subscribes) + |r.report.added| + |r.report.changed|
      ensures r.Ok? ==> backend.unsubscribes == old(backend.unsubscribes) + |r.report.removed| + |r.report.changed|
      ensures r.Ok? && old(backend.Active() == subs.Keys) ==> backend.Active() == subs.Keys
      ensures Wishes(desired).Some? && AttrsOf(old(Subscribed())) == AttrsOf(Wishes(desired).value) ==> r.Ok?
      ensures backend.reliable && Wishes(desired).Some? ==>
                (|old(backend.Active())| + |Wishes(desired).value| <= HANDLES ==> r.Ok?)
    {
      hide View, Inverse, Sorted, Kept, Removed, Added, Changed, AttrsOf, Between, Lists, Tallied, Fresh;
      hide Settled, Target;
      ghost var cur := Subscribed();
      var wishes := BuildWishes(desired);
      if wishes.None? {
        return Err(NoConfig);
      }
      var want := wishes.value;
      SettledAtOnce(cur, want);
      var o, left, removed, changed := RemovePass(want);
      if o.Failed? {
        BetweenSettles(cur, want, Kept(cur, want), Subscribed(), cur);
        return Err(o.error);
      }
      PlanMeets(cur, want, left, removed, changed);
      ghost var active := |backend.Active()|;
      assert active <= |old(backend.Active())| by {
        SubsetSize(backend.Active(), old(backend.Active()));
      }
      var added, again;
      o, added, again := AddPass(left, changed);
      BetweenSettles(cur, want, Kept(cur, want), Subscribed(), Target(cur, want));
      if o.Failed? {
        return Err(o.error);
      }
      TalliedEnds(left, changed, added, again);
      TargetIsWishIff(cur, want);
      return Ok(Report(added, removed, again));
    }

    /** Whatever the first run left behind, a later successful one reaches the wishes, and after that
        another run succeeds without calling the backend at all. */
    method ReconcileTwice(first: seq<(MetricDef, SymbolMeta)>, desired: seq<(MetricDef, SymbolMeta)>)
      returns (a: Reconciled, b: Reconciled, c: Reconciled, calls: int)
      requires Consistent()
      modifies this, backend
      ensures Consistent()
      ensures b.Ok? ==> Wishes(desired).Some? && AttrsOf(Subscribed()) == AttrsOf(Wishes(desired).value)
      ensures b.Ok? ==> c == Ok(Report([], [], [])) && calls == 0
    {
      hide View, Inverse, Settled, AttrsOf, Reports, Target;
      a := Reconcile(first);
      b := Reconcile(desired);
      calls := backend.subscribes + backend.unsubscribes;
      ghost var reached := Subscribed();
      c := Reconcile(desired);
      calls := backend.subscribes + backend.unsubscribes - calls;
      if b.Ok? {
        NothingToReport(c.report, reached, Wishes(desired).value);
      }
    }
  }
}
