/** Request/response pairing of `DiagnosticsObserver` (crates/tc-otel-ads/src/diagnostics_observer.rs).
    Time is in nanoseconds and read once per `feed`. */
module Observer {
  import opened Bytes
  import opened Ams
  import opened Diagnostics

  const PENDING_TTL: nat := 30_000_000_000
  const GC_INTERVAL: nat := 10_000_000_000
  const MAX_PENDING: nat := 8192

  /** (target, source, invoke id) as seen from the request. */
  datatype Key = Key(target: NetId, source: NetId, invokeId: u32)

  datatype Entry = Entry(req: PendingRequest, inserted: nat)

  datatype State = State(pending: map<Key, Entry>, lastGc: nat)

  function Sweep(s: State, now: nat): State {
    State(map k | k in s.pending && s.pending[k].inserted >= now - PENDING_TTL :: s.pending[k], now)
  }

  function MaybeSweep(s: State, now: nat): State {
    if now - s.lastGc < GC_INTERVAL then s else Sweep(s, now)
  }

  function RequestKey(h: Header): Key {
    Key(h.targetNetId, h.sourceNetId, h.invokeId)
  }

  /** The net ids swapped back to the request's perspective. */
  function ResponseKey(h: Header): Key {
    Key(h.sourceNetId, h.targetNetId, h.invokeId)
  }

  /** The request a frame leaves in the pending map, if any. */
  function Stashes(h: Header, payload: bytes): Option<PendingRequest> {
    if IsResponse(h) || DecodeWriteFromRequest(h, payload).Some? then None else DecodeRequest(h, payload)
  }

  function Insert(s: State, k: Key, e: Entry, now: nat): State {
    var s1 := if |s.pending| >= MAX_PENDING then Sweep(s, now) else s;
    s1.(pending := s1.pending[k := e])
  }

  function Feed(s0: State, h: Header, payload: bytes, now: nat): (State, Option<Event>) {
    var s := MaybeSweep(s0, now);
    if !IsResponse(h) then
      if DecodeWriteFromRequest(h, payload).Some? then (s, DecodeWriteFromRequest(h, payload))
      else
        var r := DecodeRequest(h, payload);
        if r.Some? then (Insert(s, RequestKey(h), Entry(r.value, now), now), None) else (s, None)
    else
      var k := ResponseKey(h);
      if k !in s.pending then (s, None)
      else (s.(pending := s.pending - {k}), DecodeResponse(h, payload, s.pending[k].req))
  }

  class DiagnosticsObserver {
    var pending: map<Key, Entry>
    var lastGc: nat

    function Snapshot(): State
      reads this
    {
      State(pending, lastGc)
    }

    constructor (now: nat)
      ensures Snapshot() == State(map[], now)
    {
      pending := map[];
      lastGc := now;
    }

    method GcNow(now: nat)
      modifies this
      ensures Snapshot() == Sweep(old(Snapshot()), now)
    {
      var cutoff := now - PENDING_TTL;
      pending := map k | k in pending && pending[k].inserted >= cutoff :: pending[k];
      lastGc := now;
    }

    method MaybeGc(now: nat)
      modifies this
      ensures Snapshot() == MaybeSweep(old(Snapshot()), now)
    {
      if now - lastGc < GC_INTERVAL {
        return;
      }
      GcNow(now);
    }

    method FeedFrame(h: Header, payload: bytes, now: nat) returns (event: Option<Event>)
      modifies this
      ensures (Snapshot(), event) == Feed(old(Snapshot()), h, payload, now)
    {
      MaybeGc(now);
      if !IsResponse(h) {
        event := DecodeWriteFromRequest(h, payload);
        if event.Some? {
          return;
        }
        var r := DecodeRequest(h, payload);
        if r.Some? {
          if |pending| >= MAX_PENDING {
            GcNow(now);
          }
          pending := pending[RequestKey(h) := Entry(r.value, now)];
        }
        return None;
      }
      var k := ResponseKey(h);
      if k !in pending {
        return None;
      }
      var entry := pending[k];
      pending := pending - {k};
      event := DecodeResponse(h, payload, entry.req);
    }
  }

  // ---------------------------------------------------------------- requests

  /** A request yields an event only if it is a write that resets the exceed counter. */
  lemma RequestEventIff(s: State, h: Header, payload: bytes, now: nat)
    requires !IsResponse(h)
    ensures Feed(s, h, payload, now).1 ==
            if h.stateFlags == 4 && h.commandId == 3 && |payload| >= 12
               && U32(payload[0..4]) == 0xF200 && U32(payload[4..8]) == 0x100
            then Some(ExceedReset) else None
  {
    hide Insert, MaybeSweep;
  }

  /** Only reads of the exceed counter, of task statistics and of realtime usage wait for their response, each with
      what the request says. */
  lemma StashesIff(h: Header, payload: bytes)
    ensures Stashes(h, payload) ==
            if h.stateFlags == 4 && h.commandId == 2 && |payload| >= 12
               && (U32(payload[0..4]), U32(payload[4..8])) in {(0xF200, 0x100), (0xF200, 0), (1, 0xF)}
            then Some(PendingRequest(2, U32(payload[0..4]), U32(payload[4..8]), U32(payload[8..12]), h.targetPort))
            else None
  {
    hide U32;
  }

  // ---------------------------------------------------------------- runs

  datatype Input = Input(header: Header, payload: bytes, now: nat)

  /** `now` as of the last frame (or of the start). */
  function Clock(start: nat, inputs: seq<Input>): nat {
    if inputs == [] then start else inputs[|inputs| - 1].now
  }

  /** The clock does not go back. */
  predicate Timely(start: nat, inputs: seq<Input>)
    decreases |inputs|
  {
    inputs == [] ||
    var before := inputs[..|inputs| - 1];
    Timely(start, before) && Clock(start, before) <= inputs[|inputs| - 1].now
  }

  function RunFrom(s: State, inputs: seq<Input>): State
    decreases |inputs|
  {
    if inputs == [] then s
    else
      var last := inputs[|inputs| - 1];
      Feed(RunFrom(s, inputs[..|inputs| - 1]), last.header, last.payload, last.now).0
  }

  function Run(start: nat, inputs: seq<Input>): State {
    RunFrom(State(map[], start), inputs)
  }

  /** What `feed` returns for the i-th frame of a run. */
  function EventAt(s: State, inputs: seq<Input>, i: nat): Option<Event>
    requires i < |inputs|
  {
    Feed(RunFrom(s, inputs[..i]), inputs[i].header, inputs[i].payload, inputs[i].now).1
  }

  /** How one frame changes what is outstanding under a key. */
  function After(o: Option<Entry>, h: Header, payload: bytes, now: nat, k: Key): Option<Entry> {
    if IsResponse(h) then
      if Key(h.sourceNetId, h.targetNetId, h.invokeId) == k then None else o
    else if Stashes(h, payload).Some? && Key(h.targetNetId, h.sourceNetId, h.invokeId) == k then
      Some(Entry(Stashes(h, payload).value, now))
    else o
  }

  /** What the frames fed so far say about a key, ignoring all sweeping: the latest known read that no
      later response has consumed, with the time it was fed. */
  function Outstanding(inputs: seq<Input>, k: Key): Option<Entry>
    decreases |inputs|
  {
    if inputs == [] then None
    else
      var last := inputs[|inputs| - 1];
      After(Outstanding(inputs[..|inputs| - 1], k), last.header, last.payload, last.now, k)
  }

  /** The map holds a key exactly while it is outstanding and was no older than the TTL at the last sweep. */
  predicate Agrees(s: State, k: Key, o: Option<Entry>, now: nat) {
    && s.lastGc <= now
    && (k in s.pending <==> o.Some? && o.value.inserted >= s.lastGc - PENDING_TTL)
    && (k in s.pending ==> s.pending[k] == o.value)
    && (o.Some? ==> o.value.inserted <= now)
  }

  lemma SweepAgrees(s: State, k: Key, o: Option<Entry>, before: nat, now: nat)
    requires Agrees(s, k, o, before) && before <= now
    ensures Agrees(Sweep(s, now), k, o, now)
  {
  }

  lemma MaybeSweepAgrees(s: State, k: Key, o: Option<Entry>, before: nat, now: nat)
    requires Agrees(s, k, o, before) && before <= now
    ensures var s' := MaybeSweep(s, now);
            Agrees(s', k, o, now) && now - s'.lastGc < GC_INTERVAL
  {
    SweepAgrees(s, k, o, before, now);
  }

  lemma InsertAgrees(s: State, k: Key, o: Option<Entry>, k': Key, req: PendingRequest, now: nat)
    requires Agrees(s, k, o, now)
    ensures Agrees(Insert(s, k', Entry(req, now), now), k, if k == k' then Some(Entry(req, now)) else o, now)
  {
    SweepAgrees(s, k, o, now, now);
  }

  lemma FeedAgrees(s: State, h: Header, payload: bytes, now: nat, k: Key, o: Option<Entry>, before: nat)
    requires Agrees(s, k, o, before) && before <= now
    ensures Agrees(Feed(s, h, payload, now).0, k, After(o, h, payload, now, k), now)
  {
    MaybeSweepAgrees(s, k, o, before, now);
    if Stashes(h, payload).Some? {
      InsertAgrees(MaybeSweep(s, now), k, o, RequestKey(h), Stashes(h, payload).value, now);
    }
  }

  lemma {:induction false} RunAgrees(start: nat, inputs: seq<Input>, k: Key)
    requires Timely(start, inputs)
    ensures Agrees(Run(start, inputs), k, Outstanding(inputs, k), Clock(start, inputs))
  {
    if inputs != [] {
      var before := inputs[..|inputs| - 1];
      var last := inputs[|inputs| - 1];
      RunAgrees(start, before, k);
      FeedAgrees(Run(start, before), last.header, last.payload, last.now, k,
                 Outstanding(before, k), Clock(start, before));
    }
  }

  /** The correlation window, from both sides. After any run, a response is decoded against the latest
      read of its key exactly when that read is not yet consumed and was at most 30 s old at the last
      sweep, which is less than 10 s ago. So an event needs a read fed less than 40 s ago, and a read fed
      no more than 30 s ago is always found. */
  lemma CorrelationWindow(start: nat, inputs: seq<Input>, h: Header, payload: bytes, now: nat)
    requires Timely(start, inputs) && Clock(start, inputs) <= now
    requires IsResponse(h)
    ensures var o := Outstanding(inputs, Key(h.sourceNetId, h.targetNetId, h.invokeId));
            var r := Feed(Run(start, inputs), h, payload, now).1;
            var swept := MaybeSweep(Run(start, inputs), now).lastGc;
            && now - GC_INTERVAL < swept <= now
            && r == (if o.Some? && o.value.inserted >= swept - PENDING_TTL
                     then DecodeResponse(h, payload, o.value.req) else None)
            && (r.Some? ==> o.Some? && now - o.value.inserted < PENDING_TTL + GC_INTERVAL)
            && (o.Some? && now - o.value.inserted <= PENDING_TTL ==> r == DecodeResponse(h, payload, o.value.req))
  {
    var k := ResponseKey(h);
    RunAgrees(start, inputs, k);
    MaybeSweepAgrees(Run(start, inputs), k, Outstanding(inputs, k), Clock(start, inputs), now);
  }

  lemma SizeOfUpdate(m: map<Key, Entry>, k: Key, e: Entry)
    ensures |m[k := e]| <= |m| + 1
  {
    assert m[k := e].Keys == m.Keys + {k};
    assert |m.Keys + {k}| <= |m.Keys| + 1;
  }

  /** `MAX_PENDING` is no cap, but a map that an insert leaves larger holds only fresh entries. */
  lemma OverflowIsFresh(s: State, h: Header, payload: bytes, now: nat)
    requires Stashes(h, payload).Some?
    ensures var s' := Feed(s, h, payload, now).0;
            |s'.pending| > MAX_PENDING ==>
              forall k | k in s'.pending :: s'.pending[k].inserted >= now - PENDING_TTL
  {
    var s1 := MaybeSweep(s, now);
    SizeOfUpdate(s1.pending, RequestKey(h), Entry(Stashes(h, payload).value, now));
  }

  predicate KnownReads(s: State) {
    forall k | k in s.pending ::
      s.pending[k].req.commandId == CMD_READ && IsKnownRead(s.pending[k].req.indexGroup, s.pending[k].req.indexOffset)
  }

  lemma FeedKeepsKnownReads(s: State, h: Header, payload: bytes, now: nat)
    requires KnownReads(s)
    ensures KnownReads(Feed(s, h, payload, now).0)
  {
    if Stashes(h, payload).Some? {
      StashedAreKnownReads(h, payload);
    }
  }

  /** The write-response decoder is dead code behind `feed`: whatever was fed before, a response is only
      ever decoded as a read. */
  lemma {:induction false} ResponsesAreReads(start: nat, inputs: seq<Input>, h: Header, payload: bytes, now: nat)
    requires IsResponse(h)
    ensures KnownReads(Run(start, inputs))
    ensures var s := Run(start, inputs);
            var r := Feed(s, h, payload, now).1;
            r.Some? ==> ResponseKey(h) in s.pending && r == DecodeReadResponse(payload, s.pending[ResponseKey(h)].req)
                        && !r.value.ExceedReset?
  {
    if inputs != [] {
      var last := inputs[|inputs| - 1];
      ResponsesAreReads(start, inputs[..|inputs| - 1], h, payload, now);
      FeedKeepsKnownReads(Run(start, inputs[..|inputs| - 1]), last.header, last.payload, last.now);
    }
  }
}
