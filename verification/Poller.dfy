/** Planning of one poll tick (crates/tc-otel-ads/src/diagnostics_poller.rs) and its way through the
    observer. */
module Poller {
  import opened Bytes
  import opened Ams
  import opened Diagnostics
  import opened Observer

  const POLLER_SOURCE_PORT: u16 := 30001

  datatype Target = Target(netId: NetId, exceedCounter: bool, rtUsage: bool, taskPorts: seq<u16>, rtPort: u16)

  /** One read a target owes in a tick. */
  datatype Read = Read(port: u16, indexGroup: u32, indexOffset: u32, size: u32)

  datatype Poll = Poll(targetNetId: NetId, read: Read, invokeId: u32, frame: bytes)

  /** `build_read_frame` */
  function BuildReadFrame(source: NetId, target: NetId, r: Read, invokeId: u32): bytes {
    BuildFrame(target, r.port, source, POLLER_SOURCE_PORT, CMD_READ, STATE_REQUEST, invokeId,
               ReadPayload(r.indexGroup, r.indexOffset, r.size))
  }

  /** The port for the exceed counter: the lowest task port, else the realtime port. */
  function LowestPort(ports: seq<u16>, rtPort: u16): u16 {
    if ports == [] then rtPort
    else if |ports| == 1 then ports[0]
    else
      var rest := LowestPort(ports[1..], rtPort);
      if ports[0] <= rest then ports[0] else rest
  }

  function TaskRead(port: u16): Read {
    Read(port, IG_RT_SYSTEM, IO_TASK_STATS, TASK_STATS_LEN)
  }

  function UsageRead(port: u16): Read {
    Read(port, IG_RT_USAGE, IO_RT_USAGE, RT_USAGE_LEN)
  }

  function ExceedRead(port: u16): Read {
    Read(port, IG_RT_SYSTEM, IO_EXCEED_COUNTER, EXCEED_COUNTER_LEN)
  }

  predicate IsPlanned(r: Read) {
    r == TaskRead(r.port) || r == UsageRead(r.port) || r == ExceedRead(r.port)
  }

  /** What a tick asks for, in order. */
  function Reads(t: Target): seq<Read> {
    (if t.exceedCounter then [ExceedRead(LowestPort(t.taskPorts, t.rtPort))] else [])
    + (if t.rtUsage then [UsageRead(t.rtPort)] else [])
    + TaskReads(t.taskPorts)
  }

  function TaskReads(ports: seq<u16>): seq<Read> {
    seq(|ports|, i requires 0 <= i < |ports| => TaskRead(ports[i]))
  }

  /** The lowest of the task ports, or the realtime port if there are none. */
  predicate IsLowest(port: u16, ports: seq<u16>, rtPort: u16) {
    if ports == [] then port == rtPort else port in ports && forall p | p in ports :: port <= p
  }

  /** A tick reads the statistics of every task, the realtime usage and the exceed counter, each only if it is
      switched on; the exceed counter is read on the lowest task port, or on the realtime port without tasks. */
  lemma ReadsAreDue(t: Target)
    ensures var plan := Reads(t); var e := if t.exceedCounter then 1 else 0; var u := if t.rtUsage then 1 else 0;
            && |plan| == e + u + |t.taskPorts|
            && (t.exceedCounter ==>
                  && plan[0] == Read(plan[0].port, 0xF200, 0x100, 4)
                  && IsLowest(plan[0].port, t.taskPorts, t.rtPort))
            && (t.rtUsage ==> plan[e] == Read(t.rtPort, 1, 0xF, 24))
            && (forall i | 0 <= i < |t.taskPorts| :: plan[e + u + i] == Read(t.taskPorts[i], 0xF200, 0, 16))
  {
    hide LowestPort, TaskReads, IsLowest;
    LowestPortIs(t.taskPorts, t.rtPort);
    TaskReadsAre(t.taskPorts);
    var a := if t.exceedCounter then [ExceedRead(LowestPort(t.taskPorts, t.rtPort))] else [];
    var b := if t.rtUsage then [UsageRead(t.rtPort)] else [];
    PlaceInPlan(a, b, TaskReads(t.taskPorts));
  }

  lemma LowestPortIs(ports: seq<u16>, rtPort: u16)
    ensures IsLowest(LowestPort(ports, rtPort), ports, rtPort)
  {
    if ports != [] {
      LowestPortIsMin(ports, rtPort);
    }
  }

  lemma TaskReadsAre(ports: seq<u16>)
    ensures |TaskReads(ports)| == |ports|
    ensures forall i | 0 <= i < |ports| :: TaskReads(ports)[i] == Read(ports[i], 0xF200, 0, 16)
  {
  }

  lemma PlaceInPlan(a: seq<Read>, b: seq<Read>, c: seq<Read>)
    ensures a != [] ==> (a + b + c)[0] == a[0]
    ensures b != [] ==> (a + b + c)[|a|] == b[0]
    ensures forall i | 0 <= i < |c| :: (a + b + c)[|a| + |b| + i] == c[i]
  {
  }

  /** The counter after `n` of them. */
  function Advance(counter: u32, n: nat): u32 {
    if n == 0 then counter else Bump(Advance(counter, n - 1))
  }

  function PollOf(t: Target, source: NetId, r: Read, invokeId: u32): Poll {
    Poll(t.netId, r, invokeId, BuildReadFrame(source, t.netId, r, invokeId))
  }

  function Polls(t: Target, source: NetId, counter: u32): (ps: seq<Poll>)
    ensures |ps| == |Reads(t)|
  {
    seq(|Reads(t)|, i requires 0 <= i < |Reads(t)| => PollOf(t, source, Reads(t)[i], Advance(counter, i)))
  }

  lemma {:induction false} AdvanceIsSum(counter: u32, n: nat)
    ensures Advance(counter, n) == (counter + n) % 0x1_0000_0000
  {
    hide Bump;
    if n > 0 {
      AdvanceIsSum(counter, n - 1);
      BumpIsSum(counter + n - 1);
    }
  }

  lemma BumpIsSum(n: nat)
    ensures Bump(n % 0x1_0000_0000) == (n + 1) % 0x1_0000_0000
  {
    var q, r := n / 0x1_0000_0000, n % 0x1_0000_0000;
    assert n == 0x1_0000_0000 * q + r;
    assert r == 0xFFFF_FFFF ==> n + 1 == 0x1_0000_0000 * (q + 1);
  }

  lemma AdvanceDistinct(counter: u32, i: nat, j: nat)
    requires i < j < i + 0x1_0000_0000
    ensures Advance(counter, i) != Advance(counter, j)
  {
    AdvanceIsSum(counter, i);
    AdvanceIsSum(counter, j);
  }

  /** `min` over the ports. */
  method MinPort(ports: seq<u16>, rtPort: u16) returns (port: u16)
    ensures IsLowest(port, ports, rtPort)
  {
    if ports == [] {
      return rtPort;
    }
    port := ports[0];
    for i := 1 to |ports|
      invariant port in ports
      invariant forall k | 0 <= k < i :: port <= ports[k]
    {
      if ports[i] < port {
        port := ports[i];
      }
    }
  }

  lemma {:induction false} LowestPortIsMin(ports: seq<u16>, rtPort: u16)
    requires ports != []
    ensures LowestPort(ports, rtPort) in ports
    ensures forall p | p in ports :: LowestPort(ports, rtPort) <= p
  {
    if |ports| > 1 {
      LowestPortIsMin(ports[1..], rtPort);
      assert forall p | p in ports :: p == ports[0] || p in ports[1..];
    }
  }

  method BuildPollsForTarget(t: Target, source: NetId, start: u32) returns (polls: seq<Poll>, counter: u32)
    ensures polls == Polls(t, source, start)
    ensures counter == Advance(start, |polls|)
  {
    hide PollOf;
    hide Polls;
    polls, counter := [], start;
    ghost var done: seq<Read> := [];
    if t.exceedCounter {
      var port := MinPort(t.taskPorts, t.rtPort);
      if t.taskPorts != [] {
        LowestPortIsMin(t.taskPorts, t.rtPort);
      }
      PlannedExtends(t, source, start, done, polls, counter, ExceedRead(port));
      polls := polls + [PollOf(t, source, ExceedRead(port), counter)];
      done := done + [ExceedRead(port)];
      counter := Bump(counter);
    }
    if t.rtUsage {
      PlannedExtends(t, source, start, done, polls, counter, UsageRead(t.rtPort));
      polls := polls + [PollOf(t, source, UsageRead(t.rtPort), counter)];
      done := done + [UsageRead(t.rtPort)];
      counter := Bump(counter);
    }
    ghost var head := done;
    for i := 0 to |t.taskPorts|
      invariant done == head + TaskReads(t.taskPorts)[..i]
      invariant Planned(t, source, start, done, polls, counter)
    {
      var r := TaskRead(t.taskPorts[i]);
      PlannedExtends(t, source, start, done, polls, counter, r);
      polls := polls + [PollOf(t, source, r, counter)];
      done := done + [r];
      counter := Bump(counter);
    }
    assert done == Reads(t);
    PlannedIsAll(t, source, start, polls, counter);
  }

  /** `polls` are the polls for the reads `done`, numbered from `start`. */
  ghost predicate Planned(t: Target, source: NetId, start: u32, done: seq<Read>, polls: seq<Poll>, counter: u32) {
    && |polls| == |done| && counter == Advance(start, |done|)
    && (forall i: nat | i < |done| :: polls[i] == PollOf(t, source, done[i], Advance(start, i)))
  }

  lemma PlannedExtends(t: Target, source: NetId, start: u32, done: seq<Read>, polls: seq<Poll>, counter: u32, r: Read)
    requires Planned(t, source, start, done, polls, counter)
    ensures Planned(t, source, start, done + [r], polls + [PollOf(t, source, r, counter)], Bump(counter))
  {
    hide PollOf;
  }

  lemma PlannedIsAll(t: Target, source: NetId, start: u32, polls: seq<Poll>, counter: u32)
    requires Planned(t, source, start, Reads(t), polls, counter)
    ensures polls == Polls(t, source, start)
  {
    hide PollOf;
  }

  // ---------------------------------------------------------------- one tick through the observer

  function PollKey(p: Poll, source: NetId): Key {
    Key(p.targetNetId, source, p.invokeId)
  }

  function PollHeader(p: Poll, source: NetId): Header {
    Header(p.targetNetId, p.read.port, source, POLLER_SOURCE_PORT, CMD_READ, STATE_REQUEST, 12, 0, p.invokeId)
  }

  /** The poller feeds its own frame to the observer before it publishes it. */
  function PollInput(p: Poll, now: nat): Input
    requires |p.frame| >= HEADER_LEN
  {
    Input(Parse(p.frame).value, p.frame[HEADER_LEN..], now)
  }

  function Pended(p: Poll): PendingRequest {
    PendingRequest(CMD_READ, p.read.indexGroup, p.read.indexOffset, p.read.size, p.read.port)
  }

  /** The poll's frame parses to what its other fields say. */
  predicate WellPlanned(p: Poll, source: NetId) {
    && IsPlanned(p.read)
    && |p.frame| >= HEADER_LEN
    && Parse(p.frame) == Some(PollHeader(p, source))
    && p.frame[HEADER_LEN..] == ReadPayload(p.read.indexGroup, p.read.indexOffset, p.read.size)
  }

  lemma ReadFrameParses(source: NetId, target: NetId, r: Read, invokeId: u32)
    ensures var frame := BuildReadFrame(source, target, r, invokeId);
            && |frame| >= HEADER_LEN
            && Parse(frame) == Some(Header(target, r.port, source, POLLER_SOURCE_PORT,
                                  CMD_READ, STATE_REQUEST, 12, 0, invokeId))
            && frame[HEADER_LEN..] == ReadPayload(r.indexGroup, r.indexOffset, r.size)
  {
    hide Layout;
    hide ReadPayload;
    var h := Header(target, r.port, source, POLLER_SOURCE_PORT, CMD_READ, STATE_REQUEST, 12, 0, invokeId);
    ParseOfLayout(h, ReadPayload(r.indexGroup, r.indexOffset, r.size));
  }

  lemma PlannedIsWell(t: Target, source: NetId, counter: u32, i: nat)
    requires i < |Reads(t)|
    ensures WellPlanned(Polls(t, source, counter)[i], source)
  {
    hide BuildReadFrame;
    assert IsPlanned(Reads(t)[i]);
    ReadFrameParses(source, t.netId, Reads(t)[i], Advance(counter, i));
  }

  lemma PlannedIsStashed(h: Header, r: Read)
    requires IsPlanned(r) && h.stateFlags == STATE_REQUEST && h.commandId == CMD_READ && h.targetPort == r.port
    ensures Stashes(h, ReadPayload(r.indexGroup, r.indexOffset, r.size)) ==
            Some(PendingRequest(CMD_READ, r.indexGroup, r.indexOffset, r.size, r.port))
  {
    ReadPayloadFields(r.indexGroup, r.indexOffset, r.size);
  }

  /** A planned poll, fed back, is what its fields say it is. */
  lemma PollParses(p: Poll, source: NetId, now: nat)
    requires WellPlanned(p, source)
    ensures |p.frame| >= HEADER_LEN
    ensures PollInput(p, now).header == PollHeader(p, source) && PollInput(p, now).now == now
    ensures Stashes(PollInput(p, now).header, PollInput(p, now).payload) == Some(Pended(p))
  {
    PlannedIsStashed(PollHeader(p, source), p.read);
  }

  /** The observer holds the poll's request, with the time it was fed. */
  predicate Expecting(s: State, p: Poll, source: NetId, at: nat) {
    var k := PollKey(p, source);
    k in s.pending && s.pending[k] == Entry(Pended(p), at)
  }

  lemma PollIsStashed(s: State, p: Poll, source: NetId, now: nat)
    requires WellPlanned(p, source)
    ensures |p.frame| >= HEADER_LEN
    ensures var i := PollInput(p, now);
            var (s', e) := Feed(s, i.header, i.payload, now);
            e == None && Expecting(s', p, source, now)
  {
    PollParses(p, source, now);
  }

  /** A frame under another key leaves an entry alone while the entry is within the TTL. */
  lemma FeedKeepsOther(s: State, h: Header, payload: bytes, now: nat, k: Key)
    requires k in s.pending && s.pending[k].inserted >= now - PENDING_TTL
    requires !IsResponse(h) ==> RequestKey(h) != k
    requires IsResponse(h) ==> ResponseKey(h) != k
    ensures var s' := Feed(s, h, payload, now).0; k in s'.pending && s'.pending[k] == s.pending[k]
  {
  }

  /** `input` is a well-formed successful reply to `p` carrying `data`. */
  predicate Answers(input: Input, p: Poll, source: NetId, data: bytes) {
    && IsResponse(input.header) && input.header.invokeId == p.invokeId
    && input.header.sourceNetId == p.targetNetId && input.header.targetNetId == source
    && |data| == p.read.size && input.payload == ReadReply(data)
  }

  /** The event a reply to a poll stands for. */
  function EventOf(r: Read, data: bytes): Event
    requires IsPlanned(r) && |data| == r.size
  {
    if r == TaskRead(r.port) then
      TaskStats(r.port, U16(data[2..4]), U16(data[0..2]), U32(data[4..8]), U32(data[8..12]))
    else if r == UsageRead(r.port) then RtUsage(U32(data[4..8]), U32(data[8..12]), U32(data[16..20]))
    else ExceedCounter(U32(data))
  }

  lemma AnswerYieldsEvent(s: State, p: Poll, source: NetId, at: nat, input: Input, data: bytes)
    requires WellPlanned(p, source) && Expecting(s, p, source, at) && Answers(input, p, source, data)
    requires at >= input.now - PENDING_TTL
    ensures var (s', e) := Feed(s, input.header, input.payload, input.now);
            e == Some(EventOf(p.read, data)) && PollKey(p, source) !in s'.pending
  {
    ReadReplyFields(data);
    assert DecodeReadResponse(input.payload, Pended(p)) == Some(EventOf(p.read, data));
  }

  predicate DistinctKeys(polls: seq<Poll>, source: NetId) {
    forall i: nat, j: nat | i < j < |polls| :: PollKey(polls[i], source) != PollKey(polls[j], source)
  }

  lemma PlannedAreDistinct(t: Target, source: NetId, counter: u32)
    requires |Reads(t)| <= 0x1_0000_0000
    ensures DistinctKeys(Polls(t, source, counter), source)
  {
    var polls := Polls(t, source, counter);
    forall i: nat, j: nat | i < j < |polls|
      ensures PollKey(polls[i], source) != PollKey(polls[j], source)
    {
      AdvanceDistinct(counter, i, j);
    }
  }

  predicate AllWell(polls: seq<Poll>, source: NetId) {
    forall i: nat | i < |polls| :: WellPlanned(polls[i], source)
  }

  /** `order` names every poll once. */
  predicate Permutation(order: seq<nat>, n: nat) {
    && |order| == n
    && (forall i | 0 <= i < |order| :: order[i] < n)
    && (forall i, j | 0 <= i < j < |order| :: order[i] != order[j])
    && (forall i: nat | i < n :: i in order)
  }

  /** Every frame of the round is fed between `deadline` - TTL and `deadline`. */
  predicate WithinTtl(times: seq<nat>, deadline: nat) {
    forall i | 0 <= i < |times| :: times[i] <= deadline <= times[i] + PENDING_TTL
  }

  function PollInputs(polls: seq<Poll>, times: seq<nat>): (r: seq<Input>)
    requires |polls| == |times|
    requires forall i | 0 <= i < |polls| :: |polls[i].frame| >= HEADER_LEN
    ensures |r| == |polls|
  {
    seq(|polls|, i requires 0 <= i < |polls| => PollInput(polls[i], times[i]))
  }

  lemma FramesAreWhole(polls: seq<Poll>, source: NetId)
    requires AllWell(polls, source)
    ensures forall i | 0 <= i < |polls| :: |polls[i].frame| >= HEADER_LEN
  {
    forall i | 0 <= i < |polls|
      ensures |polls[i].frame| >= HEADER_LEN
    {
      PollParses(polls[i], source, 0);
    }
  }

  lemma RunFromExtends(s: State, inputs: seq<Input>, n: nat)
    requires n < |inputs|
    ensures RunFrom(s, inputs[..n + 1]) ==
            Feed(RunFrom(s, inputs[..n]), inputs[n].header, inputs[n].payload, inputs[n].now).0
  {
    assert inputs[..n + 1][..n] == inputs[..n];
  }

  predicate AllExpected(s: State, polls: seq<Poll>, source: NetId, times: seq<nat>, n: nat)
    requires n <= |polls| == |times|
  {
    forall i: nat | i < n :: Expecting(s, polls[i], source, times[i])
  }

  lemma PollAdvances(s: State, polls: seq<Poll>, source: NetId, times: seq<nat>, deadline: nat, n: nat)
    requires AllWell(polls, source) && DistinctKeys(polls, source)
    requires |times| == |polls| && WithinTtl(times, deadline) && n < |polls|
    requires AllExpected(s, polls, source, times, n)
    ensures |polls[n].frame| >= HEADER_LEN
    ensures var input := PollInput(polls[n], times[n]);
            var (s', e) := Feed(s, input.header, input.payload, input.now);
            AllExpected(s', polls, source, times, n + 1) && e == None
  {
    hide Feed, Parse, ReadPayload;
    PollIsStashed(s, polls[n], source, times[n]);
    PollParses(polls[n], source, times[n]);
    var input := PollInput(polls[n], times[n]);
    forall i: nat | i < n
      ensures Expecting(Feed(s, input.header, input.payload, input.now).0, polls[i], source, times[i])
    {
      assert Expecting(s, polls[i], source, times[i]);
      assert PollKey(polls[i], source) != PollKey(polls[n], source);
      FeedKeepsOther(s, input.header, input.payload, times[n], PollKey(polls[i], source));
    }
  }

  /** After the first `n` polls were fed, each of them is pending. */
  lemma {:induction false} PollsArePending(s: State, polls: seq<Poll>, source: NetId, times: seq<nat>,
                                         deadline: nat, n: nat)
    requires AllWell(polls, source) && DistinctKeys(polls, source)
    requires |times| == |polls| && WithinTtl(times, deadline) && n <= |polls|
    ensures forall i | 0 <= i < |polls| :: |polls[i].frame| >= HEADER_LEN
    ensures AllExpected(RunFrom(s, PollInputs(polls, times)[..n]), polls, source, times, n)
    ensures forall i: nat | i < n :: EventAt(s, PollInputs(polls, times), i) == None
  {
    hide Feed, DistinctKeys, WithinTtl, AllExpected, WellPlanned, PollInput;
    FramesAreWhole(polls, source);
    var inputs := PollInputs(polls, times);
    if n == 0 {
      NoneExpected(RunFrom(s, inputs[..0]), polls, source, times);
    } else {
      PollsArePending(s, polls, source, times, deadline, n - 1);
      RunFromExtends(s, inputs, n - 1);
      PollAdvances(RunFrom(s, inputs[..n - 1]), polls, source, times, deadline, n - 1);
    }
  }

  lemma NoneExpected(s: State, polls: seq<Poll>, source: NetId, times: seq<nat>)
    requires |polls| == |times|
    ensures AllExpected(s, polls, source, times, 0)
  {
  }

  /** `replies` answers the polls in the order `order`, poll `i` with `datas[i]`. */
  predicate AnswersAll(replies: seq<Input>, polls: seq<Poll>, source: NetId, order: seq<nat>, datas: seq<bytes>) {
    && |replies| == |order| == |polls| == |datas|
    && Permutation(order, |polls|)
    && (forall j | 0 <= j < |replies| :: Answers(replies[j], polls[order[j]], source, datas[order[j]]))
  }

  /** After `m` replies: the answered polls are gone, the others still pending. */
  predicate Midway(s: State, polls: seq<Poll>, source: NetId, times: seq<nat>, order: seq<nat>, m: nat)
    requires |times| == |polls| && Permutation(order, |polls|) && m <= |order|
  {
    && (forall j | 0 <= j < m :: PollKey(polls[order[j]], source) !in s.pending)
    && (forall j | m <= j < |order| :: Expecting(s, polls[order[j]], source, times[order[j]]))
  }

  lemma FeedAddsNoKey(s: State, input: Input, k: Key)
    requires IsResponse(input.header) && k !in s.pending
    ensures k !in Feed(s, input.header, input.payload, input.now).0.pending
  {
  }

  lemma ReplyAdvances(s: State, polls: seq<Poll>, source: NetId, times: seq<nat>, order: seq<nat>,
                      replies: seq<Input>, datas: seq<bytes>, deadline: nat, m: nat)
    requires AllWell(polls, source) && DistinctKeys(polls, source)
    requires |times| == |polls| && WithinTtl(times, deadline)
    requires AnswersAll(replies, polls, source, order, datas) && m < |replies|
    requires replies[m].now <= deadline
    requires Midway(s, polls, source, times, order, m)
    ensures var (s', e) := Feed(s, replies[m].header, replies[m].payload, replies[m].now);
            && Midway(s', polls, source, times, order, m + 1)
            && e == Some(EventOf(polls[order[m]].read, datas[order[m]]))
  {
    hide Feed, EventOf, Parse, ReadReply, ReadPayload;
    var input := replies[m];
    var s' := Feed(s, input.header, input.payload, input.now).0;
    AnswerYieldsEvent(s, polls[order[m]], source, times[order[m]], input, datas[order[m]]);
    forall j | 0 <= j < m + 1
      ensures PollKey(polls[order[j]], source) !in s'.pending
    {
      if j < m {
        FeedAddsNoKey(s, input, PollKey(polls[order[j]], source));
      }
    }
    forall j | m + 1 <= j < |order|
      ensures Expecting(s', polls[order[j]], source, times[order[j]])
    {
      assert order[j] != order[m];
      assert PollKey(polls[order[j]], source) != PollKey(polls[order[m]], source);
      FeedKeepsOther(s, input.header, input.payload, input.now, PollKey(polls[order[j]], source));
    }
  }

  lemma {:induction false} RepliesDrain(s: State, polls: seq<Poll>, source: NetId, times: seq<nat>, order: seq<nat>,
                                        replies: seq<Input>, datas: seq<bytes>, deadline: nat, m: nat)
    requires AllWell(polls, source) && DistinctKeys(polls, source)
    requires |times| == |polls| && WithinTtl(times, deadline)
    requires AnswersAll(replies, polls, source, order, datas) && m <= |replies|
    requires forall j | 0 <= j < |replies| :: replies[j].now <= deadline
    requires Midway(s, polls, source, times, order, 0)
    ensures Midway(RunFrom(s, replies[..m]), polls, source, times, order, m)
    ensures forall j: nat | j < m :: EventAt(s, replies, j) == Some(EventOf(polls[order[j]].read, datas[order[j]]))
  {
    hide Feed, Midway, Answers, EventOf, AllWell, DistinctKeys, WithinTtl;
    if m > 0 {
      RepliesDrain(s, polls, source, times, order, replies, datas, deadline, m - 1);
      RunFromExtends(s, replies, m - 1);
      ReplyAdvances(RunFrom(s, replies[..m - 1]), polls, source, times, order, replies, datas, deadline, m - 1);
    }
  }

  /** None of the polls yields an event when fed, every reply then yields exactly the event of its poll,
      and none of the polls is left pending. */
  ghost predicate OneEventEach(s: State, polls: seq<Poll>, source: NetId, times: seq<nat>, order: seq<nat>,
                               replies: seq<Input>, datas: seq<bytes>)
    requires AllWell(polls, source) && |times| == |polls|
    requires AnswersAll(replies, polls, source, order, datas)
  {
    FramesAreWhole(polls, source);
    var inputs := PollInputs(polls, times);
    var s1 := RunFrom(s, inputs);
    && (forall i: nat | i < |polls| :: EventAt(s, inputs, i) == None)
    && (forall j: nat | j < |replies| ::
          EventAt(s1, replies, j) == Some(EventOf(polls[order[j]].read, datas[order[j]])))
    && (forall i: nat | i < |polls| :: PollKey(polls[i], source) !in RunFrom(s1, replies).pending)
  }

  lemma RoundYieldsEvents(s: State, polls: seq<Poll>, source: NetId, times: seq<nat>, order: seq<nat>,
                          replies: seq<Input>, datas: seq<bytes>, deadline: nat)
    requires AllWell(polls, source) && DistinctKeys(polls, source)
    requires |times| == |polls| && WithinTtl(times, deadline)
    requires AnswersAll(replies, polls, source, order, datas)
    requires forall j | 0 <= j < |replies| :: replies[j].now <= deadline
    ensures OneEventEach(s, polls, source, times, order, replies, datas)
  {
    hide Feed, WithinTtl, Answers, EventOf, WellPlanned, DistinctKeys;
    var n := |polls|;
    PollsArePending(s, polls, source, times, deadline, n);
    var inputs := PollInputs(polls, times);
    assert inputs[..n] == inputs;
    var s1 := RunFrom(s, inputs);
    StartsMidway(s1, polls, source, times, order);
    RepliesDrain(s1, polls, source, times, order, replies, datas, deadline, n);
    assert replies[..n] == replies;
    DrainedAll(RunFrom(s1, replies), polls, source, times, order);
  }

  lemma PlannedAreWell(t: Target, source: NetId, counter: u32)
    ensures AllWell(Polls(t, source, counter), source)
  {
    hide PollOf, WellPlanned;
    forall i: nat | i < |Polls(t, source, counter)|
      ensures WellPlanned(Polls(t, source, counter)[i], source)
    {
      PlannedIsWell(t, source, counter, i);
    }
  }

  /** One tick of any target, from any observer state and counter: with all replies within the TTL of the
      polls, in whatever order they come, every poll yields exactly one event, a task's event carries the
      port that was polled, and no poll is left pending. */
  lemma OneEventPerPoll(s: State, t: Target, source: NetId, counter: u32, times: seq<nat>, order: seq<nat>,
                        replies: seq<Input>, datas: seq<bytes>, deadline: nat)
    requires |Reads(t)| <= 0x1_0000_0000
    requires |times| == |Reads(t)| && WithinTtl(times, deadline)
    requires AnswersAll(replies, Polls(t, source, counter), source, order, datas)
    requires forall j | 0 <= j < |replies| :: replies[j].now <= deadline
    ensures AllWell(Polls(t, source, counter), source)
    ensures OneEventEach(s, Polls(t, source, counter), source, times, order, replies, datas)
  {
    hide PollOf, WithinTtl, AnswersAll, OneEventEach;
    PlannedAreWell(t, source, counter);
    PlannedAreDistinct(t, source, counter);
    RoundYieldsEvents(s, Polls(t, source, counter), source, times, order, replies, datas, deadline);
  }

  lemma DrainedAll(s: State, polls: seq<Poll>, source: NetId, times: seq<nat>, order: seq<nat>)
    requires |times| == |polls| && Permutation(order, |polls|)
    requires Midway(s, polls, source, times, order, |polls|)
    ensures forall i: nat | i < |polls| :: PollKey(polls[i], source) !in s.pending
  {
    forall i: nat | i < |polls|
      ensures PollKey(polls[i], source) !in s.pending
    {
      assert i in order;
      var j :| 0 <= j < |order| && order[j] == i;
    }
  }

  lemma StartsMidway(s: State, polls: seq<Poll>, source: NetId, times: seq<nat>, order: seq<nat>)
    requires |times| == |polls| && Permutation(order, |polls|)
    requires AllExpected(s, polls, source, times, |polls|)
    ensures Midway(s, polls, source, times, order, 0)
  {
  }
}
