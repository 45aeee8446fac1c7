/** Request/response correlation of `AmsDispatcher` (crates/tc-otel-ads/src/dispatcher.rs).

    The shared part is the route table, the invoke counter and the pending map. `SharedState`
    is its value, the class `AmsDispatcher` is the object that holds it, and `System` adds the
    `send_request` futures that run against it. A run is any list of actions: an action that is
    not enabled leaves the system alone, so every interleaving is covered. */
module Dispatcher {
  import opened Bytes
  import opened Ams

  datatype Kind = Mqtt | Tcp
  datatype Frame = Frame(header: Header, payload: bytes)

  /** Names a `send_request` future; a pending entry holds the sender that leads to it. */
  type Task = nat

  datatype SharedState = SharedState(
    routes: map<NetId, Kind>,
    counter: u32,
    pending: map<u32, Task>)

  function Learn(s: SharedState, id: NetId, kind: Kind): SharedState {
    s.(routes := s.routes[id := kind])
  }

  function LearnIfAbsent(s: SharedState, id: NetId, kind: Kind): SharedState {
    if id in s.routes then s else Learn(s, id, kind)
  }

  function Forget(s: SharedState, id: NetId): SharedState {
    s.(routes := s.routes - {id})
  }

  function Register(s: SharedState, id: u32, t: Task): SharedState {
    s.(pending := s.pending[id := t])
  }

  function Unregister(s: SharedState, id: u32): SharedState {
    s.(pending := s.pending - {id})
  }

  /** What became of an inbound frame. */
  datatype Verdict = Dropped | Resolved(task: Task, frame: Frame) | ToSink(frame: Frame)

  /** Hand a reply to whoever is registered under its invoke id. */
  function Match(s: SharedState, f: Frame): (SharedState, Verdict) {
    var id := f.header.invokeId;
    if id in s.pending then (Unregister(s, id), Resolved(s.pending[id], f))
    else (s, Dropped)
  }

  /** An AMS frame received over MQTT. */
  function IncomingMqtt(s: SharedState, us: NetId, port: u16, raw: bytes): (SharedState, Verdict) {
    if |raw| < HEADER_LEN then (s, Dropped)
    else
      var h := Parse(raw[..HEADER_LEN]).value;
      var f := Frame(h, raw[HEADER_LEN..]);
      var s1 := if h.sourceNetId != us then LearnIfAbsent(s, h.sourceNetId, Mqtt) else s;
      if !IsResponse(h) then (s1, ToSink(f))
      else if h.targetNetId != us || h.targetPort != port then (s1, Dropped)
      else Match(s1, f)
  }

  /** The body of an AMS/TCP frame: no route learning and no address filter. */
  function IncomingTcp(s: SharedState, raw: bytes): (SharedState, Verdict) {
    if |raw| < HEADER_LEN then (s, Dropped)
    else
      var f := Frame(Parse(raw[..HEADER_LEN]).value, raw[HEADER_LEN..]);
      if !IsResponse(f.header) then (s, ToSink(f)) else Match(s, f)
  }

  /** The object: each method is one locked or atomic section of the source. */
  class AmsDispatcher {
    const us: NetId
    const port: u16
    var routes: map<NetId, Kind>
    var counter: u32
    var pending: map<u32, Task>

    function Snapshot(): SharedState
      reads this
    {
      SharedState(routes, counter, pending)
    }

    constructor (us: NetId, port: u16)
      ensures this.us == us && this.port == port
      ensures Snapshot() == SharedState(map[], 1, map[])
    {
      this.us := us;
      this.port := port;
      routes := map[];
      counter := 1;
      pending := map[];
    }

    /** `RouteTable::learn`: says whether the entry is new or its kind changed. */
    method LearnRoute(id: NetId, kind: Kind) returns (changed: bool)
      modifies this`routes
      ensures Snapshot() == Learn(old(Snapshot()), id, kind) && routes == old(routes)[id := kind]
      ensures !changed <==> old(Snapshot()) == Snapshot()
    {
      changed := id !in routes || routes[id] != kind;
      ghost var before := routes;
      routes := routes[id := kind];
      assert !changed ==> routes == before;
    }

    method LearnRouteIfAbsent(id: NetId, kind: Kind) returns (inserted: bool)
      modifies this`routes
      ensures Snapshot() == LearnIfAbsent(old(Snapshot()), id, kind)
      ensures inserted <==> id !in old(routes)
      ensures routes == if inserted then old(routes)[id := kind] else old(routes)
    {
      inserted := id !in routes;
      if inserted {
        routes := routes[id := kind];
      }
    }

    method ForgetRoute(id: NetId) returns (previous: Option<Kind>)
      modifies this`routes
      ensures Snapshot() == Forget(old(Snapshot()), id) && routes == old(routes) - {id}
      ensures previous == if id in old(routes) then Some(old(routes)[id]) else None
    {
      previous := if id in routes then Some(routes[id]) else None;
      routes := routes - {id};
    }

    method AllocateInvokeId() returns (id: u32)
      modifies this`counter
      ensures id == old(counter)
      ensures Snapshot() == old(Snapshot()).(counter := Bump(id))
    {
      id := counter;
      counter := Bump(counter);
    }

    method InsertPending(id: u32, t: Task)
      modifies this`pending
      ensures Snapshot() == Register(old(Snapshot()), id, t) && pending == old(pending)[id := t]
    {
      pending := pending[id := t];
    }

    method RemovePending(id: u32) returns (waiter: Option<Task>)
      modifies this`pending
      ensures Snapshot() == Unregister(old(Snapshot()), id) && pending == old(pending) - {id}
      ensures waiter == if id in old(pending) then Some(old(pending)[id]) else None
    {
      waiter := if id in pending then Some(pending[id]) else None;
      pending := pending - {id};
    }

    /** `handle_incoming_mqtt` on an AMS topic. */
    method HandleIncomingMqtt(raw: bytes) returns (v: Verdict)
      modifies this`routes, this`pending
      ensures (Snapshot(), v) == IncomingMqtt(old(Snapshot()), us, port, raw)
    {
      if |raw| < HEADER_LEN {
        return Dropped;
      }
      var h := Parse(raw[..HEADER_LEN]).value;
      var body := raw[HEADER_LEN..];
      if h.sourceNetId != us {
        var _ := LearnRouteIfAbsent(h.sourceNetId, Mqtt);
      }
      if IsResponse(h) {
        if h.targetNetId != us || h.targetPort != port {
          return Dropped;
        }
        ghost var before := pending;
        var waiter := RemovePending(h.invokeId);
        if waiter.Some? {
          return Resolved(waiter.value, Frame(h, body));
        }
        assert pending == before;
        return Dropped;
      }
      return ToSink(Frame(h, body));
    }

    /** The dispatch step of `run_tcp_reader`. */
    method HandleIncomingTcp(raw: bytes) returns (v: Verdict)
      modifies this`pending
      ensures (Snapshot(), v) == IncomingTcp(old(Snapshot()), raw)
    {
      if |raw| < HEADER_LEN {
        return Dropped;
      }
      var f := Frame(Parse(raw[..HEADER_LEN]).value, raw[HEADER_LEN..]);
      if IsResponse(f.header) {
        ghost var before := pending;
        var waiter := RemovePending(f.header.invokeId);
        if waiter.Some? {
          return Resolved(waiter.value, f);
        }
        assert pending == before;
        return Dropped;
      }
      return ToSink(f);
    }
  }

  /** The receiving half of a `oneshot` channel as its future sees it. */
  datatype Channel = Open | Holding(frame: Frame) | SenderLost | ReceiverGone

  datatype Outcome = NoRoute | PublishError | Reply(frame: Frame) | TimedOut | Closed

  /** Where a `send_request` future is. `Failed`, `Expired` and `Orphaned` still owe the removal
      of their pending entry. */
  datatype Phase =
    | Allocated
    | Publishing
    | Waiting
    | Failed
    | Expired
    | Orphaned
    | Finished(outcome: Outcome)

  /** `serial` counts the invoke ids handed out before this one. */
  datatype Request = Request(id: u32, serial: nat, phase: Phase, channel: Channel)

  datatype System = System(
    us: NetId,
    port: u16,
    state: SharedState,
    tasks: map<Task, Request>,
    issued: nat,
    resolved: seq<(Task, Frame)>)

  datatype Action =
    | SetRoute(netId: NetId, kind: Kind)
    | DropRoute(netId: NetId)
    | Begin(task: Task, target: NetId)
    | Insert(task: Task)
    | PublishOk(task: Task)
    | PublishFail(task: Task)
    | TakeReply(task: Task)
    | SeeClosed(task: Task)
    | Timeout(task: Task)
    | CleanUp(task: Task)
    | MqttFrame(raw: bytes)
    | TcpFrame(raw: bytes)

  function Init(us: NetId, port: u16): System {
    System(us, port, SharedState(map[], 1, map[]), map[], 0, [])
  }

  predicate InPhase(s: System, t: Task, phase: Phase) {
    t in s.tasks && s.tasks[t].phase == phase
  }

  function Move(s: System, t: Task, phase: Phase): System
    requires t in s.tasks
  {
    s.(tasks := s.tasks[t := s.tasks[t].(phase := phase)])
  }

  function SetChannel(s: System, t: Task, c: Channel): System
    requires t in s.tasks
  {
    s.(tasks := s.tasks[t := s.tasks[t].(channel := c)])
  }

  /** Dropping a sender is seen by the future that still listens. */
  function LoseSender(s: System, t: Task): System {
    if t in s.tasks && s.tasks[t].channel.Open? then SetChannel(s, t, SenderLost) else s
  }

  function Send(s: System, t: Task, f: Frame): System {
    if t in s.tasks && s.tasks[t].channel.Open? then
      SetChannel(s, t, Holding(f)).(resolved := s.resolved + [(t, f)])
    else s
  }

  function Receive(s: System, r: (SharedState, Verdict)): System {
    var s1 := s.(state := r.0);
    if r.1.Resolved? then Send(s1, r.1.task, r.1.frame) else s1
  }

  function DoBegin(s: System, t: Task, target: NetId): System {
    if t in s.tasks then s
    else if target !in s.state.routes then
      s.(tasks := s.tasks[t := Request(s.state.counter, s.issued, Finished(NoRoute), ReceiverGone)])
    else
      s.(state := s.state.(counter := Bump(s.state.counter)),
         tasks := s.tasks[t := Request(s.state.counter, s.issued, Allocated, Open)],
         issued := s.issued + 1)
  }

  function DoInsert(s: System, t: Task): System {
    if !InPhase(s, t, Allocated) then s
    else
      var id := s.tasks[t].id;
      var s1 := Move(s, t, Publishing).(state := Register(s.state, id, t));
      if id in s.state.pending then LoseSender(s1, s.state.pending[id]) else s1
  }

  function CleanUpOutcome(p: Phase): Option<Outcome> {
    match p
    case Failed => Some(PublishError)
    case Expired => Some(TimedOut)
    case Orphaned => Some(Closed)
    case _ => None
  }

  /** The closing `pending.lock().await.remove(&invoke_id)`. */
  function DoCleanUp(s: System, t: Task): System {
    if t !in s.tasks || CleanUpOutcome(s.tasks[t].phase).None? then s
    else
      var r := s.tasks[t];
      var s1 := s.(state := Unregister(s.state, r.id));
      var s2 := if r.id in s.state.pending && s.state.pending[r.id] != t
                then LoseSender(s1, s.state.pending[r.id]) else s1;
      Move(s2, t, Finished(CleanUpOutcome(r.phase).value))
  }

  function Step(s: System, a: Action): System {
    match a
    case SetRoute(n, k) => s.(state := Learn(s.state, n, k))
    case DropRoute(n) => s.(state := Forget(s.state, n))
    case Begin(t, target) => DoBegin(s, t, target)
    case Insert(t) => DoInsert(s, t)
    case PublishOk(t) => if InPhase(s, t, Publishing) then Move(s, t, Waiting) else s
    case PublishFail(t) => if InPhase(s, t, Publishing) then Move(s, t, Failed) else s
    case TakeReply(t) =>
      if InPhase(s, t, Waiting) && s.tasks[t].channel.Holding?
      then Move(s, t, Finished(Reply(s.tasks[t].channel.frame))) else s
    case SeeClosed(t) =>
      if InPhase(s, t, Waiting) && s.tasks[t].channel.SenderLost? then Move(s, t, Orphaned) else s
    case Timeout(t) =>
      if InPhase(s, t, Waiting) then SetChannel(Move(s, t, Expired), t, ReceiverGone) else s
    case CleanUp(t) => DoCleanUp(s, t)
    case MqttFrame(raw) => Receive(s, IncomingMqtt(s.state, s.us, s.port, raw))
    case TcpFrame(raw) => Receive(s, IncomingTcp(s.state, raw))
  }

  function Run(s: System, actions: seq<Action>): System
    decreases |actions|
  {
    if actions == [] then s
    else Step(Run(s, actions[..|actions| - 1]), actions[|actions| - 1])
  }

  // ---------------------------------------------------------------- safety of every run

  /** Phases in which the future's own pending entry may be present. */
  predicate MayBePending(r: Request) {
    r.phase in {Publishing, Waiting, Failed, Expired}
  }

  predicate PendingSound(s: System) {
    forall id | id in s.state.pending ::
      s.state.pending[id] in s.tasks && EntrySound(s.tasks[s.state.pending[id]], id)
  }

  /** What a pending entry says about the future it leads to. */
  predicate EntrySound(r: Request, id: u32) {
    r.id == id && MayBePending(r) && (r.channel.Open? || r.channel.ReceiverGone?)
  }

  /** A future holds, and ends with, only a reply to its own invoke id. */
  predicate TaskSound(t: Task, r: Request, resolved: seq<(Task, Frame)>) {
    && (r.channel.Holding? ==>
          r.channel.frame.header.invokeId == r.id && IsResponse(r.channel.frame.header)
          && (t, r.channel.frame) in resolved)
    && (r.phase.Finished? && r.phase.outcome.Reply? ==> r.channel == Holding(r.phase.outcome.frame))
    && (r.phase.Allocated? ==> r.channel.Open?)
    && (r.phase.Orphaned? ==> r.channel.SenderLost?)
  }

  predicate TasksSound(s: System) {
    forall t | t in s.tasks :: TaskSound(t, s.tasks[t], s.resolved)
  }

  predicate ResolutionSound(r: Request, f: Frame) {
    !r.channel.Open? && !r.phase.Allocated? && f.header.invokeId == r.id
  }

  predicate ResolvedSound(s: System) {
    && (forall i | 0 <= i < |s.resolved| ::
          s.resolved[i].0 in s.tasks && ResolutionSound(s.tasks[s.resolved[i].0], s.resolved[i].1))
    && (forall i, j | 0 <= i < j < |s.resolved| :: s.resolved[i].0 != s.resolved[j].0)
  }

  predicate Inv(s: System) {
    PendingSound(s) && TasksSound(s) && ResolvedSound(s)
  }

  /** Replacing one future's record keeps the invariant when the new record is sound by itself. */
  lemma UpdateKeepsInv(s: System, t: Task, r: Request)
    requires Inv(s)
    requires t in s.tasks && r.id == s.tasks[t].id
    requires TaskSound(t, r, s.resolved)
    requires r.id in s.state.pending && s.state.pending[r.id] == t ==> EntrySound(r, r.id)
    requires s.tasks[t].channel.Open? || (!r.channel.Open? && (r.phase.Allocated? ==> s.tasks[t].phase.Allocated?))
    ensures Inv(s.(tasks := s.tasks[t := r]))
  {
  }

  lemma UnregisterKeepsInv(s: System, id: u32)
    requires Inv(s)
    ensures Inv(s.(state := Unregister(s.state, id)))
  {
  }

  /** A sender whose entry has left the map may be dropped. */
  lemma LoseSenderKeepsInv(s: System, t: Task)
    requires Inv(s)
    requires t in s.tasks ==>
               && !s.tasks[t].phase.Allocated?
               && !(s.tasks[t].id in s.state.pending && s.state.pending[s.tasks[t].id] == t)
    ensures Inv(LoseSender(s, t))
  {
    if t in s.tasks && s.tasks[t].channel.Open? {
      UpdateKeepsInv(s, t, s.tasks[t].(channel := SenderLost));
    }
  }

  lemma ReceiveKeepsInv(s: System, r: (SharedState, Verdict))
    requires Inv(s)
    requires r.1.Resolved? ==>
               && r.1.frame.header.invokeId in s.state.pending
               && s.state.pending[r.1.frame.header.invokeId] == r.1.task
               && r.0.pending == s.state.pending - {r.1.frame.header.invokeId}
               && IsResponse(r.1.frame.header)
    requires !r.1.Resolved? ==> r.0.pending == s.state.pending
    ensures Inv(Receive(s, r))
  {
  }

  lemma BeginKeepsInv(s: System, t: Task, target: NetId)
    requires Inv(s)
    ensures Inv(DoBegin(s, t, target))
  {
  }

  lemma InsertKeepsInv(s: System, t: Task)
    requires Inv(s)
    ensures Inv(DoInsert(s, t))
  {
    if InPhase(s, t, Allocated) {
      var id := s.tasks[t].id;
      var s1 := Move(s, t, Publishing);
      UpdateKeepsInv(s, t, s1.tasks[t]);
      var s2 := s1.(state := Register(s.state, id, t));
      assert Inv(s2);
      if id in s.state.pending {
        LoseSenderKeepsInv(s2, s.state.pending[id]);
      }
    }
  }

  lemma CleanUpKeepsInv(s: System, t: Task)
    requires Inv(s)
    ensures Inv(DoCleanUp(s, t))
  {
    if t in s.tasks && CleanUpOutcome(s.tasks[t].phase).Some? {
      var r := s.tasks[t];
      var s1 := s.(state := Unregister(s.state, r.id));
      UnregisterKeepsInv(s, r.id);
      var s2 := s1;
      if r.id in s.state.pending && s.state.pending[r.id] != t {
        LoseSenderKeepsInv(s1, s.state.pending[r.id]);
        s2 := LoseSender(s1, s.state.pending[r.id]);
      }
      UpdateKeepsInv(s2, t, r.(phase := Finished(CleanUpOutcome(r.phase).value)));
    }
  }

  lemma MoveKeepsInv(s: System, t: Task, phase: Phase, c: Channel)
    requires Inv(s)
    requires t in s.tasks
    requires InPhase(s, t, Publishing) || InPhase(s, t, Waiting)
    requires phase in {Waiting, Failed, Expired} || (phase.Orphaned? && s.tasks[t].channel.SenderLost?)
             || (s.tasks[t].channel.Holding? && phase == Finished(Reply(s.tasks[t].channel.frame)))
    requires c == s.tasks[t].channel || (c == ReceiverGone && phase == Expired)
    ensures Inv(SetChannel(Move(s, t, phase), t, c))
  {
    UpdateKeepsInv(s, t, s.tasks[t].(phase := phase, channel := c));
    assert s.tasks[t := s.tasks[t].(phase := phase)][t := s.tasks[t].(phase := phase, channel := c)]
        == s.tasks[t := s.tasks[t].(phase := phase, channel := c)];
  }

  lemma LifecycleKeepsInv(s: System, a: Action)
    requires Inv(s)
    requires a.PublishOk? || a.PublishFail? || a.TakeReply? || a.SeeClosed? || a.Timeout?
    ensures Inv(Step(s, a))
  {
    var t := a.task;
    if Step(s, a) != s {
      var r := Step(s, a).tasks[t];
      MoveKeepsInv(s, t, r.phase, r.channel);
      assert Step(s, a).tasks == SetChannel(Move(s, t, r.phase), t, r.channel).tasks;
    }
  }

  lemma StepKeepsInv(s: System, a: Action)
    requires Inv(s)
    ensures Inv(Step(s, a))
  {
    hide Parse, IsResponse;
    match a
    case SetRoute(_, _) =>
    case DropRoute(_) =>
    case Begin(t, target) => BeginKeepsInv(s, t, target);
    case Insert(t) => InsertKeepsInv(s, t);
    case CleanUp(t) => CleanUpKeepsInv(s, t);
    case MqttFrame(raw) => ReceiveKeepsInv(s, IncomingMqtt(s.state, s.us, s.port, raw));
    case TcpFrame(raw) => ReceiveKeepsInv(s, IncomingTcp(s.state, raw));
    case _ => LifecycleKeepsInv(s, a);
  }

  lemma {:induction false} RunKeepsInv(us: NetId, port: u16, actions: seq<Action>)
    ensures Inv(Run(Init(us, port), actions))
  {
    if actions != [] {
      RunKeepsInv(us, port, actions[..|actions| - 1]);
      StepKeepsInv(Run(Init(us, port), actions[..|actions| - 1]), actions[|actions| - 1]);
    }
  }

  /** Over every interleaving: no pending entry outlives its request, a future that ends with a reply
      ends with a response to its own invoke id, and no future is resolved twice. */
  lemma EveryRunCorrelates(us: NetId, port: u16, actions: seq<Action>)
    ensures var s := Run(Init(us, port), actions);
            && (forall id | id in s.state.pending ::
                  && s.state.pending[id] in s.tasks
                  && s.tasks[s.state.pending[id]].id == id
                  && !s.tasks[s.state.pending[id]].phase.Finished?)
            && (forall t | t in s.tasks && s.tasks[t].phase.Finished? && s.tasks[t].phase.outcome.Reply? ::
                  var f := s.tasks[t].phase.outcome.frame;
                  f.header.invokeId == s.tasks[t].id && IsResponse(f.header) && (t, f) in s.resolved)
            && (forall i, j | 0 <= i < j < |s.resolved| :: s.resolved[i].0 != s.resolved[j].0)
  {
    RunKeepsInv(us, port, actions);
  }

  lemma FinishedStays(s: System, a: Action, t: Task)
    requires t in s.tasks && s.tasks[t].phase.Finished?
    ensures t in Step(s, a).tasks && Step(s, a).tasks[t].phase == s.tasks[t].phase
  {
  }

  /** What a finished future returned is not revised by anything that happens afterwards. */
  lemma {:induction false} FinishedIsFinal(s: System, actions: seq<Action>, t: Task)
    requires t in s.tasks && s.tasks[t].phase.Finished?
    ensures t in Run(s, actions).tasks && Run(s, actions).tasks[t].phase == s.tasks[t].phase
  {
    hide Step;
    if actions != [] {
      var before := actions[..|actions| - 1];
      FinishedIsFinal(s, before, t);
      FinishedStays(Run(s, before), actions[|actions| - 1], t);
    }
  }

  // ---------------------------------------------------------------- when invoke ids wrap

  const WRAP: nat := 0x1_0000_0000

  /** The future has drawn an invoke id (it did not stop at the route lookup). */
  predicate Drew(r: Request) {
    r.phase != Finished(NoRoute)
  }

  predicate Live(r: Request) {
    !r.phase.Finished?
  }

  /** Drawing one more id now does not come round to one that is still in use. */
  predicate Fits(s: System) {
    forall t | t in s.tasks && Live(s.tasks[t]) :: s.issued - s.tasks[t].serial < WRAP
  }

  /** No invoke id wraps while the request that drew it is outstanding. */
  predicate NoWrap(s: System, actions: seq<Action>)
    decreases |actions|
  {
    actions == [] ||
    var before := actions[..|actions| - 1];
    NoWrap(s, before) && (actions[|actions| - 1].Begin? ==> Fits(Run(s, before)))
  }

  function NthId(serial: nat): u32 {
    (1 + serial) % WRAP
  }

  lemma NthIdWindow(a: nat, b: nat)
    requires a < b < a + WRAP
    ensures NthId(a) != NthId(b)
  {
  }

  lemma NthIdCongruent(a: nat, b: nat)
    ensures NthId(a) == NthId(b) <==> (a - b) % WRAP == 0
  {
  }

  /** Ids are serial numbers modulo 2^32. */
  predicate IdsNumbered(s: System) {
    && s.state.counter == NthId(s.issued)
    && (forall t | t in s.tasks && Drew(s.tasks[t]) ::
          s.tasks[t].id == NthId(s.tasks[t].serial) && s.tasks[t].serial < s.issued)
    && (forall t, u | t in s.tasks && u in s.tasks && t != u && Drew(s.tasks[t]) && Drew(s.tasks[u]) ::
          s.tasks[t].serial != s.tasks[u].serial)
  }

  /** `r` may become `r'`: same identity, and neither drawing an id nor finishing is undone. */
  predicate SameRequest(r: Request, r': Request) {
    r'.id == r.id && r'.serial == r.serial && (Drew(r') <==> Drew(r)) && (Live(r') ==> Live(r))
  }

  predicate SameRequests(s: System, s': System) {
    && s'.tasks.Keys == s.tasks.Keys
    && (forall t | t in s.tasks :: SameRequest(s.tasks[t], s'.tasks[t]))
    && s'.state.counter == s.state.counter
    && s'.issued == s.issued
  }

  lemma ReceiveKeepsRequests(s: System, r: (SharedState, Verdict))
    requires r.0.counter == s.state.counter
    ensures SameRequests(s, Receive(s, r))
  {
  }

  lemma NonBeginKeepsRequests(s: System, a: Action)
    requires !a.Begin?
    ensures SameRequests(s, Step(s, a))
  {
    hide Parse, IsResponse;
    match a
    case CleanUp(t) => CleanUpKeepsRequests(s, t);
    case MqttFrame(raw) => ReceiveKeepsRequests(s, IncomingMqtt(s.state, s.us, s.port, raw));
    case TcpFrame(raw) => ReceiveKeepsRequests(s, IncomingTcp(s.state, raw));
    case _ =>
  }

  lemma CleanUpKeepsRequests(s: System, t: Task)
    ensures SameRequests(s, DoCleanUp(s, t))
  {
  }

  lemma SameRequestsKeepNumbering(s: System, s': System)
    requires IdsNumbered(s) && SameRequests(s, s')
    ensures IdsNumbered(s')
  {
    forall t | t in s'.tasks && Drew(s'.tasks[t])
      ensures s'.tasks[t].id == NthId(s'.tasks[t].serial) && s'.tasks[t].serial < s'.issued
    {
      assert SameRequest(s.tasks[t], s'.tasks[t]);
    }
    forall t, u | t in s'.tasks && u in s'.tasks && t != u && Drew(s'.tasks[t]) && Drew(s'.tasks[u])
      ensures s'.tasks[t].serial != s'.tasks[u].serial
    {
      assert SameRequest(s.tasks[t], s'.tasks[t]) && SameRequest(s.tasks[u], s'.tasks[u]);
    }
  }

  lemma BeginKeepsNumbering(s: System, t: Task, target: NetId)
    requires IdsNumbered(s)
    ensures IdsNumbered(DoBegin(s, t, target))
  {
  }

  lemma {:induction false} RunKeepsNumbering(us: NetId, port: u16, actions: seq<Action>)
    ensures IdsNumbered(Run(Init(us, port), actions))
  {
    if actions != [] {
      var s := Run(Init(us, port), actions[..|actions| - 1]);
      var a := actions[|actions| - 1];
      RunKeepsNumbering(us, port, actions[..|actions| - 1]);
      if a.Begin? {
        BeginKeepsNumbering(s, a.task, a.target);
      } else {
        NonBeginKeepsRequests(s, a);
        SameRequestsKeepNumbering(s, Step(s, a));
      }
    }
  }

  /** Two requests share an invoke id exactly when a multiple of 2^32 requests lies between them. */
  lemma SameIdIff(us: NetId, port: u16, actions: seq<Action>, t: Task, u: Task)
    requires var s := Run(Init(us, port), actions);
             t in s.tasks && u in s.tasks && Drew(s.tasks[t]) && Drew(s.tasks[u])
    ensures var s := Run(Init(us, port), actions);
            s.tasks[t].id == s.tasks[u].id <==> (s.tasks[t].serial - s.tasks[u].serial) % WRAP == 0
  {
    hide Run, Init, NthId;
    RunKeepsNumbering(us, port, actions);
    var s := Run(Init(us, port), actions);
    var a, b := s.tasks[t].serial, s.tasks[u].serial;
    assert s.tasks[t].id == NthId(a) && s.tasks[u].id == NthId(b);
    NthIdCongruent(a, b);
  }

  predicate ResolvedDrew(s: System) {
    forall i | 0 <= i < |s.resolved| :: s.resolved[i].0 in s.tasks && Drew(s.tasks[s.resolved[i].0])
  }

  /** Only an open channel is resolved, and a request without a route has none. */
  predicate RoutelessDeaf(s: System) {
    forall t | t in s.tasks && !Drew(s.tasks[t]) :: s.tasks[t].channel.ReceiverGone?
  }

  lemma ReceiveKeepsResolvedDrew(s: System, r: (SharedState, Verdict))
    requires ResolvedDrew(s) && RoutelessDeaf(s)
    ensures ResolvedDrew(Receive(s, r)) && RoutelessDeaf(Receive(s, r))
  {
  }

  lemma BeginKeepsResolvedDrew(s: System, t: Task, target: NetId)
    requires ResolvedDrew(s) && RoutelessDeaf(s)
    ensures ResolvedDrew(DoBegin(s, t, target)) && RoutelessDeaf(DoBegin(s, t, target))
  {
  }

  lemma QuietKeepsResolvedDrew(s: System, a: Action)
    requires ResolvedDrew(s) && RoutelessDeaf(s)
    requires !a.MqttFrame? && !a.TcpFrame? && !a.Begin?
    ensures ResolvedDrew(Step(s, a)) && RoutelessDeaf(Step(s, a))
  {
    hide IncomingMqtt, IncomingTcp;
    NonBeginKeepsRequests(s, a);
    var s' := Step(s, a);
    assert s'.resolved == s.resolved;
    assert forall t | t in s.tasks && s.tasks[t].channel.ReceiverGone? :: s'.tasks[t].channel.ReceiverGone?;
    assert forall t | t in s.tasks :: SameRequest(s.tasks[t], s'.tasks[t]);
  }

  lemma {:induction false} ResolvedHadDrawn(us: NetId, port: u16, actions: seq<Action>)
    ensures ResolvedDrew(Run(Init(us, port), actions)) && RoutelessDeaf(Run(Init(us, port), actions))
  {
    if |actions| > 0 {
      var s := Run(Init(us, port), actions[..|actions| - 1]);
      var a := actions[|actions| - 1];
      ResolvedHadDrawn(us, port, actions[..|actions| - 1]);
      match a
      case MqttFrame(raw) => ReceiveKeepsResolvedDrew(s, IncomingMqtt(s.state, s.us, s.port, raw));
      case TcpFrame(raw) => ReceiveKeepsResolvedDrew(s, IncomingTcp(s.state, raw));
      case Begin(t, target) => BeginKeepsResolvedDrew(s, t, target);
      case _ => QuietKeepsResolvedDrew(s, a);
    }
  }

  predicate WithinOneTurn(a: nat, b: nat) {
    a < b + WRAP && b < a + WRAP
  }

  /** In every run, whether or not ids have come round: a response was given to `t` while carrying the id of `u` if
      and only if a multiple of 2^32 requests lies between them. Less than a turn apart they are the same request. */
  lemma ResolvedIdIff(us: NetId, port: u16, actions: seq<Action>, i: nat, u: Task)
    requires var s := Run(Init(us, port), actions);
             i < |s.resolved| && u in s.tasks && Drew(s.tasks[u])
    ensures var s := Run(Init(us, port), actions);
            var (t, f) := s.resolved[i];
            && t in s.tasks
            && (s.tasks[u].id == f.header.invokeId <==> (s.tasks[t].serial - s.tasks[u].serial) % WRAP == 0)
            && (s.tasks[u].id == f.header.invokeId && WithinOneTurn(s.tasks[t].serial, s.tasks[u].serial) ==> t == u)
  {
    hide Run, Init, NthId;
    RunKeepsInv(us, port, actions);
    RunKeepsNumbering(us, port, actions);
    ResolvedHadDrawn(us, port, actions);
    var s := Run(Init(us, port), actions);
    var t := s.resolved[i].0;
    assert ResolutionSound(s.tasks[t], s.resolved[i].1);
    SameIdIff(us, port, actions, t, u);
    if s.tasks[u].id == s.tasks[t].id {
      SameWithinTurn(s, t, u);
    }
  }

  /** Within one turn of the counter an id belongs to one request. */
  lemma SameWithinTurn(s: System, t: Task, u: Task)
    requires IdsNumbered(s) && t in s.tasks && u in s.tasks && Drew(s.tasks[t]) && Drew(s.tasks[u])
    requires s.tasks[t].id == s.tasks[u].id
    ensures WithinOneTurn(s.tasks[t].serial, s.tasks[u].serial) ==> t == u
  {
    hide NthId;
    var a, b := s.tasks[t].serial, s.tasks[u].serial;
    if a < b < a + WRAP {
      NthIdWindow(a, b);
    } else if b < a < b + WRAP {
      NthIdWindow(b, a);
    }
  }

  /** Outstanding requests are at most one turn of the counter old. */
  predicate WithinTurn(s: System) {
    forall t | t in s.tasks && Live(s.tasks[t]) :: s.issued - s.tasks[t].serial <= WRAP
  }

  lemma SameRequestsWithinTurn(s: System, s': System)
    requires WithinTurn(s) && SameRequests(s, s')
    ensures WithinTurn(s')
  {
    forall t | t in s'.tasks && Live(s'.tasks[t]) ensures s'.issued - s'.tasks[t].serial <= WRAP {
      assert SameRequest(s.tasks[t], s'.tasks[t]);
    }
  }

  lemma {:induction false} NoWrapWithinTurn(us: NetId, port: u16, actions: seq<Action>)
    requires NoWrap(Init(us, port), actions)
    ensures WithinTurn(Run(Init(us, port), actions))
  {
    if actions != [] {
      var before, a := actions[..|actions| - 1], actions[|actions| - 1];
      var s := Run(Init(us, port), before);
      NoWrapWithinTurn(us, port, before);
      if a.Begin? {
        assert WithinTurn(DoBegin(s, a.task, a.target));
      } else {
        NonBeginKeepsRequests(s, a);
        SameRequestsWithinTurn(s, Step(s, a));
      }
    }
  }

  /** If no id comes round while its request is outstanding, then, however many requests there have been, a response
      to `u` that arrives before its id is drawn again, on either transport, touches no other request. */
  lemma LateResponseReachesNoOther(us: NetId, port: u16, actions: seq<Action>, u: Task, raw: bytes)
    requires NoWrap(Init(us, port), actions)
    requires var s := Run(Init(us, port), actions);
             u in s.tasks && Drew(s.tasks[u]) && s.issued - s.tasks[u].serial <= WRAP
    requires |raw| >= HEADER_LEN
             && Parse(raw[..HEADER_LEN]).value.invokeId == Run(Init(us, port), actions).tasks[u].id
    ensures var s := Run(Init(us, port), actions);
            && (s.tasks[u].id in s.state.pending ==> s.state.pending[s.tasks[u].id] == u)
            && TouchesOnly(s, Step(s, MqttFrame(raw)), u)
            && TouchesOnly(s, Step(s, TcpFrame(raw)), u)
  {
    hide Run, Init, NoWrap;
    var s := Run(Init(us, port), actions);
    OnlyHolder(us, port, actions, u);
    ReceiveTouchesOnly(s, u, IncomingMqtt(s.state, s.us, s.port, raw));
    ReceiveTouchesOnly(s, u, IncomingTcp(s.state, raw));
  }

  /** No request but `u` differs, and nothing was handed to another one. */
  predicate TouchesOnly(s: System, s': System, u: Task) {
    && s'.tasks.Keys == s.tasks.Keys
    && (forall t | t in s.tasks && t != u :: s'.tasks[t] == s.tasks[t])
    && s.resolved <= s'.resolved
    && (forall i | |s.resolved| <= i < |s'.resolved| :: s'.resolved[i].0 == u)
  }

  lemma ReceiveTouchesOnly(s: System, u: Task, r: (SharedState, Verdict))
    requires u in s.tasks && (r.1.Resolved? ==> r.1.task == u)
    ensures TouchesOnly(s, Receive(s, r), u)
  {
  }

  /** Under the id of a request less than a turn old, only that request can be registered. */
  lemma OnlyHolder(us: NetId, port: u16, actions: seq<Action>, u: Task)
    requires NoWrap(Init(us, port), actions)
    requires var s := Run(Init(us, port), actions);
             u in s.tasks && Drew(s.tasks[u]) && s.issued - s.tasks[u].serial <= WRAP
    ensures var s := Run(Init(us, port), actions);
            s.tasks[u].id in s.state.pending ==> s.state.pending[s.tasks[u].id] == u
  {
    hide Run, Init, NoWrap, NthId;
    RunKeepsInv(us, port, actions);
    RunKeepsNumbering(us, port, actions);
    NoWrapWithinTurn(us, port, actions);
    var s := Run(Init(us, port), actions);
    var id := s.tasks[u].id;
    if id in s.state.pending {
      var t := s.state.pending[id];
      assert EntrySound(s.tasks[t], id);
      SameWithinTurn(s, t, u);
    }
  }

  /** A future that still listens either has its reply or is registered under its id. */
  predicate Heard(r: Request, t: Task, pending: map<u32, Task>) {
    && (r.phase.Publishing? || r.phase.Waiting? ==>
          r.channel.Holding? || (r.channel.Open? && r.id in pending && pending[r.id] == t))
    && !r.phase.Orphaned? && r.phase != Finished(Closed)
  }

  predicate AllHeard(s: System) {
    forall t | t in s.tasks :: Heard(s.tasks[t], t, s.state.pending)
  }

  /** The future can still be given a reply. */
  predicate CanListen(r: Request) {
    r.phase.Allocated? || ((r.phase.Publishing? || r.phase.Waiting?) && r.channel.Open?)
  }

  /** No outstanding request shares the id of one that can still be given its reply. */
  predicate NoClash(s: System) {
    forall t, u | t in s.tasks && u in s.tasks && t != u && CanListen(s.tasks[t]) && Live(s.tasks[u]) ::
      s.tasks[t].id != s.tasks[u].id
  }

  predicate NoneLost(s: System) {
    AllHeard(s) && NoClash(s)
  }

  /** One future moves on; the pending entries under other ids stay as they are. */
  lemma UpdateKeepsNoneLost(s: System, t: Task, r: Request, pending: map<u32, Task>)
    requires NoneLost(s)
    requires t in s.tasks && SameRequest(s.tasks[t], r)
    requires CanListen(r) ==> CanListen(s.tasks[t])
    requires Heard(r, t, pending)
    requires Live(s.tasks[t])
    requires forall id | id != r.id :: id in pending <==> id in s.state.pending
    requires forall id | id != r.id && id in pending :: pending[id] == s.state.pending[id]
    ensures NoneLost(s.(tasks := s.tasks[t := r], state := s.state.(pending := pending)))
  {
    var s' := s.(tasks := s.tasks[t := r], state := s.state.(pending := pending));
    forall u | u in s'.tasks
      ensures Heard(s'.tasks[u], u, pending)
    {
      if u != t {
        assert Heard(s.tasks[u], u, s.state.pending);
      }
    }
  }

  lemma BeginKeepsNoneLost(s: System, t: Task, target: NetId)
    requires IdsNumbered(s) && NoneLost(s) && Fits(s)
    ensures NoneLost(DoBegin(s, t, target))
  {
    forall u | u in s.tasks && Live(s.tasks[u])
      ensures s.tasks[u].id != s.state.counter
    {
      NthIdWindow(s.tasks[u].serial, s.issued);
    }
  }

  lemma AllocatedIdIsFree(s: System, t: Task)
    requires Inv(s) && NoneLost(s) && InPhase(s, t, Allocated)
    ensures s.tasks[t].id !in s.state.pending
  {
    forall id | id in s.state.pending
      ensures id != s.tasks[t].id
    {
      assert EntrySound(s.tasks[s.state.pending[id]], id);
    }
  }

  /** Whoever else is registered under the id of an outstanding request has stopped listening. */
  lemma OtherHolderIsDeaf(s: System, t: Task)
    requires Inv(s) && NoneLost(s)
    requires t in s.tasks && Live(s.tasks[t])
    ensures var id := s.tasks[t].id;
            id in s.state.pending && s.state.pending[id] != t ==>
              s.state.pending[id] in s.tasks && s.tasks[s.state.pending[id]].phase in {Failed, Expired}
  {
    forall id | id in s.state.pending
      ensures EntrySound(s.tasks[s.state.pending[id]], id)
      ensures Heard(s.tasks[s.state.pending[id]], s.state.pending[id], s.state.pending)
    {
    }
  }

  lemma InsertKeepsNoneLost(s: System, t: Task)
    requires Inv(s) && NoneLost(s)
    ensures NoneLost(DoInsert(s, t))
  {
    if InPhase(s, t, Allocated) {
      AllocatedIdIsFree(s, t);
      assert TaskSound(t, s.tasks[t], s.resolved);
      var r := s.tasks[t].(phase := Publishing);
      UpdateKeepsNoneLost(s, t, r, s.state.pending[r.id := t]);
    }
  }

  lemma CleanUpKeepsNoneLost(s: System, t: Task)
    requires Inv(s) && NoneLost(s)
    ensures NoneLost(DoCleanUp(s, t))
  {
    if t in s.tasks && CleanUpOutcome(s.tasks[t].phase).Some? {
      OtherHolderIsDeaf(s, t);
      assert Heard(s.tasks[t], t, s.state.pending);
      var r := s.tasks[t].(phase := Finished(CleanUpOutcome(s.tasks[t].phase).value));
      var s1 := s;
      if r.id in s.state.pending && s.state.pending[r.id] != t {
        var u := s.state.pending[r.id];
        s1 := LoseSender(s, u);
        if s1 != s {
          UpdateKeepsNoneLost(s, u, s1.tasks[u], s.state.pending);
        }
      }
      UpdateKeepsNoneLost(s1, t, r, s.state.pending - {r.id});
    }
  }

  lemma ReceiveKeepsNoneLost(s: System, r: (SharedState, Verdict))
    requires Inv(s) && NoneLost(s)
    requires r.1.Resolved? ==>
               && r.1.frame.header.invokeId in s.state.pending
               && s.state.pending[r.1.frame.header.invokeId] == r.1.task
               && r.0.pending == s.state.pending - {r.1.frame.header.invokeId}
    requires !r.1.Resolved? ==> r.0.pending == s.state.pending
    ensures NoneLost(Receive(s, r))
  {
    if r.1.Resolved? {
      var t := r.1.task;
      var q := s.tasks[t];
      assert EntrySound(q, r.1.frame.header.invokeId);
      assert Heard(q, t, s.state.pending);
      var q' := if q.channel.Open? then q.(channel := Holding(r.1.frame)) else q;
      UpdateKeepsNoneLost(s, t, q', s.state.pending - {q.id});
      assert s.tasks[t := q] == s.tasks;
    }
  }

  lemma LifecycleKeepsNoneLost(s: System, a: Action)
    requires NoneLost(s)
    requires a.PublishOk? || a.PublishFail? || a.TakeReply? || a.SeeClosed? || a.Timeout?
    ensures NoneLost(Step(s, a))
  {
    var s' := Step(s, a);
    if s' != s {
      var t := a.task;
      assert Heard(s.tasks[t], t, s.state.pending);
      UpdateKeepsNoneLost(s, t, s'.tasks[t], s.state.pending);
      assert s'.tasks == s.tasks[t := s'.tasks[t]];
    }
  }

  lemma NonBeginKeepsNoneLost(s: System, a: Action)
    requires Inv(s) && NoneLost(s)
    requires !a.Begin?
    ensures NoneLost(Step(s, a))
  {
    hide Parse, IsResponse;
    match a
    case SetRoute(_, _) =>
    case DropRoute(_) =>
    case Insert(t) => InsertKeepsNoneLost(s, t);
    case CleanUp(t) => CleanUpKeepsNoneLost(s, t);
    case MqttFrame(raw) => ReceiveKeepsNoneLost(s, IncomingMqtt(s.state, s.us, s.port, raw));
    case TcpFrame(raw) => ReceiveKeepsNoneLost(s, IncomingTcp(s.state, raw));
    case _ => LifecycleKeepsNoneLost(s, a);
  }

  /** Without a wrap, no future is ever closed by another one, and each one that still listens is
      registered under its id until its reply is there. */
  lemma {:induction false} NoWrapLosesNone(us: NetId, port: u16, actions: seq<Action>)
    requires NoWrap(Init(us, port), actions)
    ensures NoneLost(Run(Init(us, port), actions))
  {
    if actions != [] {
      var before := actions[..|actions| - 1];
      var a := actions[|actions| - 1];
      var s := Run(Init(us, port), before);
      NoWrapLosesNone(us, port, before);
      RunKeepsInv(us, port, before);
      RunKeepsNumbering(us, port, before);
      if a.Begin? {
        BeginKeepsNoneLost(s, a.task, a.target);
      } else {
        NonBeginKeepsNoneLost(s, a);
      }
    }
  }

  predicate BeginsNone(actions: seq<Action>) {
    forall i | 0 <= i < |actions| :: !actions[i].Begin?
  }

  lemma {:induction false} NoneLostLasts(s: System, actions: seq<Action>)
    requires Inv(s) && NoneLost(s) && BeginsNone(actions)
    ensures Inv(Run(s, actions)) && NoneLost(Run(s, actions))
  {
    if actions != [] {
      var before := actions[..|actions| - 1];
      NoneLostLasts(s, before);
      StepKeepsInv(Run(s, before), actions[|actions| - 1]);
      NonBeginKeepsNoneLost(Run(s, before), actions[|actions| - 1]);
    }
  }

  lemma RunOne(s: System, a: Action)
    ensures Run(s, [a]) == Step(s, a)
  {
    assert [a][..0] == [];
  }

  lemma RunTwo(s: System, a: Action, b: Action)
    ensures Run(s, [a, b]) == Step(Step(s, a), b)
  {
    RunOne(s, a);
    assert [a, b][..1] == [a];
  }

  /** The removal that ends one request takes down the listener registered under the same id. */
  lemma CleanUpTakesDown(s: System, t: Task, u: Task)
    requires t in s.tasks && u in s.tasks && t != u && s.tasks[u].id == s.tasks[t].id
    requires Heard(s.tasks[t], t, s.state.pending)
    requires (s.tasks[t].phase.Publishing? || s.tasks[t].phase.Waiting?) && s.tasks[t].channel.Open?
    requires CleanUpOutcome(s.tasks[u].phase).Some?
    ensures !AllHeard(DoCleanUp(s, u))
  {
    var s' := DoCleanUp(s, u);
    assert !Heard(s'.tasks[t], t, s'.state.pending);
  }

  /** An outstanding request with the id of a registered listener can still take it down. */
  lemma ClashHurtsListener(s: System, t: Task, u: Task) returns (actions: seq<Action>)
    requires Inv(s) && AllHeard(s)
    requires t in s.tasks && u in s.tasks && t != u
    requires (s.tasks[t].phase.Publishing? || s.tasks[t].phase.Waiting?) && s.tasks[t].channel.Open?
    requires Live(s.tasks[u]) && s.tasks[u].id == s.tasks[t].id
    ensures BeginsNone(actions) && !AllHeard(Run(s, actions))
  {
    hide Run, Inv, IncomingMqtt, IncomingTcp, DoBegin;
    assert Heard(s.tasks[t], t, s.state.pending) && Heard(s.tasks[u], u, s.state.pending);
    var p := s.tasks[u].phase;
    if p.Allocated? {
      actions := [Insert(u)];
      RunOne(s, Insert(u));
      var s' := DoInsert(s, u);
      assert !Heard(s'.tasks[t], t, s'.state.pending);
    } else if p.Publishing? || p.Waiting? {
      var first := if p.Publishing? then PublishFail(u) else Timeout(u);
      var s1 := Step(s, first);
      CleanUpTakesDown(s1, t, u);
      actions := [first, CleanUp(u)];
      RunTwo(s, first, CleanUp(u));
    } else {
      CleanUpTakesDown(s, t, u);
      actions := [CleanUp(u)];
      RunOne(s, CleanUp(u));
    }
  }

  lemma RunFrom(s: System, a: Action, actions: seq<Action>)
    ensures Run(s, [a] + actions) == Run(Step(s, a), actions)
    decreases |actions|
  {
    if actions == [] {
      RunOne(s, a);
      assert [a] + actions == [a];
    } else {
      var before := actions[..|actions| - 1];
      RunFrom(s, a, before);
      assert ([a] + actions)[..|actions|] == [a] + before;
    }
  }

  /** A request that has yet to register, with its id already in use, can lose itself or the other. */
  lemma ClashHurts(s: System, t: Task, u: Task) returns (actions: seq<Action>)
    requires Inv(s) && AllHeard(s)
    requires t in s.tasks && u in s.tasks && t != u
    requires CanListen(s.tasks[t]) && Live(s.tasks[u]) && s.tasks[u].id == s.tasks[t].id
    ensures BeginsNone(actions) && !AllHeard(Run(s, actions))
  {
    if s.tasks[t].phase.Allocated? {
      var s1 := Step(s, Insert(t));
      InsertKeepsInv(s, t);
      if AllHeard(s1) {
        assert TaskSound(t, s.tasks[t], s.resolved);
        assert Live(s1.tasks[u]) && s1.tasks[t] == s.tasks[t].(phase := Publishing);
        var rest := ClashHurtsListener(s1, t, u);
        actions := [Insert(t)] + rest;
        RunFrom(s, Insert(t), rest);
      } else {
        actions := [Insert(t)];
        RunOne(s, Insert(t));
      }
    } else {
      actions := ClashHurtsListener(s, t, u);
    }
  }

  /** The exact condition: the requests now in flight all keep their listeners, however they are
      scheduled from here on, if and only if none of them shares the id of one that can still be
      given its reply. */
  lemma ListenersSafeIff(s: System)
    requires Inv(s) && AllHeard(s)
    ensures (forall actions | BeginsNone(actions) :: AllHeard(Run(s, actions))) <==> NoClash(s)
  {
    if NoClash(s) {
      forall actions | BeginsNone(actions)
        ensures AllHeard(Run(s, actions))
      {
        NoneLostLasts(s, actions);
      }
    } else {
      var t, u :| t in s.tasks && u in s.tasks && t != u && CanListen(s.tasks[t]) && Live(s.tasks[u])
                  && s.tasks[t].id == s.tasks[u].id;
      var actions := ClashHurts(s, t, u);
      assert BeginsNone(actions) && !AllHeard(Run(s, actions));
    }
  }

  lemma FrameOfBytes(f: Frame)
    ensures var raw := Layout(f.header) + f.payload;
            |raw| >= HEADER_LEN && Parse(raw[..HEADER_LEN]) == Some(f.header) && raw[HEADER_LEN..] == f.payload
  {
    var raw := Layout(f.header) + f.payload;
    ParseOfLayout(f.header, []);
    assert raw[..HEADER_LEN] == Layout(f.header) + [];
  }

  lemma DeliveryEffect(s: System, t: Task, f: Frame, state: SharedState)
    requires t in s.tasks && s.tasks[t].channel.Open?
    requires f.header.invokeId in state.pending && state.pending[f.header.invokeId] == t
    ensures Receive(s, Match(state, f)).tasks == s.tasks[t := s.tasks[t].(channel := Holding(f))]
  {
  }

  /** What becomes of a well-formed frame: a request goes to the sink, a reply to the future registered under its
      invoke id, if there is one. Over MQTT a reply for another address is dropped. */
  predicate Fate(f: Frame, ours: bool, pending: map<u32, Task>, v: Verdict, pending': map<u32, Task>) {
    var h := f.header;
    if h.stateFlags % 2 == 0 then v == ToSink(f) && pending' == pending
    else if ours && h.invokeId in pending then
      v == Resolved(pending[h.invokeId], f) && pending' == pending - {h.invokeId}
    else v == Dropped && pending' == pending
  }

  lemma FrameFate(s: SharedState, us: NetId, port: u16, f: Frame)
    ensures var raw := Layout(f.header) + f.payload;
            var (m, v) := IncomingMqtt(s, us, port, raw);
            && Fate(f, f.header.targetNetId == us && f.header.targetPort == port, s.pending, v, m.pending)
            && m.counter == s.counter
            && m.routes == if f.header.sourceNetId != us && f.header.sourceNetId !in s.routes
                           then s.routes[f.header.sourceNetId := Mqtt] else s.routes
    ensures var raw := Layout(f.header) + f.payload;
            var (p, v) := IncomingTcp(s, raw);
            && Fate(f, true, s.pending, v, p.pending)
            && p.counter == s.counter && p.routes == s.routes
    ensures forall raw: bytes | |raw| < HEADER_LEN ::
              IncomingMqtt(s, us, port, raw) == (s, Dropped) && IncomingTcp(s, raw) == (s, Dropped)
  {
    hide Layout, Parse;
    FrameOfBytes(f);
  }

  /** A reply addressed to this dispatcher goes to the pending map on either transport. */
  lemma ReplyIsMatched(state: SharedState, us: NetId, port: u16, f: Frame)
    requires IsResponse(f.header) && f.header.targetNetId == us && f.header.targetPort == port
    ensures var raw := Layout(f.header) + f.payload;
            && IncomingTcp(state, raw) == Match(state, f)
            && IncomingMqtt(state, us, port, raw) ==
               Match(if f.header.sourceNetId != us then LearnIfAbsent(state, f.header.sourceNetId, Mqtt) else state, f)
  {
    FrameOfBytes(f);
  }

  /** A reply that arrives for a registered listener is delivered to it, and to no other future. */
  lemma ReplyReachesItsWaiter(s: System, t: Task, f: Frame)
    requires NoneLost(s)
    requires t in s.tasks && (s.tasks[t].phase.Publishing? || s.tasks[t].phase.Waiting?)
    requires s.tasks[t].channel.Open?
    requires f.header.invokeId == s.tasks[t].id && IsResponse(f.header)
    requires f.header.targetNetId == s.us && f.header.targetPort == s.port
    ensures var raw := Layout(f.header) + f.payload;
            && Step(s, MqttFrame(raw)).tasks == s.tasks[t := s.tasks[t].(channel := Holding(f))]
            && Step(s, TcpFrame(raw)).tasks == s.tasks[t := s.tasks[t].(channel := Holding(f))]
  {
    hide IncomingMqtt, IncomingTcp, Layout, Parse, Match;
    ReplyIsMatched(s.state, s.us, s.port, f);
    assert Heard(s.tasks[t], t, s.state.pending);
    DeliveryEffect(s, t, f, s.state);
    DeliveryEffect(s, t, f, LearnIfAbsent(s.state, f.header.sourceNetId, Mqtt));
  }

  // ---------------------------------------------------------------- the clash does happen

  lemma {:induction false} RunConcat(s: System, a: seq<Action>, b: seq<Action>)
    ensures Run(s, a + b) == Run(Run(s, a), b)
    decreases |b|
  {
    if b == [] {
      assert a + b == a;
    } else {
      RunConcat(s, a, b[..|b| - 1]);
      assert (a + b)[..|a + b| - 1] == a + b[..|b| - 1];
    }
  }

  /** A request that fails to publish: it draws an id and leaves nothing behind. */
  function FailedRequest(t: Task, target: NetId): seq<Action> {
    [Begin(t, target), Insert(t), PublishFail(t), CleanUp(t)]
  }

  lemma OpeningEffect(s: System, t: Task, target: NetId)
    requires t !in s.tasks && target in s.state.routes
    requires s.state.counter !in s.state.pending
    ensures Run(s, [Begin(t, target), Insert(t)]) ==
            s.(state := SharedState(s.state.routes, Bump(s.state.counter), s.state.pending[s.state.counter := t]),
               tasks := s.tasks[t := Request(s.state.counter, s.issued, Publishing, Open)],
               issued := s.issued + 1)
  {
    RunTwo(s, Begin(t, target), Insert(t));
    var s1 := DoBegin(s, t, target);
    assert s1.tasks[t := Request(s.state.counter, s.issued, Publishing, Open)]
        == s.tasks[t := Request(s.state.counter, s.issued, Publishing, Open)];
  }

  lemma AbortEffect(s: System, t: Task)
    requires InPhase(s, t, Publishing)
    requires s.tasks[t].id in s.state.pending && s.state.pending[s.tasks[t].id] == t
    ensures Run(s, [PublishFail(t), CleanUp(t)]) ==
            s.(state := s.state.(pending := s.state.pending - {s.tasks[t].id}),
               tasks := s.tasks[t := s.tasks[t].(phase := Finished(PublishError))])
  {
    RunTwo(s, PublishFail(t), CleanUp(t));
    var s1 := Move(s, t, Failed);
    assert s1.tasks[t := s.tasks[t].(phase := Finished(PublishError))]
        == s.tasks[t := s.tasks[t].(phase := Finished(PublishError))];
  }

  lemma SentEffect(s: System, t: Task, target: NetId)
    requires t !in s.tasks && target in s.state.routes
    requires s.state.counter !in s.state.pending
    ensures Run(s, [Begin(t, target), Insert(t), PublishOk(t)]) ==
            s.(state := SharedState(s.state.routes, Bump(s.state.counter), s.state.pending[s.state.counter := t]),
               tasks := s.tasks[t := Request(s.state.counter, s.issued, Waiting, Open)],
               issued := s.issued + 1)
  {
    OpeningEffect(s, t, target);
    var actions := [Begin(t, target), Insert(t), PublishOk(t)];
    assert actions[..2] == [Begin(t, target), Insert(t)];
    var open := Request(s.state.counter, s.issued, Publishing, Open);
    assert s.tasks[t := open][t := open.(phase := Waiting)] == s.tasks[t := open.(phase := Waiting)];
  }

  lemma ReplyEffect(s: System, t: Task, f: Frame)
    requires InPhase(s, t, Waiting) && s.tasks[t].channel.Open? && IsResponse(f.header)
    requires f.header.invokeId in s.state.pending && s.state.pending[f.header.invokeId] == t
    ensures Run(s, [TcpFrame(Layout(f.header) + f.payload), TakeReply(t)]) ==
            s.(state := s.state.(pending := s.state.pending - {f.header.invokeId}),
               tasks := s.tasks[t := s.tasks[t].(phase := Finished(Reply(f)), channel := Holding(f))],
               resolved := s.resolved + [(t, f)])
  {
    hide Layout, Parse;
    RunTwo(s, TcpFrame(Layout(f.header) + f.payload), TakeReply(t));
    FrameOfBytes(f);
    var held := s.tasks[t].(channel := Holding(f));
    var done := held.(phase := Finished(Reply(f)));
    assert s.tasks[t := held][t := done] == s.tasks[t := done];
  }

  lemma TimeoutEffect(s: System, t: Task)
    requires InPhase(s, t, Waiting)
    requires s.tasks[t].id in s.state.pending && s.state.pending[s.tasks[t].id] == t
    ensures Run(s, [Timeout(t), CleanUp(t)]) ==
            s.(state := s.state.(pending := s.state.pending - {s.tasks[t].id}),
               tasks := s.tasks[t := s.tasks[t].(phase := Finished(TimedOut), channel := ReceiverGone)])
  {
    RunTwo(s, Timeout(t), CleanUp(t));
    var r := s.tasks[t].(phase := Finished(TimedOut), channel := ReceiverGone);
    assert Step(s, Timeout(t)).tasks[t := r] == s.tasks[t := r];
  }

  /** A request without a route ends at once and leaves no trace in the shared state; any other draws the next id. */
  lemma NoRouteIff(s: System, t: Task, target: NetId)
    requires t !in s.tasks
    ensures var s' := Step(s, Begin(t, target));
            && t in s'.tasks
            && (s'.tasks[t].phase == Finished(NoRoute) <==> target !in s.state.routes)
            && (target !in s.state.routes ==> s'.state == s.state)
            && (target in s.state.routes ==> s'.tasks[t].id == s.state.counter && s'.state.pending == s.state.pending)
  {
  }

  /** A request that was sent ends with the reply that comes in under its id, or with a timeout, and either way the
      pending map is as it was before. */
  lemma RequestOutcomes(s: System, t: Task, target: NetId, f: Frame)
    requires t !in s.tasks && target in s.state.routes && s.state.counter !in s.state.pending
    requires IsResponse(f.header) && f.header.invokeId == s.state.counter
    ensures var sent := Run(s, [Begin(t, target), Insert(t), PublishOk(t)]);
            && Run(sent, [TcpFrame(Layout(f.header) + f.payload), TakeReply(t)])
                 == s.(state := s.state.(counter := Bump(s.state.counter)),
                       tasks := s.tasks[t := Request(s.state.counter, s.issued, Finished(Reply(f)), Holding(f))],
                       issued := s.issued + 1, resolved := s.resolved + [(t, f)])
            && Run(sent, [Timeout(t), CleanUp(t)])
                 == s.(state := s.state.(counter := Bump(s.state.counter)),
                       tasks := s.tasks[t := Request(s.state.counter, s.issued, Finished(TimedOut), ReceiverGone)],
                       issued := s.issued + 1)
  {
    hide Step, Run;
    var id := s.state.counter;
    var open := Request(id, s.issued, Waiting, Open);
    var sent := s.(state := SharedState(s.state.routes, Bump(id), s.state.pending[id := t]),
                   tasks := s.tasks[t := open], issued := s.issued + 1);
    SentEffect(s, t, target);
    assert s.state.pending[id := t] - {id} == s.state.pending;
    ReplyEffect(sent, t, f);
    TimeoutEffect(sent, t);
    assert sent.tasks[t := open.(phase := Finished(TimedOut), channel := ReceiverGone)]
        == s.tasks[t := Request(id, s.issued, Finished(TimedOut), ReceiverGone)];
    assert sent.tasks[t := open.(phase := Finished(Reply(f)), channel := Holding(f))]
        == s.tasks[t := Request(id, s.issued, Finished(Reply(f)), Holding(f))];
  }

  lemma FailedRequestEffect(s: System, t: Task, target: NetId)
    requires t !in s.tasks && target in s.state.routes
    requires s.state.counter !in s.state.pending
    ensures Run(s, FailedRequest(t, target)) ==
            s.(state := s.state.(counter := Bump(s.state.counter)),
               tasks := s.tasks[t := Request(s.state.counter, s.issued, Finished(PublishError), Open)],
               issued := s.issued + 1)
  {
    var first, second := [Begin(t, target), Insert(t)], [PublishFail(t), CleanUp(t)];
    OpeningEffect(s, t, target);
    AbortEffect(Run(s, first), t);
    RunConcat(s, first, second);
    assert FailedRequest(t, target) == first + second;
    assert s.state.pending[s.state.counter := t] - {s.state.counter} == s.state.pending;
  }

  function FailedRequests(n: nat, target: NetId): seq<Action> {
    if n == 0 then [] else FailedRequests(n - 1, target) + FailedRequest(n, target)
  }

  /** From `s`, where request 0 is registered, `n` further requests have come and gone. */
  predicate AfterFailures(s: System, n: nat, s': System) {
    && s'.state == s.state.(counter := NthId(n + 1))
    && s'.issued == n + 1
    && 0 in s.tasks && 0 in s'.tasks && s'.tasks[0] == s.tasks[0]
    && (forall k | k in s'.tasks :: k <= n && (k != 0 ==> s'.tasks[k].phase == Finished(PublishError)))
  }

  lemma OneMoreFailure(s: System, n: nat, s': System, target: NetId)
    requires target in s.state.routes && s.state.pending == map[NthId(0) := 0]
    requires 0 < n < WRAP && AfterFailures(s, n - 1, s')
    ensures AfterFailures(s, n, Run(s', FailedRequest(n, target)))
  {
    NthIdWindow(0, n);
    FailedRequestEffect(s', n, target);
  }

  /** `n` failed requests turn the counter by `n` and disturb nobody. */
  lemma {:induction false} FailedRequestsEffect(s: System, n: nat, target: NetId)
    requires target in s.state.routes && s.state.pending == map[NthId(0) := 0]
    requires AfterFailures(s, 0, s)
    requires n < WRAP
    ensures AfterFailures(s, n, Run(s, FailedRequests(n, target)))
  {
    if n > 0 {
      FailedRequestsEffect(s, n - 1, target);
      OneMoreFailure(s, n, Run(s, FailedRequests(n - 1, target)), target);
      RunConcat(s, FailedRequests(n - 1, target), FailedRequest(n, target));
    }
  }

  /** The no-wrap condition cannot be dropped: from a fresh dispatcher, with one slow request and
      2^32 - 1 others that fail while it waits, the next request draws the slow one's id. */
  lemma WrapIsReachable(us: NetId, port: u16, target: NetId) returns (actions: seq<Action>)
    ensures var s := Run(Init(us, port), actions);
            Inv(s) && AllHeard(s) && !NoClash(s) && !NoWrap(Init(us, port), actions)
  {
    var s0 := Init(us, port);
    var route := [SetRoute(target, Mqtt)];
    var opening := route + [Begin(0, target), Insert(0)];
    RunOne(s0, route[0]);
    OpeningEffect(Run(s0, route), 0, target);
    RunConcat(s0, route, [Begin(0, target), Insert(0)]);
    var s1 := Run(s0, opening);
    var burn := FailedRequests(WRAP - 1, target);
    FailedRequestsEffect(s1, WRAP - 1, target);
    RunConcat(s0, opening, burn);
    var s2 := Run(s0, opening + burn);
    actions := opening + burn + [Begin(WRAP, target)];
    RunConcat(s0, opening + burn, [Begin(WRAP, target)]);
    RunOne(s2, Begin(WRAP, target));
    RunKeepsInv(us, port, actions);
    var s3 := Run(s0, actions);
    assert s3.tasks[WRAP].id == s3.tasks[0].id && CanListen(s3.tasks[WRAP]) && Live(s3.tasks[0]);
    assert actions[..|actions| - 1] == opening + burn;
  }
}
