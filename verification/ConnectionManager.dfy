/** Admission control of `ConnectionManager` (crates/tc-otel-ads/src/connection_manager.rs).

    `SharedState` is the value of the semaphore, the per-IP table and the atomics; the class
    `ConnectionManager` holds them as an object. Each function on `SharedState` is one atomic or
    locked section. `System` runs any number of connection attempts through these sections in any
    order. Time is a count of nanoseconds that never goes back. */
module ConnectionManager {
  import opened Bytes

  datatype Ip = V4(address: u32) | V6(high: u64, low: u64)

  const SECOND: nat := 1_000_000_000

  /** Upper bound a tokio semaphore puts on its permits. */
  const MAX_PERMITS: nat := 0x1FFF_FFFF_FFFF_FFFF

  datatype Config = Config(maxConnections: nat, maxPerIp: nat, ratePerSec: nat)

  datatype Rejection =
    | MaxConnectionsReached
    | PerIpLimitReached(ip: Ip, current: nat)
    | RateLimitExceeded(ip: Ip)
    | ShuttingDown

  datatype IpState = IpState(active: nat, stamps: seq<nat>)

  datatype SharedState = SharedState(
    free: nat,
    ips: map<Ip, IpState>,
    active: u64,
    shuttingDown: bool,
    accepted: u64,
    rejected: u64)

  function WrapAdd(x: u64): u64 {
    if x == 0xFFFF_FFFF_FFFF_FFFF then 0 else x + 1
  }

  function WrapSub(x: u64): u64 {
    if x == 0 then 0xFFFF_FFFF_FFFF_FFFF else x - 1
  }

  /** `now.duration_since(ts)`, which saturates at zero. */
  function Age(now: nat, ts: nat): nat {
    if ts <= now then now - ts else 0
  }

  /** `prune_timestamps`: what is less than a second old. */
  function Recent(stamps: seq<nat>, now: nat): seq<nat> {
    if stamps == [] then []
    else (if Age(now, stamps[0]) < SECOND then [stamps[0]] else []) + Recent(stamps[1..], now)
  }

  lemma {:induction false} RecentAppend(stamps: seq<nat>, x: nat, now: nat)
    ensures Recent(stamps + [x], now) == Recent(stamps, now) + (if Age(now, x) < SECOND then [x] else [])
  {
    if stamps == [] {
      assert stamps + [x] == [x];
    } else {
      assert (stamps + [x])[1..] == stamps[1..] + [x];
      RecentAppend(stamps[1..], x, now);
    }
  }

  lemma NoneRecent(now: nat)
    ensures Recent([], now) == []
  {
  }

  function Reject(s: SharedState): SharedState {
    s.(rejected := WrapAdd(s.rejected))
  }

  function IpStateOf(s: SharedState, ip: Ip): IpState {
    if ip in s.ips then s.ips[ip] else IpState(0, [])
  }

  /** The section of `try_acquire` under the per-IP lock. */
  function Admit(cfg: Config, s: SharedState, ip: Ip, now: nat): (SharedState, Option<Rejection>) {
    var st := IpStateOf(s, ip);
    if st.active >= cfg.maxPerIp then
      (Reject(s).(ips := s.ips[ip := st]), Some(PerIpLimitReached(ip, st.active)))
    else
      var recent := Recent(st.stamps, now);
      if |recent| >= cfg.ratePerSec then
        (Reject(s).(ips := s.ips[ip := st.(stamps := recent)]), Some(RateLimitExceeded(ip)))
      else
        (s.(ips := s.ips[ip := IpState(st.active + 1, recent + [now])]), None)
  }

  function CountIn(s: SharedState): SharedState {
    s.(active := WrapAdd(s.active), accepted := WrapAdd(s.accepted))
  }

  /** The locked section of `Drop for ConnectionPermit`. */
  function ForgetIp(s: SharedState, ip: Ip): SharedState {
    if ip !in s.ips then s
    else
      var st := s.ips[ip];
      var n := if st.active == 0 then 0 else st.active - 1;
      if n == 0 && st.stamps == [] then s.(ips := s.ips - {ip})
      else s.(ips := s.ips[ip := st.(active := n)])
  }

  function CountOut(s: SharedState): SharedState {
    s.(active := WrapSub(s.active))
  }

  function GiveBack(s: SharedState): SharedState {
    s.(free := s.free + 1)
  }

  datatype Attempted = Permit(ip: Ip) | Rejected(why: Rejection)

  /** `try_acquire` when nothing else runs in between. */
  function TryAcquireAlone(cfg: Config, s: SharedState, ip: Ip, now: nat): (SharedState, Attempted) {
    if s.shuttingDown then (Reject(s), Rejected(ShuttingDown))
    else if s.free == 0 then (Reject(s), Rejected(MaxConnectionsReached))
    else
      var (s1, refusal) := Admit(cfg, s.(free := s.free - 1), ip, now);
      if refusal.Some? then (GiveBack(s1), Rejected(refusal.value)) else (CountIn(s1), Permit(ip))
  }

  /** Dropping a permit when nothing else runs in between. */
  function DropAlone(s: SharedState, ip: Ip): SharedState {
    GiveBack(CountOut(ForgetIp(s, ip)))
  }

  class ConnectionManager {
    const cfg: Config
    var free: nat
    var ips: map<Ip, IpState>
    var active: u64
    var shuttingDown: bool
    var accepted: u64
    var rejected: u64

    function Snapshot(): SharedState
      reads this
    {
      SharedState(free, ips, active, shuttingDown, accepted, rejected)
    }

    constructor (cfg: Config)
      ensures this.cfg == cfg
      ensures Snapshot() == SharedState(cfg.maxConnections, map[], 0, false, 0, 0)
    {
      this.cfg := cfg;
      free := cfg.maxConnections;
      ips := map[];
      active := 0;
      shuttingDown := false;
      accepted := 0;
      rejected := 0;
    }

    /** `retain` on the timestamps. */
    static method PruneTimestamps(stamps: seq<nat>, now: nat) returns (kept: seq<nat>)
      ensures kept == Recent(stamps, now)
    {
      hide Recent;
      kept := [];
      NoneRecent(now);
      for i := 0 to |stamps|
        invariant kept == Recent(stamps[..i], now)
      {
        RecentAppend(stamps[..i], stamps[i], now);
        assert stamps[..i + 1] == stamps[..i] + [stamps[i]];
        if Age(now, stamps[i]) < SECOND {
          kept := kept + [stamps[i]];
        }
      }
      assert stamps[..|stamps|] == stamps;
    }

    method RejectOne()
      modifies this`rejected
      ensures Snapshot() == Reject(old(Snapshot()))
    {
      rejected := WrapAdd(rejected);
    }

    method AdmitLocked(ip: Ip, now: nat) returns (refusal: Option<Rejection>)
      modifies this`ips, this`rejected
      ensures (Snapshot(), refusal) == Admit(cfg, old(Snapshot()), ip, now)
    {
      if ip !in ips {
        ips := ips[ip := IpState(0, [])];
      }
      var st := ips[ip];
      if st.active >= cfg.maxPerIp {
        RejectOne();
        assert ips == old(ips)[ip := st];
        return Some(PerIpLimitReached(ip, st.active));
      }
      var recent := PruneTimestamps(st.stamps, now);
      ips := ips[ip := st.(stamps := recent)];
      if |recent| >= cfg.ratePerSec {
        RejectOne();
        assert ips == old(ips)[ip := st.(stamps := recent)];
        return Some(RateLimitExceeded(ip));
      }
      ips := ips[ip := IpState(st.active + 1, recent + [now])];
      assert ips == old(ips)[ip := IpState(st.active + 1, recent + [now])];
      return None;
    }

    method TryAcquire(ip: Ip, now: nat) returns (r: Attempted)
      modifies this
      ensures (Snapshot(), r) == TryAcquireAlone(cfg, old(Snapshot()), ip, now)
    {
      if shuttingDown {
        RejectOne();
        return Rejected(ShuttingDown);
      }
      if free == 0 {
        RejectOne();
        return Rejected(MaxConnectionsReached);
      }
      free := free - 1;
      var refusal := AdmitLocked(ip, now);
      if refusal.Some? {
        free := free + 1;
        return Rejected(refusal.value);
      }
      active := WrapAdd(active);
      accepted := WrapAdd(accepted);
      return Permit(ip);
    }

    method DropPermit(ip: Ip)
      modifies this
      ensures Snapshot() == DropAlone(old(Snapshot()), ip)
    {
      if ip in ips {
        var st := ips[ip];
        var n := if st.active == 0 then 0 else st.active - 1;
        ips := ips[ip := st.(active := n)];
        if n == 0 && st.stamps == [] {
          ips := ips - {ip};
          assert ips == old(ips) - {ip};
        }
      }
      active := WrapSub(active);
      free := free + 1;
    }

    method Shutdown()
      modifies this`shuttingDown
      ensures Snapshot() == old(Snapshot()).(shuttingDown := true)
    {
      shuttingDown := true;
    }
  }

  // ---------------------------------------------------------------- interleavings

  /** Where a connection attempt is. */
  datatype Phase =
    | Checked(ip: Ip)      // passed the shutdown check
    | Permitted(ip: Ip)    // took a semaphore permit
    | Recorded(ip: Ip)     // admitted under the lock, not yet in `active_count`
    | Held(ip: Ip)         // the caller owns the permit
    | Releasing(ip: Ip)    // drop left the per-IP table
    | Uncounted(ip: Ip)    // drop left `active_count`, the semaphore permit is still out
    | Denied(why: Rejection)   // refused under the lock, the semaphore permit is still out
    | Refused(why: Rejection)
    | Released

  type Attempt = nat

  datatype Admission = Admission(ip: Ip, at: nat)

  /** `log` lists every admission ever made, oldest first. */
  datatype System = System(
    cfg: Config,
    state: SharedState,
    attempts: map<Attempt, Phase>,
    now: nat,
    log: seq<Admission>)

  datatype Action =
    | Start(attempt: Attempt, ip: Ip)
    | TakePermit(attempt: Attempt)
    | Lock(attempt: Attempt)
    | Count(attempt: Attempt)
    | Drop(attempt: Attempt)
    | Uncount(attempt: Attempt)
    | Return(attempt: Attempt)
    | Shutdown
    | Tick(elapsed: nat)

  function Init(cfg: Config, now: nat): System {
    System(cfg, SharedState(cfg.maxConnections, map[], 0, false, 0, 0), map[], now, [])
  }

  function Go(s: System, t: Attempt, p: Phase, state: SharedState): System {
    s.(attempts := s.attempts[t := p], state := state)
  }

  function DoStart(s: System, t: Attempt, ip: Ip): System {
    if t in s.attempts then s
    else if s.state.shuttingDown then Go(s, t, Refused(ShuttingDown), Reject(s.state))
    else Go(s, t, Checked(ip), s.state)
  }

  function DoTakePermit(s: System, t: Attempt): System {
    if t !in s.attempts || !s.attempts[t].Checked? then s
    else if s.state.free == 0 then Go(s, t, Refused(MaxConnectionsReached), Reject(s.state))
    else Go(s, t, Permitted(s.attempts[t].ip), s.state.(free := s.state.free - 1))
  }

  function DoLock(s: System, t: Attempt): System {
    if t !in s.attempts || !s.attempts[t].Permitted? then s
    else
      var ip := s.attempts[t].ip;
      var (state, refusal) := Admit(s.cfg, s.state, ip, s.now);
      if refusal.Some? then Go(s, t, Denied(refusal.value), state)
      else Go(s, t, Recorded(ip), state).(log := s.log + [Admission(ip, s.now)])
  }

  function DoReturn(s: System, t: Attempt): System {
    if t !in s.attempts then s
    else match s.attempts[t]
      case Denied(why) => Go(s, t, Refused(why), GiveBack(s.state))
      case Uncounted(_) => Go(s, t, Released, GiveBack(s.state))
      case _ => s
  }

  function Step(s: System, a: Action): System {
    match a
    case Start(t, ip) => DoStart(s, t, ip)
    case TakePermit(t) => DoTakePermit(s, t)
    case Lock(t) => DoLock(s, t)
    case Count(t) =>
      if t in s.attempts && s.attempts[t].Recorded?
      then Go(s, t, Held(s.attempts[t].ip), CountIn(s.state)) else s
    case Drop(t) =>
      if t in s.attempts && s.attempts[t].Held?
      then Go(s, t, Releasing(s.attempts[t].ip), ForgetIp(s.state, s.attempts[t].ip)) else s
    case Uncount(t) =>
      if t in s.attempts && s.attempts[t].Releasing?
      then Go(s, t, Uncounted(s.attempts[t].ip), CountOut(s.state)) else s
    case Return(t) => DoReturn(s, t)
    case Shutdown => s.(state := s.state.(shuttingDown := true))
    case Tick(elapsed) => s.(now := s.now + elapsed)
  }

  function Run(s: System, actions: seq<Action>): System
    decreases |actions|
  {
    if actions == [] then s
    else Step(Run(s, actions[..|actions| - 1]), actions[|actions| - 1])
  }

  lemma RunOneMore(s: System, actions: seq<Action>, a: Action)
    ensures Run(s, actions + [a]) == Step(Run(s, actions), a)
  {
    assert (actions + [a])[..|actions|] == actions;
  }

  lemma RunThree(s: System, a: Action, b: Action, c: Action)
    ensures Run(s, [a, b, c]) == Step(Step(Step(s, a), b), c)
  {
    RunOneMore(s, [], a);
    RunOneMore(s, [] + [a], b);
    RunOneMore(s, [] + [a] + [b], c);
    assert [a, b, c] == [] + [a] + [b] + [c];
  }

  lemma RunFive(s: System, a: Action, b: Action, c: Action, d: Action, e: Action)
    ensures Run(s, [a, b, c, d, e]) == Step(Step(Step(Step(Step(s, a), b), c), d), e)
  {
    RunThree(s, a, b, c);
    RunOneMore(s, [a, b, c], d);
    RunOneMore(s, [a, b, c] + [d], e);
    assert [a, b, c, d, e] == [a, b, c] + [d] + [e];
  }

  /** From the lock on: the attempt is admitted and counted, or gives its permit back. */
  lemma LockAlone(s: System, t: Attempt)
    requires t in s.attempts && s.attempts[t].Permitted?
    ensures var ip := s.attempts[t].ip;
            var (state, refusal) := Admit(s.cfg, s.state, ip, s.now);
            var s' := Step(Step(Step(s, Lock(t)), Count(t)), Return(t));
            && s'.state == (if refusal.Some? then GiveBack(state) else CountIn(state))
            && s'.attempts == s.attempts[t := if refusal.Some? then Refused(refusal.value) else Held(ip)]
  {
    var ip := s.attempts[t].ip;
    var (state, refusal) := Admit(s.cfg, s.state, ip, s.now);
    var s1 := Step(s, Lock(t));
    if refusal.Some? {
      assert s1 == Go(s, t, Denied(refusal.value), state);
      assert Step(s1, Count(t)) == s1;
    } else {
      assert s1 == Go(s, t, Recorded(ip), state).(log := s.log + [Admission(ip, s.now)]);
      var s2 := Step(s1, Count(t));
      assert s2 == Go(s1, t, Held(ip), CountIn(state));
      assert Step(s2, Return(t)) == s2;
    }
  }

  lemma Overwrite(attempts: map<Attempt, Phase>, t: Attempt, p: Phase, q: Phase)
    ensures attempts[t := p][t := q] == attempts[t := q]
  {
  }

  /** Up to the lock. */
  lemma OpeningAlone(s: System, t: Attempt, ip: Ip)
    requires t !in s.attempts
    ensures Step(Step(s, Start(t, ip)), TakePermit(t)) ==
            if s.state.shuttingDown then Go(s, t, Refused(ShuttingDown), Reject(s.state))
            else if s.state.free == 0 then Go(s, t, Refused(MaxConnectionsReached), Reject(s.state))
            else Go(s, t, Permitted(ip), s.state.(free := s.state.free - 1))
  {
    Overwrite(s.attempts, t, Checked(ip), Refused(MaxConnectionsReached));
    Overwrite(s.attempts, t, Checked(ip), Permitted(ip));
  }

  /** The object's `TryAcquire` is the run of one attempt that nobody interrupts. */
  lemma AloneIsARun(s: System, t: Attempt, ip: Ip)
    requires t !in s.attempts
    ensures var s' := Run(s, [Start(t, ip), TakePermit(t), Lock(t), Count(t), Return(t)]);
            var (state, r) := TryAcquireAlone(s.cfg, s.state, ip, s.now);
            && s'.state == state
            && s'.attempts == s.attempts[t := if r.Permit? then Held(ip) else Refused(r.why)]
  {
    hide Step, Run, Admit, Reject, GiveBack, CountIn;
    RunFive(s, Start(t, ip), TakePermit(t), Lock(t), Count(t), Return(t));
    OpeningAlone(s, t, ip);
    var s2 := Step(Step(s, Start(t, ip)), TakePermit(t));
    if s2.attempts[t].Permitted? {
      LockAlone(s2, t);
      var refusal := Admit(s2.cfg, s2.state, ip, s2.now).1;
      Overwrite(s.attempts, t, Permitted(ip), if refusal.Some? then Refused(refusal.value) else Held(ip));
    } else {
      RefusedStays(s2, t);
    }
  }

  lemma RefusedStays(s: System, t: Attempt)
    requires t in s.attempts && s.attempts[t].Refused?
    ensures Step(Step(Step(s, Lock(t)), Count(t)), Return(t)) == s
  {
  }

  /** The object's `DropPermit` is the run of one drop that nobody interrupts. */
  lemma DropAloneIsARun(s: System, t: Attempt)
    requires t in s.attempts && s.attempts[t].Held?
    ensures Run(s, [Drop(t), Uncount(t), Return(t)]).state == DropAlone(s.state, s.attempts[t].ip)
  {
    RunThree(s, Drop(t), Uncount(t), Return(t));
  }

  /** A permit is out of the semaphore. */
  predicate HoldsPermit(p: Phase) {
    p.Permitted? || p.Recorded? || p.Held? || p.Releasing? || p.Uncounted? || p.Denied?
  }

  /** Included in `active_count`. */
  predicate IsCounted(p: Phase) {
    p.Held? || p.Releasing?
  }

  /** Admitted for `ip` and not yet released. */
  predicate Occupies(p: Phase, ip: Ip) {
    p == Recorded(ip) || p == Held(ip)
  }

  function Holders(s: System): set<Attempt> {
    set t | t in s.attempts && HoldsPermit(s.attempts[t])
  }

  function Counted(s: System): set<Attempt> {
    set t | t in s.attempts && IsCounted(s.attempts[t])
  }

  function Occupants(s: System, ip: Ip): set<Attempt> {
    set t | t in s.attempts && Occupies(s.attempts[t], ip)
  }

  function Join(b: bool, xs: set<Attempt>, t: Attempt): set<Attempt> {
    if b then xs + {t} else xs - {t}
  }

  /** How the three head counts change when one attempt changes phase. */
  lemma GoCounts(s: System, t: Attempt, p: Phase, state: SharedState)
    ensures Holders(Go(s, t, p, state)) == Join(HoldsPermit(p), Holders(s), t)
    ensures Counted(Go(s, t, p, state)) == Join(IsCounted(p), Counted(s), t)
    ensures forall ip :: Occupants(Go(s, t, p, state), ip) == Join(Occupies(p, ip), Occupants(s, ip), t)
  {
  }

  lemma JoinSize(b: bool, xs: set<Attempt>, t: Attempt)
    ensures |Join(b, xs, t)| == |xs| + (if b then 1 else 0) - (if t in xs then 1 else 0)
  {
    if t in xs {
      assert b ==> Join(b, xs, t) == xs;
      assert !b ==> |xs - {t}| == |xs| - 1;
    } else {
      assert b ==> |xs + {t}| == |xs| + 1;
      assert !b ==> xs - {t} == xs;
    }
  }

  predicate PermitsConserved(s: System) {
    s.state.free + |Holders(s)| == s.cfg.maxConnections
  }

  predicate ActiveIsCounted(s: System) {
    s.state.active == |Counted(s)|
  }

  predicate IpSound(s: System, ip: Ip) {
    var st := IpStateOf(s.state, ip);
    && st.active == |Occupants(s, ip)|
    && st.active <= s.cfg.maxPerIp
    && (st.active > 0 ==> st.stamps != [] && s.cfg.ratePerSec > 0)
  }

  ghost predicate IpsSound(s: System) {
    forall ip :: IpSound(s, ip)
  }

  ghost predicate Inv(s: System) {
    s.cfg.maxConnections <= MAX_PERMITS && PermitsConserved(s) && ActiveIsCounted(s) && IpsSound(s)
  }

  lemma CountedHold(s: System)
    ensures Counted(s) <= Holders(s) && |Counted(s)| <= |Holders(s)|
  {
    assert Holders(s) == Counted(s) + (Holders(s) - Counted(s));
  }

  /** The head counts after a change of phase, as numbers. */
  lemma GoSizes(s: System, t: Attempt, p: Phase, state: SharedState, ip: Ip)
    requires t in s.attempts
    ensures var s' := Go(s, t, p, state); var q := s.attempts[t];
            && |Holders(s')| == |Holders(s)| + (if HoldsPermit(p) then 1 else 0) - (if HoldsPermit(q) then 1 else 0)
            && |Counted(s')| == |Counted(s)| + (if IsCounted(p) then 1 else 0) - (if IsCounted(q) then 1 else 0)
            && |Occupants(s', ip)| ==
               |Occupants(s, ip)| + (if Occupies(p, ip) then 1 else 0) - (if Occupies(q, ip) then 1 else 0)
  {
    GoCounts(s, t, p, state);
    JoinSize(HoldsPermit(p), Holders(s), t);
    JoinSize(IsCounted(p), Counted(s), t);
    JoinSize(Occupies(p, ip), Occupants(s, ip), t);
  }

  /** The table entry of `ip` follows a change of phase from `q` to `p`. */
  predicate IpFollows(s: System, q: Phase, p: Phase, state: SharedState, ip: Ip) {
    var st := IpStateOf(state, ip);
    && st.active == IpStateOf(s.state, ip).active + (if Occupies(p, ip) then 1 else 0)
                        - (if Occupies(q, ip) then 1 else 0)
    && st.active <= s.cfg.maxPerIp
    && (st.active > 0 ==> st.stamps != [] && s.cfg.ratePerSec > 0)
  }

  /** A change of phase that moves the three counters along keeps the invariant. */
  lemma GoKeepsInv(s: System, t: Attempt, p: Phase, state: SharedState)
    requires Inv(s) && t in s.attempts
    requires var q := s.attempts[t];
             && state.free == s.state.free - (if HoldsPermit(p) then 1 else 0) + (if HoldsPermit(q) then 1 else 0)
             && state.active == s.state.active + (if IsCounted(p) then 1 else 0) - (if IsCounted(q) then 1 else 0)
    requires forall ip :: IpFollows(s, s.attempts[t], p, state, ip)
    ensures Inv(Go(s, t, p, state))
  {
    forall ip
      ensures IpSound(Go(s, t, p, state), ip)
    {
      GoSizes(s, t, p, state, ip);
      assert IpSound(s, ip) && IpFollows(s, s.attempts[t], p, state, ip);
    }
    GoSizes(s, t, p, state, V4(0));
  }

  lemma StartKeepsInv(s: System, t: Attempt, ip: Ip)
    requires Inv(s)
    ensures Inv(DoStart(s, t, ip))
  {
    var s' := DoStart(s, t, ip);
    if t !in s.attempts {
      assert Holders(s') == Holders(s) && Counted(s') == Counted(s);
      forall i
        ensures IpSound(s', i)
      {
        assert Occupants(s', i) == Occupants(s, i);
        assert IpSound(s, i);
      }
    }
  }

  /** The per-IP table is not touched, and `p` and `q` agree on whether they occupy it. */
  lemma SameTableKeepsInv(s: System, t: Attempt, p: Phase, state: SharedState)
    requires Inv(s) && t in s.attempts && state.ips == s.state.ips
    requires var q := s.attempts[t];
             && state.free == s.state.free - (if HoldsPermit(p) then 1 else 0) + (if HoldsPermit(q) then 1 else 0)
             && state.active == s.state.active + (if IsCounted(p) then 1 else 0) - (if IsCounted(q) then 1 else 0)
    requires forall ip :: Occupies(p, ip) <==> Occupies(s.attempts[t], ip)
    ensures Inv(Go(s, t, p, state))
  {
    forall i
      ensures IpFollows(s, s.attempts[t], p, state, i)
    {
      assert IpSound(s, i);
    }
    GoKeepsInv(s, t, p, state);
  }

  lemma TakePermitKeepsInv(s: System, t: Attempt)
    requires Inv(s)
    ensures Inv(DoTakePermit(s, t))
  {
    if t in s.attempts && s.attempts[t].Checked? {
      SameTableKeepsInv(s, t, DoTakePermit(s, t).attempts[t], DoTakePermit(s, t).state);
    }
  }

  lemma LockKeepsInv(s: System, t: Attempt)
    requires Inv(s)
    ensures Inv(DoLock(s, t))
  {
    if t in s.attempts && s.attempts[t].Permitted? {
      var ip := s.attempts[t].ip;
      var (state, refusal) := Admit(s.cfg, s.state, ip, s.now);
      var p := if refusal.Some? then Denied(refusal.value) else Recorded(ip);
      forall i
        ensures IpFollows(s, s.attempts[t], p, state, i)
      {
        assert IpSound(s, i);
      }
      GoKeepsInv(s, t, p, state);
      LogIsAside(Go(s, t, p, state), s.log + [Admission(ip, s.now)], s.now);
    }
  }

  /** Neither the admission log nor the clock takes part in the invariant. */
  lemma LogIsAside(s: System, log: seq<Admission>, now: nat)
    requires Inv(s)
    ensures Inv(s.(log := log, now := now))
  {
    var s' := s.(log := log, now := now);
    assert Holders(s') == Holders(s) && Counted(s') == Counted(s);
    forall i
      ensures IpSound(s', i)
    {
      assert Occupants(s', i) == Occupants(s, i) && IpSound(s, i);
    }
  }

  /** The decrements of a drop never meet a zero. */
  lemma DropNeverUnderflows(s: System, t: Attempt)
    requires Inv(s) && t in s.attempts
    ensures s.attempts[t].Held? ==> IpStateOf(s.state, s.attempts[t].ip).active > 0
    ensures s.attempts[t].Releasing? ==> s.state.active > 0
    ensures HoldsPermit(s.attempts[t]) ==> s.state.free < s.cfg.maxConnections
  {
    if s.attempts[t].Held? {
      var ip := s.attempts[t].ip;
      assert t in Occupants(s, ip);
      assert IpSound(s, ip);
    }
    if s.attempts[t].Releasing? {
      assert t in Counted(s);
    }
    if HoldsPermit(s.attempts[t]) {
      assert t in Holders(s);
    }
  }

  lemma DropKeepsInv(s: System, t: Attempt)
    requires Inv(s) && t in s.attempts && s.attempts[t].Held?
    ensures Inv(Go(s, t, Releasing(s.attempts[t].ip), ForgetIp(s.state, s.attempts[t].ip)))
  {
    var ip := s.attempts[t].ip;
    DropNeverUnderflows(s, t);
    forall i
      ensures IpFollows(s, s.attempts[t], Releasing(ip), ForgetIp(s.state, ip), i)
    {
      assert IpSound(s, i);
    }
    GoKeepsInv(s, t, Releasing(ip), ForgetIp(s.state, ip));
  }

  lemma CountingKeepsInv(s: System, t: Attempt)
    requires Inv(s) && t in s.attempts
    ensures s.attempts[t].Recorded? ==> Inv(Go(s, t, Held(s.attempts[t].ip), CountIn(s.state)))
    ensures s.attempts[t].Releasing? ==> Inv(Go(s, t, Uncounted(s.attempts[t].ip), CountOut(s.state)))
  {
    CountedHold(s);
    if s.attempts[t].Recorded? {
      SameTableKeepsInv(s, t, Held(s.attempts[t].ip), CountIn(s.state));
    } else if s.attempts[t].Releasing? {
      DropNeverUnderflows(s, t);
      SameTableKeepsInv(s, t, Uncounted(s.attempts[t].ip), CountOut(s.state));
    }
  }

  lemma ReturnKeepsInv(s: System, t: Attempt)
    requires Inv(s)
    ensures Inv(DoReturn(s, t))
  {
    if DoReturn(s, t) != s {
      SameTableKeepsInv(s, t, DoReturn(s, t).attempts[t], GiveBack(s.state));
    }
  }

  lemma StepKeepsInv(s: System, a: Action)
    requires Inv(s)
    ensures Inv(Step(s, a))
  {
    match a
    case Start(t, ip) => StartKeepsInv(s, t, ip);
    case TakePermit(t) => TakePermitKeepsInv(s, t);
    case Lock(t) => LockKeepsInv(s, t);
    case Count(t) => if t in s.attempts { CountingKeepsInv(s, t); }
    case Drop(t) => if t in s.attempts && s.attempts[t].Held? { DropKeepsInv(s, t); }
    case Uncount(t) => if t in s.attempts { CountingKeepsInv(s, t); }
    case Return(t) => ReturnKeepsInv(s, t);
    case Tick(d) => LogIsAside(s, s.log, s.now + d);
    case Shutdown => ShutdownKeepsInv(s);
  }

  lemma ShutdownKeepsInv(s: System)
    requires Inv(s)
    ensures Inv(s.(state := s.state.(shuttingDown := true)))
  {
    var s' := s.(state := s.state.(shuttingDown := true));
    assert Holders(s') == Holders(s) && Counted(s') == Counted(s);
    forall i
      ensures IpSound(s', i)
    {
      assert Occupants(s', i) == Occupants(s, i) && IpSound(s, i);
    }
  }

  lemma {:induction false} RunKeepsInv(cfg: Config, now: nat, actions: seq<Action>)
    requires cfg.maxConnections <= MAX_PERMITS
    ensures Inv(Run(Init(cfg, now), actions)) && Run(Init(cfg, now), actions).cfg == cfg
  {
    if actions == [] {
      var s := Init(cfg, now);
      assert Holders(s) == {} && Counted(s) == {};
      forall i
        ensures IpSound(s, i)
      {
        assert Occupants(s, i) == {};
      }
    } else {
      RunKeepsInv(cfg, now, actions[..|actions| - 1]);
      StepKeepsInv(Run(Init(cfg, now), actions[..|actions| - 1]), actions[|actions| - 1]);
    }
  }

  /** Over every interleaving: permits are conserved, `active_count` stays within the limit, each IP's
      count is the number of its admitted and not yet released permits and within its limit, and no
      decrement wraps or saturates. */
  lemma EveryRunKeepsTheLimits(cfg: Config, now: nat, actions: seq<Action>)
    requires cfg.maxConnections <= MAX_PERMITS
    ensures var s := Run(Init(cfg, now), actions);
            && s.state.free + |Holders(s)| == cfg.maxConnections
            && s.state.active == |Counted(s)| <= cfg.maxConnections
            && (forall ip :: IpStateOf(s.state, ip).active == |Occupants(s, ip)| <= cfg.maxPerIp)
            && (forall t | t in s.attempts ::
                  && (s.attempts[t].Held? ==> IpStateOf(s.state, s.attempts[t].ip).active > 0)
                  && (s.attempts[t].Releasing? ==> s.state.active > 0))
  {
    RunKeepsInv(cfg, now, actions);
    var s := Run(Init(cfg, now), actions);
    CountedHold(s);
    forall ip
      ensures IpStateOf(s.state, ip).active == |Occupants(s, ip)| <= cfg.maxPerIp
    {
      assert IpSound(s, ip);
    }
    forall t | t in s.attempts
      ensures s.attempts[t].Held? ==> IpStateOf(s.state, s.attempts[t].ip).active > 0
      ensures s.attempts[t].Releasing? ==> s.state.active > 0
    {
      DropNeverUnderflows(s, t);
    }
  }

  lemma StepShrinksNoTable(s: System, a: Action)
    requires Inv(s)
    ensures forall ip | ip in s.state.ips :: ip in Step(s, a).state.ips
  {
    match a
    case Drop(t) =>
      if t in s.attempts && s.attempts[t].Held? {
        DropNeverUnderflows(s, t);
        assert IpSound(s, s.attempts[t].ip);
      }
    case Lock(t) =>
    case Start(_, _) =>
    case TakePermit(_) =>
    case Return(_) =>
    case _ =>
  }

  /** The branch of `drop` that removes an idle IP is never taken: whatever happens, the per-IP table only grows. */
  lemma {:induction false} TableOnlyGrows(cfg: Config, now: nat, first: seq<Action>, actions: seq<Action>)
    requires cfg.maxConnections <= MAX_PERMITS
    ensures forall ip | ip in Run(Init(cfg, now), first).state.ips ::
              ip in Run(Init(cfg, now), first + actions).state.ips
  {
    hide Step;
    if actions == [] {
      assert first + actions == first;
    } else {
      var all, before := first + actions, actions[..|actions| - 1];
      TableOnlyGrows(cfg, now, first, before);
      RunKeepsInv(cfg, now, first + before);
      assert all[..|all| - 1] == first + before && all[|all| - 1] == actions[|actions| - 1];
      StepShrinksNoTable(Run(Init(cfg, now), first + before), actions[|actions| - 1]);
    }
  }

  // ---------------------------------------------------------------- the two totals

  predicate WasAccepted(p: Phase) {
    p.Held? || p.Releasing? || p.Uncounted? || p.Released?
  }

  predicate WasRejected(p: Phase) {
    p.Denied? || p.Refused?
  }

  function Accepted(s: System): set<Attempt> {
    set t | t in s.attempts && WasAccepted(s.attempts[t])
  }

  function RejectedOnes(s: System): set<Attempt> {
    set t | t in s.attempts && WasRejected(s.attempts[t])
  }

  const WRAP64: nat := 0x1_0000_0000_0000_0000

  predicate TotalsExact(s: System) {
    s.state.accepted == |Accepted(s)| % WRAP64 && s.state.rejected == |RejectedOnes(s)| % WRAP64
  }

  lemma TotalFollows(n: nat, x: u64, grows: bool)
    requires x == n % WRAP64
    ensures (if grows then WrapAdd(x) else x) == (n + (if grows then 1 else 0)) % WRAP64
  {
  }

  lemma TotalSizes(s: System, t: Attempt, p: Phase, state: SharedState)
    ensures var s' := Go(s, t, p, state); var known := t in s.attempts;
            && |Accepted(s')| == |Accepted(s)| + (if WasAccepted(p) then 1 else 0)
                                 - (if known && WasAccepted(s.attempts[t]) then 1 else 0)
            && |RejectedOnes(s')| == |RejectedOnes(s)| + (if WasRejected(p) then 1 else 0)
                                     - (if known && WasRejected(s.attempts[t]) then 1 else 0)
  {
    TotalSets(s, t, p, state);
    JoinSize(WasAccepted(p), Accepted(s), t);
    JoinSize(WasRejected(p), RejectedOnes(s), t);
  }

  lemma TotalSets(s: System, t: Attempt, p: Phase, state: SharedState)
    ensures Accepted(Go(s, t, p, state)) == Join(WasAccepted(p), Accepted(s), t)
    ensures RejectedOnes(Go(s, t, p, state)) == Join(WasRejected(p), RejectedOnes(s), t)
  {
  }

  /** An attempt that changes phase once adds to at most one total. */
  lemma GoKeepsTotals(s: System, t: Attempt, p: Phase, state: SharedState)
    requires TotalsExact(s)
    requires t in s.attempts ==>
               && (WasAccepted(s.attempts[t]) ==> WasAccepted(p))
               && (WasRejected(s.attempts[t]) ==> WasRejected(p))
    requires state.accepted == if WasAccepted(p) && !(t in s.attempts && WasAccepted(s.attempts[t]))
                               then WrapAdd(s.state.accepted) else s.state.accepted
    requires state.rejected == if WasRejected(p) && !(t in s.attempts && WasRejected(s.attempts[t]))
                               then WrapAdd(s.state.rejected) else s.state.rejected
    ensures TotalsExact(Go(s, t, p, state))
  {
    TotalSizes(s, t, p, state);
    TotalFollows(|Accepted(s)|, s.state.accepted, WasAccepted(p) && !(t in s.attempts && WasAccepted(s.attempts[t])));
    TotalFollows(|RejectedOnes(s)|, s.state.rejected,
                 WasRejected(p) && !(t in s.attempts && WasRejected(s.attempts[t])));
  }

  lemma AsideKeepsTotals(s: System, s': System)
    requires TotalsExact(s) && s'.attempts == s.attempts
    requires s'.state.accepted == s.state.accepted && s'.state.rejected == s.state.rejected
    ensures TotalsExact(s')
  {
    assert Accepted(s') == Accepted(s) && RejectedOnes(s') == RejectedOnes(s);
  }

  lemma StepKeepsTotals(s: System, a: Action)
    requires TotalsExact(s)
    ensures TotalsExact(Step(s, a))
  {
    var s' := Step(s, a);
    if a.Shutdown? || a.Tick? {
      AsideKeepsTotals(s, s');
    } else if s' != s {
      var t := a.attempt;
      GoKeepsTotals(s, t, s'.attempts[t], s'.state);
      AsideKeepsTotals(Go(s, t, s'.attempts[t], s'.state), s');
    }
  }

  /** Every attempt that has been decided is counted once, as accepted or as rejected. */
  lemma {:induction false} TotalsAreExact(cfg: Config, now: nat, actions: seq<Action>)
    ensures TotalsExact(Run(Init(cfg, now), actions))
  {
    if actions == [] {
      assert Accepted(Init(cfg, now)) == {} && RejectedOnes(Init(cfg, now)) == {};
    } else {
      TotalsAreExact(cfg, now, actions[..|actions| - 1]);
      StepKeepsTotals(Run(Init(cfg, now), actions[..|actions| - 1]), actions[|actions| - 1]);
    }
  }

  // ---------------------------------------------------------------- shutdown

  predicate WasAdmitted(p: Phase) {
    p.Recorded? || WasAccepted(p)
  }

  /** The attempt is past the shutdown check and not refused. */
  predicate PastCheck(p: Phase) {
    p.Checked? || p.Permitted? || WasAdmitted(p)
  }

  lemma StepAdmitsNoNewcomer(s: System, a: Action, t: Attempt)
    requires s.state.shuttingDown
    ensures Step(s, a).state.shuttingDown
    ensures t in Step(s, a).attempts && PastCheck(Step(s, a).attempts[t]) ==>
              t in s.attempts && PastCheck(s.attempts[t])
  {
  }

  /** Whoever is admitted after shutdown had passed the shutdown check before it. */
  lemma {:induction false} ShutdownAdmitsNoNewcomer(s: System, actions: seq<Action>, t: Attempt)
    requires s.state.shuttingDown
    ensures var s' := Run(s, actions);
            && s'.state.shuttingDown
            && (t in s'.attempts && PastCheck(s'.attempts[t]) ==> t in s.attempts && PastCheck(s.attempts[t]))
  {
    if actions != [] {
      ShutdownAdmitsNoNewcomer(s, actions[..|actions| - 1], t);
      StepAdmitsNoNewcomer(Run(s, actions[..|actions| - 1]), actions[|actions| - 1], t);
    }
  }

  // ---------------------------------------------------------------- the rate limit

  /** The admission times of one IP, oldest first. */
  function Times(log: seq<Admission>, ip: Ip): seq<nat> {
    if log == [] then []
    else
      var before := Times(log[..|log| - 1], ip);
      var last := log[|log| - 1];
      if last.ip == ip then before + [last.at] else before
  }

  predicate InOrder(times: seq<nat>, i: nat, j: nat)
    requires i <= j < |times|
  {
    times[i] <= times[j]
  }

  predicate NotAfter(times: seq<nat>, i: nat, now: nat)
    requires i < |times|
  {
    times[i] <= now
  }

  predicate Sorted(times: seq<nat>, now: nat) {
    && (forall i: nat, j: nat | i <= j < |times| :: InOrder(times, i, j))
    && (forall i: nat | i < |times| :: NotAfter(times, i, now))
  }

  predicate Old(times: seq<nat>, i: nat, now: nat)
    requires i < |times|
  {
    Age(now, times[i]) >= SECOND
  }

  /** `stamps` is the end of the history, and everything before it is at least a second old. */
  predicate Kept(times: seq<nat>, stamps: seq<nat>, now: nat) {
    && |stamps| <= |times|
    && stamps == times[|times| - |stamps|..]
    && (forall i: nat | i < |times| - |stamps| :: Old(times, i, now))
  }

  predicate Gap(times: seq<nat>, i: nat, rate: nat)
    requires i + rate < |times|
  {
    times[i + rate] - times[i] >= SECOND
  }

  /** Any `rate` + 1 consecutive admissions span at least a second. */
  predicate Spaced(times: seq<nat>, rate: nat) {
    forall i: nat | i < |times| - rate :: Gap(times, i, rate)
  }

  lemma SortedTail(times: seq<nat>, now: nat)
    requires Sorted(times, now) && times != []
    ensures Sorted(times[1..], now)
  {
    var tail := times[1..];
    forall i: nat, j: nat | i <= j < |tail|
      ensures InOrder(tail, i, j)
    {
      assert InOrder(times, i + 1, j + 1);
    }
    forall i: nat | i < |tail|
      ensures NotAfter(tail, i, now)
    {
      assert NotAfter(times, i + 1, now);
    }
  }

  lemma {:induction false} RecentIsSuffix(times: seq<nat>, now: nat)
    requires Sorted(times, now)
    ensures Kept(times, Recent(times, now), now)
    ensures forall i: nat | |times| - |Recent(times, now)| <= i < |times| :: !Old(times, i, now)
  {
    if times != [] {
      var tail := times[1..];
      var r := Recent(tail, now);
      SortedTail(times, now);
      if Age(now, times[0]) < SECOND {
        AllRecent(times, now);
      } else {
        RecentIsSuffix(tail, now);
        assert Recent(times, now) == r;
        assert tail[|tail| - |r|..] == times[|times| - |r|..];
        forall i: nat | i < |times|
          ensures Old(times, i, now) <==> i < |times| - |r|
        {
          if i > 0 {
            assert Old(tail, i - 1, now) <==> i - 1 < |tail| - |r|;
          }
        }
      }
    }
  }

  /** When the oldest is recent, all are. */
  lemma {:induction false} AllRecent(times: seq<nat>, now: nat)
    requires Sorted(times, now)
    requires times != [] ==> Age(now, times[0]) < SECOND
    ensures Recent(times, now) == times
    ensures forall i: nat | i < |times| :: !Old(times, i, now)
  {
    if times != [] {
      forall i: nat | i < |times|
        ensures !Old(times, i, now)
      {
        assert InOrder(times, 0, i) && NotAfter(times, i, now);
      }
      SortedTail(times, now);
      assert |times| > 1 ==> !Old(times, 1, now);
      AllRecent(times[1..], now);
      assert times == [times[0]] + times[1..];
    }
  }

  /** Pruning the kept part is pruning the whole history. */
  lemma {:induction false} RecentOfKept(times: seq<nat>, stamps: seq<nat>, now: nat)
    requires Kept(times, stamps, now)
    ensures Recent(stamps, now) == Recent(times, now)
  {
    if |stamps| < |times| {
      var tail := times[1..];
      assert tail[|tail| - |stamps|..] == stamps;
      assert Old(times, 0, now);
      forall i: nat | i < |tail| - |stamps|
        ensures Old(tail, i, now)
      {
        assert Old(times, i + 1, now);
      }
      RecentOfKept(tail, stamps, now);
    } else {
      assert stamps == times;
    }
  }

  /** What the timestamps of one IP have to do with its admission history. */
  predicate RateOk(times: seq<nat>, stamps: seq<nat>, now: nat, rate: nat) {
    Sorted(times, now) && Spaced(times, rate) && Kept(times, stamps, now)
  }

  predicate RateSound(s: System, ip: Ip) {
    RateOk(Times(s.log, ip), IpStateOf(s.state, ip).stamps, s.now, s.cfg.ratePerSec)
  }

  lemma KeptLater(times: seq<nat>, stamps: seq<nat>, now: nat, later: nat)
    requires Sorted(times, now) && Kept(times, stamps, now) && now <= later
    ensures Sorted(times, later) && Kept(times, stamps, later)
  {
    forall i: nat | i < |times|
      ensures NotAfter(times, i, later)
    {
      assert NotAfter(times, i, now);
    }
    forall i: nat | i < |times| - |stamps|
      ensures Old(times, i, later)
    {
      assert Old(times, i, now) && NotAfter(times, i, now);
    }
  }

  lemma SortedExtends(times: seq<nat>, now: nat)
    requires Sorted(times, now)
    ensures Sorted(times + [now], now)
  {
    var longer := times + [now];
    forall i: nat, j: nat | i <= j < |longer|
      ensures InOrder(longer, i, j)
    {
      if j < |times| {
        assert InOrder(times, i, j);
      } else if i < |times| {
        assert NotAfter(times, i, now);
      }
    }
    forall i: nat | i < |longer|
      ensures NotAfter(longer, i, now)
    {
      if i < |times| {
        assert NotAfter(times, i, now);
      }
    }
  }

  lemma KeptExtends(times: seq<nat>, now: nat)
    requires Sorted(times, now)
    ensures Kept(times + [now], Recent(times, now) + [now], now)
  {
    RecentIsSuffix(times, now);
    var r, longer := Recent(times, now), times + [now];
    assert longer[|times| - |r|..] == r + [now];
    forall i: nat | i < |longer| - |r + [now]|
      ensures Old(longer, i, now)
    {
      assert Old(times, i, now);
    }
  }

  lemma SpacedExtends(times: seq<nat>, now: nat, rate: nat)
    requires Sorted(times, now) && Spaced(times, rate) && |Recent(times, now)| < rate
    ensures Spaced(times + [now], rate)
  {
    RecentIsSuffix(times, now);
    var longer := times + [now];
    forall i: nat | i < |longer| - rate
      ensures Gap(longer, i, rate)
    {
      if i + rate == |times| {
        assert Old(times, i, now);
      } else {
        assert Gap(times, i, rate);
      }
    }
  }

  /** A full second never holds more than `rate` recent admissions. */
  lemma RecentWithinRate(times: seq<nat>, now: nat, rate: nat)
    requires Sorted(times, now) && Spaced(times, rate)
    ensures |Recent(times, now)| <= rate
  {
    RecentIsSuffix(times, now);
    if rate < |times| {
      var i := |times| - 1 - rate;
      assert Gap(times, i, rate) && NotAfter(times, i + rate, now);
      assert Old(times, i, now);
    }
  }

  lemma TimesOfAppend(log: seq<Admission>, e: Admission, ip: Ip)
    ensures Times(log + [e], ip) == Times(log, ip) + (if e.ip == ip then [e.at] else [])
  {
    assert (log + [e])[..|log|] == log;
  }

  /** The lock section leaves an IP's kept timestamps right, for a refusal and for an admission. */
  lemma AdmitKeepsRate(s: System, ip: Ip)
    requires RateSound(s, ip)
    ensures var (state, refusal) := Admit(s.cfg, s.state, ip, s.now);
            var times := Times(s.log, ip) + (if refusal.None? then [s.now] else []);
            RateOk(times, state.ips[ip].stamps, s.now, s.cfg.ratePerSec)
  {
    var times := Times(s.log, ip);
    var refusal := Admit(s.cfg, s.state, ip, s.now).1;
    assert times + [] == times;
    if refusal.None? || refusal.value.RateLimitExceeded? {
      RecentOfKept(times, IpStateOf(s.state, ip).stamps, s.now);
      RecentIsSuffix(times, s.now);
      if refusal.None? {
        KeptExtends(times, s.now);
        SortedExtends(times, s.now);
        SpacedExtends(times, s.now, s.cfg.ratePerSec);
      }
    }
  }

  /** Nothing that concerns `ip` has changed. */
  lemma SameRate(s: System, s': System, ip: Ip)
    requires RateSound(s, ip)
    requires s'.now == s.now && s'.cfg == s.cfg
    requires Times(s'.log, ip) == Times(s.log, ip)
    requires IpStateOf(s'.state, ip).stamps == IpStateOf(s.state, ip).stamps
    ensures RateSound(s', ip)
  {
  }

  /** What the lock section does to the table and to the log. */
  lemma LockEffect(s: System, t: Attempt)
    requires t in s.attempts && s.attempts[t].Permitted?
    ensures var ip := s.attempts[t].ip;
            var (state, refusal) := Admit(s.cfg, s.state, ip, s.now);
            && DoLock(s, t).state == state && DoLock(s, t).now == s.now && DoLock(s, t).cfg == s.cfg
            && DoLock(s, t).log == (if refusal.None? then s.log + [Admission(ip, s.now)] else s.log)
  {
  }

  lemma LockKeepsOwnRate(s: System, t: Attempt, ip: Ip)
    requires t in s.attempts && s.attempts[t] == Permitted(ip) && RateSound(s, ip)
    ensures RateSound(DoLock(s, t), ip)
  {
    hide DoLock, RateOk, Times, Admit;
    LockEffect(s, t);
    TimesOfAppend(s.log, Admission(ip, s.now), ip);
    AdmitKeepsRate(s, ip);
    assert Times(s.log, ip) + [] == Times(s.log, ip);
    AdmitRecords(s.cfg, s.state, ip, s.now);
  }

  lemma AdmitRecords(cfg: Config, state: SharedState, ip: Ip, now: nat)
    ensures ip in Admit(cfg, state, ip, now).0.ips
    ensures forall other | other != ip :: IpStateOf(Admit(cfg, state, ip, now).0, other) == IpStateOf(state, other)
  {
  }

  lemma LockKeepsOtherRate(s: System, t: Attempt, ip: Ip)
    requires t in s.attempts && s.attempts[t].Permitted? && s.attempts[t].ip != ip && RateSound(s, ip)
    ensures RateSound(DoLock(s, t), ip)
  {
    hide DoLock, RateSound, Times, Admit, IpStateOf;
    LockEffect(s, t);
    TimesOfAppend(s.log, Admission(s.attempts[t].ip, s.now), ip);
    assert Times(s.log, ip) + [] == Times(s.log, ip);
    AdmitRecords(s.cfg, s.state, s.attempts[t].ip, s.now);
    SameRate(s, DoLock(s, t), ip);
  }

  lemma LockKeepsRate(s: System, t: Attempt, ip: Ip)
    requires RateSound(s, ip)
    ensures RateSound(DoLock(s, t), ip)
  {
    hide RateSound, Admit;
    if t in s.attempts && s.attempts[t].Permitted? {
      if s.attempts[t].ip == ip {
        LockKeepsOwnRate(s, t, ip);
      } else {
        LockKeepsOtherRate(s, t, ip);
      }
    }
  }

  lemma ForgetKeepsStamps(state: SharedState, dropped: Ip, ip: Ip)
    ensures IpStateOf(ForgetIp(state, dropped), ip).stamps == IpStateOf(state, ip).stamps
  {
  }

  /** Every step but the locked ones and the clock leaves the timestamps and the log alone. */
  lemma OtherStepsKeepRate(s: System, a: Action, ip: Ip)
    requires RateSound(s, ip)
    requires !a.Lock? && !a.Tick? && !a.Drop?
    ensures RateSound(Step(s, a), ip)
  {
    hide RateSound, Admit, ForgetIp, DoLock;
    var s' := Step(s, a);
    assert s'.log == s.log && s'.state.ips == s.state.ips && s'.now == s.now && s'.cfg == s.cfg;
    SameRate(s, s', ip);
  }

  lemma DropKeepsRate(s: System, t: Attempt, ip: Ip)
    requires RateSound(s, ip)
    ensures RateSound(Step(s, Drop(t)), ip)
  {
    if t in s.attempts && s.attempts[t].Held? {
      ForgetKeepsStamps(s.state, s.attempts[t].ip, ip);
      SameRate(s, Step(s, Drop(t)), ip);
    }
  }

  lemma StepKeepsRate(s: System, a: Action, ip: Ip)
    requires RateSound(s, ip)
    ensures RateSound(Step(s, a), ip) && Step(s, a).cfg == s.cfg
  {
    match a
    case Lock(t) => LockKeepsRate(s, t, ip);
    case Tick(d) => KeptLater(Times(s.log, ip), IpStateOf(s.state, ip).stamps, s.now, s.now + d);
    case Drop(t) => DropKeepsRate(s, t, ip);
    case _ => OtherStepsKeepRate(s, a, ip);
  }

  lemma {:induction false} RunKeepsRate(cfg: Config, now: nat, actions: seq<Action>, ip: Ip)
    ensures RateSound(Run(Init(cfg, now), actions), ip) && Run(Init(cfg, now), actions).cfg == cfg
  {
    if actions == [] {
      assert RateOk([], [], now, cfg.ratePerSec);
    } else {
      RunKeepsRate(cfg, now, actions[..|actions| - 1], ip);
      StepKeepsRate(Run(Init(cfg, now), actions[..|actions| - 1]), actions[|actions| - 1], ip);
    }
  }

  /** Which admissions fall into the second that starts at `from`. */
  function Window(times: seq<nat>, from: nat): set<nat> {
    set i: nat | i < |times| && from <= times[i] < from + SECOND
  }

  lemma {:induction false} Packed(xs: set<nat>, low: nat, n: nat)
    requires forall x | x in xs :: low <= x < low + n
    ensures |xs| <= n
  {
    if n == 0 {
      assert xs == {};
    } else {
      Packed(xs - {low + n - 1}, low, n - 1);
    }
  }

  lemma SpanAtLeast(times: seq<nat>, i: nat, k: nat, rate: nat, now: nat)
    requires Sorted(times, now) && Spaced(times, rate)
    requires i + rate <= k < |times|
    ensures times[k] - times[i] >= SECOND
  {
    assert Gap(times, i, rate) && InOrder(times, i + rate, k);
  }

  lemma SpacedBoundsWindow(times: seq<nat>, from: nat, rate: nat, now: nat)
    requires Sorted(times, now) && Spaced(times, rate)
    ensures |Window(times, from)| <= rate
  {
    var xs := Window(times, from);
    if xs != {} {
      var low := First(xs);
      forall x | x in xs
        ensures low <= x < low + rate
      {
        if low + rate <= x {
          SpanAtLeast(times, low, x, rate, now);
        }
      }
      Packed(xs, low, rate);
    }
  }

  lemma First(xs: set<nat>) returns (low: nat)
    requires xs != {}
    ensures low in xs && forall x | x in xs :: low <= x
  {
    var x :| x in xs;
    low := x;
    assert forall y | y in xs :: y == x || y in xs - {x};
    if xs - {x} != {} {
      var rest := First(xs - {x});
      low := if x < rest then x else rest;
    }
  }

  /** In every run, for every IP, no half-open second holds more admissions than the rate limit. */
  lemma EveryWindowWithinRate(cfg: Config, now: nat, actions: seq<Action>, ip: Ip, from: nat)
    ensures |Window(Times(Run(Init(cfg, now), actions).log, ip), from)| <= cfg.ratePerSec
  {
    RunKeepsRate(cfg, now, actions, ip);
    var s := Run(Init(cfg, now), actions);
    SpacedBoundsWindow(Times(s.log, ip), from, cfg.ratePerSec, s.now);
  }

  /** An attempt below its IP's connection limit is refused for its rate if and only if exactly the
      allowed number of admissions lies in the second before it. */
  lemma RateRefusalIff(cfg: Config, now: nat, actions: seq<Action>, ip: Ip)
    ensures var s := Run(Init(cfg, now), actions);
            IpStateOf(s.state, ip).active < cfg.maxPerIp ==>
              (Admit(cfg, s.state, ip, s.now).1 == Some(RateLimitExceeded(ip)) <==>
               |Recent(Times(s.log, ip), s.now)| == cfg.ratePerSec)
  {
    RunKeepsRate(cfg, now, actions, ip);
    var s := Run(Init(cfg, now), actions);
    RecentOfKept(Times(s.log, ip), IpStateOf(s.state, ip).stamps, s.now);
    RecentWithinRate(Times(s.log, ip), s.now, cfg.ratePerSec);
  }

  /** What the manager keeps is the end of the IP's admission history, so pruning it yields exactly the
      admissions of the last second. */
  lemma StampsAreTheLastSecond(cfg: Config, now: nat, actions: seq<Action>, ip: Ip)
    ensures var s := Run(Init(cfg, now), actions);
            var times, stamps := Times(s.log, ip), IpStateOf(s.state, ip).stamps;
            && |stamps| <= |times| && stamps == times[|times| - |stamps|..]
            && Recent(stamps, s.now) == Recent(times, s.now)
            && var n := |Recent(times, s.now)|;
            && n <= |times| && Recent(times, s.now) == times[|times| - n..]
            && (forall i: nat | i < |times| :: Old(times, i, s.now) <==> i < |times| - n)
  {
    RunKeepsRate(cfg, now, actions, ip);
    var s := Run(Init(cfg, now), actions);
    RecentOfKept(Times(s.log, ip), IpStateOf(s.state, ip).stamps, s.now);
    RecentIsSuffix(Times(s.log, ip), s.now);
  }

  // ---------------------------------------------------------------- every decision

  /** The admissions of `ip` in the last second, by their place in the log. */
  function LastSecond(s: System, ip: Ip): set<nat> {
    AdmittedSince(s.log, ip, s.now)
  }

  function AdmittedSince(log: seq<Admission>, ip: Ip, now: nat): set<nat> {
    set i: nat | i < |log| && log[i].ip == ip && now < log[i].at + SECOND
  }

  lemma {:induction false} RecentCounts(log: seq<Admission>, ip: Ip, now: nat)
    ensures |AdmittedSince(log, ip, now)| == |Recent(Times(log, ip), now)|
  {
    if log == [] {
      assert AdmittedSince(log, ip, now) == {};
    } else {
      var n := |log| - 1;
      RecentCounts(log[..n], ip, now);
      var before := AdmittedSince(log[..n], ip, now);
      if log[n].ip == ip {
        RecentAppend(Times(log[..n], ip), log[n].at, now);
      }
      if log[n].ip == ip && now < log[n].at + SECOND {
        assert AdmittedSince(log, ip, now) == before + {n};
      } else {
        assert AdmittedSince(log, ip, now) == before;
      }
    }
  }

  /** What an attempt for `ip` should be told, judged by who holds a permit and by the history. */
  function Due(s: System, ip: Ip, shutdown: bool): Attempted {
    if shutdown then Rejected(ShuttingDown)
    else if |Holders(s)| == s.cfg.maxConnections then Rejected(MaxConnectionsReached)
    else if |Occupants(s, ip)| >= s.cfg.maxPerIp then Rejected(PerIpLimitReached(ip, |Occupants(s, ip)|))
    else if |LastSecond(s, ip)| >= s.cfg.ratePerSec then Rejected(RateLimitExceeded(ip))
    else Permit(ip)
  }

  lemma {:induction false} ShuttingDownIff(cfg: Config, now: nat, actions: seq<Action>)
    ensures Run(Init(cfg, now), actions).state.shuttingDown <==> Shutdown in actions
  {
    if actions != [] {
      var n := |actions| - 1;
      ShuttingDownIff(cfg, now, actions[..n]);
      OnlyShutdownShuts(Run(Init(cfg, now), actions[..n]), actions[n]);
      assert actions == actions[..n] + [actions[n]];
    }
  }

  lemma OnlyShutdownShuts(s: System, a: Action)
    ensures Step(s, a).state.shuttingDown <==> s.state.shuttingDown || a == Shutdown
  {
  }

  /** The lock section decides by the occupants of the IP and its admissions in the last second. */
  lemma AdmitDecides(cfg: Config, now: nat, actions: seq<Action>, ip: Ip)
    requires cfg.maxConnections <= MAX_PERMITS
    ensures var s := Run(Init(cfg, now), actions);
            Admit(cfg, s.state, ip, s.now).1
              == if |Occupants(s, ip)| >= cfg.maxPerIp then Some(PerIpLimitReached(ip, |Occupants(s, ip)|))
                 else if |LastSecond(s, ip)| >= cfg.ratePerSec then Some(RateLimitExceeded(ip))
                 else None
  {
    hide Run, Occupants, Recent, Times, Kept, Sorted, Spaced, AdmittedSince;
    var s := Run(Init(cfg, now), actions);
    RunKeepsInv(cfg, now, actions);
    assert IpSound(s, ip);
    RunKeepsRate(cfg, now, actions, ip);
    RecentOfKept(Times(s.log, ip), IpStateOf(s.state, ip).stamps, s.now);
    RecentCounts(s.log, ip, s.now);
  }

  /** In every state that any run reaches, an attempt that nobody interrupts is told exactly what is due. */
  lemma AcquireDecides(cfg: Config, now: nat, actions: seq<Action>, ip: Ip)
    requires cfg.maxConnections <= MAX_PERMITS
    ensures var s := Run(Init(cfg, now), actions);
            TryAcquireAlone(cfg, s.state, ip, s.now).1 == Due(s, ip, Shutdown in actions)
  {
    hide Run, Occupants, Holders, LastSecond, Inv, Admit;
    var s := Run(Init(cfg, now), actions);
    ShuttingDownIff(cfg, now, actions);
    RunConservesPermits(cfg, now, actions);
    AdmitDecides(cfg, now, actions, ip);
    if s.state.free > 0 {
      AdmitIgnoresPermits(cfg, s.state, s.state.free - 1, ip, s.now);
    }
  }

  lemma RunConservesPermits(cfg: Config, now: nat, actions: seq<Action>)
    requires cfg.maxConnections <= MAX_PERMITS
    ensures var s := Run(Init(cfg, now), actions); s.cfg == cfg && s.state.free + |Holders(s)| == cfg.maxConnections
  {
    hide Run, IpsSound, Holders;
    RunKeepsInv(cfg, now, actions);
  }

  lemma AdmitIgnoresPermits(cfg: Config, s: SharedState, free: nat, ip: Ip, now: nat)
    ensures Admit(cfg, s.(free := free), ip, now).1 == Admit(cfg, s, ip, now).1
  {
  }

  /** And so is one that others interrupt, section by section: each is judged by the state it meets. */
  lemma EverySectionDecides(cfg: Config, now: nat, actions: seq<Action>, t: Attempt, ip: Ip)
    requires cfg.maxConnections <= MAX_PERMITS
    ensures var s := Run(Init(cfg, now), actions);
            && (t !in s.attempts ==>
                  Step(s, Start(t, ip)).attempts
                    == s.attempts[t := if Shutdown in actions then Refused(ShuttingDown) else Checked(ip)])
            && (t in s.attempts && s.attempts[t] == Checked(ip) ==>
                  Step(s, TakePermit(t)).attempts
                    == s.attempts[t := if |Holders(s)| == cfg.maxConnections then Refused(MaxConnectionsReached)
                                       else Permitted(ip)])
            && (t in s.attempts && s.attempts[t] == Permitted(ip) ==>
                  var locked := Step(s, Lock(t));
                  var entered := |Occupants(s, ip)| < cfg.maxPerIp && |LastSecond(s, ip)| < cfg.ratePerSec;
                  && locked.log == (if entered then s.log + [Admission(ip, s.now)] else s.log)
                  && locked.attempts
                       == s.attempts[t :=
                            if |Occupants(s, ip)| >= cfg.maxPerIp
                            then Denied(PerIpLimitReached(ip, |Occupants(s, ip)|))
                            else if |LastSecond(s, ip)| >= cfg.ratePerSec then Denied(RateLimitExceeded(ip))
                            else Recorded(ip)])
  {
    hide Run, Occupants, Holders, LastSecond, Inv, Admit;
    ShuttingDownIff(cfg, now, actions);
    RunConservesPermits(cfg, now, actions);
    AdmitDecides(cfg, now, actions, ip);
  }
}
