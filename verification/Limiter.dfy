/**
 The login failure budget: per-IP windows with escalating lockouts, a flat
 global cap and lazy pruning. Times and durations are nanoseconds.
 */
module Limiter {
  import opened Wrappers
  import opened Times

  type Ip = nat

  const MAX_SHIFT: nat := 6

  datatype Config = Config(perIp: int, window: int, baseLockout: int, maxLockout: int, reset: int, globalFailures: int)

  /** windowStart is None when no window is open, lockedUntil when never locked. */
  datatype IpState = IpState(failures: int, windowStart: Option<int>, trips: nat, lockedUntil: Option<int>)

  const FRESH := IpState(0, None, 0, None)

  datatype State = State(ips: map<Ip, IpState>, globalStart: Option<int>, globalFails: int)

  datatype Verdict = Allowed | Denied(retryAfter: int)

  function Min(a: int, b: int): int { if a < b then a else b }

  function Pow2(n: nat): (r: int)
    ensures r >= 1
  {
    if n == 0 then 1 else 2 * Pow2(n - 1)
  }

  /** d rounded up to whole seconds, never below one. */
  function CeilSeconds(d: int): (r: int)
    ensures r % SECOND == 0 && r >= SECOND && r >= d
    ensures d > 0 ==> r - SECOND < d
  {
    var s := d / SECOND + (if d % SECOND != 0 then 1 else 0);
    (if s < 1 then 1 else s) * SECOND
  }

  predicate Locked(st: IpState, now: int) {
    st.lockedUntil.Some? && now < st.lockedUntil.value
  }

  predicate WindowOpen(cfg: Config, start: Option<int>, now: int) {
    start.Some? && now < start.value + cfg.window
  }

  predicate Stale(st: IpState) {
    st.windowStart.Some? && st.lockedUntil.Some? && st.windowStart.value < st.lockedUntil.value
  }

  /** normalize: what the passage of time does to one IP. */
  function Normalized(cfg: Config, st: IpState, now: int): IpState {
    if st.lockedUntil.None? || Locked(st, now) then st
    else
      var st := if Stale(st) then st.(failures := 0, windowStart := None) else st;
      if now - st.lockedUntil.value >= cfg.reset then st.(trips := 0) else st
  }

  predicate GlobalDenied(cfg: Config, l: State, now: int) {
    WindowOpen(cfg, l.globalStart, now) && l.globalFails >= cfg.globalFailures
  }

  function Lookup(l: State, ip: Ip): IpState {
    if ip in l.ips then l.ips[ip] else FRESH
  }

  /** Check's answer. */
  function Answer(cfg: Config, l: State, ip: Ip, now: int): Verdict {
    if Locked(Lookup(l, ip), now) then Denied(CeilSeconds(Lookup(l, ip).lockedUntil.value - now))
    else if GlobalDenied(cfg, l, now) then Denied(CeilSeconds(l.globalStart.value + cfg.window - now))
    else Allowed
  }

  /** Check's effect: only the IP's own entry is normalised. */
  function Checked(cfg: Config, l: State, ip: Ip, now: int): State {
    if ip in l.ips then l.(ips := l.ips[ip := Normalized(cfg, l.ips[ip], now)]) else l
  }

  function Lockout(cfg: Config, trips: int): int
    requires trips >= 1
  {
    Min(cfg.baseLockout * Pow2(Min(trips - 1, MAX_SHIFT)), cfg.maxLockout)
  }

  /** One counted failure of a normalised, unlocked IP. */
  function CountFailure(cfg: Config, st: IpState, now: int): IpState {
    var st := if WindowOpen(cfg, st.windowStart, now) then st else st.(windowStart := Some(now), failures := 0);
    var st := st.(failures := st.failures + 1);
    if st.failures >= cfg.perIp then
      IpState(0, None, st.trips + 1, Some(now + Lockout(cfg, st.trips + 1)))
    else st
  }

  function CountGlobal(cfg: Config, l: State, now: int): State {
    var l := if WindowOpen(cfg, l.globalStart, now) then l else l.(globalStart := Some(now), globalFails := 0);
    l.(globalFails := l.globalFails + 1)
  }

  /** Fail up to its final prune. A failure during the IP's lockout is ignored. */
  function Counted(cfg: Config, l: State, ip: Ip, now: int): State {
    var st := Normalized(cfg, Lookup(l, ip), now);
    var l := l.(ips := l.ips[ip := st]);
    if Locked(st, now) then l
    else
      var l := CountGlobal(cfg, l, now);
      l.(ips := l.ips[ip := CountFailure(cfg, st, now)])
  }

  /** An entry worth keeping: locked, counting, or recent enough to escalate. */
  predicate Kept(cfg: Config, st: IpState, now: int) {
    || Locked(st, now)
    || WindowOpen(cfg, st.windowStart, now)
    || (st.lockedUntil.Some? && now - st.lockedUntil.value < cfg.reset)
  }

  function Pruned(cfg: Config, l: State, now: int): State {
    l.(ips := map ip | ip in l.ips && Kept(cfg, l.ips[ip], now) :: l.ips[ip])
  }

  function Failed(cfg: Config, l: State, ip: Ip, now: int): State {
    if Locked(Normalized(cfg, Lookup(l, ip), now), now) then Counted(cfg, l, ip, now)
    else Pruned(cfg, Counted(cfg, l, ip, now), now)
  }

  const EMPTY := State(map[], None, 0)

  /** The limiter itself, changed in place; now is the reading of its injected clock. */
  class RateLimiter {
    const cfg: Config
    var ips: map<Ip, IpState>
    var globalStart: Option<int>
    var globalFails: int

    ghost function Here(): State
      reads this
    {
      State(ips, globalStart, globalFails)
    }

    constructor (cfg: Config)
      ensures this.cfg == cfg && Here() == EMPTY
    {
      this.cfg := cfg;
      ips, globalStart, globalFails := map[], None, 0;
    }

    method Normalize(ip: Ip, now: int)
      requires ip in ips
      modifies this`ips
      ensures ips == old(ips)[ip := Normalized(cfg, old(ips)[ip], now)]
    {
      var st := ips[ip];
      assert ips == ips[ip := st];
      if st.lockedUntil.None? || now < st.lockedUntil.value { return; }
      if st.windowStart.Some? && st.windowStart.value < st.lockedUntil.value {
        st := st.(failures := 0, windowStart := None);
      }
      if now - st.lockedUntil.value >= cfg.reset {
        st := st.(trips := 0);
      }
      ips := ips[ip := st];
    }

    method Check(ip: Ip, now: int) returns (v: Verdict)
      modifies this`ips
      ensures v == Answer(cfg, old(Here()), ip, now)
      ensures Here() == Checked(cfg, old(Here()), ip, now)
    {
      if ip in ips {
        Normalize(ip, now);
        var st := ips[ip];
        if st.lockedUntil.Some? && now < st.lockedUntil.value {
          return Denied(CeilSeconds(st.lockedUntil.value - now));
        }
      }
      if globalStart.Some? && now < globalStart.value + cfg.window && globalFails >= cfg.globalFailures {
        return Denied(CeilSeconds(globalStart.value + cfg.window - now));
      }
      return Allowed;
    }

    method Fail(ip: Ip, now: int)
      modifies this
      ensures Here() == Failed(cfg, old(Here()), ip, now)
    {
      if ip !in ips { ips := ips[ip := FRESH]; }
      Normalize(ip, now);
      var st := ips[ip];
      if st.lockedUntil.Some? && now < st.lockedUntil.value { return; }
      CountGlobally(now);
      st := CountEntry(st, now);
      ips := ips[ip := st];
      Prune(now);
    }

    /** Fail's share of the global window. */
    method CountGlobally(now: int)
      modifies this`globalStart, this`globalFails
      ensures Here() == CountGlobal(cfg, old(Here()), now)
    {
      if globalStart.None? || globalStart.value + cfg.window <= now {
        globalStart, globalFails := Some(now), 0;
      }
      globalFails := globalFails + 1;
    }

    /** And of the IP's: its window, and the lockout its last allowed failure trips. */
    method CountEntry(entry: IpState, now: int) returns (st: IpState)
      ensures st == CountFailure(cfg, entry, now)
    {
      st := entry;
      if st.windowStart.None? || st.windowStart.value + cfg.window <= now {
        st := st.(windowStart := Some(now), failures := 0);
      }
      st := st.(failures := st.failures + 1);
      if st.failures >= cfg.perIp {
        st := st.(trips := st.trips + 1);
        var shift: nat := Min(st.trips - 1, MAX_SHIFT);
        st := st.(lockedUntil := Some(now + Min(cfg.baseLockout * Pow2(shift), cfg.maxLockout)));
        st := st.(failures := 0, windowStart := None);
      }
    }

    method Prune(now: int)
      modifies this`ips
      ensures Here() == Pruned(cfg, old(Here()), now)
    {
      var todo := ips.Keys;
      while todo != {}
        invariant todo <= old(ips).Keys
        invariant ips == map ip | ip in old(ips) && (ip in todo || Kept(cfg, old(ips)[ip], now)) :: old(ips)[ip]
        decreases |todo|
      {
        var ip :| ip in todo;
        var st := ips[ip];
        if !(st.lockedUntil.Some? && now < st.lockedUntil.value)
           && !(st.windowStart.Some? && now < st.windowStart.value + cfg.window)
           && !(st.lockedUntil.Some? && now - st.lockedUntil.value < cfg.reset) {
          ips := ips - {ip};
        }
        todo := todo - {ip};
      }
    }
  }
}
