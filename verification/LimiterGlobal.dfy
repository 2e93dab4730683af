/** What Check and Fail say in terms of the history alone: which failures count, and when a login is denied. */
module LimiterGlobal {
  import opened Wrappers
  import opened Lists
  import opened Sets
  import opened Times
  import opened Limiter
  import opened LimiterRuns
  import opened LimiterBudget

  /** The last lockout ip was given has not ended at t. */
  predicate InLockout(cfg: Config, calls: seq<Call>, ip: Ip, t: int) {
    var trips := Trips(cfg, calls, ip);
    trips != [] && t < Last(trips).until
  }

  lemma LockedIffInLockout(cfg: Config, calls: seq<Call>, ip: Ip, t: int)
    requires TimedTo(calls, t)
    ensures Locked(Lookup(Exec(cfg, EMPTY, calls), ip), t) <==> InLockout(cfg, calls, ip, t)
  {
    Escalation(cfg, calls, ip, t);
    LockedIsInView(cfg, Lookup(Exec(cfg, EMPTY, calls), ip), t);
  }

  /** A failure is counted exactly when the IP's last lockout has ended. */
  lemma CountedIff(cfg: Config, calls: seq<Call>, c: Call, ip: Ip)
    requires TimedTo(calls, c.at)
    ensures Counts(Exec(cfg, EMPTY, calls), c, ip) <==> c.Fail? && c.ip == ip && !InLockout(cfg, calls, ip, c.at)
  {
    LockedIffInLockout(cfg, calls, ip, c.at);
  }

  // ----- the global window -----

  /** When the failures counted so far came, of any IP. */
  function AllHits(cfg: Config, calls: seq<Call>): seq<int> {
    if calls == [] then []
    else
      var c := Last(calls);
      AllHits(cfg, Front(calls)) +
      if c.Fail? && !InLockout(cfg, Front(calls), c.ip, c.at) then [c.at] else []
  }

  /** Windows one after the other: the failure that opened the last one. */
  function Opener(cfg: Config, ts: seq<int>): (r: nat)
    requires ts != []
    ensures r < |ts|
  {
    if |ts| == 1 then 0
    else
      var o := Opener(cfg, Front(ts));
      if Last(ts) < ts[o] + cfg.window then o else |ts| - 1
  }

  ghost predicate OrderedTo(ts: seq<int>, t: int) {
    ts == [] || (Last(ts) <= t && OrderedTo(Front(ts), Last(ts)))
  }

  /** The limiter's global window is the last one, and its count the failures in it. */
  ghost predicate GlobalIs(cfg: Config, ts: seq<int>, l: State) {
    if ts == [] then l.globalStart == None && l.globalFails == 0
    else l.globalStart == Some(ts[Opener(cfg, ts)]) && l.globalFails == |ts| - Opener(cfg, ts)
  }

  lemma GlobalHit(cfg: Config, ts: seq<int>, l: State, ip: Ip, t: int)
    requires GlobalIs(cfg, ts, l) && !Locked(Lookup(l, ip), t)
    ensures GlobalIs(cfg, ts + [t], Failed(cfg, l, ip, t))
  {
    NormalizedLock(cfg, Lookup(l, ip), t);
    var l', longer := Failed(cfg, l, ip, t), ts + [t];
    assert l'.globalStart == CountGlobal(cfg, l, t).globalStart && l'.globalFails == CountGlobal(cfg, l, t).globalFails;
    assert Front(longer) == ts && Last(longer) == t;
    if ts != [] {
      var o := Opener(cfg, ts);
      assert Opener(cfg, longer) == if t < ts[o] + cfg.window then o else |ts|;
    }
  }

  /** No other call moves the global window. */
  lemma GlobalQuiet(cfg: Config, l: State, c: Call)
    requires c.Fail? ==> Locked(Lookup(l, c.ip), c.at)
    ensures Step(cfg, l, c).globalStart == l.globalStart && Step(cfg, l, c).globalFails == l.globalFails
  {
    if c.Fail? { NormalizedLock(cfg, Lookup(l, c.ip), c.at); }
  }

  lemma OrderedLater(ts: seq<int>, t: int, t': int)
    requires OrderedTo(ts, t) && t <= t'
    ensures OrderedTo(ts, t')
  {
  }

  lemma NormalizedLock(cfg: Config, st: IpState, t: int)
    ensures Locked(Normalized(cfg, st, t), t) <==> Locked(st, t)
  {
  }

  lemma {:induction false} GlobalCounted(cfg: Config, calls: seq<Call>, t: int)
    requires TimedTo(calls, t)
    ensures OrderedTo(AllHits(cfg, calls), t) && GlobalIs(cfg, AllHits(cfg, calls), Exec(cfg, EMPTY, calls))
  {
    if calls != [] {
      var l, c, ts := Exec(cfg, EMPTY, Front(calls)), Last(calls), AllHits(cfg, Front(calls));
      GlobalCounted(cfg, Front(calls), c.at);
      if c.Fail? && !InLockout(cfg, Front(calls), c.ip, c.at) {
        LockedIffInLockout(cfg, Front(calls), c.ip, c.at);
        GlobalHit(cfg, ts, l, c.ip, c.at);
        assert Front(ts + [c.at]) == ts;
      } else {
        if c.Fail? { LockedIffInLockout(cfg, Front(calls), c.ip, c.at); }
        GlobalQuiet(cfg, l, c);
        OrderedLater(ts, c.at, t);
        assert AllHits(cfg, calls) == ts;
      }
    }
  }

  /** The opener comes after every earlier window has closed, and before its own does. */
  lemma {:induction false} OpenerSplits(cfg: Config, ts: seq<int>, t: int)
    requires ts != [] && OrderedTo(ts, t) && cfg.window > 0
    ensures var o := Opener(cfg, ts);
            && (forall i | 0 <= i < o :: ts[i] < ts[o])
            && (forall i | o <= i < |ts| :: ts[o] <= ts[i] < ts[o] + cfg.window)
            && (o > 0 ==> ts[Opener(cfg, ts[..o])] + cfg.window <= ts[o])
  {
    if |ts| > 1 {
      OpenerSplits(cfg, Front(ts), Last(ts));
      var o := Opener(cfg, Front(ts));
      if Last(ts) < ts[o] + cfg.window {
        assert ts[..o] == Front(ts)[..o];
        assert ts[|ts| - 2] == Last(Front(ts));
      } else {
        assert ts[..|ts| - 1] == Front(ts);
      }
    }
  }

  /** Which of them came at start or later. */
  function Since(ts: seq<int>, start: int): set<nat> {
    set i: nat | i < |ts| && start <= ts[i]
  }

  lemma SinceOpener(cfg: Config, ts: seq<int>, t: int)
    requires ts != [] && OrderedTo(ts, t) && cfg.window > 0
    ensures |Since(ts, ts[Opener(cfg, ts)])| == |ts| - Opener(cfg, ts)
  {
    var o := Opener(cfg, ts);
    OpenerSplits(cfg, ts, t);
    RangeIs(Since(ts, ts[o]), o, |ts| - o);
  }

  /**
   The global count: over all timed calls it is the number of counted failures,
   of any IP, since the first one of the last window.
   */
  lemma GlobalCountIs(cfg: Config, calls: seq<Call>, t: int)
    requires TimedTo(calls, t) && cfg.window > 0
    ensures var l, ts := Exec(cfg, EMPTY, calls), AllHits(cfg, calls);
            if ts == [] then l.globalStart == None && l.globalFails == 0
            else l.globalStart.Some? && l.globalStart.value in ts &&
                 l.globalFails == |Since(ts, l.globalStart.value)|
  {
    GlobalCounted(cfg, calls, t);
    if AllHits(cfg, calls) != [] { SinceOpener(cfg, AllHits(cfg, calls), t); }
  }

  /** The counted failures in the open global window, if one is open at t, are as many as the cap allows. */
  predicate CapReached(cfg: Config, calls: seq<Call>, t: int) {
    var ts := AllHits(cfg, calls);
    && ts != [] && t < ts[Opener(cfg, ts)] + cfg.window
    && |ts| - Opener(cfg, ts) >= cfg.globalFailures
  }

  /** When the condition that denies ip at t ends. */
  function DenialEnd(cfg: Config, calls: seq<Call>, ip: Ip, t: int): int
    requires InLockout(cfg, calls, ip, t) || CapReached(cfg, calls, t)
  {
    if InLockout(cfg, calls, ip, t) then Last(Trips(cfg, calls, ip)).until
    else AllHits(cfg, calls)[Opener(cfg, AllHits(cfg, calls))] + cfg.window
  }

  /**
   Check, from the history alone: after any timed calls a login is denied
   exactly while the IP's last lockout lasts or the open global window is full,
   and told to retry within a second of the end of that.
   */
  lemma CheckExact(cfg: Config, calls: seq<Call>, ip: Ip, t: int)
    requires TimedTo(calls, t)
    ensures var v := Answer(cfg, Exec(cfg, EMPTY, calls), ip, t);
            && (v.Denied? <==> InLockout(cfg, calls, ip, t) || CapReached(cfg, calls, t))
            && (v.Denied? ==>
                  v.retryAfter % SECOND == 0 && SECOND <= v.retryAfter &&
                  t + v.retryAfter - SECOND < DenialEnd(cfg, calls, ip, t) <= t + v.retryAfter)
  {
    LockedIffInLockout(cfg, calls, ip, t);
    GlobalCounted(cfg, calls, t);
    Escalation(cfg, calls, ip, t);
    LockedIsInView(cfg, Lookup(Exec(cfg, EMPTY, calls), ip), t);
  }

  // ----- how many failures the cap lets through -----

  /** No window ever held more than the cap. */
  ghost predicate CapKept(cfg: Config, ts: seq<int>) {
    ts == [] || (CapKept(cfg, Front(ts)) && |ts| - Opener(cfg, ts) <= cfg.globalFailures)
  }

  lemma {:induction false} CapKeptAt(cfg: Config, ts: seq<int>, k: nat)
    requires CapKept(cfg, ts) && 0 < k <= |ts|
    ensures k - Opener(cfg, ts[..k]) <= cfg.globalFailures
  {
    if k < |ts| {
      CapKeptAt(cfg, Front(ts), k);
      assert Front(ts)[..k] == ts[..k];
    } else {
      assert ts[..k] == ts;
    }
  }

  lemma {:induction false} OrderedPrefix(ts: seq<int>, t: int, k: nat)
    requires OrderedTo(ts, t) && k < |ts|
    ensures OrderedTo(ts[..k + 1], ts[k])
  {
    if k < |ts| - 1 {
      OrderedPrefix(Front(ts), Last(ts), k);
      assert Front(ts)[..k + 1] == ts[..k + 1];
    } else {
      assert ts[..k + 1] == ts;
    }
  }

  /** Windows are at most full, so a window's length after failure i there have been fewer than two windows' worth. */
  lemma CapPaces(cfg: Config, ts: seq<int>, t: int, i: nat, j: nat)
    requires cfg.window > 0 && OrderedTo(ts, t) && CapKept(cfg, ts) && i + 2 * cfg.globalFailures - 1 <= j < |ts|
    requires cfg.globalFailures >= 1
    ensures ts[j] >= ts[i] + cfg.window
  {
    var upto := ts[..j + 1];
    var o := Opener(cfg, upto);
    CapKeptAt(cfg, ts, j + 1);
    OrderedPrefix(ts, t, j);
    OpenerSplits(cfg, upto, ts[j]);
    var p := Opener(cfg, upto[..o]);
    CapKeptAt(cfg, ts, o);
    assert upto[..o] == ts[..o];
    OrderedPrefix(ts, t, p);
    OrderedPair(ts[..p + 1], ts[p], i);
  }

  lemma {:induction false} OrderedPair(ts: seq<int>, t: int, i: nat)
    requires OrderedTo(ts, t) && i < |ts|
    ensures ts[i] <= t
  {
    if i < |ts| - 1 { OrderedPair(Front(ts), Last(ts), i); }
  }

  /** Which failures came in [from, from + window). */
  function Within(cfg: Config, ts: seq<int>, from: int): set<nat> {
    set i: nat | i < |ts| && from <= ts[i] < from + cfg.window
  }

  lemma CapSlides(cfg: Config, ts: seq<int>, t: int, from: int)
    requires cfg.window > 0 && cfg.globalFailures >= 1 && OrderedTo(ts, t) && CapKept(cfg, ts)
    ensures |Within(cfg, ts, from)| <= 2 * cfg.globalFailures - 1
  {
    var inside := Within(cfg, ts, from);
    if inside != {} {
      var lo := Least(inside);
      forall i | i in inside ensures lo <= i < lo + 2 * cfg.globalFailures - 1 {
        if i >= lo + 2 * cfg.globalFailures - 1 { CapPaces(cfg, ts, t, lo, i); }
      }
      RangeSize(inside, lo, 2 * cfg.globalFailures - 1);
    }
  }

  lemma {:induction false} AllHitsPrefix(cfg: Config, calls: seq<Call>, k: nat)
    requires k <= |calls|
    ensures AllHits(cfg, calls[..k]) <= AllHits(cfg, calls)
  {
    if k == |calls| {
      assert calls[..k] == calls;
    } else {
      AllHitsPrefix(cfg, Front(calls), k);
      assert Front(calls)[..k] == calls[..k];
    }
  }

  lemma {:induction false} TimedPrefix(calls: seq<Call>, t: int, k: nat)
    requires TimedTo(calls, t) && k < |calls|
    ensures TimedTo(calls[..k], calls[k].at)
  {
    if k < |calls| - 1 {
      TimedPrefix(Front(calls), Last(calls).at, k);
      assert Front(calls)[..k] == calls[..k];
    } else {
      assert calls[..k] == Front(calls);
    }
  }

  lemma NextHit(cfg: Config, calls: seq<Call>, t: int, k: nat)
    requires TimedTo(calls, t) && k < |calls| && calls[k].Fail?
    requires Counts(Exec(cfg, EMPTY, calls[..k]), calls[k], calls[k].ip)
    ensures AllHits(cfg, calls[..k + 1]) == AllHits(cfg, calls[..k]) + [calls[k].at]
  {
    TimedPrefix(calls, t, k);
    CountedIff(cfg, calls[..k], calls[k], calls[k].ip);
    assert Front(calls[..k + 1]) == calls[..k] && Last(calls[..k + 1]) == calls[k];
  }

  /** How many failures had been counted before call k. */
  function PlaceOf(cfg: Config, calls: seq<Call>, k: nat): nat
    requires k <= |calls|
  {
    |AllHits(cfg, calls[..k])|
  }

  lemma PlacesGrow(cfg: Config, calls: seq<Call>, j: nat, k: nat)
    requires j <= k <= |calls|
    ensures PlaceOf(cfg, calls, j) <= PlaceOf(cfg, calls, k)
  {
    AllHitsPrefix(cfg, calls[..k], j);
    assert calls[..k][..j] == calls[..j];
  }

  /** A counted call is the hit at its place, and moves the place of every later one. */
  lemma HitAmongAll(cfg: Config, calls: seq<Call>, t: int, k: nat)
    requires TimedTo(calls, t) && k < |calls| && calls[k].Fail?
    requires Counts(Exec(cfg, EMPTY, calls[..k]), calls[k], calls[k].ip)
    ensures var n := PlaceOf(cfg, calls, k); n < |AllHits(cfg, calls)| && AllHits(cfg, calls)[n] == calls[k].at
    ensures forall j | k < j < |calls| :: PlaceOf(cfg, calls, k) < PlaceOf(cfg, calls, j)
  {
    NextHit(cfg, calls, t, k);
    AllHitsPrefix(cfg, calls, k + 1);
    forall j | k < j < |calls| ensures PlaceOf(cfg, calls, k) < PlaceOf(cfg, calls, j) {
      PlacesGrow(cfg, calls, k + 1, j);
    }
  }
}
