/** How many failures of one IP the limiter can count, and how its lockouts escalate. */
module LimiterBudget {
  import opened Wrappers
  import opened Lists
  import opened Sets
  import opened Limiter
  import opened LimiterRuns

  /** A counted failure and its place in its window; the perIp-th trips the IP. */
  datatype Hit = Hit(at: int, k: int)

  datatype Trip = Trip(at: int, until: int)

  /** The call is a failure of ip that the limiter counts. */
  predicate Counts(l: State, c: Call, ip: Ip) {
    c.Fail? && c.ip == ip && !Locked(Lookup(l, ip), c.at)
  }

  /** The place in its window of a failure counted now. */
  function Ordinal(cfg: Config, st: IpState, t: int): int {
    var v := ViewOf(cfg, st, t);
    if v.win.Some? then v.win.value.fails + 1 else 1
  }

  function Hits(cfg: Config, calls: seq<Call>, ip: Ip): seq<Hit> {
    if calls == [] then []
    else
      var l, c := Exec(cfg, EMPTY, Front(calls)), Last(calls);
      Hits(cfg, Front(calls), ip) + if Counts(l, c, ip) then [Hit(c.at, Ordinal(cfg, Lookup(l, ip), c.at))] else []
  }

  /** The lockouts ip was given, as the entry records them. */
  function Trips(cfg: Config, calls: seq<Call>, ip: Ip): seq<Trip> {
    if calls == [] then []
    else
      var l, c := Exec(cfg, EMPTY, Front(calls)), Last(calls);
      var after := FailedEntry(cfg, Lookup(l, ip), c.at).lockedUntil;
      Trips(cfg, Front(calls), ip) +
      if Counts(l, c, ip) && Ordinal(cfg, Lookup(l, ip), c.at) >= cfg.perIp && after.Some?
      then [Trip(c.at, after.value)] else []
  }

  /** A call that counts nothing for ip leaves its view alone. */
  lemma OtherCall(cfg: Config, l: State, c: Call, ip: Ip)
    requires EntriesOk(l, c.at) && !Counts(l, c, ip)
    ensures ViewOf(cfg, Lookup(Step(cfg, l, c), ip), c.at) == ViewOf(cfg, Lookup(l, ip), c.at)
  {
    NormalizedView(cfg, Lookup(l, ip), c.at);
    PrunedIsBlank(cfg, Lookup(l, ip), c.at);
    if c.Fail? { NormalizedView(cfg, Lookup(l, c.ip), c.at); }
  }

  /** A counted failure moves ip's view by CountFailure alone, whether or not the entry is pruned after. */
  lemma CountedCall(cfg: Config, l: State, c: Call, ip: Ip)
    requires EntriesOk(l, c.at) && Counts(l, c, ip)
    ensures ViewOf(cfg, Lookup(Step(cfg, l, c), ip), c.at) == ViewOf(cfg, FailedEntry(cfg, Lookup(l, ip), c.at), c.at)
    ensures EntryOk(FailedEntry(cfg, Lookup(l, ip), c.at), c.at)
  {
    EntriesAlike(cfg, Lookup(l, ip), Lookup(l, ip), c.at);
    NormalizedView(cfg, Lookup(l, ip), c.at);
    CountedEntries(cfg, l, ip, c.at);
    PrunedIsBlank(cfg, FailedEntry(cfg, Lookup(l, ip), c.at), c.at);
  }

  // ----- the sliding-window bound -----

  /** Hit i opens a window well after the last one, or goes on in it while it lasts. */
  ghost predicate PacedAt(cfg: Config, hits: seq<Hit>, i: nat)
    requires i < |hits|
  {
    && 1 <= hits[i].k <= cfg.perIp && hits[i].k <= i + 1
    && (i > 0 ==> hits[i - 1].at <= hits[i].at)
    && (hits[i].k > 1 ==> hits[i - 1].k == hits[i].k - 1 && hits[i].at < hits[i + 1 - hits[i].k].at + cfg.window)
    && (hits[i].k == 1 && i > 0 ==> 1 <= hits[i - 1].k <= i && hits[i].at >= WindowEnd(cfg, hits, i - 1))
  }

  /** The earliest a window can open after the one hit i is in, if i is its last. */
  ghost function WindowEnd(cfg: Config, hits: seq<Hit>, i: nat): int
    requires i < |hits| && 1 <= hits[i].k <= i + 1
  {
    cfg.window + if hits[i].k == cfg.perIp then hits[i].at else hits[i + 1 - hits[i].k].at
  }

  ghost predicate Paced(cfg: Config, hits: seq<Hit>) {
    forall i | 0 <= i < |hits| :: PacedAt(cfg, hits, i)
  }

  lemma PacedSnoc(cfg: Config, hits: seq<Hit>, h: Hit)
    requires Paced(cfg, hits) && PacedAt(cfg, hits + [h], |hits|)
    ensures Paced(cfg, hits + [h])
  {
    var longer := hits + [h];
    forall i | 0 <= i < |hits| ensures PacedAt(cfg, longer, i) {
      assert PacedAt(cfg, hits, i);
      if i > 0 { assert PacedAt(cfg, hits, i - 1); }
    }
  }

  /** The entry's view fits the failures counted so far. */
  ghost predicate Fits(cfg: Config, hits: seq<Hit>, v: View, t: int) {
    if hits == [] then v.win.None?
    else
      var i := |hits| - 1;
      && hits[i].at <= t && 1 <= hits[i].k <= i + 1
      && (if v.win.Some? then hits[i].k < cfg.perIp && v.win.value == Window(hits[i + 1 - hits[i].k].at, hits[i].k)
          else if v.last.Some? && t < v.last.value then v.last.value >= WindowEnd(cfg, hits, i)
          else t >= WindowEnd(cfg, hits, i))
  }

  ghost predicate Thresholds(cfg: Config) {
    1 <= cfg.perIp && 0 < cfg.window <= Min(cfg.baseLockout, cfg.maxLockout)
  }

  lemma LockoutCoversWindow(cfg: Config, trips: nat)
    requires Thresholds(cfg) && trips >= 1
    ensures Lockout(cfg, trips) >= cfg.window
  {
    var p := Pow2(Min(trips - 1, MAX_SHIFT));
    assert cfg.baseLockout * p >= cfg.baseLockout by {
      assert cfg.baseLockout * (p - 1) >= 0;
    }
  }

  lemma FitsAged(cfg: Config, hits: seq<Hit>, v: View, t: int, t': int)
    requires Fits(cfg, hits, v, t) && t <= t'
    ensures Fits(cfg, hits, Aged(cfg, v, t'), t')
  {
  }

  lemma CountedView(cfg: Config, st: IpState, t: int)
    requires Thresholds(cfg) && EntryOk(st, t) && !Locked(st, t)
    ensures var k, v := Ordinal(cfg, st, t), ViewOf(cfg, FailedEntry(cfg, st, t), t);
            if k >= cfg.perIp
            then v.win.None? && v.last.Some? && v.last.value >= t + cfg.window
            else v.win == Some(Window(if ViewOf(cfg, st, t).win.Some?
                                      then ViewOf(cfg, st, t).win.value.start else t, k))
  {
    NormalizedView(cfg, st, t);
    var n := Normalized(cfg, st, t);
    LockoutCoversWindow(cfg, n.trips + 1);
  }

  lemma FitsStep(cfg: Config, hits: seq<Hit>, st: IpState, t: int)
    requires Thresholds(cfg) && EntryOk(st, t) && !Locked(st, t)
    requires Paced(cfg, hits) && Fits(cfg, hits, ViewOf(cfg, st, t), t)
    ensures var longer := hits + [Hit(t, Ordinal(cfg, st, t))];
            Paced(cfg, longer) && Fits(cfg, longer, ViewOf(cfg, FailedEntry(cfg, st, t), t), t)
  {
    var h := Hit(t, Ordinal(cfg, st, t));
    var longer := hits + [h];
    LockedIsInView(cfg, st, t);
    CountedView(cfg, st, t);
    if hits != [] {
      assert PacedAt(cfg, hits, |hits| - 1);
      assert longer[|hits| - 1] == hits[|hits| - 1];
    }
    PacedSnoc(cfg, hits, h);
  }

  lemma {:induction false} HitsFit(cfg: Config, calls: seq<Call>, ip: Ip, t: int)
    requires Thresholds(cfg) && TimedTo(calls, t)
    ensures Paced(cfg, Hits(cfg, calls, ip))
    ensures Fits(cfg, Hits(cfg, calls, ip), ViewOf(cfg, Lookup(Exec(cfg, EMPTY, calls), ip), t), t)
  {
    if calls != [] {
      var l, c := Exec(cfg, EMPTY, Front(calls)), Last(calls);
      HitsFit(cfg, Front(calls), ip, c.at);
      ReachableEntries(cfg, Front(calls), c.at);
      if Counts(l, c, ip) {
        CountedCall(cfg, l, c, ip);
        FitsStep(cfg, Hits(cfg, Front(calls), ip), Lookup(l, ip), c.at);
      } else {
        OtherCall(cfg, l, c, ip);
        assert Hits(cfg, calls, ip) == Hits(cfg, Front(calls), ip);
      }
      var l' := Exec(cfg, EMPTY, calls);
      FitsAged(cfg, Hits(cfg, calls, ip), ViewOf(cfg, Lookup(l', ip), c.at), c.at, t);
      ViewAges(cfg, Lookup(l', ip), c.at, t);
    }
  }

  lemma {:induction false} HitsOrdered(cfg: Config, hits: seq<Hit>, i: nat, j: nat)
    requires Paced(cfg, hits) && i <= j < |hits|
    ensures hits[i].at <= hits[j].at
  {
    if i < j {
      HitsOrdered(cfg, hits, i, j - 1);
      assert PacedAt(cfg, hits, j);
    }
  }

  /** The next window after hit i opens at b. */
  lemma NextWindow(cfg: Config, hits: seq<Hit>, i: nat) returns (b: nat)
    requires Paced(cfg, hits) && i < |hits| && i + cfg.perIp - hits[i].k + 1 < |hits|
    ensures i < b <= i + cfg.perIp - hits[i].k + 1 && hits[b].k == 1
    ensures hits[b - 1].k == hits[i].k + (b - 1 - i)
  {
    assert PacedAt(cfg, hits, i);
    b := i + 1;
    while hits[b].k != 1
      invariant i < b <= i + cfg.perIp - hits[i].k + 1
      invariant hits[b - 1].k == hits[i].k + (b - 1 - i)
      decreases |hits| - b
    {
      assert PacedAt(cfg, hits, b);
      b := b + 1;
      assert PacedAt(cfg, hits, b - 1);
    }
  }

  /** The most failures of one IP that any stretch of one window's length can hold. */
  function Bound(cfg: Config): int {
    if cfg.perIp >= 2 then 2 * cfg.perIp - 2 else 1
  }

  lemma OneWindowOn(cfg: Config, hits: seq<Hit>, i: nat, b: nat)
    requires Paced(cfg, hits) && i < b < |hits| && hits[b].k == 1 && hits[b - 1].k == hits[i].k + (b - 1 - i)
    ensures hits[b - 1].k == cfg.perIp || hits[i].k == 1 ==> hits[b].at >= hits[i].at + cfg.window
  {
    assert PacedAt(cfg, hits, b);
    assert PacedAt(cfg, hits, b - 1);
    HitsOrdered(cfg, hits, i, b - 1);
  }

  lemma PacedBound(cfg: Config, hits: seq<Hit>, i: nat, j: nat)
    requires Thresholds(cfg) && Paced(cfg, hits) && i + Bound(cfg) <= j < |hits|
    ensures hits[j].at >= hits[i].at + cfg.window
  {
    assert PacedAt(cfg, hits, i);
    var b := NextWindow(cfg, hits, i);
    OneWindowOn(cfg, hits, i, b);
    HitsOrdered(cfg, hits, i, b);
    HitsOrdered(cfg, hits, b, j);
    if hits[b - 1].k != cfg.perIp && hits[i].k != 1 {
      assert PacedAt(cfg, hits, b - 1);
      var c := NextWindow(cfg, hits, b);
      OneWindowOn(cfg, hits, b, c);
      HitsOrdered(cfg, hits, c, j);
    }
  }

  /**
   The sliding-window bound: across window rollovers, lockouts and prunes, no
   half-open stretch of one window's length holds more than 2P - 2 counted
   failures of one IP (one when P is 1).
   */
  lemma SlidingWindow(cfg: Config, calls: seq<Call>, ip: Ip, t: int, from: int)
    requires Thresholds(cfg) && TimedTo(calls, t)
    ensures var hits := Hits(cfg, calls, ip);
            |set i: nat | i < |hits| && from <= hits[i].at < from + cfg.window| <= Bound(cfg)
  {
    var hits := Hits(cfg, calls, ip);
    HitsFit(cfg, calls, ip, t);
    var inside := set i: nat | i < |hits| && from <= hits[i].at < from + cfg.window;
    if inside != {} {
      var lo := Least(inside);
      forall i | i in inside ensures lo <= i < lo + Bound(cfg) {
        if i >= lo + Bound(cfg) { PacedBound(cfg, hits, lo, i); }
      }
      RangeSize(inside, lo, Bound(cfg));
    }
  }

  // ----- escalation -----

  /** The length of the current chain: trips each less than reset after the previous lockout's end. */
  function Chain(cfg: Config, trips: seq<Trip>): nat {
    if trips == [] then 0
    else if |trips| == 1 || Last(trips).at - Last(Front(trips)).until >= cfg.reset then 1
    else Chain(cfg, Front(trips)) + 1
  }

  /** The entry's view fits the lockouts given so far. */
  ghost predicate TripsFit(cfg: Config, trips: seq<Trip>, v: View, t: int) {
    if trips == [] then v.last.None?
    else v.last == Binding(cfg, Some(Last(trips).until), t) && (v.last.Some? ==> v.trips == Chain(cfg, trips))
  }

  lemma TripStep(cfg: Config, trips: seq<Trip>, st: IpState, t: int)
    requires EntryOk(st, t) && !Locked(st, t) && TripsFit(cfg, trips, ViewOf(cfg, st, t), t)
    requires Ordinal(cfg, st, t) >= cfg.perIp
    ensures FailedEntry(cfg, st, t).lockedUntil.Some?
    ensures var until := FailedEntry(cfg, st, t).lockedUntil.value;
            var longer := trips + [Trip(t, until)];
            && Chain(cfg, longer) >= 1 && until == t + Lockout(cfg, Chain(cfg, longer))
            && TripsFit(cfg, longer, ViewOf(cfg, FailedEntry(cfg, st, t), t), t)
  {
    NormalizedView(cfg, st, t);
    LockedIsInView(cfg, st, t);
    var n := Normalized(cfg, st, t);
    var until := FailedEntry(cfg, st, t).lockedUntil.value;
    var longer := trips + [Trip(t, until)];
    assert Front(longer) == trips && Last(longer) == Trip(t, until);
    assert Chain(cfg, longer) == n.trips + 1;
  }

  lemma NoTripStep(cfg: Config, trips: seq<Trip>, st: IpState, t: int)
    requires EntryOk(st, t) && !Locked(st, t) && TripsFit(cfg, trips, ViewOf(cfg, st, t), t)
    requires Ordinal(cfg, st, t) < cfg.perIp
    ensures TripsFit(cfg, trips, ViewOf(cfg, FailedEntry(cfg, st, t), t), t)
  {
    NormalizedView(cfg, st, t);
  }

  /** Trip i lasts what the length of the chain it ends says. */
  ghost predicate EscalatesAt(cfg: Config, trips: seq<Trip>, i: nat)
    requires i < |trips|
  {
    var k := Chain(cfg, trips[..i + 1]);
    k >= 1 && trips[i].until == trips[i].at + Lockout(cfg, k)
  }

  ghost predicate Escalates(cfg: Config, trips: seq<Trip>) {
    forall i | 0 <= i < |trips| :: EscalatesAt(cfg, trips, i)
  }

  lemma EscalatesSnoc(cfg: Config, trips: seq<Trip>, trip: Trip)
    requires Escalates(cfg, trips)
    requires Chain(cfg, trips + [trip]) >= 1 && trip.until == trip.at + Lockout(cfg, Chain(cfg, trips + [trip]))
    ensures Escalates(cfg, trips + [trip])
  {
    var longer := trips + [trip];
    forall i | 0 <= i < |longer| ensures EscalatesAt(cfg, longer, i) {
      if i < |trips| {
        assert EscalatesAt(cfg, trips, i) && longer[..i + 1] == trips[..i + 1];
      } else {
        assert longer[..i + 1] == longer;
      }
    }
  }

  /**
   Escalation: with k the length of the chain of trips it ends, each lockout
   lasts min(Base * 2^min(k - 1, 6), Max), whenever the entry was normalised
   or pruned in between.
   */
  lemma {:induction false} Escalation(cfg: Config, calls: seq<Call>, ip: Ip, t: int)
    requires TimedTo(calls, t)
    ensures Escalates(cfg, Trips(cfg, calls, ip))
    ensures TripsFit(cfg, Trips(cfg, calls, ip), ViewOf(cfg, Lookup(Exec(cfg, EMPTY, calls), ip), t), t)
  {
    if calls != [] {
      var l, c := Exec(cfg, EMPTY, Front(calls)), Last(calls);
      var st, trips := Lookup(l, ip), Trips(cfg, Front(calls), ip);
      Escalation(cfg, Front(calls), ip, c.at);
      ReachableEntries(cfg, Front(calls), c.at);
      if Counts(l, c, ip) {
        CountedCall(cfg, l, c, ip);
        if Ordinal(cfg, st, c.at) >= cfg.perIp {
          TripStep(cfg, trips, st, c.at);
          EscalatesSnoc(cfg, trips, Trip(c.at, FailedEntry(cfg, st, c.at).lockedUntil.value));
        } else {
          NoTripStep(cfg, trips, st, c.at);
          assert Trips(cfg, calls, ip) == trips;
        }
      } else {
        OtherCall(cfg, l, c, ip);
        assert Trips(cfg, calls, ip) == trips;
      }
      ViewAges(cfg, Lookup(Exec(cfg, EMPTY, calls), ip), c.at, t);
    }
  }

  lemma {:induction false} Pow2Grows(m: nat, n: nat)
    requires m <= n
    ensures Pow2(m) <= Pow2(n)
  {
    if m < n { Pow2Grows(m, n - 1); }
  }

  /** The clamp on the exponent never shows when the cap is at most 64 base lockouts. */
  lemma ClampInvisible(cfg: Config, k: nat)
    requires k >= 1 && 0 <= cfg.baseLockout && cfg.maxLockout <= 64 * cfg.baseLockout
    ensures Lockout(cfg, k) == Min(cfg.baseLockout * Pow2(k - 1), cfg.maxLockout)
  {
    if k - 1 > MAX_SHIFT {
      Pow2Grows(MAX_SHIFT, k - 1);
      assert Pow2(6) == 64;
      var p := Pow2(k - 1);
      assert cfg.baseLockout * p >= cfg.baseLockout * 64 by {
        assert cfg.baseLockout * (p - 64) >= 0;
      }
    }
  }

  /** And it shows, at the eighth trip of a chain, when the cap is higher than that. */
  lemma ClampExact(cfg: Config)
    requires cfg.baseLockout > 0
    ensures (forall k: nat | k >= 1 :: Lockout(cfg, k) == Min(cfg.baseLockout * Pow2(k - 1), cfg.maxLockout)) <==>
            cfg.maxLockout <= 64 * cfg.baseLockout
  {
    if cfg.maxLockout <= 64 * cfg.baseLockout {
      forall k: nat | k >= 1 ensures Lockout(cfg, k) == Min(cfg.baseLockout * Pow2(k - 1), cfg.maxLockout) {
        ClampInvisible(cfg, k);
      }
    } else {
      assert Pow2(6) == 64 && Pow2(7) == 128;
      assert Lockout(cfg, 8) != Min(cfg.baseLockout * Pow2(8 - 1), cfg.maxLockout);
    }
  }
}
