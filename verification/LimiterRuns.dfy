/** What holds over whole sequences of limiter calls. */
module LimiterRuns {
  import opened Wrappers
  import opened Lists
  import opened Times
  import opened Limiter

  datatype Call = Check(ip: Ip, at: int) | Fail(ip: Ip, at: int) | Prune(at: int)

  /** The clock never goes back, and has not passed t. */
  ghost predicate TimedTo(calls: seq<Call>, t: int) {
    calls == [] || (Last(calls).at <= t && TimedTo(Front(calls), Last(calls).at))
  }

  function Step(cfg: Config, l: State, c: Call): State {
    match c
    case Check(ip, at) => Checked(cfg, l, ip, at)
    case Fail(ip, at) => Failed(cfg, l, ip, at)
    case Prune(at) => Pruned(cfg, l, at)
  }

  /** A limiter that never prunes: Fail stops short of it and Prune does nothing. */
  function KeepingStep(cfg: Config, l: State, c: Call): State {
    match c
    case Check(ip, at) => Checked(cfg, l, ip, at)
    case Fail(ip, at) => Counted(cfg, l, ip, at)
    case Prune(_) => l
  }

  function Exec(cfg: Config, l: State, calls: seq<Call>): State {
    if calls == [] then l else Step(cfg, Exec(cfg, l, Front(calls)), Last(calls))
  }

  function KeepingExec(cfg: Config, calls: seq<Call>): State {
    if calls == [] then EMPTY else KeepingStep(cfg, KeepingExec(cfg, Front(calls)), Last(calls))
  }

  // ----- what of an entry can still matter -----

  datatype Window = Window(start: int, fails: int)

  /** The last lockout if it still binds or can still escalate, the trips behind it, and the open window. */
  datatype View = View(last: Option<int>, trips: nat, win: Option<Window>)

  function Binding(cfg: Config, until: Option<int>, t: int): Option<int> {
    if until.Some? && (t < until.value || t - until.value < cfg.reset) then until else None
  }

  function ViewOf(cfg: Config, st: IpState, t: int): View {
    var last := Binding(cfg, st.lockedUntil, t);
    View(last, if last.Some? then st.trips else 0,
         if WindowOpen(cfg, st.windowStart, t) then Some(Window(st.windowStart.value, st.failures)) else None)
  }

  /** The same view at a later time. */
  function Aged(cfg: Config, v: View, t: int): View {
    var last := Binding(cfg, v.last, t);
    View(last, if last.Some? then v.trips else 0,
         if v.win.Some? && t < v.win.value.start + cfg.window then v.win else None)
  }

  /** Reachable entries: an open window starts at or after the last lockout's end, and trips come with a lockout. */
  ghost predicate EntryOk(st: IpState, t: int) {
    && (st.windowStart.Some? ==> st.windowStart.value <= t)
    && (st.windowStart.Some? && st.lockedUntil.Some? ==> st.lockedUntil.value <= st.windowStart.value)
    && (st.lockedUntil.None? ==> st.trips == 0)
  }

  ghost predicate EntriesOk(l: State, t: int) {
    forall ip | ip in l.ips :: EntryOk(l.ips[ip], t)
  }

  lemma ViewAges(cfg: Config, st: IpState, t: int, t': int)
    requires t <= t'
    ensures ViewOf(cfg, st, t') == Aged(cfg, ViewOf(cfg, st, t), t')
  {
  }

  lemma NormalizedView(cfg: Config, st: IpState, t: int)
    requires EntryOk(st, t)
    ensures EntryOk(Normalized(cfg, st, t), t)
    ensures ViewOf(cfg, Normalized(cfg, st, t), t) == ViewOf(cfg, st, t)
    ensures Locked(Normalized(cfg, st, t), t) <==> Locked(st, t)
    ensures Normalized(cfg, st, t).lockedUntil == st.lockedUntil
    ensures Normalized(cfg, st, t).trips == st.trips || Normalized(cfg, st, t).trips == 0
    ensures !Locked(st, t) ==> Normalized(cfg, st, t).trips == ViewOf(cfg, st, t).trips
  {
  }

  lemma LockedIsInView(cfg: Config, st: IpState, t: int)
    ensures Locked(st, t) <==> ViewOf(cfg, st, t).last.Some? && t < ViewOf(cfg, st, t).last.value
  {
  }

  /** Counting a failure depends on the view alone. */
  lemma CountView(cfg: Config, p: IpState, q: IpState, t: int)
    requires EntryOk(p, t) && EntryOk(q, t) && !Locked(p, t) && !Locked(q, t)
    requires ViewOf(cfg, p, t) == ViewOf(cfg, q, t) && p.trips == q.trips
    ensures ViewOf(cfg, CountFailure(cfg, p, t), t) == ViewOf(cfg, CountFailure(cfg, q, t), t)
    ensures EntryOk(CountFailure(cfg, p, t), t) && EntryOk(CountFailure(cfg, q, t), t)
  {
  }

  /** An entry is pruned exactly when nothing of it can still matter. */
  lemma PrunedIsBlank(cfg: Config, st: IpState, t: int)
    requires EntryOk(st, t)
    ensures !Kept(cfg, st, t) <==> ViewOf(cfg, st, t) == ViewOf(cfg, FRESH, t)
  {
  }

  /** Two limiters that answer alike from t on. */
  ghost predicate Alike(cfg: Config, p: State, q: State, t: int) {
    && p.globalStart == q.globalStart && p.globalFails == q.globalFails
    && EntriesOk(p, t) && EntriesOk(q, t)
    && forall ip :: ViewOf(cfg, Lookup(p, ip), t) == ViewOf(cfg, Lookup(q, ip), t)
  }

  lemma AlikeLater(cfg: Config, p: State, q: State, t: int, t': int)
    requires Alike(cfg, p, q, t) && t <= t'
    ensures Alike(cfg, p, q, t')
  {
    forall ip ensures ViewOf(cfg, Lookup(p, ip), t') == ViewOf(cfg, Lookup(q, ip), t') {
      ViewAges(cfg, Lookup(p, ip), t, t');
      ViewAges(cfg, Lookup(q, ip), t, t');
    }
  }

  lemma PruneAlike(cfg: Config, p: State, q: State, t: int)
    requires Alike(cfg, p, q, t)
    ensures Alike(cfg, Pruned(cfg, p, t), q, t)
  {
    forall ip ensures ViewOf(cfg, Lookup(Pruned(cfg, p, t), ip), t) == ViewOf(cfg, Lookup(q, ip), t) {
      if ip in p.ips { PrunedIsBlank(cfg, p.ips[ip], t); }
    }
  }

  lemma CheckAlike(cfg: Config, p: State, q: State, ip: Ip, t: int)
    requires Alike(cfg, p, q, t)
    ensures Alike(cfg, Checked(cfg, p, ip, t), Checked(cfg, q, ip, t), t)
    ensures Answer(cfg, p, ip, t) == Answer(cfg, q, ip, t)
  {
    NormalizedView(cfg, Lookup(p, ip), t);
    NormalizedView(cfg, Lookup(q, ip), t);
    LockedIsInView(cfg, Lookup(p, ip), t);
    LockedIsInView(cfg, Lookup(q, ip), t);
    var p', q' := Checked(cfg, p, ip, t), Checked(cfg, q, ip, t);
    forall other ensures ViewOf(cfg, Lookup(p', other), t) == ViewOf(cfg, Lookup(q', other), t) {
      assert ViewOf(cfg, Lookup(p, other), t) == ViewOf(cfg, Lookup(q, other), t);
    }
  }

  /** What Fail makes of one entry. */
  function FailedEntry(cfg: Config, st: IpState, t: int): IpState {
    var n := Normalized(cfg, st, t);
    if Locked(n, t) then n else CountFailure(cfg, n, t)
  }

  lemma EntriesAlike(cfg: Config, a: IpState, b: IpState, t: int)
    requires EntryOk(a, t) && EntryOk(b, t) && ViewOf(cfg, a, t) == ViewOf(cfg, b, t)
    ensures EntryOk(FailedEntry(cfg, a, t), t) && EntryOk(FailedEntry(cfg, b, t), t)
    ensures ViewOf(cfg, FailedEntry(cfg, a, t), t) == ViewOf(cfg, FailedEntry(cfg, b, t), t)
    ensures Locked(Normalized(cfg, a, t), t) <==> Locked(Normalized(cfg, b, t), t)
  {
    NormalizedView(cfg, a, t);
    NormalizedView(cfg, b, t);
    LockedIsInView(cfg, a, t);
    LockedIsInView(cfg, b, t);
    if !Locked(a, t) {
      CountView(cfg, Normalized(cfg, a, t), Normalized(cfg, b, t), t);
    }
  }

  lemma CountedEntries(cfg: Config, l: State, ip: Ip, t: int)
    ensures Counted(cfg, l, ip, t).ips == l.ips[ip := FailedEntry(cfg, Lookup(l, ip), t)]
  {
  }

  lemma CountedAlike(cfg: Config, p: State, q: State, ip: Ip, t: int)
    requires Alike(cfg, p, q, t)
    ensures Alike(cfg, Counted(cfg, p, ip, t), Counted(cfg, q, ip, t), t)
  {
    assert ViewOf(cfg, Lookup(p, ip), t) == ViewOf(cfg, Lookup(q, ip), t);
    EntriesAlike(cfg, Lookup(p, ip), Lookup(q, ip), t);
    CountedEntries(cfg, p, ip, t);
    CountedEntries(cfg, q, ip, t);
    var p', q' := Counted(cfg, p, ip, t), Counted(cfg, q, ip, t);
    forall other ensures ViewOf(cfg, Lookup(p', other), t) == ViewOf(cfg, Lookup(q', other), t) {
      assert ViewOf(cfg, Lookup(p, other), t) == ViewOf(cfg, Lookup(q, other), t);
    }
  }

  lemma {:induction false} PruningIsAlike(cfg: Config, calls: seq<Call>, t: int)
    requires TimedTo(calls, t)
    ensures Alike(cfg, Exec(cfg, EMPTY, calls), KeepingExec(cfg, calls), t)
  {
    if calls != [] {
      var c := Last(calls);
      var p, q := Exec(cfg, EMPTY, Front(calls)), KeepingExec(cfg, Front(calls));
      PruningIsAlike(cfg, Front(calls), c.at);
      match c {
        case Check(ip, at) => CheckAlike(cfg, p, q, ip, at);
        case Prune(at) => PruneAlike(cfg, p, q, at);
        case Fail(ip, at) =>
          CountedAlike(cfg, p, q, ip, at);
          PruneAlike(cfg, Counted(cfg, p, ip, at), KeepingExec(cfg, calls), at);
      }
      AlikeLater(cfg, Exec(cfg, EMPTY, calls), KeepingExec(cfg, calls), c.at, t);
    }
  }

  /**
   Prune transparency: whatever calls came before and whenever pruning happened,
   the next Check answers as if nothing had ever been pruned.
   */
  lemma PruneTransparent(cfg: Config, calls: seq<Call>, ip: Ip, t: int)
    requires TimedTo(calls, t)
    ensures Answer(cfg, Exec(cfg, EMPTY, calls), ip, t) == Answer(cfg, KeepingExec(cfg, calls), ip, t)
  {
    PruningIsAlike(cfg, calls, t);
    CheckAlike(cfg, Exec(cfg, EMPTY, calls), KeepingExec(cfg, calls), ip, t);
  }

  /**
   Every reachable open window starts at or after the last lockout's end, so
   normalising never has a stale window to clear.
   */
  lemma ReachableEntries(cfg: Config, calls: seq<Call>, t: int)
    requires TimedTo(calls, t)
    ensures EntriesOk(Exec(cfg, EMPTY, calls), t)
    ensures var l := Exec(cfg, EMPTY, calls);
            forall ip | ip in l.ips && !Locked(l.ips[ip], t) :: !Stale(l.ips[ip])
  {
    PruningIsAlike(cfg, calls, t);
  }

  // ----- a denial is stable, and its retry-after tight -----

  /** calls happen from t to u. */
  ghost predicate TimedIn(t: int, calls: seq<Call>, u: int) {
    if calls == [] then t <= u else Last(calls).at <= u && TimedIn(t, Front(calls), Last(calls).at)
  }

  /** When the condition that denies ip at t ends. */
  function DeniedUntil(cfg: Config, l: State, ip: Ip, t: int): int
    requires Answer(cfg, l, ip, t).Denied?
  {
    if Locked(Lookup(l, ip), t) then Lookup(l, ip).lockedUntil.value else l.globalStart.value + cfg.window
  }

  lemma RetryAfterTight(cfg: Config, l: State, ip: Ip, t: int)
    requires Answer(cfg, l, ip, t).Denied?
    ensures var r := Answer(cfg, l, ip, t).retryAfter;
            r % SECOND == 0 && t + r - SECOND < DeniedUntil(cfg, l, ip, t) <= t + r
  {
  }

  lemma {:induction false} LockStays(cfg: Config, l: State, ip: Ip, until: int, t: int, calls: seq<Call>, u: int)
    requires TimedIn(t, calls, u) && u < until && Lookup(l, ip).lockedUntil == Some(until)
    ensures Lookup(Exec(cfg, l, calls), ip).lockedUntil == Some(until)
  {
    if calls != [] {
      LockStays(cfg, l, ip, until, t, Front(calls), Last(calls).at);
    }
  }

  lemma {:induction false} GlobalStays(cfg: Config, l: State, start: int, t: int, calls: seq<Call>, u: int)
    requires TimedIn(t, calls, u) && l.globalStart == Some(start)
    requires forall c | c in calls && c.Fail? :: c.at < start + cfg.window
    ensures Exec(cfg, l, calls).globalStart == Some(start) && Exec(cfg, l, calls).globalFails >= l.globalFails
  {
    if calls != [] {
      assert Last(calls) in calls && forall c | c in Front(calls) :: c in calls;
      GlobalStays(cfg, l, start, t, Front(calls), Last(calls).at);
    }
  }

  lemma {:induction false} TimesBelow(t: int, calls: seq<Call>, u: int)
    requires TimedIn(t, calls, u)
    ensures forall c | c in calls :: t <= c.at <= u
    ensures t <= u
  {
    if calls != [] {
      TimesBelow(t, Front(calls), Last(calls).at);
      assert calls == Front(calls) + [Last(calls)];
    }
  }

  /** A denied IP stays denied, whatever calls come, until one second before its retry-after. */
  lemma DenialStable(cfg: Config, l: State, ip: Ip, t: int, calls: seq<Call>, u: int)
    requires Answer(cfg, l, ip, t).Denied? && TimedIn(t, calls, u)
    requires u <= t + Answer(cfg, l, ip, t).retryAfter - SECOND
    ensures Answer(cfg, Exec(cfg, l, calls), ip, u).Denied?
  {
    RetryAfterTight(cfg, l, ip, t);
    TimesBelow(t, calls, u);
    if Locked(Lookup(l, ip), t) {
      LockStays(cfg, l, ip, Lookup(l, ip).lockedUntil.value, t, calls, u);
    } else {
      GlobalStays(cfg, l, l.globalStart.value, t, calls, u);
    }
  }

  lemma {:induction false} LockLapses(cfg: Config, l: State, ip: Ip, until: int, t: int, calls: seq<Call>, u: int)
    requires TimedIn(t, calls, u) && Lookup(l, ip).lockedUntil == Some(until)
    requires forall c | c in calls && c.Fail? && c.ip == ip :: c.at < until
    ensures var last := Lookup(Exec(cfg, l, calls), ip).lockedUntil;
            last == Some(until) || (last == None && until <= u)
  {
    if calls != [] {
      var c := Last(calls);
      assert c in calls && forall c' | c' in Front(calls) :: c' in calls;
      LockLapses(cfg, l, ip, until, t, Front(calls), c.at);
      if c.at < until { LockStays(cfg, l, ip, until, t, Front(calls), c.at); }
    }
  }

  /** By the retry-after the condition that denied has lapsed, if no failure came after its end. */
  lemma DenialLapses(cfg: Config, l: State, ip: Ip, t: int, calls: seq<Call>, u: int)
    requires Answer(cfg, l, ip, t).Denied? && TimedIn(t, calls, u)
    requires t + Answer(cfg, l, ip, t).retryAfter <= u
    requires forall c | c in calls && c.Fail? && (Locked(Lookup(l, ip), t) ==> c.ip == ip) ::
               c.at < DeniedUntil(cfg, l, ip, t)
    ensures if Locked(Lookup(l, ip), t) then !Locked(Lookup(Exec(cfg, l, calls), ip), u)
            else !GlobalDenied(cfg, Exec(cfg, l, calls), u)
  {
    RetryAfterTight(cfg, l, ip, t);
    if Locked(Lookup(l, ip), t) {
      LockLapses(cfg, l, ip, Lookup(l, ip).lockedUntil.value, t, calls, u);
    } else {
      GlobalStays(cfg, l, l.globalStart.value, t, calls, u);
    }
  }
}
