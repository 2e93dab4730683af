/**
 One device followed through any number of renames: conservation along its
 names. A rename is two changes, AdGuard's first and the store's next, or
 AdGuard's first and its undoing; in between the two know different names.
 */
module Renames {
  import opened Wrappers
  import opened Lists
  import opened AdGuardHome
  import opened GrantStore
  import opened Timeline
  import opened GrantRuns
  import opened Sharing

  /**
   What a device is called: by all, by the store and by AdGuard while a rename is
   under way, or nothing that can be said.
   */
  datatype Trail = Known(name: Name) | Between(was: Name, now: Name) | Lost

  /** Changes neither the tables nor AdGuard. */
  predicate Quiet(e: Event) {
    e.Tick? || e.Armed? || e.Disarmed? || e.Stopped? || e.Restarted?
  }

  function Next(p: Trail, e: Event): Trail {
    match p
    case Known(c) =>
      if e.RenamedOnNet? && e.from == c then Between(c, e.to)
      else if ByGrants(e, c) then p
      else Lost
    case Between(was, now) =>
      if e == RenamedInStore(was, now) then Known(now)
      else if e == RenamedOnNet(now, was) then Known(was)
      else if Quiet(e) then p
      else Lost
    case Lost => Lost
  }

  /** The trail of the device called c before es. */
  function TrailOf(es: seq<Event>, c: Name): Trail {
    if es == [] then Known(c) else Next(TrailOf(Front(es), c), Last(es))
  }

  function InStore(p: Trail): Name
    requires !p.Lost?
  {
    if p.Known? then p.name else p.was
  }

  function OnNet(p: Trail): Name
    requires !p.Lost?
  {
    if p.Known? then p.name else p.now
  }

  /** At m, e finishes a grant that covered x on the device. */
  ghost predicate FinishesOn(m: State, e: Event, p: Trail, x: Service)
    requires Enabled(m, e)
  {
    e.Finished? && p.Known? && Covers(m.t.grants[e.id], p.name, x)
  }

  /** Some grant finished in es that covered x on the device, under the name it had then. */
  ghost predicate FinishedAlong(s: State, es: seq<Event>, c: Name, x: Service)
    requires Run(s, es)
  {
    exists k :: 0 <= k < |es| && FinishedAt(s, es, k, c, x)
  }

  ghost predicate FinishedAt(s: State, es: seq<Event>, k: nat, c: Name, x: Service)
    requires Run(s, es) && k < |es|
  {
    Run(s, es[..k]) && Enabled(Replay(s, es[..k]), es[k]) &&
    FinishesOn(Replay(s, es[..k]), es[k], TrailOf(es[..k], c), x)
  }

  lemma FinishedSnoc(s: State, es: seq<Event>, c: Name, x: Service)
    requires Run(s, es) && es != []
    ensures FinishedAlong(s, es, c, x) <==>
              || FinishedAlong(s, Front(es), c, x)
              || FinishesOn(Replay(s, Front(es)), Last(es), TrailOf(Front(es), c), x)
  {
    var n := |es| - 1;
    forall k | 0 <= k < n ensures FinishedAt(s, es, k, c, x) <==> FinishedAt(s, Front(es), k, c, x) {
      assert Front(es)[..k] == es[..k];
    }
    assert es[..n] == Front(es);
    assert FinishedAt(s, es, n, c, x) <==> FinishesOn(Replay(s, Front(es)), Last(es), TrailOf(Front(es), c), x);
  }

  /**
   c in s and the device of p in s' are one device: what AdGuard has of it, and
   what its list owes to the grants finished in between.
   */
  ghost predicate KeptAlong(s: State, s': State, p: Trail, c: Name, x: Service, finished: bool) {
    !p.Lost? ==>
      && c in s.ag.clients && OnNet(p) in s'.ag.clients
      && s'.ag.clients[OnNet(p)].useGlobal == s.ag.clients[c].useGlobal
      && (p.Between? ==> p.was != p.now)
      && (Idle(s', InStore(p), x) ==> (Own(s', OnNet(p), x) <==> Own(s, c, x) || finished))
  }

  lemma KnownStep(s: State, m: State, e: Event, c: Name, d: Name, x: Service, finished: bool)
    requires Valid(m) && Enabled(m, e) && ByGrants(e, d) && KeptAlong(s, m, Known(d), c, x, finished)
    ensures KeptAlong(s, Apply(m, e), Known(d), c, x, finished || FinishesOn(m, e, Known(d), x))
  {
    OwnStep(m, e, d, x);
    if Idle(Apply(m, e), d, x) {
      if FinishesOn(m, e, Known(d), x) {
        LastOneReverted(m, e, d, x);
      } else {
        IdleBefore(m, e, d, x);
      }
    }
  }

  lemma StoreFollows(m: State, from: Name, to: Name, x: Service)
    requires Wf(m.t) && from != to && Idle(m.(t := RenameIn(m.t, from, to)), to, x)
    ensures Idle(m, from, x)
  {
    forall id ensures !Holds(m.t, id, from, x) {
      RenameMovesCover(m.t, from, to, id, to, x);
      assert !Holds(RenameIn(m.t, from, to), id, to, x);
    }
  }

  /** AdGuard's half of a rename: the device moves with its list, and the tables do not change. */
  lemma NetStep(s: State, m: State, from: Name, to: Name, p: Trail, c: Name, x: Service, finished: bool)
    requires Enabled(m, RenamedOnNet(from, to)) && KeptAlong(s, m, p, c, x, finished)
    requires p == Known(from) || p == Between(to, from)
    ensures KeptAlong(s, Apply(m, RenamedOnNet(from, to)),
                      if p.Known? then Between(from, to) else Known(to), c, x, finished)
  {
    var d := InStore(p);
    assert Idle(Apply(m, RenamedOnNet(from, to)), d, x) <==> Idle(m, d, x);
  }

  /** The store's half: it now covers under the new name what it covered under the old. */
  lemma StoreStep(s: State, m: State, was: Name, now: Name, c: Name, x: Service, finished: bool)
    requires Wf(m.t) && KeptAlong(s, m, Between(was, now), c, x, finished) && was != now
    ensures KeptAlong(s, Apply(m, RenamedInStore(was, now)), Known(now), c, x, finished)
  {
    if Idle(Apply(m, RenamedInStore(was, now)), now, x) { StoreFollows(m, was, now, x); }
  }

  lemma QuietStep(s: State, m: State, e: Event, p: Trail, c: Name, x: Service, finished: bool)
    requires Enabled(m, e) && Quiet(e) && KeptAlong(s, m, p, c, x, finished)
    ensures KeptAlong(s, Apply(m, e), p, c, x, finished)
  {
    assert forall d :: Idle(Apply(m, e), d, x) <==> Idle(m, d, x);
  }

  lemma AlongStep(s: State, m: State, e: Event, p: Trail, c: Name, x: Service, finished: bool)
    requires Valid(m) && Enabled(m, e) && KeptAlong(s, m, p, c, x, finished)
    ensures KeptAlong(s, Apply(m, e), Next(p, e), c, x, finished || FinishesOn(m, e, p, x))
  {
    match p
    case Known(d) =>
      if e.RenamedOnNet? && e.from == d { NetStep(s, m, d, e.to, p, c, x, finished); }
      else if ByGrants(e, d) { KnownStep(s, m, e, c, d, x, finished); }
    case Between(was, now) =>
      if e == RenamedInStore(was, now) { StoreStep(s, m, was, now, c, x, finished); }
      else if e == RenamedOnNet(now, was) { NetStep(s, m, now, was, p, c, x, finished); }
      else if Quiet(e) { QuietStep(s, m, e, p, c, x, finished); }
    case Lost =>
  }

  /**
   Conservation along a device's names: through any number of renames, done
   or undone, and whatever happens to other devices, a service no active
   grant covers on the device is in its list exactly when it was at the
   start or a grant that has finished covered it there, under whatever name
   the device then had.
   */
  lemma {:induction false} ConservationAlong(s: State, es: seq<Event>, c: Name, x: Service)
    requires Valid(s) && Run(s, es) && c in s.ag.clients
    ensures KeptAlong(s, Replay(s, es), TrailOf(es, c), c, x, FinishedAlong(s, es, c, x))
  {
    if es != [] {
      ConservationAlong(s, Front(es), c, x);
      ReachableValid(s, Front(es));
      AlongStep(s, Replay(s, Front(es)), Last(es), TrailOf(Front(es), c), c, x, FinishedAlong(s, Front(es), c, x));
      FinishedSnoc(s, es, c, x);
    }
  }

  lemma TrailSnoc(es: seq<Event>, e: Event, c: Name)
    ensures TrailOf(es + [e], c) == Next(TrailOf(es, c), e)
  {
    assert Front(es + [e]) == es;
  }

  lemma TrailPair(es: seq<Event>, a: Event, b: Event, c: Name)
    ensures TrailOf(es + [a] + [b], c) == Next(Next(TrailOf(es, c), a), b)
  {
    TrailSnoc(es, a, c);
    TrailSnoc(es + [a], b, c);
  }

  /** A rename the store followed moves a device to its new name and leaves the others'; one undone leaves them all. */
  lemma RenamePair(p: Trail, from: Name, to: Name)
    requires p.Known? && from != to && p.name != to
    ensures Next(Next(p, RenamedOnNet(from, to)), RenamedInStore(from, to)) == if p.name == from then Known(to) else p
    ensures Next(Next(p, RenamedOnNet(from, to)), RenamedOnNet(to, from)) == p
  {
  }

  // ----- what a half rename costs -----

  /** AdGuard knows the new name and the store still the old one. */
  function HalfDone(m: State, from: Name, to: Name): State
    requires from in m.ag.clients
  {
    m.(ag := Renamed(m.ag, from, to))
  }

  /**
   To AdGuard the client of the old name is then gone: a grant is as good as
   reverted when it is on its other clients, and nothing has to be put back on
   the device.
   */
  lemma GoneIsReverted(m: State, from: Name, to: Name, id: GrantId)
    requires from in m.ag.clients && to !in m.ag.clients && IsActive(m.t, id) && to !in m.t.grants[id].clients
    ensures Reverted(HalfDone(m, from, to), id) <==>
              (forall c, x | c in m.ag.clients && c != from && Covers(m.t.grants[id], c, x) && !Held(m.t, id, c, x) ::
                 Own(m, c, x))
  {
    var h := HalfDone(m, from, to);
    forall c | c != from && c != to ensures (c in h.ag.clients <==> c in m.ag.clients) {}
    assert forall c, x | c != from && c != to :: Own(h, c, x) <==> Own(m, c, x);
  }

  /**
   So, once nothing covers x under the new name, the device blocks it exactly
   when it did as the rename was left half done, or a grant that names it by
   the new name covered x and has finished since: what grants on the old name
   had opened stays open however they end.
   */
  lemma HalfRenameCost(m: State, from: Name, to: Name, es: seq<Event>, x: Service)
    requires Valid(m) && from in m.ag.clients && to !in m.ag.clients
    requires Run(HalfDone(m, from, to), es) && forall e | e in es :: ByGrants(e, to)
    requires Idle(Replay(HalfDone(m, from, to), es), to, x)
    ensures var h := HalfDone(m, from, to);
            Own(Replay(h, es), to, x) <==> Own(m, from, x) || GrantedSince(h, Replay(h, es), to, x)
  {
    Conservation(HalfDone(m, from, to), es, to, x);
  }

  /** And the input: grant 1 opens service 5 on device 7, the rename of 7 to 8 is left half done, and the grant ends. */
  lemma HalfRenameLeavesOpen()
    ensures var m := OneGrant();
            var es := [Finished(1, Ended, 0)];
            && Valid(m) && Holds(m.t, 1, 7, 5) && 7 in m.ag.clients && Run(HalfDone(m, 7, 8), es)
            && var s' := Replay(HalfDone(m, 7, 8), es);
               (forall id :: !IsActive(s'.t, id)) && !Own(s', 8, 5)
  {
    var m, e := OneGrant(), Finished(1, Ended, 0);
    var h := HalfDone(m, 7, 8);
    assert 7 in m.t.grants[1].clients && 5 in m.t.grants[1].services;
    RunSnoc(h, [], e);
    assert [] + [e] == [e];
  }

  /** Device 7 with an empty list of its own, and one active grant of service 5 on it. */
  function OneGrant(): State {
    var g := Grant(1, 1, Active, [5], [7], 0, 0, None);
    State(Tables(map[1 := g], map[(1, 5) := Slot(1, true)], 2, [Child(1, [7])]),
          Net(map[7 := Device([], [], false, map[])], []), map[], false, 0)
  }
}
