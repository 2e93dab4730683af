/**
 The engine's helpers that touch no shared state, and what its operations do
 to AdGuard's lists: the ref-count rule, the baseline, and the step-by-step
 facts each loop of the engine keeps.
 */
module GrantEffects {
  import opened Wrappers
  import opened Lists
  import opened AdGuardHome
  import opened GrantStore
  import opened Timeline
  import opened GrantRuns
  import opened Sharing

  // ----- shared.go: the ref-count rule -----

  ghost predicate CoveredBy(a: Grant, exclude: GrantId, c: Name, x: Service) {
    a.id != exclude && Covers(a, c, x)
  }

  /** Some grant of active other than exclude covers x on c. */
  ghost predicate HeldIn(active: seq<Grant>, exclude: GrantId, c: Name, x: Service) {
    exists i :: 0 <= i < |active| && CoveredBy(active[i], exclude, c, x)
  }

  lemma HeldInIsHeld(t: Tables, active: seq<Grant>, exclude: GrantId, c: Name, x: Service)
    requires GrantsOk(t) && ListsActive(t, active)
    ensures HeldIn(active, exclude, c, x) <==> Held(t, exclude, c, x)
  {
    if HeldIn(active, exclude, c, x) {
      var i :| 0 <= i < |active| && CoveredBy(active[i], exclude, c, x);
      assert Holds(t, active[i].id, c, x);
    }
    if Held(t, exclude, c, x) {
      var id :| id != exclude && Holds(t, id, c, x);
      assert t.grants[id] in active;
      var i :| 0 <= i < |active| && active[i] == t.grants[id];
      assert CoveredBy(active[i], exclude, c, x);
    }
  }

  method HeldOpen(active: seq<Grant>, exclude: GrantId, client: Name) returns (held: seq<Service>)
    ensures Ascending(held)
    ensures forall x :: x in held <==> HeldIn(active, exclude, client, x)
  {
    held := [];
    for i := 0 to |active|
      invariant forall x :: x in held <==> HeldIn(active[..i], exclude, client, x)
    {
      var a := active[i];
      var before := held;
      if a.id != exclude && client in a.clients {
        held := held + a.services;
      }
      forall x ensures x in held <==> HeldIn(active[..i + 1], exclude, client, x) {
        HeldInSnoc(active[..i], a, exclude, client, x);
        assert active[..i + 1] == active[..i] + [a];
      }
    }
    assert active[..|active|] == active;
    held := Normalise(held);
  }

  lemma HeldInSnoc(active: seq<Grant>, a: Grant, exclude: GrantId, c: Name, x: Service)
    ensures HeldIn(active + [a], exclude, c, x) <==> HeldIn(active, exclude, c, x) || CoveredBy(a, exclude, c, x)
  {
    var longer := active + [a];
    if HeldIn(active, exclude, c, x) {
      var i :| 0 <= i < |active| && CoveredBy(active[i], exclude, c, x);
      assert CoveredBy(longer[i], exclude, c, x);
    }
    if CoveredBy(a, exclude, c, x) {
      assert CoveredBy(longer[|active|], exclude, c, x);
    }
    if HeldIn(longer, exclude, c, x) {
      var i :| 0 <= i < |longer| && CoveredBy(longer[i], exclude, c, x);
      if i < |active| { assert CoveredBy(active[i], exclude, c, x); }
    }
  }

  /** The members of base that are not in held, in base's order. */
  method Except(base: seq<Service>, held: seq<Service>) returns (out: seq<Service>)
    requires Ascending(held)
    ensures out == Without(base, Members(held))
    ensures Ascending(base) ==> Ascending(out)
  {
    ghost var keep := Members(base) - Members(held);
    AscendingAll(held);
    out := [];
    for i := 0 to |base|
      invariant out == Keep(base[..i], keep)
    {
      assert Front(base[..i + 1]) == base[..i] && Last(base[..i + 1]) == base[i];
      var found := BinarySearch(held, base[i]);
      if !found { out := out + [base[i]]; }
    }
    assert base[..|base|] == base;
    if Ascending(base) { KeepAscending(base, keep); }
  }

  /** Per client, what of g may be blocked again; a client whose every service is still held open is left out. */
  method RevertPlan(g: Grant, active: seq<Grant>) returns (plan: map<Name, seq<Service>>)
    ensures forall c | c in plan :: c in g.clients && plan[c] != []
    ensures forall c, x | c in g.clients ::
              (c in plan && x in plan[c]) <==> x in g.services && !HeldIn(active, g.id, c, x)
    ensures forall c | c in plan :: Ascending(g.services) ==> Ascending(plan[c])
  {
    plan := map[];
    for i := 0 to |g.clients|
      invariant forall c | c in plan :: c in g.clients[..i] && plan[c] != []
      invariant forall c, x | c in g.clients[..i] ::
          (c in plan && x in plan[c]) <==> x in g.services && !HeldIn(active, g.id, c, x)
      invariant forall c | c in plan :: Ascending(g.services) ==> Ascending(plan[c])
    {
      assert g.clients[..i + 1] == g.clients[..i] + [g.clients[i]];
      var held := HeldOpen(active, g.id, g.clients[i]);
      var svcs := Except(g.services, held);
      if |svcs| > 0 {
        plan := plan[g.clients[i] := svcs];
      } else {
        forall x ensures !(x in g.services && !HeldIn(active, g.id, g.clients[i], x)) {
          assert x !in svcs;
        }
        plan := plan - {g.clients[i]};
      }
    }
    assert g.clients[..|g.clients|] == g.clients;
  }

  /** The members of want that are in have, in want's order. */
  method Intersect(want: seq<Service>, have: seq<Service>) returns (out: seq<Service>)
    ensures out == Keep(want, Members(have))
  {
    out := [];
    for i := 0 to |want|
      invariant out == Keep(want[..i], Members(have))
    {
      assert Front(want[..i + 1]) == want[..i] && Last(want[..i + 1]) == want[i];
      if want[i] in have { out := out + [want[i]]; }
    }
    assert want[..|want|] == want;
  }

  // ----- clients.go: the baseline -----

  /** Some name of known is among g's clients. */
  method AnyIn(known: seq<Name>, g: Grant) returns (r: bool)
    ensures r <==> exists c :: c in known && c in g.clients
  {
    for i := 0 to |known|
      invariant forall j | 0 <= j < i :: known[j] !in g.clients
    {
      if known[i] in g.clients { return true; }
    }
    return false;
  }

  ghost predicate BlockedByAny(s: State, known: seq<Name>, x: Service) {
    exists c :: c in known && Blocks(s, c, x)
  }

  /** The siblings AdGuard knows, and what they effectively block. */
  method SiblingLists(net: Net, siblings: seq<Name>, ghost s: State) returns (known: seq<Name>, out: seq<Service>)
    requires s.ag == net
    ensures forall c :: c in known <==> KnownSibling(s, siblings, c)
    ensures forall x :: x in out <==> BlockedByAny(s, known, x)
  {
    known, out := [], [];
    for i := 0 to |siblings|
      invariant forall c :: c in known <==> c in siblings[..i] && c in net.clients
      invariant forall x :: x in out <==> BlockedByAny(s, known, x)
    {
      assert siblings[..i + 1] == siblings[..i] + [siblings[i]];
      if siblings[i] in net.clients {
        ghost var before := known;
        known := known + [siblings[i]];
        out := out + Effective(net, siblings[i]);
        forall x ensures BlockedByAny(s, known, x) <==> BlockedByAny(s, before, x) || Blocks(s, siblings[i], x) {
          if BlockedByAny(s, before, x) {
            var c :| c in before && Blocks(s, c, x);
            assert c in known;
          }
          assert siblings[i] in known;
        }
      }
    }
    assert siblings[..|siblings|] == siblings;
  }

  /** Grant j of gs is the child's or touches a known sibling, and opened x. */
  ghost predicate GrantAdds(s: State, gs: seq<Grant>, j: nat, child: ChildId, siblings: seq<Name>, x: Service)
    requires j < |gs|
  {
    Touches(s, gs[j], child, siblings) && x in gs[j].services
  }

  /** The services of the active grants that are the child's or touch a known sibling. */
  method GrantLists(gs: seq<Grant>, child: ChildId, known: seq<Name>, ghost siblings: seq<Name>, ghost s: State)
    returns (out: seq<Service>)
    requires forall c :: c in known <==> KnownSibling(s, siblings, c)
    ensures forall x :: x in out <==> exists j :: 0 <= j < |gs| && GrantAdds(s, gs, j, child, siblings, x)
  {
    out := [];
    for i := 0 to |gs|
      invariant forall x :: x in out <==> exists j :: 0 <= j < i && GrantAdds(s, gs, j, child, siblings, x)
    {
      var near := AnyIn(known, gs[i]);
      assert Touches(s, gs[i], child, siblings) <==> gs[i].child == child || near;
      if gs[i].child == child || near {
        out := out + gs[i].services;
      }
      assert forall x ::
          GrantAdds(s, gs, i, child, siblings, x) <==> (gs[i].child == child || near) && x in gs[i].services;
    }
  }

  lemma BaselineParts(s: State, gs: seq<Grant>, child: ChildId, siblings: seq<Name>, known: seq<Name>, x: Service)
    requires GrantsOk(s.t) && ListsActive(s.t, gs)
    requires forall c :: c in known <==> KnownSibling(s, siblings, c)
    ensures InBaseline(s, child, siblings, x) <==>
              || BlockedByAny(s, known, x)
              || (known == [] && x in s.ag.global)
              || exists j :: 0 <= j < |gs| && GrantAdds(s, gs, j, child, siblings, x)
  {
    if known != [] { assert KnownSibling(s, siblings, known[0]); }
    if exists id :: IsActive(s.t, id) && Touches(s, s.t.grants[id], child, siblings) && x in s.t.grants[id].services {
      var id :| IsActive(s.t, id) && Touches(s, s.t.grants[id], child, siblings) && x in s.t.grants[id].services;
      assert s.t.grants[id] in gs;
      var j :| 0 <= j < |gs| && gs[j] == s.t.grants[id];
      assert GrantAdds(s, gs, j, child, siblings, x);
    }
    if exists j :: 0 <= j < |gs| && GrantAdds(s, gs, j, child, siblings, x) {
      var j :| 0 <= j < |gs| && GrantAdds(s, gs, j, child, siblings, x);
      assert IsActive(s.t, gs[j].id) && s.t.grants[gs[j].id] == gs[j];
    }
  }

  /** baselineFrom, over one read of AdGuard and one of the active grants. */
  method BaselineOf(net: Net, gs: seq<Grant>, child: ChildId, siblings: seq<Name>, ghost s: State)
    returns (base: seq<Service>)
    requires s.ag == net && GrantsOk(s.t) && ListsActive(s.t, gs)
    ensures Ascending(base)
    ensures forall x :: x in base <==> InBaseline(s, child, siblings, x)
  {
    var known, out := SiblingLists(net, siblings, s);
    if |known| == 0 { out := out + net.global; }
    var more := GrantLists(gs, child, known, siblings, s);
    base := Normalise(out + more);
    forall x ensures x in base <==> InBaseline(s, child, siblings, x) {
      BaselineParts(s, gs, child, siblings, known, x);
    }
  }

  // ----- what one operation does to the lists -----

  /** Between s and s' AdGuard changed in nothing but own lists. */
  ghost predicate OnlyLists(s: State, s': State) {
    && s'.ag.global == s.ag.global
    && s'.ag.clients.Keys == s.ag.clients.Keys
    && forall c | c in s.ag.clients :: s'.ag.clients[c].(blocked := []) == s.ag.clients[c].(blocked := [])
  }

  ghost predicate SameOn(s: State, s': State, c: Name) {
    forall x :: Own(s', c, x) <==> Own(s, c, x)
  }

  /** What ending g gives back on c: its services there that no other active grant covers. */
  ghost predicate Returns(t: Tables, g: Grant, c: Name, x: Service) {
    Covers(g, c, x) && !Held(t, g.id, c, x)
  }

  /** g's services came back on c, where AdGuard knows it, as far as no other grant holds them. */
  ghost predicate RevertedOn(s: State, s': State, g: Grant, c: Name) {
    c in s.ag.clients ==> forall x :: Own(s', c, x) <==> Own(s, c, x) || Returns(s.t, g, c, x)
  }

  ghost predicate RevertResult(s: State, s': State, g: Grant, failed: seq<Name>) {
    && OnlyReverts(s, s', g)
    && (forall c | c !in failed :: RevertedOn(s, s', g, c))
    && (forall c | c in failed :: c in g.clients)
  }

  /** Each client is as it was or has g's services back. */
  ghost predicate OnlyReverts(s: State, s': State, g: Grant) {
    OnlyLists(s, s') && forall c :: SameOn(s, s', c) || RevertedOn(s, s', g, c)
  }

  ghost predicate RevertedAll(s: State, s': State, g: Grant) {
    forall c :: RevertedOn(s, s', g, c)
  }

  /** g's services left c's own list. */
  ghost predicate OpenedOn(s: State, s': State, g: Grant, c: Name) {
    forall x :: Own(s', c, x) <==> Own(s, c, x) && !Covers(g, c, x)
  }

  ghost predicate HasOwnList(s: State, c: Name) {
    c in s.ag.clients && !s.ag.clients[c].useGlobal
  }

  ghost predicate OpenResult(s: State, s': State, g: Grant, failed: seq<Name>) {
    && OnlyLists(s, s')
    && (forall c :: SameOn(s, s', c) || OpenedOn(s, s', g, c))
    && (forall c | c in g.clients && c !in failed :: HasOwnList(s, c) && OpenedOn(s, s', g, c))
    && (forall c | !HasOwnList(s, c) :: SameOn(s, s', c))
    && (forall c | c in failed :: c in g.clients)
  }

  predicate RevertEvent(e: Event, id: GrantId) {
    (e.Reblocked? && e.grant == id) || (e.Finished? && e.id == id) || e.Tick?
  }

  /** From n on, log holds only reverts of id, its status change and clock readings. */
  ghost predicate RevertsFrom(log: seq<Event>, n: nat, id: GrantId) {
    forall i | n <= i < |log| :: RevertEvent(log[i], id)
  }

  predicate OpenEvent(e: Event, id: GrantId) {
    e.Opened? && e.grant == id
  }

  ghost predicate OpensFrom(log: seq<Event>, n: nat, id: GrantId) {
    forall i | n <= i < |log| :: OpenEvent(log[i], id)
  }

  predicate TimerEvent(e: Event, id: GrantId) {
    (e.Armed? && e.id == id) || (e.Disarmed? && e.id == id) || e.Tick?
  }

  ghost predicate TimersFrom(log: seq<Event>, n: nat, id: GrantId) {
    forall i | n <= i < |log| :: TimerEvent(log[i], id)
  }

  lemma Rearmed(timers: map<GrantId, int>, id: GrantId, due: int)
    ensures (timers - {id})[id := due] == timers[id := due]
  {
  }

  /** Halfway through an unblock, as PartlyReverted. */
  ghost predicate PartlyOpened(s0: State, s: State, g: Grant, i: nat, failed: seq<Name>)
    requires i <= |g.clients|
  {
    OnlyLists(s0, s) && forall c :: OpenAt(s0, s, g, i, failed, c)
  }

  /** Where an unblock stands with client c. */
  ghost predicate OpenAt(s0: State, s: State, g: Grant, i: nat, failed: seq<Name>, c: Name)
    requires i <= |g.clients|
  {
    && (if c !in g.clients[..i] then SameOn(s0, s, c) && c !in failed
        else OpenedOn(s0, s, g, c) || (SameOn(s0, s, c) && c in failed))
    && (!HasOwnList(s0, c) ==> SameOn(s0, s, c) && (c in g.clients[..i] ==> c in failed))
  }

  /** Each client reported has no list of its own, or its call failed; and each whose call failed is reported. */
  ghost predicate Excused(s: State, failed: seq<Name>, bad: seq<Name>) {
    (forall c | c in failed :: !HasOwnList(s, c) || c in bad) && (forall c | c in bad :: c in failed)
  }

  /** An unblock at client i: those reported have excuses, and bad are the calls that failed since failed0. */
  ghost predicate OpenedUpTo(s0: State, s: State, g: Grant, i: nat, failed: seq<Name>, bad: seq<Name>,
                             failed0: seq<Name>, failed1: seq<Name>)
    requires i <= |g.clients|
  {
    PartlyOpened(s0, s, g, i, failed) && Excused(s0, failed, bad) && Appended(failed0, failed1, bad)
  }

  lemma OpenedNone(s0: State, g: Grant, failed0: seq<Name>)
    ensures OpenedUpTo(s0, s0, g, 0, [], [], failed0, failed0)
  {
    forall c ensures OpenAt(s0, s0, g, 0, [], c) {}
  }

  lemma OpenedOneMore(s0: State, s: State, g: Grant, i: nat, failed: seq<Name>, bad: seq<Name>, more: seq<Name>,
                      worse: seq<Name>,
                      failed0: seq<Name>, failed1: seq<Name>, failed2: seq<Name>)
    requires i < |g.clients| && Excused(s0, failed, bad) && Appended(failed0, failed1, bad)
    requires PartlyOpened(s0, s, g, i + 1, failed + more) && Excused(s0, more, worse)
    requires Appended(failed1, failed2, worse)
    ensures OpenedUpTo(s0, s, g, i + 1, failed + more, bad + worse, failed0, failed2)
  {
    AppendedMore(failed0, failed1, failed2, bad, worse);
  }

  lemma NotOpened(s0: State, s: State, g: Grant, i: nat, failed: seq<Name>)
    requires i < |g.clients| && Ascending(g.clients) && PartlyOpened(s0, s, g, i, failed)
    ensures PartlyOpened(s0, s, g, i + 1, failed + [g.clients[i]])
  {
    NextPrefix(g, i);
    var next, all := i + 1, failed + [g.clients[i]];
    forall c ensures OpenAt(s0, s, g, next, all, c) {
      assert OpenAt(s0, s, g, i, failed, c);
    }
  }

  lemma StillOwnList(s0: State, s: State, name: Name)
    requires OnlyLists(s0, s)
    ensures HasOwnList(s0, name) <==> HasOwnList(s, name)
  {
    if name in s0.ag.clients {
      assert s.ag.clients[name].(blocked := []) == s0.ag.clients[name].(blocked := []);
    }
  }

  /** One call of an unblock moves only its own client, and all the way when it succeeds. */
  lemma OpenCall(s0: State, m: State, s': State, g: Grant, i: nat, failed: seq<Name>, err: Option<AdGuardHome.Error>,
                 more: seq<Name>)
    requires i < |g.clients| && Ascending(g.clients) && PartlyOpened(s0, m, g, i, failed)
    requires HasOwnList(s0, g.clients[i])
    requires more == if err.Some? then [g.clients[i]] else []
    requires s' == m.(ag := s'.ag) && EditOutcome(m.ag, s'.ag, g.clients[i], Remove(g.services), err)
    ensures PartlyOpened(s0, s', g, i + 1, failed + more)
  {
    OthersKept(s0, m, s', g.clients[i], Remove(g.services), err);
    var next, all := i + 1, failed + more;
    forall c ensures OpenAt(s0, s', g, next, all, c) {
      OpenCallAt(s0, m, s', g, i, failed, err, more, c);
    }
  }

  lemma OpenCallAt(s0: State, m: State, s': State, g: Grant, i: nat, failed: seq<Name>,
                   err: Option<AdGuardHome.Error>, more: seq<Name>, c: Name)
    requires i < |g.clients| && Ascending(g.clients) && OpenAt(s0, m, g, i, failed, c) && HasOwnList(s0, g.clients[i])
    requires more == if err.Some? then [g.clients[i]] else []
    requires s' == m.(ag := s'.ag) && EditOutcome(m.ag, s'.ag, g.clients[i], Remove(g.services), err)
    ensures OpenAt(s0, s', g, i + 1, failed + more, c)
  {
    NextPrefix(g, i);
    assert c in more <==> err.Some? && c == g.clients[i];
    if c == g.clients[i] {
      OpenCallHere(s0, m, s', g, c, err);
    } else {
      OtherClient(s0, m, s', g, g.clients[i], Remove(g.services), err, c);
    }
  }

  lemma AllOpened(s0: State, s: State, g: Grant, failed: seq<Name>)
    requires PartlyOpened(s0, s, g, |g.clients|, failed)
    ensures OpenResult(s0, s, g, failed)
  {
    assert g.clients[..|g.clients|] == g.clients;
    forall c
      ensures c in failed ==> c in g.clients
      ensures OpenedOn(s0, s, g, c) || (SameOn(s0, s, c) && (c in g.clients ==> c in failed))
      ensures !HasOwnList(s0, c) ==> SameOn(s0, s, c) && (c in g.clients ==> c in failed)
    {
      assert OpenAt(s0, s, g, |g.clients|, failed, c);
    }
  }

  lemma OpenCallHere(s0: State, m: State, s': State, g: Grant, name: Name, err: Option<AdGuardHome.Error>)
    requires SameOn(s0, m, name) && name in g.clients
    requires s' == m.(ag := s'.ag) && EditOutcome(m.ag, s'.ag, name, Remove(g.services), err)
    ensures SameOn(s0, s', name) || OpenedOn(s0, s', g, name)
    ensures err.None? ==> OpenedOn(s0, s', g, name)
  {
    assert forall x :: Own(s0, name, x) <==> Own(m, name, x);
  }

  lemma OpenFrom(s: State, m: State, m': State, s': State, g: Grant, failed: seq<Name>)
    requires s.ag == m.ag && m'.ag == s'.ag && OpenResult(m, m', g, failed)
    ensures OpenResult(s, s', g, failed)
    ensures forall bad | Excused(m, failed, bad) :: Excused(s, failed, bad)
  {
    assert forall c, x :: Own(m, c, x) <==> Own(s, c, x);
    assert forall c, x :: Own(m', c, x) <==> Own(s', c, x);
    forall c ensures SameOn(m, m', c) ==> SameOn(s, s', c) {}
    forall c ensures OpenedOn(m, m', g, c) ==> OpenedOn(s, s', g, c) {}
  }

  /** Between m and s lists lost nothing but services g covers, and gained nothing. */
  ghost predicate Shrunk(m: State, s: State, g: Grant) {
    && OnlyLists(m, s)
    && (forall c, x :: Own(s, c, x) ==> Own(m, c, x))
    && (forall c, x :: Own(m, c, x) && !Own(s, c, x) ==> Covers(g, c, x))
  }

  /** What g covers has reappeared nowhere since s0. */
  ghost predicate NotGrown(s0: State, s: State, g: Grant) {
    forall c, x | Covers(g, c, x) && Own(s, c, x) :: Own(s0, c, x)
  }

  /** Nothing g covers is in the own list of a client that has one. */
  ghost predicate DriftFree(s: State, g: Grant) {
    forall c, x | Covers(g, c, x) && HasOwnList(s, c) :: !Own(s, c, x)
  }

  /** The clients with an own list that has some of g's services in it. */
  ghost function Drifted(net: Net, g: Grant): set<Name> {
    set c | c in g.clients && c in net.clients && !net.clients[c].useGlobal &&
            exists x :: x in g.services && x in net.clients[c].blocked
  }

  /** What of g's services is in client c's own list; nothing for one that is unknown or inherits. */
  method DriftOn(g: Grant, c: Name, net: Net, ghost s: State) returns (found: seq<Service>)
    requires c in g.clients && s.ag == net
    ensures c in Drifted(net, g) <==> found != []
    ensures found != [] ==> HasOwnList(s, c) && FoundOn(s, g, c, found)
  {
    if c !in net.clients || net.clients[c].useGlobal { return []; }
    found := Intersect(g.services, net.clients[c].blocked);
    if |found| > 0 { assert found[0] in found; }
  }

  ghost predicate FoundOn(s: State, g: Grant, c: Name, found: seq<Service>) {
    forall x :: x in found <==> x in g.services && Own(s, c, x)
  }

  /** How many repairs a pass at time at has to make for g. */
  ghost function DriftOf(net: Net, g: Grant, at: int): nat {
    if g.endsAt <= at then 0 else |Keep(g.clients, Drifted(net, g))|
  }

  ghost function DriftSum(net: Net, gs: seq<Grant>, at: int): nat {
    if gs == [] then 0 else DriftSum(net, Front(gs), at) + DriftOf(net, Last(gs), at)
  }

  lemma DriftSnoc(net: Net, gs: seq<Grant>, i: nat, at: int)
    requires i < |gs|
    ensures DriftSum(net, gs[..i + 1], at) == DriftSum(net, gs[..i], at) + DriftOf(net, gs[i], at)
  {
    assert Front(gs[..i + 1]) == gs[..i];
  }

  /** A pass's counts: the active grants, and the repairs, all of them when no call failed. */
  ghost predicate Counted(t: Tables, net: Net, at: int, grants: nat, repaired: nat, clean: bool) {
    exists gs :: ListsActive(t, gs) && grants == |gs| &&
      repaired <= DriftSum(net, gs, at) && (clean ==> repaired == DriftSum(net, gs, at))
  }

  lemma CountsAre(t: Tables, net: Net, at: int, gs: seq<Grant>, repaired: nat, clean: bool)
    requires ListsActive(t, gs) && repaired <= DriftSum(net, gs, at) && (clean ==> repaired == DriftSum(net, gs, at))
    ensures Counted(t, net, at, |gs|, repaired, clean)
  {
  }

  lemma NoDriftedClient(s: State, g: Grant)
    requires DriftFree(s, g)
    ensures Drifted(s.ag, g) == {} && Keep(g.clients, {}) == []
  {
    forall c | c in Drifted(s.ag, g) ensures false {
      var x :| x in g.services && x in s.ag.clients[c].blocked;
      assert Covers(g, c, x) && HasOwnList(s, c) && Own(s, c, x);
    }
    KeepNone(g.clients);
  }

  /** One call for each of the first i clients that is in due, and nothing else. */
  ghost predicate CalledFor(g: Grant, i: nat, due: set<Name>, calls0: seq<Name>, calls: seq<Name>, writes: nat) {
    i <= |g.clients| && Appended(calls0, calls, Keep(g.clients[..i], due)) && writes == |Keep(g.clients[..i], due)|
  }

  lemma CalledNext(g: Grant, i: nat, due: set<Name>, calls0: seq<Name>, calls: seq<Name>, calls': seq<Name>,
                   writes: nat)
    requires i < |g.clients| && CalledFor(g, i, due, calls0, calls, writes)
    requires Appended(calls, calls', if g.clients[i] in due then [g.clients[i]] else [])
    ensures CalledFor(g, i + 1, due, calls0, calls', writes + if g.clients[i] in due then 1 else 0)
  {
    KeepNext(g.clients, i, due);
  }

  lemma CalledAll(g: Grant, due: set<Name>, calls0: seq<Name>, calls: seq<Name>, writes: nat)
    requires CalledFor(g, |g.clients|, due, calls0, calls, writes)
    ensures Appended(calls0, calls, Keep(g.clients, due)) && writes == |Keep(g.clients, due)|
  {
    assert g.clients[..|g.clients|] == g.clients;
  }

  /** A revert of g has visited the first i clients: one call for each that is due, and those in failed named. */
  ghost predicate RevertAt(s0: State, s: State, g: Grant, i: nat, due: set<Name>, calls0: seq<Name>, calls: seq<Name>,
                           failed0: seq<Name>, failed1: seq<Name>, failed: seq<Name>, writes: nat)
    requires i <= |g.clients|
  {
    && PartlyReverted(s0, s, g, i, failed) && CalledFor(g, i, due, calls0, calls, writes)
    && Appended(failed0, failed1, failed)
  }

  /** Drift repair of g, begun at m, has visited the first i clients; clean if no call has failed. */
  ghost predicate RepairAt(s0: State, m: State, s: State, g: Grant, i: nat, calls0: seq<Name>, calls: seq<Name>,
                           repaired: nat, writes: nat, clean: bool)
    requires i <= |g.clients|
  {
    && Shrunk(m, s, g) && CalledFor(g, i, Drifted(s0.ag, g), calls0, calls, writes)
    && repaired <= writes && (clean ==> repaired == writes && CleanUpTo(s0, s, g, i))
    && (writes == 0 ==> s == m)
  }

  lemma RepairNext(s0: State, m: State, b: State, s: State, g: Grant, i: nat, calls0: seq<Name>, calls1: seq<Name>,
                   calls2: seq<Name>,
                   repaired: nat, writes: nat, clean: bool, r: nat, w: nat, still: bool)
    requires i < |g.clients| && RepairAt(s0, m, b, g, i, calls0, calls1, repaired, writes, clean)
    requires Appended(calls1, calls2, if g.clients[i] in Drifted(s0.ag, g) then [g.clients[i]] else [])
    requires w == (if g.clients[i] in Drifted(s0.ag, g) then 1 else 0) && r <= w && (still ==> clean && r == w)
    requires Shrunk(m, s, g) && (still ==> CleanUpTo(s0, s, g, i + 1)) && (w == 0 ==> s == b)
    ensures RepairAt(s0, m, s, g, i + 1, calls0, calls2, repaired + r, writes + w, still)
  {
    CalledNext(g, i, Drifted(s0.ag, g), calls0, calls1, calls2, writes);
  }

  lemma RepairEnds(s0: State, m: State, s: State, g: Grant, calls0: seq<Name>, calls: seq<Name>, repaired: nat,
                   writes: nat, clean: bool)
    requires OnlyLists(s0, m) && RepairAt(s0, m, s, g, |g.clients|, calls0, calls, repaired, writes, clean)
    ensures Appended(calls0, calls, Keep(g.clients, Drifted(s0.ag, g)))
    ensures writes == |Keep(g.clients, Drifted(s0.ag, g))|
    ensures clean ==> DriftFree(s, g)
    ensures DriftFree(s0, g) ==> writes == 0 && s == m
  {
    AllClean(s0, m, s, g, clean);
    CalledAll(g, Drifted(s0.ag, g), calls0, calls, writes);
    if DriftFree(s0, g) { NoDriftedClient(s0, g); }
  }

  lemma KeepNext(s: seq<nat>, i: nat, keep: set<nat>)
    requires i < |s|
    ensures Keep(s[..i + 1], keep) == Keep(s[..i], keep) + if s[i] in keep then [s[i]] else []
  {
    assert Front(s[..i + 1]) == s[..i];
  }

  /** Drift is gone from the first i clients. */
  ghost predicate CleanUpTo(s0: State, s: State, g: Grant, i: nat)
    requires i <= |g.clients|
  {
    forall c, x | c in g.clients[..i] && x in g.services && HasOwnList(s0, c) :: !Own(s, c, x)
  }

  lemma NoDrift(s0: State, m: State, s: State, g: Grant, i: nat, clean: bool)
    requires i < |g.clients| && Ascending(g.clients) && Shrunk(m, s, g) && NotGrown(s0, m, g)
    requires clean ==> CleanUpTo(s0, s, g, i)
    requires g.clients[i] !in Drifted(s0.ag, g)
    ensures clean ==> CleanUpTo(s0, s, g, i + 1)
  {
    NextPrefix(g, i);
    var c := g.clients[i];
    forall x | x in g.services && HasOwnList(s0, c) ensures !Own(s, c, x) {
      assert Covers(g, c, x) && !Own(s0, c, x);
    }
  }

  lemma RepairCall(s0: State, m: State, b: State, s: State, g: Grant, i: nat, drifted: seq<Service>,
                   err: Option<AdGuardHome.Error>, clean: bool)
    requires i < |g.clients| && Ascending(g.clients) && Shrunk(m, b, g) && NotGrown(s0, m, g)
    requires clean ==> CleanUpTo(s0, b, g, i)
    requires FoundOn(s0, g, g.clients[i], drifted)
    requires s == b.(ag := s.ag) && EditOutcome(b.ag, s.ag, g.clients[i], Remove(drifted), err)
    ensures Shrunk(m, s, g)
    ensures clean && err.None? ==> CleanUpTo(s0, s, g, i + 1)
  {
    var name := g.clients[i];
    NextPrefix(g, i);
    OneRemove(b, s, name, drifted, err);
    assert Shrunk(m, s, g);
    if clean && err.None? {
      forall x | x in g.services ensures !Own(s, name, x) {
        assert Covers(g, name, x);
      }
    }
  }

  lemma OneRemove(b: State, s: State, name: Name, ids: seq<Service>, err: Option<AdGuardHome.Error>)
    requires s == b.(ag := s.ag) && EditOutcome(b.ag, s.ag, name, Remove(ids), err)
    ensures OnlyLists(b, s)
    ensures forall c, x :: Own(s, c, x) ==> Own(b, c, x)
    ensures forall c, x :: Own(b, c, x) && !Own(s, c, x) ==> c == name && x in ids
    ensures err.None? ==> forall x | x in ids :: !Own(s, name, x)
  {
  }

  lemma AllClean(s0: State, m: State, s: State, g: Grant, clean: bool)
    requires OnlyLists(s0, m) && Shrunk(m, s, g) && (clean ==> CleanUpTo(s0, s, g, |g.clients|))
    ensures clean ==> DriftFree(s, g)
  {
    assert g.clients[..|g.clients|] == g.clients;
    forall c ensures HasOwnList(s, c) ==> HasOwnList(s0, c) {
      StillOwnList(s0, m, c);
      StillOwnList(m, s, c);
    }
  }

  // ----- one reconcile pass -----

  ghost predicate WindingFrom(log: seq<Event>, n: nat) {
    forall i | n <= i < |log| :: Winding(log[i])
  }

  /** A change made by creating, extending, ending, expiring or reconciling grants, or a child edit. */
  predicate GrantEvent(e: Event) {
    !e.Adopted? && !e.Created? && !e.Edited? && !e.Removed? && !e.RenamedOnNet? && !e.RenamedInStore?
  }

  ghost predicate GrantEventsFrom(log: seq<Event>, n: nat) {
    forall i | n <= i < |log| :: GrantEvent(log[i])
  }

  lemma GrantMore(log: seq<Event>, e: Event, n: nat)
    requires GrantEventsFrom(log, n) && GrantEvent(e)
    ensures GrantEventsFrom(log + [e], n)
  {
  }

  lemma OpenMore(log: seq<Event>, e: Event, n: nat, id: GrantId)
    requires OpensFrom(log, n, id) && OpenEvent(e, id)
    ensures OpensFrom(log + [e], n, id)
  {
  }

  lemma TimerMore(log: seq<Event>, e: Event, n: nat, id: GrantId)
    requires TimersFrom(log, n, id) && TimerEvent(e, id)
    ensures TimersFrom(log + [e], n, id)
  {
  }

  // ----- a change AdGuard made is one event -----

  lemma ReblockIsEvent(s: State, net: Net, g: Grant, name: Name, ids: seq<Service>, err: Option<AdGuardHome.Error>)
    requires IsActive(s.t, g.id) && s.t.grants[g.id] == g && GivesBack(s.t, g, name, ids)
    requires EditOutcome(s.ag, net, name, Add(ids), err) && net != s.ag
    ensures var e := Reblocked(name, ids, g.id); Enabled(s, e) && Apply(s, e) == s.(ag := net)
  {
    forall x | x in ids ensures Covers(g, name, x) && !Held(s.t, g.id, name, x) {
      assert Returns(s.t, g, name, x);
    }
  }

  lemma OpenIsEvent(s: State, net: Net, g: Grant, name: Name, ids: seq<Service>, err: Option<AdGuardHome.Error>)
    requires IsActive(s.t, g.id) && s.t.grants[g.id] == g && HasOwnList(s, name)
    requires forall x | x in ids :: Covers(g, name, x)
    requires EditOutcome(s.ag, net, name, Remove(ids), err)
    ensures err.None? || err == Some(AdGuardHome.Unavailable)
    ensures net != s.ag ==> var e := Opened(name, ids, g.id); Enabled(s, e) && Apply(s, e) == s.(ag := net)
  {
    KnownClientOutcome(s.ag, net, name, Remove(ids), err);
  }

  /** ids is what of base no grant of gs holds open on client c. */
  ghost predicate RestOf(base: seq<Service>, gs: seq<Grant>, c: Name, ids: seq<Service>) {
    forall x :: x in ids <==> x in base && !HeldIn(gs, 0, c, x)
  }

  method NotOpen(base: seq<Service>, gs: seq<Grant>, c: Name) returns (ids: seq<Service>)
    ensures RestOf(base, gs, c, ids)
  {
    var held := HeldOpen(gs, 0, c);
    ids := Except(base, held);
  }

  lemma AdoptIsEvent(s: State, net: Net, name: Name, base: seq<Service>, ids: seq<Service>, gs: seq<Grant>,
                     err: Option<AdGuardHome.Error>, read: State, child: ChildId, siblings: seq<Name>)
    requires GrantsOk(s.t) && ListsActive(s.t, gs) && name in s.ag.clients && IsBaseline(read, child, siblings, base)
    requires RestOf(base, gs, name, ids) && EditOutcome(s.ag, net, name, Adopt(ids), err)
    ensures err.None? || err == Some(AdGuardHome.Unavailable)
    ensures net.clients.Keys == s.ag.clients.Keys
    ensures err.None? || net != s.ag ==>
              var e := Adopted(name, ids); AdoptsBaseline(read, s, e, child, siblings) && Apply(s, e) == s.(ag := net)
  {
    KnownClientOutcome(s.ag, net, name, Adopt(ids), err);
    forall x ensures HeldIn(gs, 0, name, x) <==> !Idle(s, name, x) {
      HeldInIsHeld(s.t, gs, 0, name, x);
      AnyHolder(s, name, x);
    }
  }

  lemma EndIsEvent(s: State, g: Grant, endsAt: int)
    requires IsActive(s.t, g.id)
    ensures var e := Extended(g.id, WholeSeconds(endsAt));
            Enabled(s, e) && Apply(s, e) == s.(t := SetEnds(s.t, g.id, WholeSeconds(endsAt)))
  {
  }

  lemma FinishIsEvent(s: State, g: Grant, to: Status)
    requires IsActive(s.t, g.id) && s.t.grants[g.id] == g && Reverted(s, g.id)
    requires !to.Active? && (to.Expired? ==> g.endsAt <= s.now)
    ensures var e := Finished(g.id, to, WholeSeconds(s.now));
            && Enabled(s, e)
            && Apply(s, e) == s.(t := SetStatus(s.t, g.id, to, WholeSeconds(s.now)), timers := s.timers - {g.id})
  {
  }

  lemma RevertMore(log: seq<Event>, e: Event, n: nat, id: GrantId)
    requires RevertsFrom(log, n, id) && RevertEvent(e, id)
    ensures RevertsFrom(log + [e], n, id)
  {
  }

  lemma WindingTick(log: seq<Event>, at: int, n: nat)
    requires n + 1 == |log| && log[n] == Tick(at)
    ensures WindingFrom(log, n)
  {
  }

  lemma WindingJoin(log0: seq<Event>, log: seq<Event>, n: nat)
    requires log0 <= log && WindingFrom(log0, n) && WindingFrom(log, |log0|)
    ensures WindingFrom(log, n)
  {
    forall i | n <= i < |log| ensures Winding(log[i]) {
      if i < |log0| { assert log[i] == log0[i]; }
    }
  }

  lemma WindingMore(log0: seq<Event>, log: seq<Event>, n: nat, id: GrantId)
    requires log0 <= log && GrantEventsFrom(log0, n)
    requires TimersFrom(log, |log0|, id) || RevertsFrom(log, |log0|, id) || OpensFrom(log, |log0|, id)
    ensures GrantEventsFrom(log, n)
    ensures WindingFrom(log0, n) ==> WindingFrom(log, n)
  {
    forall i | n <= i < |log| ensures GrantEvent(log[i]) && (WindingFrom(log0, n) ==> Winding(log[i])) {
      if i < |log0| {
        assert log[i] == log0[i];
      } else {
        assert TimerEvent(log[i], id) || RevertEvent(log[i], id) || OpenEvent(log[i], id);
      }
    }
  }

  /** g is stored just so, and active. */
  ghost predicate Untouched(s: State, g: Grant) {
    IsActive(s.t, g.id) && s.t.grants[g.id] == g
  }

  /** A pass begun at s0, reading the clock at at, has visited the first i of the active grants gs. */
  ghost predicate PassAt(s0: State, s: State, at: int, gs: seq<Grant>, i: nat)
    requires i <= |gs|
  {
    && OnlyLists(s0, s) && at <= s.now && s.closed == s0.closed
    && (forall id | IsActive(s.t, id) :: IsActive(s0.t, id))
    && (forall j | 0 <= j < |gs| && (i <= j || at < gs[j].endsAt) :: Untouched(s, gs[j]))
    && (forall j | 0 <= j < |gs| && at < gs[j].endsAt :: NotGrown(s0, s, gs[j]))
  }

  ghost predicate HasExpired(s: State, id: GrantId) {
    id in s.t.grants && s.t.grants[id].status.Expired?
  }

  /** What a pass whose calls succeeded has done for the grants it visited. */
  ghost predicate DoneTo(s: State, at: int, gs: seq<Grant>, i: nat)
    requires i <= |gs|
  {
    && (forall j | 0 <= j < i && gs[j].endsAt <= at :: HasExpired(s, gs[j].id))
    && (forall j | 0 <= j < i && at < gs[j].endsAt :: DriftFree(s, gs[j]) && (s.closed || gs[j].id in s.timers))
  }

  /** Reverting one grant gives back nothing another active grant covers. */
  lemma LiveUntouched(m: State, s: State, g: Grant, live: Grant)
    requires OnlyReverts(m, s, g) && Untouched(m, live) && live.id != g.id
    ensures forall c, x | Covers(live, c, x) && Own(s, c, x) :: Own(m, c, x)
    ensures DriftFree(m, live) ==> DriftFree(s, live)
  {
    forall c, x | Covers(live, c, x) && Own(s, c, x) ensures Own(m, c, x) {
      assert Holds(m.t, live.id, c, x);
      assert !Returns(m.t, g, c, x);
      assert SameOn(m, s, c) || RevertedOn(m, s, g, c);
    }
    forall c ensures HasOwnList(s, c) ==> HasOwnList(m, c) {
      StillOwnList(m, s, c);
    }
  }

  lemma PassExpired(s0: State, m: State, s: State, at: int, gs: seq<Grant>, i: nat, expired: bool, done: bool)
    requires i < |gs| && ListsActive(s0.t, gs) && PassAt(s0, m, at, gs, i) && gs[i].endsAt <= at
    requires done ==> DoneTo(m, at, gs, i)
    requires OnlyReverts(m, s, gs[i])
    requires s.closed == m.closed && m.now <= s.now
    requires expired ==>
              s.t == SetStatus(m.t, gs[i].id, Expired, WholeSeconds(s.now)) && s.timers == m.timers - {gs[i].id}
    requires !expired ==> s.t == m.t && s.timers == m.timers
    ensures PassAt(s0, s, at, gs, i + 1)
    ensures done && expired ==> DoneTo(s, at, gs, i + 1)
  {
    forall j | 0 <= j < |gs| && at < gs[j].endsAt
      ensures NotGrown(s0, s, gs[j])
      ensures DriftFree(m, gs[j]) ==> DriftFree(s, gs[j])
    {
      assert gs[j].id != gs[i].id;
      LiveUntouched(m, s, gs[i], gs[j]);
    }
    forall j | 0 <= j < |gs| && (i + 1 <= j || at < gs[j].endsAt) ensures Untouched(s, gs[j]) {
      assert if i < j then Earlier(gs, i, j) else Earlier(gs, j, i);
      assert Untouched(m, gs[j]) && gs[j].id != gs[i].id;
    }
  }

  lemma PassRepaired(s0: State, m: State, m2: State, s: State, at: int, gs: seq<Grant>, i: nat, done: bool, clean: bool)
    requires i < |gs| && ListsActive(s0.t, gs) && PassAt(s0, m, at, gs, i) && at < gs[i].endsAt
    requires done ==> DoneTo(m, at, gs, i)
    requires m2 == m.(ag := m2.ag) && Shrunk(m, m2, gs[i]) && (clean ==> done && DriftFree(m2, gs[i]))
    requires s == m2.(timers := s.timers, now := s.now) && m2.now <= s.now
    requires forall id | id in m2.timers :: id in s.timers
    requires s.closed || gs[i].id in s.timers
    ensures PassAt(s0, s, at, gs, i + 1)
    ensures clean ==> DoneTo(s, at, gs, i + 1)
  {
    forall j | 0 <= j < |gs|
      ensures at < gs[j].endsAt ==> NotGrown(s0, s, gs[j])
      ensures i + 1 <= j || at < gs[j].endsAt ==> Untouched(s, gs[j])
    {
      RepairHarmless(s0, m, m2, s, gs[i], gs[j]);
    }
    StillListed(s0, m, m2, s, gs[i]);
    if clean { RepairDone(s0, m, m2, s, at, gs, i); }
  }

  lemma StillListed(s0: State, m: State, m2: State, s: State, g: Grant)
    requires OnlyLists(s0, m) && Shrunk(m, m2, g) && s.ag == m2.ag
    ensures OnlyLists(s0, s)
  {
  }

  lemma RepairDone(s0: State, m: State, m2: State, s: State, at: int, gs: seq<Grant>, i: nat)
    requires i < |gs| && DoneTo(m, at, gs, i) && at < gs[i].endsAt && DriftFree(m2, gs[i])
    requires m2 == m.(ag := m2.ag) && Shrunk(m, m2, gs[i])
    requires s == m2.(timers := s.timers, now := s.now)
    requires forall id | id in m2.timers :: id in s.timers
    requires s.closed || gs[i].id in s.timers
    ensures DoneTo(s, at, gs, i + 1)
  {
    forall j | 0 <= j < i && at < gs[j].endsAt ensures DriftFree(s, gs[j]) {
      RepairHarmless(s0, m, m2, s, gs[i], gs[j]);
    }
    assert forall c, x :: Own(s, c, x) <==> Own(m2, c, x);
    assert forall c :: HasOwnList(s, c) <==> HasOwnList(m2, c);
  }

  /** Repairing drift of g undoes nothing that holds of another live grant. */
  lemma RepairHarmless(s0: State, m: State, m2: State, s: State, g: Grant, live: Grant)
    requires m2 == m.(ag := m2.ag) && Shrunk(m, m2, g)
    requires s == m2.(timers := s.timers, now := s.now)
    ensures NotGrown(s0, m, live) ==> NotGrown(s0, s, live)
    ensures DriftFree(m, live) ==> DriftFree(s, live)
    ensures Untouched(m, live) ==> Untouched(s, live)
  {
    forall c ensures HasOwnList(s, c) ==> HasOwnList(m, c) {
      StillOwnList(m, m2, c);
    }
    assert forall c, x :: Own(s, c, x) ==> Own(m, c, x);
  }

  /** The grants that left active from t to t'. */
  ghost function Left(t: Tables, t': Tables): set<GrantId> {
    set id | id in t.grants && IsActive(t, id) && !IsActive(t', id)
  }

  /** A grant that leaves active is one more. */
  lemma LeftMore(t: Tables, m: Tables, t': Tables, id: GrantId, gone: bool)
    requires IsActive(t, id) && IsActive(m, id)
    requires forall i :: IsActive(t', i) <==> IsActive(m, i) && !(gone && i == id)
    ensures |Left(t, t')| == |Left(t, m)| + if gone then 1 else 0
  {
    assert Left(t, t') == if gone then Left(t, m) + {id} else Left(t, m);
  }

  /** Nothing to do at time at: no active grant is overdue, none has drifted and each has its timer. */
  ghost predicate Settled(s: State, at: int) {
    forall id | IsActive(s.t, id) ::
      at < s.t.grants[id].endsAt && DriftFree(s, s.t.grants[id]) && (s.closed || id in s.timers)
  }

  /** A pass at time at took s to s' and left nothing to do. */
  ghost predicate Converged(s: State, s': State, at: int) {
    && Settled(s', at)
    && (forall id | IsActive(s.t, id) ::
          if s.t.grants[id].endsAt <= at
          then HasExpired(s', id)
          else id in s'.t.grants && s'.t.grants[id] == s.t.grants[id])
    && (forall id, c, x | Holds(s.t, id, c, x) && s.t.grants[id].endsAt <= at && c in s.ag.clients && Idle(s', c, x) ::
          Own(s', c, x))
  }

  lemma PassConverged(s: State, s0: State, es: seq<Event>, at: int, gs: seq<Grant>)
    requires Timeline.Valid(s0) && s0 == s.(now := s0.now) && ListsActive(s0.t, gs)
    requires Run(s0, es) && forall e | e in es :: Winding(e)
    requires PassAt(s0, Replay(s0, es), at, gs, |gs|) && DoneTo(Replay(s0, es), at, gs, |gs|)
    ensures Converged(s, Replay(s0, es), at)
  {
    var s' := Replay(s0, es);
    forall id | IsActive(s.t, id)
      ensures exists j :: 0 <= j < |gs| && gs[j].id == id && gs[j] == s.t.grants[id]
    {
      assert s.t.grants[id] in gs;
    }
    forall id, c, x | Holds(s.t, id, c, x) && s.t.grants[id].endsAt <= at && c in s.ag.clients && Idle(s', c, x)
      ensures Own(s', c, x)
    {
      forall e | e in es ensures ByGrants(e, c) { assert Winding(e); }
      Conservation(s0, es, c, x);
      HeldThenFinished(s0, es, c, x, id);
    }
  }

  lemma PassEnds(first: State, log0: seq<Event>, log: seq<Event>, s: State, s0: State, at: int, gs: seq<Grant>)
    requires log0 <= log && Run(first, log0) && Run(first, log) && Replay(first, log0) == s0 && WindingFrom(log, |log0|)
    requires Timeline.Valid(s0) && s0 == s.(now := s0.now) && ListsActive(s0.t, gs)
    requires PassAt(s0, Replay(first, log), at, gs, |gs|) && DoneTo(Replay(first, log), at, gs, |gs|)
    ensures Converged(s, Replay(first, log), at)
  {
    PassRun(first, log0, log);
    PassConverged(s, s0, log[|log0|..], at, gs);
  }

  /** What a pass adds to the log is a run from where it began. */
  lemma PassRun(first: State, log0: seq<Event>, log: seq<Event>)
    requires log0 <= log && Run(first, log0) && Run(first, log) && WindingFrom(log, |log0|)
    ensures var es := log[|log0|..];
            && Run(Replay(first, log0), es) && Replay(Replay(first, log0), es) == Replay(first, log)
            && forall e | e in es :: Winding(e)
  {
    RunSplit(first, log, |log0|);
    assert log[..|log0|] == log0;
    forall e | e in log[|log0|..] ensures Winding(e) {
      var i :| 0 <= i < |log[|log0|..]| && log[|log0|..][i] == e;
      assert Winding(log[|log0| + i]);
    }
  }

  lemma ConvergedAnyTime(s: State, s0: State, s': State, at: int)
    requires s0 == s.(now := s0.now) && Converged(s0, s', at)
    ensures Converged(s, s', at)
  {
    forall id ensures IsActive(s.t, id) <==> IsActive(s0.t, id) {}
    forall id, c, x | Holds(s.t, id, c, x) && s.t.grants[id].endsAt <= at && c in s.ag.clients && Idle(s', c, x)
      ensures Own(s', c, x)
    {
      assert Holds(s0.t, id, c, x);
    }
  }

  lemma SettledAnyTime(s: State, s0: State, at: int)
    requires s0 == s.(now := s0.now)
    ensures Settled(s, at) ==> Settled(s0, at)
  {
    if Settled(s, at) {
      forall id | IsActive(s0.t, id)
        ensures at < s0.t.grants[id].endsAt && DriftFree(s0, s0.t.grants[id]) && (s0.closed || id in s0.timers)
      {
        assert IsActive(s.t, id);
      }
    }
  }

  lemma NothingActive(s: State, gs: seq<Grant>, at: int)
    requires ListsActive(s.t, gs) && gs == []
    ensures Converged(s, s, at) && Left(s.t, s.t) == {}
  {
    forall id ensures !IsActive(s.t, id) {}
  }

  ghost predicate IsBaseline(s: State, child: ChildId, siblings: seq<Name>, base: seq<Service>) {
    forall x :: x in base <==> InBaseline(s, child, siblings, x)
  }

  /** e creates a device with the baseline of this child and its present clients. */
  ghost predicate JoinsChild(s: State, e: Event, child: ChildId) {
    exists c :: c in s.t.children && c.id == child && CreatesWithBaseline(s, e, child, c.clients)
  }

  /** base is the baseline of the stored child. */
  ghost predicate HasBaseline(s: State, child: ChildId, base: seq<Service>) {
    exists c :: c in s.t.children && c.id == child && IsBaseline(s, child, c.clients, base)
  }

  lemma JoinerHasBaseline(s: State, name: Name, ids: seq<nat>, base: seq<Service>, rest: map<string, string>,
                          child: ChildId)
    requires name !in s.ag.clients
    requires HasBaseline(s, child, base)
    ensures JoinsChild(s, Created(name, NewDevice(ids, Some(base), rest)), child)
  {
    var c :| c in s.t.children && c.id == child && IsBaseline(s, child, c.clients, base);
    assert CreatesWithBaseline(s, Created(name, NewDevice(ids, Some(base), rest)), child, c.clients);
  }

  lemma OutsiderExists(children: seq<Child>, from: Name, to: Name, id: ChildId)
    requires FirstOutsider(children, from, to, id)
    ensures !(forall c | c in children :: !Outsider(c, from, to))
  {
    var i :| 0 <= i < |children| && children[i].id == id && Outsider(children[i], from, to) &&
             forall j | 0 <= j < i :: !Outsider(children[j], from, to);
    assert children[i] in children;
  }

  /** Renaming there and back leaves AdGuard as it was. */
  lemma RenameBack(net: Net, from: Name, to: Name)
    requires from in net.clients && to !in net.clients
    ensures Renamed(Renamed(net, from, to), to, from) == net
    ensures from != to ==> from !in Renamed(net, from, to).clients
  {
  }

  lemma AnyHolder(s: State, c: Name, x: Service)
    requires GrantsOk(s.t)
    ensures Held(s.t, 0, c, x) <==> !Idle(s, c, x)
  {
    if !Idle(s, c, x) {
      var id :| Holds(s.t, id, c, x);
      assert id != 0;
    }
  }

  ghost predicate AdoptionOf(log: seq<Event>, k: nat, c: Name)
    requires k < |log|
  {
    log[k].Adopted? && log[k].client == c
  }

  /** c was adopted at or after position n. */
  ghost predicate AdoptedAfter(log: seq<Event>, n: nat, c: Name) {
    exists k :: n <= k < |log| && AdoptionOf(log, k, c)
  }

  /** The first i added clients that AdGuard knows have been adopted at or after position n. */
  ghost predicate AdoptedUpTo(log: seq<Event>, n: nat, added: seq<Name>, net: Net, i: nat)
    requires i <= |added|
  {
    forall j | 0 <= j < i && added[j] in net.clients :: AdoptedAfter(log, n, added[j])
  }

  /** From n on, log holds only adoptions of added clients, each with the baseline read at r. */
  ghost predicate AdoptionsFrom(first: State, log: seq<Event>, n: nat, r: State, child: ChildId, siblings: seq<Name>,
                                added: seq<Name>)
    requires Run(first, log)
  {
    forall k | n <= k < |log| ::
      && Run(first, log[..k])
      && AdoptsBaseline(r, Replay(first, log[..k]), log[k], child, siblings)
      && log[k].client in added
  }

  lemma MoreAdoptions(first: State, log0: seq<Event>, log: seq<Event>, n: nat, r: State, child: ChildId,
                      siblings: seq<Name>, added: seq<Name>, i: nat)
    requires log0 <= log && n <= |log0| && |log| <= |log0| + 1 && i < |added|
    requires Run(first, log0) && Run(first, log) && AdoptionsFrom(first, log0, n, r, child, siblings, added)
    requires |log| > |log0| ==>
              AdoptsBaseline(r, Replay(first, log0), Last(log), child, siblings) && Last(log).client == added[i]
    ensures AdoptionsFrom(first, log, n, r, child, siblings, added)
    ensures forall c | AdoptedAfter(log0, n, c) :: AdoptedAfter(log, n, c)
    ensures |log| > |log0| ==> AdoptedAfter(log, n, added[i])
  {
    forall k, c | 0 <= k < |log0| ensures AdoptionOf(log0, k, c) ==> AdoptionOf(log, k, c) {}
    assert |log| > |log0| ==> AdoptionOf(log, |log0|, added[i]);
    forall k | n <= k < |log|
      ensures Run(first, log[..k]) && AdoptsBaseline(r, Replay(first, log[..k]), log[k], child, siblings)
      ensures log[k].client in added
    {
      if k < |log0| { assert log[..k] == log0[..k]; } else { assert log[..k] == log0; }
    }
  }

  lemma FullyReverted(s0: State, s: State, g: Grant)
    requires IsActive(s0.t, g.id) && s0.t.grants[g.id] == g
    requires RevertResult(s0, s, g, []) && s.t == s0.t
    ensures Reverted(s, g.id) && RevertedAll(s0, s, g)
  {
    forall c, x | c in s.ag.clients && Covers(g, c, x) && !Held(s.t, g.id, c, x) ensures Own(s, c, x) {
      assert RevertedOn(s0, s, g, c);
      assert Returns(s0.t, g, c, x);
    }
  }

  /** A revert measured up to a state with the same lists is the same revert. */
  lemma SameLists(s: State, m: State, s': State, g: Grant)
    requires m.ag == s'.ag
    ensures OnlyReverts(s, m, g) ==> OnlyReverts(s, s', g)
    ensures RevertedAll(s, m, g) ==> RevertedAll(s, s', g)
  {
    assert forall c, x :: Own(m, c, x) <==> Own(s', c, x);
    forall c
      ensures SameOn(s, m, c) ==> SameOn(s, s', c)
      ensures RevertedOn(s, m, g, c) ==> RevertedOn(s, s', g, c)
    {
    }
  }

  /** A revert measured from a state with the same tables and lists is the same revert. */
  lemma SameReference(s: State, m: State, s': State, g: Grant)
    requires s.t == m.t && s.ag == m.ag
    ensures OnlyReverts(m, s', g) ==> OnlyReverts(s, s', g)
    ensures RevertedAll(m, s', g) ==> RevertedAll(s, s', g)
  {
    assert forall c, x :: Own(m, c, x) <==> Own(s, c, x);
    forall c
      ensures SameOn(m, s', c) ==> SameOn(s, s', c)
      ensures RevertedOn(m, s', g, c) ==> RevertedOn(s, s', g, c)
    {
    }
  }

  /** Halfway through a revert: the first i clients are done or failed, the others are as they were. */
  ghost predicate PartlyReverted(s0: State, s: State, g: Grant, i: nat, failed: seq<Name>)
    requires i <= |g.clients|
  {
    OnlyLists(s0, s) && forall c :: ClientAt(s0, s, g, i, failed, c)
  }

  /** Where a revert stands with client c. */
  ghost predicate ClientAt(s0: State, s: State, g: Grant, i: nat, failed: seq<Name>, c: Name)
    requires i <= |g.clients|
  {
    if c !in g.clients[..i] then SameOn(s0, s, c) && c !in failed
    else RevertedOn(s0, s, g, c) || (SameOn(s0, s, c) && c in failed)
  }

  /** ids is just what g's end gives back on client c. */
  ghost predicate GivesBack(t: Tables, g: Grant, c: Name, ids: seq<Service>) {
    forall x :: x in ids <==> Returns(t, g, c, x)
  }

  /** The clients on which g's end gives something back; the others are fully held open. */
  ghost function Owed(t: Tables, g: Grant): set<Name> {
    set c | c in g.clients && exists x :: Returns(t, g, c, x)
  }

  /** plan lists, for each client, just what g's end gives back there. */
  ghost predicate IsPlan(t: Tables, g: Grant, plan: map<Name, seq<Service>>) {
    forall c, x :: (c in plan && x in plan[c]) <==> Returns(t, g, c, x)
  }

  lemma PlanAt(t: Tables, g: Grant, plan: map<Name, seq<Service>>, c: Name)
    requires IsPlan(t, g, plan)
    ensures if c in plan then GivesBack(t, g, c, plan[c]) else forall x :: !Returns(t, g, c, x)
  {
  }

  lemma PlanIsReturns(t: Tables, g: Grant, active: seq<Grant>, plan: map<Name, seq<Service>>)
    requires GrantsOk(t) && ListsActive(t, active)
    requires forall c | c in plan :: c in g.clients && plan[c] != []
    requires forall c, x | c in g.clients ::
               (c in plan && x in plan[c]) <==> x in g.services && !HeldIn(active, g.id, c, x)
    ensures IsPlan(t, g, plan) && plan.Keys == Owed(t, g)
  {
    forall c, x ensures HeldIn(active, g.id, c, x) <==> Held(t, g.id, c, x) {
      HeldInIsHeld(t, active, g.id, c, x);
    }
    forall c | c in plan ensures Returns(t, g, c, plan[c][0]) {
      assert plan[c][0] in plan[c];
    }
  }

  lemma NextPrefix(g: Grant, i: nat)
    requires i < |g.clients| && Ascending(g.clients)
    ensures g.clients[i] !in g.clients[..i]
    ensures forall c :: c in g.clients[..i + 1] <==> c in g.clients[..i] || c == g.clients[i]
  {
    AscendingAll(g.clients);
    assert g.clients[..i + 1] == g.clients[..i] + [g.clients[i]];
  }

  lemma NothingToRevert(s0: State, s: State, g: Grant, i: nat, failed: seq<Name>)
    requires i < |g.clients| && Ascending(g.clients) && PartlyReverted(s0, s, g, i, failed)
    requires forall x :: !Returns(s0.t, g, g.clients[i], x)
    ensures PartlyReverted(s0, s, g, i + 1, failed)
  {
    NextPrefix(g, i);
    var next := i + 1;
    forall c ensures ClientAt(s0, s, g, next, failed, c) {
      assert ClientAt(s0, s, g, i, failed, c);
    }
  }

  /** One call of a revert moves only its own client, and moves it all the way when it succeeds. */
  lemma RevertCall(s0: State, m: State, s': State, g: Grant, i: nat, failed: seq<Name>, ids: seq<Service>,
                   err: Option<AdGuardHome.Error>, more: seq<Name>)
    requires i < |g.clients| && Ascending(g.clients) && PartlyReverted(s0, m, g, i, failed)
    requires more == if err.Some? && err.value != ClientNotFound then [g.clients[i]] else []
    requires s' == m.(ag := s'.ag)
    requires GivesBack(s0.t, g, g.clients[i], ids)
    requires EditOutcome(m.ag, s'.ag, g.clients[i], Add(ids), err)
    ensures PartlyReverted(s0, s', g, i + 1, failed + more)
  {
    OthersKept(s0, m, s', g.clients[i], Add(ids), err);
    var next, all := i + 1, failed + more;
    forall c ensures ClientAt(s0, s', g, next, all, c) {
      RevertCallAt(s0, m, s', g, i, failed, ids, err, more, c);
    }
  }

  lemma RevertCallAt(s0: State, m: State, s': State, g: Grant, i: nat, failed: seq<Name>, ids: seq<Service>,
                     err: Option<AdGuardHome.Error>, more: seq<Name>, c: Name)
    requires i < |g.clients| && Ascending(g.clients) && OnlyLists(s0, m) && ClientAt(s0, m, g, i, failed, c)
    requires more == if err.Some? && err.value != ClientNotFound then [g.clients[i]] else []
    requires s' == m.(ag := s'.ag)
    requires GivesBack(s0.t, g, g.clients[i], ids)
    requires EditOutcome(m.ag, s'.ag, g.clients[i], Add(ids), err)
    ensures ClientAt(s0, s', g, i + 1, failed + more, c)
  {
    NextPrefix(g, i);
    assert c in more <==> err.Some? && err.value != ClientNotFound && c == g.clients[i];
    if c == g.clients[i] {
      OneReverted(s0, m, s', g, c, ids, err);
    } else {
      OtherClient(s0, m, s', g, g.clients[i], Add(ids), err, c);
    }
  }

  lemma OneReverted(s0: State, m: State, s': State, g: Grant, name: Name, ids: seq<Service>,
                    err: Option<AdGuardHome.Error>)
    requires OnlyLists(s0, m) && SameOn(s0, m, name) && s' == m.(ag := s'.ag)
    requires GivesBack(s0.t, g, name, ids)
    requires EditOutcome(m.ag, s'.ag, name, Add(ids), err)
    ensures SameOn(s0, s', name) || RevertedOn(s0, s', g, name)
    ensures err.None? || err == Some(ClientNotFound) ==> RevertedOn(s0, s', g, name)
  {
  }

  /** One edit of a list, done or failed, changes nothing else. */
  lemma OthersKept(s0: State, m: State, s': State, name: Name, e: Edit, err: Option<AdGuardHome.Error>)
    requires OnlyLists(s0, m) && s' == m.(ag := s'.ag) && (e.Add? || e.Remove?)
    requires EditOutcome(m.ag, s'.ag, name, e, err)
    ensures OnlyLists(s0, s')
  {
  }

  /** And it leaves every other client as it was. */
  lemma OtherClient(s0: State, m: State, s': State, g: Grant, name: Name, e: Edit, err: Option<AdGuardHome.Error>,
                    c: Name)
    requires s' == m.(ag := s'.ag) && EditOutcome(m.ag, s'.ag, name, e, err) && c != name
    ensures SameOn(s0, m, c) ==> SameOn(s0, s', c)
    ensures RevertedOn(s0, m, g, c) ==> RevertedOn(s0, s', g, c)
    ensures OpenedOn(s0, m, g, c) ==> OpenedOn(s0, s', g, c)
  {
    assert forall x :: Own(s', c, x) <==> Own(m, c, x);
  }

  lemma NoneReverted(s0: State, g: Grant)
    ensures PartlyReverted(s0, s0, g, 0, [])
  {
    forall c ensures ClientAt(s0, s0, g, 0, [], c) {}
  }

  lemma AllReverted(s0: State, s: State, g: Grant, failed: seq<Name>)
    requires PartlyReverted(s0, s, g, |g.clients|, failed)
    ensures RevertResult(s0, s, g, failed)
  {
    assert g.clients[..|g.clients|] == g.clients;
    forall c ensures c in failed ==> c in g.clients
             ensures RevertedOn(s0, s, g, c) || (SameOn(s0, s, c) && c in failed)
    {
      assert ClientAt(s0, s, g, |g.clients|, failed, c);
    }
  }
}
