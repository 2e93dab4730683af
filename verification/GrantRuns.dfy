/**
 What holds over whole runs of the engine, whatever fails and in whatever
 order grants start and finish.
 */
module GrantRuns {
  import opened Lists
  import opened Times
  import opened GrantStore
  import opened Timeline

  /** Grant id finished between s and s'. */
  ghost predicate FinishedSince(s: State, s': State, id: GrantId) {
    id in s'.t.grants && !IsActive(s'.t, id) && (id in s.t.grants ==> IsActive(s.t, id))
  }

  /** Some grant that finished between s and s' had covered x on c. */
  ghost predicate GrantedSince(s: State, s': State, c: Name, x: Service) {
    exists id :: FinishedSince(s, s', id) && Covers(s'.t.grants[id], c, x)
  }

  /** A finished grant is never touched again: it leaves active at most once, and keeps the names it had. */
  ghost predicate Frozen(s: State, s': State) {
    forall id | id in s.t.grants ::
      id in s'.t.grants && (!IsActive(s.t, id) ==> s'.t.grants[id] == s.t.grants[id])
  }

  lemma {:induction false} NeverTwice(s: State, es: seq<Event>)
    requires Valid(s) && Run(s, es)
    ensures Frozen(s, Replay(s, es))
  {
    if es != [] {
      var m := Replay(s, Front(es));
      NeverTwice(s, Front(es));
      ReachableValid(s, Front(es));
      assert Frozen(m, Apply(m, Last(es)));
    }
  }

  /** An expired grant had run its course: its recorded end is at or after its final ends_at. */
  ghost predicate RanOut(s: State, id: GrantId) {
    id in s.t.grants && s.t.grants[id].status.Expired? ==>
      s.t.grants[id].endedAt.Some? && s.t.grants[id].endsAt <= s.t.grants[id].endedAt.value <= s.now
  }

  lemma WholeSecondsReached(endsAt: int, now: int)
    requires endsAt % SECOND == 0 && endsAt <= now
    ensures endsAt <= WholeSeconds(now)
  {
  }

  lemma NeverEarlyStep(s: State, m: State, e: Event, id: GrantId)
    requires Valid(m) && Enabled(m, e) && Frozen(s, m)
    requires FinishedSince(s, m, id) ==> RanOut(m, id)
    ensures FinishedSince(s, Apply(m, e), id) ==> RanOut(Apply(m, e), id)
  {
    if e.Finished? && e.id == id && e.status.Expired? {
      WholeSecondsReached(m.t.grants[id].endsAt, m.now);
    }
  }

  lemma {:induction false} NeverEarly(s: State, es: seq<Event>, id: GrantId)
    requires Valid(s) && Run(s, es)
    requires FinishedSince(s, Replay(s, es), id)
    ensures RanOut(Replay(s, es), id)
  {
    if es != [] {
      ReachableValid(s, Front(es));
      NeverTwice(s, Front(es));
      if FinishedSince(s, Replay(s, Front(es)), id) { NeverEarly(s, Front(es), id); }
      NeverEarlyStep(s, Replay(s, Front(es)), Last(es), id);
    }
  }

  /** How the state at client c and service x relates to the start. */
  ghost predicate Conserved(s: State, s': State, c: Name, x: Service) {
    && c in s.ag.clients && c in s'.ag.clients
    && s'.ag.clients[c].useGlobal == s.ag.clients[c].useGlobal
    && (Idle(s', c, x) ==> (Own(s', c, x) <==> Own(s, c, x) || GrantedSince(s, s', c, x)))
  }

  lemma OwnStep(m: State, e: Event, c: Name, x: Service)
    requires Valid(m) && Enabled(m, e) && ByGrants(e, c) && c in m.ag.clients
    ensures c in Apply(m, e).ag.clients
    ensures Apply(m, e).ag.clients[c].useGlobal == m.ag.clients[c].useGlobal
    ensures Idle(m, c, x) ==> (Own(Apply(m, e), c, x) <==> Own(m, c, x))
    ensures Own(m, c, x) && !e.Opened? ==> Own(Apply(m, e), c, x)
  {
    assert (e.Reblocked? || e.Opened?) && e.client == c && x in e.ids ==> Holds(m.t, e.grant, c, x);
  }

  /** A rename of other clients changes no grant's cover of c. */
  lemma OtherRename(t: Tables, from: Name, to: Name, c: Name, id: GrantId)
    requires id in t.grants && from != to && c != from && c != to
    ensures id in RenameIn(t, from, to).grants
    ensures RenameIn(t, from, to).grants[id].status == t.grants[id].status
    ensures RenameIn(t, from, to).grants[id].services == t.grants[id].services
    ensures c in RenameIn(t, from, to).grants[id].clients <==> c in t.grants[id].clients
  {
  }

  /** No change adds c to a grant or takes it out, and only its end makes one inactive. */
  lemma CoverKept(m: State, e: Event, c: Name, id: GrantId)
    requires Valid(m) && Enabled(m, e) && ByGrants(e, c) && id in m.t.grants
    ensures id in Apply(m, e).t.grants
    ensures c in Apply(m, e).t.grants[id].clients <==> c in m.t.grants[id].clients
    ensures Apply(m, e).t.grants[id].services == m.t.grants[id].services
    ensures Apply(m, e).t.grants[id].status == m.t.grants[id].status || (e.Finished? && e.id == id)
  {
    if e.RenamedInStore? { OtherRename(m.t, e.from, e.to, c, id); }
  }

  lemma IdleBefore(m: State, e: Event, c: Name, x: Service)
    requires Valid(m) && Enabled(m, e) && ByGrants(e, c)
    requires Idle(Apply(m, e), c, x)
    requires e.Finished? ==> !Covers(m.t.grants[e.id], c, x)
    ensures Idle(m, c, x)
  {
    forall id ensures !Holds(m.t, id, c, x) {
      assert !Holds(Apply(m, e).t, id, c, x);
      if id in m.t.grants { CoverKept(m, e, c, id); }
    }
  }

  lemma ConservedStep(s: State, m: State, e: Event, c: Name, x: Service)
    requires Valid(m) && Enabled(m, e) && ByGrants(e, c)
    requires c in s.ag.clients && Frozen(s, m) && Conserved(s, m, c, x)
    ensures Conserved(s, Apply(m, e), c, x)
  {
    var s' := Apply(m, e);
    OwnStep(m, e, c, x);
    if Idle(s', c, x) {
      if e.Finished? && Covers(m.t.grants[e.id], c, x) {
        LastOneReverted(m, e, c, x);
        assert FinishedSince(s, s', e.id) && Covers(s'.t.grants[e.id], c, x);
      } else {
        IdleBefore(m, e, c, x);
        SameFinishers(s, m, e, c, x);
      }
    }
  }

  lemma LastOneReverted(m: State, e: Event, c: Name, x: Service)
    requires Valid(m) && Enabled(m, e) && e.Finished? && Covers(m.t.grants[e.id], c, x)
    requires Idle(Apply(m, e), c, x) && c in m.ag.clients
    ensures Own(m, c, x)
  {
    forall id ensures !(id != e.id && Holds(m.t, id, c, x)) {
      assert !Holds(Apply(m, e).t, id, c, x);
    }
    assert !Held(m.t, e.id, c, x);
  }

  lemma SameFinisher(s: State, m: State, e: Event, id: GrantId, c: Name, x: Service)
    requires Valid(m) && Enabled(m, e) && ByGrants(e, c)
    requires e.Finished? ==> !Covers(m.t.grants[e.id], c, x)
    ensures FinishedSince(s, m, id) && Covers(m.t.grants[id], c, x) <==>
            FinishedSince(s, Apply(m, e), id) && Covers(Apply(m, e).t.grants[id], c, x)
  {
  }

  lemma SameFinishers(s: State, m: State, e: Event, c: Name, x: Service)
    requires Valid(m) && Enabled(m, e) && ByGrants(e, c)
    requires e.Finished? ==> !Covers(m.t.grants[e.id], c, x)
    ensures GrantedSince(s, m, c, x) <==> GrantedSince(s, Apply(m, e), c, x)
  {
    var s' := Apply(m, e);
    forall id
      ensures FinishedSince(s, m, id) && Covers(m.t.grants[id], c, x) <==>
                FinishedSince(s, s', id) && Covers(s'.t.grants[id], c, x)
    {
      SameFinisher(s, m, e, id, c, x);
    }
  }

  /**
   Conservation: over any run, with any calls failing, a service no active
   grant covers on a client is in the client's own list exactly when it was
   there at the start or a grant that has finished since covered it there.
   */
  lemma {:induction false} Conservation(s: State, es: seq<Event>, c: Name, x: Service)
    requires Valid(s) && Run(s, es) && c in s.ag.clients
    requires forall e | e in es :: ByGrants(e, c)
    ensures Conserved(s, Replay(s, es), c, x)
  {
    if es != [] {
      assert forall e | e in Front(es) :: e in es;
      Conservation(s, Front(es), c, x);
      NeverTwice(s, Front(es));
      ReachableValid(s, Front(es));
      ConservedStep(s, Replay(s, Front(es)), Last(es), c, x);
    }
  }

  /**
   Once no grant is active, every list is what it was plus what was granted on
   it; so it is restored exactly when everything granted was blocked before.
   */
  lemma AllFinished(s: State, es: seq<Event>, c: Name)
    requires Valid(s) && Run(s, es) && c in s.ag.clients
    requires forall e | e in es :: ByGrants(e, c)
    requires forall id :: !IsActive(Replay(s, es).t, id)
    ensures forall x :: Own(Replay(s, es), c, x) <==> Own(s, c, x) || GrantedSince(s, Replay(s, es), c, x)
    ensures (forall x :: Own(Replay(s, es), c, x) <==> Own(s, c, x)) <==>
            (forall x :: GrantedSince(s, Replay(s, es), c, x) ==> Own(s, c, x))
  {
    forall x ensures Own(Replay(s, es), c, x) <==> Own(s, c, x) || GrantedSince(s, Replay(s, es), c, x) {
      Conservation(s, es, c, x);
      forall id ensures !Holds(Replay(s, es).t, id, c, x) {
        assert !IsActive(Replay(s, es).t, id);
      }
    }
  }

  /** Events of End, expiry and Reconcile passes: no new grant, no client edited but by reverts and drift repair. */
  predicate Winding(e: Event) {
    && !e.Stored? && !e.Adopted? && !e.Created? && !e.Edited? && !e.Removed?
    && !e.RenamedOnNet? && !e.RenamedInStore?
  }

  /** Everything in grants of s' was there in s, the same but for its end and status. */
  ghost predicate NothingNew(s: State, s': State, id: GrantId) {
    && (IsActive(s'.t, id) ==> IsActive(s.t, id))
    && (id in s'.t.grants <==> id in s.t.grants)
    && (id in s.t.grants ==>
          && s'.t.grants[id].clients == s.t.grants[id].clients
          && s'.t.grants[id].services == s.t.grants[id].services
          && s'.t.grants[id].child == s.t.grants[id].child)
  }

  lemma NothingNewStep(m: State, e: Event, id: GrantId)
    requires Enabled(m, e) && Winding(e)
    ensures NothingNew(m, Apply(m, e), id)
  {
  }

  lemma {:induction false} NothingNewActive(s: State, es: seq<Event>, id: GrantId)
    requires Run(s, es) && forall e | e in es :: Winding(e)
    ensures NothingNew(s, Replay(s, es), id)
  {
    if es != [] {
      assert forall e | e in Front(es) :: e in es;
      NothingNewActive(s, Front(es), id);
      NothingNewStep(Replay(s, Front(es)), Last(es), id);
    }
  }

  /** A change that touches c by no more than grants, none of them new for x there. */
  predicate OldGrants(e: Event, c: Name, x: Service) {
    ByGrants(e, c) && (e.Stored? ==> !Covers(e.g, c, x))
  }

  lemma CoverBefore(m: State, e: Event, c: Name, x: Service, id: GrantId)
    requires Valid(m) && Enabled(m, e) && OldGrants(e, c, x)
    requires id in Apply(m, e).t.grants && Covers(Apply(m, e).t.grants[id], c, x)
    ensures id in m.t.grants && Covers(m.t.grants[id], c, x)
    ensures IsActive(Apply(m, e).t, id) ==> IsActive(m.t, id)
  {
    if id in m.t.grants { CoverKept(m, e, c, id); }
  }

  /** Whatever covers x on c after such changes covered it before them. */
  lemma {:induction false} CoverIsOld(s: State, es: seq<Event>, c: Name, x: Service, id: GrantId)
    requires Valid(s) && Run(s, es) && forall e | e in es :: OldGrants(e, c, x)
    requires id in Replay(s, es).t.grants && Covers(Replay(s, es).t.grants[id], c, x)
    ensures id in s.t.grants && Covers(s.t.grants[id], c, x)
    ensures IsActive(Replay(s, es).t, id) ==> IsActive(s.t, id)
  {
    if es != [] {
      assert forall e | e in Front(es) :: e in es;
      ReachableValid(s, Front(es));
      CoverBefore(Replay(s, Front(es)), Last(es), c, x, id);
      CoverIsOld(s, Front(es), c, x, id);
    }
  }

  /** x on c was put back by the one grant g that still covered it, if any. */
  ghost predicate PutBackBy(s: State, s': State, c: Name, x: Service, g: GrantId) {
    Holds(s.t, g, c, x) && forall h | Holds(s'.t, h, c, x) :: h == g
  }

  /**
   Reference counting: whatever happens to other clients, ending, expiring or
   reconciling never adds to a client's list a service that another grant,
   still active afterwards, covers there.
   */
  lemma {:induction false} RefCounted(s: State, es: seq<Event>, c: Name, x: Service)
    requires Valid(s) && Run(s, es) && forall e | e in es :: OldGrants(e, c, x)
    ensures Own(Replay(s, es), c, x) && !Own(s, c, x) ==> exists g :: PutBackBy(s, Replay(s, es), c, x, g)
  {
    if es != [] && Own(Replay(s, es), c, x) && !Own(s, c, x) {
      assert forall e | e in Front(es) :: e in es;
      var m := Replay(s, Front(es));
      RefCounted(s, Front(es), c, x);
      ReachableValid(s, Front(es));
      if Own(m, c, x) {
        var g :| PutBackBy(s, m, c, x, g);
        HoldsBefore(m, Last(es), c, x);
        assert PutBackBy(s, Replay(s, es), c, x, g);
      } else {
        var g := PutBackNow(m, Last(es), c, x);
        CoverIsOld(s, Front(es), c, x, g);
        assert PutBackBy(s, Replay(s, es), c, x, g);
      }
    }
  }

  lemma HoldsBefore(m: State, e: Event, c: Name, x: Service)
    requires Valid(m) && Enabled(m, e) && OldGrants(e, c, x)
    ensures forall h | Holds(Apply(m, e).t, h, c, x) :: Holds(m.t, h, c, x)
  {
    forall h | Holds(Apply(m, e).t, h, c, x) ensures Holds(m.t, h, c, x) {
      CoverBefore(m, e, c, x, h);
    }
  }

  /** The event that adds x to c's list reverts g, and no other active grant covers x there. */
  lemma PutBackNow(m: State, e: Event, c: Name, x: Service) returns (g: GrantId)
    requires Valid(m) && Enabled(m, e) && OldGrants(e, c, x) && Own(Apply(m, e), c, x) && !Own(m, c, x)
    ensures PutBackBy(m, Apply(m, e), c, x, g)
  {
    g := AddedByRevert(m, e, c, x);
    HoldsBefore(m, e, c, x);
  }

  lemma AddedByRevert(m: State, e: Event, c: Name, x: Service) returns (g: GrantId)
    requires Enabled(m, e) && ByGrants(e, c) && Own(Apply(m, e), c, x) && !Own(m, c, x)
    ensures e.Reblocked? && e.client == c && x in e.ids && g == e.grant
    ensures Holds(m.t, g, c, x) && !Held(m.t, g, c, x)
  {
    assert e.Reblocked?;
    g := e.grant;
  }
}
