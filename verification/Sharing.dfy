/**
 Devices that join a child while grants run: what they block once the grants
 are over. And what a rename moves.
 */
module Sharing {
  import opened Lists
  import opened AdGuardHome
  import opened GrantStore
  import opened Timeline
  import opened GrantRuns

  ghost predicate Blocks(s: State, c: Name, x: Service) {
    c in s.ag.clients && x in Effective(s.ag, c)
  }

  ghost predicate KnownSibling(s: State, siblings: seq<Name>, c: Name) {
    c in siblings && c in s.ag.clients
  }

  /** The grant is the child's, or is stored on a known sibling. */
  ghost predicate Touches(s: State, g: Grant, child: ChildId, siblings: seq<Name>) {
    g.child == child || exists c :: KnownSibling(s, siblings, c) && c in g.clients
  }

  /** The baseline of a child: what a device joining it must block. */
  ghost predicate InBaseline(s: State, child: ChildId, siblings: seq<Name>, x: Service) {
    || (exists c :: KnownSibling(s, siblings, c) && Blocks(s, c, x))
    || ((forall c :: !KnownSibling(s, siblings, c)) && x in s.ag.global)
    || (exists id :: IsActive(s.t, id) && Touches(s, s.t.grants[id], child, siblings) && x in s.t.grants[id].services)
  }

  /** One AdoptClients write at s: the baseline read at r, less what an active grant covers on the client. */
  ghost predicate AdoptsBaseline(r: State, s: State, e: Event, child: ChildId, siblings: seq<Name>) {
    e.Adopted? && Enabled(s, e) &&
    forall x :: x in e.ids <==> InBaseline(r, child, siblings, x) && Idle(s, e.client, x)
  }

  /** Adopting never shrinks what the client blocks, and never newly blocks what an active grant covers there. */
  lemma AdoptIsGentle(s: State, e: Event, x: Service)
    requires e.Adopted? && Enabled(s, e)
    ensures Blocks(s, e.client, x) ==> Blocks(Apply(s, e), e.client, x)
    ensures Blocks(Apply(s, e), e.client, x) && !Blocks(s, e.client, x) ==> Idle(Apply(s, e), e.client, x)
    ensures !Apply(s, e).ag.clients[e.client].useGlobal
    ensures forall c | c in s.ag.clients && c != e.client :: Apply(s, e).ag.clients[c] == s.ag.clients[c]
  {
    if Idle(s, e.client, x) {
      forall id ensures !Holds(Apply(s, e).t, id, e.client, x) {
        assert !Holds(s.t, id, e.client, x);
      }
    }
  }

  /**
   Sharing a device mid-grant: whatever happens next, once no active grant
   covers the device it blocks all it blocked before plus the whole baseline,
   and nothing beyond that but what finished grants had covered on it.
   */
  lemma AdoptedBlocksBaseline(r: State, s: State, e: Event, child: ChildId, siblings: seq<Name>, es: seq<Event>,
                              x: Service)
    requires Valid(s) && AdoptsBaseline(r, s, e, child, siblings)
    requires Run(Apply(s, e), es) && forall e' | e' in es :: ByGrants(e', e.client)
    requires Idle(Replay(Apply(s, e), es), e.client, x)
    ensures var s' := Replay(Apply(s, e), es);
            && (Blocks(s, e.client, x) || InBaseline(r, child, siblings, x) ==> Blocks(s', e.client, x))
            && (Blocks(s', e.client, x) ==>
                  || Blocks(s, e.client, x) || InBaseline(r, child, siblings, x)
                  || GrantedSince(Apply(s, e), s', e.client, x))
  {
    var s1 := Apply(s, e);
    var s' := Replay(s1, es);
    ValidStep(s, e);
    Conservation(s1, es, e.client, x);
    NeverTwice(s1, es);
    AdoptIsGentle(s, e, x);
    if InBaseline(r, child, siblings, x) && !Idle(s, e.client, x) {
      var id :| Holds(s.t, id, e.client, x);
      HeldThenFinished(s1, es, e.client, x, id);
    }
  }

  /** A grant that covered x on c and no longer does has finished. */
  lemma HeldThenFinished(s: State, es: seq<Event>, c: Name, x: Service, id: GrantId)
    requires Valid(s) && Run(s, es) && forall e | e in es :: ByGrants(e, c)
    requires Holds(s.t, id, c, x) && Idle(Replay(s, es), c, x)
    ensures GrantedSince(s, Replay(s, es), c, x)
  {
    SameCover(s, es, c, id);
    var s' := Replay(s, es);
    assert !Holds(s'.t, id, c, x);
    assert FinishedSince(s, s', id) && Covers(s'.t.grants[id], c, x);
  }

  lemma {:induction false} SameCover(s: State, es: seq<Event>, c: Name, id: GrantId)
    requires Valid(s) && Run(s, es) && forall e | e in es :: ByGrants(e, c)
    requires id in s.t.grants
    ensures id in Replay(s, es).t.grants
    ensures c in Replay(s, es).t.grants[id].clients <==> c in s.t.grants[id].clients
    ensures Replay(s, es).t.grants[id].services == s.t.grants[id].services
  {
    if es != [] {
      assert forall e | e in Front(es) :: e in es;
      SameCover(s, Front(es), c, id);
      ReachableValid(s, Front(es));
      CoverKept(Replay(s, Front(es)), Last(es), c, id);
    }
  }

  /** One CreateClient add for a child: a new device with the child's baseline as its own list. */
  ghost predicate CreatesWithBaseline(s: State, e: Event, child: ChildId, siblings: seq<Name>) {
    e.Created? && Enabled(s, e) && !e.dev.useGlobal &&
    forall x :: x in e.dev.blocked <==> InBaseline(s, child, siblings, x)
  }

  lemma {:induction false} GlobalSame(s: State, es: seq<Event>)
    requires Run(s, es)
    ensures Replay(s, es).ag.global == s.ag.global
  {
    if es != [] { GlobalSame(s, Front(es)); }
  }

  /**
   Joining mid-grant: whatever happens to other devices, once no active grant
   covers x on the new device or the sibling, and none that does on the
   sibling is newer than the join, the new device blocks x if the sibling
   does; so with no new grants it blocks everything each known sibling blocks.
   */
  lemma JoinerBlocksSiblings(s: State, e: Event, child: ChildId, siblings: seq<Name>, es: seq<Event>, sib: Name,
                             x: Service)
    requires Valid(s) && CreatesWithBaseline(s, e, child, siblings) && KnownSibling(s, siblings, sib)
    requires Run(Apply(s, e), es) && forall e' | e' in es :: ByGrants(e', e.client) && OldGrants(e', sib, x)
    requires Idle(Replay(Apply(s, e), es), e.client, x) && Idle(Replay(Apply(s, e), es), sib, x)
    requires Blocks(Replay(Apply(s, e), es), sib, x)
    ensures Blocks(Replay(Apply(s, e), es), e.client, x)
  {
    var s1, s' := Apply(s, e), Replay(Apply(s, e), es);
    ValidStep(s, e);
    Conservation(s1, es, sib, x);
    Conservation(s1, es, e.client, x);
    GlobalSame(s1, es);
    assert s1.ag.clients[sib] == s.ag.clients[sib];
    if Blocks(s, sib, x) {
      assert InBaseline(s, child, siblings, x);
    } else {
      assert !s.ag.clients[sib].useGlobal;
      var id :| FinishedSince(s1, s', id) && Covers(s'.t.grants[id], sib, x);
      CoverIsOld(s1, es, sib, x, id);
      assert Touches(s, s.t.grants[id], child, siblings);
      assert InBaseline(s, child, siblings, x);
    }
  }

  /**
   And it blocks nothing else: the siblings' lists at the join, the global one
   where no sibling is known, the services of active grants of the child or on
   a known sibling, and what finished grants have covered on it since.
   */
  lemma JoinerBlocksJust(s: State, e: Event, child: ChildId, siblings: seq<Name>, es: seq<Event>, x: Service)
    requires Valid(s) && CreatesWithBaseline(s, e, child, siblings)
    requires Run(Apply(s, e), es) && forall e' | e' in es :: ByGrants(e', e.client)
    requires Idle(Replay(Apply(s, e), es), e.client, x)
    ensures var net, grants := s.ag, s.t.grants;
            Blocks(Replay(Apply(s, e), es), e.client, x) <==>
              || (exists c :: c in siblings && c in net.clients &&
                              x in if net.clients[c].useGlobal then net.global else net.clients[c].blocked)
              || (x in net.global && forall c | c in siblings :: c !in net.clients)
              || (exists id :: id in grants && grants[id].status.Active? && x in grants[id].services &&
                               (grants[id].child == child ||
                                exists c :: c in siblings && c in net.clients && c in grants[id].clients))
              || GrantedSince(Apply(s, e), Replay(Apply(s, e), es), e.client, x)
  {
    ValidStep(s, e);
    Conservation(Apply(s, e), es, e.client, x);
    BaselineIs(s, child, siblings, x);
  }

  lemma BaselineIs(s: State, child: ChildId, siblings: seq<Name>, x: Service)
    ensures var net, grants := s.ag, s.t.grants;
            InBaseline(s, child, siblings, x) <==>
              || (exists c :: c in siblings && c in net.clients &&
                              x in if net.clients[c].useGlobal then net.global else net.clients[c].blocked)
              || (x in net.global && forall c | c in siblings :: c !in net.clients)
              || (exists id :: id in grants && grants[id].status.Active? && x in grants[id].services &&
                               (grants[id].child == child ||
                                exists c :: c in siblings && c in net.clients && c in grants[id].clients))
  {
    assert forall c | c in siblings && c in s.ag.clients :: KnownSibling(s, siblings, c);
  }

  /** A rename moves every active grant's cover from the old name to the new, joining what the new name already had. */
  lemma RenameMovesCover(t: Tables, from: Name, to: Name, id: GrantId, c: Name, x: Service)
    requires Wf(t) && from != to
    ensures Holds(RenameIn(t, from, to), id, c, x) <==>
              if c == from then false
              else if c == to then Holds(t, id, from, x) || Holds(t, id, to, x)
              else Holds(t, id, c, x)
    ensures id in t.grants && !t.grants[id].status.Active? ==> RenameIn(t, from, to).grants[id] == t.grants[id]
  {
  }

  /** After a rename no child maps the old name, and exactly the children that mapped either name map the new one. */
  lemma RenameMovesOwners(t: Tables, from: Name, to: Name, i: nat)
    requires from != to && i < |t.children|
    ensures |RenameIn(t, from, to).children| == |t.children|
    ensures var was, now := t.children[i], RenameIn(t, from, to).children[i];
            && now.id == was.id
            && from !in now.clients
            && (to in now.clients <==> from in was.clients || to in was.clients)
            && forall c | c != from && c != to :: c in now.clients <==> c in was.clients
  {
  }

  /** An AdGuard rename and the store's follow-up, as one move. */
  ghost function Moved(m: State, from: Name, to: Name): State
    requires from in m.ag.clients
  {
    m.(ag := Renamed(m.ag, from, to), t := RenameIn(m.t, from, to))
  }
}
