/**
 A tap on a preset button: one create, turned into an offer when it overlaps
 active grants; an accepted offer extends what overlaps and creates the rest.
 */
module Tap {
  import opened Wrappers
  import opened Lists

  /** A grant as the page lists it; times are absent on the stand-in for a grant known only by id. */
  datatype Target = Target(id: nat, child: nat, services: seq<Service>, clients: seq<Name>,
                           startedAt: Option<int>, endsAt: Option<int>)

  datatype Spec = Spec(key: nat, child: nat, services: seq<Service>, duration: nat, clients: seq<Name>)

  datatype Overlap = Overlap(overlapping: seq<Target>, remaining: seq<Service>)

  datatype Created = Created(id: nat, endsAt: int, applied: bool, failed: seq<Name>)

  datatype Failure = ApiError(status: nat, code: string, grantId: Option<nat>) | Unreachable

  datatype Reply<T> = Done(value: T) | Refused(failure: Failure)

  /** A POST to the server. */
  datatype Request = NewGrant(child: nat, services: seq<Service>, duration: nat) | Longer(id: nat, duration: nat)

  datatype Outcome =
    | Applied(grant: Target)
    | Partial(grant: Target, failed: seq<Name>)
    | Offered(targets: seq<Target>, remaining: seq<Service>)
    | Failed(code: string)
    | Ignored

  datatype CreateOutcome = Settled(outcome: Outcome) | Conflict(failure: Failure)

  // ----- overlapsFor -----

  predicate Shares(g: Target, child: nat, services: seq<Service>) {
    g.child == child && exists x | x in g.services :: x in services
  }

  function Sharing(child: nat, services: seq<Service>, grants: seq<Target>): (r: seq<Target>)
    ensures forall g :: g in r <==> g in grants && Shares(g, child, services)
    ensures multiset(r) <= multiset(grants)
  {
    if grants == [] then []
    else
      assert grants == [grants[0]] + grants[1..];
      (if Shares(grants[0], child, services) then [grants[0]] else []) + Sharing(child, services, grants[1..])
  }

  ghost predicate ById(s: seq<Target>) {
    forall i, j | 0 <= i < j < |s| :: s[i].id <= s[j].id
  }

  function InsertById(s: seq<Target>, g: Target): (r: seq<Target>)
    requires ById(s)
    ensures ById(r)
    ensures forall h :: h in r <==> h == g || h in s
  {
    if s == [] || s[|s| - 1].id <= g.id then s + [g]
    else
      var rest, last := s[..|s| - 1], s[|s| - 1];
      assert s == rest + [last];
      assert forall h | h in rest :: h.id <= last.id;
      var r := InsertById(rest, g);
      assert forall i | 0 <= i < |r| :: r[i] in r && r[i].id <= last.id;
      r + [last]
  }

  lemma InsertCounts(s: seq<Target>, g: Target)
    requires ById(s)
    ensures multiset(InsertById(s, g)) == multiset(s) + multiset{g}
  {
    if s != [] && s[|s| - 1].id > g.id {
      assert s == s[..|s| - 1] + [s[|s| - 1]];
      InsertCounts(s[..|s| - 1], g);
    }
  }

  /** sort((a, b) => a.id - b.id), which is stable. */
  function SortById(s: seq<Target>): (r: seq<Target>)
    ensures ById(r) && multiset(r) == multiset(s)
    ensures forall g :: g in r <==> g in s
  {
    if s == [] then []
    else
      assert s == s[..|s| - 1] + [s[|s| - 1]];
      InsertCounts(SortById(s[..|s| - 1]), s[|s| - 1]);
      InsertById(SortById(s[..|s| - 1]), s[|s| - 1])
  }

  function Covered(targets: seq<Target>): (r: set<Service>)
    ensures forall x :: x in r <==> exists g | g in targets :: x in g.services
  {
    set g, x | g in targets && x in g.services :: x
  }

  function OverlapsFor(child: nat, services: seq<Service>, grants: seq<Target>): (r: Overlap)
    ensures forall g :: g in r.overlapping <==> g in grants && Shares(g, child, services)
    ensures forall x :: x in r.remaining <==>
              x in services && forall g | g in grants && g.child == child :: x !in g.services
    ensures ById(r.overlapping) && multiset(r.overlapping) <= multiset(grants)
    ensures InOrder(r.remaining, services)
  {
    var overlapping := SortById(Sharing(child, services, grants));
    KeepExact(services, Members(services) - Covered(overlapping));
    Overlap(overlapping, Without(services, Covered(overlapping)))
  }

  /** Every tapped service is one of a target's or left to create. */
  ghost predicate CoversTap(spec: Spec, targets: seq<Target>, remaining: seq<Service>) {
    && targets != []
    && forall x | x in spec.services :: x in remaining || x in Covered(targets)
  }

  /** No tapped service is both a target's and left to create, or in two targets. */
  ghost predicate Splits(spec: Spec, targets: seq<Target>, remaining: seq<Service>) {
    && (forall x | x in spec.services && x in remaining :: x !in Covered(targets))
    && (forall i, j, x | 0 <= i < |targets| && 0 <= j < |targets| && i != j &&
                         x in spec.services && x in targets[i].services ::
          x !in targets[j].services)
  }

  /** As the store keeps it: the child's active grants have no service in common. */
  ghost predicate OneEach(grants: seq<Target>) {
    forall i, j | 0 <= i < |grants| && 0 <= j < |grants| && i != j :: NoneShared(grants[i], grants[j])
  }

  ghost predicate NoneShared(g: Target, h: Target) {
    g.child == h.child ==> forall x | x in g.services :: x !in h.services
  }

  ghost predicate PairAt(s: seq<Target>, a: Target, b: Target) {
    exists k, l :: 0 <= k < |s| && 0 <= l < |s| && k != l && s[k] == a && s[l] == b
  }

  lemma TwiceAt(s: seq<Target>, a: Target)
    requires multiset(s)[a] >= 2
    ensures PairAt(s, a, a)
  {
    var k :| 0 <= k < |s| && s[k] == a;
    var head, tail := s[..k], s[k + 1..];
    assert s == head + [a] + tail;
    assert a in multiset(head) || a in multiset(tail);
    if a in head {
      var l :| 0 <= l < |head| && head[l] == a;
      assert s[l] == a;
    } else {
      var l :| 0 <= l < |tail| && tail[l] == a;
      assert s[k + 1 + l] == a;
    }
  }

  lemma CountTwice(s: seq<Target>, i: nat, j: nat)
    requires i < j < |s| && s[i] == s[j]
    ensures multiset(s)[s[i]] >= 2
  {
    assert s == s[..j] + s[j..];
    assert s[i] in s[..j] && s[i] in s[j..];
  }

  lemma PairInSub(sub: seq<Target>, all: seq<Target>, i: nat, j: nat)
    requires multiset(sub) <= multiset(all) && i < |sub| && j < |sub| && i != j
    ensures PairAt(all, sub[i], sub[j])
  {
    var a, b := sub[i], sub[j];
    if a == b {
      CountTwice(sub, if i < j then i else j, if i < j then j else i);
      TwiceAt(all, a);
    } else {
      assert a in multiset(all) && b in multiset(all);
      var k :| 0 <= k < |all| && all[k] == a;
      var l :| 0 <= l < |all| && all[l] == b;
      assert k != l;
    }
  }

  /** An offer computed from a list where the store's rule holds splits the tap: each service goes to one place. */
  lemma OfferSplits(spec: Spec, grants: seq<Target>)
    requires OneEach(grants)
    ensures var o := OverlapsFor(spec.child, spec.services, grants);
            Splits(spec, o.overlapping, o.remaining)
  {
    var o := OverlapsFor(spec.child, spec.services, grants);
    RemainingUncovered(spec, grants);
    SubOneEach(o.overlapping, grants);
    SplitsFrom(spec, o.overlapping, o.remaining);
  }

  lemma SplitsFrom(spec: Spec, targets: seq<Target>, remaining: seq<Service>)
    requires OneEach(targets) && forall g | g in targets :: g.child == spec.child
    requires forall x | x in remaining :: x !in Covered(targets)
    ensures Splits(spec, targets, remaining)
  {
    forall i, j | 0 <= i < |targets| && 0 <= j < |targets| && i != j
      ensures forall x | x in targets[i].services :: x !in targets[j].services
    {
      assert targets[i] in targets && targets[j] in targets && NoneShared(targets[i], targets[j]);
    }
  }

  lemma RemainingUncovered(spec: Spec, grants: seq<Target>)
    ensures var o := OverlapsFor(spec.child, spec.services, grants);
            && (forall g | g in o.overlapping :: g.child == spec.child)
            && multiset(o.overlapping) <= multiset(grants)
            && forall x | x in o.remaining :: x !in Covered(o.overlapping)
  {
  }

  lemma SubOneEach(sub: seq<Target>, grants: seq<Target>)
    requires OneEach(grants) && multiset(sub) <= multiset(grants)
    ensures OneEach(sub)
  {
    forall i, j | 0 <= i < |sub| && 0 <= j < |sub| && i != j ensures NoneShared(sub[i], sub[j]) {
      NoneSharedIn(sub, grants, i, j);
    }
  }

  lemma NoneSharedIn(sub: seq<Target>, grants: seq<Target>, i: nat, j: nat)
    requires OneEach(grants) && multiset(sub) <= multiset(grants) && i < |sub| && j < |sub| && i != j
    ensures NoneShared(sub[i], sub[j])
  {
    PairInSub(sub, grants, i, j);
    var k, l :| 0 <= k < |grants| && 0 <= l < |grants| && k != l && grants[k] == sub[i] && grants[l] == sub[j];
    assert NoneShared(grants[k], grants[l]);
  }

  lemma OverlapCovers(spec: Spec, grants: seq<Target>)
    requires OverlapsFor(spec.child, spec.services, grants).overlapping != []
    ensures var o := OverlapsFor(spec.child, spec.services, grants);
            CoversTap(spec, o.overlapping, o.remaining)
  {
  }

  /** So does the offer that names one grant the page has no list entry for. */
  lemma StandInSplits(spec: Spec, id: nat)
    ensures GoodOffer(spec, [StandIn(id, spec.child)], spec.services)
    ensures Splits(spec, [StandIn(id, spec.child)], spec.services)
  {
    assert Covered([StandIn(id, spec.child)]) == {};
  }

  /** An offer as the page makes it: it covers the tap, targets by id. */
  ghost predicate GoodOffer(spec: Spec, targets: seq<Target>, remaining: seq<Service>) {
    CoversTap(spec, targets, remaining) && ById(targets)
  }

  // ----- what an accepted offer creates -----

  /** What is created once the targets in gone turned out to have ended, in tap order. */
  function Rest(spec: Spec, remaining: seq<Service>, gone: seq<Target>): (r: seq<Service>)
    ensures InOrder(r, spec.services)
  {
    KeepExact(spec.services, Kept(spec, remaining, gone));
    Keep(spec.services, Kept(spec, remaining, gone))
  }

  /** The services not extended: those left over, and those an ended target hands back. */
  function Kept(spec: Spec, remaining: seq<Service>, gone: seq<Target>): set<Service> {
    (set x | x in remaining) + (set x | x in Covered(gone) && x in spec.services)
  }

  /** What a target that has ended hands back. */
  function HandedBack(spec: Spec, g: Target): (r: set<Service>)
    ensures forall x :: x in r <==> x in g.services && x in spec.services
  {
    set x | x in g.services && x in spec.services
  }

  lemma KeptMore(spec: Spec, remaining: seq<Service>, gone: seq<Target>, g: Target)
    ensures Kept(spec, remaining, gone + [g]) == Kept(spec, remaining, gone) + HandedBack(spec, g)
  {
    assert Covered(gone + [g]) == Covered(gone) + set x | x in g.services;
  }

  ghost predicate Parted(targets: seq<Target>, extended: seq<Target>, gone: seq<Target>) {
    multiset(targets) == multiset(extended) + multiset(gone)
  }

  lemma PartedMore(targets: seq<Target>, extended: seq<Target>, gone: seq<Target>, g: Target)
    requires Parted(targets, extended, gone)
    ensures Parted(targets + [g], extended + [g], gone)
    ensures Parted(targets + [g], extended, gone + [g])
  {
  }

  lemma PartedMembers(targets: seq<Target>, extended: seq<Target>, gone: seq<Target>)
    requires Parted(targets, extended, gone)
    ensures forall g :: g in targets <==> g in extended || g in gone
    ensures Covered(targets) == Covered(extended) + Covered(gone)
  {
    forall g ensures g in targets <==> g in extended || g in gone {
      assert g in targets <==> g in multiset(targets);
      assert g in extended <==> g in multiset(extended);
      assert g in gone <==> g in multiset(gone);
    }
  }

  /** Whichever targets had ended, each tapped service was extended or is created. */
  lemma RestCovers(spec: Spec, targets: seq<Target>, remaining: seq<Service>, extended: seq<Target>, gone: seq<Target>)
    requires CoversTap(spec, targets, remaining) && Parted(targets, extended, gone)
    ensures forall x | x in spec.services :: x in Covered(extended) || x in Rest(spec, remaining, gone)
  {
    PartedMembers(targets, extended, gone);
  }

  /**
   When the offer splits the tap, what is created is just what no extended target
   covers, so the create cannot collide with them.
   */
  lemma RestIsTheComplement(spec: Spec, targets: seq<Target>, remaining: seq<Service>, extended: seq<Target>,
                            gone: seq<Target>)
    requires CoversTap(spec, targets, remaining) && Splits(spec, targets, remaining) && Parted(targets, extended, gone)
    ensures forall x | x in spec.services :: x in Rest(spec, remaining, gone) <==> x !in Covered(extended)
  {
    PartedMembers(targets, extended, gone);
    forall x, a, b | x in spec.services && a in extended && b in gone && x in b.services ensures x !in a.services {
      TwoTargets(targets, extended, gone, a, b);
    }
  }

  lemma TwoTargets(targets: seq<Target>, extended: seq<Target>, gone: seq<Target>, a: Target, b: Target)
    requires Parted(targets, extended, gone) && a in extended && b in gone
    ensures PairAt(targets, a, b)
  {
    var k :| 0 <= k < |extended| && extended[k] == a;
    var l :| 0 <= l < |gone| && gone[l] == b;
    assert multiset(extended + gone) == multiset(targets);
    PairInSub(extended + gone, targets, k, |extended| + l);
  }

  // ----- the flow -----

  function ErrorOutcome(f: Failure): Outcome {
    Failed(if f.ApiError? then f.code else "network")
  }

  function StandIn(id: nat, child: nat): Target {
    Target(id, child, [], [], None, None)
  }

  function Extends(targets: seq<Target>, duration: nat): seq<Request> {
    seq(|targets|, i requires 0 <= i < |targets| => Longer(targets[i].id, duration))
  }

  function Creates(spec: Spec, lists: seq<seq<Service>>): seq<Request> {
    seq(|lists|, i requires 0 <= i < |lists| => NewGrant(spec.child, lists[i], spec.duration))
  }

  /**
   The grant the page shows for a create: the one asked for, ending when the
   server says and begun its duration before.
   */
  ghost predicate Shown(g: Target, spec: Spec, services: seq<Service>) {
    && g.child == spec.child && g.services == services && g.clients == spec.clients
    && g.endsAt.Some? && g.startedAt.Some? && g.endsAt.value - g.startedAt.value == spec.duration
  }

  lemma ExtendsNext(targets: seq<Target>, duration: nat, i: nat)
    requires i < |targets|
    ensures Extends(targets[..i + 1], duration) == Extends(targets[..i], duration) + [Longer(targets[i].id, duration)]
  {
  }

  /** The grant reported: the one created for the rest, or the last one extended when nothing was left. */
  ghost predicate Reported(g: Target, spec: Spec, before: seq<seq<Service>>, after: seq<seq<Service>>,
                           extended: seq<Target>) {
    if after == before then extended != [] && g.endsAt.Some? && g == Last(extended).(endsAt := g.endsAt)
    else before < after && Shown(g, spec, after[|before|])
  }

  // ----- what each answer of the server comes to -----

  ghost predicate Fails(r: Outcome, f: Failure) {
    r == Failed(if f.ApiError? then f.code else "network")
  }

  ghost predicate IsConflict(f: Failure) {
    f.ApiError? && f.status == 409
  }

  /** A create the server granted as c: applied, or partial with the clients that failed. */
  ghost predicate GrantedAs(r: Outcome, spec: Spec, services: seq<Service>, c: Created) {
    && (if c.applied then r.Applied? else r.Partial? && r.failed == c.failed)
    && Shown(r.grant, spec, services) && r.grant.id == c.id && r.grant.endsAt == Some(c.endsAt)
  }

  ghost predicate OutcomeOf(r: Outcome, spec: Spec, services: seq<Service>, a: Reply<Created>) {
    match a
    case Done(c) => GrantedAs(r, spec, services, c)
    case Refused(f) => Fails(r, f)
  }

  /** The page's answer to a tap: as the server says, but a conflict becomes an offer of what is known to overlap. */
  ghost predicate TapOutcome(r: Outcome, spec: Spec, a: Reply<Created>, known: seq<Target>) {
    if a.Done? || !IsConflict(a.failure) then OutcomeOf(r, spec, spec.services, a)
    else
      var o, id := OverlapsFor(spec.child, spec.services, known), a.failure.grantId;
      if o.overlapping != [] then r == Offered(o.overlapping, o.remaining)
      else if id == None then Fails(r, a.failure)
      else r == Offered([Target(id.value, spec.child, [], [], None, None)], spec.services)
  }

  /** The extend was refused because its grant has ended. */
  ghost predicate IsGone(a: Reply<int>) {
    a.Refused? && a.failure.ApiError? && a.failure.status == 404
  }

  ghost predicate Stops(a: Reply<int>) {
    a.Refused? && !IsGone(a)
  }

  /** The targets, of those tried so far, that had ended, or else those that were extended. */
  ghost function Answered(targets: seq<Target>, got: seq<Reply<int>>, ended: bool): seq<Target>
    requires |got| <= |targets|
  {
    if got == [] then []
    else
      Answered(targets, Front(got), ended) +
      if (if ended then IsGone(Last(got)) else Last(got).Done?) then [targets[|got| - 1]] else []
  }

  /** The one extended last, with the end the server gave it. */
  ghost function LastExtended(targets: seq<Target>, got: seq<Reply<int>>): Option<Target>
    requires |got| <= |targets|
  {
    if got == [] then None
    else if Last(got).Done? then Some(targets[|got| - 1].(endsAt := Some(Last(got).value)))
    else LastExtended(targets, Front(got))
  }

  ghost predicate NoneStops(got: seq<Reply<int>>) {
    got == [] || (!Stops(Last(got)) && NoneStops(Front(got)))
  }

  ghost predicate StoppedBy(f: Failure, got: seq<Reply<int>>) {
    got != [] && Stops(Last(got)) && Last(got).failure == f
  }

  /** Unless an answer stops it, each target is extended or had ended. */
  lemma {:induction false} AnsweredParts(targets: seq<Target>, got: seq<Reply<int>>)
    requires |got| <= |targets| && NoneStops(got)
    ensures Parted(targets[..|got|], Answered(targets, got, false), Answered(targets, got, true))
  {
    if got != [] {
      var n := |got| - 1;
      AnsweredParts(targets, Front(got));
      assert targets[..n + 1] == targets[..n] + [targets[n]];
      PartedMore(targets[..n], Answered(targets, Front(got), false), Answered(targets, Front(got), true), targets[n]);
    }
  }

  lemma {:induction false} AnsweredById(targets: seq<Target>, got: seq<Reply<int>>)
    requires ById(targets) && |got| <= |targets|
    ensures ById(Answered(targets, got, false))
    ensures forall g | g in Answered(targets, got, false) :: got != [] && g.id <= targets[|got| - 1].id
  {
    if got != [] {
      AnsweredById(targets, Front(got));
    }
  }

  lemma {:induction false} LastIsLast(targets: seq<Target>, got: seq<Reply<int>>)
    requires |got| <= |targets|
    ensures var last, mine := LastExtended(targets, got), Answered(targets, got, false);
            if last == None then mine == []
            else mine != [] && last.value.endsAt.Some? && last.value == Last(mine).(endsAt := last.value.endsAt)
  {
    if got != [] { LastIsLast(targets, Front(got)); }
  }

  /** What is left to create once the extends are answered so. */
  ghost function LeftTo(spec: Spec, remaining: seq<Service>, targets: seq<Target>, got: seq<Reply<int>>): set<Service>
    requires |got| <= |targets|
  {
    Kept(spec, remaining, Answered(targets, got, true))
  }

  lemma AnsweredSnoc(targets: seq<Target>, got: seq<Reply<int>>, a: Reply<int>, ended: bool)
    requires |got| < |targets|
    ensures Answered(targets, got + [a], ended) ==
              Answered(targets, got, ended) + if (if ended then IsGone(a) else a.Done?) then [targets[|got|]] else []
  {
    assert Front(got + [a]) == got;
  }

  lemma LeftNext(spec: Spec, remaining: seq<Service>, targets: seq<Target>, got: seq<Reply<int>>, a: Reply<int>)
    requires |got| < |targets|
    ensures LeftTo(spec, remaining, targets, got + [a]) ==
              LeftTo(spec, remaining, targets, got) + if IsGone(a) then HandedBack(spec, targets[|got|]) else {}
  {
    AnsweredSnoc(targets, got, a, true);
    if IsGone(a) {
      KeptMore(spec, remaining, Answered(targets, got, true), targets[|got|]);
    } else {
      assert Answered(targets, got + [a], true) == Answered(targets, got, true);
    }
  }

  /** What the page has sent and been granted since, once the first targets are answered so. */
  ghost predicate SentSo(spec: Spec, targets: seq<Target>, got: seq<Reply<int>>, sent0: seq<Request>,
                         sent: seq<Request>, extended0: seq<Target>, extended: seq<Target>) {
    && |got| <= |targets|
    && sent == sent0 + Extends(targets[..|got|], spec.duration)
    && extended == extended0 + Answered(targets, got, false)
  }

  lemma SentNext(spec: Spec, targets: seq<Target>, got: seq<Reply<int>>, a: Reply<int>, sent0: seq<Request>,
                 sent: seq<Request>, extended0: seq<Target>, extended: seq<Target>)
    requires |got| < |targets| && SentSo(spec, targets, got, sent0, sent, extended0, extended)
    ensures var g := targets[|got|];
            SentSo(spec, targets, got + [a], sent0, sent + [Longer(g.id, spec.duration)], extended0,
                   if a.Done? then extended + [g] else extended)
  {
    ExtendsNext(targets, spec.duration, |got|);
    AnsweredSnoc(targets, got, a, false);
  }

  /** What the page is left with when no answer has stopped it. */
  ghost predicate LeftWith(spec: Spec, remaining: seq<Service>, targets: seq<Target>, got: seq<Reply<int>>,
                           last: Option<Target>, keep: set<Service>) {
    && |got| <= |targets| && NoneStops(got)
    && last == LastExtended(targets, got) && keep == LeftTo(spec, remaining, targets, got)
  }

  lemma LeftWithNext(spec: Spec, remaining: seq<Service>, targets: seq<Target>, got: seq<Reply<int>>, a: Reply<int>,
                     last: Option<Target>, keep: set<Service>)
    requires |got| < |targets| && LeftWith(spec, remaining, targets, got, last, keep) && !Stops(a)
    ensures var g := targets[|got|];
            LeftWith(spec, remaining, targets, got + [a], if a.Done? then Some(g.(endsAt := Some(a.value))) else last,
                     keep + if IsGone(a) then HandedBack(spec, g) else {})
  {
    LeftNext(spec, remaining, targets, got, a);
    assert Front(got + [a]) == got;
  }

  /** The page's answer to an accepted offer, from the server's to the extends and, at most once, to the create. */
  ghost predicate AcceptOutcome(r: Outcome, spec: Spec, sorted: seq<Target>, remaining: seq<Service>,
                                got: seq<Reply<int>>, made: seq<Reply<Created>>)
    requires |got| <= |sorted|
  {
    if got != [] && Stops(Last(got)) then Fails(r, Last(got).failure) && made == []
    else
      && |got| == |sorted| && NoneStops(got)
      && var rest := Rest(spec, remaining, Answered(sorted, got, true));
         if rest != [] then |made| == 1 && OutcomeOf(r, spec, rest, made[0])
         else
           && made == []
           && match LastExtended(sorted, got)
              case None => r == Failed("not_found")
              case Some(g) => r == Applied(g)
  }

  /** What the page asks to be created once the extends are answered so. */
  ghost function ToCreate(spec: Spec, sorted: seq<Target>, remaining: seq<Service>, got: seq<Reply<int>>)
    : seq<seq<Service>>
    requires |got| <= |sorted|
  {
    if got != [] && Stops(Last(got)) then []
    else
      var rest := Rest(spec, remaining, Answered(sorted, got, true));
      if rest == [] then [] else [rest]
  }

  ghost predicate FirstWith(known: seq<Target>, id: nat, i: nat) {
    i < |known| && known[i].id == id && forall j | 0 <= j < i :: known[j].id != id
  }

  /** after is known with g in place of the first grant that has its id, or added at the end if none has. */
  ghost predicate MergedIn(known: seq<Target>, after: seq<Target>, g: Target) {
    if forall i | 0 <= i < |known| :: known[i].id != g.id then after == known + [g]
    else exists i: nat :: FirstWith(known, g.id, i) && after == known[i := g]
  }

  /**
   The page: the active list it knows and the keys in flight; and, as ghosts,
   the requests sent, what the server granted and every answer it gave.
   */
  class Page {
    var known: seq<Target>
    var inflight: set<nat>
    ghost var sent: seq<Request>
    ghost var created: seq<seq<Service>>
    ghost var extended: seq<Target>
    ghost var creates: seq<Reply<Created>>
    ghost var extensions: seq<Reply<int>>

    constructor ()
      ensures known == [] && inflight == {} && sent == [] && created == [] && extended == []
      ensures creates == [] && extensions == []
    {
      known, inflight := [], {};
      sent, created, extended := [], [], [];
      creates, extensions := [], [];
    }

    /** Re-reads the active list; a failure keeps the old one. */
    method Refresh()
      modifies this`known
    {
      known := *;
    }

    /** Puts one grant in the list: where one with its id is, or at the end. */
    method Merge(g: Target)
      modifies this`known
      ensures MergedIn(old(known), known, g)
    {
      var i := 0;
      while i < |known| && known[i].id != g.id
        invariant 0 <= i <= |known| && known == old(known)
        invariant forall j | 0 <= j < i :: known[j].id != g.id
      {
        i := i + 1;
      }
      if i == |known| {
        known := known + [g];
      } else {
        known := known[i := g];
        assert FirstWith(old(known), g.id, i);
      }
    }

    method CreateGrant(child: nat, services: seq<Service>, duration: nat) returns (r: Reply<Created>)
      modifies this`sent, this`created, this`creates
      ensures sent == old(sent) + [NewGrant(child, services, duration)] && creates == old(creates) + [r]
      ensures created == if r.Done? then old(created) + [services] else old(created)
    {
      sent := sent + [NewGrant(child, services, duration)];
      r := *;
      creates := creates + [r];
      if r.Done? { created := created + [services]; }
    }

    method ExtendGrant(target: Target, duration: nat) returns (r: Reply<int>)
      modifies this`sent, this`extended, this`extensions
      ensures sent == old(sent) + [Longer(target.id, duration)] && extensions == old(extensions) + [r]
      ensures extended == if r.Done? then old(extended) + [target] else old(extended)
    {
      sent := sent + [Longer(target.id, duration)];
      r := *;
      extensions := extensions + [r];
      if r.Done? { extended := extended + [target]; }
    }

    /** One POST; a conflict is handed back for the caller to map. */
    method Create(spec: Spec, services: seq<Service>) returns (r: CreateOutcome, ghost a: Reply<Created>)
      modifies this`known, this`sent, this`created, this`creates
      ensures creates == old(creates) + [a]
      ensures a.Refused? && IsConflict(a.failure) ==> r == Conflict(a.failure)
      ensures (a.Done? || !IsConflict(a.failure)) ==> r.Settled? && OutcomeOf(r.outcome, spec, services, a)
      ensures sent == old(sent) + [NewGrant(spec.child, services, spec.duration)]
      ensures r.Conflict? ==> r.failure.ApiError? && r.failure.status == 409 && known == old(known)
      ensures r.Settled? ==> r.outcome.Applied? || r.outcome.Partial? || r.outcome.Failed?
      ensures r.Settled? && !r.outcome.Failed? ==> Shown(r.outcome.grant, spec, services)
      ensures created == if r.Settled? && !r.outcome.Failed? then old(created) + [services] else old(created)
    {
      var res := CreateGrant(spec.child, services, spec.duration);
      a := res;
      match res
      case Refused(f) =>
        if f.ApiError? && f.status == 409 {
          r := Conflict(f);
          return;
        }
        r := Settled(ErrorOutcome(f));
      case Done(c) =>
        var grant := Target(c.id, spec.child, services, spec.clients, Some(c.endsAt - spec.duration), Some(c.endsAt));
        Merge(grant);
        Refresh();
        r := Settled(if c.applied then Applied(grant) else Partial(grant, c.failed));
    }

    /** What the listed grants and the tap have in common. */
    method Overlapping(spec: Spec) returns (targets: seq<Target>, remaining: seq<Service>)
      ensures Overlap(targets, remaining) == OverlapsFor(spec.child, spec.services, known)
      ensures targets == [] || GoodOffer(spec, targets, remaining)
      ensures OneEach(known) ==> Splits(spec, targets, remaining)
    {
      var o := OverlapsFor(spec.child, spec.services, known);
      if o.overlapping != [] { OverlapCovers(spec, known); }
      if OneEach(known) { OfferSplits(spec, known); }
      return o.overlapping, o.remaining;
    }

    /** One tap, once its key is held. */
    method TapHeld(spec: Spec) returns (r: Outcome, ghost a: Reply<Created>)
      modifies this`known, this`sent, this`created, this`creates
      ensures creates == old(creates) + [a] && TapOutcome(r, spec, a, known)
      ensures sent == old(sent) + [NewGrant(spec.child, spec.services, spec.duration)] && !r.Ignored?
      ensures r.Applied? || r.Partial? ==>
                created == old(created) + [spec.services] && Shown(r.grant, spec, spec.services)
      ensures r.Offered? || r.Failed? ==> created == old(created)
      ensures r.Offered? ==> GoodOffer(spec, r.targets, r.remaining)
      ensures r.Offered? && OneEach(known) ==> Splits(spec, r.targets, r.remaining)
    {
      var res;
      res, a := Create(spec, spec.services);
      if res.Settled? {
        r := res.outcome;
      } else {
        r := OfferInstead(spec, res.failure.grantId, res.failure, a);
      }
    }

    /** A conflict, once the list is re-read: an offer, or the error when nothing is known to overlap. */
    method OfferInstead(spec: Spec, grantId: Option<nat>, failure: Failure, ghost a: Reply<Created>)
      returns (r: Outcome)
      requires a == Refused(failure) && IsConflict(failure) && grantId == failure.grantId
      modifies this`known
      ensures TapOutcome(r, spec, a, known)
      ensures r.Offered? || r.Failed?
      ensures r.Offered? ==> GoodOffer(spec, r.targets, r.remaining)
      ensures r.Offered? && OneEach(known) ==> Splits(spec, r.targets, r.remaining)
    {
      Refresh();
      var targets, remaining := Overlapping(spec);
      if |targets| > 0 { return Offered(targets, remaining); }
      if grantId == None { return ErrorOutcome(failure); }
      StandInSplits(spec, grantId.value);
      r := Offered([StandIn(grantId.value, spec.child)], spec.services);
    }

    /** A second tap while the first is out sends nothing; otherwise the tap posts exactly once. */
    method RunTap(spec: Spec) returns (r: Outcome)
      modifies this`known, this`inflight, this`sent, this`created, this`creates
      ensures if r.Ignored? then creates == old(creates)
              else creates != [] && Front(creates) == old(creates) && TapOutcome(r, spec, Last(creates), known)
      ensures inflight == old(inflight) && (r.Ignored? <==> spec.key in old(inflight))
      ensures sent == old(sent) + if r.Ignored? then [] else [NewGrant(spec.child, spec.services, spec.duration)]
      ensures r.Applied? || r.Partial? ==>
                created == old(created) + [spec.services] && Shown(r.grant, spec, spec.services)
      ensures !r.Applied? && !r.Partial? ==> created == old(created)
      ensures r.Ignored? ==> known == old(known)
      ensures r.Offered? ==> GoodOffer(spec, r.targets, r.remaining)
      ensures r.Offered? && OneEach(known) ==> Splits(spec, r.targets, r.remaining)
    {
      if spec.key in inflight { return Ignored; }
      inflight := inflight + {spec.key};
      ghost var a;
      r, a := TapHeld(spec);
      inflight := inflight - {spec.key};
    }

    /** One extend: a target that has ended hands its tapped services back, another failure is reported. */
    method TryTarget(target: Target, spec: Spec, last0: Option<Target>, keep0: set<Service>)
      returns (last: Option<Target>, keep: set<Service>, failure: Option<Failure>, ghost a: Reply<int>)
      modifies this`known, this`sent, this`extended, this`extensions
      ensures extensions == old(extensions) + [a] && sent == old(sent) + [Longer(target.id, spec.duration)]
      ensures failure == if Stops(a) then Some(a.failure) else None
      ensures extended == if a.Done? then old(extended) + [target] else old(extended)
      ensures last == if a.Done? then Some(target.(endsAt := Some(a.value))) else last0
      ensures keep == keep0 + if IsGone(a) then HandedBack(spec, target) else {}
    {
      last, keep, failure := last0, keep0, None;
      var res := ExtendGrant(target, spec.duration);
      a := res;
      if res.Done? {
        last := Some(target.(endsAt := Some(res.value)));
        Merge(last.value);
      } else if res.failure.ApiError? && res.failure.status == 404 {
        keep := keep + HandedBack(spec, target);
      } else {
        failure := Some(res.failure);
      }
    }

    /** The extends, lowest id first, until one fails for another reason than its grant having ended. */
    method ExtendAll(targets: seq<Target>, spec: Spec, remaining: seq<Service>)
      returns (last: Option<Target>, keep: set<Service>, failure: Option<Failure>, ghost got: seq<Reply<int>>)
      modifies this`known, this`sent, this`extended, this`extensions
      ensures extensions == old(extensions) + got
      ensures SentSo(spec, targets, got, old(sent), sent, old(extended), extended)
      ensures failure.Some? ==> StoppedBy(failure.value, got)
      ensures failure == None ==>
                |got| == |targets| && LeftWith(spec, remaining, targets, got, last, keep)
    {
      last, keep, failure, got := None, Members(remaining), None, [];
      for i := 0 to |targets|
        invariant |got| == i && failure == None && extensions == old(extensions) + got
        invariant SentSo(spec, targets, got, old(sent), sent, old(extended), extended)
        invariant LeftWith(spec, remaining, targets, got, last, keep)
      {
        ghost var sent0, extended0, last0, keep0 := sent, extended, last, keep;
        ghost var a;
        last, keep, failure, a := TryTarget(targets[i], spec, last, keep);
        SentNext(spec, targets, got, a, old(sent), sent0, old(extended), extended0);
        if !Stops(a) { LeftWithNext(spec, remaining, targets, got, a, last0, keep0); }
        got := got + [a];
        if failure.Some? { return; }
      }
    }

    /** The accepted offer, once its key is held. */
    method AcceptHeld(spec: Spec, targets: seq<Target>, remaining: seq<Service>)
      returns (r: Outcome, ghost got: seq<Reply<int>>, ghost made: seq<Reply<Created>>)
      modifies this`known, this`sent, this`created, this`extended, this`creates, this`extensions
      ensures |got| <= |SortById(targets)| && !r.Ignored? && !r.Offered?
      ensures extensions == old(extensions) + got && creates == old(creates) + made
      ensures AcceptOutcome(r, spec, SortById(targets), remaining, got, made)
      ensures extended == old(extended) + Answered(SortById(targets), got, false)
      ensures sent == old(sent) + Extends(SortById(targets)[..|got|], spec.duration) +
                      Creates(spec, ToCreate(spec, SortById(targets), remaining, got))
      ensures created == old(created) + if made != [] && made[0].Done?
                                        then ToCreate(spec, SortById(targets), remaining, got) else []
    {
      var last, keep, failure;
      var sorted := SortById(targets);
      last, keep, failure, got := ExtendAll(sorted, spec, remaining);
      made := [];
      if failure.Some? {
        r := ErrorOutcome(failure.value);
        return;
      }
      r, made := AcceptRest(spec, sorted, remaining, last, keep, got);
    }

    /** The create of what is left once every target was tried, if anything is. */
    method AcceptRest(spec: Spec, sorted: seq<Target>, remaining: seq<Service>, last: Option<Target>,
                      keep: set<Service>, ghost got: seq<Reply<int>>)
      returns (r: Outcome, ghost made: seq<Reply<Created>>)
      requires |got| == |sorted| && LeftWith(spec, remaining, sorted, got, last, keep)
      modifies this`known, this`sent, this`created, this`creates
      ensures creates == old(creates) + made && AcceptOutcome(r, spec, sorted, remaining, got, made)
      ensures !r.Ignored? && !r.Offered?
      ensures sent == old(sent) + Creates(spec, ToCreate(spec, sorted, remaining, got))
      ensures created == old(created) + if made != [] && made[0].Done?
                                        then ToCreate(spec, sorted, remaining, got) else []
    {
      made := [];
      var rest := Keep(spec.services, keep);
      if |rest| > 0 {
        var res;
        ghost var a;
        res, a := Create(spec, rest);
        made := [a];
        r := if res.Conflict? then ErrorOutcome(res.failure) else res.outcome;
        return;
      }
      Refresh();
      r := if last == None then Failed("not_found") else Applied(last.value);
    }

    /**
     The accepted offer delivers the whole tap: when it ends applied or
     partial, each tapped service is in a target that was extended or in the
     grant just created, and, for an offer that split the tap, in exactly one.
     */
    method AcceptOffer(spec: Spec, targets: seq<Target>, remaining: seq<Service>) returns (r: Outcome)
      modifies this`known, this`inflight, this`sent, this`created, this`extended, this`creates, this`extensions
      ensures old(extensions) <= extensions && old(creates) <= creates
      ensures !r.Ignored? ==>
                var sorted, got := SortById(targets), extensions[|old(extensions)|..];
                && |got| <= |sorted| && AcceptOutcome(r, spec, sorted, remaining, got, creates[|old(creates)|..])
                && sent == old(sent) + Extends(sorted[..|got|], spec.duration) +
                           Creates(spec, ToCreate(spec, sorted, remaining, got))
      ensures inflight == old(inflight) && (r.Ignored? <==> spec.key in old(inflight))
      ensures old(extended) <= extended && old(created) <= created && |created| <= |old(created)| + 1
      ensures ById(extended[|old(extended)|..])
      ensures r.Ignored? || r.Failed? ==> created == old(created)
      ensures r.Ignored? ==> extended == old(extended) && known == old(known) && sent == old(sent)
      ensures r.Applied? || r.Partial? ==>
                Delivered(r, spec, targets, remaining, extended[|old(extended)|..], old(created), created)
      ensures forall x | InNew(old(created), created, x) :: x in spec.services
    {
      if spec.key in inflight { return Ignored; }
      inflight := inflight + {spec.key};
      ghost var got, made;
      r, got, made := AcceptHeld(spec, targets, remaining);
      inflight := inflight - {spec.key};
      assert extensions[|old(extensions)|..] == got && creates[|old(creates)|..] == made;
      assert extended[|old(extended)|..] == Answered(SortById(targets), got, false);
      Delivers(r, spec, targets, remaining, got, made, old(created), created);
    }
  }

  /** What an accepted offer comes to, given the server's answers. */
  lemma Delivers(r: Outcome, spec: Spec, targets: seq<Target>, remaining: seq<Service>, got: seq<Reply<int>>,
                 made: seq<Reply<Created>>, before: seq<seq<Service>>, after: seq<seq<Service>>)
    requires |got| <= |SortById(targets)| && AcceptOutcome(r, spec, SortById(targets), remaining, got, made)
    requires after == before + if made != [] && made[0].Done?
                               then ToCreate(spec, SortById(targets), remaining, got) else []
    ensures var mine := Answered(SortById(targets), got, false);
            && ById(mine)
            && (r.Failed? ==> after == before)
            && (r.Applied? || r.Partial? ==> Delivered(r, spec, targets, remaining, mine, before, after))
    ensures forall x | InNew(before, after, x) :: x in spec.services
  {
    var sorted := SortById(targets);
    AnsweredById(sorted, got);
    if r.Applied? || r.Partial? {
      var mine, gone := Answered(sorted, got, false), Answered(sorted, got, true);
      AnsweredParts(sorted, got);
      LastIsLast(sorted, got);
      assert sorted[..|got|] == sorted;
      DeliversAll(r, spec, targets, remaining, mine, gone, before, after);
    }
  }

  /** What it comes to when it ends applied or partial. */
  ghost predicate Delivered(r: Outcome, spec: Spec, targets: seq<Target>, remaining: seq<Service>, mine: seq<Target>,
                            before: seq<seq<Service>>, after: seq<seq<Service>>)
    requires r.Applied? || r.Partial?
  {
    && Reported(r.grant, spec, before, after, mine)
    && (forall g | g in mine :: g in targets)
    && (CoversTap(spec, targets, remaining) ==>
          forall x | x in spec.services :: x in Covered(mine) || InNew(before, after, x))
    && (CoversTap(spec, targets, remaining) && Splits(spec, targets, remaining) ==>
          forall x | x in spec.services :: InNew(before, after, x) <==> x !in Covered(mine))
  }

  lemma DeliversAll(r: Outcome, spec: Spec, targets: seq<Target>, remaining: seq<Service>, mine: seq<Target>,
                    gone: seq<Target>, before: seq<seq<Service>>, after: seq<seq<Service>>)
    requires (r.Applied? || r.Partial?) && Reported(r.grant, spec, before, after, mine) && Parted(targets, mine, gone)
    requires var rest := Rest(spec, remaining, gone); after == before + if rest == [] then [] else [rest]
    ensures Delivered(r, spec, targets, remaining, mine, before, after)
  {
    PartedMembers(targets, mine, gone);
    var rest := Rest(spec, remaining, gone);
    assert forall x :: InNew(before, after, x) <==> x in rest;
    if CoversTap(spec, targets, remaining) {
      RestCovers(spec, targets, remaining, mine, gone);
      if Splits(spec, targets, remaining) { RestIsTheComplement(spec, targets, remaining, mine, gone); }
    }
  }

  /** x is in the one grant created since. */
  ghost predicate InNew(before: seq<seq<Service>>, after: seq<seq<Service>>, x: Service) {
    |after| == |before| + 1 && x in after[|before|]
  }
}
