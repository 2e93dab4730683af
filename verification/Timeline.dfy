/**
 The system as a state machine: every change the engine makes to the tables,
 to AdGuard or to its timers is one event, and so is what others do: a
 restart, a child edit, a parent's edit in AdGuard itself. Enabled says when
 it may happen and Apply what it does. A run is any sequence of enabled
 events, so its prefixes include the states in the middle of an operation,
 and its operations may fail between any two calls.
 */
module Timeline {
  import opened Times
  import opened Lists
  import opened AdGuardHome
  import opened GrantStore

  /** timers maps each armed grant to the time its callback is due. */
  datatype State = State(t: Tables, ag: Net, timers: map<GrantId, int>, closed: bool, now: int)

  datatype Event =
    | Tick(now: int)
    | Stored(g: Grant)
    | Extended(id: GrantId, endsAt: int)
    | Finished(id: GrantId, status: Status, at: int)
    | Reblocked(client: Name, ids: seq<Service>, grant: GrantId)
    | Opened(client: Name, ids: seq<Service>, grant: GrantId)
    | Armed(id: GrantId, due: int)
    | Disarmed(id: GrantId)
    | Stopped
    | Adopted(client: Name, ids: seq<Service>)
    | Created(client: Name, dev: Device)
    | Remapped(children: seq<Child>)
    | RenamedOnNet(from: Name, to: Name)
    | RenamedInStore(from: Name, to: Name)
    | Restarted(now: int)
    | Edited(client: Name, dev: Device)
    | Removed(client: Name)

  /**
   Client c is touched by no more than its grants: what Create, Extend, End,
   expiry and Reconcile do to any client, restarts, child edits, and
   everything that concerns other clients alone.
   */
  predicate ByGrants(e: Event, c: Name) {
    && (e.Adopted? || e.Created? || e.Edited? || e.Removed? ==> e.client != c)
    && (e.RenamedOnNet? || e.RenamedInStore? ==> e.from != c && e.to != c)
  }

  /** When a timer armed now fires: at ends_at, or at once when that has passed. */
  function Due(endsAt: int, now: int): (r: int)
    ensures endsAt <= r && now <= r && (r == endsAt || r == now)
  {
    if endsAt < now then now else endsAt
  }

  predicate IsActive(t: Tables, id: GrantId) {
    id in t.grants && t.grants[id].status.Active?
  }

  /** x is in c's own list. */
  ghost predicate Own(s: State, c: Name, x: Service) {
    c in s.ag.clients && x in s.ag.clients[c].blocked
  }

  /** No active grant covers x on c. */
  ghost predicate Idle(s: State, c: Name, x: Service) {
    forall id :: !Holds(s.t, id, c, x)
  }

  /** Everything grant id opened, and no other active grant covers, is blocked again where AdGuard knows the client. */
  ghost predicate Reverted(s: State, id: GrantId)
    requires id in s.t.grants
  {
    forall c, x | c in s.ag.clients && Covers(s.t.grants[id], c, x) && !Held(s.t, id, c, x) :: Own(s, c, x)
  }

  ghost predicate Enabled(s: State, e: Event) {
    match e
    case Tick(now) => s.now <= now
    case Stored(g) =>
      && g.id == s.t.nextId && g.status.Active? && Ascending(g.services) && Ascending(g.clients)
      && g.endsAt % SECOND == 0
      && (forall id, x | x in g.services :: !Taken(s.t, g.child, id, x))
    case Extended(id, endsAt) => IsActive(s.t, id) && endsAt % SECOND == 0
    case Finished(id, to, at) =>
      && IsActive(s.t, id) && !to.Active? && at == WholeSeconds(s.now)
      && (to.Expired? ==> s.t.grants[id].endsAt <= s.now)
      && Reverted(s, id)
    case Reblocked(c, ids, g) =>
      && c in s.ag.clients && IsActive(s.t, g)
      && (forall x | x in ids :: Covers(s.t.grants[g], c, x) && !Held(s.t, g, c, x))
    case Opened(c, ids, g) =>
      && c in s.ag.clients && !s.ag.clients[c].useGlobal && IsActive(s.t, g)
      && (forall x | x in ids :: Covers(s.t.grants[g], c, x))
    case Armed(id, due) => IsActive(s.t, id) && !s.closed && due == Due(s.t.grants[id].endsAt, s.now)
    case Disarmed(_) => true
    case Stopped => true
    case Adopted(c, ids) => c in s.ag.clients && forall x | x in ids :: Idle(s, c, x)
    case Created(c, _) => c !in s.ag.clients
    case Remapped(children) => ChildrenOk(s.t.(children := children))
    case RenamedOnNet(from, to) => from in s.ag.clients && to !in s.ag.clients
    case RenamedInStore(from, to) => from != to
    case Restarted(now) => s.now <= now
    case Edited(c, _) => c in s.ag.clients
    case Removed(c) => c in s.ag.clients
  }

  function Apply(s: State, e: Event): State
    requires Enabled(s, e)
  {
    match e
    case Tick(now) => s.(now := now)
    case Stored(g) => s.(t := InsertGrant(s.t, g))
    case Extended(id, endsAt) => s.(t := SetEnds(s.t, id, endsAt))
    case Finished(id, to, at) => s.(t := SetStatus(s.t, id, to, at), timers := s.timers - {id})
    case Reblocked(c, ids, _) => s.(ag := After(s.ag, c, Add(ids)))
    case Opened(c, ids, _) => s.(ag := After(s.ag, c, Remove(ids)))
    case Armed(id, due) => s.(timers := s.timers[id := due])
    case Disarmed(id) => s.(timers := s.timers - {id})
    case Stopped => s.(closed := true, timers := map[])
    case Adopted(c, ids) => s.(ag := After(s.ag, c, Adopt(ids)))
    case Created(c, dev) => s.(ag := WithDevice(s.ag, c, dev))
    case Remapped(children) => s.(t := s.t.(children := children))
    case RenamedOnNet(from, to) => s.(ag := Renamed(s.ag, from, to))
    case RenamedInStore(from, to) => s.(t := RenameIn(s.t, from, to))
    case Restarted(now) => s.(timers := map[], closed := false, now := now)
    case Edited(c, dev) => s.(ag := WithDevice(s.ag, c, dev))
    case Removed(c) => s.(ag := s.ag.(clients := s.ag.clients - {c}))
  }

  /** es can happen, in order, from s. */
  ghost predicate Run(s: State, es: seq<Event>)
    decreases |es|, 0
  {
    es == [] || (Run(s, Front(es)) && Enabled(Replay(s, Front(es)), Last(es)))
  }

  /** The state es leads to. */
  ghost function Replay(s: State, es: seq<Event>): State
    requires Run(s, es)
    decreases |es|, 1
  {
    if es == [] then s else Apply(Replay(s, Front(es)), Last(es))
  }

  lemma RunSnoc(s: State, es: seq<Event>, e: Event)
    requires Run(s, es) && Enabled(Replay(s, es), e)
    ensures Run(s, es + [e]) && Replay(s, es + [e]) == Apply(Replay(s, es), e)
  {
    assert Front(es + [e]) == es;
  }

  lemma FrontOfTail<T>(es: seq<T>, k: nat)
    requires k < |es|
    ensures Front(es[k..]) == Front(es)[k..] && Last(es[k..]) == Last(es)
  {
    var a, b := Front(es[k..]), Front(es)[k..];
    assert |a| == |b| && forall i | 0 <= i < |a| :: a[i] == es[k + i] == b[i];
  }

  /** A run splits anywhere: its tail is a run from the state in the middle. */
  lemma {:induction false} RunSplit(s: State, es: seq<Event>, k: nat)
    requires Run(s, es) && k <= |es|
    ensures Run(s, es[..k]) && Run(Replay(s, es[..k]), es[k..])
    ensures Replay(Replay(s, es[..k]), es[k..]) == Replay(s, es)
  {
    if k == |es| {
      assert es[..k] == es;
    } else {
      RunSplit(s, Front(es), k);
      assert Front(es)[..k] == es[..k];
      FrontOfTail(es, k);
    }
  }

  /** The armed timers belong to active grants, and a closed engine has none. */
  ghost predicate TimersOk(s: State) {
    && (forall id | id in s.timers :: IsActive(s.t, id))
    && (s.closed ==> s.timers == map[])
  }

  ghost predicate Valid(s: State) {
    Wf(s.t) && TimersOk(s)
  }

  lemma ValidStep(s: State, e: Event)
    requires Valid(s) && Enabled(s, e)
    ensures Valid(Apply(s, e))
  {
    match e
    case Stored(g) => InsertKeepsWf(s.t, g);
    case Extended(id, endsAt) => SetEndsKeepsWf(s.t, id, endsAt);
    case Finished(id, to, at) => SetStatusKeepsWf(s.t, id, to, at);
    case RenamedInStore(from, to) => RenameKeepsWf(s.t, from, to);
    case Remapped(children) => RemapKeepsWf(s.t, children);
    case _ =>
  }

  /** One more event of a valid run. */
  lemma OneMore(first: State, es: seq<Event>, s: State, e: Event)
    requires Valid(first) && Run(first, es) && Replay(first, es) == s && Valid(s) && Enabled(s, e)
    ensures Run(first, es + [e]) && Replay(first, es + [e]) == Apply(s, e) && Valid(Apply(s, e))
  {
    RunSnoc(first, es, e);
    ValidStep(s, e);
  }

  /**
   In every reachable state each child has at most one active grant per service,
   every live flag mirrors its grant's status and no timer outlives its grant.
   */
  lemma {:induction false} ReachableValid(s: State, es: seq<Event>)
    requires Valid(s) && Run(s, es)
    ensures Valid(Replay(s, es))
  {
    if es != [] {
      ReachableValid(s, Front(es));
      ValidStep(Replay(s, Front(es)), Last(es));
    }
  }

  /** No armed timer is due later than its grant's end, unless that has passed. */
  ghost predicate OnTime(s: State) {
    forall id | id in s.timers && id in s.t.grants :: s.timers[id] <= Due(s.t.grants[id].endsAt, s.now)
  }

  /** No timer but id's is. */
  ghost predicate OnTimeBut(s: State, id: GrantId) {
    forall i | i != id && i in s.timers && i in s.t.grants :: s.timers[i] <= Due(s.t.grants[i].endsAt, s.now)
  }

  /** Only a change of its grant's end can make a timer late, and dropping it mends that. */
  lemma OnTimeStep(s: State, e: Event)
    requires Valid(s) && Enabled(s, e)
    ensures OnTime(s) && !e.Extended? ==> OnTime(Apply(s, e))
    ensures OnTime(s) && e.Extended? ==> OnTimeBut(Apply(s, e), e.id)
    ensures e.Disarmed? && OnTimeBut(s, e.id) ==> OnTime(Apply(s, e))
  {
  }
}
