/**
 The grant and child tables. Every operation is one transaction: it commits
 a whole new table state or leaves the tables as they were.
 */
module GrantStore {
  import opened Wrappers
  import opened Lists
  import opened Times

  type GrantId = nat
  type ChildId = nat

  /** Clock readings are nanoseconds; the tables keep whole seconds. */
  function WholeSeconds(t: int): (r: int)
    ensures r <= t < r + SECOND && r % SECOND == 0
  {
    t - t % SECOND
  }

  datatype Status = Active | Expired | Ended

  datatype Grant = Grant(
    id: GrantId, child: ChildId, status: Status, services: seq<Service>, clients: seq<Name>,
    startedAt: int, endsAt: int, endedAt: Option<int>)

  /** A grant_services row: its child and its live flag. */
  datatype Slot = Slot(child: ChildId, active: bool)

  datatype Child = Child(id: ChildId, clients: seq<Name>)

  datatype Tables = Tables(
    grants: map<GrantId, Grant>, slots: map<(GrantId, Service), Slot>, nextId: GrantId, children: seq<Child>)

  /** Grant id covers service x on client c, and is active. */
  ghost predicate Holds(t: Tables, id: GrantId, c: Name, x: Service) {
    id in t.grants && t.grants[id].status.Active? && Covers(t.grants[id], c, x)
  }

  predicate Covers(g: Grant, c: Name, x: Service) {
    c in g.clients && x in g.services
  }

  /** Some active grant other than except covers x on c. */
  ghost predicate Held(t: Tables, except: GrantId, c: Name, x: Service) {
    exists id :: id != except && Holds(t, id, c, x)
  }

  ghost predicate GrantsOk(t: Tables) {
    forall id | id in t.grants ::
      && 1 <= id < t.nextId
      && t.grants[id].id == id
      && Ascending(t.grants[id].services)
      && Ascending(t.grants[id].clients)
      && t.grants[id].endsAt % SECOND == 0
  }

  /** The live flag of every service row mirrors its grant's status. */
  ghost predicate SlotsMirror(t: Tables) {
    && (forall k | k in t.slots ::
          && k.0 in t.grants
          && k.1 in t.grants[k.0].services
          && t.slots[k] == Slot(t.grants[k.0].child, t.grants[k.0].status.Active?))
    && (forall id, x | id in t.grants && x in t.grants[id].services :: (id, x) in t.slots)
  }

  /** At most one active grant per child and service. */
  ghost predicate OneActive(t: Tables) {
    forall i, j | i != j :: Apart(t, i, j)
  }

  /** Active grants i and j of one child have no service in common. */
  ghost predicate Apart(t: Tables, i: GrantId, j: GrantId) {
    i in t.grants && j in t.grants && t.grants[i].status.Active? && t.grants[j].status.Active? &&
    t.grants[i].child == t.grants[j].child ==>
      forall x | x in t.grants[i].services :: x !in t.grants[j].services
  }

  ghost predicate ChildrenOk(t: Tables) {
    && (forall i, j | 0 <= i < j < |t.children| :: EarlierChild(t.children, i, j))
    && (forall i | 0 <= i < |t.children| :: Ascending(t.children[i].clients))
  }

  ghost predicate EarlierChild(children: seq<Child>, i: nat, j: nat)
    requires i < |children| && j < |children|
  {
    children[i].id < children[j].id
  }

  ghost predicate Wf(t: Tables) {
    1 <= t.nextId && GrantsOk(t) && SlotsMirror(t) && OneActive(t) && ChildrenOk(t)
  }

  /** The row lookup CreateGrant makes: a live slot of this child and service. */
  ghost predicate Taken(t: Tables, child: ChildId, id: GrantId, x: Service) {
    (id, x) in t.slots && t.slots[(id, x)] == Slot(child, true)
  }

  /** The committed tables after each transaction. */
  function InsertGrant(t: Tables, g: Grant): Tables {
    t.(grants := t.grants[g.id := g],
       slots := t.slots + (map x | x in g.services :: (g.id, x) := Slot(g.child, true)),
       nextId := g.id + 1)
  }

  function SetEnds(t: Tables, id: GrantId, endsAt: int): Tables
    requires id in t.grants
  {
    t.(grants := t.grants[id := t.grants[id].(endsAt := endsAt)])
  }

  function SetStatus(t: Tables, id: GrantId, to: Status, at: int): Tables
    requires id in t.grants
  {
    t.(grants := t.grants[id := t.grants[id].(status := to, endedAt := if to.Active? then None else Some(at))],
       slots := map k | k in t.slots :: if k.0 == id then t.slots[k].(active := to.Active?) else t.slots[k])
  }

  function RenameList(s: seq<Name>, from: Name, to: Name): (r: seq<Name>)
    ensures Ascending(r)
    ensures from != to ==> forall c :: c in r <==> (c != from && c in s) || (c == to && from in s)
  {
    if from in s then Insert(Norm(Without(s, {from})), to) else Norm(s)
  }

  function RenameGrant(g: Grant, from: Name, to: Name): Grant {
    if g.status.Active? then g.(clients := RenameList(g.clients, from, to)) else g
  }

  function RenameChild(c: Child, from: Name, to: Name): Child {
    c.(clients := RenameList(c.clients, from, to))
  }

  function RenameIn(t: Tables, from: Name, to: Name): Tables {
    t.(grants := map id | id in t.grants :: RenameGrant(t.grants[id], from, to),
       children := seq(|t.children|, i requires 0 <= i < |t.children| => RenameChild(t.children[i], from, to)))
  }

  function MapClient(t: Tables, i: nat, name: Name): Tables
    requires i < |t.children|
  {
    t.(children := t.children[i := t.children[i].(clients := Norm(t.children[i].clients + [name]))])
  }

  /** The row CreateGrant inserts. */
  function NewGrant(t: Tables, child: ChildId, services: seq<Service>, clients: seq<Name>, startedAt: int,
                    endsAt: int): Grant {
    Grant(t.nextId, child, Active, Norm(services), Norm(clients), WholeSeconds(startedAt), WholeSeconds(endsAt), None)
  }

  // ----- what each transaction changes, field by field -----

  /** r is t cut to whole seconds. */
  predicate Truncates(r: int, t: int) {
    r % SECOND == 0 && r <= t < r + SECOND
  }

  /** Between t and t' nothing changed but grant id, and slots perhaps. */
  ghost predicate OnlyGrant(t: Tables, t': Tables, id: GrantId) {
    && t'.children == t.children && t'.nextId == t.nextId && t'.grants.Keys == t.grants.Keys
    && forall k | k in t.grants && k != id :: t'.grants[k] == t.grants[k]
  }

  /** Grant id now ends at endsAt, cut to the second; all else is as it was. */
  ghost predicate EndMoved(t: Tables, t': Tables, id: GrantId, endsAt: int) {
    && id in t.grants && OnlyGrant(t, t', id) && t'.slots == t.slots
    && Truncates(t'.grants[id].endsAt, endsAt)
    && t'.grants[id].(endsAt := t.grants[id].endsAt) == t.grants[id]
  }

  lemma SetEndsMoves(t: Tables, id: GrantId, endsAt: int)
    requires id in t.grants
    ensures EndMoved(t, SetEnds(t, id, WholeSeconds(endsAt)), id, endsAt)
  {
  }

  /**
   Grant id now has status to, with its end recorded when it leaves active; its
   slots are live iff it is, and all else is as it was.
   */
  ghost predicate StatusMoved(t: Tables, t': Tables, id: GrantId, to: Status, at: int) {
    && id in t.grants && OnlyGrant(t, t', id) && GrantMoved(t.grants[id], t'.grants[id], to, at)
    && t'.slots.Keys == t.slots.Keys
    && forall k | k in t.slots ::
         t'.slots[k] == if k.0 == id then Slot(t.slots[k].child, to.Active?) else t.slots[k]
  }

  ghost predicate GrantMoved(g: Grant, g': Grant, to: Status, at: int) {
    && g'.status == to && g'.(status := g.status, endedAt := g.endedAt) == g
    && if to.Active? then g'.endedAt == None else g'.endedAt.Some? && Truncates(g'.endedAt.value, at)
  }

  lemma SetStatusMoves(t: Tables, id: GrantId, to: Status, at: int)
    requires id in t.grants
    ensures StatusMoved(t, SetStatus(t, id, to, WholeSeconds(at)), id, to, at)
  {
  }

  /** g is the grant asked for: active, its times cut to the second, its lists free of duplicates. */
  ghost predicate AsAsked(g: Grant, child: ChildId, services: seq<Service>, clients: seq<Name>, startedAt: int,
                          endsAt: int) {
    && g.child == child && g.status == Active && g.endedAt == None
    && Truncates(g.startedAt, startedAt) && Truncates(g.endsAt, endsAt)
    && Ascending(g.services) && (forall x :: x in g.services <==> x in services)
    && Ascending(g.clients) && (forall c :: c in g.clients <==> c in clients)
  }

  /** t' is t with the new grant g and its live slots. */
  ghost predicate Inserted(t: Tables, t': Tables, g: Grant) {
    && g.id == t.nextId && t'.nextId == t.nextId + 1 && t'.children == t.children
    && t'.grants.Keys == t.grants.Keys + {g.id} && t'.grants[g.id] == g
    && (forall k | k in t.grants && k != g.id :: t'.grants[k] == t.grants[k])
    && (forall k :: k in t'.slots <==> k in t.slots || (k.0 == g.id && k.1 in g.services))
    && (forall k | k in t'.slots ::
          t'.slots[k] == if k.0 == g.id && k.1 in g.services then Slot(g.child, true) else t.slots[k])
  }

  lemma InsertGrantInserts(t: Tables, child: ChildId, services: seq<Service>, clients: seq<Name>, startedAt: int,
                           endsAt: int)
    requires t.nextId !in t.grants
    ensures var g := NewGrant(t, child, services, clients, startedAt, endsAt);
            AsAsked(g, child, services, clients, startedAt, endsAt) && Inserted(t, InsertGrant(t, g), g)
  {
    var g := NewGrant(t, child, services, clients, startedAt, endsAt);
    assert forall k: (GrantId, Service) | k.0 == g.id && k.1 in g.services :: k == (g.id, k.1);
  }

  /** Child id maps name besides what it did, and all else is as it was. */
  ghost predicate Joined(t: Tables, t': Tables, id: ChildId, name: Name) {
    && t'.grants == t.grants && t'.slots == t.slots && t'.nextId == t.nextId && |t'.children| == |t.children|
    && (exists i :: 0 <= i < |t.children| && t.children[i].id == id)
    && forall i | 0 <= i < |t.children| :: ChildJoined(t.children[i], t'.children[i], id, name)
  }

  ghost predicate ChildJoined(c: Child, c': Child, id: ChildId, name: Name) {
    c'.id == c.id && if c.id == id then forall n :: n in c'.clients <==> n == name || n in c.clients else c' == c
  }

  lemma AddedJoins(t: Tables, t': Tables, id: ChildId, name: Name)
    requires ChildrenOk(t) && AddedTo(t, t', id, name)
    ensures Joined(t, t', id, name)
  {
    var i :| 0 <= i < |t.children| && t.children[i].id == id && MappedAt(t, t', i, name);
    forall j | 0 <= j < |t.children| ensures ChildJoined(t.children[j], t'.children[j], id, name) {
      if j != i { assert if j < i then EarlierChild(t.children, j, i) else EarlierChild(t.children, i, j); }
    }
  }

  /** g' is g but for its clients, and the same unless it is active and names from, which is then to. */
  ghost predicate GrantFollows(g: Grant, g': Grant, from: Name, to: Name) {
    && g'.(clients := g.clients) == g
    && (!g.status.Active? || from !in g.clients ==> g' == g)
    && (g.status.Active? ==> NamesFollow(g.clients, g'.clients, from, to))
  }

  ghost predicate NamesFollow(s: seq<Name>, s': seq<Name>, from: Name, to: Name) {
    Ascending(s') && forall c :: c in s' <==> (c != from && c in s) || (c == to && from in s)
  }

  /** Every active grant and every child follows the rename, and all else is as it was. */
  ghost predicate Followed(t: Tables, t': Tables, from: Name, to: Name) {
    && t'.slots == t.slots && t'.nextId == t.nextId && t'.grants.Keys == t.grants.Keys
    && (forall id | id in t.grants :: GrantFollows(t.grants[id], t'.grants[id], from, to))
    && |t'.children| == |t.children|
    && (forall i | 0 <= i < |t.children| ::
          t'.children[i].id == t.children[i].id && NamesFollow(t.children[i].clients, t'.children[i].clients, from, to))
  }

  lemma RenameFollows(t: Tables, from: Name, to: Name)
    requires Wf(t) && from != to
    ensures Followed(t, RenameIn(t, from, to), from, to)
  {
    forall id | id in t.grants ensures GrantFollows(t.grants[id], RenameIn(t, from, to).grants[id], from, to) {
      var g := t.grants[id];
      if from !in g.clients { AscendingUnique(RenameList(g.clients, from, to), g.clients); }
    }
  }

  /** Grant id is an active one of child's and has service x. */
  ghost predicate ActiveFor(t: Tables, child: ChildId, id: GrantId, x: Service) {
    id in t.grants && t.grants[id].status.Active? && t.grants[id].child == child && x in t.grants[id].services
  }

  lemma TakenIsActive(t: Tables, child: ChildId, id: GrantId, x: Service)
    requires SlotsMirror(t)
    ensures Taken(t, child, id, x) <==> ActiveFor(t, child, id, x)
  {
    if ActiveFor(t, child, id, x) { assert (id, x) in t.slots; }
  }

  lemma NoneTaken(t: Tables, child: ChildId, services: seq<Service>)
    requires SlotsMirror(t) && forall id, x | x in services :: !Taken(t, child, id, x)
    ensures forall id, x | x in services :: !ActiveFor(t, child, id, x)
  {
    forall id, x | x in services ensures !ActiveFor(t, child, id, x) {
      TakenIsActive(t, child, id, x);
    }
  }

  /** The active grants of t' are active in t, with the same child and services. */
  ghost predicate NoneNew(t: Tables, t': Tables) {
    forall k | k in t'.grants && t'.grants[k].status.Active? ::
      && k in t.grants && t.grants[k].status.Active?
      && t.grants[k].child == t'.grants[k].child && t.grants[k].services == t'.grants[k].services
  }

  lemma StillOneActive(t: Tables, t': Tables)
    requires OneActive(t) && NoneNew(t, t')
    ensures OneActive(t')
  {
    forall i, j | i != j ensures Apart(t', i, j) {
      assert Apart(t, i, j);
    }
  }

  lemma InsertKeepsWf(t: Tables, g: Grant)
    requires Wf(t) && g.id == t.nextId && g.status.Active? && Ascending(g.services) && Ascending(g.clients)
    requires g.endsAt % SECOND == 0
    requires forall id, x | x in g.services :: !Taken(t, g.child, id, x)
    ensures Wf(InsertGrant(t, g))
  {
    var t' := InsertGrant(t, g);
    assert g.id !in t.grants;
    forall k | k in t'.slots
      ensures k.0 in t'.grants && k.1 in t'.grants[k.0].services
      ensures t'.slots[k] == Slot(t'.grants[k.0].child, t'.grants[k.0].status.Active?)
    {
      if k in t.slots { assert k.0 != g.id; } else { assert k == (g.id, k.1); }
    }
    forall id, x | id in t.grants && t.grants[id].status.Active? && t.grants[id].child == g.child &&
                   x in t.grants[id].services
      ensures x !in g.services
    {
      assert (id, x) in t.slots;
      assert Taken(t, g.child, id, x);
    }
    forall i, j | i != j ensures Apart(t', i, j) {
      assert Apart(t, i, j);
    }
    assert forall i, j | 0 <= i < j < |t.children| :: EarlierChild(t.children, i, j);
  }

  lemma SetStatusKeepsWf(t: Tables, id: GrantId, to: Status, at: int)
    requires Wf(t) && id in t.grants && (to.Active? ==> forall other, x :: !Clash(t, id, other, x))
    ensures Wf(SetStatus(t, id, to, at))
  {
    if to.Active? {
      forall other, x | other in t.grants && other != id && t.grants[other].status.Active? &&
                        t.grants[other].child == t.grants[id].child && x in t.grants[id].services
        ensures x !in t.grants[other].services
      {
        assert !Clash(t, id, other, x);
      }
      forall i, j | i != j ensures Apart(SetStatus(t, id, to, at), i, j) {
        assert Apart(t, i, j);
      }
    } else {
      StillOneActive(t, SetStatus(t, id, to, at));
    }
  }

  /** Another grant of the same child has a live slot for service x of grant id. */
  ghost predicate Clash(t: Tables, id: GrantId, other: GrantId, x: Service)
    requires id in t.grants
  {
    other != id && x in t.grants[id].services && Taken(t, t.grants[id].child, other, x)
  }

  lemma ClashIsActive(t: Tables, id: GrantId)
    requires SlotsMirror(t) && id in t.grants && exists other, x :: Clash(t, id, other, x)
    ensures exists other, x ::
              other != id && x in t.grants[id].services && ActiveFor(t, t.grants[id].child, other, x)
  {
    var other, x :| Clash(t, id, other, x);
    TakenIsActive(t, t.grants[id].child, other, x);
  }

  /** Two live slots of one child and service belong to one grant. */
  lemma OneTaker(t: Tables, child: ChildId, i: GrantId, j: GrantId, x: Service)
    requires SlotsMirror(t) && OneActive(t) && Taken(t, child, i, x) && Taken(t, child, j, x)
    ensures i == j
  {
    assert i != j ==> Apart(t, i, j);
  }

  lemma SetEndsKeepsWf(t: Tables, id: GrantId, endsAt: int)
    requires Wf(t) && id in t.grants && endsAt % SECOND == 0
    ensures Wf(SetEnds(t, id, endsAt))
  {
    StillOneActive(t, SetEnds(t, id, endsAt));
  }

  lemma RenameKeepsWf(t: Tables, from: Name, to: Name)
    requires Wf(t)
    ensures Wf(RenameIn(t, from, to))
  {
    var t' := RenameIn(t, from, to);
    assert SlotsMirror(t');
    StillOneActive(t, t');
    forall i, j | 0 <= i < j < |t'.children| ensures EarlierChild(t'.children, i, j) {
      assert EarlierChild(t.children, i, j);
    }
  }

  lemma RemapKeepsWf(t: Tables, children: seq<Child>)
    requires Wf(t) && ChildrenOk(t.(children := children))
    ensures Wf(t.(children := children))
  {
    StillOneActive(t, t.(children := children));
  }

  lemma MapClientKeepsWf(t: Tables, i: nat, name: Name)
    requires Wf(t) && i < |t.children|
    ensures Wf(MapClient(t, i, name))
  {
    var t' := MapClient(t, i, name);
    forall j, k | 0 <= j < k < |t'.children| ensures EarlierChild(t'.children, j, k) {
      assert EarlierChild(t.children, j, k);
    }
    RemapKeepsWf(t, t'.children);
  }

  /** gs is every active grant, id ascending. */
  ghost predicate ListsActive(t: Tables, gs: seq<Grant>) {
    && (forall i | 0 <= i < |gs| ::
          gs[i].id in t.grants && t.grants[gs[i].id] == gs[i] && gs[i].status.Active?)
    && (forall id | id in t.grants && t.grants[id].status.Active? :: t.grants[id] in gs)
    && (forall i, j | 0 <= i < j < |gs| :: Earlier(gs, i, j))
  }

  ghost predicate Earlier(gs: seq<Grant>, i: nat, j: nat)
    requires i < |gs| && j < |gs|
  {
    gs[i].id < gs[j].id
  }

  datatype StoreError =
    | GrantNotFound
    | ChildNotFound
    | GrantOverlap(existing: GrantId, service: Service)
    | ClientTaken(client: Name, child: ChildId)
    | LiveSlotExists
    | Unavailable

  /** Child c blocks a rename: it maps to but not from. */
  predicate Outsider(c: Child, from: Name, to: Name) {
    to in c.clients && from !in c.clients
  }

  /** c is the first child, id ascending, that blocks the rename. */
  ghost predicate FirstOutsider(children: seq<Child>, from: Name, to: Name, c: ChildId) {
    exists i ::
      && 0 <= i < |children| && children[i].id == c && to in children[i].clients && from !in children[i].clients
      && forall j | 0 <= j < i && to in children[j].clients :: from in children[j].clients
  }

  class Store {
    var tables: Tables
    var faults: nat

    constructor (t: Tables)
      ensures tables == t && faults == 0
    {
      tables, faults := t, 0;
    }

    /** A transaction begins, or the database does not answer. */
    method Begin() returns (ok: bool)
      modifies this`faults
      ensures faults == if ok then old(faults) else old(faults) + 1
    {
      ok := *;
      if !ok { faults := faults + 1; }
    }

    /** The grant holding the live slot of a child and service, if any. */
    method LiveSlot(child: ChildId, x: Service) returns (r: Option<GrantId>)
      ensures match r
              case Some(id) => Taken(tables, child, id, x)
              case None => forall id :: !Taken(tables, child, id, x)
    {
      var rows := set k | k in tables.slots && k.1 == x && tables.slots[k] == Slot(child, true);
      if rows == {} {
        assert forall id: GrantId :: (id, x) !in rows;
        return None;
      }
      var k :| k in rows;
      assert k == (k.0, x);
      return Some(k.0);
    }

    /** The lookups before the insert: the first service whose slot is live. */
    method FirstOverlap(child: ChildId, svcs: seq<Service>) returns (r: Option<StoreError>)
      requires Ascending(svcs)
      ensures r.None? ==> forall id, x | x in svcs :: !Taken(tables, child, id, x)
      ensures r.Some? ==>
                && r.value.GrantOverlap? && r.value.service in svcs
                && Taken(tables, child, r.value.existing, r.value.service)
                && forall id, x | x in svcs && x < r.value.service :: !Taken(tables, child, id, x)
    {
      AscendingAll(svcs);
      for i := 0 to |svcs|
        invariant forall id, j | 0 <= j < i :: !Taken(tables, child, id, svcs[j])
      {
        var existing := LiveSlot(child, svcs[i]);
        if existing.Some? { return Some(GrantOverlap(existing.value, svcs[i])); }
      }
      return None;
    }

    /** An overlapping live slot is refused by name before anything is inserted. */
    method CreateGrant(child: ChildId, services: seq<Service>, clients: seq<Name>, startedAt: int, endsAt: int)
      returns (r: Result<Grant, StoreError>)
      requires Wf(tables)
      modifies this
      ensures Wf(tables)
      ensures old(faults) <= faults && (faults > old(faults) <==> r == Err(Unavailable))
      ensures r.Ok? ==>
                && r.value == NewGrant(old(tables), child, services, clients, startedAt, endsAt)
                && (forall id, x | x in r.value.services :: !Taken(old(tables), child, id, x))
                && tables == InsertGrant(old(tables), r.value)
      ensures r.Ok? ==>
                && AsAsked(r.value, child, services, clients, startedAt, endsAt)
                && Inserted(old(tables), tables, r.value)
                && forall id, x | x in services :: !ActiveFor(old(tables), child, id, x)
      ensures r.Err? ==> tables == old(tables)
      ensures r.Err? && r.error != Unavailable ==>
                && r.error.GrantOverlap?
                && r.error.service in services
                && Taken(tables, child, r.error.existing, r.error.service)
                && ActiveFor(tables, child, r.error.existing, r.error.service)
                && (forall id, x | x in services && x < r.error.service :: !Taken(tables, child, id, x))
    {
      var ok := Begin();
      if !ok { return Err(Unavailable); }
      var svcs := Normalise(services);
      var cls := Normalise(clients);
      var overlap := FirstOverlap(child, svcs);
      if overlap.Some? {
        TakenIsActive(tables, child, overlap.value.existing, overlap.value.service);
        return Err(overlap.value);
      }
      NoneTaken(tables, child, svcs);
      InsertGrantInserts(tables, child, services, clients, startedAt, endsAt);
      var g := Grant(tables.nextId, child, Active, svcs, cls, WholeSeconds(startedAt), WholeSeconds(endsAt), None);
      InsertKeepsWf(tables, g);
      tables := InsertGrant(tables, g);
      return Ok(g);
    }

    method ListActiveGrants() returns (r: Result<seq<Grant>, StoreError>)
      requires Wf(tables)
      modifies this`faults
      ensures if r.Ok? then ListsActive(tables, r.value) && faults == old(faults)
              else r.error == Unavailable && faults > old(faults)
    {
      var ok := Begin();
      if !ok { return Err(Unavailable); }
      var gs: seq<Grant> := [];
      for id := 0 to tables.nextId
        invariant faults == old(faults)
        invariant forall i | 0 <= i < |gs| ::
            gs[i].id in tables.grants && tables.grants[gs[i].id] == gs[i] && gs[i].status.Active? && gs[i].id < id
        invariant forall j | j in tables.grants && tables.grants[j].status.Active? && j < id :: tables.grants[j] in gs
        invariant forall i, j | 0 <= i < j < |gs| :: gs[i].id < gs[j].id
      {
        if id in tables.grants && tables.grants[id].status.Active? {
          gs := gs + [tables.grants[id]];
        }
      }
      return Ok(gs);
    }

    method GetGrant(id: GrantId) returns (r: Result<Grant, StoreError>)
      modifies this`faults
      ensures r.Ok? ==> id in tables.grants && tables.grants[id] == r.value && faults == old(faults)
      ensures r.Err? ==>
                || (r.error == Unavailable && faults > old(faults))
                || (r.error == GrantNotFound && faults == old(faults) && id !in tables.grants)
    {
      var ok := Begin();
      if !ok { return Err(Unavailable); }
      if id !in tables.grants { return Err(GrantNotFound); }
      return Ok(tables.grants[id]);
    }

    method ExtendGrant(id: GrantId, newEndsAt: int) returns (r: Result<Grant, StoreError>)
      requires Wf(tables)
      modifies this
      ensures Wf(tables)
      ensures old(faults) <= faults && (faults > old(faults) <==> r == Err(Unavailable))
      ensures r.Ok? ==>
                && id in old(tables).grants && old(tables).grants[id].status.Active?
                && tables == SetEnds(old(tables), id, WholeSeconds(newEndsAt))
                && r.value == tables.grants[id]
      ensures r.Ok? ==>
                && EndMoved(old(tables), tables, id, newEndsAt)
                && r.value.endsAt <= newEndsAt < r.value.endsAt + SECOND
                && r.value.(endsAt := 0) == old(tables).grants[id].(endsAt := 0)
      ensures r.Err? ==> tables == old(tables) && (r.error == Unavailable || r.error == GrantNotFound)
      ensures r == Err(GrantNotFound) ==> !(id in tables.grants && tables.grants[id].status.Active?)
    {
      var ok := Begin();
      if !ok { return Err(Unavailable); }
      if !(id in tables.grants && tables.grants[id].status.Active?) { return Err(GrantNotFound); }
      SetEndsKeepsWf(tables, id, WholeSeconds(newEndsAt));
      SetEndsMoves(tables, id, newEndsAt);
      tables := SetEnds(tables, id, WholeSeconds(newEndsAt));
      return Ok(tables.grants[id]);
    }

    /** Whether the unique index over live slots would refuse to make grant id's rows live. */
    method Clashes(id: GrantId) returns (r: bool)
      requires Wf(tables) && id in tables.grants
      ensures r <==> exists other, x :: Clash(tables, id, other, x)
    {
      var g := tables.grants[id];
      for i := 0 to |g.services|
        invariant forall other, j | 0 <= j < i :: !Clash(tables, id, other, g.services[j])
      {
        var live := LiveSlot(g.child, g.services[i]);
        if live.Some? && live.value != id {
          assert Clash(tables, id, live.value, g.services[i]);
          return true;
        }
        forall other ensures !Clash(tables, id, other, g.services[i]) {
          if live.Some? && Taken(tables, g.child, other, g.services[i]) {
            OneTaker(tables, g.child, id, other, g.services[i]);
          }
        }
      }
      return false;
    }

    /** Compare-and-set on the status; the service rows follow it in or out of the live set. */
    method SetGrantStatus(id: GrantId, from: Status, to: Status, at: int) returns (r: Result<bool, StoreError>)
      requires Wf(tables)
      modifies this
      ensures Wf(tables)
      ensures old(faults) <= faults && (faults > old(faults) <==> r == Err(Unavailable))
      ensures r.Err? && r.error != Unavailable ==>
                && r.error == LiveSlotExists && to.Active? && id in tables.grants && tables.grants[id].status == from
                && (exists other, x :: Clash(tables, id, other, x))
                && exists other, x :: other != id && x in tables.grants[id].services &&
                                      ActiveFor(tables, tables.grants[id].child, other, x)
      ensures r == Ok(true) ==>
                && id in old(tables).grants && old(tables).grants[id].status == from
                && (to.Active? ==> forall other, x :: !Clash(old(tables), id, other, x))
                && tables == SetStatus(old(tables), id, to, WholeSeconds(at))
                && StatusMoved(old(tables), tables, id, to, at)
      ensures r != Ok(true) ==> tables == old(tables)
      ensures r == Ok(false) ==> !(id in tables.grants && tables.grants[id].status == from)
    {
      var ok := Begin();
      if !ok { return Err(Unavailable); }
      if !(id in tables.grants && tables.grants[id].status == from) { return Ok(false); }
      if to.Active? {
        var clash := Clashes(id);
        if clash {
          ClashIsActive(tables, id);
          return Err(LiveSlotExists);
        }
      }
      SetStatusKeepsWf(tables, id, to, WholeSeconds(at));
      SetStatusMoves(tables, id, to, at);
      tables := SetStatus(tables, id, to, WholeSeconds(at));
      return Ok(true);
    }

    method ListChildren() returns (r: Result<seq<Child>, StoreError>)
      modifies this`faults
      ensures if r.Ok? then r.value == tables.children && faults == old(faults)
              else r.error == Unavailable && faults > old(faults)
    {
      var ok := Begin();
      return if ok then Ok(tables.children) else Err(Unavailable);
    }

    method GetChild(id: ChildId) returns (r: Result<Child, StoreError>)
      modifies this`faults
      ensures r.Ok? ==> r.value in tables.children && r.value.id == id && faults == old(faults)
      ensures r == Err(ChildNotFound) ==> (forall c | c in tables.children :: c.id != id) && faults == old(faults)
      ensures r.Err? && r.error != ChildNotFound ==> r.error == Unavailable && faults > old(faults)
    {
      var ok := Begin();
      if !ok { return Err(Unavailable); }
      for i := 0 to |tables.children|
        invariant faults == old(faults)
        invariant forall j | 0 <= j < i :: tables.children[j].id != id
      {
        if tables.children[i].id == id { return Ok(tables.children[i]); }
      }
      return Err(ChildNotFound);
    }

    /** clientOwners: the ids of the children that map name, ascending. */
    method ClientOwners(name: Name) returns (owners: seq<ChildId>)
      requires ChildrenOk(tables)
      ensures forall i, j | 0 <= i < j < |owners| :: owners[i] < owners[j]
      ensures forall c | c in tables.children :: c.id in owners <==> name in c.clients
      ensures forall o | o in owners :: exists c :: c in tables.children && c.id == o && name in c.clients
    {
      owners := [];
      for i := 0 to |tables.children|
        invariant forall a, b | 0 <= a < b < |owners| :: owners[a] < owners[b]
        invariant forall a | 0 <= a < |owners| :: i < |tables.children| ==> owners[a] < tables.children[i].id
        invariant forall j | 0 <= j < i :: tables.children[j].id in owners <==> name in tables.children[j].clients
        invariant forall o | o in owners :: exists c :: c in tables.children && c.id == o && name in c.clients
      {
        if i + 1 < |tables.children| { assert EarlierChild(tables.children, i, i + 1); }
        forall j | 0 <= j < i ensures tables.children[j].id != tables.children[i].id {
          assert EarlierChild(tables.children, j, i);
        }
        if name in tables.children[i].clients {
          assert tables.children[i] in tables.children;
          owners := owners + [tables.children[i].id];
        }
      }
    }

    /** Maps name to one child; a child that has it already is left alone, another owner refuses it. */
    method AddChildClient(childId: ChildId, name: Name) returns (err: Option<StoreError>)
      requires Wf(tables)
      modifies this
      ensures Wf(tables)
      ensures old(faults) <= faults && (faults > old(faults) <==> err == Some(Unavailable))
      ensures err.Some? ==> tables == old(tables)
      ensures err.None? ==> AddedTo(old(tables), tables, childId, name) && Joined(old(tables), tables, childId, name)
      ensures err.Some? && err.value.ClientTaken? ==>
                && err.value.client == name
                && (exists c :: c in tables.children && c.id == err.value.child && name in c.clients)
                && (forall c | c in tables.children && name in c.clients :: c.id != childId && err.value.child <= c.id)
      ensures err == Some(ChildNotFound) ==> forall c | c in tables.children :: c.id != childId
      ensures err.Some? ==> err.value.Unavailable? || err.value.ChildNotFound? || err.value.ClientTaken?
    {
      var ok := Begin();
      if !ok { return Some(Unavailable); }
      var at := 0;
      while at < |tables.children| && tables.children[at].id != childId
        invariant 0 <= at <= |tables.children|
        invariant forall j | 0 <= j < at :: tables.children[j].id != childId
      {
        at := at + 1;
      }
      if at == |tables.children| { return Some(ChildNotFound); }
      assert tables.children[at] in tables.children;
      var owners := ClientOwners(name);
      if childId in owners {
        AddedJoins(tables, tables, childId, name);
        return None;
      }
      if |owners| > 0 {
        assert owners[0] in owners;
        return Some(ClientTaken(name, owners[0]));
      }
      MapClientKeepsWf(tables, at, name);
      tables := MapClient(tables, at, name);
      AddedJoins(old(tables), tables, childId, name);
      return None;
    }

    /** firstOutsider(newOwners, oldOwners): an owner of to that does not own from. */
    method Intruder(from: Name, to: Name) returns (r: Option<ChildId>)
      requires ChildrenOk(tables)
      ensures match r
              case Some(c) => FirstOutsider(tables.children, from, to, c)
              case None => forall c | c in tables.children :: !Outsider(c, from, to)
    {
      var oldOwners := ClientOwners(from);
      var newOwners := ClientOwners(to);
      for i := 0 to |newOwners|
        invariant forall j | 0 <= j < i :: newOwners[j] in oldOwners
      {
        if newOwners[i] !in oldOwners {
          assert newOwners[i] in newOwners;
          LowestOutsider(tables, from, to, oldOwners, newOwners, i);
          return Some(newOwners[i]);
        }
      }
      return None;
    }

    method MovedRows(held: seq<Name>, from: Name, to: Name) returns (rows: seq<Name>)
      requires from != to
      ensures rows == RenameList(held, from, to)
    {
      rows := held;
      if from in held {
        rows := Without(held, {from});
        if to !in held { rows := rows + [to]; }
      }
      rows := Normalise(rows);
      AscendingUnique(rows, RenameList(held, from, to));
    }

    /** Moves each owner's row to the new name, or drops it when the owner already holds that. */
    method MoveRows(from: Name, to: Name) returns (kids: seq<Child>)
      requires ChildrenOk(tables) && from != to
      ensures kids == RenameIn(tables, from, to).children
    {
      kids := [];
      for i := 0 to |tables.children|
        invariant kids == RenameIn(tables, from, to).children[..i]
      {
        var c := tables.children[i];
        var rows := MovedRows(c.clients, from, to);
        RenamedNext(tables, from, to, i);
        kids := kids + [c.(clients := rows)];
      }
    }

    /** Follows a rename for every owner and every active grant, or refuses it whole. */
    method RenameClient(from: Name, to: Name) returns (err: Option<StoreError>)
      requires Wf(tables)
      modifies this
      ensures Wf(tables)
      ensures old(faults) <= faults && (faults > old(faults) <==> err == Some(Unavailable))
      ensures err.None? ==> tables == if from == to then old(tables) else RenameIn(old(tables), from, to)
      ensures err.Some? ==> tables == old(tables)
      ensures err.None? && from != to ==> forall c | c in old(tables).children :: !Outsider(c, from, to)
      ensures err.None? && from != to ==>
                && Followed(old(tables), tables, from, to)
                && forall c | c in old(tables).children && to in c.clients :: from in c.clients
      ensures err.Some? && err.value != Unavailable ==>
                err.value.ClientTaken? && err.value.client == to &&
                FirstOutsider(tables.children, from, to, err.value.child)
    {
      if from == to { return None; }
      var ok := Begin();
      if !ok { return Some(Unavailable); }
      var intruder := Intruder(from, to);
      if intruder.Some? { return Some(ClientTaken(to, intruder.value)); }
      var kids := MoveRows(from, to);
      RenameKeepsWf(tables, from, to);
      RenameFollows(tables, from, to);
      tables := RenameIn(tables, from, to).(children := kids);
      return None;
    }
  }

  lemma RenamedNext(t: Tables, from: Name, to: Name, i: nat)
    requires i < |t.children|
    ensures var moved := RenameIn(t, from, to).children;
            |moved| == |t.children| && moved[..i + 1] == moved[..i] + [RenameChild(t.children[i], from, to)]
  {
    TakeNext(RenameIn(t, from, to).children, i);
  }

  ghost predicate AddedTo(was: Tables, t: Tables, childId: ChildId, name: Name) {
    exists i :: 0 <= i < |was.children| && was.children[i].id == childId && MappedAt(was, t, i, name)
  }

  ghost predicate MappedAt(was: Tables, t: Tables, i: nat, name: Name)
    requires i < |was.children|
  {
    if name in was.children[i].clients then t == was
    else t == MapClient(was, i, name) && forall c | c in was.children :: name !in c.clients
  }

  lemma LowestOutsider(t: Tables, from: Name, to: Name, oldOwners: seq<ChildId>, newOwners: seq<ChildId>, i: nat)
    requires ChildrenOk(t)
    requires forall a, b | 0 <= a < b < |newOwners| :: newOwners[a] < newOwners[b]
    requires forall c | c in t.children :: c.id in oldOwners <==> from in c.clients
    requires forall c | c in t.children :: c.id in newOwners <==> to in c.clients
    requires i < |newOwners| && newOwners[i] !in oldOwners && forall j | 0 <= j < i :: newOwners[j] in oldOwners
    requires exists c :: c in t.children && c.id == newOwners[i] && to in c.clients
    ensures FirstOutsider(t.children, from, to, newOwners[i])
  {
    var c :| c in t.children && c.id == newOwners[i] && to in c.clients;
    var k :| 0 <= k < |t.children| && t.children[k] == c;
    forall j | 0 <= j < k ensures !Outsider(t.children[j], from, to) {
      if to in t.children[j].clients {
        assert t.children[j] in t.children && t.children[j].id in newOwners;
        var m :| 0 <= m < |newOwners| && newOwners[m] == t.children[j].id;
        assert EarlierChild(t.children, j, k);
        assert newOwners[m] < newOwners[i];
      }
    }
  }
}
