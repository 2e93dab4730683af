/**
 The AdGuard Home side: persistent clients with their blocked-services lists,
 and the locked read-modify-write every per-client writer goes through.
 */
module AdGuardHome {
  import opened Wrappers
  import opened Lists

  /** One persistent client; rest stands for the raw fields no edit targets. */
  datatype Device = Device(ids: seq<nat>, blocked: seq<Service>, useGlobal: bool, rest: map<string, string>)

  /** AdGuard's state. Client names are unique, so clients are keyed by name. */
  datatype Net = Net(clients: map<Name, Device>, global: seq<Service>)

  /** What a client blocks: the global list when it inherits it, else its own. */
  function Effective(net: Net, name: Name): seq<Service>
    requires name in net.clients
  {
    if net.clients[name].useGlobal then net.global else net.clients[name].blocked
  }

  function WithDevice(net: Net, name: Name, d: Device): Net {
    net.(clients := net.clients[name := d])
  }

  datatype Edit =
    | Add(ids: seq<Service>)
    | Remove(ids: seq<Service>)
    | Adopt(ids: seq<Service>)
    | Migrate(ids: seq<Service>)

  /** The normalised list an edit starts from. */
  function Current(e: Edit, d: Device, global: seq<Service>): seq<Service> {
    Norm(if e.Adopt? && d.useGlobal then global else d.blocked)
  }

  /** The normalised list an edit asks for. */
  function Next(e: Edit, d: Device, global: seq<Service>): (r: seq<Service>)
    ensures Ascending(r)
    ensures !e.Migrate? && !e.Remove? ==>
              forall x :: x in r <==> x in Current(e, d, global) || x in e.ids
    ensures e.Remove? ==> forall x :: x in r <==> x in d.blocked && x !in e.ids
    ensures e.Migrate? ==> forall x :: x in r <==> x in e.ids
  {
    match e
    case Remove(ids) => Norm(Without(Current(e, d, global), Members(ids)))
    case Migrate(ids) => Norm(ids)
    case _ => Norm(Current(e, d, global) + e.ids)
  }

  /**
   Whether the edit is posted: unchanged lists are skipped, but a client coming
   off the global list is always written.
   */
  predicate Posted(e: Edit, d: Device, global: seq<Service>) {
    match e
    case Migrate(_) => true
    case Adopt(_) => d.useGlobal || Current(e, d, global) != Next(e, d, global)
    case _ => Current(e, d, global) != Next(e, d, global)
  }

  /** The client after the edit. Fields an edit does not target stay verbatim. */
  function Edited(e: Edit, d: Device, global: seq<Service>): (r: Device)
    ensures r.ids == d.ids && r.rest == d.rest
    ensures r.useGlobal == (d.useGlobal && (e.Add? || e.Remove?))
    ensures e.Add? ==> forall x :: x in r.blocked <==> x in d.blocked || x in e.ids
    ensures e.Remove? ==> forall x :: x in r.blocked <==> x in d.blocked && x !in e.ids
    ensures e.Adopt? ==> forall x :: x in r.blocked <==> x in (if d.useGlobal then global else d.blocked) || x in e.ids
    ensures e.Migrate? ==> forall x :: x in r.blocked <==> x in e.ids
  {
    var next := Next(e, d, global);
    assert forall x :: x in Current(e, d, global) <==> x in (if e.Adopt? && d.useGlobal then global else d.blocked);
    if Posted(e, d, global) then
      d.(blocked := next, useGlobal := d.useGlobal && (e.Add? || e.Remove?))
    else
      assert Current(e, d, global) == next;
      d
  }

  /** A write happens exactly when the blocked set changes or the global flag must be cleared. */
  lemma PostedIffChanged(e: Edit, d: Device, global: seq<Service>)
    ensures Posted(e, d, global) <==>
              || e.Migrate?
              || (exists x :: (x in Edited(e, d, global).blocked) != (x in d.blocked))
              || (e.Adopt? && d.useGlobal)
  {
    var cur, next := Current(e, d, global), Next(e, d, global);
    var list := Edited(e, d, global).blocked;
    if !(e.Adopt? && d.useGlobal) {
      if forall x :: x in list <==> x in d.blocked {
        forall x ensures x in cur <==> x in next {
          assert x in cur <==> x in d.blocked;
          assert x in next <==> x in list;
        }
        AscendingUnique(cur, next);
      }
    }
  }

  datatype Error = ClientNotFound | ClientExists | IDTaken(id: nat, owner: Name) | Unavailable

  function After(net: Net, name: Name, e: Edit): Net
    requires name in net.clients
  {
    WithDevice(net, name, Edited(e, net.clients[name], net.global))
  }

  predicate MayPost(net: Net, name: Name, e: Edit) {
    name in net.clients && Posted(e, net.clients[name], net.global)
  }

  /** What one edit of one client may leave behind: done, client unknown, or failed with the write landed or not. */
  ghost predicate EditOutcome(was: Net, net: Net, name: Name, e: Edit, err: Option<Error>) {
    match err
    case None => name in was.clients && net == After(was, name, e)
    case Some(ClientNotFound) => name !in was.clients && net == was
    case Some(Unavailable) => net == was || (name in was.clients && net == After(was, name, e))
    case Some(_) => false
  }

  lemma KnownClientOutcome(was: Net, net: Net, name: Name, e: Edit, err: Option<Error>)
    requires name in was.clients && EditOutcome(was, net, name, e, err)
    ensures err.None? || err == Some(Unavailable)
  {
    match err
    case None =>
    case Some(ClientNotFound) =>
    case Some(Unavailable) =>
    case Some(_) =>
  }

  /** The client has an id that same, the source's sameID, takes for id. */
  ghost predicate HoldsID(net: Net, name: Name, same: (nat, nat) -> bool, ids: seq<nat>, id: nat) {
    name in net.clients && id in ids && exists held :: held in net.clients[name].ids && same(held, id)
  }

  function Renamed(net: Net, from: Name, to: Name): Net
    requires from in net.clients
  {
    net.(clients := (net.clients - {from})[to := net.clients[from]])
  }

  /**
   The HTTP client. Any request may fail; a failed write may or may not have
   reached AdGuard. posts counts the writes sent and faults the requests that
   failed; calls lists the clients edits were called for, and failed those
   whose call failed.
   */
  class AdGuard {
    var net: Net
    var posts: nat
    var faults: nat
    ghost var calls: seq<Name>
    ghost var failed: seq<Name>

    constructor (net: Net)
      ensures this.net == net && posts == 0 && faults == 0 && calls == failed == []
    {
      this.net, posts, faults := net, 0, 0;
      calls, failed := [], [];
    }

    /** One request: it is answered or it is not. */
    method Send() returns (ok: bool)
      modifies this`faults
      ensures faults == if ok then old(faults) else old(faults) + 1
    {
      ok := *;
      if !ok { faults := faults + 1; }
    }

    /** One POST that would leave AdGuard at next. */
    method Post(next: Net) returns (ok: bool)
      modifies this`net, this`posts, this`faults
      ensures posts == old(posts) + 1
      ensures faults == if ok then old(faults) else old(faults) + 1
      ensures if ok then net == next else net == next || net == old(net)
    {
      var landed: bool := *;
      ok := *;
      posts := posts + 1;
      if ok || landed { net := next; }
      if !ok { faults := faults + 1; }
    }

    /** Clients: the persistent clients and the global list, or nothing. */
    method Clients() returns (r: Result<Net, Error>)
      modifies this`faults
      ensures if r.Ok? then r.value == net && faults == old(faults) else r.error == Unavailable && faults > old(faults)
    {
      var ok := Send();
      if ok { ok := Send(); }
      r := if ok then Ok(net) else Err(Unavailable);
    }

    /** updateClient with its mutate step: re-read under the lock, edit a copy, post it back unless nothing changes. */
    method UpdateClient(name: Name, e: Edit) returns (err: Option<Error>)
      modifies this
      ensures EditOutcome(old(net), net, name, e, err)
      ensures old(faults) <= faults && (faults > old(faults) <==> err == Some(Unavailable))
      ensures old(posts) <= posts <= old(posts) + 1
      ensures posts > old(posts) ==> MayPost(old(net), name, e)
      ensures err.None? && MayPost(old(net), name, e) ==> posts == old(posts) + 1
      ensures calls == old(calls) + [name]
      ensures failed == if err == Some(Unavailable) then old(failed) + [name] else old(failed)
    {
      calls := calls + [name];
      var ok := Send();
      if !ok { failed := failed + [name]; return Some(Unavailable); }
      if name !in net.clients { return Some(ClientNotFound); }
      var d := net.clients[name];
      assert net == WithDevice(net, name, d);
      if e.Adopt? && d.useGlobal {
        ok := Send();
        if !ok { failed := failed + [name]; return Some(Unavailable); }
      }
      var current := Normalise(if e.Adopt? && d.useGlobal then net.global else d.blocked);
      var next;
      match e {
        case Remove(ids) => next := Normalise(Without(current, Members(ids)));
        case Migrate(ids) => next := Normalise(ids);
        case _ => next := Normalise(current + e.ids);
      }
      if current == next && !e.Migrate? && !(e.Adopt? && d.useGlobal) { return None; }
      var data := if e.Add? || e.Remove? then d.(blocked := next) else d.(blocked := next, useGlobal := false);
      ok := Post(WithDevice(net, name, data));
      if !ok { failed := failed + [name]; }
      return if ok then None else Some(Unavailable);
    }

    method AddBlockedServices(name: Name, ids: seq<Service>) returns (err: Option<Error>)
      modifies this
      ensures EditOutcome(old(net), net, name, Add(ids), err)
      ensures old(faults) <= faults && (faults > old(faults) <==> err == Some(Unavailable))
      ensures old(posts) <= posts <= old(posts) + 1
      ensures posts > old(posts) ==> MayPost(old(net), name, Add(ids))
      ensures err.None? && MayPost(old(net), name, Add(ids)) ==> posts == old(posts) + 1
      ensures calls == old(calls) + [name]
      ensures failed == if err == Some(Unavailable) then old(failed) + [name] else old(failed)
    {
      err := UpdateClient(name, Add(ids));
    }

    method RemoveBlockedServices(name: Name, ids: seq<Service>) returns (err: Option<Error>)
      modifies this
      ensures EditOutcome(old(net), net, name, Remove(ids), err)
      ensures old(faults) <= faults && (faults > old(faults) <==> err == Some(Unavailable))
      ensures old(posts) <= posts <= old(posts) + 1
      ensures posts > old(posts) ==> MayPost(old(net), name, Remove(ids))
      ensures err.None? && MayPost(old(net), name, Remove(ids)) ==> posts == old(posts) + 1
      ensures calls == old(calls) + [name]
      ensures failed == if err == Some(Unavailable) then old(failed) + [name] else old(failed)
    {
      err := UpdateClient(name, Remove(ids));
    }

    method AdoptBlockedServices(name: Name, ids: seq<Service>) returns (err: Option<Error>)
      modifies this
      ensures EditOutcome(old(net), net, name, Adopt(ids), err)
      ensures old(faults) <= faults && (faults > old(faults) <==> err == Some(Unavailable))
      ensures old(posts) <= posts <= old(posts) + 1
      ensures posts > old(posts) ==> MayPost(old(net), name, Adopt(ids))
      ensures err.None? && MayPost(old(net), name, Adopt(ids)) ==> posts == old(posts) + 1
      ensures calls == old(calls) + [name]
      ensures failed == if err == Some(Unavailable) then old(failed) + [name] else old(failed)
    {
      err := UpdateClient(name, Adopt(ids));
    }

    method MigrateFromGlobal(name: Name, ids: seq<Service>) returns (err: Option<Error>)
      modifies this
      ensures EditOutcome(old(net), net, name, Migrate(ids), err)
      ensures old(faults) <= faults && (faults > old(faults) <==> err == Some(Unavailable))
      ensures old(posts) <= posts <= old(posts) + 1
      ensures posts > old(posts) ==> MayPost(old(net), name, Migrate(ids))
      ensures err.None? && MayPost(old(net), name, Migrate(ids)) ==> posts == old(posts) + 1
      ensures calls == old(calls) + [name]
      ensures failed == if err == Some(Unavailable) then old(failed) + [name] else old(failed)
    {
      err := UpdateClient(name, Migrate(ids));
    }

    /** One listed client's ids against the new ones. */
    static method TakenID(held: seq<nat>, same: (nat, nat) -> bool, ids: seq<nat>) returns (r: Option<nat>)
      ensures match r
              case Some(id) => id in ids && exists h :: h in held && same(h, id)
              case None => forall h, id | h in held && id in ids :: !same(h, id)
    {
      for i := 0 to |held|
        invariant forall j, id | 0 <= j < i && id in ids :: !same(held[j], id)
      {
        for k := 0 to |ids|
          invariant forall j | 0 <= j < k :: !same(held[i], ids[j])
        {
          if same(held[i], ids[k]) {
            assert held[i] in held;
            return Some(ids[k]);
          }
        }
      }
      return None;
    }

    /** What keeps a client of this name and these ids from being added, in the order the clients are listed. */
    method TakenBy(name: Name, ids: seq<nat>, same: (nat, nat) -> bool) returns (err: Option<Error>)
      ensures match err
              case None => name !in net.clients && forall other, id :: !HoldsID(net, other, same, ids, id)
              case Some(IDTaken(id, owner)) => HoldsID(net, owner, same, ids, id)
              case Some(e) => e.ClientExists? && name in net.clients
    {
      var todo := net.clients.Keys;
      while todo != {}
        invariant todo <= net.clients.Keys
        invariant name in net.clients ==> name in todo
        invariant forall other, id :: other !in todo ==> !HoldsID(net, other, same, ids, id)
        decreases |todo|
      {
        var other :| other in todo;
        if other == name { return Some(ClientExists); }
        var taken := TakenID(net.clients[other].ids, same, ids);
        if taken.Some? {
          assert HoldsID(net, other, same, ids, taken.value);
          return Some(IDTaken(taken.value, other));
        }
        todo := todo - {other};
      }
      return None;
    }

    /**
     AddClient: a taken name or id is refused before anything is posted. With a
     blocked list the client gets its own, else it inherits the global one.
     */
    method AddClient(name: Name, ids: seq<nat>, blocked: Option<seq<Service>>, same: (nat, nat) -> bool,
                     rest: map<string, string>)
      returns (err: Option<Error>)
      modifies this
      ensures old(posts) <= posts <= old(posts) + 1 && old(faults) <= faults
      ensures calls == old(calls) && failed == old(failed)
      ensures err == None ==>
                && name !in old(net).clients
                && (forall other, id :: !HoldsID(old(net), other, same, ids, id))
                && net == WithDevice(old(net), name, NewDevice(ids, blocked, rest))
      ensures err != None ==>
                net == old(net) ||
                (err == Some(Unavailable) && name !in old(net).clients &&
                 net == WithDevice(old(net), name, NewDevice(ids, blocked, rest)))
      ensures err == None || net != old(net) ==> DeviceAdded(old(net), net, name, ids, blocked, rest)
      ensures err == Some(ClientExists) ==> name in old(net).clients && posts == old(posts)
      ensures err.Some? && err.value.IDTaken? ==>
                HoldsID(old(net), err.value.owner, same, ids, err.value.id) && posts == old(posts)
      ensures err == Some(Unavailable) <==> faults > old(faults)
      ensures err != Some(ClientNotFound)
    {
      var ok := Send();
      if !ok { return Some(Unavailable); }
      var taken := TakenBy(name, ids, same);
      if taken.Some? { return taken; }
      NewDeviceAdds(net, name, ids, blocked, rest);
      ok := Post(WithDevice(net, name, NewDevice(ids, blocked, rest)));
      return if ok then None else Some(Unavailable);
    }

    /** RenameClient: every field but the name goes back as read. A failed rename did not land. */
    method RenameClient(from: Name, to: Name) returns (err: Option<Error>)
      modifies this
      ensures old(faults) <= faults && calls == old(calls) && failed == old(failed)
      ensures err == None ==> if from == to then net == old(net) else
                from in old(net).clients && to !in old(net).clients && net == Renamed(old(net), from, to)
      ensures err == None && from != to ==> DeviceMoved(old(net), net, from, to)
      ensures err != None ==> net == old(net)
      ensures err == Some(ClientExists) ==> to in net.clients && posts == old(posts)
      ensures err == Some(ClientNotFound) ==> from !in net.clients && to !in net.clients && posts == old(posts)
      ensures err == Some(Unavailable) <==> faults > old(faults)
      ensures err.None? || err.value.ClientExists? || err.value.ClientNotFound? || err.value.Unavailable?
    {
      if from == to { return None; }
      var ok := Send();
      if !ok { return Some(Unavailable); }
      if to in net.clients { return Some(ClientExists); }
      if from !in net.clients { return Some(ClientNotFound); }
      ok := Send();
      posts := posts + 1;
      if !ok { return Some(Unavailable); }
      RenamedMoves(net, from, to);
      net := Renamed(net, from, to);
      return None;
    }
  }

  /** net' is net with a new client: these ids, the other fields given, and a list of its own if blocked is one. */
  ghost predicate DeviceAdded(net: Net, net': Net, name: Name, ids: seq<nat>, blocked: Option<seq<Service>>,
                              rest: map<string, string>) {
    && name !in net.clients && net'.global == net.global && net'.clients.Keys == net.clients.Keys + {name}
    && (forall c | c in net.clients :: net'.clients[c] == net.clients[c])
    && var d := net'.clients[name];
       && d.ids == ids && d.rest == rest && (d.useGlobal <==> blocked.None?) && Ascending(d.blocked)
       && forall x :: x in d.blocked <==> blocked.Some? && x in blocked.value
  }

  lemma NewDeviceAdds(net: Net, name: Name, ids: seq<nat>, blocked: Option<seq<Service>>, rest: map<string, string>)
    requires name !in net.clients
    ensures DeviceAdded(net, WithDevice(net, name, NewDevice(ids, blocked, rest)), name, ids, blocked, rest)
  {
  }

  /** The client from is now called to, every field as it was, and so is every other client. */
  ghost predicate DeviceMoved(net: Net, net': Net, from: Name, to: Name) {
    && from in net.clients && to !in net.clients && net'.global == net.global
    && net'.clients.Keys == net.clients.Keys - {from} + {to} && net'.clients[to] == net.clients[from]
    && forall c | c in net.clients && c != from :: net'.clients[c] == net.clients[c]
  }

  lemma RenamedMoves(net: Net, from: Name, to: Name)
    requires from in net.clients && to !in net.clients
    ensures DeviceMoved(net, Renamed(net, from, to), from, to)
  {
  }

  function NewDevice(ids: seq<nat>, blocked: Option<seq<Service>>, rest: map<string, string>): Device {
    Device(ids, if blocked.Some? then Norm(blocked.value) else [], blocked.None?, rest)
  }
}
