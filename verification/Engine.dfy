/**
 The grant engine. Every public method is one critical section of the engine
 mutex. log records, as ghost state, each change the engine makes; Consistent
 says that the log is a run of the state machine and ends in the present
 state, so every theorem about runs holds of the engine.
 */
module Grants {
  import opened Wrappers
  import opened Lists
  import opened AdGuardHome
  import opened GrantStore
  import opened Timeline
  import opened GrantRuns
  import opened Sharing
  import opened GrantEffects
  import opened Renames

  datatype CreateResult = CreateResult(grant: Grant, applied: bool, failed: seq<Name>)

  datatype EngineError =
    | NotFound
    | RevertFailed(clients: seq<Name>)
    | AdoptFailed(client: Name)
    | Refused(reason: AdGuardHome.Error)
    | StoreFailed(error: StoreError)
    | NotRenamed(store: StoreError)
    | HalfRenamed(store: StoreError)

  datatype Stats = Stats(grants: nat, reverted: nat, repaired: nat, writes: nat)

  /**
   A pass's counts after the first i grants: left have left active, calls writes
   were called for, and none failed if clean.
   */
  ghost predicate StatsAt(stats: Stats, net: Net, gs: seq<Grant>, at: int, i: nat, left: nat, calls: int, clean: bool)
    requires i <= |gs|
  {
    && stats.grants == |gs| && stats.reverted == left && stats.writes == calls
    && stats.repaired <= DriftSum(net, gs[..i], at) && (clean ==> stats.repaired == DriftSum(net, gs[..i], at))
  }

  lemma StatsNext(stats: Stats, net: Net, gs: seq<Grant>, at: int, i: nat, left: nat, calls: int, clean: bool,
                  fixed: nat, writes: nat, expired: bool, stillClean: bool)
    requires i < |gs| && StatsAt(stats, net, gs, at, i, left, calls, clean)
    requires fixed <= DriftOf(net, gs[i], at) && (stillClean ==> clean && fixed == DriftOf(net, gs[i], at))
    ensures var more := stats.(writes := stats.writes + writes, repaired := stats.repaired + fixed,
                               reverted := stats.reverted + if expired then 1 else 0);
            StatsAt(more, net, gs, at, i + 1, left + if expired then 1 else 0, calls + writes, stillClean)
  {
    DriftSnoc(net, gs, i, at);
  }

  /** What a rename leaves in the log: nothing, both halves, a half undone, or a half. */
  function RenameEvents(from: Name, to: Name, err: Option<EngineError>, begun: bool): seq<Event> {
    if !begun then []
    else if err.None? then [RenamedOnNet(from, to), RenamedInStore(from, to)]
    else if err.value.HalfRenamed? then [RenamedOnNet(from, to)]
    else [RenamedOnNet(from, to), RenamedOnNet(to, from)]
  }

  lemma PairUp(l0: seq<Event>, l1: seq<Event>, l2: seq<Event>, from: Name, to: Name, err: Option<EngineError>)
    requires l1 == l0 + [RenamedOnNet(from, to)]
    requires l2 == l1 + if err.None? then [RenamedInStore(from, to)]
                        else if err.value.HalfRenamed? then []
                        else [RenamedOnNet(to, from)]
    ensures l2 == l0 + RenameEvents(from, to, err, true) && l2 != l0
  {
    assert |l2| > |l0|;
  }

  /** The own list of a client created for a child; one created for none inherits the global list. */
  ghost function ListOf(child: Option<ChildId>, d: Device): Option<seq<Service>> {
    if child.None? then None else Some(d.blocked)
  }

  /**
   AdGuard's client, every mapping and every active grant follow the rename,
   which took no other child's device; all else is as it was.
   */
  ghost predicate RenamedWhole(s: State, s': State, from: Name, to: Name) {
    && DeviceMoved(s.ag, s'.ag, from, to) && Followed(s.t, s'.t, from, to)
    && s'.timers == s.timers && s'.closed == s.closed && s'.now == s.now
    && forall c | c in s.t.children && to in c.clients :: from in c.clients
  }

  lemma MovedWhole(s: State, from: Name, to: Name)
    requires Wf(s.t) && from in s.ag.clients && to !in s.ag.clients
    requires forall c | c in s.t.children :: !Outsider(c, from, to)
    ensures RenamedWhole(s, Moved(s, from, to), from, to)
    ensures DeviceMoved(s.ag, Renamed(s.ag, from, to), from, to)
  {
    RenamedMoves(s.ag, from, to);
    RenameFollows(s.t, from, to);
  }

  /** Why AdGuard's side refuses a new client: its name is taken, or one of its ids. */
  ghost predicate KeptOut(net: Net, name: Name, same: (nat, nat) -> bool, ids: seq<nat>, err: AdGuardHome.Error) {
    match err
    case ClientExists => name in net.clients
    case IDTaken(id, owner) => HoldsID(net, owner, same, ids, id)
    case _ => false
  }

  /** Why the store refuses to map a client: another child does, and that one is named. */
  ghost predicate MappedElsewhere(t: Tables, child: ChildId, name: Name, err: EngineError) {
    && err.StoreFailed? && err.error.ClientTaken? && err.error.client == name && err.error.child != child
    && exists c :: c in t.children && c.id == err.error.child && name in c.clients
  }

  class Engine {
    const st: Store
    const ag: AdGuard
    var timers: map<GrantId, int>
    var closed: bool
    var now: int
    ghost const first: State
    ghost var log: seq<Event>

    ghost function Here(): State
      reads this`timers, this`closed, this`now, st, ag
    {
      State(st.tables, ag.net, timers, closed, now)
    }

    /** A restart: a new engine over the store and AdGuard the last one left, and its history goes on. */
    constructor Restart(ghost before: Engine, st: Store, ag: AdGuard, now: int)
      requires before.Consistent() && before.st == st && before.ag == ag && before.now <= now
      ensures Consistent() && first == before.first && log == before.log + [Restarted(now)]
      ensures this.st == st && this.ag == ag && !closed && timers == map[] && this.now == now
    {
      this.st, this.ag, this.now := st, ag, now;
      timers, closed := map[], false;
      first := before.first;
      log := before.log + [Restarted(now)];
      new;
      OneMore(before.first, before.log, before.Here(), Restarted(now));
      OnTimeStep(before.Here(), Restarted(now));
    }

    /** The log is a run of the state machine, and s the state it ends in. */
    ghost predicate Recorded(s: State)
      reads this`log
    {
      && Timeline.Valid(first) && Run(first, log) && Replay(first, log) == s
      && Timeline.Valid(s) && OnTime(s)
    }

    ghost predicate Consistent()
      reads this, st, ag
    {
      Recorded(Here())
    }

    /** The same, but that id's timer may be late for a new end. */
    ghost predicate RecordedBut(s: State, id: GrantId)
      reads this`log
    {
      && Timeline.Valid(first) && Run(first, log) && Replay(first, log) == s
      && Timeline.Valid(s) && OnTimeBut(s, id)
    }

    ghost function Faults(): nat
      reads st, ag
    {
      st.faults + ag.faults
    }

    constructor (st: Store, ag: AdGuard, now: int)
      requires Wf(st.tables)
      ensures Consistent() && log == [] && this.st == st && this.ag == ag && !closed && timers == map[]
      ensures this.now == now
    {
      this.st, this.ag, this.now := st, ag, now;
      timers, closed := map[], false;
      first := State(st.tables, ag.net, map[], false, now);
      log := [];
    }

    /** Appends a change that has just been made to the log. */
    ghost method Record(e: Event, was: State)
      requires Recorded(was) && Enabled(was, e) && Here() == Apply(was, e) && !e.Extended?
      modifies this`log
      ensures Consistent() && log == old(log) + [e]
    {
      OneMore(first, log, was, e);
      OnTimeStep(was, e);
      log := log + [e];
    }

    /** A new end leaves the grant's timer to be replaced. */
    ghost method RecordEnd(id: GrantId, endsAt: int, was: State)
      requires Recorded(was) && Enabled(was, Extended(id, endsAt)) && Here() == Apply(was, Extended(id, endsAt))
      modifies this`log
      ensures RecordedBut(Here(), id) && log == old(log) + [Extended(id, endsAt)]
    {
      OneMore(first, log, was, Extended(id, endsAt));
      OnTimeStep(was, Extended(id, endsAt));
      log := log + [Extended(id, endsAt)];
    }

    /** Dropping the timer of a changed end. */
    ghost method RecordStop(id: GrantId, was: State)
      requires RecordedBut(was, id) && Here() == Apply(was, Disarmed(id))
      modifies this`log
      ensures Consistent() && log == old(log) + [Disarmed(id)]
    {
      OneMore(first, log, was, Disarmed(id));
      OnTimeStep(was, Disarmed(id));
      log := log + [Disarmed(id)];
    }

    /** A clock reading: time does not go backwards. */
    method Clock() returns (t: int)
      requires Consistent()
      modifies this`now, this`log
      ensures Consistent() && log == old(log) + [Tick(t)]
      ensures t == now >= old(now)
    {
      ghost var was := Here();
      var later: int := *;
      t := if later < now then now else later;
      now := t;
      Record(Tick(t), was);
    }

    method StopTimer(id: GrantId)
      requires RecordedBut(Here(), id)
      modifies this`timers, this`log
      ensures Consistent() && old(log) <= log
      ensures TimersFrom(log, |old(log)|, id)
      ensures timers == old(timers) - {id}
    {
      if id in timers {
        ghost var was := Here();
        timers := timers - {id};
        RecordStop(id, was);
      }
    }

    /** Arms a timer for g at its end, or at once when that has passed. */
    method StartTimer(g: Grant)
      requires Consistent() && !closed && IsActive(st.tables, g.id) && st.tables.grants[g.id] == g
      modifies this`timers, this`now, this`log
      ensures Consistent() && old(log) <= log && old(now) <= now && TimersFrom(log, |old(log)|, g.id)
      ensures timers == old(timers)[g.id := Due(g.endsAt, now)]
    {
      var t := Clock();
      var d := if g.endsAt - t < 0 then 0 else g.endsAt - t;
      ghost var was := Here();
      TimerMore(old(log), Tick(t), |old(log)|, g.id);
      timers := timers[g.id := t + d];
      TimerMore(log, Armed(g.id, t + d), |old(log)|, g.id);
      Record(Armed(g.id, t + d), was);
    }

    /** (Re)schedules g's expiry, unless the engine is closed. */
    method Arm(g: Grant)
      requires RecordedBut(Here(), g.id) && IsActive(st.tables, g.id) && st.tables.grants[g.id] == g
      modifies this`timers, this`now, this`log
      ensures Consistent() && old(log) <= log && old(now) <= now
      ensures TimersFrom(log, |old(log)|, g.id) && (closed ==> now == old(now))
      ensures timers == if closed then old(timers) - {g.id} else old(timers)[g.id := Due(g.endsAt, now)]
    {
      StopTimer(g.id);
      if closed { return; }
      StartTimer(g);
      Rearmed(old(timers), g.id, Due(g.endsAt, now));
    }

    /** One AddBlockedServices call of a revert, and its record. */
    method Reblock(g: Grant, name: Name, ids: seq<Service>) returns (err: Option<AdGuardHome.Error>)
      requires Consistent() && IsActive(st.tables, g.id) && st.tables.grants[g.id] == g
      requires GivesBack(st.tables, g, name, ids)
      modifies this`log, ag
      ensures Consistent() && old(log) <= log && RevertsFrom(log, |old(log)|, g.id)
      ensures Here() == old(Here()).(ag := ag.net)
      ensures EditOutcome(old(ag.net), ag.net, name, Add(ids), err)
      ensures old(ag.faults) <= ag.faults && (ag.faults > old(ag.faults) <==> err == Some(AdGuardHome.Unavailable))
      ensures old(ag.posts) <= ag.posts <= old(ag.posts) + 1
      ensures Appended(old(ag.calls), ag.calls, [name])
      ensures Appended(old(ag.failed), ag.failed, if err == Some(AdGuardHome.Unavailable) then [name] else [])
    {
      ghost var was := Here();
      err := ag.AddBlockedServices(name, ids);
      RecordReblock(g, name, ids, err, was);
    }

    ghost method RecordReblock(g: Grant, name: Name, ids: seq<Service>, err: Option<AdGuardHome.Error>, was: State)
      requires Recorded(was) && Here() == was.(ag := ag.net)
      requires IsActive(was.t, g.id) && was.t.grants[g.id] == g && GivesBack(was.t, g, name, ids)
      requires EditOutcome(was.ag, ag.net, name, Add(ids), err)
      modifies this`log
      ensures Consistent() && old(log) <= log && RevertsFrom(log, |old(log)|, g.id)
    {
      if ag.net != was.ag {
        ReblockIsEvent(was, ag.net, g, name, ids, err);
        RevertMore(log, Reblocked(name, ids, g.id), |log|, g.id);
        Record(Reblocked(name, ids, g.id), was);
      }
    }

    /** The Add call for client i; a client AdGuard no longer has counts as reverted. */
    method RevertPlanned(g: Grant, i: nat, ids: seq<Service>, ghost failed: seq<Name>, ghost s0: State)
      returns (more: seq<Name>)
      requires Consistent() && IsActive(st.tables, g.id) && st.tables.grants[g.id] == g
      requires i < |g.clients| && Ascending(g.clients) && GivesBack(st.tables, g, g.clients[i], ids)
      requires s0.t == st.tables && PartlyReverted(s0, Here(), g, i, failed)
      modifies this`log, ag
      ensures Consistent() && old(log) <= log && RevertsFrom(log, |old(log)|, g.id)
      ensures Here() == old(Here()).(ag := ag.net)
      ensures PartlyReverted(s0, Here(), g, i + 1, failed + more)
      ensures old(ag.faults) <= ag.faults && (ag.faults == old(ag.faults) ==> more == [])
      ensures old(ag.posts) <= ag.posts <= old(ag.posts) + 1
      ensures Appended(old(ag.calls), ag.calls, [g.clients[i]]) && Appended(old(ag.failed), ag.failed, more)
    {
      ghost var before := Here();
      var err := Reblock(g, g.clients[i], ids);
      more := if err.Some? && err.value != ClientNotFound then [g.clients[i]] else [];
      RevertCall(s0, before, Here(), g, i, failed, ids, err, more);
    }

    /** One round of Revert's loop; s0 is the state it began in and failed the clients that failed so far. */
    method RevertClient(g: Grant, i: nat, plan: map<Name, seq<Service>>, ghost failed: seq<Name>, ghost s0: State)
      returns (more: seq<Name>, writes: nat)
      requires Consistent() && IsActive(st.tables, g.id) && st.tables.grants[g.id] == g
      requires i < |g.clients| && Ascending(g.clients)
      requires s0.t == st.tables && PartlyReverted(s0, Here(), g, i, failed)
      requires IsPlan(s0.t, g, plan)
      modifies this`log, ag
      ensures Consistent() && old(log) <= log && RevertsFrom(log, |old(log)|, g.id)
      ensures Here() == old(Here()).(ag := ag.net)
      ensures PartlyReverted(s0, Here(), g, i + 1, failed + more)
      ensures old(ag.faults) <= ag.faults && (ag.faults == old(ag.faults) ==> more == [])
      ensures old(ag.posts) <= ag.posts <= old(ag.posts) + writes && writes == if g.clients[i] in plan then 1 else 0
      ensures Appended(old(ag.calls), ag.calls, if g.clients[i] in plan then [g.clients[i]] else [])
      ensures Appended(old(ag.failed), ag.failed, more)
    {
      var name := g.clients[i];
      PlanAt(s0.t, g, plan, name);
      if name in plan {
        more := RevertPlanned(g, i, plan[name], failed, s0);
        writes := 1;
      } else {
        NothingToRevert(s0, Here(), g, i, failed);
        more, writes := [], 0;
        assert failed + more == failed;
      }
    }

    /** Puts back, on every stored client, what no other active grant still covers there. */
    method Revert(g: Grant) returns (failed: seq<Name>, writes: nat)
      requires Consistent() && IsActive(st.tables, g.id) && st.tables.grants[g.id] == g
      modifies this`log, ag, st`faults
      ensures Consistent() && old(log) <= log && RevertsFrom(log, |old(log)|, g.id)
      ensures Here() == old(Here()).(ag := ag.net)
      ensures RevertResult(old(Here()), Here(), g, failed)
      ensures old(Faults()) <= Faults() && (Faults() == old(Faults()) ==> failed == [])
      ensures old(ag.posts) <= ag.posts <= old(ag.posts) + writes && writes == |ag.calls| - |old(ag.calls)|
      ensures st.faults == old(st.faults) ==>
                && Appended(old(ag.calls), ag.calls, Keep(g.clients, Owed(old(st.tables), g)))
                && Appended(old(ag.failed), ag.failed, failed)
      ensures st.faults > old(st.faults) ==> failed == g.clients && ag.calls == old(ag.calls) && Here() == old(Here())
      ensures old(ag.calls) <= ag.calls && old(st.faults) <= st.faults
    {
      ghost var s0 := Here();
      var r := st.ListActiveGrants();
      if r.Err? { return g.clients, 0; }
      var plan := RevertPlan(g, r.value);
      PlanIsReturns(s0.t, g, r.value, plan);
      failed, writes := RevertAll(g, plan);
    }

    /** Revert's loop over the stored clients. */
    method RevertAll(g: Grant, plan: map<Name, seq<Service>>) returns (failed: seq<Name>, writes: nat)
      requires Consistent() && IsActive(st.tables, g.id) && st.tables.grants[g.id] == g
      requires Ascending(g.clients) && IsPlan(st.tables, g, plan)
      modifies this`log, ag
      ensures Consistent() && old(log) <= log && RevertsFrom(log, |old(log)|, g.id)
      ensures Here() == old(Here()).(ag := ag.net)
      ensures RevertResult(old(Here()), Here(), g, failed)
      ensures old(ag.faults) <= ag.faults && (ag.faults == old(ag.faults) ==> failed == [])
      ensures old(ag.posts) <= ag.posts <= old(ag.posts) + writes && writes == |Keep(g.clients, plan.Keys)|
      ensures Appended(old(ag.calls), ag.calls, Keep(g.clients, plan.Keys))
      ensures Appended(old(ag.failed), ag.failed, failed)
    {
      ghost var s0 := Here();
      failed, writes := [], 0;
      NoneReverted(s0, g);
      for i := 0 to |g.clients|
        invariant Consistent() && old(log) <= log && RevertsFrom(log, |old(log)|, g.id)
        invariant Here() == s0.(ag := ag.net)
        invariant RevertAt(s0, Here(), g, i, plan.Keys, old(ag.calls), ag.calls, old(ag.failed), ag.failed, failed,
                           writes)
        invariant old(ag.faults) <= ag.faults && (ag.faults == old(ag.faults) ==> failed == [])
        invariant old(ag.posts) <= ag.posts <= old(ag.posts) + writes
      {
        failed, writes := RevertStep(g, i, plan, failed, writes, s0, old(ag.calls), old(ag.failed));
      }
      CalledAll(g, plan.Keys, old(ag.calls), ag.calls, writes);
      AllReverted(s0, Here(), g, failed);
    }

    /**
     RevertClient, and what it adds to the clients before it; calls0 and failed0
     are the calls when the loop began.
     */
    method RevertStep(g: Grant, i: nat, plan: map<Name, seq<Service>>, bad: seq<Name>, writes0: nat, ghost s0: State,
                      ghost calls0: seq<Name>, ghost failed0: seq<Name>)
      returns (failed: seq<Name>, writes: nat)
      requires Consistent() && IsActive(st.tables, g.id) && st.tables.grants[g.id] == g
      requires i < |g.clients| && Ascending(g.clients) && s0.t == st.tables && IsPlan(s0.t, g, plan)
      requires RevertAt(s0, Here(), g, i, plan.Keys, calls0, ag.calls, failed0, ag.failed, bad, writes0)
      modifies this`log, ag
      ensures Consistent() && old(log) <= log && RevertsFrom(log, |old(log)|, g.id)
      ensures Here() == old(Here()).(ag := ag.net)
      ensures RevertAt(s0, Here(), g, i + 1, plan.Keys, calls0, ag.calls, failed0, ag.failed, failed, writes)
      ensures old(ag.faults) <= ag.faults && (ag.faults == old(ag.faults) ==> failed == bad)
      ensures writes0 <= writes && old(ag.posts) <= ag.posts <= old(ag.posts) + writes - writes0
    {
      var more, w := RevertClient(g, i, plan, bad, s0);
      CalledNext(g, i, plan.Keys, calls0, old(ag.calls), ag.calls, writes0);
      AppendedMore(failed0, old(ag.failed), ag.failed, bad, more);
      failed, writes := bad + more, writes0 + w;
    }

    /** The compare-and-set on a grant just read as active. */
    method StoreStatus(g: Grant, to: Status, at: int) returns (r: Result<bool, StoreError>)
      requires Wf(st.tables) && IsActive(st.tables, g.id) && !to.Active?
      modifies st
      ensures r == Ok(true) ==>
                st.tables == SetStatus(old(st.tables), g.id, to, WholeSeconds(at)) && st.faults == old(st.faults)
      ensures r != Ok(true) ==>
                r == Err(GrantStore.Unavailable) && st.faults > old(st.faults) && st.tables == old(st.tables)
    {
      r := st.SetGrantStatus(g.id, Active, to, at);
      assert r.Ok? ==> r.value;
    }

    /** Marks a fully reverted grant expired or ended, and drops its timer. */
    method Finish(g: Grant, to: Status) returns (r: Result<bool, StoreError>)
      requires Consistent() && IsActive(st.tables, g.id) && st.tables.grants[g.id] == g
      requires !to.Active? && (to.Expired? ==> g.endsAt <= now) && Reverted(Here(), g.id)
      modifies this`log, this`now, this`timers, st
      ensures Consistent() && old(log) <= log && RevertsFrom(log, |old(log)|, g.id)
      ensures old(now) <= now && old(st.faults) <= st.faults
      ensures r == Ok(true) ==>
                && Here() == old(Here()).(t := SetStatus(old(st.tables), g.id, to, WholeSeconds(now)),
                                          timers := old(timers) - {g.id}, now := now)
                && st.faults == old(st.faults)
      ensures r != Ok(true) ==>
                r == Err(GrantStore.Unavailable) && st.faults > old(st.faults) && Here() == old(Here()).(now := now)
    {
      var at := Clock();
      RevertMore(old(log), Tick(at), |old(log)|, g.id);
      ghost var was := Here();
      FinishIsEvent(was, g, to);
      r := StoreStatus(g, to, at);
      if r == Ok(true) {
        timers := timers - {g.id};
        RevertMore(log, Finished(g.id, to, WholeSeconds(at)), |old(log)|, g.id);
        Record(Finished(g.id, to, WholeSeconds(at)), was);
      }
    }

    /** Reverts an overdue active grant and marks it expired; a revert or status write that fails leaves it active. */
    method ExpireLocked(g: Grant) returns (expired: bool, writes: nat)
      requires Consistent() && IsActive(st.tables, g.id) && st.tables.grants[g.id] == g && g.endsAt <= now
      modifies this`log, this`now, this`timers, st, ag
      ensures Consistent() && old(log) <= log && RevertsFrom(log, |old(log)|, g.id)
      ensures old(now) <= now
      ensures OnlyReverts(old(Here()), Here(), g)
      ensures expired ==>
                RevertedAll(old(Here()), Here(), g) && StatusMoved(old(st.tables), st.tables, g.id, Expired, now)
      ensures expired ==>
                Here() == old(Here()).(t := SetStatus(old(st.tables), g.id, Expired, WholeSeconds(now)),
                                       timers := old(timers) - {g.id},
                                       ag := ag.net, now := now)
      ensures !expired ==> Here() == old(Here()).(ag := ag.net, now := now)
      ensures old(Faults()) <= Faults() && (Faults() == old(Faults()) ==> expired)
      ensures old(ag.posts) <= ag.posts <= old(ag.posts) + writes && writes == |ag.calls| - |old(ag.calls)|
    {
      ghost var s0 := Here();
      var failed;
      failed, writes := Revert(g);
      if |failed| > 0 { return false, writes; }
      FullyReverted(s0, Here(), g);
      ghost var m := Here();
      var r := Finish(g, Expired);
      SameLists(s0, m, Here(), g);
      SetStatusMoves(s0.t, g.id, Expired, now);
      expired := r == Ok(true);
    }

    /** The timer callback: it may come late, early, twice or for a grant long finished. */
    method Expire(id: GrantId)
      requires Consistent()
      modifies this`log, this`now, this`timers, st, ag
      ensures Consistent() && old(log) <= log && old(now) <= now && closed == old(closed)
      ensures WindingFrom(log, |old(log)|)
      ensures st.tables != old(st.tables) ==>
                && IsActive(old(st.tables), id) && old(st.tables).grants[id].endsAt <= now
                && st.tables == SetStatus(old(st.tables), id, Expired, WholeSeconds(now))
                && StatusMoved(old(st.tables), st.tables, id, Expired, now)
                && id !in timers
                && RevertedAll(old(Here()), Here(), old(st.tables).grants[id])
      ensures ag.net != old(ag.net) || ag.posts > old(ag.posts) ==>
                && IsActive(old(st.tables), id) && old(st.tables).grants[id].endsAt <= now
                && OnlyReverts(old(Here()), Here(), old(st.tables).grants[id])
      ensures forall i | i != id :: i in timers <==> i in old(timers)
      ensures old(Faults()) <= Faults()
      ensures Faults() == old(Faults()) && IsActive(old(st.tables), id) ==>
                var end := old(st.tables).grants[id].endsAt;
                && (!closed && now < end ==> id in timers && timers[id] == end)
                && (end <= old(now) ==> !IsActive(st.tables, id))
    {
      StopTimer(id);
      WindingMore(old(log), log, |old(log)|, id);
      var r := st.GetGrant(id);
      if r.Err? { return; }
      if !r.value.status.Active? { return; }
      ghost var s1, log1 := Here(), log;
      var due, expired := Fire(r.value);
      WindingJoin(log1, log, |old(log)|);
      SameReference(old(Here()), s1, Here(), r.value);
    }

    /** The callback of an active grant, its timer entry gone: re-armed when it is early, expired when it is due. */
    method Fire(g: Grant) returns (due: bool, expired: bool)
      requires Consistent() && IsActive(st.tables, g.id) && st.tables.grants[g.id] == g
      modifies this`log, this`now, this`timers, st, ag
      ensures Consistent() && old(log) <= log && old(now) <= now && closed == old(closed) && old(Faults()) <= Faults()
      ensures WindingFrom(log, |old(log)|)
      ensures due || old(now) < g.endsAt
      ensures !due ==>
                Here() == old(Here()).(now := now, timers := timers) && ag.posts == old(ag.posts) &&
                timers == if closed then old(timers) - {g.id} else old(timers)[g.id := Due(g.endsAt, now)]
      ensures due ==>
                g.endsAt <= now && OnlyReverts(old(Here()), Here(), g)
      ensures due ==> timers == if expired then old(timers) - {g.id} else old(timers)
      ensures due ==>
                st.tables == if expired then SetStatus(old(st.tables), g.id, Expired, WholeSeconds(now))
                             else old(st.tables)
      ensures due && Faults() == old(Faults()) ==> expired
      ensures expired ==> due && RevertedAll(old(Here()), Here(), g)
      ensures expired ==> StatusMoved(old(st.tables), st.tables, g.id, Expired, now)
    {
      var t := Clock();
      ghost var log0 := log;
      if t < g.endsAt {
        Arm(g);
        WindingMore(log0, log, |old(log)|, g.id);
        return false, false;
      }
      ghost var s1 := Here();
      var writes;
      expired, writes := ExpireLocked(g);
      WindingMore(log0, log, |old(log)|, g.id);
      SameReference(old(Here()), s1, Here(), g);
      due := true;
    }

    /** ExtendGrant on a grant just read as active; its timer is still the old end's. */
    method StoreEnd(g: Grant, endsAt: int) returns (ext: Result<Grant, StoreError>)
      requires Consistent() && IsActive(st.tables, g.id) && st.tables.grants[g.id] == g
      modifies this`log, st
      ensures RecordedBut(Here(), g.id) && (ext.Err? ==> Consistent()) && old(log) <= log
      ensures GrantEventsFrom(log, |old(log)|)
      ensures ext.Ok? ==>
                && Here() == old(Here()).(t := SetEnds(old(st.tables), g.id, WholeSeconds(endsAt)))
                && ext.value == st.tables.grants[g.id]
      ensures ext.Err? ==> Here() == old(Here()) && ext.error == GrantStore.Unavailable && st.faults > old(st.faults)
    {
      ghost var was := Here();
      ext := st.ExtendGrant(g.id, endsAt);
      if ext.Ok? {
        EndIsEvent(was, g, endsAt);
        GrantMore(log, Extended(g.id, ext.value.endsAt), |log|);
        RecordEnd(g.id, ext.value.endsAt, was);
      }
    }

    /** Pushes an active grant's end by d and re-arms its timer. */
    method Extend(id: GrantId, d: int) returns (r: Result<Grant, EngineError>)
      requires Consistent()
      modifies this`log, this`now, this`timers, st
      ensures Consistent() && old(log) <= log && old(now) <= now && closed == old(closed)
      ensures GrantEventsFrom(log, |old(log)|)
      ensures r.Ok? ==>
                && IsActive(old(st.tables), id)
                && EndMoved(old(st.tables), st.tables, id, old(st.tables).grants[id].endsAt + d)
                && r.value == st.tables.grants[id]
                && Truncates(r.value.endsAt, old(st.tables).grants[id].endsAt + d)
                && (if closed then id !in timers else id in timers && timers[id] == Due(r.value.endsAt, now))
      ensures r.Err? ==> st.tables == old(st.tables) && timers == old(timers)
      ensures r == Err(NotFound) ==> !IsActive(st.tables, id)
      ensures r.Err? && r.error != NotFound ==>
                r.error == StoreFailed(GrantStore.Unavailable) && st.faults > old(st.faults)
      ensures forall i | i != id :: i in timers <==> i in old(timers)
    {
      var got := st.GetGrant(id);
      if got.Err? { return Err(if got.error == GrantNotFound then NotFound else StoreFailed(got.error)); }
      if !got.value.status.Active? { return Err(NotFound); }
      var ext := MoveEnd(got.value, got.value.endsAt + d);
      return if ext.Ok? then Ok(ext.value) else Err(StoreFailed(ext.error));
    }

    /** ExtendGrant on a grant just read as active, and its new timer. */
    method MoveEnd(g: Grant, endsAt: int) returns (ext: Result<Grant, StoreError>)
      requires Consistent() && IsActive(st.tables, g.id) && st.tables.grants[g.id] == g
      modifies this`log, this`now, this`timers, st
      ensures Consistent() && old(log) <= log && old(now) <= now && closed == old(closed)
      ensures GrantEventsFrom(log, |old(log)|)
      ensures ext.Ok? ==>
                && EndMoved(old(st.tables), st.tables, g.id, endsAt)
                && ext.value == st.tables.grants[g.id]
                && timers == if closed then old(timers) - {g.id}
                             else old(timers)[g.id := Due(ext.value.endsAt, now)]
      ensures ext.Err? ==> st.tables == old(st.tables) && timers == old(timers)
      ensures ext.Err? ==> ext.error == GrantStore.Unavailable && st.faults > old(st.faults)
    {
      ext := StoreEnd(g, endsAt);
      if ext.Err? { return; }
      ghost var t, log0 := st.tables, log;
      Arm(ext.value);
      WindingMore(log0, log, |old(log)|, g.id);
      assert st.tables == t;
      SetEndsMoves(old(st.tables), g.id, endsAt);
    }

    /**
     Reverts an active grant now and marks it ended; a client that could not be
     blocked again keeps it active with its timer.
     */
    method End(id: GrantId) returns (err: Option<EngineError>)
      requires Consistent()
      modifies this`log, this`now, this`timers, st, ag
      ensures Consistent() && old(log) <= log && RevertsFrom(log, |old(log)|, id) && old(now) <= now
      ensures err.None? ==>
                && IsActive(old(st.tables), id)
                && Here() == old(Here()).(t := SetStatus(old(st.tables), id, Ended, WholeSeconds(now)),
                                          timers := old(timers) - {id},
                                          ag := ag.net, now := now)
                && StatusMoved(old(st.tables), st.tables, id, Ended, now)
                && OnlyReverts(old(Here()), Here(), old(st.tables).grants[id])
                && RevertedAll(old(Here()), Here(), old(st.tables).grants[id])
      ensures err.Some? ==> st.tables == old(st.tables) && timers == old(timers)
      ensures err == Some(NotFound) ==> !IsActive(st.tables, id) && ag.net == old(ag.net) && ag.posts == old(ag.posts)
      ensures err.Some? && err.value.RevertFailed? ==>
                && IsActive(st.tables, id) && err.value.clients != []
                && RevertResult(old(Here()), Here(), st.tables.grants[id], err.value.clients)
      ensures err.Some? && err.value != NotFound ==> Faults() > old(Faults())
    {
      var got := st.GetGrant(id);
      if got.Err? { return Some(if got.error == GrantNotFound then NotFound else StoreFailed(got.error)); }
      var g := got.value;
      if !g.status.Active? { return Some(NotFound); }
      ghost var s0 := Here();
      var failed, writes := Revert(g);
      if |failed| > 0 { return Some(RevertFailed(failed)); }
      FullyReverted(s0, Here(), g);
      ghost var m := Here();
      var r := Finish(g, Ended);
      SameLists(s0, m, Here(), g);
      SetStatusMoves(s0.t, id, Ended, now);
      match r {
        case Err(e) => return Some(StoreFailed(e));
        case Ok(changed) => return if changed then None else Some(NotFound);
      }
    }

    /** One RemoveBlockedServices call for a live grant, and its record. */
    method Open(g: Grant, name: Name, ids: seq<Service>) returns (err: Option<AdGuardHome.Error>)
      requires Consistent() && IsActive(st.tables, g.id) && st.tables.grants[g.id] == g
      requires HasOwnList(Here(), name) && forall x | x in ids :: Covers(g, name, x)
      modifies this`log, ag
      ensures Consistent() && old(log) <= log && OpensFrom(log, |old(log)|, g.id)
      ensures EditOutcome(old(ag.net), ag.net, name, Remove(ids), err)
      ensures old(ag.faults) <= ag.faults && (ag.faults > old(ag.faults) <==> err.Some?)
      ensures old(ag.posts) <= ag.posts <= old(ag.posts) + 1
      ensures Appended(old(ag.calls), ag.calls, [name])
      ensures Appended(old(ag.failed), ag.failed, if err.Some? then [name] else [])
    {
      ghost var was := Here();
      err := ag.RemoveBlockedServices(name, ids);
      OpenIsEvent(was, ag.net, g, name, ids, err);
      RecordOpen(g, name, ids, was);
    }

    ghost method RecordOpen(g: Grant, name: Name, ids: seq<Service>, was: State)
      requires Recorded(was) && Here() == was.(ag := ag.net)
      requires ag.net != was.ag ==>
                Enabled(was, Opened(name, ids, g.id)) && Apply(was, Opened(name, ids, g.id)) == Here()
      modifies this`log
      ensures Consistent() && old(log) <= log && OpensFrom(log, |old(log)|, g.id)
    {
      if ag.net != was.ag {
        OpenMore(log, Opened(name, ids, g.id), |log|, g.id);
        Record(Opened(name, ids, g.id), was);
      }
    }

    /** One round of Unblock's loop; bad0 are the calls of it that failed, and failures those before it. */
    method UnblockNext(g: Grant, i: nat, listed: Net, failed0: seq<Name>, ghost bad0: seq<Name>,
                       ghost failures: seq<Name>, ghost s0: State)
      returns (failed: seq<Name>, ghost bad: seq<Name>)
      requires Consistent() && IsActive(st.tables, g.id) && st.tables.grants[g.id] == g
      requires i < |g.clients| && Ascending(g.clients) && listed == s0.ag
      requires OpenedUpTo(s0, Here(), g, i, failed0, bad0, failures, ag.failed)
      modifies this`log, ag
      ensures Consistent() && old(log) <= log && OpensFrom(log, |old(log)|, g.id)
      ensures Here() == old(Here()).(ag := ag.net)
      ensures OpenedUpTo(s0, Here(), g, i + 1, failed, bad, failures, ag.failed)
      ensures old(ag.faults) <= ag.faults && (ag.faults == old(ag.faults) ==> bad == bad0)
    {
      var name, more := g.clients[i], [];
      ghost var worse := [];
      if name !in listed.clients || listed.clients[name].useGlobal {
        NotOpened(s0, Here(), g, i, failed0);
        more := [name];
      } else {
        more := UnblockClient(g, i, failed0, s0);
        worse := more;
      }
      OpenedOneMore(s0, Here(), g, i, failed0, bad0, more, worse, failures, old(ag.failed), ag.failed);
      failed, bad := failed0 + more, bad0 + worse;
    }

    /** Unblock's call for one client with its own list. */
    method UnblockClient(g: Grant, i: nat, ghost failed: seq<Name>, ghost s0: State) returns (more: seq<Name>)
      requires Consistent() && IsActive(st.tables, g.id) && st.tables.grants[g.id] == g
      requires i < |g.clients| && Ascending(g.clients) && HasOwnList(s0, g.clients[i])
      requires PartlyOpened(s0, Here(), g, i, failed)
      modifies this`log, ag
      ensures Consistent() && old(log) <= log && OpensFrom(log, |old(log)|, g.id)
      ensures Here() == old(Here()).(ag := ag.net)
      ensures PartlyOpened(s0, Here(), g, i + 1, failed + more)
      ensures old(ag.faults) <= ag.faults && (ag.faults == old(ag.faults) ==> more == [])
      ensures Appended(old(ag.failed), ag.failed, more)
    {
      var name := g.clients[i];
      ghost var before := Here();
      StillOwnList(s0, before, name);
      var err := Open(g, name, g.services);
      more := if err.Some? then [name] else [];
      OpenCall(s0, before, Here(), g, i, failed, err, more);
    }

    /**
     Takes g's services out of each stored client's own list; a client unknown,
     inheriting or unreachable is reported.
     */
    method Unblock(g: Grant) returns (failed: seq<Name>, ghost bad: seq<Name>)
      requires Consistent() && IsActive(st.tables, g.id) && st.tables.grants[g.id] == g
      modifies this`log, ag
      ensures Consistent() && old(log) <= log && OpensFrom(log, |old(log)|, g.id)
      ensures Here() == old(Here()).(ag := ag.net)
      ensures OpenResult(old(Here()), Here(), g, failed)
      ensures old(ag.faults) <= ag.faults && (ag.faults == old(ag.faults) ==> bad == [])
      ensures Appended(old(ag.failed), ag.failed, bad)
      ensures || Excused(old(Here()), failed, bad)
              || (failed == g.clients && Here() == old(Here()) && ag.faults > old(ag.faults))
    {
      var res := ag.Clients();
      if res.Err? { return g.clients, []; }
      failed, bad := UnblockAll(g, res.value);
    }

    /** Unblock's loop over the stored clients. */
    method UnblockAll(g: Grant, listed: Net) returns (failed: seq<Name>, ghost bad: seq<Name>)
      requires Consistent() && IsActive(st.tables, g.id) && st.tables.grants[g.id] == g
      requires Ascending(g.clients) && listed == ag.net
      modifies this`log, ag
      ensures Consistent() && old(log) <= log && OpensFrom(log, |old(log)|, g.id)
      ensures Here() == old(Here()).(ag := ag.net)
      ensures OpenResult(old(Here()), Here(), g, failed)
      ensures old(ag.faults) <= ag.faults && (ag.faults == old(ag.faults) ==> bad == [])
      ensures Excused(old(Here()), failed, bad) && Appended(old(ag.failed), ag.failed, bad)
    {
      ghost var s0 := Here();
      failed, bad := [], [];
      OpenedNone(s0, g, ag.failed);
      for i := 0 to |g.clients|
        invariant Consistent() && old(log) <= log && OpensFrom(log, |old(log)|, g.id)
        invariant Here() == s0.(ag := ag.net)
        invariant OpenedUpTo(s0, Here(), g, i, failed, bad, old(ag.failed), ag.failed)
        invariant old(ag.faults) <= ag.faults && (ag.faults == old(ag.faults) ==> bad == [])
      {
        failed, bad := UnblockNext(g, i, listed, failed, bad, old(ag.failed), s0);
      }
      AllOpened(s0, Here(), g, failed);
    }

    /** Stores an active grant for d from now; the caller opens it and arms its timer. */
    method StoreGrant(child: ChildId, services: seq<Service>, clients: seq<Name>, d: int)
      returns (r: Result<Grant, StoreError>, at: int)
      requires Consistent()
      modifies this`log, this`now, st
      ensures Consistent() && old(log) <= log && old(now) <= at == now && GrantEventsFrom(log, |old(log)|)
      ensures old(st.faults) <= st.faults && (r == Err(GrantStore.Unavailable) <==> st.faults > old(st.faults))
      ensures r.Err? ==> Here() == old(Here()).(now := now)
      ensures r.Err? && r.error != GrantStore.Unavailable ==>
                r.error.GrantOverlap? && r.error.service in services &&
                Taken(st.tables, child, r.error.existing, r.error.service) &&
                ActiveFor(st.tables, child, r.error.existing, r.error.service)
      ensures r.Ok? ==>
                && r.value == NewGrant(old(st.tables), child, services, clients, at, at + d)
                && (forall id, x | x in services :: !ActiveFor(old(st.tables), child, id, x))
                && (forall id, x | x in r.value.services :: !Taken(old(st.tables), child, id, x))
                && Here() == old(Here()).(t := InsertGrant(old(st.tables), r.value), now := now)
    {
      at := Clock();
      GrantMore(old(log), Tick(at), |old(log)|);
      ghost var was := Here();
      r := st.CreateGrant(child, services, clients, at, at + d);
      if r.Ok? {
        GrantMore(log, Stored(r.value), |old(log)|);
        Record(Stored(r.value), was);
      }
    }

    method Create(child: ChildId, services: seq<Service>, clients: seq<Name>, d: int)
      returns (r: Result<CreateResult, StoreError>, ghost at: int)
      requires Consistent()
      modifies this`log, this`now, this`timers, st, ag
      ensures Consistent() && old(log) <= log && old(now) <= at <= now && closed == old(closed)
      ensures GrantEventsFrom(log, |old(log)|)
      ensures r.Err? ==> Here() == old(Here()).(now := now) && ag.posts == old(ag.posts)
      ensures r == Err(GrantStore.Unavailable) <==> st.faults > old(st.faults)
      ensures r.Err? && r.error != GrantStore.Unavailable ==>
                r.error.GrantOverlap? && r.error.service in services &&
                Taken(st.tables, child, r.error.existing, r.error.service) &&
                ActiveFor(st.tables, child, r.error.existing, r.error.service)
      ensures r.Ok? ==>
                && AsAsked(r.value.grant, child, services, clients, at, at + d)
                && Inserted(old(st.tables), st.tables, r.value.grant)
                && (forall id, x | x in services :: !ActiveFor(old(st.tables), child, id, x))
      ensures r.Ok? ==>
                var g := r.value.grant;
                && OpenResult(old(Here()), Here(), g, r.value.failed)
                && (r.value.applied <==> r.value.failed == [])
                && timers == (if closed then old(timers) - {g.id} else old(timers)[g.id := Due(g.endsAt, now)])
                && (Faults() == old(Faults()) ==> Excused(old(Here()), r.value.failed, []))
                && old(ag.failed) <= ag.failed
                && (|| Excused(old(Here()), r.value.failed, ag.failed[|old(ag.failed)|..])
                    || (r.value.failed == g.clients && ag.net == old(ag.net) && ag.faults > old(ag.faults)))
      ensures old(Faults()) <= Faults()
    {
      var made, start := StoreGrant(child, services, clients, d);
      at := start;
      if made.Err? { return Err(made.error), at; }
      ghost var m := Here();
      var failed;
      ghost var bad;
      failed, bad := Launch(made.value, |old(log)|);
      assert ag.failed[|old(ag.failed)|..] == bad;
      OpenFrom(old(Here()), m, Here(), Here(), made.value, failed);
      InsertGrantInserts(old(st.tables), child, services, clients, at, at + d);
      return Ok(CreateResult(made.value, |failed| == 0, failed)), at;
    }

    /** Opens a grant just stored and arms its timer; n is where the caller's records begin. */
    method Launch(g: Grant, ghost n: nat) returns (failed: seq<Name>, ghost bad: seq<Name>)
      requires Consistent() && IsActive(st.tables, g.id) && st.tables.grants[g.id] == g
      requires GrantEventsFrom(log, n)
      modifies this`log, this`now, this`timers, ag
      ensures Consistent() && old(log) <= log && old(now) <= now && GrantEventsFrom(log, n)
      ensures OpenResult(old(Here()), Here(), g, failed)
      ensures timers == if closed then old(timers) - {g.id} else old(timers)[g.id := Due(g.endsAt, now)]
      ensures old(ag.faults) <= ag.faults && (ag.faults == old(ag.faults) ==> bad == [])
      ensures Appended(old(ag.failed), ag.failed, bad)
      ensures || Excused(old(Here()), failed, bad)
              || (failed == g.clients && ag.net == old(ag.net) && ag.faults > old(ag.faults))
    {
      ghost var s, log0 := Here(), log;
      failed, bad := Unblock(g);
      WindingMore(log0, log, n, g.id);
      ghost var m, log1 := Here(), log;
      Arm(g);
      WindingMore(log1, log, n, g.id);
      OpenFrom(s, s, m, Here(), g, failed);
    }

    /** One client of a drift repair: whatever of g's services the snapshot shows in its own list is removed again. */
    method RepairClient(g: Grant, i: nat, snapshot: Net, ghost s0: State, ghost m: State, ghost clean: bool)
      returns (repaired: nat, writes: nat)
      requires Consistent() && IsActive(st.tables, g.id) && st.tables.grants[g.id] == g
      requires i < |g.clients| && Ascending(g.clients) && snapshot == s0.ag
      requires OnlyLists(s0, m) && m.t == st.tables && NotGrown(s0, m, g)
      requires Shrunk(m, Here(), g) && (clean ==> CleanUpTo(s0, Here(), g, i))
      modifies this`log, ag
      ensures Consistent() && old(log) <= log && OpensFrom(log, |old(log)|, g.id)
      ensures Here() == old(Here()).(ag := ag.net)
      ensures Shrunk(m, Here(), g)
      ensures old(ag.faults) <= ag.faults && (clean && ag.faults == old(ag.faults) ==> CleanUpTo(s0, Here(), g, i + 1))
      ensures old(ag.posts) <= ag.posts <= old(ag.posts) + writes
      ensures Appended(old(ag.calls), ag.calls, if g.clients[i] in Drifted(snapshot, g) then [g.clients[i]] else [])
      ensures writes == (if g.clients[i] in Drifted(snapshot, g) then 1 else 0) && repaired <= writes
      ensures ag.faults == old(ag.faults) ==> repaired == writes
      ensures writes == 0 ==> Here() == old(Here())
    {
      var name := g.clients[i];
      var drifted := DriftOn(g, name, snapshot, s0);
      if |drifted| == 0 {
        NoDrift(s0, m, Here(), g, i, clean);
        return 0, 0;
      }
      StillOwnList(s0, m, name);
      StillOwnList(m, Here(), name);
      var ok := RepairDrifted(g, i, drifted, s0, m, clean);
      return if ok then 1 else 0, 1;
    }

    /** The Remove call for what of g's services drifted back into client i's own list. */
    method RepairDrifted(g: Grant, i: nat, drifted: seq<Service>, ghost s0: State, ghost m: State, ghost clean: bool)
      returns (ok: bool)
      requires Consistent() && IsActive(st.tables, g.id) && st.tables.grants[g.id] == g
      requires i < |g.clients| && Ascending(g.clients) && NotGrown(s0, m, g) && HasOwnList(Here(), g.clients[i])
      requires FoundOn(s0, g, g.clients[i], drifted)
      requires Shrunk(m, Here(), g) && (clean ==> CleanUpTo(s0, Here(), g, i))
      modifies this`log, ag
      ensures Consistent() && old(log) <= log && OpensFrom(log, |old(log)|, g.id)
      ensures Here() == old(Here()).(ag := ag.net)
      ensures Shrunk(m, Here(), g)
      ensures old(ag.faults) <= ag.faults && (ok <==> ag.faults == old(ag.faults))
      ensures clean && ok ==> CleanUpTo(s0, Here(), g, i + 1)
      ensures old(ag.posts) <= ag.posts <= old(ag.posts) + 1 && Appended(old(ag.calls), ag.calls, [g.clients[i]])
    {
      ghost var before := Here();
      assert forall x | x in drifted :: Covers(g, g.clients[i], x);
      var err := Open(g, g.clients[i], drifted);
      RepairCall(s0, m, before, Here(), g, i, drifted, err, clean);
      return err.None?;
    }

    /** One round of Repair's loop; calls0 are the calls before it and m the state. */
    method RepairStep(g: Grant, i: nat, snapshot: Net, repaired0: nat, writes0: nat,
                      ghost s0: State, ghost m: State, ghost calls0: seq<Name>, ghost clean: bool)
      returns (repaired: nat, writes: nat)
      requires Consistent() && IsActive(st.tables, g.id) && st.tables.grants[g.id] == g
      requires i < |g.clients| && Ascending(g.clients) && snapshot == s0.ag
      requires OnlyLists(s0, m) && m.t == st.tables && NotGrown(s0, m, g)
      requires RepairAt(s0, m, Here(), g, i, calls0, ag.calls, repaired0, writes0, clean)
      modifies this`log, ag
      ensures Consistent() && old(log) <= log && OpensFrom(log, |old(log)|, g.id)
      ensures Here() == old(Here()).(ag := ag.net) && old(ag.faults) <= ag.faults
      ensures writes0 <= writes && old(ag.posts) <= ag.posts <= old(ag.posts) + writes - writes0
      ensures RepairAt(s0, m, Here(), g, i + 1, calls0, ag.calls, repaired, writes,
                       clean && ag.faults == old(ag.faults))
    {
      ghost var b := Here();
      var r, w := RepairClient(g, i, snapshot, s0, m, clean);
      RepairNext(s0, m, b, Here(), g, i, calls0, old(ag.calls), ag.calls,
                 repaired0, writes0, clean, r, w, clean && ag.faults == old(ag.faults));
      repaired, writes := repaired0 + r, writes0 + w;
    }

    /** Drift repair of one live grant, against the snapshot the pass began with. */
    method Repair(g: Grant, snapshot: Net, ghost s0: State) returns (repaired: nat, writes: nat)
      requires Consistent() && IsActive(st.tables, g.id) && st.tables.grants[g.id] == g
      requires snapshot == s0.ag && OnlyLists(s0, Here()) && NotGrown(s0, Here(), g)
      modifies this`log, ag
      ensures Consistent() && old(log) <= log && OpensFrom(log, |old(log)|, g.id)
      ensures Here() == old(Here()).(ag := ag.net)
      ensures Shrunk(old(Here()), Here(), g)
      ensures old(ag.faults) <= ag.faults && (ag.faults == old(ag.faults) ==> DriftFree(Here(), g))
      ensures old(ag.posts) <= ag.posts <= old(ag.posts) + writes
      ensures Appended(old(ag.calls), ag.calls, Keep(g.clients, Drifted(snapshot, g)))
      ensures writes == |Keep(g.clients, Drifted(snapshot, g))| && repaired <= writes
      ensures ag.faults == old(ag.faults) ==> repaired == writes
      ensures DriftFree(s0, g) ==> writes == 0 && Here() == old(Here())
    {
      ghost var m := Here();
      repaired, writes := 0, 0;
      for i := 0 to |g.clients|
        invariant Consistent() && old(log) <= log && OpensFrom(log, |old(log)|, g.id)
        invariant Here() == m.(ag := ag.net) && old(ag.faults) <= ag.faults
        invariant old(ag.posts) <= ag.posts <= old(ag.posts) + writes
        invariant RepairAt(s0, m, Here(), g, i, old(ag.calls), ag.calls, repaired, writes, ag.faults == old(ag.faults))
      {
        repaired, writes := RepairStep(g, i, snapshot, repaired, writes,
                                       s0, m, old(ag.calls), ag.faults == old(ag.faults));
      }
      RepairEnds(s0, m, Here(), g, old(ag.calls), ag.calls, repaired, writes, ag.faults == old(ag.faults));
    }

    /** The pass at an overdue grant. */
    method PassOverdue(gs: seq<Grant>, i: nat, ghost s0: State, ghost at: int, ghost done: bool)
      returns (expired: bool, writes: nat)
      requires Consistent() && i < |gs| && gs[i].endsAt <= at
      requires Timeline.Valid(s0) && ListsActive(s0.t, gs) && PassAt(s0, Here(), at, gs, i)
      requires done ==> DoneTo(Here(), at, gs, i)
      modifies this`log, this`now, this`timers, st, ag
      ensures Consistent() && old(log) <= log && WindingFrom(log, |old(log)|)
      ensures PassAt(s0, Here(), at, gs, i + 1)
      ensures old(Faults()) <= Faults() && (done && Faults() == old(Faults()) ==> DoneTo(Here(), at, gs, i + 1))
      ensures old(ag.posts) <= ag.posts <= old(ag.posts) + writes && writes == |ag.calls| - |old(ag.calls)|
      ensures IsActive(old(st.tables), gs[i].id)
      ensures forall id :: IsActive(st.tables, id) <==> IsActive(old(st.tables), id) && !(expired && id == gs[i].id)
    {
      ghost var m := Here();
      expired, writes := ExpireLocked(gs[i]);
      WindingMore(old(log), log, |old(log)|, gs[i].id);
      PassExpired(s0, m, Here(), at, gs, i, expired, done);
    }

    /** The pass at a live grant: drift is repaired, and a missing timer armed. */
    method PassLive(gs: seq<Grant>, i: nat, snapshot: Net, ghost s0: State, ghost at: int, ghost done: bool)
      returns (repaired: nat, writes: nat)
      requires Consistent() && i < |gs| && at < gs[i].endsAt && snapshot == s0.ag
      requires Timeline.Valid(s0) && ListsActive(s0.t, gs) && PassAt(s0, Here(), at, gs, i)
      requires done ==> DoneTo(Here(), at, gs, i)
      modifies this`log, this`now, this`timers, ag
      ensures Consistent() && old(log) <= log && WindingFrom(log, |old(log)|)
      ensures PassAt(s0, Here(), at, gs, i + 1)
      ensures old(Faults()) <= Faults() && (done && Faults() == old(Faults()) ==> DoneTo(Here(), at, gs, i + 1))
      ensures old(ag.posts) <= ag.posts <= old(ag.posts) + writes && writes == |ag.calls| - |old(ag.calls)|
      ensures repaired <= DriftOf(snapshot, gs[i], at)
      ensures (Faults() == old(Faults()) ==> repaired == DriftOf(snapshot, gs[i], at))
      ensures DriftFree(s0, gs[i]) && (closed || gs[i].id in old(timers)) ==> writes == 0 && Here() == old(Here())
    {
      ghost var m := Here();
      ghost var m2;
      repaired, writes, m2 := RepairAndArm(gs[i], snapshot, s0);
      PassRepaired(s0, m, m2, Here(), at, gs, i, done, done && Faults() == old(Faults()));
    }

    /** Drift repair of a live grant and its timer; m2 is the state in between. */
    method RepairAndArm(g: Grant, snapshot: Net, ghost s0: State) returns (repaired: nat, writes: nat, ghost m2: State)
      requires Consistent() && IsActive(st.tables, g.id) && st.tables.grants[g.id] == g
      requires snapshot == s0.ag && OnlyLists(s0, Here()) && NotGrown(s0, Here(), g)
      modifies this`log, this`now, this`timers, ag
      ensures Consistent() && old(log) <= log && WindingFrom(log, |old(log)|)
      ensures m2 == old(Here()).(ag := m2.ag) && Shrunk(old(Here()), m2, g)
      ensures Here() == m2.(timers := timers, now := now) && m2.now <= now
      ensures (forall id | id in m2.timers :: id in timers) && (closed || g.id in timers)
      ensures old(ag.faults) <= ag.faults && (ag.faults == old(ag.faults) ==> DriftFree(m2, g))
      ensures old(ag.posts) <= ag.posts <= old(ag.posts) + writes && writes == |ag.calls| - |old(ag.calls)|
      ensures writes == |Keep(g.clients, Drifted(snapshot, g))| && repaired <= writes
      ensures ag.faults == old(ag.faults) ==> repaired == writes
      ensures DriftFree(s0, g) && (closed || g.id in old(timers)) ==> writes == 0 && Here() == old(Here())
    {
      repaired, writes := Repair(g, snapshot, s0);
      WindingMore(old(log), log, |old(log)|, g.id);
      ghost var log2 := log;
      m2 := Here();
      ArmMissing(g);
      WindingMore(log2, log, |old(log)|, g.id);
    }

    /** A live grant without a timer gets one, unless the engine is closed. */
    method ArmMissing(g: Grant)
      requires Consistent() && IsActive(st.tables, g.id) && st.tables.grants[g.id] == g
      modifies this`log, this`now, this`timers
      ensures Consistent() && old(log) <= log && TimersFrom(log, |old(log)|, g.id) && old(now) <= now
      ensures if closed || g.id in old(timers) then Here() == old(Here())
              else timers == old(timers)[g.id := Due(g.endsAt, now)]
    {
      if g.id !in timers {
        Arm(g);
        if closed { assert old(timers) - {g.id} == old(timers); }
      }
    }

    /** One round of the pass's loop; the state before it is the snapshot's when nothing has been written so far. */
    method PassAtGrant(gs: seq<Grant>, i: nat, snapshot: Net, ghost s0: State, at: int, ghost done: bool)
      returns (expired: bool, repaired: nat, writes: nat)
      requires Consistent() && i < |gs| && snapshot == s0.ag
      requires Timeline.Valid(s0) && ListsActive(s0.t, gs) && PassAt(s0, Here(), at, gs, i)
      requires done ==> DoneTo(Here(), at, gs, i)
      modifies this`log, this`now, this`timers, st, ag
      ensures Consistent() && old(log) <= log && WindingFrom(log, |old(log)|)
      ensures PassAt(s0, Here(), at, gs, i + 1)
      ensures old(Faults()) <= Faults() && (done && Faults() == old(Faults()) ==> DoneTo(Here(), at, gs, i + 1))
      ensures old(ag.posts) <= ag.posts <= old(ag.posts) + writes && writes == |ag.calls| - |old(ag.calls)|
      ensures repaired <= DriftOf(snapshot, gs[i], at)
      ensures (Faults() == old(Faults()) ==> repaired == DriftOf(snapshot, gs[i], at))
      ensures Settled(s0, at) && old(Here()) == s0 ==> Here() == s0 && writes == 0
      ensures |Left(s0.t, st.tables)| == |Left(s0.t, old(st.tables))| + if expired then 1 else 0
    {
      ghost var was := st.tables;
      assert Untouched(Here(), gs[i]);
      if gs[i].endsAt <= at {
        repaired := 0;
        expired, writes := PassOverdue(gs, i, s0, at, done);
        LeftMore(s0.t, was, st.tables, gs[i].id, expired);
      } else {
        expired := false;
        repaired, writes := PassLive(gs, i, snapshot, s0, at, done);
        LeftMore(s0.t, was, st.tables, gs[i].id, false);
      }
    }

    /** One grant's turn, and what it adds to the counts; calls is how many writes were called for before it. */
    method VisitOne(gs: seq<Grant>, i: nat, snapshot: Net, at: int, stats0: Stats, ghost s0: State, ghost calls: int,
                    ghost done: bool)
      returns (stats: Stats)
      requires Consistent() && i < |gs| && snapshot == s0.ag
      requires Timeline.Valid(s0) && ListsActive(s0.t, gs) && PassAt(s0, Here(), at, gs, i)
      requires done ==> DoneTo(Here(), at, gs, i)
      requires StatsAt(stats0, snapshot, gs, at, i, |Left(s0.t, st.tables)|, calls, done)
      modifies this`log, this`now, this`timers, st, ag
      ensures Consistent() && old(log) <= log && WindingFrom(log, |old(log)|)
      ensures PassAt(s0, Here(), at, gs, i + 1)
      ensures old(Faults()) <= Faults() && (done && Faults() == old(Faults()) ==> DoneTo(Here(), at, gs, i + 1))
      ensures old(ag.posts) <= ag.posts <= old(ag.posts) + stats.writes - stats0.writes
      ensures Settled(s0, at) && old(Here()) == s0 ==> Here() == s0 && stats.writes == stats0.writes
      ensures StatsAt(stats, snapshot, gs, at, i + 1, |Left(s0.t, st.tables)|, calls + |ag.calls| - |old(ag.calls)|,
                      done && Faults() == old(Faults()))
    {
      ghost var left := |Left(s0.t, st.tables)|;
      var expired, fixed, w := PassAtGrant(gs, i, snapshot, s0, at, done);
      StatsNext(stats0, snapshot, gs, at, i, left, calls, done, fixed, w, expired, done && Faults() == old(Faults()));
      stats := stats0.(writes := stats0.writes + w, repaired := stats0.repaired + fixed);
      if expired { stats := stats.(reverted := stats.reverted + 1); }
    }

    /** The loop of a pass over the active grants gs and AdGuard's lists as both were just read. */
    method Visit(gs: seq<Grant>, snapshot: Net, at: int) returns (stats: Stats)
      requires Consistent() && ListsActive(st.tables, gs) && snapshot == ag.net && at == now
      modifies this`log, this`now, this`timers, st, ag
      ensures Consistent() && old(log) <= log && WindingFrom(log, |old(log)|)
      ensures PassAt(old(Here()), Here(), at, gs, |gs|)
      ensures old(Faults()) <= Faults() && (Faults() == old(Faults()) ==> DoneTo(Here(), at, gs, |gs|))
      ensures old(ag.posts) <= ag.posts <= old(ag.posts) + stats.writes && stats.writes == |ag.calls| - |old(ag.calls)|
      ensures Settled(old(Here()), at) ==> Here() == old(Here()) && stats.writes == 0
      ensures stats.reverted == |Left(old(st.tables), st.tables)|
      ensures stats.grants == |gs| && stats.repaired <= DriftSum(snapshot, gs, at)
      ensures Faults() == old(Faults()) ==> stats.repaired == DriftSum(snapshot, gs, at)
    {
      ghost var s0 := Here();
      stats := Stats(|gs|, 0, 0, 0);
      assert Left(s0.t, st.tables) == {};
      for i := 0 to |gs|
        invariant Consistent() && old(log) <= log && WindingFrom(log, |old(log)|)
        invariant PassAt(s0, Here(), at, gs, i)
        invariant old(Faults()) <= Faults() && (Faults() == old(Faults()) ==> DoneTo(Here(), at, gs, i))
        invariant old(ag.posts) <= ag.posts <= old(ag.posts) + stats.writes
        invariant Settled(s0, at) ==> Here() == s0 && stats.writes == 0
        invariant StatsAt(stats, snapshot, gs, at, i, |Left(s0.t, st.tables)|, |ag.calls| - |old(ag.calls)|,
                          Faults() == old(Faults()))
      {
        ghost var log1 := log;
        stats := VisitOne(gs, i, snapshot, at, stats, s0, |ag.calls| - |old(ag.calls)|, Faults() == old(Faults()));
        WindingJoin(log1, log, |old(log)|);
      }
      assert gs[..|gs|] == gs;
    }

    /** A pass once both reads have succeeded: the clock is read, and the grants visited. */
    method Pass(gs: seq<Grant>, snapshot: Net) returns (stats: Stats, at: int)
      requires Consistent() && ListsActive(st.tables, gs) && snapshot == ag.net
      modifies this`log, this`now, this`timers, st, ag
      ensures Consistent() && old(log) <= log && WindingFrom(log, |old(log)|)
      ensures old(Faults()) <= Faults() && old(now) <= at <= now
      ensures Faults() == old(Faults()) ==> Converged(old(Here()), Here(), at)
      ensures Settled(old(Here()), at) ==>
                ag.posts == old(ag.posts) && stats.writes == 0 && Here() == old(Here()).(now := now)
      ensures old(ag.posts) <= ag.posts <= old(ag.posts) + stats.writes && stats.writes == |ag.calls| - |old(ag.calls)|
      ensures stats.reverted == |Left(old(st.tables), st.tables)|
      ensures Counted(old(st.tables), old(ag.net), at, stats.grants, stats.repaired, Faults() == old(Faults()))
    {
      at := Clock();
      ghost var s0, log0 := Here(), log;
      SettledAnyTime(old(Here()), s0, at);
      WindingTick(log0, at, |old(log)|);
      stats := VisitAll(gs, snapshot, at);
      WindingJoin(log0, log, |old(log)|);
      CountsAre(old(st.tables), snapshot, at, gs, stats.repaired, Faults() == old(Faults()));
      if Faults() == old(Faults()) { ConvergedAnyTime(old(Here()), s0, Here(), at); }
    }

    /** The loop, and what it adds up to when no call failed. */
    method VisitAll(gs: seq<Grant>, snapshot: Net, at: int) returns (stats: Stats)
      requires Consistent() && ListsActive(st.tables, gs) && snapshot == ag.net && at == now
      modifies this`log, this`now, this`timers, st, ag
      ensures Consistent() && old(log) <= log && WindingFrom(log, |old(log)|)
      ensures old(Faults()) <= Faults() && at <= now
      ensures Faults() == old(Faults()) ==> Converged(old(Here()), Here(), at)
      ensures Settled(old(Here()), at) ==> Here() == old(Here()) && stats.writes == 0
      ensures old(ag.posts) <= ag.posts <= old(ag.posts) + stats.writes && stats.writes == |ag.calls| - |old(ag.calls)|
      ensures stats.reverted == |Left(old(st.tables), st.tables)|
      ensures stats.grants == |gs| && stats.repaired <= DriftSum(snapshot, gs, at)
      ensures Faults() == old(Faults()) ==> stats.repaired == DriftSum(snapshot, gs, at)
    {
      ghost var s0, log0 := Here(), log;
      stats := Visit(gs, snapshot, at);
      if Faults() == old(Faults()) {
        PassEnds(first, log0, log, s0, s0, at, gs);
      }
    }

    /**
     One pass: every overdue grant is reverted and marked expired, every live
     one has its drift repaired and its timer armed. at is the pass's clock
     reading.
     */
    method Reconcile() returns (r: Result<Stats, EngineError>, ghost at: int)
      requires Consistent()
      modifies this`log, this`now, this`timers, st, ag
      ensures Consistent() && old(log) <= log && WindingFrom(log, |old(log)|)
      ensures r.Err? ==> Here() == old(Here()) && ag.posts == old(ag.posts) && Faults() > old(Faults())
      ensures old(Faults()) <= Faults() && (r.Ok? ==> old(now) <= at <= now)
      ensures r.Ok? && Faults() == old(Faults()) ==> Converged(old(Here()), Here(), at)
      ensures r.Ok? && Settled(old(Here()), at) ==>
                ag.posts == old(ag.posts) && r.value.writes == 0 && Here() == old(Here()).(now := now)
      ensures r.Ok? ==>
                && old(ag.posts) <= ag.posts <= old(ag.posts) + r.value.writes
                && r.value.writes == |ag.calls| - |old(ag.calls)|
      ensures r.Ok? ==> r.value.reverted == |Left(old(st.tables), st.tables)|
      ensures r.Ok? ==>
                Counted(old(st.tables), old(ag.net), at, r.value.grants, r.value.repaired, Faults() == old(Faults()))
    {
      at := now;
      var listed := st.ListActiveGrants();
      if listed.Err? { return Err(StoreFailed(listed.error)), at; }
      if |listed.value| == 0 {
        NothingActive(Here(), listed.value, at);
        return Ok(Stats(0, 0, 0, 0)), at;
      }
      var res := ag.Clients();
      if res.Err? { return Err(Refused(res.error)), at; }
      var stats, t := Pass(listed.value, res.value);
      return Ok(stats), t;
    }

    /** The baseline, and the active grants read for it. */
    method BaselineFrom(net: Net, child: ChildId, siblings: seq<Name>)
      returns (r: Result<(seq<Service>, seq<Grant>), StoreError>)
      requires Consistent() && net == ag.net
      modifies st`faults
      ensures Here() == old(Here()) && old(st.faults) <= st.faults && (r.Err? <==> st.faults > old(st.faults))
      ensures r.Ok? ==> ListsActive(st.tables, r.value.1)
      ensures r.Ok? ==> IsBaseline(Here(), child, siblings, r.value.0)
    {
      var listed := st.ListActiveGrants();
      if listed.Err? { return Err(listed.error); }
      var base := BaselineOf(net, listed.value, child, siblings, Here());
      return Ok((base, listed.value));
    }

    /** One AdoptBlockedServices call: the baseline less what an active grant covers on the client. */
    method AdoptOne(name: Name, base: seq<Service>, gs: seq<Grant>, ghost read: State, ghost child: ChildId,
                    ghost siblings: seq<Name>)
      returns (err: Option<AdGuardHome.Error>)
      requires Consistent() && name in ag.net.clients && ListsActive(st.tables, gs)
      requires IsBaseline(read, child, siblings, base)
      modifies this`log, ag
      ensures Consistent() && old(log) <= log && |log| <= |old(log)| + 1
      ensures Here() == old(Here()).(ag := ag.net) && ag.net.clients.Keys == old(ag.net).clients.Keys
      ensures |log| > |old(log)| ==>
                AdoptsBaseline(read, old(Here()), Last(log), child, siblings) && Last(log).client == name
      ensures err.None? ==> |log| > |old(log)|
      ensures old(ag.faults) <= ag.faults && (ag.faults > old(ag.faults) <==> err.Some?)
      ensures ag.failed == old(ag.failed) + if err.Some? then [name] else []
    {
      var ids := NotOpen(base, gs, name);
      ghost var was := Here();
      err := ag.AdoptBlockedServices(name, ids);
      AdoptIsEvent(was, ag.net, name, base, ids, gs, err, read, child, siblings);
      if err.None? || ag.net != was.ag {
        Record(Adopted(name, ids), was);
      }
    }

    /** One round of AdoptClients' loop; n is where its records begin and read the state its baseline is from. */
    method AdoptNext(added: seq<Name>, i: nat, net: Net, base: seq<Service>, gs: seq<Grant>,
                     ghost n: nat, ghost read: State, ghost child: ChildId, ghost siblings: seq<Name>)
      returns (ok: bool)
      requires Consistent() && i < |added| && n <= |log|
      requires ListsActive(st.tables, gs) && net.clients.Keys == ag.net.clients.Keys
      requires IsBaseline(read, child, siblings, base)
      requires AdoptionsFrom(first, log, n, read, child, siblings, added) && AdoptedUpTo(log, n, added, net, i)
      modifies this`log, ag
      ensures Consistent() && old(log) <= log && Here() == old(Here()).(ag := ag.net)
      ensures ag.net.clients.Keys == net.clients.Keys
      ensures AdoptionsFrom(first, log, n, read, child, siblings, added)
      ensures ok ==> AdoptedUpTo(log, n, added, net, i + 1)
      ensures old(ag.faults) <= ag.faults && (ok <==> ag.faults == old(ag.faults))
      ensures ag.failed == old(ag.failed) + if ok then [] else [added[i]]
    {
      if added[i] !in net.clients { return true; }
      ghost var log0 := log;
      var e := AdoptOne(added[i], base, gs, read, child, siblings);
      MoreAdoptions(first, log0, log, n, read, child, siblings, added, i);
      return e.None?;
    }

    /** The loop of AdoptClients over the clients being added. */
    method AdoptAll(added: seq<Name>, net: Net, base: seq<Service>, gs: seq<Grant>, ghost child: ChildId,
                    ghost siblings: seq<Name>)
      returns (err: Option<EngineError>)
      requires Consistent() && ListsActive(st.tables, gs) && net == ag.net
      requires IsBaseline(Here(), child, siblings, base)
      modifies this`log, ag
      ensures Consistent() && old(log) <= log && Here() == old(Here()).(ag := ag.net)
      ensures AdoptionsFrom(first, log, |old(log)|, old(Here()), child, siblings, added)
      ensures err.None? ==> AdoptedUpTo(log, |old(log)|, added, net, |added|)
      ensures old(ag.faults) <= ag.faults && (err.Some? <==> ag.faults > old(ag.faults))
      ensures err.Some? ==> err.value.AdoptFailed? && ag.failed == old(ag.failed) + [err.value.client]
      ensures err.None? ==> ag.failed == old(ag.failed)
    {
      ghost var read := Here();
      for i := 0 to |added|
        invariant Consistent() && old(log) <= log && Here() == read.(ag := ag.net)
        invariant ag.net.clients.Keys == net.clients.Keys && ag.faults == old(ag.faults) && ag.failed == old(ag.failed)
        invariant AdoptionsFrom(first, log, |old(log)|, read, child, siblings, added)
        invariant AdoptedUpTo(log, |old(log)|, added, net, i)
      {
        var ok := AdoptNext(added, i, net, base, gs, |old(log)|, read, child, siblings);
        if !ok { return Some(AdoptFailed(added[i])); }
      }
      return None;
    }

    /**
     Gives every client being added the child's baseline on top of what it blocks;
     clients AdGuard does not know are skipped.
     */
    method AdoptClients(child: ChildId, siblings: seq<Name>, added: seq<Name>) returns (err: Option<EngineError>)
      requires Consistent()
      modifies this`log, st`faults, ag
      ensures Consistent() && old(log) <= log && Here() == old(Here()).(ag := ag.net)
      ensures AdoptionsFrom(first, log, |old(log)|, old(Here()), child, siblings, added)
      ensures err.None? ==> AdoptedUpTo(log, |old(log)|, added, old(ag.net), |added|)
      ensures added == [] ==> err.None? && ag.posts == old(ag.posts)
      ensures ag.failed == old(ag.failed) + if err.Some? && err.value.AdoptFailed? then [err.value.client] else []
      ensures old(Faults()) <= Faults() && (err.Some? <==> Faults() > old(Faults()))
    {
      if |added| == 0 { return None; }
      var res := ag.Clients();
      if res.Err? { return Some(Refused(res.error)); }
      var b := BaselineFrom(res.value, child, siblings);
      if b.Err? { return Some(StoreFailed(b.error)); }
      err := AdoptAll(added, res.value, b.value.0, b.value.1, child, siblings);
    }

    /** The list a device joining the child must block; an unknown child is refused before AdGuard is asked. */
    method JoinList(child: ChildId) returns (r: Result<seq<Service>, EngineError>)
      requires Consistent()
      modifies st`faults, ag`faults
      ensures Here() == old(Here()) && ag.net == old(ag.net)
      ensures r.Ok? ==> HasBaseline(Here(), child, r.value)
      ensures old(Faults()) <= Faults()
      ensures r.Err? ==> Faults() > old(Faults()) || forall c | c in st.tables.children :: c.id != child
      ensures (forall c | c in st.tables.children :: c.id != child) ==> r.Err? && ag.faults == old(ag.faults)
    {
      var c := st.GetChild(child);
      if c.Err? { return Err(StoreFailed(c.error)); }
      var res := ag.Clients();
      if res.Err? { return Err(Refused(res.error)); }
      var b := BaselineFrom(res.value, child, c.value.clients);
      if b.Err? { return Err(StoreFailed(b.error)); }
      return Ok(b.value.0);
    }

    /** AddClient and its record. */
    method AddDevice(name: Name, ids: seq<nat>, blocked: Option<seq<Service>>, same: (nat, nat) -> bool,
                     rest: map<string, string>)
      returns (err: Option<AdGuardHome.Error>)
      requires Consistent()
      modifies this`log, ag
      ensures Consistent() && Here() == old(Here()).(ag := ag.net)
      ensures ag.net == old(ag.net) ==> log == old(log) && err.Some?
      ensures ag.net != old(ag.net) ==>
                && name !in old(ag.net).clients
                && log == old(log) + [Created(name, NewDevice(ids, blocked, rest))]
                && ag.net == WithDevice(old(ag.net), name, NewDevice(ids, blocked, rest))
                && DeviceAdded(old(ag.net), ag.net, name, ids, blocked, rest)
      ensures old(ag.faults) <= ag.faults
      ensures err.Some? ==> ag.faults > old(ag.faults) || KeptOut(old(ag.net), name, same, ids, err.value)
    {
      ghost var was := Here();
      err := ag.AddClient(name, ids, blocked, same, rest);
      if err.None? || ag.net != was.ag {
        Record(Created(name, NewDevice(ids, blocked, rest)), was);
      }
    }

    /** AddChildClient and its record. */
    method Assign(child: ChildId, name: Name) returns (err: Option<EngineError>)
      requires Consistent()
      modifies this`log, st
      ensures Consistent() && old(log) <= log && Here() == old(Here()).(t := st.tables)
      ensures err.None? ==> AddedTo(old(st.tables), st.tables, child, name)
      ensures err.None? ==> Joined(old(st.tables), st.tables, child, name)
      ensures err.Some? ==> st.tables == old(st.tables)
      ensures old(st.faults) <= st.faults
      ensures err.Some? ==>
                || st.faults > old(st.faults) || (forall c | c in st.tables.children :: c.id != child)
                || MappedElsewhere(st.tables, child, name, err.value)
    {
      ghost var was := Here();
      var e := st.AddChildClient(child, name);
      if e.Some? { return Some(StoreFailed(e.value)); }
      assert st.tables == was.t.(children := st.tables.children);
      Record(Remapped(st.tables.children), was);
      return None;
    }

    /**
     Creates a persistent client; one assigned to a child gets the child's baseline
     as its own list and joins the child.
     */
    method CreateClient(name: Name, ids: seq<nat>, child: Option<ChildId>, same: (nat, nat) -> bool, rest: map<string,
                        string>)
      returns (err: Option<EngineError>)
      requires Consistent()
      modifies this`log, st, ag
      ensures Consistent() && old(log) <= log && Here() == old(Here()).(t := st.tables, ag := ag.net)
      ensures ag.net != old(ag.net) || err.None? ==>
                && |old(log)| < |log| && log[|old(log)|].Created? && log[|old(log)|].client == name
                && ag.net == WithDevice(old(ag.net), name, log[|old(log)|].dev)
                && (child.None? ==> log[|old(log)|].dev.useGlobal)
                && (child.Some? ==> JoinsChild(old(Here()), log[|old(log)|], child.value))
      ensures ag.net != old(ag.net) || err.None? ==>
                && name in ag.net.clients
                && DeviceAdded(old(ag.net), ag.net, name, ids, ListOf(child, ag.net.clients[name]), rest)
      ensures err.None? && child.Some? ==>
                AddedTo(old(st.tables), st.tables, child.value, name) &&
                Joined(old(st.tables), st.tables, child.value, name)
      ensures err.Some? || child.None? ==> st.tables == old(st.tables)
      ensures old(Faults()) <= Faults()
      ensures err.Some? ==>
                || Faults() > old(Faults())
                || (child.Some? && forall c | c in st.tables.children :: c.id != child.value)
                || (err.value.Refused? && KeptOut(old(ag.net), name, same, ids, err.value.reason))
                || (child.Some? && MappedElsewhere(st.tables, child.value, name, err.value))
      ensures child.Some? && (forall c | c in old(st.tables).children :: c.id != child.value) ==>
                err.Some? && ag.net == old(ag.net) && ag.posts == old(ag.posts)
    {
      var blocked: Option<seq<Service>> := None;
      if child.Some? {
        var b := JoinList(child.value);
        if b.Err? { return Some(b.error); }
        blocked := Some(b.value);
      }
      var added := AddJoiner(name, ids, child, blocked, same, rest);
      if added.Some? { return Some(Refused(added.value)); }
      if child.None? { return None; }
      err := Assign(child.value, name);
    }

    /** AddDevice with the list read for the child the device is to join, if any. */
    method AddJoiner(name: Name, ids: seq<nat>, child: Option<ChildId>, blocked: Option<seq<Service>>, same: (nat,
                     nat) -> bool, rest: map<string, string>)
      returns (err: Option<AdGuardHome.Error>)
      requires Consistent() && (child.Some? <==> blocked.Some?)
      requires child.Some? ==> HasBaseline(Here(), child.value, blocked.value)
      modifies this`log, ag
      ensures Consistent() && old(log) <= log && Here() == old(Here()).(ag := ag.net)
      ensures err.None? ==> ag.net != old(ag.net)
      ensures ag.net != old(ag.net) ==>
                && |old(log)| < |log| && log[|old(log)|].Created? && log[|old(log)|].client == name
                && ag.net == WithDevice(old(ag.net), name, log[|old(log)|].dev)
                && (child.None? ==> log[|old(log)|].dev.useGlobal)
                && (child.Some? ==> JoinsChild(old(Here()), log[|old(log)|], child.value))
      ensures ag.net != old(ag.net) ==>
                && name in ag.net.clients
                && DeviceAdded(old(ag.net), ag.net, name, ids, ListOf(child, ag.net.clients[name]), rest)
      ensures old(ag.faults) <= ag.faults
      ensures err.Some? ==> ag.faults > old(ag.faults) || KeptOut(old(ag.net), name, same, ids, err.value)
    {
      ghost var was := Here();
      err := AddDevice(name, ids, blocked, same, rest);
      if child.Some? && ag.net != was.ag {
        JoinerHasBaseline(was, name, ids, blocked.value, rest, child.value);
      }
    }

    /** checkRename: the first child that maps to but not from refuses the rename before anything is written. */
    method CheckRename(from: Name, to: Name) returns (err: Option<EngineError>)
      requires Consistent()
      modifies st`faults
      ensures Here() == old(Here()) && old(st.faults) <= st.faults
      ensures err.None? ==> st.faults == old(st.faults) && forall c | c in st.tables.children :: !Outsider(c, from, to)
      ensures err.None? ==> forall c | c in st.tables.children && to in c.clients :: from in c.clients
      ensures err.Some? ==> err.value.StoreFailed?
      ensures err.Some? && st.faults == old(st.faults) ==>
                && err.value.error.ClientTaken? && err.value.error.client == to
                && FirstOutsider(st.tables.children, from, to, err.value.error.child)
      ensures err.Some? && err.value.error.ClientTaken? ==> st.faults == old(st.faults)
    {
      var listed := st.ListChildren();
      if listed.Err? { return Some(StoreFailed(listed.error)); }
      var children := listed.value;
      for i := 0 to |children|
        invariant forall j | 0 <= j < i :: !Outsider(children[j], from, to)
      {
        if to in children[i].clients && from !in children[i].clients {
          return Some(StoreFailed(ClientTaken(to, children[i].id)));
        }
      }
      return None;
    }

    /** An AdGuard rename and its record. */
    method RenameDevice(from: Name, to: Name) returns (err: Option<AdGuardHome.Error>)
      requires Consistent() && from != to
      modifies this`log, ag
      ensures Consistent() && old(log) <= log
      ensures err.None? ==> from in old(ag.net).clients && to !in old(ag.net).clients
      ensures log == if err.None? then old(log) + [RenamedOnNet(from, to)] else old(log)
      ensures Here() == if err.None? then old(Here()).(ag := Renamed(old(ag.net), from, to)) else old(Here())
      ensures old(ag.faults) <= ag.faults && (err == Some(AdGuardHome.Unavailable) <==> ag.faults > old(ag.faults))
      ensures err == Some(ClientNotFound) ==> from !in ag.net.clients
      ensures err == Some(ClientExists) ==> to in ag.net.clients
      ensures err.None? || err.value.ClientExists? || err.value.ClientNotFound? || err.value.Unavailable?
    {
      ghost var was := Here();
      err := ag.RenameClient(from, to);
      if err.None? { Record(RenamedOnNet(from, to), was); }
    }

    /** The store's follow-up and its record. */
    method RenameStored(from: Name, to: Name) returns (err: Option<StoreError>)
      requires Consistent() && from != to
      modifies this`log, st
      ensures Consistent() && old(log) <= log
      ensures log == if err.None? then old(log) + [RenamedInStore(from, to)] else old(log)
      ensures Here() == if err.None? then old(Here()).(t := RenameIn(old(st.tables), from, to)) else old(Here())
      ensures old(st.faults) <= st.faults
      ensures (forall c | c in old(st.tables).children :: !Outsider(c, from, to)) ==>
                (err.None? || (err == Some(GrantStore.Unavailable) && st.faults > old(st.faults)))
      ensures err.None? ==> forall c | c in old(st.tables).children :: !Outsider(c, from, to)
    {
      ghost var was := Here();
      err := st.RenameClient(from, to);
      if err.None? {
        Record(RenamedInStore(from, to), was);
      } else if err != Some(GrantStore.Unavailable) {
        OutsiderExists(st.tables.children, from, to, err.value.child);
      }
    }

    /**
     Renames a device in AdGuard and then in the store, undoing the first when
     the second fails: all under the old name or all under the new one, unless
     undoing fails too.
     */
    method RenameClient(from: Name, to: Name) returns (err: Option<EngineError>)
      requires Consistent()
      modifies this`log, st, ag
      ensures Consistent() && old(log) <= log
      ensures log == old(log) + RenameEvents(from, to, err, log != old(log))
      ensures from == to ==> err.None? && Here() == old(Here())
      ensures err.None? && from != to ==>
                && from in old(ag.net).clients && to !in old(ag.net).clients
                && Here() == Moved(old(Here()), from, to)
                && forall c | c in old(st.tables).children :: !Outsider(c, from, to)
      ensures err.None? && from != to ==>
                RenamedWhole(old(Here()), Here(), from, to)
      ensures err.Some? && !err.value.HalfRenamed? ==> Here() == old(Here())
      ensures err.Some? && err.value.HalfRenamed? ==>
                && from in old(ag.net).clients
                && Here() == old(Here()).(ag := Renamed(old(ag.net), from, to))
                && DeviceMoved(old(ag.net), ag.net, from, to)
                && st.faults > old(st.faults) && ag.faults > old(ag.faults)
      ensures err.Some? && err.value.StoreFailed? && err.value.error.ClientTaken? ==>
                ag.posts == old(ag.posts) && FirstOutsider(st.tables.children, from, to, err.value.error.child)
      ensures old(Faults()) <= Faults()
      ensures err.Some? && Faults() == old(Faults()) ==>
                || (err.value.StoreFailed? && err.value.error.ClientTaken? && err.value.error.client == to)
                || (err == Some(Refused(ClientExists)) && to in ag.net.clients)
                || (err == Some(Refused(ClientNotFound)) && from !in ag.net.clients)
    {
      if from == to { return None; }
      var taken := CheckRename(from, to);
      if taken.Some? { return taken; }
      ghost var was := Here();
      var aerr := RenameDevice(from, to);
      if aerr.Some? { return Some(Refused(aerr.value)); }
      ghost var log1 := log;
      err := FollowRename(from, to, was.ag);
      MovedWhole(was, from, to);
      PairUp(old(log), log1, log, from, to, err);
    }

    /** The store's half of a rename AdGuard has done, or the undoing of AdGuard's; net is AdGuard before it. */
    method FollowRename(from: Name, to: Name, ghost net: Net) returns (err: Option<EngineError>)
      requires Consistent() && from != to && from in net.clients && to !in net.clients
      requires ag.net == Renamed(net, from, to)
      requires forall c | c in st.tables.children :: !Outsider(c, from, to)
      modifies this`log, st, ag
      ensures Consistent() && old(log) <= log
      ensures log == old(log) + if err.None? then [RenamedInStore(from, to)]
                                else if err.value.HalfRenamed? then []
                                else [RenamedOnNet(to, from)]
      ensures err.None? ==> Here() == old(Here()).(t := RenameIn(old(st.tables), from, to))
      ensures err.Some? && !err.value.HalfRenamed? ==> err.value.NotRenamed? && Here() == old(Here()).(ag := net)
      ensures err.Some? && err.value.HalfRenamed? ==>
                Here() == old(Here()) && st.faults > old(st.faults) && ag.faults > old(ag.faults)
      ensures old(Faults()) <= Faults() && (err.Some? ==> Faults() > old(Faults()))
    {
      var serr := RenameStored(from, to);
      if serr.None? { return None; }
      var undone := UndoRename(from, to, net);
      return Some(if undone then NotRenamed(serr.value) else HalfRenamed(serr.value));
    }

    /** AdGuard's rename back, which only an unanswered request can prevent. */
    method UndoRename(from: Name, to: Name, ghost net: Net) returns (undone: bool)
      requires Consistent() && from != to && from in net.clients && to !in net.clients
      requires ag.net == Renamed(net, from, to)
      modifies this`log, ag
      ensures Consistent() && old(log) <= log
      ensures log == if undone then old(log) + [RenamedOnNet(to, from)] else old(log)
      ensures Here() == if undone then old(Here()).(ag := net) else old(Here())
      ensures old(ag.faults) <= ag.faults && (undone <==> ag.faults == old(ag.faults))
    {
      RenameBack(net, from, to);
      var back := RenameDevice(to, from);
      undone := back.None?;
    }

    // ----- what others do between the engine's critical sections -----

    /** A child edit through the API. */
    method EditChildren(children: seq<Child>)
      requires Consistent() && ChildrenOk(st.tables.(children := children))
      modifies this`log, st`tables
      ensures Consistent() && log == old(log) + [Remapped(children)]
      ensures Here() == old(Here()).(t := old(st.tables).(children := children))
    {
      ghost var was := Here();
      st.tables := st.tables.(children := children);
      Record(Remapped(children), was);
    }

    /** A parent edits a client in AdGuard itself. */
    method EditInAdGuard(name: Name, dev: Device)
      requires Consistent() && name in ag.net.clients
      modifies this`log, ag`net
      ensures Consistent() && log == old(log) + [Edited(name, dev)]
      ensures Here() == old(Here()).(ag := WithDevice(old(ag.net), name, dev))
    {
      ghost var was := Here();
      ag.net := WithDevice(ag.net, name, dev);
      Record(Edited(name, dev), was);
    }

    /** Or removes one. */
    method RemoveInAdGuard(name: Name)
      requires Consistent() && name in ag.net.clients
      modifies this`log, ag`net
      ensures Consistent() && log == old(log) + [Removed(name)]
      ensures Here() == old(Here()).(ag := old(ag.net).(clients := old(ag.net).clients - {name}))
    {
      ghost var was := Here();
      ag.net := ag.net.(clients := ag.net.clients - {name});
      Record(Removed(name), was);
    }

    /** Stops every timer; nothing is armed afterwards. */
    method Close()
      requires Consistent()
      modifies this`log, this`timers, this`closed
      ensures Consistent() && old(log) <= log
      ensures closed && timers == map[]
      ensures Here() == old(Here()).(closed := true, timers := map[])
    {
      ghost var was := Here();
      closed := true;
      timers := map[];
      Record(Stopped, was);
    }
  }

  // ----- what holds over any stretch of an engine's life -----

  /** The state the engine was in when its log had n entries. */
  ghost function Was(e: Engine, n: nat): State
    requires Run(e.first, e.log) && n <= |e.log|
    reads e
  {
    RunSplit(e.first, e.log, n);
    Replay(e.first, e.log[..n])
  }

  lemma Stretch(e: Engine, n: nat) returns (es: seq<Event>)
    requires e.Consistent() && n <= |e.log|
    ensures es == e.log[n..] && Timeline.Valid(Was(e, n)) && Run(Was(e, n), es) && Replay(Was(e, n), es) == e.Here()
  {
    es := e.log[n..];
    RunSplit(e.first, e.log, n);
    ReachableValid(e.first, e.log[..n]);
  }

  /**
   Conservation, of the engine itself: whatever it and others did since,
   restarts included and whichever calls failed, so long as c itself was
   touched by no more than its grants.
   */
  lemma EngineConserves(e: Engine, n: nat, c: Name, x: Service)
    requires e.Consistent() && n <= |e.log| && c in Was(e, n).ag.clients
    requires forall i | n <= i < |e.log| :: ByGrants(e.log[i], c)
    ensures Conserved(Was(e, n), e.Here(), c, x)
  {
    var es := Stretch(e, n);
    forall v | v in es ensures ByGrants(v, c) {
      var i :| 0 <= i < |es| && es[i] == v;
      assert v == e.log[n + i];
    }
    Conservation(Was(e, n), es, c, x);
  }

  /** The same of a device renamed any number of times since. */
  lemma EngineConservesAlong(e: Engine, n: nat, c: Name, x: Service)
    requires e.Consistent() && n <= |e.log| && c in Was(e, n).ag.clients
    ensures Run(Was(e, n), e.log[n..]) &&
            KeptAlong(Was(e, n), e.Here(), TrailOf(e.log[n..], c), c, x, FinishedAlong(Was(e, n), e.log[n..], c, x))
  {
    var es := Stretch(e, n);
    ConservationAlong(Was(e, n), es, c, x);
  }

  /** What it costs when a rename is left half done, from the entry on that records it. */
  lemma EngineHalfRenamed(e: Engine, n: nat, from: Name, to: Name, x: Service)
    requires e.Consistent() && n < |e.log| && e.log[n] == RenamedOnNet(from, to)
    requires forall i | n < i < |e.log| :: ByGrants(e.log[i], to)
    requires Idle(e.Here(), to, x)
    ensures Own(e.Here(), to, x) <==> Own(Was(e, n), from, x) || GrantedSince(Was(e, n + 1), e.Here(), to, x)
  {
    OneEntry(e, n);
    var before := Stretch(e, n);
    var es := Stretch(e, n + 1);
    forall v | v in es ensures ByGrants(v, to) {
      var i :| 0 <= i < |es| && es[i] == v;
      assert v == e.log[n + 1 + i];
    }
    HalfRenameCost(Was(e, n), from, to, es, x);
  }

  /** A rename keeps track of every device but the one it leaves half renamed. */
  lemma RenameKeepsTrack(es: seq<Event>, c: Name, from: Name, to: Name, err: Option<EngineError>, begun: bool)
    requires TrailOf(es, c).Known? && from != to && TrailOf(es, c) != Known(to)
    ensures err.None? && begun ==>
              TrailOf(es + RenameEvents(from, to, err, begun), c) ==
                if TrailOf(es, c) == Known(from) then Known(to) else TrailOf(es, c)
    ensures err.Some? && !err.value.HalfRenamed? ==>
              TrailOf(es + RenameEvents(from, to, err, begun), c) == TrailOf(es, c)
  {
    var more := RenameEvents(from, to, err, begun);
    RenamePair(TrailOf(es, c), from, to);
    if |more| == 2 {
      assert es + more == es + [more[0]] + [more[1]];
      TrailPair(es, more[0], more[1], c);
    } else if more == [] {
      assert es + more == es;
    }
  }

  /**
   Reference counting, of the engine itself: whatever happens to other devices,
   ending, expiry and passes never take back what another active grant still
   covers.
   */
  lemma EngineRefCounts(e: Engine, n: nat, c: Name, x: Service)
    requires e.Consistent() && n <= |e.log| && forall i | n <= i < |e.log| :: OldGrants(e.log[i], c, x)
    requires Own(e.Here(), c, x) && !Own(Was(e, n), c, x)
    ensures exists g :: PutBackBy(Was(e, n), e.Here(), c, x, g)
  {
    var es := Stretch(e, n);
    forall v | v in es ensures OldGrants(v, c, x) {
      var i :| 0 <= i < |es| && es[i] == v;
      assert v == e.log[n + i];
    }
    RefCounted(Was(e, n), es, c, x);
  }

  /**
   However late, early or often callbacks fire: no grant is expired before its
   ends_at, and none leaves active twice.
   */
  lemma EngineNeverEarly(e: Engine, n: nat, id: GrantId)
    requires e.Consistent() && n <= |e.log|
    ensures Frozen(Was(e, n), e.Here())
    ensures FinishedSince(Was(e, n), e.Here(), id) ==> RanOut(e.Here(), id)
  {
    var es := Stretch(e, n);
    NeverTwice(Was(e, n), es);
    if FinishedSince(Was(e, n), e.Here(), id) { NeverEarly(Was(e, n), es, id); }
  }

  lemma OneEntry(e: Engine, k: nat)
    requires e.Consistent() && k < |e.log|
    ensures Enabled(Was(e, k), e.log[k]) && Was(e, k + 1) == Apply(Was(e, k), e.log[k])
  {
    RunSplit(e.first, e.log, k + 1);
    assert Front(e.log[..k + 1]) == e.log[..k] && Last(e.log[..k + 1]) == e.log[k];
  }

  /**
   A device AdoptClients gave a baseline blocks it, and all it blocked before,
   once nothing active covers it any more.
   */
  lemma EngineAdopted(e: Engine, k: nat, read: State, child: ChildId, siblings: seq<Name>, x: Service)
    requires e.Consistent() && k < |e.log| && AdoptsBaseline(read, Was(e, k), e.log[k], child, siblings)
    requires forall i | k < i < |e.log| :: ByGrants(e.log[i], e.log[k].client)
    requires Idle(e.Here(), e.log[k].client, x)
    ensures Blocks(Was(e, k), e.log[k].client, x) || InBaseline(read, child, siblings, x) ==>
              Blocks(e.Here(), e.log[k].client, x)
  {
    OneEntry(e, k);
    var before := Stretch(e, k);
    var es := Stretch(e, k + 1);
    forall v | v in es ensures ByGrants(v, e.log[k].client) {
      var i :| 0 <= i < |es| && es[i] == v;
      assert v == e.log[k + 1 + i];
    }
    AdoptedBlocksBaseline(read, Was(e, k), e.log[k], child, siblings, es, x);
  }

  /**
   A device CreateClient assigned to a child blocks what its siblings do, once
   the grants active then have finished, whatever happens to other devices.
   */
  lemma EngineJoined(e: Engine, k: nat, child: ChildId, siblings: seq<Name>, sib: Name, x: Service)
    requires e.Consistent() && k < |e.log| && CreatesWithBaseline(Was(e, k), e.log[k], child, siblings)
    requires KnownSibling(Was(e, k), siblings, sib)
    requires forall i | k < i < |e.log| :: ByGrants(e.log[i], e.log[k].client) && OldGrants(e.log[i], sib, x)
    requires Idle(e.Here(), e.log[k].client, x) && Idle(e.Here(), sib, x)
    ensures Blocks(e.Here(), sib, x) ==> Blocks(e.Here(), e.log[k].client, x)
  {
    OneEntry(e, k);
    var before := Stretch(e, k);
    var es := Stretch(e, k + 1);
    forall v | v in es ensures ByGrants(v, e.log[k].client) && OldGrants(v, sib, x) {
      var i :| 0 <= i < |es| && es[i] == v;
      assert v == e.log[k + 1 + i];
    }
    if Blocks(e.Here(), sib, x) {
      JoinerBlocksSiblings(Was(e, k), e.log[k], child, siblings, es, sib, x);
    }
  }
}
