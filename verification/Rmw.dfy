/**
 The mutex around every per-client write, step by step: any number of
 writers lock, read, write back and unlock in any interleaving, and any call
 may fail.
 */
module ReadModifyWrite {
  import opened Wrappers
  import opened Lists
  import opened AdGuardHome

  type WriterId = nat

  /** What the writer's caller is told. */
  datatype Result = Done | NotFound | Failed

  /** ticket is the turn the writer got when it took the lock. */
  datatype Phase =
    | Waiting
    | Locked(ticket: nat)
    | HasRead(ticket: nat, snapshot: Net)
    | Over(ticket: nat, result: Result)
    | Finished(ticket: nat, result: Result)

  datatype Writer = Writer(name: Name, edit: Edit, phase: Phase)

  /** An edit that took effect: whose, and in which turn. */
  datatype Entry = Entry(ticket: nat, id: WriterId)

  datatype Sys = Sys(net: Net, holder: Option<WriterId>, writers: map<WriterId, Writer>, tickets: nat, done: seq<Entry>)

  /** A write that fails may have landed; one that is answered has. */
  datatype Move =
    | Begin(id: WriterId, name: Name, edit: Edit)
    | Lock(id: WriterId)
    | Read(id: WriterId, answered: bool)
    | Write(id: WriterId, answered: bool, landed: bool)
    | Unlock(id: WriterId)

  ghost predicate CanMove(s: Sys, m: Move) {
    match m
    case Begin(id, _, _) => id !in s.writers
    case Lock(id) => id in s.writers && s.writers[id].phase.Waiting? && s.holder == None
    case Read(id, _) => id in s.writers && s.writers[id].phase.Locked?
    case Write(id, answered, landed) => id in s.writers && s.writers[id].phase.HasRead? && (answered ==> landed)
    case Unlock(id) => id in s.writers && s.writers[id].phase.Over?
  }

  function Put(s: Sys, id: WriterId, p: Phase): Sys
    requires id in s.writers
  {
    s.(writers := s.writers[id := s.writers[id].(phase := p)])
  }

  /** The client object posted back: the copy read, edited. */
  function Posting(w: Writer): Device
    requires w.phase.HasRead? && w.name in w.phase.snapshot.clients
  {
    Edited(w.edit, w.phase.snapshot.clients[w.name], w.phase.snapshot.global)
  }

  /**
   Writing: an unknown client is not found and an unchanged one is done, both
   without a post; a post replaces the whole client object, if it lands.
   */
  function Wrote(s: Sys, id: WriterId, answered: bool, landed: bool): Sys
    requires id in s.writers && s.writers[id].phase.HasRead?
  {
    var w, t := s.writers[id], s.writers[id].phase.ticket;
    if w.name !in w.phase.snapshot.clients then Put(s, id, Over(t, NotFound))
    else if !MayPost(w.phase.snapshot, w.name, w.edit) then Put(s, id, Over(t, Done)).(done := s.done + [Entry(t, id)])
    else
      var after := Put(s, id, Over(t, if answered then Done else Failed));
      if landed then after.(net := WithDevice(s.net, w.name, Posting(w)), done := s.done + [Entry(t, id)]) else after
  }

  function Moved(s: Sys, m: Move): Sys
    requires CanMove(s, m)
  {
    match m
    case Begin(id, name, edit) => s.(writers := s.writers[id := Writer(name, edit, Waiting)])
    case Lock(id) => Put(s.(holder := Some(id), tickets := s.tickets + 1), id, Locked(s.tickets))
    case Read(id, answered) =>
      var t := s.writers[id].phase.ticket;
      Put(s, id, if answered then HasRead(t, s.net) else Over(t, Failed))
    case Write(id, answered, landed) => Wrote(s, id, answered, landed)
    case Unlock(id) =>
      var p := s.writers[id].phase;
      Put(s.(holder := None), id, Finished(p.ticket, p.result))
  }

  ghost predicate CanRun(s: Sys, ms: seq<Move>)
    decreases |ms|, 0
  {
    ms == [] || (CanRun(s, Front(ms)) && CanMove(AfterMoves(s, Front(ms)), Last(ms)))
  }

  ghost function AfterMoves(s: Sys, ms: seq<Move>): Sys
    requires CanRun(s, ms)
    decreases |ms|, 1
  {
    if ms == [] then s else Moved(AfterMoves(s, Front(ms)), Last(ms))
  }

  function Start(net: Net): Sys {
    Sys(net, None, map[], 0, [])
  }

  /** The edits of done applied one after the other, each to what the last one left. */
  function InTurn(net: Net, writers: map<WriterId, Writer>, done: seq<Entry>): Net {
    if done == [] then net
    else
      var before := InTurn(net, writers, Front(done));
      var id := Last(done).id;
      if id in writers && writers[id].name in before.clients
      then After(before, writers[id].name, writers[id].edit) else before
  }

  predicate Inside(p: Phase) {
    p.Locked? || p.HasRead? || p.Over?
  }

  predicate HasEnded(p: Phase) {
    p.Over? || p.Finished?
  }

  ghost predicate LockOk(s: Sys) {
    && (s.holder.Some? ==> s.holder.value in s.writers)
    && (forall id | id in s.writers :: Inside(s.writers[id].phase) <==> s.holder == Some(id))
    && (forall id | id in s.writers && !s.writers[id].phase.Waiting? :: s.writers[id].phase.ticket < s.tickets)
    && (forall id | id in s.writers && s.writers[id].phase.HasRead? :: s.writers[id].phase.snapshot == s.net)
  }

  /** Entry i of done is of the writer that got that turn, and it has ended. */
  ghost predicate EntryOk(s: Sys, i: nat)
    requires i < |s.done|
  {
    var e := s.done[i];
    && e.id in s.writers && HasEnded(s.writers[e.id].phase) && s.writers[e.id].phase.ticket == e.ticket
    && s.writers[e.id].phase.result != NotFound
  }

  /** The entries are in the order their writers took the lock, so no writer has two. */
  ghost predicate InLockOrder(done: seq<Entry>) {
    |done| <= 1 || (InLockOrder(Front(done)) && Last(Front(done)).ticket < Last(done).ticket)
  }

  ghost predicate HasEntry(done: seq<Entry>, id: WriterId) {
    exists i :: 0 <= i < |done| && done[i].id == id
  }

  /** What the writer is told is so: done, its edit took effect; not found, there was no such client and it did not. */
  ghost predicate TellsTruly(net0: Net, done: seq<Entry>, id: WriterId, w: Writer) {
    && (HasEnded(w.phase) && w.phase.result == Done ==> HasEntry(done, id) && w.name in net0.clients)
    && (HasEnded(w.phase) && w.phase.result == NotFound ==> !HasEntry(done, id) && w.name !in net0.clients)
    && (!HasEnded(w.phase) ==> !HasEntry(done, id))
  }

  /** A writer that has yet to write has a later turn than every entry. */
  ghost predicate TurnAhead(done: seq<Entry>, p: Phase) {
    (p.Locked? || p.HasRead?) && done != [] ==> Last(done).ticket < p.ticket
  }

  ghost predicate DoneOk(net0: Net, s: Sys) {
    && (forall i | 0 <= i < |s.done| :: EntryOk(s, i))
    && InLockOrder(s.done)
    && (forall id | id in s.writers :: TurnAhead(s.done, s.writers[id].phase))
    && (forall id | id in s.writers :: TellsTruly(net0, s.done, id, s.writers[id]))
  }

  ghost predicate SysOk(net0: Net, s: Sys) {
    LockOk(s) && DoneOk(net0, s) && s.net == InTurn(net0, s.writers, s.done) && s.net.clients.Keys == net0.clients.Keys
  }

  // ----- the invariant, move by move -----

  ghost predicate SameEdits(a: map<WriterId, Writer>, b: map<WriterId, Writer>, done: seq<Entry>) {
    forall i | 0 <= i < |done| ::
      done[i].id in a && done[i].id in b && a[done[i].id].(phase := Waiting) == b[done[i].id].(phase := Waiting)
  }

  lemma {:induction false} InTurnSame(net: Net, a: map<WriterId, Writer>, b: map<WriterId, Writer>, done: seq<Entry>)
    requires SameEdits(a, b, done)
    ensures InTurn(net, a, done) == InTurn(net, b, done)
  {
    if done != [] {
      InTurnSame(net, a, b, Front(done));
      assert Last(done).id in a;
    }
  }

  lemma InTurnSnoc(net: Net, writers: map<WriterId, Writer>, done: seq<Entry>, e: Entry)
    requires e.id in writers
    ensures var before := InTurn(net, writers, done);
            InTurn(net, writers, done + [e]) ==
              if writers[e.id].name in before.clients
              then After(before, writers[e.id].name, writers[e.id].edit) else before
  {
    assert Front(done + [e]) == done;
  }

  lemma LockKeeps(s: Sys, m: Move)
    requires LockOk(s) && CanMove(s, m)
    ensures LockOk(Moved(s, m))
  {
  }

  /** A move that writes nothing keeps the record true. */
  lemma QuietKeeps(net0: Net, s: Sys, m: Move)
    requires SysOk(net0, s) && CanMove(s, m) && !m.Write?
    ensures DoneOk(net0, Moved(s, m)) && SameEdits(s.writers, Moved(s, m).writers, s.done)
  {
    var s' := Moved(s, m);
    forall i | 0 <= i < |s'.done| ensures EntryOk(s', i) {
      QuietEntry(net0, s, m, i);
    }
    forall id | id in s'.writers
      ensures TellsTruly(net0, s'.done, id, s'.writers[id]) && TurnAhead(s'.done, s'.writers[id].phase)
    {
      QuietWriter(net0, s, m, id);
    }
    EntriesSame(s, s'.writers);
  }

  lemma QuietEntry(net0: Net, s: Sys, m: Move, i: nat)
    requires SysOk(net0, s) && CanMove(s, m) && !m.Write? && i < |s.done|
    ensures EntryOk(Moved(s, m), i)
  {
    assert EntryOk(s, i);
  }

  lemma QuietWriter(net0: Net, s: Sys, m: Move, id: WriterId)
    requires SysOk(net0, s) && CanMove(s, m) && !m.Write? && id in Moved(s, m).writers
    ensures TellsTruly(net0, s.done, id, Moved(s, m).writers[id]) && TurnAhead(s.done, Moved(s, m).writers[id].phase)
  {
    forall i | 0 <= i < |s.done| ensures s.done[i].id in s.writers && s.done[i].ticket < s.tickets {
      assert EntryOk(s, i);
    }
    if id in s.writers {
      assert TellsTruly(net0, s.done, id, s.writers[id]) && TurnAhead(s.done, s.writers[id].phase);
    }
  }

  lemma EntriesSame(s: Sys, writers: map<WriterId, Writer>)
    requires forall i | 0 <= i < |s.done| :: EntryOk(s, i)
    requires forall id | id in s.writers ::
               id in writers && writers[id].(phase := Waiting) == s.writers[id].(phase := Waiting)
    ensures SameEdits(s.writers, writers, s.done)
  {
    forall i | 0 <= i < |s.done| ensures s.done[i].id in s.writers {
      assert EntryOk(s, i);
    }
  }

  lemma EntrySnoc(done: seq<Entry>, e: Entry, id: WriterId)
    ensures HasEntry(done + [e], id) <==> HasEntry(done, id) || id == e.id
  {
    var more := done + [e];
    if HasEntry(done, id) {
      var i :| 0 <= i < |done| && done[i].id == id;
      assert more[i].id == id;
    }
    assert more[|done|] == e;
  }

  lemma OrderSnoc(done: seq<Entry>, e: Entry)
    requires InLockOrder(done) && (done == [] || Last(done).ticket < e.ticket)
    ensures InLockOrder(done + [e])
  {
    assert Front(done + [e]) == done;
  }

  /** A write that adds no entry: no such client, or a post that failed and did not land. */
  lemma NoEntryKeeps(net0: Net, s: Sys, id: WriterId, result: Result)
    requires SysOk(net0, s) && id in s.writers && s.writers[id].phase.HasRead? && result != Done
    requires result == NotFound ==> s.writers[id].name !in net0.clients
    ensures DoneOk(net0, Put(s, id, Over(s.writers[id].phase.ticket, result)))
  {
    var s' := Put(s, id, Over(s.writers[id].phase.ticket, result));
    assert TellsTruly(net0, s.done, id, s.writers[id]);
    forall i | 0 <= i < |s'.done| ensures EntryOk(s', i) {
      assert EntryOk(s, i) && s.done[i].id != id;
    }
    forall k | k in s'.writers ensures TellsTruly(net0, s'.done, k, s'.writers[k]) {
      assert TellsTruly(net0, s.done, k, s.writers[k]);
    }
  }

  /** One that adds its own: nothing to change, or a post that landed. */
  lemma EntryKeeps(net0: Net, s: Sys, id: WriterId, result: Result, net: Net)
    requires SysOk(net0, s) && id in s.writers && s.writers[id].phase.HasRead? && result != NotFound
    requires s.writers[id].name in net0.clients
    ensures var t := s.writers[id].phase.ticket;
            DoneOk(net0, Put(s, id, Over(t, result)).(net := net, done := s.done + [Entry(t, id)]))
  {
    var t := s.writers[id].phase.ticket;
    var s' := Put(s, id, Over(t, result)).(net := net, done := s.done + [Entry(t, id)]);
    assert TellsTruly(net0, s.done, id, s.writers[id]);
    OrderSnoc(s.done, Entry(t, id));
    forall i | 0 <= i < |s'.done| ensures EntryOk(s', i) {
      if i < |s.done| { assert EntryOk(s, i) && s.done[i].id != id; }
    }
    forall k | k in s'.writers ensures TellsTruly(net0, s'.done, k, s'.writers[k]) {
      EntrySnoc(s.done, Entry(t, id), k);
      assert TellsTruly(net0, s.done, k, s.writers[k]);
    }
  }

  lemma WriteKeeps(net0: Net, s: Sys, id: WriterId, answered: bool, landed: bool)
    requires SysOk(net0, s) && CanMove(s, Write(id, answered, landed))
    ensures DoneOk(net0, Wrote(s, id, answered, landed))
  {
    var w, s' := s.writers[id], Wrote(s, id, answered, landed);
    var result := if answered then Done else Failed;
    if w.name !in s.net.clients { NoEntryKeeps(net0, s, id, NotFound); }
    else if !MayPost(s.net, w.name, w.edit) { EntryKeeps(net0, s, id, Done, s.net); }
    else if landed { EntryKeeps(net0, s, id, result, s'.net); }
    else { NoEntryKeeps(net0, s, id, result); }
  }

  lemma WriteInTurn(net0: Net, s: Sys, id: WriterId, answered: bool, landed: bool)
    requires SysOk(net0, s) && CanMove(s, Write(id, answered, landed))
    requires SameEdits(s.writers, Wrote(s, id, answered, landed).writers, s.done)
    ensures var s' := Wrote(s, id, answered, landed);
            s'.net == InTurn(net0, s'.writers, s'.done) && s'.net.clients.Keys == net0.clients.Keys
  {
    var w, s' := s.writers[id], Wrote(s, id, answered, landed);
    InTurnSame(net0, s.writers, s'.writers, s.done);
    InTurnSnoc(net0, s'.writers, s.done, Entry(w.phase.ticket, id));
    if w.name in s.net.clients {
      assert s.net == WithDevice(s.net, w.name, s.net.clients[w.name]);
    }
  }

  lemma MoveKeeps(net0: Net, s: Sys, m: Move)
    requires SysOk(net0, s) && CanMove(s, m)
    ensures SysOk(net0, Moved(s, m))
  {
    LockKeeps(s, m);
    if m.Write? {
      WriteKeeps(net0, s, m.id, m.answered, m.landed);
      EntriesSame(s, Moved(s, m).writers);
      WriteInTurn(net0, s, m.id, m.answered, m.landed);
    } else {
      QuietKeeps(net0, s, m);
      InTurnSame(net0, s.writers, Moved(s, m).writers, s.done);
    }
  }

  // ----- no update is lost -----

  /** A writer has no entry, or exactly one. */
  lemma {:induction false} OneEntry(done: seq<Entry>, i: nat, j: nat)
    requires InLockOrder(done) && i < j < |done|
    ensures done[i].ticket < done[j].ticket
  {
    if j < |done| - 1 { OneEntry(Front(done), i, j); }
    else if i < j - 1 { OneEntry(Front(done), i, j - 1); }
  }

  /**
   No update is lost: whatever the interleaving and whatever fails, AdGuard's
   clients are the edits that took effect applied one after the other, in the
   order their writers took the lock. A writer told its edit is done has
   exactly one entry among them, one told its client is unknown none, and one
   told nothing but a failure at most one.
   */
  lemma {:induction false} LostUpdateFree(net0: Net, ms: seq<Move>)
    requires CanRun(Start(net0), ms)
    ensures SysOk(net0, AfterMoves(Start(net0), ms))
    ensures var s := AfterMoves(Start(net0), ms);
            forall i, j | 0 <= i < j < |s.done| :: s.done[i].ticket < s.done[j].ticket && s.done[i].id != s.done[j].id
  {
    if ms != [] {
      LostUpdateFree(net0, Front(ms));
      MoveKeeps(net0, AfterMoves(Start(net0), Front(ms)), Last(ms));
    }
    var s := AfterMoves(Start(net0), ms);
    forall i, j | 0 <= i < j < |s.done|
      ensures s.done[i].ticket < s.done[j].ticket && s.done[i].id != s.done[j].id
    {
      OneEntry(s.done, i, j);
      assert EntryOk(s, i) && EntryOk(s, j);
    }
  }

  predicate Succeeds(m: Move) {
    (m.Read? || m.Write?) ==> m.answered
  }

  predicate NotFailed(p: Phase) {
    HasEnded(p) ==> p.result != Failed
  }

  lemma {:induction false} NoneFailed(net0: Net, ms: seq<Move>, id: WriterId)
    requires CanRun(Start(net0), ms) && forall m | m in ms :: Succeeds(m)
    ensures var s := AfterMoves(Start(net0), ms); id in s.writers ==> NotFailed(s.writers[id].phase)
  {
    if ms != [] {
      assert forall m | m in Front(ms) :: m in ms;
      NoneFailed(net0, Front(ms), id);
      assert Succeeds(Last(ms));
    }
  }

  /**
   When every call is answered, the edits that took effect are those of all
   writers that have ended, but for unknown clients.
   */
  lemma AllAnswered(net0: Net, ms: seq<Move>, id: WriterId)
    requires CanRun(Start(net0), ms) && forall m | m in ms :: Succeeds(m)
    ensures var s := AfterMoves(Start(net0), ms);
            HasEntry(s.done, id) <==>
              id in s.writers && HasEnded(s.writers[id].phase) && s.writers[id].name in net0.clients
  {
    var s := AfterMoves(Start(net0), ms);
    LostUpdateFree(net0, ms);
    NoneFailed(net0, ms, id);
    if HasEntry(s.done, id) {
      var i :| 0 <= i < |s.done| && s.done[i].id == id;
      assert EntryOk(s, i);
    }
    if id in s.writers { assert TellsTruly(net0, s.done, id, s.writers[id]); }
  }

  // ----- an edit made in AdGuard's own UI -----

  /** A parent blocks x on a client through AdGuard, or unblocks it, outside the mutex. */
  function ParentEdits(s: Sys, name: Name, x: Service, blocks: bool): Sys
    requires name in s.net.clients
  {
    var d := s.net.clients[name];
    s.(net := WithDevice(s.net, name, d.(blocked := if blocks then d.blocked + [x] else Without(d.blocked, {x}))))
  }

  /** The writer goes on to its end with every call answered, reading first if it has not. */
  function FinishWrite(s: Sys, id: WriterId): Sys
    requires id in s.writers && (s.writers[id].phase.Locked? || s.writers[id].phase.HasRead?)
  {
    Wrote(if s.writers[id].phase.Locked? then Moved(s, Read(id, true)) else s, id, true, true)
  }

  predicate BlockedIn(s: Sys, name: Name, x: Service) {
    name in s.net.clients && x in s.net.clients[name].blocked
  }

  /**
   A parent's edit of a service the writer does not touch survives an Add or
   Remove exactly when it comes before the writer's read, or the writer finds
   nothing to change; the comment above Remove promises it always does.
   */
  lemma ParentEditSurvives(net0: Net, s: Sys, id: WriterId, x: Service, blocks: bool)
    requires SysOk(net0, s) && id in s.writers && (s.writers[id].phase.Locked? || s.writers[id].phase.HasRead?)
    requires (s.writers[id].edit.Add? || s.writers[id].edit.Remove?) && x !in s.writers[id].edit.ids
    requires s.writers[id].name in s.net.clients && BlockedIn(s, s.writers[id].name, x) == !blocks
    ensures var w := s.writers[id];
            BlockedIn(FinishWrite(ParentEdits(s, w.name, x, blocks), id), w.name, x) == blocks <==>
              w.phase.Locked? || !MayPost(s.net, w.name, w.edit)
  {
    var w := s.writers[id];
    var edited := ParentEdits(s, w.name, x, blocks);
    if w.phase.Locked? {
      assert BlockedIn(FinishWrite(edited, id), w.name, x) == blocks;
    }
  }

  lemma RunSnoc(s: Sys, ms: seq<Move>, m: Move)
    requires CanRun(s, ms) && CanMove(AfterMoves(s, ms), m)
    ensures CanRun(s, ms + [m]) && AfterMoves(s, ms + [m]) == Moved(AfterMoves(s, ms), m)
  {
    assert Front(ms + [m]) == ms;
  }

  /** Some run leads from net to s. */
  ghost predicate Reachable(net: Net, s: Sys) {
    exists ms :: CanRun(Start(net), ms) && AfterMoves(Start(net), ms) == s
  }

  lemma ReachMore(net: Net, s: Sys, m: Move)
    requires Reachable(net, s) && CanMove(s, m)
    ensures Reachable(net, Moved(s, m))
  {
    var ms :| CanRun(Start(net), ms) && AfterMoves(Start(net), ms) == s;
    RunSnoc(Start(net), ms, m);
  }

  /** After one writer's turn from beginning to end, every call answered. */
  function AfterTurn(s: Sys, id: WriterId, name: Name, edit: Edit): Sys
    requires name in s.net.clients
  {
    Sys(After(s.net, name, edit), None, s.writers[id := Writer(name, edit, Finished(s.tickets, Done))],
        s.tickets + 1, s.done + [Entry(s.tickets, id)])
  }

  lemma TurnReached(net: Net, s: Sys, id: WriterId, name: Name, edit: Edit)
    requires Reachable(net, s) && s.holder == None && id !in s.writers && name in s.net.clients
    ensures Reachable(net, AfterTurn(s, id, name, edit))
  {
    ReadReached(net, s, id, name, edit);
    WriteReached(net, AfterRead(s, id, name, edit), id);
  }

  /** Halfway through that turn. */
  function AfterRead(s: Sys, id: WriterId, name: Name, edit: Edit): Sys {
    s.(holder := Some(id), writers := s.writers[id := Writer(name, edit, HasRead(s.tickets, s.net))],
       tickets := s.tickets + 1)
  }

  lemma ReadReached(net: Net, s: Sys, id: WriterId, name: Name, edit: Edit)
    requires Reachable(net, s) && s.holder == None && id !in s.writers
    ensures Reachable(net, AfterRead(s, id, name, edit))
  {
    var s1 := Moved(s, Begin(id, name, edit));
    ReachMore(net, s, Begin(id, name, edit));
    var s2 := Moved(s1, Lock(id));
    ReachMore(net, s1, Lock(id));
    ReachMore(net, s2, Read(id, true));
    assert Moved(s2, Read(id, true)) == AfterRead(s, id, name, edit);
  }

  lemma WriteReached(net: Net, s: Sys, id: WriterId)
    requires Reachable(net, s) && id in s.writers && s.writers[id].phase.HasRead?
    requires s.writers[id].phase.snapshot == s.net && s.writers[id].name in s.net.clients
    ensures var w := s.writers[id];
            Reachable(net, s.(net := After(s.net, w.name, w.edit), holder := None,
                              writers := s.writers[id := w.(phase := Finished(w.phase.ticket, Done))],
                              done := s.done + [Entry(w.phase.ticket, id)]))
  {
    WroteAll(s, id);
    var s1 := Moved(s, Write(id, true, true));
    ReachMore(net, s, Write(id, true, true));
    ReachMore(net, s1, Unlock(id));
  }

  /** A write that is answered leaves the edit done. */
  lemma WroteAll(s: Sys, id: WriterId)
    requires id in s.writers && s.writers[id].phase.HasRead? && s.writers[id].phase.snapshot == s.net
    requires s.writers[id].name in s.net.clients
    ensures var w := s.writers[id];
            Wrote(s, id, true, true) ==
              Put(s, id, Over(w.phase.ticket, Done)).(net := After(s.net, w.name, w.edit),
                                                      done := s.done + [Entry(w.phase.ticket, id)])
  {
    var w := s.writers[id];
    assert s.net == WithDevice(s.net, w.name, s.net.clients[w.name]);
  }

  /** The input on which it does not: a grant opens 1 while a parent blocks 2. */
  lemma ParentEditLost()
    ensures var net := Net(map[7 := Device([], [1], false, map[])], []);
            var ms := [Begin(0, 7, Remove([1])), Lock(0), Read(0, true)];
            && CanRun(Start(net), ms)
            && !BlockedIn(FinishWrite(ParentEdits(AfterMoves(Start(net), ms), 7, 2, true), 0), 7, 2)
  {
    var net := Net(map[7 := Device([], [1], false, map[])], []);
    var m0, m1, m2 := Begin(0, 7, Remove([1])), Lock(0), Read(0, true);
    var s1 := Moved(Start(net), m0);
    var s2 := Moved(s1, m1);
    var s3 := Moved(s2, m2);
    RunSnoc(Start(net), [], m0);
    assert [] + [m0] == [m0];
    RunSnoc(Start(net), [m0], m1);
    assert [m0] + [m1] == [m0, m1];
    RunSnoc(Start(net), [m0, m1], m2);
    assert [m0, m1] + [m2] == [m0, m1, m2];
    LostUpdateFree(net, [m0, m1, m2]);
    OpensOne(net.clients[7]);
    ParentEditSurvives(net, s3, 0, 2, true);
  }

  lemma OpensOne(d: Device)
    requires d.blocked == [1] && !d.useGlobal
    ensures Posted(Remove([1]), d, [])
  {
    assert 1 in [1] && 1 in Current(Remove([1]), d, []) && 1 !in AdGuardHome.Next(Remove([1]), d, []);
  }
}
