/**
 Applying the offer while others write: the API holds no lock between reading
 the offer and writing a step, and a step writes the list the offer computed.
 */
module MigrationRaces {
  import opened Wrappers
  import opened Lists
  import opened AdGuardHome
  import opened Migration
  import opened ReadModifyWrite

  /** Everything name blocks in net it blocks in net'. */
  ghost predicate Keeps(net: Net, net': Net, name: Name)
    requires name in net.clients && name in net'.clients
  {
    forall x | x in Effective(net, name) :: x in Effective(net', name)
  }

  /** The ids the offer saw on the client: its own and the global ones. */
  function Seen(net: Net, c: Name): set<Service>
    requires c in net.clients
  {
    Members(net.clients[c].blocked + net.global)
  }

  /** The client's step offered at net, written at later. */
  function Written(net: Net, later: Net, c: Name): Net
    requires c in net.clients && c in later.clients
  {
    After(later, c, Migrate(StepFor(net, c).target))
  }

  /**
   A late step loses nothing exactly when the client still inherits the list it
   did, or its own has come by nothing the offer had not seen.
   */
  lemma LateStep(net: Net, later: Net, c: Name)
    requires NeedsStep(net, c) && c in later.clients && later.global == net.global
    ensures Keeps(later, Written(net, later, c), c) <==>
              later.clients[c].useGlobal || forall x | x in later.clients[c].blocked :: x in Seen(net, c)
  {
    assert forall x :: x in Effective(Written(net, later, c), c) <==> x in Seen(net, c);
  }

  /** With one AdoptClients write in between, exactly when that adds nothing the offer had not seen. */
  lemma AdoptedInBetween(net: Net, c: Name, ids: seq<Service>)
    requires NeedsStep(net, c)
    ensures var later := After(net, c, Adopt(ids));
            Keeps(later, Written(net, later, c), c) <==> forall x | x in ids :: x in Seen(net, c)
  {
    LateStep(net, After(net, c, Adopt(ids)), c);
  }

  // ----- over the interleavings of the writers -----

  function EditOf(writers: map<WriterId, Writer>, e: Entry, c: Name): Option<Edit> {
    if e.id in writers && writers[e.id].name == c then Some(writers[e.id].edit) else None
  }

  /** Grants only add and remove, and leave the global flag alone. */
  predicate StaysOnGlobal(e: Option<Edit>) {
    e.None? || e.value.Add? || e.value.Remove?
  }

  /** No edit of done took c off the global list. */
  predicate StillInherits(writers: map<WriterId, Writer>, done: seq<Entry>, c: Name) {
    done == [] ||
    (StillInherits(writers, Front(done), c) && StaysOnGlobal(EditOf(writers, Last(done), c)))
  }

  /** What the edits of done put on c's own list, and left there, that seen is without. */
  function Unseen(writers: map<WriterId, Writer>, done: seq<Entry>, c: Name, seen: set<Service>): set<Service> {
    if done == [] then {}
    else
      var before := Unseen(writers, Front(done), c, seen);
      match EditOf(writers, Last(done), c)
      case None => before
      case Some(Add(ids)) => before + (Members(ids) - seen)
      case Some(Remove(ids)) => before - Members(ids)
      case Some(Migrate(ids)) => Members(ids) - seen
      case Some(Adopt(ids)) =>
        (if StillInherits(writers, Front(done), c) then {} else before) + (Members(ids) - seen)
  }

  /** One edit of the client, by device. */
  lemma EditStep(net: Net, c: Name, d: Device, e: Edit, unseen: set<Service>)
    requires c in net.clients && forall x | x !in Seen(net, c) :: x in d.blocked <==> x in unseen
    ensures var d' := Edited(e, d, net.global);
            var next := match e
                        case Add(ids) => unseen + (Members(ids) - Seen(net, c))
                        case Remove(ids) => unseen - Members(ids)
                        case Migrate(ids) => Members(ids) - Seen(net, c)
                        case Adopt(ids) => (if d.useGlobal then {} else unseen) + (Members(ids) - Seen(net, c));
            forall x | x !in Seen(net, c) :: x in d'.blocked <==> x in next
  {
  }

  lemma {:induction false} OwnListOf(net: Net, writers: map<WriterId, Writer>, done: seq<Entry>, c: Name)
    requires c in net.clients && net.clients[c].useGlobal
    ensures var now := InTurn(net, writers, done);
            && now.global == net.global && c in now.clients
            && now.clients[c].useGlobal == StillInherits(writers, done, c)
            && forall x | x !in Seen(net, c) ::
                 x in now.clients[c].blocked <==> x in Unseen(writers, done, c, Seen(net, c))
  {
    if done != [] {
      OwnListOf(net, writers, Front(done), c);
      OneMoreEdit(net, InTurn(net, writers, Front(done)), writers, done, c);
    }
  }

  lemma OneMoreEdit(net: Net, before: Net, writers: map<WriterId, Writer>, done: seq<Entry>, c: Name)
    requires c in net.clients && done != [] && before == InTurn(net, writers, Front(done))
    requires before.global == net.global && c in before.clients
    requires before.clients[c].useGlobal == StillInherits(writers, Front(done), c)
    requires forall x | x !in Seen(net, c) ::
               x in before.clients[c].blocked <==> x in Unseen(writers, Front(done), c, Seen(net, c))
    ensures var now := InTurn(net, writers, done);
            && now.global == net.global && c in now.clients
            && now.clients[c].useGlobal == StillInherits(writers, done, c)
            && forall x | x !in Seen(net, c) ::
                 x in now.clients[c].blocked <==> x in Unseen(writers, done, c, Seen(net, c))
  {
    var e := EditOf(writers, Last(done), c);
    if e.Some? {
      EditStep(net, c, before.clients[c], e.value, Unseen(writers, Front(done), c, Seen(net, c)));
    }
  }

  /**
   The step of a client, offered at net and written as entry k of any
   interleaving of writers from there: nothing the client blocked is lost
   exactly when no edit before it took the client off the global list, or
   they left nothing on its own list that the offer had not seen.
   */
  lemma StepAmongWriters(net: Net, ms: seq<Move>, k: nat, c: Name)
    requires NeedsStep(net, c) && CanRun(Start(net), ms)
    requires var s := AfterMoves(Start(net), ms);
             k < |s.done| && EditOf(s.writers, s.done[k], c) == Some(Migrate(StepFor(net, c).target))
    ensures var s := AfterMoves(Start(net), ms);
            var before, after := InTurn(net, s.writers, s.done[..k]), InTurn(net, s.writers, s.done[..k + 1]);
            && c in before.clients && c in after.clients
            && (Keeps(before, after, c) <==>
                  StillInherits(s.writers, s.done[..k], c) || Unseen(s.writers, s.done[..k], c, Seen(net, c)) == {})
  {
    var s := AfterMoves(Start(net), ms);
    var before := InTurn(net, s.writers, s.done[..k]);
    OwnListOf(net, s.writers, s.done[..k], c);
    assert Front(s.done[..k + 1]) == s.done[..k] && Last(s.done[..k + 1]) == s.done[k];
    LateStep(net, before, c);
    UnseenOnly(s.writers, s.done[..k], c, Seen(net, c));
  }

  lemma {:induction false} UnseenOnly(writers: map<WriterId, Writer>, done: seq<Entry>, c: Name, seen: set<Service>)
    ensures forall x | x in Unseen(writers, done, c, seen) :: x !in seen
  {
    if done != [] { UnseenOnly(writers, Front(done), c, seen); }
  }

  /** So grants, which only Add and Remove, never make a migration lose anything. */
  lemma GrantsAreHarmless(net: Net, ms: seq<Move>, k: nat, c: Name)
    requires NeedsStep(net, c) && CanRun(Start(net), ms)
    requires var s := AfterMoves(Start(net), ms);
             && k < |s.done| && EditOf(s.writers, s.done[k], c) == Some(Migrate(StepFor(net, c).target))
             && forall i | 0 <= i < k :: StaysOnGlobal(EditOf(s.writers, s.done[i], c))
    ensures var s := AfterMoves(Start(net), ms);
            var before, after := InTurn(net, s.writers, s.done[..k]), InTurn(net, s.writers, s.done[..k + 1]);
            c in before.clients && c in after.clients && Keeps(before, after, c)
  {
    var s := AfterMoves(Start(net), ms);
    StepAmongWriters(net, ms, k, c);
    OnlyGrants(s.writers, s.done[..k], c);
  }

  lemma {:induction false} OnlyGrants(writers: map<WriterId, Writer>, done: seq<Entry>, c: Name)
    requires forall i | 0 <= i < |done| :: StaysOnGlobal(EditOf(writers, done[i], c))
    ensures StillInherits(writers, done, c)
  {
    if done != [] {
      forall i | 0 <= i < |Front(done)|
        ensures StaysOnGlobal(EditOf(writers, Front(done)[i], c))
      {
        assert Front(done)[i] == done[i];
      }
      OnlyGrants(writers, Front(done), c);
      assert Last(done) == done[|done| - 1];
    }
  }

  // ----- the input on which something is lost -----

  /** One writer adopts ids for c, and then another writes the step read before that. */
  function AdoptedThenStepped(net: Net, c: Name, ids: seq<Service>): Sys
    requires c in net.clients
  {
    AfterTurn(AfterTurn(Start(net), 0, c, Adopt(ids)), 1, c, Migrate(StepFor(net, c).target))
  }

  lemma AdoptedThenSteppedIsRun(net: Net, c: Name, ids: seq<Service>)
    requires c in net.clients
    ensures var s := AdoptedThenStepped(net, c, ids);
            && Reachable(net, s) && s.done == [Entry(0, 0), Entry(1, 1)]
            && InTurn(net, s.writers, [Entry(0, 0)]) == After(net, c, Adopt(ids))
            && s.net == Written(net, After(net, c, Adopt(ids)), c)
  {
    assert CanRun(Start(net), []) && AfterMoves(Start(net), []) == Start(net);
    TurnReached(net, Start(net), 0, c, Adopt(ids));
    TurnReached(net, AfterTurn(Start(net), 0, c, Adopt(ids)), 1, c, Migrate(StepFor(net, c).target));
    OneInTurn(net, AdoptedThenStepped(net, c, ids).writers, Entry(0, 0));
  }

  lemma OneInTurn(net: Net, writers: map<WriterId, Writer>, e: Entry)
    requires e.id in writers && writers[e.id].name in net.clients
    ensures InTurn(net, writers, [e]) == After(net, writers[e.id].name, writers[e.id].edit)
  {
    assert Front([e]) == [];
  }

  /**
   Client 7 inherits [1] and has an empty list; between the offer and its step
   AdoptClients gives it 2, and the step takes it away.
   */
  lemma StepLosesAnAdoption()
    ensures var net := Net(map[7 := Device([], [], true, map[])], [1]);
            && NeedsStep(net, 7) && Reachable(net, AdoptedThenStepped(net, 7, [2]))
            && !Keeps(After(net, 7, Adopt([2])), AdoptedThenStepped(net, 7, [2]).net, 7)
  {
    var net := Net(map[7 := Device([], [], true, map[])], [1]);
    AdoptedThenSteppedIsRun(net, 7, [2]);
    assert 2 in [2] && 2 !in Seen(net, 7);
    AdoptedInBetween(net, 7, [2]);
  }
}
