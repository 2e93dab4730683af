/**
 Moving clients off AdGuard's global list: the offer, and applying it step by
 step until the first failure.
 */
module Migration {
  import opened Lists
  import opened AdGuardHome
  import opened GrantStore

  /** gains are the global ids the client's own list lacks; target is own and global together. */
  datatype Step = Step(client: Name, gains: seq<Service>, target: seq<Service>)

  function StepFor(net: Net, name: Name): Step
    requires name in net.clients
  {
    var own := net.clients[name].blocked;
    Step(name, Norm(Without(net.global, Members(own))), Norm(own + net.global))
  }

  predicate NeedsStep(net: Net, name: Name) {
    name in net.clients && net.clients[name].useGlobal && net.global != []
  }

  /** The steps offered for the mapped clients, in their order. */
  function Offered(net: Net, mapped: seq<Name>): seq<Step> {
    if mapped == [] then []
    else (if NeedsStep(net, mapped[0]) then [StepFor(net, mapped[0])] else []) + Offered(net, mapped[1..])
  }

  /**
   What an offer has to be: each client that inherits a global list, once, in the
   order mapped, and what each gains.
   */
  ghost predicate OfferExact(net: Net, mapped: seq<Name>, steps: seq<Step>) {
    && Clients(steps) == Keep(mapped, Inheriting(net))
    && forall i | 0 <= i < |steps| :: StepExact(net, steps[i])
  }

  function Inheriting(net: Net): set<Name> {
    set c | c in net.clients && net.clients[c].useGlobal && |net.global| > 0
  }

  function Clients(steps: seq<Step>): seq<Name> {
    seq(|steps|, i requires 0 <= i < |steps| => steps[i].client)
  }

  ghost predicate StepExact(net: Net, step: Step) {
    && step.client in net.clients && Ascending(step.gains) && Ascending(step.target)
    && (forall x :: x in step.gains <==> x in net.global && x !in net.clients[step.client].blocked)
    && (forall x :: x in step.target <==> x in net.global || x in net.clients[step.client].blocked)
  }

  lemma {:induction false} OfferedClients(net: Net, mapped: seq<Name>)
    ensures Clients(Offered(net, mapped)) == Keep(mapped, Inheriting(net))
  {
    if mapped != [] {
      var rest := Offered(net, mapped[1..]);
      OfferedClients(net, mapped[1..]);
      KeepHead(mapped, Inheriting(net));
      if NeedsStep(net, mapped[0]) {
        assert Clients([StepFor(net, mapped[0])] + rest) == [mapped[0]] + Clients(rest);
      }
    }
  }

  lemma StepForExact(net: Net, name: Name)
    requires name in net.clients
    ensures StepExact(net, StepFor(net, name))
  {
  }

  lemma OfferedExact(net: Net, mapped: seq<Name>)
    ensures OfferExact(net, mapped, Offered(net, mapped))
  {
    var steps := Offered(net, mapped);
    OfferedClients(net, mapped);
    forall i | 0 <= i < |steps| ensures StepExact(net, steps[i]) {
      OfferedMembers(net, mapped, i);
      StepForExact(net, steps[i].client);
    }
  }

  method MakeStep(net: Net, name: Name) returns (step: Step)
    requires name in net.clients
    ensures step == StepFor(net, name)
    ensures step.client == name && StepExact(net, step)
  {
    var own := net.clients[name].blocked;
    var gains, target := [], own;
    for j := 0 to |net.global|
      invariant forall x :: x in gains <==> x in net.global[..j] && x !in own
      invariant forall x :: x in target <==> x in own || x in net.global[..j]
    {
      assert net.global[..j + 1] == net.global[..j] + [net.global[j]];
      if net.global[j] !in own { gains := gains + [net.global[j]]; }
      target := target + [net.global[j]];
    }
    assert net.global[..|net.global|] == net.global;
    var sortedGains := Normalise(gains);
    var sortedTarget := Normalise(target);
    NormEqual(gains, Without(net.global, Members(own)));
    NormEqual(target, own + net.global);
    return Step(name, sortedGains, sortedTarget);
  }

  method Offer(net: Net, mapped: seq<Name>) returns (steps: seq<Step>)
    ensures steps == Offered(net, mapped) && OfferExact(net, mapped, steps)
  {
    steps := [];
    OfferedEnds(net, mapped);
    OfferedExact(net, mapped);
    if |net.global| == 0 {
      NothingOffered(net, mapped);
      return;
    }
    for i := 0 to |mapped|
      invariant OfferedPast(net, mapped, i, steps)
    {
      var name := mapped[i];
      OfferedNext(net, mapped, i, steps);
      if name in net.clients && net.clients[name].useGlobal {
        var step := MakeStep(net, name);
        steps := steps + [step];
      }
    }
  }

  /** steps is the part of the offer that comes from the first i clients. */
  ghost predicate OfferedPast(net: Net, mapped: seq<Name>, i: nat, steps: seq<Step>) {
    i <= |mapped| && steps + Offered(net, mapped[i..]) == Offered(net, mapped)
  }

  lemma OfferedEnds(net: Net, mapped: seq<Name>)
    ensures OfferedPast(net, mapped, 0, [])
    ensures forall steps | OfferedPast(net, mapped, |mapped|, steps) :: steps == Offered(net, mapped)
  {
    assert mapped[0..] == mapped;
    assert forall steps: seq<Step> :: steps + [] == steps;
  }

  lemma OfferedNext(net: Net, mapped: seq<Name>, i: nat, steps: seq<Step>)
    requires i < |mapped| && OfferedPast(net, mapped, i, steps)
    ensures NeedsStep(net, mapped[i]) ==> OfferedPast(net, mapped, i + 1, steps + [StepFor(net, mapped[i])])
    ensures !NeedsStep(net, mapped[i]) ==> OfferedPast(net, mapped, i + 1, steps)
  {
    var next := if NeedsStep(net, mapped[i]) then [StepFor(net, mapped[i])] else [];
    assert mapped[i..][1..] == mapped[i + 1..];
    assert steps + (next + Offered(net, mapped[i + 1..])) == steps + next + Offered(net, mapped[i + 1..]);
  }

  lemma {:induction false} NothingOffered(net: Net, mapped: seq<Name>)
    requires net.global == []
    ensures Offered(net, mapped) == []
  {
    if mapped != [] { NothingOffered(net, mapped[1..]); }
  }

  /** The clients of every child, child by child. */
  function AllClients(children: seq<Child>): (r: seq<Name>)
    ensures forall c :: c in r <==> exists k :: k in children && c in k.clients
  {
    if children == [] then []
    else
      assert children == Front(children) + [Last(children)];
      AllClients(Front(children)) + Last(children).clients
  }

  /** computeOffer's client list: every child's clients in order, a shared one once, under its first owner. */
  method MappedClients(children: seq<Child>) returns (mapped: seq<Name>, owner: map<Name, ChildId>)
    ensures mapped == Firsts(AllClients(children)) && Distinct(mapped)
    ensures forall c :: c in mapped <==> exists k :: k in children && c in k.clients
    ensures owner.Keys == Members(mapped)
    ensures OwnersOk(children, owner)
  {
    mapped, owner := [], map[];
    for i := 0 to |children|
      invariant mapped == Firsts(AllClients(children[..i])) && owner.Keys == Members(mapped)
      invariant OwnersOk(children, owner)
    {
      mapped, owner := MapChild(children, i, mapped, owner);
      assert Front(children[..i + 1]) == children[..i] && Last(children[..i + 1]) == children[i];
    }
    assert children[..|children|] == children;
    FirstsExact(AllClients(children));
  }

  /** The inner loop: child i's clients that no child before it has. */
  method MapChild(children: seq<Child>, i: nat, mapped0: seq<Name>, owner0: map<Name, ChildId>)
    returns (mapped: seq<Name>, owner: map<Name, ChildId>)
    requires i < |children| && mapped0 == Firsts(AllClients(children[..i])) && owner0.Keys == Members(mapped0)
    requires OwnersOk(children, owner0)
    ensures mapped == Firsts(AllClients(children[..i]) + children[i].clients) && owner.Keys == Members(mapped)
    ensures OwnersOk(children, owner)
  {
    mapped, owner := mapped0, owner0;
    assert AllClients(children[..i]) + [] == AllClients(children[..i]);
    for n := 0 to |children[i].clients|
      invariant MappedTo(children, i, n, mapped, owner)
    {
      var name := children[i].clients[n];
      MappedNext(children, i, n, mapped, owner);
      if name !in owner {
        mapped := mapped + [name];
        owner := owner[name := children[i].id];
      }
    }
    assert children[i].clients[..|children[i].clients|] == children[i].clients;
  }

  /** The clients of the first i children and the first n of child i are mapped, each under its first owner. */
  ghost predicate MappedTo(children: seq<Child>, i: nat, n: nat, mapped: seq<Name>, owner: map<Name, ChildId>)
    requires i < |children| && n <= |children[i].clients|
  {
    && mapped == Firsts(AllClients(children[..i]) + children[i].clients[..n])
    && owner.Keys == Members(mapped) && OwnersOk(children, owner)
  }

  lemma MappedNext(children: seq<Child>, i: nat, n: nat, mapped: seq<Name>, owner: map<Name, ChildId>)
    requires i < |children| && n < |children[i].clients| && MappedTo(children, i, n, mapped, owner)
    ensures var name := children[i].clients[n];
            if name in owner then MappedTo(children, i, n + 1, mapped, owner)
            else MappedTo(children, i, n + 1, mapped + [name], owner[name := children[i].id])
  {
    var name := children[i].clients[n];
    FirstsNext(AllClients(children[..i]), children[i].clients, n);
    assert name in owner <==> name in mapped;
    if name !in owner { NewOwner(children, i, name, owner); }
  }

  lemma FirstsNext(past: seq<Name>, clients: seq<Name>, n: nat)
    requires n < |clients|
    ensures var before := Firsts(past + clients[..n]);
            Firsts(past + clients[..n + 1]) == if clients[n] in before then before else before + [clients[n]]
  {
    var longer := past + clients[..n + 1];
    assert Front(longer) == past + clients[..n] && Last(longer) == clients[n];
  }

  ghost predicate OwnersOk(children: seq<Child>, owner: map<Name, ChildId>) {
    forall c | c in owner :: FirstOwner(children, c, owner[c])
  }

  lemma NewOwner(children: seq<Child>, i: nat, name: Name, owner: map<Name, ChildId>)
    requires i < |children| && name in children[i].clients && name !in AllClients(children[..i])
    requires OwnersOk(children, owner)
    ensures OwnersOk(children, owner[name := children[i].id])
  {
    forall j | 0 <= j < i ensures name !in children[j].clients {
      assert children[j] in children[..i];
    }
    assert OwnsFirst(children, i, name);
  }

  ghost predicate OwnsFirst(children: seq<Child>, i: nat, c: Name)
    requires i < |children|
  {
    c in children[i].clients && forall j | 0 <= j < i :: c !in children[j].clients
  }

  ghost predicate FirstOwner(children: seq<Child>, c: Name, id: ChildId) {
    exists i :: 0 <= i < |children| && children[i].id == id && OwnsFirst(children, i, c)
  }

  /** AdGuard after these steps, each one MigrateFromGlobal. */
  function Applied(net: Net, steps: seq<Step>): Net {
    if steps == [] then net
    else
      var s := steps[|steps| - 1];
      var before := Applied(net, steps[..|steps| - 1]);
      if s.client in before.clients then After(before, s.client, Migrate(s.target)) else before
  }

  lemma {:induction false} OfferedMembers(net: Net, mapped: seq<Name>, i: nat)
    requires i < |Offered(net, mapped)|
    ensures var s := Offered(net, mapped)[i];
            NeedsStep(net, s.client) && s == StepFor(net, s.client) && s.client in mapped
  {
    var head := if NeedsStep(net, mapped[0]) then 1 else 0;
    assert Offered(net, mapped) == (if head == 1 then [StepFor(net, mapped[0])] else []) + Offered(net, mapped[1..]);
    if i >= head {
      OfferedMembers(net, mapped[1..], i - head);
      assert Offered(net, mapped)[i] == Offered(net, mapped[1..])[i - head];
    }
  }

  /** Offers agree on clients the two states agree on. */
  lemma {:induction false} OfferedFrame(a: Net, b: Net, mapped: seq<Name>)
    requires a.global == b.global
    requires forall c | c in mapped ::
               (c in a.clients <==> c in b.clients) && (c in a.clients ==> a.clients[c] == b.clients[c])
    ensures Offered(a, mapped) == Offered(b, mapped)
  {
    if mapped != [] {
      assert mapped[0] in mapped && forall c | c in mapped[1..] :: c in mapped;
      OfferedFrame(a, b, mapped[1..]);
    }
  }

  /** Applying the first step offered leaves exactly the rest to offer. */
  lemma {:induction false} FirstStep(net: Net, mapped: seq<Name>)
    requires Distinct(mapped) && Offered(net, mapped) != []
    ensures Offered(net, mapped)[0].client in net.clients
    ensures Offered(Applied(net, Offered(net, mapped)[..1]), mapped) == Offered(net, mapped)[1..]
  {
    DistinctTail(mapped);
    OfferedMembers(net, mapped, 0);
    AppliedOne(net, Offered(net, mapped));
    if NeedsStep(net, mapped[0]) {
      OwnStepFirst(net, mapped);
    } else {
      assert Offered(net, mapped) == Offered(net, mapped[1..]);
      FirstStep(net, mapped[1..]);
      OfferedMembers(net, mapped[1..], 0);
    }
  }

  lemma AppliedOne(net: Net, steps: seq<Step>)
    requires steps != [] && steps[0].client in net.clients
    ensures Applied(net, steps[..1]) == After(net, steps[0].client, Migrate(steps[0].target))
  {
    assert steps[..1] == [steps[0]] && [steps[0]][..0] == [];
  }

  lemma OwnStepFirst(net: Net, mapped: seq<Name>)
    requires Distinct(mapped) && mapped != [] && NeedsStep(net, mapped[0])
    ensures var after := After(net, mapped[0], Migrate(StepFor(net, mapped[0]).target));
            Offered(after, mapped) == Offered(net, mapped)[1..]
  {
    var after := After(net, mapped[0], Migrate(StepFor(net, mapped[0]).target));
    DistinctTail(mapped);
    OfferedFrame(net, after, mapped[1..]);
    assert !NeedsStep(after, mapped[0]);
  }

  lemma {:induction false} AppliedSplit(net: Net, a: seq<Step>, b: seq<Step>)
    ensures Applied(net, a + b) == Applied(Applied(net, a), b)
  {
    if b == [] {
      assert a + b == a;
    } else {
      AppliedSplit(net, a, b[..|b| - 1]);
      assert (a + b)[..|a + b| - 1] == a + b[..|b| - 1];
    }
  }

  /**
   Resumable: after any prefix of the offered steps, a fresh offer is exactly
   the remaining steps; so a completed run's next offer is empty.
   */
  lemma {:induction false} Resumable(net: Net, mapped: seq<Name>, k: nat)
    requires Distinct(mapped) && k <= |Offered(net, mapped)|
    ensures Offered(Applied(net, Offered(net, mapped)[..k]), mapped) == Offered(net, mapped)[k..]
  {
    var steps := Offered(net, mapped);
    if k > 0 {
      Resumable(net, mapped, k - 1);
      var before := Applied(net, steps[..k - 1]);
      assert Offered(before, mapped) == steps[k - 1..];
      FirstStep(before, mapped);
      assert steps[k - 1..][..1] == [steps[k - 1]] && steps[k - 1..][1..] == steps[k..];
      AppliedSplit(net, steps[..k - 1], [steps[k - 1]]);
      assert steps[..k] == steps[..k - 1] + [steps[k - 1]];
    }
  }

  /**
   No step shrinks what a client blocks, nor touches the global list; a migrated
   client blocks its own list and the global one together.
   */
  lemma {:induction false} MigrationIsGentle(net: Net, mapped: seq<Name>, k: nat, c: Name)
    requires Distinct(mapped) && k <= |Offered(net, mapped)| && c in net.clients
    ensures var net' := Applied(net, Offered(net, mapped)[..k]);
            && net'.global == net.global && net'.clients.Keys == net.clients.Keys
            && net'.clients[c].(blocked := [], useGlobal := true) == net.clients[c].(blocked := [], useGlobal := true)
            && (net'.clients[c] == net.clients[c] ||
                (net.clients[c].useGlobal && !net'.clients[c].useGlobal &&
                 forall x :: x in Effective(net', c) <==> x in net.clients[c].blocked || x in net.global))
            && forall x | x in Effective(net, c) :: x in Effective(net', c)
  {
    var steps := Offered(net, mapped);
    if k > 0 {
      MigrationIsGentle(net, mapped, k - 1, c);
      OfferedMembers(net, mapped, k - 1);
      assert steps[..k][..k - 1] == steps[..k - 1];
    }
  }

  method ApplyStep(ag: AdGuard, ghost net: Net, steps: seq<Step>, ghost mapped: seq<Name>, i: nat) returns (ok: bool)
    requires OfferFor(net, mapped, steps) && i < |steps| && Reached(net, ag.net, steps, i)
    modifies ag
    ensures Reached(net, ag.net, steps, i + 1) || (!ok && ag.net == old(ag.net))
    ensures old(ag.faults) <= ag.faults && (ok <==> ag.faults == old(ag.faults))
  {
    ghost var before := ag.net;
    NextStep(net, before, mapped, i);
    var err := ag.MigrateFromGlobal(steps[i].client, steps[i].target);
    KnownClientOutcome(before, ag.net, steps[i].client, Migrate(steps[i].target), err);
    return err.None?;
  }

  /** Writes the offered steps in order, stopping at the first failure; the failed one may or may not have landed. */
  method ApplySteps(ag: AdGuard, steps: seq<Step>, ghost mapped: seq<Name>) returns (migrated: seq<Name>)
    requires OfferFor(ag.net, mapped, steps)
    modifies ag
    ensures Done(migrated, steps)
    ensures Reached(old(ag.net), ag.net, steps, |migrated|) || Reached(old(ag.net), ag.net, steps, |migrated| + 1)
    ensures |migrated| == |steps| <==> ag.faults == old(ag.faults)
    ensures old(ag.faults) <= ag.faults
  {
    migrated := [];
    ghost var net := ag.net;
    for i := 0 to |steps|
      invariant |migrated| == i && Done(migrated, steps)
      invariant Reached(net, ag.net, steps, i) && ag.faults == old(ag.faults)
    {
      var ok := ApplyStep(ag, net, steps, mapped, i);
      if !ok { return; }
      OneMore(migrated, steps);
      migrated := migrated + [steps[i].client];
    }
  }

  ghost predicate OfferFor(net: Net, mapped: seq<Name>, steps: seq<Step>) {
    Distinct(mapped) && steps == Offered(net, mapped)
  }

  /** net' is net with the first n steps applied. */
  ghost predicate Reached(net: Net, net': Net, steps: seq<Step>, n: nat) {
    n <= |steps| && net' == Applied(net, steps[..n])
  }

  /** migrated names the clients of the first steps. */
  ghost predicate Done(migrated: seq<Name>, steps: seq<Step>) {
    |migrated| <= |steps| && forall i | 0 <= i < |migrated| :: migrated[i] == steps[i].client
  }

  lemma OneMore(migrated: seq<Name>, steps: seq<Step>)
    requires Done(migrated, steps) && |migrated| < |steps|
    ensures Done(migrated + [steps[|migrated|].client], steps)
  {
  }

  lemma NextStep(net: Net, before: Net, mapped: seq<Name>, i: nat)
    requires Distinct(mapped) && i < |Offered(net, mapped)|
    requires Reached(net, before, Offered(net, mapped), i)
    ensures var steps := Offered(net, mapped);
            && steps[i].client in before.clients
            && Reached(net, After(before, steps[i].client, Migrate(steps[i].target)), steps, i + 1)
  {
    var steps := Offered(net, mapped);
    OfferedMembers(net, mapped, i);
    MigrationIsGentle(net, mapped, i, steps[i].client);
    assert steps[..i + 1][..i] == steps[..i];
  }

  /** Recomputes the offer from fresh reads and applies it; mapped is the client list it was for. */
  method Apply(ag: AdGuard, st: Store) returns (migrated: seq<Name>, ok: bool, ghost mapped: seq<Name>)
    modifies ag, st`faults
    ensures Distinct(mapped)
    ensures |migrated| <= |Offered(old(ag.net), mapped)|
    ensures forall i | 0 <= i < |migrated| :: migrated[i] == Offered(old(ag.net), mapped)[i].client
    ensures ok ==> (forall c :: c in mapped <==> exists k :: k in st.tables.children && c in k.clients)
    ensures ok ==> |migrated| == |Offered(old(ag.net), mapped)| && Offered(ag.net, mapped) == []
    ensures ag.net == Applied(old(ag.net), Offered(old(ag.net), mapped)[..|migrated|]) ||
            (!ok && |migrated| < |Offered(old(ag.net), mapped)| &&
             ag.net == Applied(old(ag.net), Offered(old(ag.net), mapped)[..|migrated| + 1]))
    ensures ok <==> st.faults + ag.faults == old(st.faults) + old(ag.faults)
  {
    migrated, ok, mapped := [], false, [];
    var listed := st.ListChildren();
    if listed.Err? { return; }
    var res := ag.Clients();
    if res.Err? { return; }
    var names, owner := MappedClients(listed.value);
    mapped := names;
    var steps := Offer(res.value, names);
    ghost var net := ag.net;
    migrated := ApplySteps(ag, steps, names);
    ok := |migrated| == |steps|;
    if ok {
      assert steps[..|steps|] == steps;
      Resumable(net, names, |steps|);
    }
  }
}
