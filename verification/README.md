# Verified model of the grant engine and what it relies on

The program gives children timed access to blocked services by editing the
block lists of their devices in AdGuard Home. This project models the parts
where that can go wrong, in Dafny, and proves what they promise.

## How it is laid out

- `Lists`, `Sets`, `Times`, `Wrappers`: names and ids, canonical lists, small
  helpers.
- `AdGuardHome`: AdGuard's clients and the write client, whose calls may fail
  with the write landed or not.
- `GrantStore`: the tables, and the store's transactions over them.
- `Timeline`, `GrantRuns`, `Sharing`, `Renames`: every change the engine can
  make as one event of a state machine, and what others do: a restart, a child
  edit, a parent's edit in AdGuard itself. The theorems over all its runs are
  conservation, reference counting, never early, never twice, sharing, joining
  and following a device through its renames.
- `GrantEffects`, `Grants`: the engine. Its class changes the store, AdGuard
  and its timers step by step as the program does. A ghost log records each
  change and goes on over restarts; `Engine.Consistent` says that the log is a
  run of the state machine ending in the present state, every method keeps it,
  and so every theorem over runs holds of the engine (the lemmas at the end of
  `Engine.dfy`).
- `Limiter`, `LimiterRuns`, `LimiterBudget`, `LimiterGlobal`, `Login`: the login
  limiter as a class refining a transition function, theorems over all call
  sequences, what it answers in terms of the history alone, and the login
  protocol over all interleavings of any number of requests.
- `ReadModifyWrite`: the mutex around AdGuard's lists, over all interleavings.
- `Migration`: the move off the global list; `MigrationRaces`: what other
  writers between its offer and its steps can cost. `Tap`: the page's tap and
  offer.

## What is worth knowing when reading it

- Operations run under one mutex, so each method is one step. A run's events
  are finer: a run may stop between any two calls of an operation, which is
  what a crash or a failed call leaves behind.
- A timer callback is a call of `Expire(id)`, which any id may get at any time
  and any number of times, stale and duplicate callbacks included.
- `faults` counts calls that failed and `posts` writes sent; the ghost fields
  `calls` and `failed` of `AdGuard` list the clients edits were called for and
  those whose call failed, in order. "Without failures" is `faults` unchanged
  over the call.
- Times are nanoseconds; the store keeps whole seconds, and `WholeSeconds`
  truncates as it does.
- What a transaction does is stated twice: as a function, which the state
  machine and its theorems use, and field by field (`EndMoved`, `AsAsked`,
  `Inserted`, `StatusMoved`, `Joined`, `Followed`, `DeviceAdded`,
  `DeviceMoved`), without it.
- A revert is a union: a service that was not blocked before the grant is
  blocked after it. `AllFinished` states the condition under which lists are
  restored, both ways.
- The comment at internal/adguard/clients.go:180-184 says a parent's
  concurrent edit survives. The mutex is the program's own, so an edit made in
  AdGuard between the read and the write is overwritten; `ParentEditSurvives`
  gives the exact condition, and `ParentEditLost` an input.
- The API reads the migration offer and writes its steps without a lock
  around both. `Migration` takes nothing else to write in between;
  `MigrationRaces` gives the exact condition under which nothing is lost when
  something does, and an input on which it is.
- Conservation along renames loses sight of a device only when something
  other than its grants and whole renames touches it, a rename left half done
  included (`Renames.Next`).
- The 2P - 2 bound of `SlidingWindow` needs the window to be no longer than
  the shortest lockout, as the defaults have it; P is at least 1 and the bound
  is 1 when P is 1.

## Model

| member | source | states |
|---|---|---|
| `Lists.AscendingUnique` | internal/adguard/clients.go:233-237 | two normalised lists are equal when they have the same members |
| `Lists.NormEqual` | internal/adguard/clients.go:202-221 | the no-op test on normalised lists says exactly that the two sets are the same |
| `Lists.Normalise` | internal/adguard/clients.go:233-237 | normaliseIDs: sorting and compacting gives the canonical list of the same members |
| `Lists.BinarySearch` | internal/grants/clients.go:118-126 | binary search over a sorted list is membership |
| `Lists.KeepExact` | internal/grants/reconcile.go:103-111 | filtering keeps the order and how often each member occurs |
| `Lists.FirstsExact` | internal/api/migration.go:36-46 | taking each name where it first occurs keeps the order and repeats none |
| `AdGuardHome.Edited` | internal/adguard/clients.go:202-221 | what each kind of edit leaves in the list and the global flag; ids and every other field verbatim |
| `AdGuardHome.PostedIffChanged` | internal/adguard/clients_write.go:137-168 | a write is sent iff it is a migration, the blocked set changes or, for an adopt, the global flag must be cleared |
| `AdGuardHome.AdGuard.Clients` | internal/adguard/clients.go:49-65 | both reads succeed and give clients and global list, or the call fails |
| `AdGuardHome.AdGuard.UpdateClient` | internal/adguard/clients.go:253-288 | an unknown client or an unchanged one is not written; a done call leaves the edit; a failed one leaves the edit or nothing |
| `AdGuardHome.AdGuard.AddBlockedServices` | internal/adguard/clients.go:194-198 | set union on the one client, at most one write, none when nothing changes |
| `AdGuardHome.AdGuard.RemoveBlockedServices` | internal/adguard/clients.go:185-189 | set difference on the one client, at most one write, none when nothing changes |
| `AdGuardHome.AdGuard.AdoptBlockedServices` | internal/adguard/clients_write.go:137-168 | the list becomes the effective list plus the ids, and the client its own |
| `AdGuardHome.AdGuard.MigrateFromGlobal` | internal/adguard/clients.go:164-174 | the list becomes exactly the ids and the client leaves the global list |
| `AdGuardHome.AdGuard.AddClient` | internal/adguard/clients_write.go:55-87 | a taken name, or an id some client holds by sameID, whatever relation that is, is refused before any write, whichever is met first; otherwise one new client with the ids and fields given, the normalised list given as its own or the global one inherited, the others unchanged |
| `AdGuardHome.AdGuard.RenameClient` | internal/adguard/clients_write.go:94-130 | the client moves to a free name with every field as it was, and no other client changes; or nothing does and the reason is given |
| `GrantStore.InsertKeepsWf` | internal/store/grants.go:49-96 | a grant inserted over free slots keeps one active grant per child and service and the active flags in step |
| `GrantStore.RenameKeepsWf` | internal/store/clients.go:29-75 | following a rename keeps every table invariant |
| `GrantStore.InsertGrantInserts` | internal/store/grants.go:49-96 | the row inserted is the grant asked for, times to the second and lists without duplicates, and the insert adds it and its live slots and nothing else |
| `GrantStore.RenameFollows` | internal/store/clients.go:29-75 | the rename's updates change client names alone: in each active grant and each child the old name becomes the new one, or goes if that is there |
| `GrantStore.AddedJoins` | internal/store/clients.go:82-108 | a single insert: the child maps the new name besides all it mapped before, and no other child changes |
| `GrantStore.TakenIsActive` | internal/store/grants.go:49-96 | a live slot of a child and service is exactly an active grant of that child with that service |
| `GrantStore.Store.CreateGrant` | internal/store/grants.go:49-96 | a taken slot is refused, the lowest overlapping service and its grant named, and nothing changes; otherwise one new active grant of the child with the services and clients asked for, started and ending at the times given, to the second, and all else as it was |
| `GrantStore.Store.ListActiveGrants` | internal/store/grants.go:99-109 | all active grants, each once, by id |
| `GrantStore.Store.GetGrant` | internal/store/grants.go:112-122 | the stored grant, or not found |
| `GrantStore.Store.ExtendGrant` | internal/store/grants.go:126-148 | an active grant's end becomes the time given, to the second, and nothing else of it or of the tables changes; otherwise not found and nothing changes |
| `GrantStore.Store.SetGrantStatus` | internal/store/grants.go:154-185 | compare-and-set of the status, the time recorded when it leaves active; the grant's slots follow it out of the live set or back in, unless another active grant of the child has one of its services; nothing else changes, and failure changes nothing |
| `GrantStore.Store.ClientOwners` | internal/store/clients.go:113-133 | the ids of exactly the children mapping the name, ascending |
| `GrantStore.Store.AddChildClient` | internal/store/clients.go:82-108 | a client joins one child, whose other clients stay, as do all other children and grants, unless another child has it, and then the lowest owner is named; a child that has it already is left alone |
| `GrantStore.Store.Intruder` | internal/store/clients.go:146-153 | the lowest child that maps the new name but not the old one, or none exists |
| `GrantStore.Store.MoveRows` | internal/store/clients.go:29-75 | every owner's row moves to the new name, or goes when the new one is there already |
| `GrantStore.Store.RenameClient` | internal/store/clients.go:29-75 | mappings and the clients of active grants follow the rename whole, every other field of every grant, finished grants and grants on neither name as they were; or nothing changes and the first outsider is named |
| `Timeline.ValidStep` | internal/store/grants.go:49-96 | every change keeps the table invariants, and timers only for active grants |
| `Timeline.ReachableValid` | internal/store/grants.go:154-185 | in every reachable state: one active grant per child and service, active flag equal to its grant's status, timers only for active grants |
| `Timeline.OnTimeStep` | internal/grants/grants.go:354-372 | no armed timer is due later than its grant's end, or than the clock when that has passed; a new end leaves that grant's timer alone to be replaced |
| `GrantRuns.NeverTwice` | internal/store/grants.go:154-185 | over any run a grant leaves active at most once, and a finished grant is never touched again |
| `GrantRuns.NeverEarly` | internal/grants/grants.go:239-284 | over any run a grant marked expired had reached its final ends_at |
| `GrantRuns.ConservedStep` | internal/grants/grants.go:207-233 | each change preserves conservation, including the states in the middle of an operation |
| `GrantRuns.LastOneReverted` | internal/grants/grants.go:268-284 | when the last grant covering a service finishes, the service is back in the list |
| `GrantRuns.Conservation` | internal/grants/grants.go:148-340 | over any run with any failing calls, restarts, and anything done to other clients, a service no active grant covers on a client is in its list iff it was at the start or a finished grant covered it there |
| `GrantRuns.AllFinished` | internal/grants/grants.go:197-233 | once nothing is active each list is initial plus granted, so it is restored iff everything granted there was blocked before |
| `GrantRuns.NothingNewActive` | internal/grants/reconcile.go:32-100 | ending, expiry and passes activate nothing and change no grant's services or clients |
| `GrantRuns.CoverIsOld` | internal/grants/grants.go:268-340 | what covers a service on a client after a run without a new grant covering it there did so before |
| `GrantRuns.RefCounted` | internal/grants/shared.go:20-50 | over any run without a new grant covering the service there, and whatever happens to other clients, what is put back on a client is covered at the end by no active grant but the one that was being reverted |
| `Sharing.AdoptIsGentle` | internal/grants/clients.go:82-126 | adopting never shrinks what a client effectively blocks and never newly blocks what an active grant covers there |
| `Sharing.AdoptedBlocksBaseline` | internal/grants/clients.go:72-180 | once no active grant covers it, an adopted device blocks its old effective set and the whole baseline, and beyond these only what finished grants covered |
| `Sharing.HeldThenFinished` | internal/grants/grants.go:268-340 | a grant that covered a service and no longer does has finished |
| `Sharing.JoinerBlocksSiblings` | internal/grants/clients.go:39-70 | a device created for a child blocks, once nothing active covers it there and with no new grant covering it on the sibling, everything each known sibling blocks, whatever happens to other devices |
| `Sharing.JoinerBlocksJust` | internal/grants/clients.go:147-180 | and it then blocks exactly the siblings' lists of that moment, the global one when no sibling is known, the services of active grants of the child or on a known sibling, and what finished grants covered on it since |
| `Sharing.RenameMovesCover` | internal/store/clients.go:29-75 | active cover moves from the old name to the new one, joined with what that had; finished grants keep their names |
| `Sharing.RenameMovesOwners` | internal/store/clients.go:29-75 | after a rename no child maps the old name and exactly the owners of either map the new one |
| `Renames.AlongStep` | internal/grants/rename.go:26-53 | every change keeps conservation along a device's names, between the two halves of a rename too |
| `Renames.ConservationAlong` | internal/grants/rename.go:26-53 | through any number of renames, done or undone, a service nothing covers on the device is in its list iff it was at the start or a finished grant covered it there under the name of the time |
| `Renames.GoneIsReverted` | internal/grants/grants.go:221-231 | after a half rename a grant is as good as reverted when it is on its other clients: the device of the old name counts as gone |
| `Renames.HalfRenameCost` | internal/grants/rename.go:42-52 | after a rename left half done a service nothing covers under the new name is blocked iff it was then or a grant naming the device by the new name covered it and finished since |
| `Renames.HalfRenameLeavesOpen` | internal/grants/rename.go:42-52 | the input on which a half rename leaves a service open for good |
| `GrantEffects.HeldOpen` | internal/grants/shared.go:40-50 | exactly the services another active grant covers on the client |
| `GrantEffects.RevertPlan` | internal/grants/shared.go:20-35 | per client just the grant's services nothing else holds open; a fully held client is left out |
| `GrantEffects.PlanIsReturns` | internal/grants/shared.go:20-35 | the plan computed from the active grants is the reference count over the tables; when everything is held it is empty |
| `GrantEffects.Except` | internal/grants/clients.go:118-126 | the members of the baseline that are not held, in order |
| `GrantEffects.Intersect` | internal/grants/reconcile.go:103-111 | the granted services still in the client's list |
| `GrantEffects.BaselineOf` | internal/grants/clients.go:147-180 | siblings' effective lists, or the global list when none is known, with the services of active grants of the child or on a known sibling |
| `GrantEffects.RevertCall` | internal/grants/grants.go:221-231 | one call of a revert moves only its own client, and all the way when it succeeds or the client is gone |
| `GrantEffects.LiveUntouched` | internal/grants/reconcile.go:60-71 | reverting an overdue grant gives back nothing a live grant covers, so the snapshot stays good for repairing it |
| `GrantEffects.PassExpired` | internal/grants/reconcile.go:60-71 | an overdue grant's turn keeps what the pass has done and what is ahead of it |
| `GrantEffects.PassRepaired` | internal/grants/reconcile.go:72-99 | a live grant's turn leaves it without drift and with a timer, although drift is read from the first snapshot |
| `GrantEffects.PassConverged` | internal/grants/reconcile.go:32-100 | a pass without failures leaves nothing to do: overdue grants expired, no drift, every timer armed |
| `GrantEffects.PassEnds` | internal/grants/reconcile.go:32-100 | and blocks, on each known client, what only grants that the pass expired covered |
| `GrantEffects.RenameBack` | internal/grants/rename.go:42-52 | renaming there and back leaves AdGuard as it was |
| `Grants.Engine.constructor` | internal/grants/grants.go:111-133 | a new engine has no timers and an empty history |
| `Grants.Engine.Arm` | internal/grants/grants.go:354-364 | the grant's timer is replaced by one due at its end, or now if that has passed; none once closed |
| `Grants.Engine.Revert` | internal/grants/grants.go:207-233 | Add is called for exactly the clients on which something comes back, in order, and never for a fully held one; every client is put back fully or, its call having failed, reported |
| `Grants.Engine.ExpireLocked` | internal/grants/grants.go:268-284 | expired exactly when fully reverted and the status written; otherwise the grant stays active as it was |
| `Grants.Engine.Expire` | internal/grants/grants.go:239-262 | a callback changes tables or AdGuard only for an active grant past its end, which becomes expired with the time recorded and everything put back; it re-arms an early one, and writes nothing for a finished one |
| `Grants.Engine.Extend` | internal/grants/grants.go:288-305 | an active grant's end moves by the duration, forward or back, to the second, nothing else of the tables changes, and the timer moves with it; a failure changes neither |
| `Grants.Engine.End` | internal/grants/grants.go:313-340 | ended, the time recorded, with every client put back, or still active with its timer, the failed clients named; no other grant changes |
| `Grants.Engine.Unblock` | internal/grants/grants.go:166-195 | every client with its own list is opened or its call failed; exactly these and the inheriting and unknown ones, left alone, are reported |
| `Grants.Engine.Create` | internal/grants/grants.go:148-162 | a refused create changes nothing but the clock and names an active grant of the child with a service asked for; otherwise the grant asked for is stored, from now until the duration later, its devices opened or reported, its timer armed |
| `Grants.Engine.PassOverdue` | internal/grants/reconcile.go:60-71 | an overdue grant's turn of a pass; it leaves active iff the turn says so |
| `Grants.Engine.PassLive` | internal/grants/reconcile.go:72-99 | a live grant's turn of a pass; nothing is written without drift |
| `Grants.Engine.Reconcile` | internal/grants/reconcile.go:32-100 | without failures the pass converges; on a settled state it sends no write and changes nothing; its counts are the active grants, those that left active, the repairs made and the writes called for |
| `Grants.Engine.AdoptClients` | internal/grants/clients.go:82-115 | each known client being added gets the baseline less what is open there; unknown ones are skipped; the first failure stops it and its client is the one named |
| `Grants.Engine.CreateClient` | internal/grants/clients.go:39-70 | a device is created with the ids and fields given; a child's gets the baseline as its list and joins the child's others, any other inherits; an unknown child is refused before AdGuard is asked |
| `Grants.Engine.CheckRename` | internal/grants/rename.go:60-71 | refuses exactly the mappings the store's transaction would, naming the same child, and writes nothing |
| `Grants.Engine.RenameClient` | internal/grants/rename.go:26-53 | everything under the new name and otherwise as it was, or everything as it was, unless undoing fails too, and then only AdGuard has moved |
| `Grants.Engine.Close` | internal/grants/grants.go:344-351 | all timers stopped, tables and AdGuard untouched |
| `Grants.Engine.Restart` | internal/grants/grants.go:111-133 | a new engine over what the last one left: no timers, and the history goes on |
| `Grants.Engine.EditChildren` | internal/store/children.go:167-194 | a child edit between the engine's critical sections |
| `Grants.EngineConserves` | internal/grants/grants.go:148-340 | conservation between any two moments, restarts and edits of other devices included, of a device touched by no more than its grants |
| `Grants.EngineConservesAlong` | internal/grants/rename.go:26-53 | the same of a device renamed any number of times |
| `Grants.RenameKeepsTrack` | internal/grants/rename.go:26-53 | a rename done or undone keeps track of every device; only one left half done does not |
| `Grants.EngineHalfRenamed` | internal/grants/rename.go:42-52 | what a rename left half done costs, on the engine's own history |
| `Grants.EngineRefCounts` | internal/grants/reconcile.go:60-71 | reference counting between any two moments with no new grant covering the service there and the client touched by no more than its grants |
| `Grants.EngineNeverEarly` | internal/grants/grants.go:239-305 | however callbacks fire: no grant expires before its end, or leaves active twice |
| `Grants.EngineAdopted` | internal/grants/clients.go:82-115 | a device AdoptClients wrote to blocks its old set and the baseline once nothing covers it |
| `Grants.EngineJoined` | internal/grants/clients.go:39-70 | a device CreateClient assigned blocks what its siblings do once the grants of that moment are over, whatever happens to other devices |
| `Limiter.CeilSeconds` | internal/ratelimit/limiter.go:214-223 | the least whole number of seconds that is enough |
| `Limiter.RateLimiter.Normalize` | internal/ratelimit/limiter.go:161-173 | after a lockout's end a window from before it is dropped, and the trips too once the reset time has passed |
| `Limiter.RateLimiter.Check` | internal/ratelimit/limiter.go:103-118 | the verdict and the state follow the transition function of the run theorems, whose answers `LimiterGlobal.CheckExact` states from the history |
| `Limiter.RateLimiter.Fail` | internal/ratelimit/limiter.go:123-156 | as for Check; a failure during the lockout is not counted, any other is, for its IP and globally (`LimiterGlobal.CountedIff`, `LimiterGlobal.GlobalCountIs`) |
| `Limiter.RateLimiter.Prune` | internal/ratelimit/limiter.go:191-204 | exactly the entries that can still matter stay |
| `LimiterRuns.PrunedIsBlank` | internal/ratelimit/limiter.go:191-204 | an entry is pruned iff it is indistinguishable from no entry from then on |
| `LimiterRuns.PruneTransparent` | internal/ratelimit/limiter.go:103-204 | for any calls over a non-decreasing clock and any prunes, Check answers as a limiter that never prunes |
| `LimiterRuns.ReachableEntries` | internal/ratelimit/limiter.go:161-173 | every reachable open window starts at or after the last lockout's end |
| `LimiterRuns.RetryAfterTight` | internal/ratelimit/limiter.go:103-118 | retry-after is whole seconds and less than one second beyond the end of the condition that denied |
| `LimiterRuns.DenialStable` | internal/ratelimit/limiter.go:103-118 | a denied IP stays denied, under any calls, up to one second before its retry-after |
| `LimiterRuns.DenialLapses` | internal/ratelimit/limiter.go:175-223 | by the retry-after the condition has lapsed, if no failure came after its end |
| `LimiterBudget.HitsFit` | internal/ratelimit/limiter.go:140-155 | counted failures are numbered within their windows, each within a window's length of its first, and the next window starts only after that, or after the lockout, over rollovers, lockouts and prunes |
| `LimiterBudget.SlidingWindow` | internal/ratelimit/limiter.go:123-156 | any half-open interval of the window's length holds at most 2P - 2 counted failures of one IP |
| `LimiterBudget.Escalation` | internal/ratelimit/limiter.go:144-173 | each lockout lasts min(Base * 2^min(k-1, 6), Max), k being the length of its chain of trips |
| `LimiterBudget.ClampInvisible` | internal/ratelimit/limiter.go:49-52 | clamping the exponent changes no lockout when Max is at most 64 Base |
| `LimiterBudget.ClampExact` | internal/ratelimit/limiter.go:49-52 | and only then |
| `LimiterGlobal.CountedIff` | internal/ratelimit/limiter.go:123-156 | over any timed calls a failure is counted exactly when the last lockout its IP was given has ended |
| `LimiterGlobal.OpenerSplits` | internal/ratelimit/limiter.go:135-139 | global windows follow one another: each failure is within a window's length of the one that opened its window, and the next window opens a full length later or more |
| `LimiterGlobal.GlobalCountIs` | internal/ratelimit/limiter.go:135-139 | over any timed calls and prunes the global count is the number of counted failures, of any IP, since the last window opened, and 0 when none has |
| `LimiterGlobal.CheckExact` | internal/ratelimit/limiter.go:103-118 | over any timed calls Check denies exactly while the IP's last lockout lasts or the open global window holds as many counted failures as the cap, and its retry-after is whole seconds and less than one second past the end of that |
| `LimiterGlobal.CapSlides` | internal/ratelimit/limiter.go:175-180 | when no window ever holds more than the cap G, any half-open interval of the window's length holds at most 2G - 1 counted failures |
| `Login.RefusalAccounted` | internal/api/login.go:59-99 | each time AdGuard answers bad credentials, that login is from then on the one in flight or counted, with the time of the answer |
| `Login.EveryRejectionCounted` | internal/api/login.go:59-99 | over every interleaving the logins AdGuard refused are those counted, once each and never in their IP's lockout, and the one in flight; the global count keeps its cap |
| `Login.GuessesBounded` | internal/api/login.go:59-99 | however many clients race, AdGuard refuses at most 2P - 2 passwords from one IP in any interval of the window's length, by the time of its answer |
| `Login.AskedIff` | internal/api/login.go:59-99 | a login is put to AdGuard exactly when neither check denies it by the calls so far; one denied, or answered with anything but bad credentials, is over, frees the slot and counts nothing |
| `Login.SlotFrees` | internal/api/login.go:66-71 | whoever holds the slot can leave it, in at most two moves of its own and leaving every other login where it is |
| `Login.WaitingIsDecided` | internal/api/login.go:66-76 | from every reachable state a waiting login can be checked again within four moves, without waiting for time to pass: the slot is never stuck |
| `Login.CapBounds` | internal/api/login.go:59-99 | however many clients race from however many IPs, at most 2G - 1 refused passwords are counted in any interval of the window's length, G being the global cap |
| `ReadModifyWrite.LostUpdateFree` | internal/adguard/clients.go:253-288 | over every interleaving and any failures the clients are the effective edits applied one by one in lock order; a writer told done has exactly one among them, one told not found none |
| `ReadModifyWrite.AllAnswered` | internal/adguard/clients.go:253-288 | when every call is answered the effective edits are those of all writers that ended, but for unknown clients |
| `ReadModifyWrite.ParentEditSurvives` | internal/adguard/clients.go:180-184 | a parent's block or unblock of an unrelated service survives a concurrent Add or Remove iff it comes before the writer's read or the writer has nothing to change |
| `ReadModifyWrite.ParentEditLost` | internal/adguard/clients.go:180-184 | the input on which it is lost |
| `Migration.MakeStep` | internal/blocked/blocked.go:171-197 | a step's gains are the global ids the client lacks, its target both lists together, in canonical form |
| `Migration.Offer` | internal/blocked/blocked.go:171-197 | one step for each mapped, known, inheriting client, once and in order, with the global ids its own list lacks as gains and both lists as target; none when the global list is empty |
| `Migration.MappedClients` | internal/api/migration.go:27-55 | the children's clients in order, each where it first occurs and under that owner |
| `Migration.FirstStep` | internal/api/migration.go:71-89 | applying the first step offered leaves exactly the rest to offer |
| `Migration.Resumable` | internal/api/migration.go:71-89 | after any prefix of the offer a fresh offer is exactly the remaining steps |
| `Migration.MigrationIsGentle` | internal/adguard/clients.go:164-174 | with no other write in between, no client's effective list shrinks, the global list and all other fields stay, and a migrated client blocks both lists together |
| `Migration.Apply` | internal/api/migration.go:71-89 | with no other write in between, the steps applied in order up to the first failure; a completed run's next offer is empty |
| `MigrationRaces.LateStep` | internal/api/migration.go:71-89 | a step written later than its offer was read loses nothing the client blocks iff the client still inherits or its own list has come by nothing the offer had not seen |
| `MigrationRaces.AdoptedInBetween` | internal/api/migration.go:71-89 | with one AdoptClients write in between, iff that adds only ids of the client's own list or the global one |
| `MigrationRaces.StepAmongWriters` | internal/api/migration.go:71-89 | over any interleaving of writers after the read: iff no edit before the step took the client off the global list, or none left an unseen id on its own |
| `MigrationRaces.GrantsAreHarmless` | internal/api/migration.go:71-89 | adds and removes, all that grants do, in between lose nothing |
| `MigrationRaces.StepLosesAnAdoption` | internal/api/migration.go:71-89 | a reachable state in which a step has taken away what an adoption had added |
| `Tap.OverlapsFor` | web/src/lib/grants.ts:55-62 | the child's grants sharing a tapped service, by id, and the tapped services no grant of the child covers, in tap order |
| `Tap.OfferSplits` | web/src/lib/grants.ts:55-62 | from a list with no service in two grants of a child, the offer puts each tapped service in exactly one place |
| `Tap.RestCovers` | web/src/lib/tap.ts:115-134 | whichever targets had ended, each tapped service is in an extended target or in what is created |
| `Tap.RestIsTheComplement` | web/src/lib/tap.ts:115-134 | for an offer that splits the tap, exactly the services in no extended target are created |
| `Tap.Page.Merge` | web/src/lib/activeGrants.ts:42-48 | the grant takes the place of the first with its id, or is added at the end; the others stay as they are |
| `Tap.Page.Create` | web/src/lib/tap.ts:68-81 | one POST, for the tap's child and duration; a conflict is handed back untouched, another refusal is the error, and a grant is reported applied, or partial with the clients that failed, as asked for and begun its duration before the end the server gave |
| `Tap.Page.RunTap` | web/src/lib/tap.ts:94-107 | a tap whose key is in flight sends nothing; any other posts once, its child, services and duration, and only a conflict becomes an offer: of the grants known to overlap, else of the one the server named, else the error |
| `Tap.Page.ExtendAll` | web/src/lib/tap.ts:117-131 | targets are sent an extend for the tap's duration, by ascending id, each once; exactly those answered not found hand their tapped services back, and the first other failure stops it |
| `Tap.Page.AcceptOffer` | web/src/lib/tap.ts:115-141 | from the server's answers alone: what is sent, what is created and what is reported; ending applied or partial, each tapped service is in a target extended or in the one grant created, and an error creates nothing |

## Left out

- Names, service ids and addresses are natural numbers: the code compares and orders them only. Trimming and dropping of empty names at the API is not modelled, and `sameID` is an arbitrary relation.
- HTTP, JSON, SQLite, sessions, cookies, configuration, the health probe and the page's components: plumbing. A request or transaction is one step that may fail.
- Timer identity: a timer is its grant and due time. Since a callback may come for any id at any time, which timer sent it makes no difference to what is proved.
- A failed store transaction is taken to have rolled back, and a failed AdGuard rename not to have landed; other failed AdGuard writes may have landed.
- AdGuardHome.AdGuard.AddClient: when several clients hold one of the ids, which is reported follows AdGuard's order, and the model names some holder; so is whether a taken name or a taken id is met first.
- Edits outside the engine's mutex, of children or in AdGuard, happen between its operations; the rename results are for one fixed mapping during the call.
- Integer overflow: durations and counters are unbounded, so a base lockout near 2^63 / 64 nanoseconds is not covered.
- Limiter defaults: `New` replacing zero fields by defaults is not modelled; the theorems hold of any configuration meeting their stated conditions.
- The limiter's entries are values of a map, not shared records, and its mutex makes each call one step.
- `blocked.Compute`, the read-only view, and `Engine.List`: they change nothing.
- Logging.
- Migration.Apply: takes nothing else to write between the read of the offer and the last step, as `Migration.MigrationIsGentle` does; `MigrationRaces` is about what happens otherwise, one step at a time.
- Migration.MigrationIsGentle: the same.
- Login.EveryRejectionCounted: a rejection is one whose reply arrives; a lost reply is an unreachable AdGuard, which the code does not count either.
- Taps racing on the page: the key in flight is checked on entry and released at the end, and other taps in between are not interleaved.
- Liveness: that a failed revert is eventually retried is the scheduler's matter; a pass without failures is shown to finish the work.
