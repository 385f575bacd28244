# The protocols of the Virtualis master, in Dafny

The master keeps rows in a shared database and drives agents that may fail, apply a request and lose
the reply, or apply it late. This project models the protocols that keep the rows and the runtimes on
the agents consistent, and proves what they are for. `dafny verify dfyconfig.toml` checks all of it.

How the code is modelled:

- One SQL statement, or one transaction, is one atomic step; unique indexes are enforced; a failing
  statement has no effect. A request to an agent is confirmed, refused, or applied with the reply lost
  (`Common.Outcome`); where the code keeps the fence after an error, the request may also be applied
  later. A process can die between any two steps.
- Protocols that several processes run at the same time are state machines: a datatype `State`,
  `Enabled` and `Step` per event, and runs as sequences of events. Every theorem about runs is for
  all runs, of any length and with any interleaving.
- Code that one process runs under a lock or a fence keeps its imperative form: `Migration.Migrator` is
  the migration with its flags, early returns and deferred cleanup; `GuardedOperation.Service` begins and
  finishes an operation on the columns, the records and the in-memory entry; `LoginTracker.Tracker` and
  `Revocation.PersistentRevocationList` are the classes with their maps, `LoginSource.Source` the record whose
  slice is filtered and trimmed in place; the port scan, the firewall
  merge, the range of a network and the specification of an instance are methods with their loops and
  reassignments; `VpcService.Worker` creates and deletes a network. Each is proved against a specification. Where that is a function which goes the same steps
  on values (`NatTable.ReserveRows`, `LoginHistory.AccountFailure`, `SourceFailure`, `AccountsAfter`), further
  lemmas say what it computes without following it.

The files:

| file | content |
|---|---|
| `Lifecycle.dfy` | one guest: its row, the durable fence, the runtimes that really exist, the migration and its cleanup |
| `Migration.dfy` | the migration as one process runs it, proved to be a run of the life of the guest |
| `NatTable.dfy`, `PoolTable.dfy`, `VpcTable.dfy` | forwardings, dedicated addresses and virtual networks, and what each step of a guest does to them |
| `Cluster.dfy`, `ClusterSafety.dfy` | everything together: any number of guests, networks, addresses and administrators |
| `VpcService.dfy` | creating and deleting a network as one process runs it, against the table's state machine |
| `ClusterLedger.dfy` | who owns what in every run, and that every change is one that somebody asked for |
| `ClusterRuns.dfy` | which states a run can reach |
| `Eviction.dfy`, `Clearing.dfy` | who holds a network for ever, and how everybody else can be led to leave it |
| `LateCleanup.dfy`, `LateCleanupExample.dfy` | what the cleanup after a failed closing read does to networks, and a run from the empty database |
| `OperationGuard.dfy` | the fence and the idempotency records of one instance, statement by statement, for all processes |
| `GuardedOperation.dfy` | beginning and finishing an operation as one process runs it, against that state machine |
| `Powers.dfy`, `LoginLimit.dfy`, `LoginHistory.dfy` | the lock of the login limiter, and the complete history that its records stand for |
| `LoginSource.dfy`, `LoginSourceTable.dfy`, `LoginTracker.dfy` | the records of the sources with their slices changed in place, their map, and the tracker |
| `Revocation.dfy` | session revocations: one table, any number of replicas with caches |
| `StableSort.dfy`, `FirewallMerge.dfy`, `FirewallSync.dfy` | the merged firewall, and the agreement on its revision |
| `FirewallHistory.dfy` | the last word of every writer, and what an acknowledged firewall says |
| `Watcher.dfy` | readiness watchers against operations that replace the guest |
| `VpcRange.dfy` | the DHCP range of a network in unsigned 32-bit arithmetic |
| `Resize.dfy` | specifications, their validation, and interleaved resizes |

## What the proofs found

The code is modelled as it is. Where a natural promise fails, a lemma shows it and another says exactly
when it holds.

- The closing read of a migration (`internal/service/migration.go:313-314`) runs with `preserve` already
  false. If it fails, the cleanup deletes the target after the source is gone
  (`Lifecycle.FailedClosingReadLosesTheGuest`). The guest survives every continuation if and only if the
  read succeeds (`Lifecycle.SurvivalTurnsOnTheClosingRead`); an error of the deletion saves nothing, since
  it may still be applied (`Lifecycle.RefusedDeletionMayStillCome`). When that cleanup records that the
  deletion failed, a completed migration is unfinished again
  (`ClusterSafety.ReopenedExactlyByLateCleanup`), and its source network may be gone by then
  (`LateCleanupExample.UnfinishedMigrationWithoutNetwork` is a run from the empty database that ends so).
  References to networks stay usable if and only if the read succeeds, or the migration has no source
  network, or that network is still usable and somebody holds it for ever: an instance on it, or an unfinished
  migration, whose operation has ended with the fence kept (`LateCleanup.NetworksTurnOnTheClosingRead`).
- Beginning an operation reads the record and counts the fence in separate statements
  (`internal/service/operation_guard.go:103-125`). A retry that falls between them can run a succeeded
  body again (`OperationGuard.StaleRetryRunsTheBodyTwice`). `OperationGuard.FreshIffSound` gives the exact
  condition event by event; begins that are not interrupted meet it
  (`OperationGuard.UninterruptedBeginsRunOnce`).
- A reinstall whose update fails (`internal/service/virtualis.go:812`) and a restored backup
  (`internal/service/backup_restore.go:48`) let go of the fence without a new generation. A watcher's stale
  reply is then written, and it is written in no other case (`Watcher.StaleReplyIsWrittenIff`);
  `Watcher.StaleReplyIsWritten` has a run for each.
- A process that dies while it creates or deletes a network leaves a row that nobody can use, change or delete any more
  (`VpcTable.StuckForEver`). No network is ever left without a row (`ClusterLedger.NetworksAreNeverOrphaned`).
- The default DHCP range wraps around in the last 250 addresses of the address space, and the network is
  then refused (`VpcRange.NormalizeRange`, `VpcRange.LastSubnetsWrap`).
- An acknowledged firewall revision is what is stored, but a request that failed and is applied later can
  still replace it on the agent (`FirewallSync.LateRequestDefeatsTheRevision`). Wherever the operation has
  come to, a late request leaves the agreement intact in every continuation if and only if it carries what
  is stored, or the instance is pending and not about to be acknowledged
  (`FirewallSync.LateRequestIsHarmlessIff`).

## Model

| member | source | states |
|---|---|---|
| Lifecycle.GuestOkStep | internal/service/migration.go:181-315 | every step of a guest's life, crashes and late replies included, keeps the runtimes of its migration phase and the agent its row points to |
| Lifecycle.GuestSurvives | internal/service/migration.go:214-314 | in every run without a failed closing read some agent holds a runtime of a guest nobody asked to purge, and with the fence free exactly the agent of the row does; taken that a failing reinstall, restore or power request does not remove the runtime, and that creations and purges answered with an error are not applied later; those of a process that died may be |
| Lifecycle.ExpectedIffConfirmed | internal/service/migration.go:149-181 | the guests that these theorems speak of: an agent has confirmed a runtime, or a migration has begun, and nobody has asked for a purge since |
| Lifecycle.SurvivalTurnsOnTheClosingRead | internal/service/migration.go:185-314 | at the closing read of any run: the guest keeps a runtime in every continuation without another failed closing read if and only if the read succeeds |
| Lifecycle.RefusedDeletionMayStillCome | internal/service/migration.go:196-201 | an error of the late deletion is no reprieve: it may be applied afterwards and leave no runtime |
| Lifecycle.SmoothMigrationReachesTheClosingRead | internal/service/migration.go:214-313 | every operation that can reserve can reach the closing read, so the case above does occur |
| Lifecycle.FailedClosingReadLosesTheGuest | internal/service/migration.go:313-314 | a concrete run that loses the guest although everything but the closing read succeeded |
| Lifecycle.BoundRuntimeIsKept | internal/service/migration.go:275-306 | no step except a purge, late or not, takes the runtime the row points to; the row moves only at the switch and only to a confirmed runtime; the source goes after the switch, the target never after it |
| Lifecycle.DoubleRuntimeIsFenced | internal/service/migration.go:185-213 | while two runtimes may exist the migration holds the fence, they are its source and target, and no operation can begin |
| Lifecycle.RetainedFenceIsNeverStolen | internal/service/operation_guard.go:271-283 | once retained, a fence keeps its token and phase and the row its agent and network for ever; only late replies still happen |
| Lifecycle.CrashIsTheEnd | internal/service/operation_guard.go:271-283 | a process that dies does nothing more: fence, phase, agent and network stay, and only requests it had sent may still be applied |
| Lifecycle.RuntimesAreTheLastApplied | internal/service/migration.go:214-306 | after any run an agent has a runtime exactly if the last request that was applied there, answered or not, made it |
| Migration.Migrator.Do | internal/service/migration.go:181-315 | every statement and request of the code is an enabled event of the guest's life and extends its run |
| Migration.Migrator.Export | internal/service/migration.go:214-235 | any failure up to the archive leaves the source alone and only reservations to release; each of the four answers is needed |
| Migration.Migrator.Import | internal/service/migration.go:236-249 | an import error sets preserve and leaves the target in doubt; imported is set exactly on a confirmed import |
| Migration.Migrator.Check | internal/service/migration.go:250-262 | a target that does not answer, or is another instance or not stopped, fails the migration and is to be cleaned up with both runtimes still there; success needs every one of these answers |
| Migration.Migrator.SwitchOwnership | internal/service/migration.go:267-298 | preserve is set from here on; the row moves to the target exactly if all three statements commit, and failure keeps the row and both runtimes |
| Migration.Migrator.LeaveSource | internal/service/migration.go:299-309 | exactly a confirmed deletion releases the reservations of the source; anything else stops in doubt |
| Migration.Migrator.Close | internal/service/migration.go:310-314 | preserve is cleared exactly when the archive is gone, and a failing read then enters the late cleanup |
| Migration.Migrator.Body | internal/service/migration.go:214-314 | it returns without error exactly if every answer up to the closing read is good; at every return the flags preserve and imported tell the phase the guest is really in |
| Migration.Migrator.CleanUp | internal/service/migration.go:185-213 | the target is deleted exactly if it was imported and nothing is to be preserved; a deletion that is not confirmed retains the fence whether or not the statement that records it commits; reservations are released and the failure is recorded exactly if the target is gone |
| Migration.Migrator.Release | internal/service/migration.go:203-212 | reservations go before the migration counts as failed; if they cannot go the fence is kept |
| Migration.Migrator.Carry | internal/service/migration.go:181-315 | after the reservation, body and deferred cleanup do exactly what the answers call for, request by request, and retain the fence exactly if the outcome stays in doubt |
| Migration.Migrator.Finish | internal/service/operation_guard.go:233-284 | the fence is free afterwards exactly if nothing was retained, the outcome was logged and recorded, and the release succeeded |
| Migration.Migrator.Migrate | internal/service/migration.go:22-315 | over every combination of answers: no error exactly if all are good; an import, the switch, the deletion of the source (so only of one whose target was verified), the deletion of the target, the releases and the records happen each exactly under its condition; the fence is free exactly if nothing stays in doubt; success leaves exactly the target, an error that frees the fence exactly the source as it was |
| Migration.HappenedIff | internal/service/migration.go:181-315 | what the contracts say has happened is an event of the recorded run |
| NatTable.AllocatePort | internal/service/virtualis.go:1447-1462 | the scan returns the least port of the range that no row of the agent uses, or nothing if all are used |
| NatTable.ReserveTargetRows | internal/service/migration.go:159-173 | the reservation loop computes the table that the lemmas below are about |
| NatTable.LeastFreeIsUnique | internal/service/virtualis.go:1447-1462 | the least free port is determined by the table, so the scan and its specification agree |
| NatTable.ReservedRows | internal/service/migration.go:159-173 | a reservation keeps all rows and the unique index and adds only target rows of old rows |
| NatTable.ReservedShapes | internal/service/migration.go:159-173 | it adds one reserved row for each old row, same shape and order, and no other list of forwardings changes |
| NatTable.ReservedPorts | internal/service/migration.go:159-173 | row for row, a reservation appends a copy of each old row in order, on the least port from 20000 to 29999 that no row before it uses on the target |
| NatTable.DropRowTakesOne | internal/service/virtualis.go:1541-1568 | deleting a forwarding takes exactly that row out of its place |
| NatTable.ReservationFailsOnlyWhenExhausted | internal/service/migration.go:159-163 | a reservation fails only when every port from 20000 to 29999 of the target is in use |
| NatTable.SwitchKeepsShapes | internal/service/migration.go:288-293 | the ownership switch leaves the user the same forwardings in the same order |
| NatTable.VisibleConserved | internal/service/migration.go:288-336 | no event of any guest changes the forwardings any user sees |
| NatTable.AllSourceMirroredStep | internal/service/migration.go:288-336 | every event of every guest keeps, from a switch to the release of the source, one former row for each visible forwarding, in order |
| NatTable.NatOkStep | internal/service/migration.go:159-336 | every event keeps the unique index, every row on the agent its reservation calls for, and reserved rows mirroring visible ones |
| PoolTable.PoolOkStep | internal/service/migration.go:149-158 | every event of a guest keeps assigned equal to owned and every owned address on an agent its owner may use |
| PoolTable.ReleasedOnlyWhenGone | internal/service/migration.go:317-336 | an address leaves its owner only when the owner's runtime is gone from the agent of that address and no import is outstanding there |
| PoolTable.ReservationTakesTheEntry | internal/service/migration.go:149-158 | a reservation goes through exactly if the entry is free on the target, and then that entry, and no other, is assigned to the guest |
| PoolTable.AllReservedStep | internal/service/migration.go:149-336 | every event of every guest keeps the target address of each migration assigned to its guest, until the cleanup has released it |
| PoolTable.EditNeverRobs | internal/service/ippool.go:367-446 | an administrator's edit never changes an owned entry, however late it commits after its read and its count |
| VpcTable.RowsOkStep | internal/service/vpc.go:145-259 | creating, compensating and deleting keep every available row with its network on the agent, and names unique |
| VpcTable.RowLeavesAfterItsNetwork | internal/service/vpc.go:252-257 | a row goes only by its own deletion, after its network has gone from the agent; agent and name never change and other rows never do |
| VpcTable.AllOwnedStep | internal/service/vpc.go:145-259 | every network on an agent has a row, whatever fails and whoever dies |
| VpcTable.StuckForEver | internal/service/vpc.go:199-208 | the row of a process that died stays creating or deleting for ever: nobody can use, change or delete it |
| VpcTable.AllStagedStep | internal/service/migration.go:142-213 | the stage column of every running migration agrees with what it has done |
| VpcService.Worker.CreateVPC | internal/service/vpc.go:145-184 | over every combination of answers: success exactly if the name is reserved, the network made and the row announced; otherwise exactly which row and which network are left, with the compensation in between |
| VpcService.Worker.DeleteVPC | internal/service/vpc.go:186-259 | over every combination of answers: row and network are gone exactly on success; every other outcome keeps the row, and one recorded as an error can be tried again |
| VpcService.ConsistentRun | internal/service/vpc.go:145-259 | every step of both is one of the table's state machine, so its invariants hold throughout |
| VpcService.FreeNameHasNoNetwork | internal/service/vpc.go:161-181 | a name that no row uses is not in use on the agent, so a compensation deletes only the network it has made itself |
| VpcTable.RefsOkVpcStep | internal/service/vpc.go:199-248 | the counts and the state column keep every reference on an available network |
| VpcTable.RefsOkGuestStep | internal/service/migration.go:338-348 | reserving, switching and cleaning up keep every reference on an available network of the agent that it is made from |
| VpcTable.LinkedStep | internal/service/migration.go:142-213 | the migration row always says what the migration that holds the fence is doing |
| VpcTable.UnfinishedAgain | internal/service/migration.go:196-201 | a finished migration row becomes unfinished if and only if, after a failed closing read and an unconfirmed deletion, the statement that records it commits |
| Cluster.InvStep | internal/service/virtualis.go:381-455 | every statement, transaction and request of every process keeps all tables consistent with each other and with the agents |
| Cluster.PurgeCommitKeepsInv | internal/service/trash.go:183-193 | the purging transaction keeps them consistent |
| Cluster.AddMappingKeepsInv | internal/service/virtualis.go:1473-1539 | a new forwarding keeps them consistent |
| Cluster.DropMappingKeepsInv | internal/service/virtualis.go:1541-1568 | a deleted forwarding keeps them consistent |
| ClusterSafety.GuestsSurvive | internal/service/migration.go:181-315 | in every run of the whole system whose closing reads succeed every guest the master counts on has a runtime |
| ClusterSafety.DoubleGuestsNeverStart | internal/service/operation_guard.go:138-186 | in every run no operation can begin on a guest that may have two runtimes |
| ClusterSafety.NetworkReferencesAreUsable | internal/service/vpc.go:186-259 | in every run the network of an instance is available and exists on the instance's own agent, and so do both networks of an unfinished migration on its source and target, reopened migrations excepted; runs whose closing reads succeed have none of those |
| ClusterSafety.AvailableNetworksExist | internal/service/vpc.go:145-184 | in every run a network in state available exists on its agent |
| ClusterSafety.ReopenedExactlyByLateCleanup | internal/service/migration.go:196-201 | in every run a finished migration becomes unfinished if and only if the late cleanup commits the record of its unconfirmed deletion |
| LateCleanup.NetworksTurnOnTheClosingRead | internal/service/vpc.go:209-248 | at every closing read of a run whose earlier ones succeeded: unfinished migrations keep usable networks in every continuation without another failed one if and only if the read succeeds, or there is no source network, or it is still usable and pinned |
| Eviction.PinnedStep | internal/service/operation_guard.go:271-283 | a network is pinned by an instance whose fence is kept for ever, or by an unfinished migration that no process carries any more; no step of anybody ends that |
| Eviction.PinnedStaysUsable | internal/service/vpc.go:209-248 | a usable network that is pinned stays usable through every step, since each deletion finds the reference |
| Clearing.Clear | internal/service/trash.go:144-194 | from every reachable state, a network that is not pinned can lose all its references: everybody else's operations can end and their instances be purged, while one guest and its completed migration stay as they are |
| LateCleanupExample.ClosingIsReached | internal/service/migration.go:22-313 | a network, an instance on it and its whole migration lead from the empty database to a closing read where nobody pins the source network |
| LateCleanupExample.UnfinishedMigrationWithoutNetwork | internal/service/vpc.go:209-231 | a concrete run from the empty database that ends with an unfinished migration whose network is gone |
| ClusterSafety.AssignedExactlyWhenOwned | internal/service/ippool.go:549-565 | in every run an address is assigned exactly when it has an owner, and the owner exists |
| ClusterSafety.AddressesOutliveTheirRuntime | internal/service/trash.go:144-194 | in every run an address leaves its owner only when the owner has no runtime on that agent and no import is outstanding there; taken that creations and purges answered with an error are not applied later; those of a process that died may be |
| ClusterSafety.ForwardingsAreWellPlaced | internal/service/migration.go:288-293 | in every run visible forwardings lie on the current agent, and no agent gives a host port of a protocol out twice |
| ClusterSafety.ForwardingsAreConserved | internal/service/migration.go:159-336 | every step except the user's own changes leaves the forwardings alone, and during a migration every step does |
| ClusterLedger.NetworksAreNeverOrphaned | internal/service/vpc.go:145-259 | in every run each network on an agent has its row, and a row leaves only when its network is gone |
| ClusterLedger.MigrationsOwnTheirAddress | internal/service/migration.go:149-336 | in every run the target address of a migration is assigned to its guest on the target until a cleanup has released it, nobody else can take it, and after the switch it lies on the guest's own agent |
| ClusterLedger.SourcePortsAreKept | internal/service/migration.go:288-336 | in every run, from the switch until the source is confirmed gone and released, every forwarding keeps its old row on the source, so nobody else gets the port |
| ClusterLedger.MigrationRowsTellTheStage | internal/service/migration.go:142-213 | in every run the stage column agrees with what the migration that holds the fence has done |
| ClusterLedger.AddressesChangeExactlyAsAsked | internal/service/ippool.go:367-565 | in every run an address becomes assigned exactly by a creation or reservation that finds it free, becomes free exactly by a purge, the end of a migration or its cleanup, otherwise changes exactly by an edit that finds it unowned and as it was read, and goes only without an owner |
| ClusterLedger.UndisturbedEditIsHonoured | internal/service/ippool.go:367-446 | in every run an edit that nobody disturbs does what it asks for exactly if the address has no owner and assigned is not what it asks for |
| ClusterLedger.UnownedEntriesCanGo | internal/service/ippool.go:449-475 | in every run exactly the entries without an owner can be deleted |
| ClusterLedger.CreatedAsAsked | internal/service/virtualis.go:381-455 | in every run a creation adds exactly the row that was asked for, fenced, with its address; a purge removes the row and its forwardings |
| ClusterLedger.ForwardingsChangeExactlyAsAsked | internal/service/virtualis.go:1473-1568 | in every run an added forwarding is appended, a deleted one is taken out of its place, and nothing else but migrations and purges changes the table |
| OperationGuard.AtMostOneHolder | internal/service/operation_guard.go:138-186 | over any run and any number of processes at most one guard holds the fence, by the compare-and-set alone, with a creating request that never enters the in-memory set |
| OperationGuard.AbandonedForEver | internal/service/operation_guard.go:271-279 | a token without a holder is never changed or cleared, and no body begins any more |
| OperationGuard.RetainingAndCrashingAbandon | internal/service/operation_guard.go:233-284 | retaining and crashing leave exactly such a token |
| OperationGuard.RestartedProcessMayEnter | internal/service/operation_guard.go:138-150 | what a dead process had in memory does not keep it out after a restart |
| OperationGuard.OnceStep | internal/service/operation_guard.go:99-186 | every fresh statement keeps one record per caller id and every running or ended record in step with its body |
| OperationGuard.BodyRunsAtMostOnce | internal/service/operation_guard.go:81-186 | over any fresh run the body under one caller id begins at most once, for one action, and is replayed only after it succeeded |
| OperationGuard.UninterruptedBeginsRunOnce | internal/service/operation_guard.go:99-186 | the same for every run whose begins are one step, whatever fails or dies |
| OperationGuard.EndedForEver | internal/service/operation_guard.go:252-268 | succeeded and failed records are final |
| OperationGuard.FreshIffSound | internal/service/operation_guard.go:103-125 | a statement of begin keeps the contract of the caller id if and only if its lookup is still true |
| GuardedOperation.Service.BeginOperation | internal/service/operation_guard.go:99-186 | claims exactly when the instance is free and the caller id is new or was left running, replays exactly a recorded success of the same action, and otherwise leaves the fence as it was; every statement is a step of the state machine |
| GuardedOperation.Service.LookUp | internal/service/operation_guard.go:101-124 | another action under the same caller id is refused, a success is replayed, and only a running record without its fence is claimed again |
| GuardedOperation.Service.ClaimFence | internal/service/operation_guard.go:138-186 | in-memory set, compare-and-set, record and log in this order, rolled back after any failure |
| GuardedOperation.Service.Register | internal/service/operation_guard.go:168-185 | with the fence taken, a failing record or log gives it back |
| GuardedOperation.Service.FinishOperation | internal/service/operation_guard.go:233-284 | the fence is given back exactly if nothing was retained and the outcome was logged and recorded, so a free fence means an ended record |
| GuardedOperation.Service.Complete | internal/service/operation_guard.go:252-268 | the record ends before the fence goes, and a failing record retains the fence |
| GuardedOperation.ClaimedIsOwned | internal/service/operation_guard.go:138-186 | a claim owns the only record of its caller id, running, under the token on the row, and its body began exactly once |
| OperationGuard.StaleRetryRunsTheBodyTwice | internal/service/operation_guard.go:103-125 | a concrete run of two processes that runs one body twice |
| LoginLimit.LockIsCappedDoubling | internal/loginlimit/loginlimit.go:161-175 | for every count from 5 on, the wrapped 64-bit shift with its two guards is 15 minutes doubled per further failure, at most 24 hours |
| LoginHistory.AccountIsItsAttempts | internal/loginlimit/loginlimit.go:146-175 | the running account record is its failures since the last success: their streak, the last one, and whether some failure set a lock that still lasts |
| LoginHistory.WindowRefines | internal/loginlimit/loginlimit.go:177-201 | the filtered and trimmed window is always the last 50 of the failures within the hour |
| LoginHistory.LockedBeforeLockedUntil | internal/loginlimit/loginlimit.go:195-201 | a source is locked exactly when a failure in the last 15 minutes closed an hour with at least 50 failures |
| LoginHistory.SourceFailureStands | internal/loginlimit/loginlimit.go:177-202 | one more failure keeps the stored source record in step with the complete list of failures |
| LoginHistory.SweptAccountStands | internal/loginlimit/loginlimit.go:234-239 | a swept account record could not have mattered any more |
| LoginHistory.SweptSourceStands | internal/loginlimit/loginlimit.go:240-244 | a swept source record could not have mattered any more |
| LoginHistory.ExpiredMeans | internal/loginlimit/loginlimit.go:234-244 | the saturating difference of times decides like the real one: a record goes after a day, or an hour, without failures once its lock is over |
| LoginHistory.FailureStands | internal/loginlimit/loginlimit.go:129-202 | a failure keeps both maps standing for the history, and is counted as long as no more than 100000 accounts failed |
| LoginHistory.SweepStands | internal/loginlimit/loginlimit.go:234-245 | so does a sweep, for the unchanged history |
| LoginHistory.CountedAttemptsAreAll | internal/loginlimit/loginlimit.go:150-157 | below the ceiling the counted failures of an account are all its failures since its last success |
| LoginSource.KeepRecent | internal/loginlimit/loginlimit.go:183-188 | the filter that writes over the slice it reads leaves exactly the recent failures |
| LoginSource.Source.Append | internal/loginlimit/loginlimit.go:189 | appends in place if there is capacity, to a copy otherwise |
| LoginSource.Source.Trim | internal/loginlimit/loginlimit.go:190-194 | keeps the last 50 by moving the start of the slice |
| LoginSource.Source.Fail | internal/loginlimit/loginlimit.go:177-202 | filter, append, trim and lock compute the failure that the window lemmas are about |
| LoginSourceTable.SourceTable.Fail | internal/loginlimit/loginlimit.go:177-202 | one failure changes the record of its source and, although records are changed in place, no other |
| LoginSourceTable.SourceTable.Sweep | internal/loginlimit/loginlimit.go:240-244 | keeps exactly the records of sources that are not expired |
| LoginTracker.Tracker.Check | internal/loginlimit/loginlimit.go:102-118 | the answer and the waiting time are those of the complete history, sweeps or not; with at most 100000 accounts in it every failure is part of it |
| LoginTracker.Tracker.RecordFailure | internal/loginlimit/loginlimit.go:129-135 | appends one failure to the history; the account is left out exactly when the map is full of live records, and never as long as no more than 100000 accounts failed |
| LoginTracker.Tracker.RecordSuccess | internal/loginlimit/loginlimit.go:140-144 | clears the account and keeps the source history |
| LoginTracker.Tracker.CountOn | internal/loginlimit/loginlimit.go:161-174 | the steps on the record compute the failure that the account lemmas are about |
| LoginTracker.Tracker.RecordAccountFailure | internal/loginlimit/loginlimit.go:146-175 | a full map is swept first, and an account without a record gets one exactly if there is room |
| LoginTracker.Tracker.SweepTick | internal/loginlimit/loginlimit.go:227-231 | a tick drops records and leaves the history that the answers follow unchanged |
| LoginTracker.Tracker.SweepLocked | internal/loginlimit/loginlimit.go:234-245 | keeps exactly the records that are not expired |
| Revocation.PersistentRevocationList.Revoke | internal/auth/revocation_persist.go:80-106 | success exactly if the table has it; neither the table nor the cache is ever shortened |
| Revocation.PersistentRevocationList.IsRevoked | internal/auth/revocation_persist.go:111-139 | the answer is the table's, whatever the cache holds, and a failing table revokes |
| Revocation.PersistentRevocationList.CleanupExpired | internal/auth/revocation_persist.go:143-158 | removes exactly what is over, from the table and then from the cache |
| Revocation.ConsistentStep | internal/auth/revocation_persist.go:54-158 | every statement and cache write of every replica keeps all caches and pending requests backed by the table |
| Revocation.CacheAgreesWithTable | internal/auth/revocation_persist.go:111-139 | after any run a cache that says revoked agrees with the table |
| Revocation.AcknowledgedIsHonoured | internal/auth/revocation_persist.go:80-139 | a revocation acknowledged until some time is honoured before it by every replica, after every restart, cleanup and shorter revocation |
| Revocation.RevokedIffSomebodyRevoked | internal/auth/revocation_persist.go:80-158 | after any run the table says revoked exactly if some revocation ever committed lasts beyond now, and no answer says so without one |
| Revocation.RevocationIsAcknowledged | internal/auth/revocation_persist.go:80-106 | an undisturbed revocation is acknowledged, and table and cache then have it at least as long as asked |
| Revocation.LookupFillsTheCache | internal/auth/revocation_persist.go:122-139 | a lookup that misses the cache and finds a row caches exactly that row; one that finds none changes nothing |
| Revocation.CleanupTakesWhatIsOver | internal/auth/revocation_persist.go:143-158 | a cleanup takes exactly what was over at its time from the table and from the cache |
| Revocation.StartIsClean | internal/auth/revocation_persist.go:54-69 | a warmed replica knows exactly what the table says is revoked, and none of its old requests goes on |
| StableSort.SortIsStable | internal/service/security_group_binding.go:13-45 | the insertion sort is ordered by its key and keeps the former order among equal keys |
| FirewallMerge.RankedIsUnique | internal/service/security_group_binding.go:13-45 | a list ordered by priority, local before group, group id and rule id is determined by its members |
| FirewallMerge.PrecedesMeans | internal/service/security_group_binding.go:13-45 | that order in full, field by field |
| FirewallMerge.FourSortsMerge | internal/service/security_group_binding.go:13-45 | three sorts by id and a stable sort by priority give exactly the enabled rules in that order |
| FirewallMerge.MergeIgnoresLoadOrder | internal/service/security_group_binding.go:13-45 | the merged list does not depend on the order in which rules and groups were loaded |
| FirewallMerge.PolicyIgnoresLoadOrder | internal/service/security_group_binding.go:25-36 | nor does the policy |
| FirewallMerge.EffectiveFirewall | internal/service/security_group_binding.go:13-45 | the loops and sorts compute the merge, and a policy that drops as soon as one group does not accept |
| FirewallSync.InvStep | internal/service/virtualis.go:145-155 | because the row is read first, whatever has been loaded is what is stored unless the revision has moved and the instance is pending |
| FirewallSync.AcknowledgedIsStored | internal/service/firewall.go:162-181 | after any run, an acknowledgement that takes effect is about exactly the stored groups and rules |
| FirewallSync.SameViewSameFirewall | internal/service/security_group_binding.go:13-45 | equal groups and local rules make the same list and policy, so equal views are equal firewalls |
| FirewallSync.NotPendingIsApplied | internal/service/security_group_sync.go:11-27 | after any run, not pending means that the current revision is the applied one |
| FirewallSync.NotPendingIsEnforced | internal/service/firewall.go:176-180 | as long as no failed request is applied late, not pending means that the agent enforces what is stored |
| FirewallSync.LateRequestIsHarmlessIff | internal/service/firewall.go:176-180 | in every settled state, wherever the operation has come to: a late request keeps the agreement in every continuation without further ones if and only if it carries what is stored, or the instance is pending and not about to be acknowledged |
| FirewallSync.HarmlessRunsAgree | internal/service/firewall.go:176-180 | after every run whose late requests were harmless in this sense, not pending means that the agent enforces what is stored |
| FirewallHistory.ComposeEntry | internal/service/security_group_binding.go:20-43 | what is sent has one group for each binding, in order, with the ingress policy, the egress policy and the rules stored for it |
| FirewallHistory.ComposeMembers | internal/service/security_group_binding.go:20-43 | a group whose row is gone is left out, and no other |
| FirewallHistory.AcknowledgedFirewallIsFaithful | internal/service/firewall.go:176-180 | after any run, the firewall of an effective acknowledgement drops inbound exactly if the stored ingress policy of some bound group is not accept, likewise outbound, and has exactly the enabled rules of the instance and of its groups |
| FirewallHistory.EnforcedFirewallIsFaithful | internal/service/firewall.go:176-180 | the same for what the agent enforces, whenever the instance is not pending and late requests were harmless |
| FirewallHistory.LastWriteIsStored | internal/service/security_group_sync.go:11-27 | after any run, the bindings, and the row and rules of each group, are what was last written to them |
| FirewallHistory.PendingIsTheLastWord | internal/service/security_group_sync.go:11-27 | after any run, pending is what was said last by an edit that concerns the instance, a failure about its current revision or an effective acknowledgement, and the revision counts the edits |
| FirewallHistory.HeldIsTheLastPut | internal/service/firewall.go:162-181 | after any run, the agent holds what was last applied there |
| FirewallHistory.CarryingNeverAcknowledges | internal/service/firewall.go:162-181 | only an operation begun to synchronise the firewall can acknowledge it |
| FirewallSync.LateRequestDefeatsTheRevision | internal/service/firewall.go:176-180 | a concrete run that ends not pending with an old policy enforced |
| Watcher.InvStep | internal/service/virtualis.go:543-607 | every step except the two careless updates keeps current replies about the bound guest |
| Watcher.ReadyIsAboutTheBoundGuest | internal/service/virtualis.go:577-603 | in every run without a careless update a watcher's write takes effect only for the guest it has queried |
| Watcher.ReadyIsVouchedFor | internal/service/virtualis.go:577-814 | at every moment of such a run the row says ready exactly if a guest has been reported ready since the last replacement, and that guest is the bound one unless the fence hides a replacement; a migration that has switched is not ready |
| Watcher.ReadyIffReported | internal/service/virtualis.go:806-814 | in every run, careful or not, a committed replacement takes ready away and only a report brings it back |
| Watcher.RowAndAgentsRemember | internal/service/migration.go:276 | in every run the row is where the last migration put it, and its generation counts reinstalls, restored snapshots and migrations |
| Watcher.UndisturbedReplyIsWritten | internal/service/virtualis.go:543-607 | a watcher that nothing disturbs does mark the row ready, for the guest it asked about |
| Watcher.RequestsAreFenced | internal/service/virtualis.go:785-796 | while a replacement is not known to be recorded no reply is written, whatever became of the request |
| Watcher.AbandonedMigrationLeavesTheRow | internal/service/migration.go:185-213 | a migration that gives up before the switch leaves row and guest as they were, whatever became of its import |
| Watcher.StaleReplyIsWrittenIff | internal/service/virtualis.go:806-814 | after any replacing operation a reply from before it is written if and only if the operation let go of the fence without a new generation, and then it is wrong |
| Watcher.StaleReplyIsWritten | internal/service/virtualis.go:577-603 | a concrete run from a new instance for each of the two updates, ending with the new guest marked ready by a reply about the old one |
| VpcRange.SubnetFits | internal/service/vpc.go:42-51 | a subnet from /16 to /29 has 8 to 65536 addresses and ends within the address space |
| VpcRange.DefaultRange | internal/service/vpc.go:67-82 | without wrap-around the reassignments keep the longer side of the gateway; with it the end lies below the subnet |
| VpcRange.LongerSideIsDefault | internal/service/vpc.go:75-81 | that side is the longest range of the window without the gateway |
| VpcRange.NormalizeRange | internal/service/vpc.go:42-88 | accepts exactly the acceptable inputs; an omitted range is accepted exactly when base + 250 stays below 2^32; every accepted range is non-empty, strictly inside and avoids the gateway; each refusal has its exact reason |
| VpcRange.LastSubnetsWrap | internal/service/vpc.go:68-74 | a concrete subnet and usable gateway whose omitted range is refused |
| Resize.NormalFormIsUnique | internal/model/virtualis.go:389-421 | a normal form is exactly the normal specification that honours the request, with milli-cores rounded up to whole cores |
| Resize.NormalizationIsIdempotent | internal/model/virtualis.go:389-421 | normalising twice is normalising once |
| Resize.NormalizeInstanceSpec | internal/model/virtualis.go:389-421 | the assignments to the local copy succeed exactly within the limits and give that normal form |
| Resize.AcceptedRespectsTheRow | internal/service/resize.go:30-49 | an accepted request is normal, keeps what was asked for, and neither shrinks the disk nor changes the architecture |
| Resize.AcceptedIff | internal/service/resize.go:30-49 | a request is accepted exactly if it is positive, within the limits, has 128 MB, does not shrink the disk and names no other architecture; each refusal has its exact reason |
| Resize.CanonicalMeansSame | internal/service/resize.go:45-47 | two architectures have one canonical name exactly if they are equal, amd64 and x86_64, or arm64 and aarch64 |
| Resize.ResizeEnds | internal/service/resize.go:76-127 | over every combination of answers: an undisturbed resize stores exactly the accepted specification that the agent echoed, gives the fence back untouched if it is refused or has nothing to do, and keeps it after any failure from the sending on |
| Resize.ResizeToTheSameIsTheSame | internal/service/resize.go:104-106 | asking for what a row has is accepted unchanged, so nothing is sent |
| Resize.DiskNeverShrinks | internal/service/resize.go:51-127 | over every run of interleaved resizes the disk never shrinks and the canonical architecture stays |
| Resize.SentRespectsTheRow | internal/service/resize.go:80-115 | every specification sent respects the row held under the fence, and nobody else can write that row |
| Resize.PrecheckGoesStale | internal/service/resize.go:51-64 | without the second validation this fails: a request accepted before the fence can be a shrink under it |

## Left out

- The HTTP layer, sessions, tokens and captcha around the services, and the web assets: input and output.
- The agent client: only the outcome of a request is kept, and the checks on replies that decide between outcomes.
- The storage library's internals: a transaction is one atomic step, rows of one statement are one snapshot, and unique indexes are enforced.
- The operator's manual unlock: no event clears a retained fence.
- Creation, rebuild, purge and network requests that a live process has seen fail are never applied later, because the code then releases their fence or row; those of a process that died may be (`LateCreate`, `LateRebuild`, `LatePurge`, `LateCreateNet`, `LateDeleteNet`).
- Lifecycle.GuestSurvives: reinstall, restore and power requests are one event that may make the runtime of the current agent and never removes it.
- VPC references: the check that a network lies on the agent is part of the reserving step; in the code it comes before, but a network never changes its agent and no key is used twice.
- Random tokens and identifiers are taken as never repeated.
- Text parsing: addresses, prefixes and account keys are parsed values; lower-casing of account names and collisions of joined keys are not modelled.
- LoginTracker.Tracker: the records of accounts are values in their map, and the failure counter is unbounded.
- FirewallSync.AcknowledgedIsStored: the instance's own firewall rules are not part of the agreement, because they change under the fence without a new revision; the revision counter is unbounded.
- The loop over the bindings of a group that collects failures: each of its rounds is one fenced synchronisation of the model.
- LoginTracker.Tracker.RecordFailure: above the ceiling, account answers follow the failures that the full map accepted.
- Which free address an automatic selection picks, the import of address ranges into the pool, the limit on forwardings per instance, and the uniqueness of manually typed addresses.
- VpcRange.NormalizeRange: the name, driver, name servers and note of a network, which are checked independently of the range.
- Resize.SentRespectsTheRow: the network quotas sent along with the specification are reduced to whether they changed.
- Images, presets, console tickets, metrics, and the background password injection, which runs outside the fence.
- Progress of the watcher: only what it writes is stated, not that it writes.
