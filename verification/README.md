# GameNet in Dafny

GameNet is a TCP game relay. A host proves who it is with a random token and holds, through the
relay, one public port in 10000..10999. This project models the parts of GameNet where that claim can
be lost, leaked or given away, and proves that it is not, or exactly when it is (see "What the proofs
found"). `dafny verify dfyconfig.toml` checks it all.

* **The lease table** (`Leases`, `LeaseInvariants`, `LeaseRecords`, `TableAnswers`, `LeaseTables`,
  `ClaimHistory`): a map from token fingerprints to claims, each Active under a session number or in
  Grace until a time. `Leases` says what each operation does to the table as a value; the class
  `LeaseTable` updates its map in place and is proved against that; the lemmas are about the values.
* **The relay's state** (`LeaseStores`, `StateText`, `Hex`, `ServerStates`, `ServerAnswers`,
  `Durability`, `RunProperties`, `ServerClaims`, `Connections`, `Addresses`, `Retries`): clone, stage,
  save, commit, with a health flag and a map of live connections. A *world* is this state with its disk
  and clock; a *run* is a sequence of events in which every save may work, fail before its rename or
  fail after it, and the process may restart at any time.
* **Registrations and tunnels** (`HostAdmission`, `Ownership`, `Tunnels`): admission permits, the
  guard that ends the session of a cancelled registration, the live tunnel, the cleanup task.
* **The host** (`Identity`, `FirstUse`, `HostClaims`, `ClientProtocol`, `ClientRetries`,
  `HostCommands`, `HostRequests`): the private files, the rename that completes a rotation or a
  recovery, the two commands against the relay, and what happens when an answer is lost.
* **Formats** (`Messages`, `Migration`, `StateReading`, and `LeaseStores`, `Hex`, `StateText` above): the framed
  control stream, the state file, and the migration of the older state file.

## How to read the model

* What the code takes from outside is a parameter: the time, random tokens, what `bind` does with each
  port, what the file system does with each save, what arrives on a stream and in which pieces.
* SHA-256 is a function from tokens to fingerprints, without collisions where that matters.
  `TokenId::from_token` and `recovery_fingerprint` are the same function.
* Times are unsigned 64-bit and add as in the code, saturating. Statements about exactly 300 s say so
  with `now + GRACE_MS <= U64_MAX`.
* Where the code depends on the order in which a hash map is scanned, the model picks any element.
* Planning notes in the repository speak of five tunnels per address
  (`docs/superpowers/plans/2026-09-24-short-port-leases.md:58`); the code allows two, and so does the
  model.

## What the proofs found

* `restore` checks everything a table must satisfy except the quota. So the quota holds over runs from
  an empty, migrated or self-saved state, but a file edited by hand can exceed it
  (`LeaseRecords.RestoreCanExceedQuota`; exactly when, `LeaseRecords.RestoredQuota`).
* A retired token is refused for as long as it is among the last eight former keys of a live claim and
  no longer: the ninth recovery lets the first token register again, as a new identity
  (`ClaimHistory.RefusedAsRotated`, `ClaimHistory.NinthRecoveryFreesTheFirstKey`).
* A host that registers beside a rotation can lose its claim: `connect` reads the identity first and
  registers later, and nothing keeps a rename from falling in between. If the claim had lapsed, so that
  the rotation was answered "no claim", the old token may register after the answer, before or after
  the rename, and the new claim then belongs to a token in neither file. A registration does harm
  exactly if it leaves a claim to a token that is not in the files, or not the pending one when a rename
  is due (`ClientProtocol.WhenRegistrationHarms`, `ClientProtocol.HarmIsLoss`; two runs from the first
  start, `ClientProtocol.RegisteringDuringRotationLosesTheClaim` and
  `ClientProtocol.RegisteringAfterRotationLosesTheClaim`). A recovery gets such a claim back: it does not
  need convergence (`ClientProtocol.AnsweredRecovery`, `ClientProtocol.RecoveryEvicts`).
* A recovery with a typed key beside an unreadable `recovery.bin` succeeds at the relay and then fails at
  the host, before its rename; asked again it is answered again, but the host cannot finish it while
  that file is there (`HostRequests.RecoverAtRelay`).
* The hex parser takes upper case and a leading plus, so it is a left inverse of printing only
  (`Hex.HexCanonical`).
* With a limit of 0, refused sources would pile up in the admission map
  (`HostAdmission.RefusalConserves`); the relay uses 4.

## Model

| member | source | states |
|---|---|---|
| `Durability.RunIsDurable` | `crates/server/src/state.rs:61-190` | Crash refinement over whole runs of register, end, rotate, recover, refresh and restart, with a clock that does not go back and saves that fail before or after the rename: the table stays valid, the disk can always be started from, and whenever `persistence_healthy` holds, a restart at any later time gives exactly the claims in memory (token, port, last address, retired list, recovery key), Active demoted to Grace and only lapsed claims gone |
| `Durability.StepIsDurable` | `crates/server/src/state.rs:61-190` | Each single event keeps that invariant and moves the clock to its own time |
| `Durability.StartIsDurable` | `crates/server/src/state.rs:40-48` | A start-up from any disk the relay accepts, or from none, establishes the invariant |
| `Durability.CommitIsDurable` | `crates/server/src/state.rs:86-90` | Stage, save, commit: durable if the save works; still startable, and unhealthy, however the save fails |
| `Durability.RegisterIsDurable` | `crates/server/src/state.rs:61-103` | A registration keeps the invariant on every path: reaping without saving, a failed scan, a refused activation, a failed save, a commit |
| `Durability.EndIsDurable` | `crates/server/src/state.rs:105-126` | Ending keeps it, although the table changes before the save |
| `Durability.RotateIsDurable` | `crates/server/src/state.rs:128-147` | Rotation keeps it, including the answers that write nothing |
| `Durability.RecoverIsDurable` | `crates/server/src/state.rs:149-180` | Recovery keeps it, including the answer that changes nothing |
| `Durability.RefreshIsDurable` | `crates/server/src/state.rs:182-190` | A refresh re-establishes it even from an unhealthy state |
| `Durability.SavedMirrors` | `crates/server/src/lease_store.rs:85-105` | After a good save at `now`, a start-up at any time rebuilds the saved claims less the lapsed ones |
| `RunProperties.FailedSaveIsAtomic` | `crates/server/src/state.rs:86-89` | A failed save is atomic across the crash that follows it: the restart gives exactly the claims from before the operation, or exactly those the operation was to leave |
| `RunProperties.FailedSaveDisk` | `crates/server/src/lease_store.rs:100-104` | Which of the two it is depends only on whether the save failed before or after its rename |
| `RunProperties.RegisteredSurvives` | `crates/server/src/state.rs:78-100` | A host that was told its port keeps port, retired list and recovery key through a crash at any time for the grace time after the registration |
| `RunProperties.RotatedSurvives` | `crates/server/src/state.rs:134-146` | A rotation answered with a port, even `Unchanged`, is durable: the new identity holds that port and the old one is retired, crash or not |
| `RunProperties.RecoveredSurvives` | `crates/server/src/state.rs:158-179` | A recovery answered Ok, even with `changed: false`, is durable |
| `RunProperties.RecoveredClaim` | `crates/server/src/state.rs:149-180` | The port in the answer is the port of the claim that now belongs to the new identity and has the presented key |
| `RunProperties.CrashWindow` | `crates/server/src/relay.rs:86-94` | With healthy storage and no saturation an Active claim is restored at `late` if and only if `late` is before 300 s after the last good save; with saves every 30 s that leaves at least 270 s after the crash, on the same port |
| `RunProperties.TroubleLatches` | `crates/server/src/state.rs:69-89` | From a failed save to the next refresh or restart nothing is added, moved, dropped or numbered: sessions can only end |
| `RunProperties.TroubleStep` | `crates/server/src/state.rs:105-190` | In trouble every event but `end`, refresh and restart leaves the table as it is |
| `RunProperties.RefreshDecidesHealth` | `crates/server/src/state.rs:182-190` | After a refresh storage is healthy if and only if its save worked |
| `LeaseRecords.SnapshotRestores` | `crates/server/src/lease.rs:305-374` | Restart never fails: for every valid table, every order of its snapshot and every restart time, `restore` accepts the records (the 1000-record bound by pigeonhole on ports, live and retired ids disjoint across all records) and rebuilds the demoted claims |
| `LeaseRecords.AcceptedIsValid` | `crates/server/src/lease.rs:322-374` | Conversely any records `restore` accepts, from whatever source, yield a table with every invariant except the quota |
| `LeaseRecords.RestoredQuota` | `crates/server/src/lease.rs:353-367` | The quota holds of the restored table if and only if no source is charged with more than two unexpired records |
| `LeaseRecords.RestoreCanExceedQuota` | `crates/server/src/lease.rs:322-374` | A concrete record list that `restore` accepts and that breaks the quota |
| `LeaseRecords.RestoredLater` | `crates/server/src/lease.rs:353-355` | A later restart from the same records gives what an earlier one gives, less what lapsed in between |
| `LeaseRecords.ReapInvisible` | `crates/server/src/lease.rs:299-303` | Reaping removes no claim that a restart at that time or later would bring back |
| `LeaseRecords.DemotedQuota` | `crates/server/src/lease.rs:314-317` | A restart cannot break a quota that held |
| `LeaseRecords.RestoredAre` | `crates/server/src/lease.rs:332-368` | A token is restored exactly if its record has not expired, with every field of that record |
| `LeaseRecords.RecordsFromSnapshot` | `crates/server/src/lease.rs:305-320` | The port-ordered list of a table names every claim once |
| `LeaseInvariants.ActivatedKeepsClaims` | `crates/server/src/lease.rs:129-180` | Activation keeps ports distinct and in range, recovery ids distinct, retired lists short, duplicate-free and disjoint, and live keys unretired |
| `LeaseInvariants.ActivatedKeepsSessions` | `crates/server/src/lease.rs:164-178` | Activation keeps session numbers unique and at most the counter |
| `LeaseInvariants.ActivatedKeepsQuota` | `crates/server/src/lease.rs:84-180` | Activation, also a reconnect from another address, leaves at most two claims charged to any source |
| `LeaseInvariants.ActivationAdmits` | `crates/server/src/lease.rs:137-159` | What the checks of activation establish: port free, key unused elsewhere, token neither live nor retired elsewhere |
| `LeaseInvariants.EndedKeeps` | `crates/server/src/lease.rs:182-194` | Ending keeps every invariant |
| `LeaseInvariants.EndedKeepsQuota` | `crates/server/src/lease.rs:182-194` | Ending keeps the quota |
| `LeaseInvariants.MovedKeeps` | `crates/server/src/lease.rs:235-238` | Moving a claim to an unused, unretired key with the old key appended keeps every invariant, also when the oldest retired key is dropped |
| `LeaseInvariants.RotatedKeeps` | `crates/server/src/lease.rs:196-240` | Rotation keeps every invariant on every path |
| `LeaseInvariants.RotatedKeepsQuota` | `crates/server/src/lease.rs:196-240` | Rotation keeps the quota |
| `LeaseInvariants.RecoveredKeeps` | `crates/server/src/lease.rs:242-297` | Recovery keeps every invariant on every path |
| `LeaseInvariants.RecoveredKeepsQuota` | `crates/server/src/lease.rs:273-285` | Recovery, also one that moves the charge to another source, keeps the quota |
| `LeaseInvariants.ReapedKeeps` | `crates/server/src/lease.rs:299-303` | Reaping keeps every invariant and changes no claim that stays |
| `LeaseInvariants.ReplaceCharges` | `crates/server/src/lease.rs:390-396` | Replacing a claim changes the charge of each source by exactly the claim that leaves and the one that comes |
| `LeaseInvariants.RechargeKeepsQuota` | `crates/server/src/lease.rs:397-403` | The quota check is enough to charge a claim to a source, old or new |
| `LeaseInvariants.PoolPartition` | `crates/server/src/lease.rs:110-115` | A new identity is offered exactly the unleased ports, ascending, 1000 less the claims of them; the pool is exhausted if and only if 1000 claims are live |
| `LeaseInvariants.PoolCount` | `crates/server/src/lease.rs:8-9` | Free ports and claims together are the 1000 ports of the pool |
| `LeaseInvariants.FreePortsAre` | `crates/server/src/lease.rs:110-113` | The scan finds a port exactly if no claim has it |
| `LeaseInvariants.FreePortsAscend` | `crates/server/src/lease.rs:111-113` | The scan is ascending |
| `LeaseInvariants.FreePortsCount` | `crates/server/src/lease.rs:110-113` | From any port up, free and used ports add up |
| `LeaseInvariants.KeyHolderIsUnique` | `crates/server/src/lease.rs:250-254` | The search for a recovery key has one result, whatever order the map is scanned in |
| `LeaseInvariants.GraceHolderReturns` | `crates/server/src/lease.rs:98-108` | Before its grace is over a returning holder is offered exactly its own port; from another source if and only if that source has room |
| `LeaseInvariants.GraceWindow` | `crates/server/src/lease.rs:182-194` | Without saturation an ended session keeps its port for exactly 300 s: offered to its holder before, reaped from then on |
| `TableAnswers.OfferAnswers` | `crates/server/src/lease.rs:84-116` | Who is offered a port: each refusal if and only if its reason holds (retired; already running; two other live claims charged to the source; all ports 10000 to 10999 leased), a returning holder exactly its own port, a new one exactly the unleased ports |
| `TableAnswers.ActivationAnswers` | `crates/server/src/lease.rs:129-168` | Beyond what refuses an offer, an activation is refused if and only if the port is not offered, the recovery key belongs to another claim, the claim has another key, or the numbers are used up, in that order; otherwise it is accepted |
| `TableAnswers.ActivationLeaves` | `crates/server/src/lease.rs:151-180` | After it the claim is Active under the next number, on that port, charged to the address it came from and to no other source, with its former keys and the key it had or else the one presented; every other live claim is as it was |
| `TableAnswers.RefusedActivation` | `crates/server/src/lease.rs:84-168` | A refused activation reaps and does nothing else |
| `TableAnswers.EndAnswers` | `crates/server/src/lease.rs:182-194` | Exactly the Active session of that number is ended, and its claim then lives 300 s (saturating); everything else is as it was |
| `TableAnswers.RotationAnswers` | `crates/server/src/lease.rs:196-240` | Each of the nine answers to a rotation, as an if-and-only-if on the reaped table; in particular a repeated one, whose new key has the claim and whose old key that claim retired, is answered with the port |
| `TableAnswers.RotationLeaves` | `crates/server/src/lease.rs:231-239` | A transfer moves the claim as it is, with the key it left as its only former key; any other answer only reaps |
| `TableAnswers.RepeatedRotation` | `crates/server/src/lease.rs:204-208` | A rotation that transferred, asked again at any time, is answered: with the same port while the claim lives, with none once it has lapsed, and without changing anything |
| `TableAnswers.RotationWindow` | `crates/server/src/lease.rs:196-240` | A rotated claim lapses when it would have lapsed before |
| `TableAnswers.RecoveryAnswers` | `crates/server/src/lease.rs:242-297` | For a key that opens a claim: each refusal if and only if its reason holds, and otherwise the port, the displaced session if the claim is Active, and whether anything changed |
| `TableAnswers.UnknownKey` | `crates/server/src/lease.rs:250-254` | No matching claim, if and only if no live claim has the key |
| `TableAnswers.RecoveryLeaves` | `crates/server/src/lease.rs:276-296` | A recovery that changes something leaves the claim under the new key on its port, in Grace for 300 s (saturating), charged to the address it was recovered from and to no other source, the key it left appended to its former keys and the oldest of more than eight dropped; every other live claim is as it was |
| `TableAnswers.RecoveryStays` | `crates/server/src/lease.rs:242-276` | One that changes nothing, or is refused, only reaps |
| `TableAnswers.RecoveryWindow` | `crates/server/src/lease.rs:282-285` | Without saturation a recovered claim lives exactly 300 s, in memory and through a restart whenever it was saved, and until then its new owner is offered exactly its port from the source it was recovered from |
| `TableAnswers.RepeatedRecovery` | `crates/server/src/lease.rs:255-261` | A recovery asked again, from any address, is answered with the port, displaces nobody and changes nothing |
| `LeaseTables.LeaseTable.CheckIpQuota` | `crates/server/src/lease.rs:390-404` | The counting loop decides by the number of claims charged to the source |
| `LeaseTables.LeaseTable.CandidatePorts` | `crates/server/src/lease.rs:84-116` | New table and answer as the table specification says, whose properties are the lemmas above: the reaping stays even when the call fails, and the loop yields the free ports |
| `LeaseTables.LeaseTable.FreePorts` | `crates/server/src/lease.rs:110-113` | The filter over the port range yields the unleased ports in order |
| `LeaseTables.LeaseTable.ActivateWithRecovery` | `crates/server/src/lease.rs:129-180` | Each refusal in the order of the code, each with the reaped table and no session number used up; otherwise one claim is Active under the next number, keeping its retired list and enrolled key: what that leaves is `TableAnswers.ActivationLeaves` |
| `LeaseTables.LeaseTable.End` | `crates/server/src/lease.rs:182-194` | Only the session that is Active under that token is ended; otherwise nothing changes |
| `LeaseTables.LeaseTable.RotateClaim` | `crates/server/src/lease.rs:196-240` | Each refusal in the order of the code, each with the reaped table; a repeated rotation is answered with the port it has, a lapsed claim with none: when exactly is `TableAnswers.RotationAnswers` |
| `LeaseTables.LeaseTable.RecoverClaim` | `crates/server/src/lease.rs:242-297` | For every scan order of the map, new table and answer are the one specified result, whose refusals are `TableAnswers.RecoveryAnswers` and whose claim is `TableAnswers.RecoveryLeaves` |
| `LeaseTables.LeaseTable.ReapExpired` | `crates/server/src/lease.rs:299-303` | Exactly the lapsed claims go |
| `LeaseTables.LeaseTable.Snapshot` | `crates/server/src/lease.rs:305-320` | In any order, every claim once, Active ones with an expiry 300 s (saturating) from now |
| `LeaseTables.LeaseTable.AddRetired` | `crates/server/src/lease.rs:349-352` | The inner loop succeeds if and only if the retired ids are new, distinct and not the token itself |
| `LeaseTables.LeaseTable.Restore` | `crates/server/src/lease.rs:322-374` | The loop over four sets accepts exactly the records that are pairwise compatible and well formed, at most 1000; the table it fills is the specified one |
| `LeaseTables.ApartIsAcceptable` | `crates/server/src/lease.rs:369-372` | The disjointness check after the loop is exactly what the checks inside it leave open |
| `LeaseTables.CollectedAppend` | `crates/server/src/lease.rs:333-352` | One more record passes the set checks if and only if it is compatible with each earlier record |
| `ClaimHistory.FollowStep` | `crates/server/src/lease.rs:84-303` | In one step a claim that has not lapsed keeps its port and its enrolled recovery key, and changes hands only by a rotation from its holder while in grace or by a recovery with its key |
| `ClaimHistory.PortIsExclusive` | `crates/server/src/lease.rs:84-116` | The port of a live claim is offered to nobody else and held by nobody else |
| `ClaimHistory.ActiveNeverLapses` | `crates/server/src/lease.rs:299-303` | An Active claim is lost only at a restart that comes 300 s or more after the save |
| `ClaimHistory.PortHeldThroughRun` | `crates/server/src/lease.rs:84-303` | Over whole runs of table operations, while no step finds the claim lapsed, it stays on its port and every other claim is on another one |
| `ClaimHistory.RunRemembers` | `crates/server/src/lease.rs:286-289` | Over whole runs, restarts included, the retired list of every claim is exactly the last min(n, 8) former keys of its lineage, in order |
| `ClaimHistory.StepRemembers` | `crates/server/src/lease.rs:232-238` | One step of that: activation carries the list, rotation and recovery append the key that was left |
| `ClaimHistory.FormerKeyIsBarred` | `crates/server/src/lease.rs:91-97` | One of the last eight former keys of a live claim can neither register nor receive a claim by rotation or recovery |
| `ClaimHistory.RefusedAsRotated` | `crates/server/src/lease.rs:91-97` | The exact reach: an identity is refused as rotated if and only if it is among the last eight former keys of some claim that has not lapsed |
| `ClaimHistory.NinthRecoveryFreesTheFirstKey` | `crates/server/src/lease.rs:286-289` | A concrete run: after eight recoveries the first key is still refused, after the ninth it may register again, but not on that port |
| `ClaimHistory.RecordedStep` | `crates/server/src/lease.rs:232-289` | One operation: a claim that keeps its holder keeps its former keys, one that moves adds the key it left |
| `ClaimHistory.RotationIsOnce` | `crates/server/src/lease.rs:231-237` | Routine rotation succeeds only on a claim that never changed keys, and leaves it with exactly one former key |
| `ClaimHistory.TransferShape` | `crates/server/src/lease.rs:235-296` | What a move leaves alone: every other claim, the port, the recovery key |
| `ClaimHistory.ActivateShape` | `crates/server/src/lease.rs:151-178` | What an activation leaves alone: every other claim, the retired list, the enrolled key |
| `ClaimHistory.QuietShape` | `crates/server/src/lease.rs:299-303` | Any other step only drops the lapsed claims |
| `ClaimHistory.ApplyKeepsValid` | `crates/server/src/lease.rs:84-374` | Every table operation, and a restart, keeps the whole invariant |
| `ServerClaims.ServerRunKeepsClaims` | `crates/server/src/state.rs:61-190` | Port exclusivity and recovery-key stability over whole runs of the relay, with failing saves and with restarts at any time, also while storage is in trouble: a claim that is followed through the run is in memory, on its port, with its enrolled key, and nobody else is on that port |
| `ServerClaims.ServerRunKeepsClaimsOnDisk` | `crates/server/src/state.rs:61-190` | The same of the claim the disk has, in every later restart that brings it back |
| `ServerClaims.HolderAcross` | `crates/server/src/state.rs:61-190` | What following means, event by event: an event loses a claim only if its grace has run out; otherwise the holder stays, or it becomes the new key of this very event, a lapsed claim that the event leaves in place included, exactly if the event is a saved rotation of the holder or a saved recovery with the enrolled key; and a rotation only moves a claim in grace that never changed keys |
| `ServerClaims.DiskHolderAcross` | `crates/server/src/state.rs:86-89` | An event changes the holder on disk exactly if its save reaches the rename, and then to the holder it was to leave in memory |
| `ServerClaims.HolderAcrossRestart` | `crates/server/src/state.rs:40-48` | A restart gives the claim to the holder on disk, and loses it exactly if the disk has lost it or its time there has run out |
| `ServerClaims.LostStaysLost` | `crates/server/src/state.rs:61-190` | A claim that was lost does not come back before a restart |
| `ServerClaims.HeldThroughRun` | `crates/server/src/state.rs:61-190` | So a claim that no event of the run finds lapsed is held at the end, alone on its port, with its key |
| `ServerClaims.ServerRunRemembers` | `crates/server/src/state.rs:61-190` | The retirement window over the same runs: every retired list is exactly the last eight former keys of its claim, in order |
| `ServerClaims.ServerRunRemembersOnDisk` | `crates/server/src/state.rs:61-190` | The same after every later restart |
| `ServerClaims.FormerKeysAcross` | `crates/server/src/state.rs:128-180` | And the former keys are what the events say: a claim that keeps its holder keeps them, one that an event moves adds the holder it left |
| `ServerClaims.RunIsExplained` | `crates/server/src/state.rs:61-190` | Crash refinement without regard to health: after every run the table in memory, and every table a later restart would build, are what the operations of the events make of the first table |
| `ServerClaims.EventIsOp` | `crates/server/src/state.rs:61-190` | Each event is at most one operation on the table in memory, with its own arguments and time |
| `ServerClaims.EventDisk` | `crates/server/src/state.rs:86-89` | The disk changes only by a save that reaches its rename, and then to what the event was to leave in memory |
| `ServerClaims.RegistrationIsOp` | `crates/server/src/state.rs:61-103` | A registration reaps the table, and does no more to it unless it is answered with a port |
| `Addresses.ServerRunCame` | `crates/server/src/lease.rs:169-178` | Over every run of the relay each claim is charged to the address of its last answered registration or recovery, recorded from the events without looking at the leases |
| `Addresses.ServerRunCameOnDisk` | `crates/server/src/lease.rs:305-319` | And in every later restart to the one the disk has |
| `Addresses.OriginAcross` | `crates/server/src/state.rs:61-180` | That record, event by event: an answered registration or recovery brings its own address, a rotation carries the former holder's, every other claim keeps the one it had |
| `Addresses.DiskOriginsAcross` | `crates/server/src/state.rs:86-89` | The record for the disk changes exactly if a save reaches its rename, to what the event was to leave |
| `Addresses.OriginAcrossRestart` | `crates/server/src/state.rs:40-48` | A restart takes up the record for the disk |
| `Addresses.QuotaOfRun` | `crates/server/src/lease.rs:390-403` | In every reachable healthy state a host without a live claim that is not retired is answered "too many tunnels" if and only if two live claims were last answered from its source |
| `Addresses.RunCame` | `crates/server/src/lease.rs:84-374` | The same over whole runs of table operations |
| `RunProperties.RunKeepsQuota` | `crates/server/src/lease.rs:390-404` | Over every run from an empty, migrated or self-saved state, across reconnects, recoveries, failed saves and restarts at any time, no source is charged with more than two claims, in memory or after any later restart |
| `RunProperties.StepKeepsQuota` | `crates/server/src/state.rs:61-190` | Each event keeps the quota of the table and of everything the disk may bring back |
| `RunProperties.FreshStartHasQuota` | `crates/server/src/lease_store.rs:50-54` | An empty start satisfies the invariants |
| `RunProperties.RunKeepsConnections` | `crates/server/src/state.rs:90-120` | When registrations bring their connection, in every reachable state the connection map names exactly the Active claims, each with its own session |
| `RunProperties.StepKeepsConnections` | `crates/server/src/state.rs:90-179` | Each event keeps that agreement, failed saves included |
| `RunProperties.RecoveryClosesTheDisplaced` | `crates/server/src/state.rs:168-179` | Recovery of an Active claim returns exactly the connection of that session, of a Grace claim none, and the branch that reinserts a connection is never taken |
| `Connections.RunConnects` | `crates/server/src/state.rs:90-95` | In every reachable state the connection map gives each Active claim exactly the connection that the registration of its session came with, recorded from the events, and has nothing else |
| `Connections.StepConnects` | `crates/server/src/state.rs:61-190` | Each event keeps that, failed saves included |
| `Connections.RecoveryClosesItsHost` | `crates/server/src/state.rs:168-179` | So a recovery of an Active claim is answered with the connection of the very registration in the run that started the displaced session, and takes that one out of the map; a recovery of a Grace claim closes nothing |
| `Connections.StartsAt` | `crates/server/src/state.rs:61-103` | What the record has for an event is the answer to that event in the state it met |
| `Connections.StartHasNoConnections` | `crates/server/src/state.rs:40-48` | A start-up has no sessions and no connections |
| `RunProperties.RecoveryDisplaces` | `crates/server/src/lease.rs:277-296` | What recovery reports as displaced is the session of the claim it moves |
| `RunProperties.RestartHasNoSession` | `crates/server/src/lease.rs:363-365` | Nothing is Active after a restart |
| `RunProperties.ScanTakesFirst` | `crates/server/src/state.rs:72-102` | The port scan takes the first port that is not in use, and fails exactly as that port does, or if there is none |
| `RunProperties.BoundPortIsAccepted` | `crates/server/src/state.rs:72-85` | Once a candidate is bound, the second check inside activation cannot refuse it: the registration gets that port, or stops at a recovery key, the session counter or the save |
| `ServerStates.ServerState.RegisterWithRecovery` | `crates/server/src/state.rs:61-103` | The loop over candidate ports with its early exits reaches exactly the specified state, disk and answer, for every behaviour of bind and save; what they are is `ServerAnswers.RegistrationAnswers` and `ServerAnswers.RegistrationLeaves` |
| `ServerStates.ServerState.Stage` | `crates/server/src/state.rs:78-100` | Clone, activate, save, commit: the table in memory changes only if the save worked, and only then is the connection recorded, as `ServerAnswers.RegistrationLeaves` says |
| `ServerStates.ServerState.Commit` | `crates/server/src/state.rs:86-90` | The table in memory and the file move together: both new if the save worked; otherwise memory is as it was, the file old or new, and the state unhealthy |
| `ServerStates.ServerState.CommitRotation` | `crates/server/src/state.rs:141-146` | A moved claim reaches memory only if it reached the disk |
| `ServerStates.ServerState.CommitRecovery` | `crates/server/src/state.rs:164-179` | The connections lose exactly the displaced session, and only if the save worked |
| `ServerStates.ServerState.End` | `crates/server/src/state.rs:105-126` | Allowed while storage is in trouble; a session that is not Active changes nothing; otherwise memory ends it even if the save fails, and the connection goes only if it is of that session |
| `ServerStates.ServerState.Rotate` | `crates/server/src/state.rs:128-147` | Refused while storage is in trouble; an unchanged claim is answered without writing, and without even the reaping of the staged copy; a transfer reaches memory only if it reached the disk |
| `ServerStates.ServerState.Recover` | `crates/server/src/state.rs:149-180` | Refused while storage is in trouble; a claim that already belongs to the new identity is answered without writing; a move reaches memory only if it reached the disk, and only then is a connection given up |
| `ServerStates.ServerState.TakeDisplaced` | `crates/server/src/state.rs:169-178` | Remove-and-reinsert leaves the map without exactly the displaced session |
| `ServerStates.ServerState.RefreshAndSave` | `crates/server/src/state.rs:182-190` | Memory is reaped even if the save fails; health afterwards is whether it worked |
| `ServerAnswers.RegistrationAnswers` | `crates/server/src/state.rs:61-103` | What decides the answer to a registration, in this order: the health of the storage, the offer, the first offered port that is not in use and what binding it does, the activation, the save |
| `ServerAnswers.RegistrationLeaves` | `crates/server/src/state.rs:78-100` | Answered with a port: the activated table is in memory and on disk, the map has the answered session and the connection it came with at that key and is otherwise as before, and unchanged without a connection |
| `ServerAnswers.RefusedRegistration` | `crates/server/src/state.rs:61-103` | Refused: the table is reaped at most, no connection changes, the disk changes only by a save that failed after its rename, and only a failed save makes the storage unhealthy |
| `ServerAnswers.EndingAnswers` | `crates/server/src/state.rs:105-126` | True if and only if that session was Active and the save worked; exactly the connection of that session goes |
| `ServerAnswers.RotatingAnswers` | `crates/server/src/state.rs:128-147` | Answer, memory, disk and health for each answer of the table and each outcome of the save |
| `ServerAnswers.RecoveringAnswers` | `crates/server/src/state.rs:149-180` | The answer for each answer of the table and each outcome of the save; an unchanged claim is answered with its port and no connection |
| `ServerAnswers.RecoveringLeaves` | `crates/server/src/state.rs:158-168` | What memory and disk have then |
| `ServerAnswers.RecoveringTakes` | `crates/server/src/state.rs:168-179` | The connection that leaves the map and is answered is the one of the displaced session, or none |
| `ServerAnswers.RefreshingAnswers` | `crates/server/src/state.rs:182-190` | Memory is reaped in any case; answer and health are whether the save worked |
| `Retries.RotationStaysAnswered` | `crates/server/src/lease.rs:204-208` | Once a rotation was answered with a port, the same request is answered with that port, and writes nothing, after every run, with failed saves and restarts, in which its claim neither lapses nor is moved on, whatever happens to everything else |
| `Retries.RecoveryStaysAnswered` | `crates/server/src/lease.rs:255-261` | The same of a recovery: the port again and no connection to close |
| `Retries.StaysThroughRun` | `crates/server/src/state.rs:61-190` | A claim that no event of a run finds lapsed, and none moves or tries to, is with the same holder in memory and on disk |
| `ServerStates.LeaseStore.Save` | `crates/server/src/lease_store.rs:85-105` | Any records, in any order: if their text fits, the file becomes their port-ordered image, or keeps its old contents if the save failed before the rename; if it does not fit, nothing changes |
| `ServerStates.SnapshotIsSaved` | `crates/server/src/lease_store.rs:85-95` | Every snapshot of a valid table fits, and all of them are saved as one image |
| `Ownership.RunKeepsOwned` | `crates/server/src/tunnel.rs:19-61` | No leaked session: over every interleaving of registrations cancelled at any await, announcements, hang-ups, cleanups, recoveries, refreshes and crashes, every Active session has an owner (armed guard, tunnel or queued `end`) under the token that activated it, and no session number is handed out twice in a process |
| `Ownership.NextKeepsOwned` | `crates/server/src/tunnel.rs:153-208` | Each single step keeps that |
| `Ownership.OneOwner` | `crates/server/src/tunnel.rs:164-168` | The owner of an Active session is unique, and so is its token |
| `Ownership.OverStaysOver` | `crates/server/src/lease.rs:164-194` | A session that ended or was displaced is never Active again in that process |
| `Ownership.LateEndIsNoOp` | `crates/server/src/lease.rs:182-189` | So a late `end` for it changes neither memory nor disk |
| `Ownership.OwnersProgress` | `crates/server/src/relay.rs:112-130` | Every step of an owner lowers a measure, and only registrations raise it |
| `Ownership.OwnersDrain` | `crates/server/src/relay.rs:112-130` | From every state the owners can finish within that measure, and then no claim is Active |
| `Ownership.NoOwnersNoSessions` | `crates/server/src/tunnel.rs:291-301` | Without owners nothing is Active |
| `Ownership.SessionsAcrossStep` | `crates/server/src/lease.rs:164-178` | No event starts a session but a registration that answers Ok, and its number is one more than the last, although failed saves discard staged counters |
| `Tunnels.FromQuic` | `crates/server/src/tunnel.rs:80-209` | For every first message and every way the answer can be lost: rotation and recovery answer what the state did; a registration that the state granted leaves its session either with the returned tunnel or, if its answer was not sent, with exactly one queued `end`; anything else changes nothing |
| `Tunnels.ServeHost` | `crates/server/src/relay.rs:109-130` | The whole life of a connection, with any visits of other hosts, queued ends, refreshes and other cleanups in between: its admission permit and its permit for the whole relay go back once, its player permits go back, and every session that is Active then was Active before or belongs to a queued `end` or to the tunnel of a visitor: it leaves none of its own behind |
| `Tunnels.ServeTunnel` | `crates/server/src/relay.rs:118-125` | From the live tunnel to its cleanup, with those visits: its session is over, the others have owners |
| `Tunnels.Receive` | `crates/server/src/tunnel.rs:80-209` | Each visit leaves every Active session with an owner and adds at most one live tunnel |
| `Tunnels.Greet` | `crates/server/src/tunnel.rs:80-209` | A first message leaves nothing Active without an owner |
| `Tunnels.RegisterHost` | `crates/server/src/relay.rs:112-116` | Both permits are given back on every way out of the registration, and nothing Active is without owner |
| `Tunnels.GuardSteps` | `crates/server/src/tunnel.rs:173-189` | The flag of the guard decides the step of the ownership model: armed, dropping it is the cancellation and the owner left is the one it queues; disarmed, the tunnel is the owner |
| `Tunnels.PendingRegistration.Drop` | `crates/server/src/tunnel.rs:42-61` | Dropped armed, the guard queues one `end` for its session; disarmed, nothing |
| `Tunnels.PendingRegistration.Disarm` | `crates/server/src/tunnel.rs:37-39` | The guard is disarmed |
| `Tunnels.Runtime.RunFirst` | `crates/server/src/tunnel.rs:50-54` | A queued task ends its own session and leaves the queue |
| `Tunnels.Tunnel.Run` | `crates/server/src/tunnel.rs:211-221` | Whatever players come and go: after no event are there more than 50, the announced stream numbers are 1, 2, 3, … for exactly the players let in, the result is Ok if the host closed and the error that ended the loop otherwise, the listener is closed and every permit is back: the relay has those that the other tunnels leave |
| `Tunnels.Tunnel.AcceptPlayers` | `crates/server/src/tunnel.rs:223-245` | After each event the loop serves as many players as the specification says, while other tunnels take and return permits of the relay; it announces one number for each player let in, and ends as the event after its last load says |
| `Tunnels.PlayersBounded` | `crates/server/src/tunnel.rs:252-265` | That is never more than 50, nor more than the relay has room for |
| `Tunnels.RoomStays` | `crates/server/src/tunnel.rs:275-277` | If no other tunnel takes or returns a permit of the relay, in the end there are as many as before |
| `Tunnels.Tunnel.AcceptPlayer` | `crates/server/src/tunnel.rs:247-289` | Both permits are kept exactly for a player who finds room and whose stream number was announced; the permits and players of a tunnel stay 50 in all |
| `Tunnels.Tunnel.Cleanup` | `crates/server/src/tunnel.rs:291-301` | Ends this session and touches no other |
| `Tunnels.MessageStarts` | `crates/server/src/tunnel.rs:90-165` | A first message starts no session but the one its registration is answered with |
| `ClientProtocol.RunConverges` | `crates/cli/src/tunnel.rs:59-114` | Convergence: through every sequence of both commands on the shared pending file, registrations of the host with any of its tokens that arrive at any time and do no harm, lost requests, lost answers, host crashes, relay crashes, failed saves, other parties and expiry, the token that owns the live claim of the host, in memory or after any restart, is in `identity.bin` or `identity.bin.pending` |
| `ClientProtocol.ActConverges` | `crates/cli/src/tunnel.rs:59-114` | Each single action keeps that |
| `ClientProtocol.FreshHostConverges` | `crates/core/src/identity.rs:158-177` | A host that never ran, against an empty relay, satisfies it |
| `ClientProtocol.OwnerIsInFiles` | `crates/core/src/identity.rs:106-149` | So the owner of a live claim can always be read from one of the two files |
| `ClientProtocol.CompletedCommand` | `crates/cli/src/tunnel.rs:106-110` | Once a command is answered and the claim can only be with its new token, whatever others do before the answer arrives, `finish` succeeds, `identity.bin` has the only possible owner, the claims fit that owner alone, and the pending file is gone; convergence, if it held, still does |
| `ClientProtocol.AnsweredRecovery` | `crates/cli/src/tunnel.rs:77-84` | When the relay answers a recovery, the claim is alive and belongs to the pending token alone, in memory and after any restart, whoever had it before |
| `ClientProtocol.RecoveryEvicts` | `crates/server/src/lease.rs:242-297` | A recovery evicts: in every durable world and through every later run in which the host alone uses its new token and its recovery key, while every other token, the stolen one and all earlier ones included, is anybody's, the new token stays the only possible owner of the claim, crashes included |
| `ClientProtocol.EvictionCompletes` | `crates/cli/src/tunnel.rs:59-88` | The same from the answer to the rename: a recovery of a lost or stolen identity ends with `identity.bin` as the only possible owner, and with claims that fit it alone |
| `ClientProtocol.RecoveredHostConverges` | `crates/cli/src/tunnel.rs:59-88` | After that the host satisfies the convergence invariant again, with the recovered token and the random ones it is still to make |
| `ClientProtocol.CompletionSucceeds` | `crates/core/src/identity.rs:106-124` | An answered command renames if and only if it is not a recovery prepared without an identity whose host has made one since; then `finish` says that the identity changed, nothing changes, and the command can be repeated |
| `ClientProtocol.RecoveryNeverStuck` | `crates/server/src/lease.rs:262-276` | A retried recovery is never refused because its pending token is taken or retired, only for lack of a live claim, of quota or of storage |
| `ClientRetries.PreparedRotationReplies` | `crates/server/src/lease.rs:196-240` | Every answer to a rotation the host has prepared, as an if-and-only-if: storage, a running tunnel of the old identity, a claim that changed keys before, a failed save, or a claim the host registered with its pending identity; never for what an earlier try of it did |
| `ClientRetries.RotationReplies` | `crates/server/src/lease.rs:196-240` | The same for any world in which the host's claim is with one of its two tokens |
| `ClientRetries.RetryIsAnswered` | `crates/cli/src/tunnel.rs:90-114` | A rotation that was answered, but whose answer was lost: preparing again gives the same request, and after whatever others did meanwhile, with failed saves and restarts, it is answered without writing, with the same port while the claim lives, unless storage is unavailable |
| `ClientRetries.RetryAtRelay` | `crates/server/src/lease.rs:196-240` | The relay's half of that |
| `ClientRetries.ForeignRunKeeps` | `crates/server/src/lease.rs:84-374` | No run of others' events gives a token of the host a claim, or changes the port, the keys or the end of the grace of the one it has |
| `ClientProtocol.WhenRegistrationHarms` | `crates/cli/src/tunnel.rs:149-165` | The exact condition: a registration of the host, with whichever of its tokens it read earlier and whenever it arrives, keeps the convergence if and only if it leaves no claim in memory or on disk, or leaves it to a token in one of the two files, and to the pending one if a rename is due |
| `ClientProtocol.GrantsIsTheAnswer` | `crates/server/src/state.rs:69-85` | A registration is granted if and only if storage is healthy, a candidate port can be bound, and neither the recovery key nor the session counter objects |
| `ClientProtocol.HarmIsLoss` | `crates/cli/src/tunnel.rs:149-165` | Otherwise the token that owns the claim, in memory or on disk, is in neither file, at once or after the rename that is due, and the convergence is broken |
| `ClientProtocol.RegisteringDuringRotationLosesTheClaim` | `crates/cli/src/tunnel.rs:106-110` | A run from the very first start in which that happens: identity, rotation, answer "no claim", registration, rename |
| `ClientProtocol.RegisteringAfterRotationLosesTheClaim` | `crates/cli/src/tunnel.rs:149-165` | Another one: the identity is read, then comes a whole rotation with its rename, and then the registration arrives |
| `ClientProtocol.EmptyRelayGrants` | `crates/server/src/state.rs:69-100` | A healthy relay without claims grants every registration whose port can be bound |
| `HostClaims.StepFits` | `crates/server/src/lease.rs:84-374` | No event of the relay gives the claim with the host's key to a token outside its two files, retires its pending token, or puts one of its keys on the list of another claim, in memory or on disk |
| `HostClaims.RunFits` | `crates/server/src/lease.rs:84-374` | Nor does any run of such events |
| `HostClaims.AcceptedRotation` | `crates/server/src/lease.rs:196-240` | After an answered rotation, even "no claim", the old token holds nothing and no restart gives it anything |
| `HostClaims.AcceptedRecovery` | `crates/server/src/lease.rs:242-297` | After an answered recovery the claim with the key is live under the new token only, on the answered port |
| `HostClaims.RecoveryRefusals` | `crates/server/src/lease.rs:242-276` | All the reasons for which such a recovery can be refused |
| `HostCommands.RotateOnConnection` | `crates/cli/src/tunnel.rs:90-114` | What is sent are the two tokens of the pending rotation; the files change only if the relay confirms that message, and then as `finish` says |
| `HostCommands.RecoverOnConnection` | `crates/cli/src/tunnel.rs:59-88` | What is sent are the key and the pending token; the files change only if the relay confirms that message; a typed key is stored before the rename, and if that fails nothing is renamed |
| `HostCommands.RotateIdentity` | `crates/cli/src/tunnel.rs:22-26` | A request goes out if and only if the preparation succeeded and the relay can be reached, and it carries the tokens of the identity file and of the pending file; a confirmation of it puts the pending one in place; anything else leaves both files as prepared, so a retry asks for the same change |
| `HostCommands.RecoverIdentity` | `crates/cli/src/tunnel.rs:28-57` | A request goes out if and only if there is a key, the preparation succeeded and the relay can be reached, and it carries the content of the recovery file, or the typed key when that is asked for or there is no file, and the token of the pending file; a confirmation of it puts that token and the key in place, if the key can be stored; anything else leaves the files as prepared, with the error that says why |
| `HostCommands.BeginRecovery` | `crates/cli/src/tunnel.rs:33-55` | Which key is used, and that an unreadable key file is never passed over; the pending file then has the new token |
| `HostRequests.RecoverAtRelay` | `crates/cli/src/tunnel.rs:28-88` | From the files through the relay and back: the relay recovers the claim of the fingerprint of that very key for the fingerprint of the token in the pending file and closes the displaced connection; the host has the answered port and that token in place if and only if the relay granted it, the answer arrived and the key can be stored |
| `HostRequests.RotateAtRelay` | `crates/cli/src/tunnel.rs:22-114` | The same for a rotation, with the tokens of the identity file and the pending file |
| `HostRequests.AskToRecover` | `crates/server/src/tunnel.rs:116-141` | One recovery at the relay, and what the host receives of its answer |
| `HostRequests.AskToRotate` | `crates/server/src/tunnel.rs:97-115` | One rotation at the relay, and what the host receives of its answer |
| `HostCommands.ConfirmedRecovery` | `crates/cli/src/tunnel.rs:77-84` | In the protocol a confirmed recovery with a typed key completes: owner in `identity.bin`, key in `recovery.bin` |
| `Identity.IdentityStore.CreateNewPrivate` | `crates/core/src/identity.rs:243-260` | Creates whole or not at all; never overwrites |
| `Identity.IdentityStore.LoadOrCreateAt` | `crates/core/src/identity.rs:162-177` | An existing file wins, even a corrupt one, which is an error |
| `Identity.IdentityStore.PrepareRotation` | `crates/core/src/identity.rs:214-241` | Needs a readable identity; an existing pending token is used again, so a retry asks for the same change; a pending token equal to the identity is refused |
| `Identity.IdentityStore.PrepareRecovery` | `crates/core/src/identity.rs:131-149` | The same without an identity, and an unreadable one is an error, not an absent one |
| `Identity.IdentityStore.Finish` | `crates/core/src/identity.rs:106-124` | Renames if and only if neither file changed since the preparation |
| `Identity.IdentityStore.StoreRecovery` | `crates/core/src/identity.rs:45-62` | The key is on file afterwards, unless the file there is unreadable, which is left alone |
| `Identity.RotationPreparedAnswers` | `crates/core/src/identity.rs:214-241` | When a rotation can be prepared and when not, what is on file then, and that the pending rotation has the tokens of the two files |
| `Identity.RecoveryPreparedAnswers` | `crates/core/src/identity.rs:131-149` | The same for a recovery, which needs no identity |
| `Identity.FinishedAnswers` | `crates/core/src/identity.rs:106-124` | `finish` succeeds if and only if the identity and the pending file are as they were prepared; then the identity is the pending token and nothing else changes; otherwise nothing changes |
| `FirstUse.EveryoneAgrees` | `crates/core/src/identity.rs:162-177` | Any number of processes, any interleaving and any crashes: no partly written token is visible, a visible file never changes, no call fails and all calls return the file's 32 bytes |
| `FirstUse.MoveAgrees` | `crates/core/src/identity.rs:243-274` | Each atomic step of one process keeps that |
| `LeaseStores.RecordRoundTrip` | `crates/server/src/lease_store.rs:190-229` | `into_record(from_record(r)) == r` for every record |
| `LeaseStores.FromRecordInjective` | `crates/server/src/lease_store.rs:190-204` | Two records with one persisted form are one record |
| `LeaseStores.IntoRecordAnswers` | `crates/server/src/lease_store.rs:206-229` | A persisted lease is read if and only if its fingerprint is lower-case hex and its other ids are hex, and then into those very ids, the one of the old single field last |
| `LeaseStores.AcceptedTokenIsCanonical` | `crates/server/src/lease_store.rs:207-214` | A token fingerprint that is accepted is the text the relay prints for it |
| `LeaseStores.SavedImageIsCanonical` | `crates/server/src/lease_store.rs:85-91` | The saved file does not depend on the order the map is listed in |
| `LeaseStores.SortAscends` | `crates/server/src/lease_store.rs:90` | The sort orders leases of distinct ports by port |
| `LeaseStores.SortMembers` | `crates/server/src/lease_store.rs:90` | The sort is a permutation |
| `LeaseStores.AscendingIsUnique` | `crates/server/src/lease_store.rs:90` | There is one port-ordered list of given leases |
| `LeaseStores.LoadSaved` | `crates/server/src/lease_store.rs:66-76` | Every valid table, saved at any time, loads at any time as itself with sessions over and lapsed claims gone |
| `LeaseStores.LoadedIsValid` | `crates/server/src/lease_store.rs:66-76` | Every file that loads gives a valid table |
| `Hex.FormatHex` | `crates/server/src/lease_store.rs:232-239` | The loop prints two lower-case digits per byte |
| `Hex.ParseHex32` | `crates/server/src/lease_store.rs:241-251` | The loop accepts exactly 64 ASCII characters whose pairs are bytes, upper case and a leading plus included |
| `Hex.PairMeans` | `crates/server/src/lease_store.rs:247-249` | Two digits of either case are the byte they say, a plus and a digit the digit |
| `Hex.PairIsRead` | `crates/server/src/lease_store.rs:247-249` | And nothing else is read |
| `Hex.HexRoundTrip` | `crates/core/src/identity.rs:64-92` | Every printed code is read back, and has only lower-case digits |
| `Hex.HexCanonical` | `crates/server/src/lease_store.rs:241-251` | Printing what was read gives the text back if and only if all its characters are lower-case digits |
| `StateText.OwnStateFits` | `crates/server/src/lease_store.rs:11` | The file of every valid table, at any time, is at most 1 MiB in the two-space layout, so neither size check refuses the relay's own state |
| `StateText.LeaseSize` | `crates/server/src/lease_store.rs:17-37` | One claim takes at most 953 characters, whatever its keys, address and expiry |
| `StateText.ImageSize` | `crates/server/src/lease_store.rs:91-95` | At most 1000 records with at most eight retired ids fit |
| `StateText.EmptyLayout` | `crates/server/src/lease_store.rs:91` | The file of a relay without claims, character by character |
| `StateReading.PrintedInjective` | `crates/server/src/lease_store.rs:91` | The printed file determines the records: no two lists have the same text, if addresses are printed distinctly and without quotation marks |
| `StateReading.SplitLease` | `crates/server/src/lease_store.rs:22-37` | The text of one lease ends where it ends and says the whole record |
| `StateReading.SoundReaderExists` | `crates/server/src/lease_store.rs:66-74` | So there is a reader that gives back every file the relay prints, which is what migration is proved from |
| `Migration.MigrationSurvivesCrashes` | `crates/server/src/lease_store.rs:78-82` | Over any number of attempts, each stopped anywhere, even inside the backup: the original text is the state file, or the backup holds all of it and the state is its migration |
| `Migration.MigrationEndsWithTheClaims` | `crates/server/src/lease_store.rs:46-83` | And a start-up that is not stopped always succeeds, with the migration of this start-up or of one of the earlier attempts, at its time: until 300 s after that time the table is exactly the legacy reservations, each token on its port, and from then on it is empty |
| `Migration.MigratedByAnAttempt` | `crates/server/src/lease_store.rs:78-82` | A migrated state on disk was written by one of the attempts, at the time of that attempt |
| `Migration.MigratedLater` | `crates/server/src/lease_store.rs:107-133` | What is left of a migration: everything until its grace is over, then nothing |
| `Migration.AttemptIsConsistent` | `crates/server/src/lease_store.rs:46-83` | Each attempt keeps that, and is never refused: it succeeds or was stopped |
| `Migration.BackupNeverConflicts` | `crates/server/src/lease_store.rs:135-186` | A partly written backup is completed, never taken for a conflicting one |
| `Migration.FirstAttempt` | `crates/server/src/lease_store.rs:78-82` | An attempt on the original ends untouched or migrated, and migrated if not stopped |
| `Migration.LaterAttempt` | `crates/server/src/lease_store.rs:67-76` | An attempt on a migrated file loads the claims of the migration that have not lapsed and writes nothing |
| `Migration.MigratedClaims` | `crates/server/src/lease_store.rs:107-133` | Every legacy reservation becomes a Grace claim on its port under the fingerprint of its token, and nothing else does |
| `Migration.LegacyIsAcceptable` | `crates/server/src/lease_store.rs:107-133` | A legacy list that passes the checks is never refused by `restore` |
| `Migration.MigratedStartHasQuota` | `crates/server/src/lease_store.rs:123-130` | A start from a migrated state satisfies the quota |
| `Migration.StateDirectory.MigrateLegacy` | `crates/server/src/lease_store.rs:107-133` | The loop accepts exactly the lists of at most 1000 distinct ports in range with distinct readable tokens |
| `Migration.StateDirectory.BackupLegacy` | `crates/server/src/lease_store.rs:135-186` | A backup that differs is refused and left alone, a whole one is kept, a part is replaced at once, a missing one is written in place; at every stopping point the state file is untouched |
| `Migration.StateDirectory.LoadOrCreate` | `crates/server/src/lease_store.rs:46-83` | A missing file gives an empty table; a file that is too large, unreadable, of another version or with bad records is refused and left alone; a legacy file is backed up before it is replaced |
| `Migration.LoadAnswers` | `crates/server/src/lease_store.rs:46-83` | Each refusal to start, if and only if: longer than 1 MiB, no state file, another version, records or a legacy list that are not acceptable, a backup of something else; both files are then as they were, and only a relay without a state file starts empty |
| `Migration.LoadAccepts` | `crates/server/src/lease_store.rs:66-83` | What is started from: a version 2 file as its unexpired claims, writing nothing; a legacy list as its migration, with the whole original in the backup and the migration on disk |
| `Messages.StreamRoundTrip` | `crates/core/src/message.rs:6-37` | Every list of messages with payloads of at most 65536 bytes is received as sent, then a clean end |
| `Messages.TruncatedStream` | `crates/core/src/message.rs:20-36` | A stream cut anywhere gives the messages whose frames are complete, then a clean end if and only if the cut is between frames, and an error otherwise |
| `Messages.ByteReader.RecvMsg` | `crates/core/src/message.rs:17-37` | Under every fragmentation of the stream, result and remaining bytes are a function of the bytes alone |
| `Messages.ByteReader.ReadExact` | `crates/core/src/message.rs:25-35` | Exactly the next bytes, over however many reads, or the end |
| `Messages.ByteWriter.SendMsg` | `crates/core/src/message.rs:6-15` | Appends one frame |
| `Messages.MessageRoundTrip` | `crates/core/src/protocol.rs:8-46` | Every message, with any fields, is decoded as it was encoded |
| `Messages.ReceiveFrame` | `crates/core/src/message.rs:17-37` | A frame in front of any bytes is received as its message and leaves those bytes |
| `Messages.ReceiveAnswers` | `crates/core/src/message.rs:17-37` | Each answer of the receiver, if and only if: clean end, cut inside a frame, a length over 65536, an undecodable payload, or exactly the decoded message |
| `Messages.HeaderBytes` | `crates/core/src/message.rs:11-28` | The header is the length in four bytes, highest first, written and read |
| `Messages.RegisterForm` | `crates/core/src/protocol.rs:8-46` | A registration byte by byte |
| `Messages.WireForm` | `crates/core/src/protocol.rs:8-46` | The other messages byte by byte |
| `Messages.ReadyFrame` | `crates/core/src/message.rs:6-15` | One whole frame byte by byte |
| `Messages.PartOfFrame` | `crates/core/src/message.rs:20-35` | Any proper, non-empty part of a frame is an error |
| `Messages.CutStream` | `crates/core/src/message.rs:20-35` | A cut inside the first frame, and one after it |
| `HostAdmission.RunConserves` | `crates/server/src/relay.rs:98-116` | For a limit of at least 1 and every sequence of arrivals and settled registrations: no drop underflows, each stored count is the number of live permits of its source and lies between 1 and the limit, and free and held global permits are 128 |
| `HostAdmission.AdmitConserves` | `crates/server/src/relay.rs:98-116` | Each event keeps that |
| `HostAdmission.RefusalConserves` | `crates/server/src/host_admission.rs:50-53` | A refusal keeps the counts exact if and only if the limit is positive: at limit 0 it leaves an entry of 0 behind |
| `HostAdmission.IncomingAdmitted` | `crates/server/src/relay.rs:98-116` | A host is admitted if and only if fewer than 128 permits are out in all and fewer than the limit for its source; it then has one more and nobody else is affected |
| `HostAdmission.PendingByIp.TryAcquire` | `crates/server/src/host_admission.rs:44-59` | A permit is given if and only if the source has fewer than the limit, under the source of the address; its count then goes up by one and no other changes; looking it up may leave an entry of 0 |
| `HostAdmission.PendingByIp.DropPermit` | `crates/server/src/host_admission.rs:74-89` | One permit of that source less and no other changed; the entry goes with its last permit |
| `HostAdmission.SameSource` | `crates/server/src/host_admission.rs:11-24` | IPv4 addresses are charged each alone; an IPv6 address shares its source with an IPv4 address exactly if it is that address mapped, byte by byte; other IPv6 addresses share one exactly with their /64 network |

## Left out

- ClientProtocol.RunConverges: one command of the host at a time, whose request is lost or handled before the host's next command; the checks of `finish` and its rename as one step; registrations only as far as they do no harm; fresh random tokens, no other party with its tokens or key; what recovery does when others have its tokens is `ClientProtocol.RecoveryEvicts`.
- ClientProtocol.RecoveryEvicts: the recovery key and its fingerprint, and the new token, stay with the host.
- LeaseStores.AcceptedTokenIsCanonical: says nothing of retired ids and recovery keys, for which the code does not require lower case.
- Tunnels.ServeHost: the other connections take their steps between its own, one whole call under the lock at a time; cancellation of each at any await, and crashes, are in `Ownership`, as steps on values.
- Migration.MigrationSurvivesCrashes: assumes that the JSON reader gives back every file the relay prints; that such a reader exists is proved (`StateReading.SoundReaderExists`), that serde_json is one is not.
* Real sockets, QUIC, TLS, certificates, the byte copying of the bridges, and the scheduling of tasks:
  `bind` and sending are outcomes, cancellation is a step.
* The branch of the guard for a runtime that has shut down: it only logs.
* JSON reading and the printing of addresses: the layout, size and unambiguity of what is printed are
  modelled, with an address as any text of at most 39 characters; hex digits need no escaping.
* The bincode library: its format for these messages is modelled, with strings as UTF-8 bytes.
* File permissions, Windows access lists, non-regular files, temporary-file clean-up and the sync calls:
  a rename is atomic, creation without overwriting is atomic, and what was written stays written.
* Trimming of blanks around a typed recovery code, prompts, command-line parsing, presets, logging, the
  retry delay of the host.
* The texts of error messages: errors are constructors.
