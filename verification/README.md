# Zester control plane: a verified model

Zester is a fleet control plane. Masters share state in compare-and-swap key/value buckets; peels
enroll with a master, receive credentials and execute dispatched jobs. This project models the
protocols and encodings that the control plane's correctness rests on and proves what they promise:
over every interleaving where several parties are involved, over every input where it is a matter
of encoding.

Verify with `dafny verify dfyconfig.toml`.

## How it is built

| modules | what they model |
|---|---|
| `KeyValue`, `KvClient` | a bucket: live keys, one revision each, a counter every write raises; as a value and as an object other clients write to as well |
| `Enrollment` | enrollment records, the transition table, store and reactor decisions, the trust gate |
| `EnrollProtocol` | any number of masters serving enrollment, decision, reaction and credential calls; every call is a thread, every step one bucket operation and the local code up to the next |
| `EnrollLifecycle`, `EnrollProvenance`, `EnrollIndex`, `EnrollRelease` | what all runs of that protocol keep: record histories and credentials, challenges, the peel index, and where removing an index entry breaks it |
| `EnrollCauses` | what it takes in any run to bring about a record, a forced approval or a credential, and what an undisturbed call achieves |
| `EnrollStore`, `EnrollHandler` | the same operations as methods: the stores under arbitrary interference, the two request handlers one call at a time |
| `Lease`, `LeaseLoop` | the leader lease as interleaved steps of candidates with expiry, and one candidate's loop as code |
| `FileMirrors`, `PublisherRole` | standby file mirrors and the interleaving of lease callbacks, timers and publish goroutines |
| `Revision`, `Decimal` | the shared revision counter, as interleaved callers and as the retry loop |
| `Dedup`, `ExecQueue` | the peel's execution path: the persisted epoch fence with crashes and restarts, and the fenced callback with queue, worker and cancel registry |
| `RateLimit` | the per-address token bucket with its sweep |
| `Dotted`, `Subjects`, `Lint`, `PeelId`, `Glob` | subject matching, generated grants, the grant linter, peel identifiers and target globs |
| `SettingsCrypt`, `SettingsHeap` | encrypting and decrypting nested settings, on values and on mutable maps |
| `Ordering`, `SecretsDigest` | the bytes fed to the secrets digest |
| `Revocation` | the revocation list and when it is pushed |
| `Beacon` | per-service baselines and the bounded event buffer |
| `Sequences` | facts about sequences that some of the others use |

Concurrency is modelled by state machines whose steps are what one goroutine does between two points
where another can run; code under one mutex is one step, and a thread that never moves again is a
crashed one. Operations that change state in place are classes with `modifies` clauses whose
contracts tie them to the functions the theorems are about.

Assumptions that the statements carry with them:

- Any write of the enrollment, lease and revision protocols may be lost or get through without its
  caller hearing of it; a read that fails has no effect.
- Record, challenge and call identifiers are new when they are made.
- Saves of the job fence do not overlap (`Dedup.Enabled`); they may fail.
- Signatures, sealing, base64 and SHA-256 are function parameters with the one law each result
  needs. The clock, the network's outcome and what other clients write are parameters too.
- Strings are byte strings, one `char` per byte; glob patterns are ASCII.

Where a promise does not hold of the code, the model keeps the code and the exact boundary is
proved:

- Removing an index entry is unfenced, both when a call releases it for re-enrollment and when a
  Create rolls its claim back. Call a peel idle if none of its records is open, that is neither
  rejected nor revoked, and no call is committed to writing one. As long as entries are only removed
  at idle peels, all open records of a peel carry one key (`EnrollIndex.OneOpenKeyPerPeel`). After
  such a run the next removal is at an idle peel exactly if nothing that follows, itself removing
  entries at idle peels only, ever gives a peel two open records under different keys
  (`EnrollRelease.RemovalIsSafeIffIdle`). A run that ends so exists
  (`EnrollRelease.TwoOpenRecordsUnderDifferentKeys`). That the index still names the rejected record
  the call had read is not enough: a superseded record whose retirement failed may still be open.
- All records a peel ever has carry one key if no release takes effect and no record written unheard
  is rolled back (`EnrollIndex.OneKeyPerPeel`).
- An index entry can name a record that never comes to exist (`EnrollRelease.StrandedClaimIsReachable`):
  the record write and the rollback both fail, or the claim itself is not heard of. The entry then
  blocks its peel until it is removed (`EnrollRelease.StrandedStays`). After an unheard index
  swap it can also name a record its own call deleted (`EnrollIndex.IndexNamesARecord`).
- Two lease holders for a role are possible exactly through an expiry in the current term of one of
  them, and a term starts with the successful create, before the leader flag is set.
- After the leader flag is cleared, mirrors can start before the lost acquisition's context is
  cancelled (`PublisherRole.MirrorsMayStartOnceFlagIsDown`).
- The cancel registry is keyed by job id, so a job dispatched again while still live loses its
  cancel registration when the first run ends (`ExecQueue.SharedIdLosesCancel`).
- The bare event subject and the basket subject of a peel are covered by none of its grants, and
  job subjects only for one-token job ids (`Subjects.Grantable`).
- Encrypting one text twice under a repeated key does not round-trip
  (`SettingsCrypt.RoundTripIff`).
- A limiter whose buckets go stale before they refill exceeds its rate bound; both configured ones do
  not (`RateLimit.SweepsSafelyIff`).
- A job whose save failed is fenced only in memory until the next good save, and a job whose id was
  evicted not at all. Only these can run twice (`Dedup.NoJobRunsTwice`), and both do in given runs
  (`Dedup.TwiceAfterFailedSave`, `Dedup.TwiceAfterEviction`).
- Which peels are soft-revoked depends on the listing order when two latest records tie
  (`Revocation.PeelsDependOnOrderIff`).

## Model

| member | source | states |
|---|---|---|
| `KeyValue.NoLostUpdate` | pkg/bus/kv_iface.go:109-111 | If an update at the revision read at the start succeeds after any interference, the key held the entry that was read at every moment in between |
| `KeyValue.FencedDeleteRemovesOwnEntry` | pkg/bus/kv_jetstream.go:113-122 | A delete fenced on the revision a write returned removes exactly that entry, or is refused, after any interference |
| `KeyValue.RunGrows` | pkg/bus/kv_iface.go:99-115 | Every entry after any run of writes is untouched or carries a revision newer than all earlier ones |
| `KvClient.Kv.Create` | pkg/bus/kv_jetstream.go:105-107 | Stores only under an absent key and returns the new revision |
| `KvClient.Kv.Update` | pkg/bus/kv_jetstream.go:109-111 | Stores only at the current revision and returns the new one |
| `KvClient.Kv.Delete` | pkg/bus/kv_jetstream.go:113-122 | Options fold to the last revision; revision 0 deletes whatever is there, any other only the entry at it |
| `KvClient.Kv.SendUpdate` | pkg/bus/kv_iface.go:109-111 | An update over a network: lost, or applied with or without the reply |
| `Enrollment.PathClimbs` | pkg/enroll/enrollment.go:112-117 | Along any path of the transition table the rank rises strictly, so no state is entered twice |
| `Enrollment.TableMeans` | pkg/enroll/enrollment.go:112-132 | The table allows exactly one step forward from pending over approved and issued to active, rejecting what is pending, and revoking what is approved, issued or active |
| `Enrollment.DecisionsExactly` | pkg/enroll/store.go:201-344 | Exactly which records each operation accepts, by state and flag, and every field of the record it leaves |
| `Enrollment.RetireRevokes` | pkg/enroll/store.go:387-399 | A superseded record that is approved, issued or active becomes revoked now with its identity kept; any other is left alone |
| `Enrollment.ReactsExactly` | internal/masterd/reactor.go:447-517 | For every record, operation and scope: a store call follows exactly if the operation is in scope, known and still applies and is not the approval of a flagged record; it is that operation and never forced; duplicates are exactly the operations the record already shows |
| `Enrollment.RedeliveryNeverReapplies` | internal/masterd/reactor.go:447-517 | A redelivered reactor operation whose effect is in the record's history never acts again, in or out of scope; in scope it is reported as a duplicate, except an approval of a record revoked since |
| `Enrollment.GateMeans` | pkg/enroll/handler.go:245-275 | Exactly which requests the gate refuses and which it flags; on a master with a CA root one passes unflagged exactly if it proved a binding to that root, up to letter case |
| `Enrollment.FoldIsSameButCase` | pkg/enroll/handler.go:268 | Folding identifies exactly the strings that differ only in the case of the letters A to Z |
| `EnrollLifecycle.RecordsFollowTheTable` | pkg/enroll/store.go:201-344 | In every run a stored record has the identity it was created with, and its states so far are a path of the table ending in the stored state |
| `EnrollLifecycle.RecordsNeverGoBack` | pkg/enroll/store.go:107-122 | Between any two moments of a run a record keeps peel, key and trust flag and its state only moves forward |
| `EnrollLifecycle.MismatchNeedsForce` | pkg/enroll/store.go:201-230 | A trust-mismatched record past pending and not rejected was approved by a forced approval |
| `EnrollLifecycle.OneCredentialPerEnrollment` | pkg/enroll/handler.go:572-634 | Each enrollment yields at most one credential, for the record's own peel and key, whatever calls race |
| `EnrollLifecycle.DecidedRecordsAreFrozen` | pkg/enroll/enrollment.go:112-132 | A rejected or revoked record never changes in any field while it exists |
| `EnrollLifecycle.CasActsOnSeen` | pkg/enroll/store.go:107-122 | A successful record swap replaced exactly the record that was read |
| `EnrollLifecycle.CasHistory` | pkg/enroll/store.go:201-344 | A swap along the table prolongs the record's history to a state it never had before |
| `EnrollLifecycle.AddRecordOk` | pkg/enroll/store.go:69-87 | Storing a new pending record starts a history and leaves all others alone |
| `EnrollLifecycle.MovedLifecycle` | pkg/enroll/store.go:19-25 | Any step of one call leaves the snapshots and plans of all other calls valid |
| `EnrollLifecycle.StepLifecycle` | pkg/enroll/handler.go:173-401 | Every step of the protocol keeps the record invariant and only prolongs histories |
| `EnrollCauses.ForceNeedsAnOperator` | internal/masterd/reactor.go:479-490 | In every run a record is approved by force only in a step of a call begun as a forced approval of that record, never of a reaction |
| `EnrollCauses.FlaggedNeedsAnOperator` | pkg/enroll/store.go:196-212 | In every run a flagged record that was ever approved had a forced approval of it begun before |
| `EnrollCauses.CredentialNeedsProof` | pkg/enroll/handler.go:572-634 | In every run a credential is handed out only in a step of a download call whose caller proved the key of that record |
| `EnrollCauses.RecordNeedsProof` | pkg/enroll/handler.go:205-275 | Every record ever stored carries the peel and key of a request that proved the key and named the challenge it came from, issued to that peel and key and not expired; its flag says exactly whether the request proved trust in another root than that of an acting master |
| `EnrollCauses.UndisturbedDecision` | pkg/enroll/store.go:201-344 | An undisturbed decision changes the record exactly if it applies to its state, to the state it asks for, and no other record |
| `EnrollCauses.UndisturbedReaction` | internal/masterd/reactor.go:447-503 | An undisturbed reaction does what the unforced decision does exactly if it is in scope and approves no flagged record, and otherwise nothing |
| `EnrollCauses.UndisturbedDownload` | pkg/enroll/handler.go:572-634 | An undisturbed download hands out the credential and leaves the record issued exactly if it is approved and the key proved |
| `EnrollCauses.RetirementRevokes` | pkg/enroll/store.go:387-399 | The retirement step that finds the old record as read revokes it if it was approved, issued or active, and else leaves it alone |
| `EnrollProvenance.ChallengesAreSingleUse` | pkg/enroll/challenge.go:107-146 | No challenge is consumed twice in any run |
| `EnrollProvenance.RecordsTraceToTheirChallenge` | pkg/enroll/handler.go:205-235 | Every stored record comes from a challenge consumed once, issued for its peel and key, and shared with no other record |
| `EnrollProvenance.ConsumedFirst` | pkg/enroll/challenge.go:127-136 | The call whose swap succeeds is the first to consume the challenge, and no record came from it before |
| `EnrollProvenance.StoredProvenance` | pkg/enroll/store.go:69-87 | Storing a record spends exactly the challenge its call holds |
| `EnrollProvenance.StepProvenance` | pkg/enroll/handler.go:173-401 | Every step of the protocol, expiry of challenges included, keeps the challenge and origin invariant |
| `EnrollIndex.OneKeyPerPeel` | pkg/enroll/store.go:346-404 | If no release takes effect and no record written unheard is rolled back, any two records of a peel at any two moments of a run carry the same key |
| `EnrollIndex.OneOpenKeyPerPeel` | pkg/enroll/store.go:346-415 | In every run that removes index entries at idle peels only, any two open records of a peel at one moment carry the same key |
| `EnrollIndex.OwnerStays` | pkg/enroll/store.go:50-87 | If no release takes effect and no record written unheard is rolled back, once a peel has a record its index entry never disappears and its owner key never changes |
| `EnrollIndex.IndexNamesARecord` | pkg/enroll/store.go:56-87 | If entries are removed at idle peels only, an entry names an existing record of its peel, or one whose creator claimed it and has not written it, or one its own call deleted after an unheard index swap |
| `EnrollIndex.ClaimsAreNeverDropped` | pkg/enroll/store.go:69-79 | If no release takes effect and no record written unheard is rolled back, an entry disappears only when a Create whose record was never written takes back its own claim, and then the peel has no record |
| `EnrollIndex.ClaimKeeps` | pkg/enroll/store.go:62-67 | A claim that gets through, heard or not, keeps the index invariant |
| `EnrollIndex.ClaimedPeelIsEmpty` | pkg/enroll/store.go:62-78 | While a claim stands for an unwritten record its peel has no record but those from before an earlier removal |
| `EnrollIndex.RepointKeeps` | pkg/enroll/store.go:377-378 | An index swap that gets through, heard or not, keeps the index invariant, owner included |
| `EnrollIndex.SupRollBackKeeps` | pkg/enroll/store.go:379-384 | Deleting the new record after a swap that seemed to fail keeps the index invariant: the index names it only if the swap got through unheard |
| `EnrollIndex.StepGuarded` | pkg/enroll/handler.go:277-381 | Every step keeps the index invariant, lost and unheard writes included, if it removes an entry only at an idle peel |
| `EnrollIndex.StepRetired` | pkg/enroll/store.go:405-415 | Every step that removes an entry only at an idle peel keeps closed all records from before the removal of their entry |
| `EnrollIndex.UnclaimIsCareful` | pkg/enroll/store.go:69-78 | Taking back a claim that still stands without a record always happens at an idle peel |
| `EnrollIndex.ReplacesOwn` | pkg/enroll/handler.go:321-341 | Superseding is planned only on an open record of the caller's peel and key, so the peel belongs to that key |
| `EnrollRelease.TwoOpenRecordsUnderDifferentKeys` | pkg/enroll/handler.go:342-351 | A run from the empty store, in which two calls see the same rejected record, reaches two pending records of one peel under different keys |
| `EnrollRelease.BusyRemovalSplits` | pkg/enroll/store.go:405-415 | After a removal at a peel that is not idle, a continuation without any further careless removal reaches two open records of the peel under different keys |
| `EnrollRelease.RemovalIsSafeIffIdle` | pkg/enroll/store.go:405-415 | After a run that removed entries at idle peels only, the next removal is at an idle peel exactly if no continuation that does so too ever splits a peel between two keys |
| `EnrollRelease.StrandedClaimIsReachable` | pkg/enroll/store.go:69-78 | A run reaches an index entry whose record was not written and whose creator is over |
| `EnrollRelease.StrandedStays` | pkg/enroll/store.go:56-87 | Between any two moments of a run that removes entries at idle peels only, the record of such a claim is never written and the claim stays unless the entry of its peel was removed |
| `EnrollStore.CallIsProtocolThread` | pkg/enroll/store.go:201-344 | A store call under interference has the outcome of the protocol thread's swap on the store the others left |
| `EnrollStore.CasIsAtomic` | pkg/enroll/store.go:107-122 | After any interference an unchanged revision means an unchanged record |
| `EnrollStore.Store.Update` | pkg/enroll/store.go:107-122 | Writes the record only at its current revision |
| `EnrollStore.Store.ApproveForce` | pkg/enroll/store.go:201-230 | Acts as one atomic step on the bucket as others left it, or changes nothing; a mismatched record needs force |
| `EnrollStore.Store.Reject` | pkg/enroll/store.go:233-260 | Atomic under interference, allowed only from pending |
| `EnrollStore.Store.MarkIssued` | pkg/enroll/store.go:264-289 | Atomic under interference, allowed only from approved |
| `EnrollStore.Store.MarkActive` | pkg/enroll/store.go:293-314 | Atomic under interference, allowed only from issued |
| `EnrollStore.Store.Revoke` | pkg/enroll/store.go:317-344 | Atomic under interference, allowed only where the table allows it |
| `EnrollStore.Store.Create` | pkg/enroll/store.go:56-87 | Claims then writes, each lost, heard or unheard: a held index changes nothing, an unheard claim stays, an unheard record stays while whatever the index then holds for the peel is rolled back |
| `EnrollStore.Store.Supersede` | pkg/enroll/store.go:353-404 | Repoints exactly if the swap gets through and the entry is the one read; then an old record that was approved, issued or active and is unchanged ends up revoked unless that write is lost; after a swap refused, lost or not heard of the new record is removed again |
| `EnrollStore.Store.FindByPeelId` | pkg/enroll/store.go:171-189 | The record the index leads to, or none |
| `EnrollStore.Store.ReleaseIndex` | pkg/enroll/store.go:409-415 | Removes whatever the index holds for the peel |
| `EnrollStore.ChallengeStore.Issue` | pkg/enroll/challenge.go:63-97 | Stores an unused challenge bound to peel and key with its expiry, only under a new identifier |
| `EnrollStore.ChallengeStore.Consume` | pkg/enroll/challenge.go:107-146 | Succeeds exactly on an unused, unexpired challenge untouched since it was read, and leaves it used or gone |
| `EnrollHandler.Handler.Authenticate` | pkg/enroll/handler.go:205-275 | Passes exactly a request with its own valid challenge, a proved key and a passed trust gate; exactly a usable challenge is spent and then gone, otherwise nothing changed |
| `EnrollHandler.Handler.Enter` | pkg/enroll/handler.go:277-382 | Exactly when a record is created, a conflict or a pending record reported; after a creation the new record is there field by field, the record it replaces is revoked and every other one is as it was |
| `EnrollHandler.Handler.HandleEnroll` | pkg/enroll/handler.go:173-401 | Exactly which requests create a record, are denied or bring a bad challenge; what a creation leaves in records and index, the replaced record revoked, and that all others change neither |
| `EnrollHandler.Handler.HandleCreds` | pkg/enroll/handler.go:572-634 | Exactly an approved record with a proved key yields a credential for its own peel and key, and is issued |
| `Lease.OneCandidateKnowsTheEntry` | pkg/bus/lease.go:110-172 | At most one candidate remembers the entry's current revision, and every remembered revision is positive |
| `Lease.ReleaseNeverHitsSuccessor` | pkg/bus/lease.go:177-184 | In every run an entry a release removes was written by the releasing candidate at the revision it remembers |
| `Lease.OneLeader` | pkg/bus/lease.go:110-146 | Two candidates for a role are leader at once only if the entry of one of them expired in its current term |
| `Lease.ExpiryUnderHolderSplits` | pkg/bus/lease.go:55-64 | Whenever an entry expires under a holder that leads, or has won and is not shutting down, a waiting rival makes two leaders |
| `Lease.UndisturbedTerm` | pkg/bus/lease.go:110-184 | Whoever waits for a free role leads it under its own entry through any number of renewals and, shut down, leaves all entries as they were before |
| `Lease.CandidateTakesFreeRole` | pkg/bus/lease.go:110-146 | A waiting candidate takes a free role and holds it; a taken role stays as it is |
| `Lease.DispossessedHolderStops` | pkg/bus/lease.go:152-172 | A renewal that finds another entry or none ends the term and writes nothing |
| `Lease.ShutDownFreesRole` | pkg/bus/lease.go:177-184 | A cancelled holder stops and its role is free; nobody else is touched |
| `Lease.WriteKeeps` | pkg/bus/lease.go:152-172 | A candidate writes only a free entry or its own and keeps the lease invariant |
| `Lease.StepKeeps` | pkg/bus/lease.go:110-208 | Every step, expiry and unheard writes included, keeps the lease invariant |
| `LeaseLoop.LeaderLease.RenewLoop` | pkg/bus/lease.go:152-172 | The loop renews while it can prove ownership and returns the last revision it heard of |
| `LeaseLoop.LeaderLease.Acquire` | pkg/bus/lease.go:110-146 | One acquisition ends with the flag down; a create refused or lost changes nothing and one not heard of leaves an entry it does not lead under; on shutdown, raced or later, it releases at the last revision heard of after whatever others did |
| `LeaseLoop.LoserWritesNothing` | pkg/bus/lease.go:148-172 | Once another entry stands, the next renewal fails and the loop writes nothing |
| `LeaseLoop.HeardRevisionIsOwn` | pkg/bus/lease.go:152-184 | If the entry still has the returned revision it is this holder's own |
| `LeaseLoop.ReleaseTakesOwnOnly` | pkg/bus/lease.go:177-184 | After any interference a release removes the entry at the revision heard of and leaves any other holder's entry and all other roles alone |
| `LeaseLoop.UndisturbedLeaseIsKept` | pkg/bus/lease.go:152-172 | Undisturbed and with every reply heard, the lease is never lost |
| `FileMirrors.StartedAccounted` | internal/masterd/mirror.go:96-147 | After a start every uncancelled mirror or refresh context can be reached for cancelling |
| `FileMirrors.StoppedAccounted` | internal/masterd/mirror.go:169-187 | After a stop no mirror or refresh context is left uncancelled |
| `FileMirrors.MirrorState.Start` | internal/masterd/mirror.go:96-147 | Nothing while cancelled, leading or running; else one refresh and one watch per set, all new, uncancelled and reachable |
| `FileMirrors.MirrorState.Stop` | internal/masterd/mirror.go:169-187 | Cancels the refresh and every watch, leaves no context uncancelled and clears the handles |
| `PublisherRole.NoMirrorWhileLeading` | internal/masterd/mirror.go:96-187 | Once a publish goroutine's stop returned while leading, no mirror runs until the leader flag is cleared, in every interleaving |
| `PublisherRole.OneAcquisition` | internal/masterd/lease.go:112-152 | At most one acquisition context is uncancelled at any moment of any run |
| `PublisherRole.MirrorsMayStartOnceFlagIsDown` | internal/masterd/lease.go:134-152 | After the flag is cleared a timer can start mirrors while the old context is uncancelled |
| `PublisherRole.LoserStandsBy` | internal/masterd/lease.go:134-152 | From every reachable leading state, losing the lease cancels the publish context and arms a timer that starts the mirrors in full |
| `PublisherRole.LeaseKeeps` | pkg/bus/lease.go:193-208 | The callbacks run in turn, so the flag and the uncancelled context always match the lease goroutine's position |
| `PublisherRole.Publisher.StartLeaderPublish` | internal/masterd/lease.go:116-127 | Leaves exactly the new run uncancelled, even if called twice in a row |
| `PublisherRole.Publisher.StopLeaderPublish` | internal/masterd/lease.go:134-152 | Leaves no run uncancelled |
| `Revision.NoBumpIsLost` | pkg/bus/kv.go:253-304 | In every run the stored decimal is the start plus the number of calls that reported a bump as done and of the bumps that got through unheard |
| `Revision.UndisturbedBump` | pkg/bus/kv.go:263-304 | A call nobody overtakes is done after one read and one write, and the counter is one higher modulo 2^64 |
| `Revision.PlusIsModular` | pkg/bus/kv.go:290-292 | That sum is addition modulo 2^64 |
| `Revision.GivingUpWitnessesWrites` | pkg/bus/kv.go:244-304 | A call that gives up saw at least ten writes since it began, less one for each network fault |
| `Revision.SuccessorWritten` | pkg/bus/kv.go:290-297 | A swap that gets through writes the successor of the stored value |
| `Revision.Attempt` | pkg/bus/kv.go:274-301 | An attempt succeeds exactly if nobody overtakes it and then adds one to the bumps by others |
| `Revision.BumpRevision` | pkg/bus/kv.go:263-304 | The counter gains the bumps by others and one more exactly on success; success is the first attempt nobody overtook, giving up means all ten were overtaken, and cancelling stops between attempts |
| `Decimal.ScanOfShow` | pkg/bus/kv.go:290-292 | Reading back a formatted 64-bit counter gives the counter |
| `Dedup.NoJobRunsTwice` | internal/peeld/dedup.go:94-149 | Through crashes, restarts and failed saves, no dispatch of a job id is executed twice and its accepted epochs rise strictly, unless the id was evicted or a crash came between its failed save and the next good one |
| `Dedup.GoodSavesLoseNothing` | internal/peeld/dedup.go:127-149 | As long as the saves before letting a job through succeed, no crash loses a fence, whatever background saves do |
| `Dedup.CrashBeforeSaveRepeats` | internal/peeld/dedup.go:127-149 | From every reachable world, a job that was let through and whose fence is not on disk is executed once more by a crash, a restart and a redelivery |
| `Dedup.EvictionRepeats` | internal/peeld/dedup.go:114-121 | From every reachable world at rest, a job that was let through and whose id left the tracker is executed once more by a redelivery |
| `Dedup.TwiceAfterFailedSave` | internal/peeld/dedup.go:127-149 | For every dispatch, a run without eviction executes it twice after a failed save and a crash |
| `Dedup.TwiceAfterEviction` | internal/peeld/dedup.go:114-121 | For every dispatch and capacity, a run in which no crash loses a fence executes it twice after newer ids pushed it out |
| `Dedup.NoJobRunsTwiceWithinCapacity` | internal/peeld/dedup.go:24-26 | While no more ids were seen than the tracker holds, only a crash before a save lets a dispatch run twice |
| `Dedup.EvictionNeedsNewerIds` | internal/peeld/dedup.go:114-121 | From an empty tracker an id is evicted only after capacity many distinct newer ids entered |
| `Dedup.AcceptedIsNewer` | internal/peeld/dedup.go:94-125 | An accepted epoch is above the stored one, is recorded, and changes no other id but an evicted one |
| `Dedup.LoadedConsistent` | internal/peeld/dedup.go:64-92 | A reload in any order yields a consistent tracker holding snapshot entries only |
| `Dedup.LoadedIsPrefix` | internal/peeld/dedup.go:64-92 | A reload takes exactly the first entries listed, as many as the tracker holds |
| `Dedup.StepKeeps` | internal/peeld/dedup.go:127-197 | Every step keeps memory above everything let through, and the disk too but for the ids not saved yet |
| `Dedup.DedupTracker.Load` | internal/peeld/dedup.go:64-92 | Takes exactly the first entries listed, up to the capacity, with their epochs |
| `Dedup.DedupTracker.Observe` | internal/peeld/dedup.go:106-125 | Rejects exactly at or below the stored epoch and then changes nothing; else records the epoch, evicting the oldest id if full and new |
| `Dedup.DedupTracker.Flush` | internal/peeld/dedup.go:175-197 | A good save leaves exactly the tracker's map on disk and disarms the timer |
| `Dedup.DedupTracker.ObserveDurable` | internal/peeld/dedup.go:136-149 | An accepted dispatch with a good save is fenced on disk when it returns; a failed save re-arms the timer |
| `ExecQueue.JobsAreConserved` | internal/peeld/handler.go:69-198 | In every reachable state acknowledged jobs equal returned, unencodable, drained, queued, running and held ones; the queue keeps its bound and work starts in arrival order |
| `ExecQueue.OnlyUnfencedWorkRuns` | internal/peeld/handler.go:69-140 | In every run the accepted tasks are exactly those of messages that came to an idle callback and were not stale by the tracker of everything asked before; exactly the jobs among them are acknowledged; only they are queued, started or dropped, each once |
| `ExecQueue.FenceDecides` | internal/peeld/handler.go:80-97 | In every run a job whose epoch is not above the one on record changes nothing at all, and any other message that comes to an idle callback is taken, a job acknowledged |
| `ExecQueue.NoJobStartsTwice` | internal/peeld/handler.go:80-97 | One process never accepts or starts a job twice at one epoch, after a newer one, or at an epoch on record when it started, unless the tracker evicted the id |
| `ExecQueue.ShutdownDrains` | internal/peeld/handler.go:149-157 | After a shutdown a resting worker drops everything queued with its registrations, starts none of it and is gone |
| `ExecQueue.HandledMeans` | internal/peeld/handler.go:69-140 | A whole callback field by field: nothing for a stale job, else acknowledgement, fence, queue, registry and returns for read-only, queued and refused work |
| `ExecQueue.RegistryIsExact` | internal/peeld/handler.go:109-210 | While each job id is live at most once, the registry holds exactly the registered jobs, each with its own context |
| `ExecQueue.CancelReachesItsJob` | internal/peeld/handler.go:47-61 | With an exact registry a cancel reaches the job it names, or nothing |
| `ExecQueue.SharedIdLosesCancel` | internal/peeld/handler.go:202-210 | Releasing a job whose id a queued job shares leaves the queued one beyond cancelling |
| `ExecQueue.SharedIdIsReachable` | internal/peeld/handler.go:202-210 | That situation is reachable from any tracker by dispatching a job again at a newer epoch while it runs |
| `ExecQueue.TakenThenPlaced` | internal/peeld/handler.go:99-139 | A whole callback acknowledges and registers, then runs inline, queues or refuses |
| `ExecQueue.Agent.HandleExecRequest` | internal/peeld/handler.go:69-140 | A stale job leaves everything as it was; otherwise acknowledgements, fence, queue, registry and returns change as stated field by field for read-only, queued and refused work, and a taken job is fenced on disk if the save succeeds |
| `ExecQueue.Agent.FencesOff` | internal/peeld/handler.go:80-97 | Turns away exactly what the tracker rejects, unchanged; else records the epoch, on disk too if the save succeeds |
| `ExecQueue.Agent.DispatchExec` | internal/peeld/handler.go:168-198 | Exactly one return for a job whose result can be encoded, none otherwise |
| `ExecQueue.Agent.ServeOne` | internal/peeld/handler.go:158-160 | Takes the oldest task, starts it, returns its result once if it is a job and can be encoded, and drops its registration |
| `ExecQueue.Agent.DrainQueue` | internal/peeld/handler.go:149-157 | The drain empties the queue, releases exactly the queued jobs' ids and executes nothing |
| `ExecQueue.Agent.ReleaseExecCancel` | internal/peeld/handler.go:202-210 | Drops a job's registration by id and cancels its context |
| `ExecQueue.Agent.HandleJobCancel` | internal/peeld/handler.go:47-61 | Cancels the context registered for the id, if any |
| `RateLimit.SweepIsInvisible` | pkg/enroll/handler.go:710-785 | For every configuration that sweeps safely (capacity below one token, or a refill no slower than going stale), sweeping changes no decision on any trace |
| `RateLimit.RateIsBounded` | pkg/enroll/handler.go:710-785 | If sweeping changes no decision, one address passes at most capacity + rate x duration times in any stretch of any trace |
| `RateLimit.AdmitsExactly` | pkg/enroll/handler.go:735-784 | If sweeping changes no decision, a request is let through exactly if its address stays within capacity + rate x duration over every stretch that ends with it |
| `RateLimit.SweepsSafelyIff` | pkg/enroll/handler.go:710-785 | For every limiter three statements are equivalent: sweeping never changes a decision, the rate bound holds on every trace, the configuration sweeps safely |
| `RateLimit.EarlySweepBreaksTheBound` | pkg/enroll/handler.go:741-755 | In every other configuration a trace exists, with enough bystanders to trigger a sweep, on which one address exceeds the bound |
| `RateLimit.TokensConserved` | pkg/enroll/handler.go:751-780 | Passed requests plus remaining tokens never exceed the capacity plus what was refilled |
| `RateLimit.StaleIsFull` | pkg/enroll/handler.go:741-749 | In a configuration that refills in time, a bucket old enough to be swept is full again |
| `RateLimit.ConfiguredLimitersRefillInTime` | pkg/enroll/server.go:93-97 | Both limiters the server sets up sweep safely |
| `RateLimit.Limiter.Sweep` | pkg/enroll/handler.go:741-749 | Above the size bound it drops exactly the stale buckets |
| `RateLimit.Limiter.Handle` | pkg/enroll/handler.go:735-784 | One request's decision and the buckets after it |
| `RateLimit.Limiter.HandleAll` | pkg/enroll/handler.go:735-784 | The decisions on a whole trace; in a configuration that sweeps safely a request passes exactly if the bound has room for it |
| `Subjects.GrantedIffOwn` | pkg/auth/jwt.go:421-507 | A peel's publish grants match a subject in a peel's name exactly if it is its own and the message is a grantable one |
| `Subjects.TrustedOriginsAreOutOfReach` | pkg/bus/subjects.go:126-134 | No peel's grants match an event subject of a master or an operator |
| `Subjects.AllowsIffInstance` | pkg/auth/lint.go:182-199 | For every pattern the matcher decides exactly whether the subject arises by filling the wildcards of the pattern up to its first `>`, which is all of a well-formed one |
| `Subjects.SubjectAllows` | pkg/auth/lint.go:184-199 | The string loop decides token-wise wildcard matching |
| `Subjects.AnyGrantAllows` | pkg/auth/lint.go:173-180 | Whether some grant matches |
| `Subjects.SubjectTokens` | pkg/bus/subjects.go:157-256 | The token list of every subject the builders produce, also for dotted names, tags and job ids |
| `Subjects.JobGrantCovers` | pkg/auth/jwt.go:428-430 | A job grant matches exactly its own peel's messages of its kind for one-token job ids |
| `Subjects.CoveredBy` | pkg/auth/jwt.go:425-507 | Outside JetStream and inbox subjects only the peel's own grants, its bucket grants and target resolution matter |
| `Lint.PeelGrantsAreLintClean` | pkg/auth/jwt.go:421-526 | The grants every peel gets leave the linter nothing to find |
| `Lint.SubscribesExactly` | pkg/auth/jwt.go:508-524 | Over all subjects, exactly what a peel may subscribe to: its own commands and secrets and what is meant for all peels, never another peel's commands or secrets |
| `Lint.LintPermissions` | pkg/auth/lint.go:41-88 | A finding for exactly the consumer streams without a flow-control grant, severe for object stores, and one for a missing inbox |
| `Lint.ConsumerStreams` | pkg/auth/lint.go:144-169 | The sorted list of exactly the named streams the grants create consumers on |
| `Dotted.SplitOfJoin` | pkg/auth/lint.go:184-186 | Splitting gives back the dot-free tokens that were joined |
| `Dotted.JoinOfSplit` | pkg/auth/encrypt.go:128 | Joining the tokens of a text gives the text, so distinct texts split differently |
| `PeelId.ValidateIff` | pkg/enroll/verify.go:109-126 | The ordered checks accept exactly the documented pattern and length |
| `PeelId.SanitizePeelId` | pkg/enroll/verify.go:144-167 | The in-place rewriting computes the encoding |
| `PeelId.SanitizedIsValid` | pkg/enroll/verify.go:135-143 | Every non-empty result is a valid identifier |
| `PeelId.SanitizeExactly` | pkg/enroll/verify.go:144-167 | Everything before the first letter or digit goes, and the rest is encoded byte by byte and cut at 128 bytes |
| `PeelId.SanitizeIdempotent` | pkg/enroll/verify.go:144-167 | Encoding twice is encoding once |
| `PeelId.DisplayUndoesIff` | pkg/enroll/verify.go:225-245 | Display undoes the encoding on exactly the host-like names and the empty string |
| `PeelId.DisplayExactly` | pkg/enroll/verify.go:225-245 | In a valid identifier exactly the underscores become dots, and anything else is shown as it is |
| `PeelId.HostnamesStayDistinct` | pkg/enroll/verify.go:128-133 | Host names of section 2.1 of RFC 1123 up to 128 bytes display as themselves and get distinct identifiers |
| `PeelId.ResolvedIsValid` | internal/config/nodeid.go:47-121 | A resolved identity is valid, the later validity check never fires, and only the localhost guard tells derived from configured ones |
| `PeelId.ResolvedExactly` | internal/config/nodeid.go:47-121 | Which names are turned away, which yield nothing, and that any other yields its encoding; derived ones are turned away exactly if their first label names this host |
| `PeelId.LocalhostMeans` | internal/config/nodeid.go:163-174 | The guard fires exactly if the part before the first underscore is one of three names, in any letter case |
| `PeelId.DerivedIdentitiesStayDistinct` | internal/config/nodeid.go:100-121 | No two well-formed host names share a derived identity |
| `Glob.SanitizeGlobDots` | pkg/enroll/verify.go:184-218 | The scanning loops replace exactly the dots outside classes and escapes |
| `Glob.RewriteKeepsModes` | pkg/enroll/verify.go:169-183 | The rewriting keeps every byte a literal, escape or class member |
| `Glob.RewriteIdempotent` | pkg/enroll/verify.go:184-218 | Rewriting twice is rewriting once |
| `Glob.RewriteJoins` | pkg/enroll/verify.go:184-218 | A pattern that ends outside escapes and classes, followed by another, is rewritten part by part |
| `Glob.RewriteOfClass` | pkg/enroll/verify.go:190-206 | A class is left as it is, dots included |
| `Glob.RewriteOfEscape` | pkg/enroll/verify.go:188-189 | An escaped byte is left as it is, a dot too |
| `Glob.RewriteOnlyAdds` | pkg/target/glob.go:35-45 | On peel identifiers rewriting never loses a match, so matching either form is matching the rewritten one |
| `Glob.MatchingPatternUnchanged` | pkg/enroll/verify.go:169-183 | A pattern that matches an identifier as written is not changed |
| `Glob.DottedTargetsFindTheirNode` | pkg/target/glob.go:10-20 | A simple pattern that matches a host name finds its identifier when rewritten, and only then if it has no underscore |
| `Glob.ClassBodyEndsTogether` | pkg/enroll/verify.go:180-183 | A class the matcher accepts ends where the scan leaves it |
| `SettingsCrypt.RoundTripIff` | pkg/auth/encrypt.go:117-203 | Decrypting the encrypted form of a map without tagged text gives the map back exactly if no text was listed twice |
| `SettingsCrypt.OnlyListedTextChanges` | pkg/auth/encrypt.go:120-154 | Only text at listed paths differs in the encrypted map |
| `SettingsCrypt.SealingIsInvisible` | pkg/auth/encrypt.go:136-154 | Sealing plain text anywhere does not change what the map decrypts to |
| `SettingsCrypt.EncryptAtChanges` | pkg/auth/encrypt.go:136-154 | Encrypting at a path changes the text there, if any, and nothing else |
| `SettingsCrypt.EncryptAtFailsIff` | pkg/auth/encrypt.go:136-154 | Encrypting at a path fails exactly if there is text that cannot be sealed |
| `SettingsCrypt.EncryptionSucceeds` | pkg/auth/encrypt.go:120-134 | With a sealer that does not fail, encrypting never fails |
| `SettingsCrypt.DecryptFailsIff` | pkg/auth/encrypt.go:178-203 | Decrypting fails exactly if some text looks encrypted and does not open |
| `SettingsCrypt.DecryptExactly` | pkg/auth/encrypt.go:178-203 | A decrypted map has the same shape, tagged text is what it opens to and other text is as it was |
| `SettingsCrypt.LooksEncryptedIff` | pkg/auth/encrypt.go:104-106 | Text looks encrypted exactly if it is a payload in the tag |
| `SettingsCrypt.OpenUndoesSeal` | pkg/auth/encrypt.go:79-115 | The tagged form is recognised and opens to the plaintext |
| `SettingsHeap.DeepCopy` | pkg/auth/encrypt.go:156-166 | The copy has the same content and shares no map with the original |
| `SettingsHeap.EncryptAtPath` | pkg/auth/encrypt.go:136-154 | Seals in place at the path; on a sealing error nothing changed |
| `SettingsHeap.EncryptSettingsMap` | pkg/auth/encrypt.go:120-134 | An encrypted copy, with nothing that existed before modified |
| `SettingsHeap.DecryptMap` | pkg/auth/encrypt.go:178-203 | A decrypted copy, or an error exactly if some tagged text does not open |
| `SettingsHeap.SealAndOpen` | pkg/auth/encrypt.go:117-203 | Sealed under distinct dotted keys and opened again, settings are what they were |
| `SecretsDigest.PreimageInjective` | internal/masterd/settings.go:295-317 | The digest's input is equal exactly for secrets equal up to files that hold none |
| `SecretsDigest.FingerprintDetectsEveryChange` | internal/masterd/settings.go:291-317 | Without hash collisions the fingerprint tells any two extracted secret sets apart |
| `SecretsDigest.FieldIsPrefixFree` | internal/masterd/settings.go:311-314 | A length-prefixed field is read back uniquely from the front of any text |
| `SecretsDigest.BytesInjective` | internal/masterd/settings.go:304-315 | The bytes determine the sequence of triples |
| `SecretsDigest.SecretsFingerprint` | internal/masterd/settings.go:295-317 | The nested loops compute the fingerprint in whatever order the maps are listed |
| `Ordering.SortedUnique` | internal/masterd/settings.go:299-310 | A set has only one sorted listing |
| `Revocation.ListOnlyGrows` | internal/masterd/revocation.go:189-223 | While revoked records stay, the list only gains keys and times only rise |
| `Revocation.ListGrowsOverRuns` | internal/masterd/revocation.go:184-223 | Over any enrollment run that deletes no revoked record, the list derived from complete listings only grows |
| `Revocation.ListingOrderDoesNotMatter` | internal/masterd/revocation.go:196-216 | The list depends only on which records are listed |
| `Revocation.RevokedKeysMean` | internal/masterd/revocation.go:184-216 | A key is listed exactly if a revoked record carries it as a well-formed user key, at the latest time such a record takes effect: its decision, else its last update, else now |
| `Revocation.RevokedPeelsMean` | internal/masterd/revocation.go:217-221 | A peel is soft-revoked exactly if some listed record of it is revoked, none was updated later and none listed before it at the same time |
| `Revocation.WantMeans` | internal/masterd/revocation.go:239-242 | The list to push holds exactly the keys of revoked records, each at the latest time one takes effect, in whole seconds |
| `Revocation.SyncedMeans` | internal/masterd/revocation.go:231-287 | What a sync comes to: failure noted, soft-revoked peels, success exactly if taken or unchanged and not forced, and which list was pushed last |
| `Revocation.PeelsDependOnOrderIff` | internal/masterd/revocation.go:197-221 | The soft-revoked peels depend on the listing order exactly if two latest records of a peel tie and disagree |
| `Revocation.SyncSettlesTheList` | internal/masterd/revocation.go:231-287 | A successful sync leaves the server with the derived list, and sends nothing only if the last list it took is that one |
| `Revocation.TakenListsOnlyGrow` | internal/masterd/revocation.go:231-287 | While revoked records stay in the listings, later lists the server took contain all earlier ones with times no earlier |
| `Revocation.TakenListsGrowOverRuns` | internal/masterd/revocation.go:231-287 | A syncer whose rounds list the store completely at later and later moments of an enrollment run that deletes no revoked record never takes a revocation back |
| `Revocation.Syncer.Load` | internal/masterd/revocation.go:189-223 | The listed keys with their latest times, and the peels whose current record is revoked, both stated over the records |
| `Revocation.Syncer.Sync` | internal/masterd/revocation.go:231-287 | The syncer's whole new state; after a good listing a peel counts as revoked exactly if its current record is revoked |
| `Revocation.Syncer.MarkRevoked` | internal/masterd/revocation.go:166-174 | Adds the peel at once and keeps the others |
| `Beacon.NoEventUnaccounted` | pkg/beacon/manager.go:196-246 | After any ticks the buffer is a bounded suffix of all events, and each earlier one was published once in order or dropped as the oldest |
| `Beacon.NothingDroppedIff` | pkg/beacon/manager.go:223-231 | Nothing was ever dropped exactly if at every tick the new events fitted beside what was still buffered |
| `Beacon.TickSends` | pkg/beacon/manager.go:196-246 | Of what was buffered and what a tick adds the newest that fit are kept; as many as get through are published from the front, in order, and the rest stays |
| `Beacon.EverythingGetsThrough` | pkg/beacon/manager.go:223-246 | While everything fits, what was published followed by what is buffered is all that was generated; a tick that gets all of it through leaves the buffer empty and everything published |
| `Beacon.EventsChain` | pkg/beacon/service.go:45-93 | In change-only mode the events of a continuously configured service are changes that chain |
| `Beacon.EventsExactly` | pkg/beacon/service.go:56-93 | The events of a continuously configured service are exactly those its readings call for, through errors and changes of mode: each change is reported once and nothing else is |
| `Beacon.ForgottenServiceRebaselines` | pkg/beacon/service.go:54-92 | A service missing from a poll is forgotten and its next observation emits nothing |
| `Beacon.Manager.Enqueue` | pkg/beacon/manager.go:223-231 | Appends, dropping exactly the oldest when full |
| `Beacon.Manager.Flush` | pkg/beacon/manager.go:235-246 | Publishes exactly as many of the oldest events as get through, in order, and keeps exactly the rest |
| `Beacon.Manager.PollServices` | pkg/beacon/service.go:56-93 | Updates baselines, emits events and prunes unconfigured services |
| `Beacon.Manager.DoTick` | pkg/beacon/manager.go:196-219 | Polls unless busy or without a provider, then always publishes exactly what gets through of the newest events |

## Left out

- Connections, TLS, HTTP, server-sent events, file and directory I/O: plumbing over libraries.
- Signatures, JWT encoding, sealed boxes, X.509, base64 and msgpack themselves.
- `Store.Delete`, which only tests call: index and revocation results are about runs without it.
- Record fields that no decision reads: decided-by, reason, hostname, metadata, addresses, expiry.
- EnrollIndex.OneKeyPerPeel: does not cover runs with an effective release or a rolled back record, because neither removal is fenced in the code; `EnrollIndex.OneOpenKeyPerPeel` and `EnrollRelease.RemovalIsSafeIffIdle` give the boundary.
- EnrollHandler.Handler.HandleEnroll: does not model request parsing and the format checks before the challenge is consumed; the peel identifier check is in `PeelId`.
- Enrollment.FoldIsSameButCase: covers the letters A to Z only; the comparison in the code also folds letters outside ASCII.
- Revision.GivingUpWitnessesWrites: counts writes to the key since the call began, its own unheard ones included as faults.
- Decimal.ScanOfShow: does not model leading blanks and signs that the scanner also accepts, which no writer produces.
- Dedup.NoJobRunsTwice: does not cover dispatches without an epoch, which the code does not fence.
- Lint.LintPermissions: does not state the order and wording of the findings.
- Glob.RewriteOnlyAdds: does not cover the reactor's own glob translation, which reads classes differently, or patterns with non-ASCII characters.
- PeelId.ResolvedIsValid: does not model trimming of configured values and the identity pin file.
- Beacon.Manager.DoTick: does not model event identifiers and timestamps.
- Revocation.Syncer.Sync: does not model syncs that overlap, listings that skip unreadable records, and the token and timestamps of a push.
- ExecQueue.Agent.HandleExecRequest: does not model other goroutines between its own steps, which the interleaved machine in the same module covers, and messages that cannot be decoded, which are answered with an error and not taken.
- Float rounding in the rate limiter; jitter, back-off and timers beyond the order of steps they allow.
- Configuration loading, metrics, logging, health endpoints and documentation generation.
