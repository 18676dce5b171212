# Verified model of the agent-coherence adapters

agent-coherence lets several AI agents work on shared artifacts without losing each other's updates. A
coordinator gives every artifact a version, grants sessions a view of it (SHARED, EXCLUSIVE, MODIFIED, INVALID)
and elects the winner of each optimistic commit. The adapters around it keep the real content elsewhere: in a
Postgres row, an S3 object, a file of a workspace, or an in-process cache. This project models the protocols
between the two in Dafny 4.11 and proves what they promise over whole runs, for any number of agents and any
interleaving. `dafny verify dfyconfig.toml` checks all of it.

| file | models |
|---|---|
| `Foundations.dfy`, `Grants.dfy` | bytes, digests, sessions, grant states |
| `ForeignStore.dfy` | conditional writes to a versioned row or an object, and the re-read after a lost answer |
| `CommitProtocol.dfy` | one coordinator-mediated commit: check, store write, bump, reconcile, re-drive |
| `CommitSystem.dfy` | any number of such agents, with ghost writes, late bumps and outsiders |
| `ObjectPut.dfy` | the bounded put loop of a versioned object |
| `VolumeProtocol.dfy` | one optimistic file write: re-minted identities, comparand reads, budgets |
| `VolumeSystem.dfy` | any number of volumes on one strict path |
| `EffectFence.dfy` | the gate in front of an irreversible effect |
| `Registry.dfy`, `RegistryFence.dfy`, `AgentCache.dfy`, `AgentRuntime.dfy`, `RuntimeSystem.dfy`, `RuntimeOverlaps.dfy` | the in-process agents: cached reads, writes, late broadcasts and invalidations |
| `Publish.dfy` | all-or-nothing publication of a set of files |
| `ForeignEdit.dfy` | the baseline that keeps a plain write from clobbering an outside edit |
| `OpGuard.dfy`, `SweepGate.dfy` | the single-operation guard and the sweep rate limit |
| `Conninfo.dfy` | the libpq keyword/value scanner |

## How the model is built

- *One call, then all calls.* Where a loop talks to the outside (a commit, an optimistic file write), its
  control is a function `Next` from a stage and an answer to the next stage. The imperative class is proved to
  follow it against any answers whatsoever, and its transcript obeys the budgets. The system module then lets
  any number of callers take the same steps against one store or disk and one coordinator, interleaved call by
  call, and the main theorems are invariants of those runs.
- *The coordinator* is modelled from its own code, reduced to what one artifact needs: version, recorded hash,
  session views, recent committer, and for the in-process registry also observed versions, transients and
  ownership generations.
- *Hashes.* SHA-256 is taken as injective (`Digest`).
- *Randomness, clocks, the network and the disk* enter as arguments or as scripts of answers (`nat -> ...`), so
  every theorem is for all of them. Identities minted at random are `Session(agent, mint)`: two agents never
  share one and an agent never mints one twice.
- *Starting point.* Runs start from an artifact that is registered at version 1 with the content the store or
  disk holds.
- The one Python class `CoherentVolume` is split by concern: optimistic writes, publication, foreign edits and
  the guard each have their own class with the fields they use.

## Findings

- *One landed write can be recorded twice.* The recorded hashes follow the store's history in every run, never ahead of it
  and never reordered (`CommitSystem.RecordsFollowStore`), but `CommitSystem.RetryIsRecordedTwice` is one agent that
  retries a commit whose bump took effect unseen, and its one landed write becomes two versions.
  `CommitSystem.RecordedTwiceExactly` gives the exact condition: a bump takes effect for bytes that were already the record
  when their commit passed its check. A caller that never commits what the coordinator already records is safe
  (`CommitSystem.RecordsFollowStrictly`).
- *An acknowledged file write can be undone.* `write_cas` promises that a successful return means the update
  landed, and the coordinator accepts a commit of unchanged bytes. In `VolumeSystem.UnchangedWriteUndoesAnother` one volume wins
  with the content it read and is delayed; another reads, wins, replaces the file and is told that it landed; then the
  first puts the old content back. A load that is overtaken by a commit of the same bytes does it as well
  (`VolumeSystem.RepeatedContentBreaksExclusion`). The theorems on the file are proved for all runs in which each winner's bytes
  differ from the file's content, a check the caller can make on what `make_content` returns, and from every load
  under an unknown identity that is not yet checked. `VolumeSystem.RenewingExactly` shows that this is exactly when no clean
  read can be wrong, and `VolumeSystem.UnchangedWinIsNotAlone` and `VolumeSystem.LoadedSlipsThrough` that a commit which
  violates either half lets a second winner in. Committing only bytes that the file has never held is enough
  (`VolumeSystem.NeverHeldRenews`).
- *An unconfirmed commit may have landed.* The message of `write_cas` says that it did not.
  `VolumeSystem.UnconfirmedYetCommitted` is a run in which it takes effect after its caller was told so;
  `VolumeSystem.LostCommitExactly` says when: exactly if it is not turned away and its version is still current as it
  arrives. It never reaches the file.
- *The file can stay behind the version*, after such a commit or after a replacement that fails
  (`VolumeSystem.FailedReplaceStaysBehind`). `VolumeSystem.FileIsKeptRecords` says what the file then is, and
  `VolumeSystem.FileTracksVersion` that with nobody pending it is current exactly if neither happened.
- *A late broadcast can take a fresh write claim.* `handle_update` protects the recipient's claim but moves the
  named writer to SHARED; if that writer has re-acquired meanwhile, its next commit is refused.
  `Registry.ClaimsUnderBroadcast` gives the exact condition, `Registry.LateBroadcastTakesFreshClaim` a run. The
  docstring only speaks of the recipient.
- *A broadcast may overlap its recipient's own accesses.* A fetch, a commit, a broadcast and a cached read each touch
  the entry and the body one after the other, and only the broadcast holds a lock. `AgentRuntime.OverlapsExactly`
  and `RuntimeSystem.ApartIsExact` say exactly which overlaps tear the pair. `RuntimeOverlaps.OverlapsTear` is a
  run in which a read returns a pair that was never committed and an optimistic write wins with content derived
  from the version before the last. The theorems on reads and on the fold of the winners are proved for all runs
  without such an overlap; outcomes and the single writer for all runs.
- *An agent alone cannot write optimistically.* Its fetch is granted EXCLUSIVE, and an EXCLUSIVE holder's optimistic
  commit is refused: `Registry.LoneFetcherIsRefused`. The comment in `write_cas` says that the writer is never E.
- *A rejected `reacquire` is not harmless.* It re-mints the identity before it meets the guard:
  `OpGuard.RejectionChangesOnlyIdentity` and `OpGuard.IdentityMovesUnderOpenOperation`.
- *Comparand reads absolve foreign edits.* The read inside an optimistic write moves the baseline even if its
  bytes never reach the caller: `ForeignEdit.ComparandReadAbsolves`. An edit between the guard's look and the
  replacement is lost: `ForeignEdit.EditInWindowIsLost`.
- *Without a recorded content hash the fence vouches for the grant only*: `EffectFence.UnclaimedBytesMayDiffer`.

## Model

| member | source | states |
|---|---|---|
| `ForeignStore.TokenNamesPosition` | src/ccs/adapters/coherent_row.py:388-421 | a row version, or an ETag while contents do not repeat, names one position of the write history, so each token has one winner |
| `ForeignStore.OneWinnerPerVersion` | src/ccs/adapters/coherent_row.py:388-421 | over every run of conditional and outside row updates each version has at most one conditional winner, and the winner replaced exactly that version |
| `ForeignStore.ConvergenceOverRuns` | src/ccs/adapters/coherent_row.py:454-481 | over every run since the token was current, CONVERGE holds exactly if one update landed and it carries the intended bytes, and never if no update carries them |
| `ForeignStore.RowConvergence` | src/ccs/adapters/coherent_row.py:454-481 | CONVERGE after an unknown row write holds exactly if one update landed since the expected version and it carries the intended bytes; without such bytes it never converges |
| `ForeignStore.ObjectConvergence` | src/ccs/adapters/coherent_object.py:558-591 | for an object with distinct contents, RE_DRIVE holds exactly if nothing landed since, CONVERGE exactly if something did and the intended bytes are current |
| `CommitProtocol.CommitBudget` | src/ccs/adapters/substrate.py:702-859 | from any stage a commit ends within seven calls, at most two store writes and at most one bump |
| `CommitProtocol.WritesUnderCallersToken` | src/ccs/adapters/substrate.py:808-859 | for one commit: if the store reports an unmoved token with RE_DRIVE, every store write carries the caller's token and bytes, and every bump their hash |
| `CommitProtocol.BumpOnlyAfterStore` | src/ccs/adapters/substrate.py:758-806 | the coordinator is asked to bump only after a store win or a CONVERGE verdict for these bytes, and a success that is no no-op has both behind it |
| `CommitProtocol.CoordinatedSubstrate.Read` | src/ccs/adapters/substrate.py:670-689 | a read that gets an answer makes the loaded bytes' hash the observed one even if it then raises; it ends as its two answers say: missing, failed, a wedged view on a coordinator-behind deny, a stale view on a peer's commit if the caller wants that raised, and the bytes otherwise |
| `CommitProtocol.CoordinatedSubstrate.Reacquire` | src/ccs/adapters/substrate.py:691-700 | a new identity is minted first, no deny is raised, and the bytes are returned and observed exactly if they are there and the coordinator answers |
| `CommitProtocol.CoordinatedSubstrate.Commit` | src/ccs/adapters/substrate.py:702-756 | against any answers the transcript of a commit conforms to the protocol and ends in its outcome; the observed hash moves exactly on a success that is no no-op |
| `CommitProtocol.CoordinatedSubstrate.AfterSubstrateWrite` | src/ccs/adapters/substrate.py:758-770 | the same for the part after the store's answer |
| `CommitProtocol.CoordinatedSubstrate.DriveBump` | src/ccs/adapters/substrate.py:772-787 | the same for the bump |
| `CommitProtocol.CoordinatedSubstrate.ResolveBumpConflict` | src/ccs/adapters/substrate.py:789-806 | the same for the re-check after a lost bump |
| `CommitProtocol.CoordinatedSubstrate.ReconcileUnknown` | src/ccs/adapters/substrate.py:808-828 | the same for the re-read after an unknown store answer |
| `CommitProtocol.CoordinatedSubstrate.ReDrive` | src/ccs/adapters/substrate.py:830-859 | the same for the one re-drive |
| `CommitSystem.RecordsFollowStore` | src/ccs/adapters/substrate.py:670-859 | in every run of any number of agents, with ghosts, late bumps, outsiders and repeated contents, the recorded hashes lie in order in the store's write history: never ahead, never reordered |
| `CommitSystem.RecordsFollowStrictly` | src/ccs/adapters/substrate.py:702-859 | in every run in which no commit passes its check with bytes that are already the record, each recorded hash has a landed write of its own, in order |
| `CommitSystem.RecordedTwiceExactly` | src/ccs/adapters/substrate.py:702-859 | in every run a hash is recorded at two successive versions if and only if the bump of a commit takes effect whose bytes were the record at the version its check saw |
| `CommitSystem.StrictExactly` | src/ccs/adapters/substrate.py:702-859 | where no content lands twice, the recorded hashes are a strict subsequence of the history if and only if no such bump takes effect |
| `CommitSystem.LandedWritesReplaceTheirToken` | src/ccs/adapters/substrate.py:808-859 | in every run each landed conditional write replaced exactly the state whose token its author passed |
| `CommitSystem.TokensAreFresh` | src/ccs/adapters/coherent_row.py:388-421 | row tokens never come back, and ETags do not while no content does |
| `CommitSystem.OneLandedWritePerToken` | src/ccs/adapters/substrate.py:808-859 | in every run whose tokens do not come back at most one write under a token lands, so of ghost and re-drive at most one does |
| `CommitSystem.SuccessMeansBothLegs` | src/ccs/adapters/substrate.py:702-859 | in every run, with repeated contents or not, a commit that now succeeds and is no no-op has its bytes in the store at a position no earlier than the last one when it began, and leaves their hash as the coordinator's last |
| `CommitSystem.OutcomesAreExact` | src/ccs/adapters/substrate.py:702-859 | in every run, at every call: the commit ends with an outcome if and only if that outcome's condition on store, record, session and call holds; a stale view is an INVALID session, a wedged view an absent object or a record of other bytes, a conflict a store that moved on or a lost bump |
| `CommitSystem.StoreConflictChangesNothing` | src/ccs/adapters/substrate.py:758-770 | a conflict at the commit's own store write leaves store, record and everything in flight as they were |
| `CommitSystem.UndisturbedCommitGoesThrough` | src/ccs/adapters/substrate.py:702-787 | a commit of new bytes under the current token by a session in good standing goes through in three answered calls: one landed write, the next version, success |
| `CommitSystem.LostPutIsRedriven` | src/ccs/adapters/substrate.py:808-859 | a put whose answer was lost and which did not land is sent once more under its token, lands, is recorded and reported, if nobody moved object or record |
| `CommitSystem.LandedPutIsRecorded` | src/ccs/adapters/substrate.py:808-828 | one that did land is found and recorded without a second write |
| `CommitSystem.LostWriteExactly` | src/ccs/adapters/substrate.py:808-859 | a store write whose answer is lost lands, whatever happens before it arrives, exactly if its token is then current; it never touches the record |
| `CommitSystem.AbsentReadGivesNothing` | src/ccs/adapters/substrate.py:670-689 | a read of an absent object changes nothing that was observed |
| `CommitSystem.PeersMustReacquire` | src/ccs/adapters/substrate.py:702-756 | once another session's bump takes effect, whatever happens next, a commit of a known session ends in a stale view at its check, unless its own bump took effect or it has a new identity |
| `CommitSystem.ReacquiredCommitGoesThrough` | src/ccs/adapters/substrate.py:691-756 | in every run, once the record is what the store holds, a re-acquisition followed by a commit goes through if left alone, whatever standing was lost |
| `CommitSystem.RedriveBeatenByGhost` | src/ccs/adapters/substrate.py:830-859 | in every run whose tokens do not come back, a re-drive under whose token a write has landed goes on to bump if its bytes are current and reports a conflict otherwise; it lands nothing |
| `CommitSystem.CommitsConform` | src/ccs/adapters/substrate.py:702-859 | in every run each commit's own calls follow the protocol and its budgets |
| `CommitSystem.CommitsKeepTheirWord` | src/ccs/adapters/substrate.py:702-859 | in every run, with repeated contents or not: each store write of a commit, the re-drive included, carries its caller's token and bytes, each bump records their hash and comes after the store vouched, and success has both legs behind it |
| `CommitSystem.RetryIsRecordedTwice` | src/ccs/adapters/substrate.py:702-859 | a run of one agent, always with the token of its latest read, whose retried commit lands once and is recorded at two successive versions |
| `ObjectPut.LandsOnNamedState` | src/ccs/adapters/coherent_object.py:495-525 | a put conditioned on an ETag or on absence lands exactly if its condition is met, and then adds one entry on top of the state it names |
| `ObjectPut.S3Key.PutObject` | src/ccs/adapters/coherent_object.py:356-383 | a put that answers ok landed, one with an error code did not, a cut one has landed, may land later, or neither; all landed puts replaced what their comparand names |
| `ObjectPut.S3Key.CasWriteVersioned` | src/ccs/adapters/coherent_object.py:653-685 | at most nine puts, all under the same ETag or create-if-absent comparand; every answer but the last is the transient 409, and the last one determines the result; a win means exactly one landed and replaced it; conflict, exhaustion or an error means none did; after these none can land later, and after an unknown outcome at most one did or can |
| `ObjectPut.S3Key.LandFloating` | src/ccs/adapters/coherent_object.py:653-685 | a cut put that arrives after the call has returned lands exactly if its comparand is met then, on the state it names |
| `VolumeProtocol.WriteBudget` | src/ccs/adapters/coherent_volume.py:941-1072 | from any stage on, posts, comparand reads and file replacements stay within what the stage has left, a lexicographic measure of attempts and denied reads |
| `VolumeProtocol.WholeWriteBudget` | src/ccs/adapters/coherent_volume.py:941-1072 | a whole call makes at most 9 posts, 81 comparand reads and one file replacement; a write at a given version one post and one read |
| `VolumeProtocol.CallEndsExactly` | src/ccs/adapters/coherent_volume.py:941-1162 | against any answers every read and write ends as its transcript says; an update gives up if and only if nine posts lost with a retryable reason, or nine comparand reads in a row were denied; the version it then names is the latest it was told |
| `VolumeProtocol.EndIsUnique` | src/ccs/adapters/coherent_volume.py:941-1162 | the transcript leaves no other outcome |
| `VolumeProtocol.LandedMeansReplaced` | src/ccs/adapters/coherent_volume.py:1027-1038 | an optimistic write reports success exactly if it replaced the file |
| `VolumeProtocol.ReplaceOnlyAfterWin` | src/ccs/adapters/coherent_volume.py:1027-1038 | every file replacement follows a confirmed win for the very bytes it writes |
| `VolumeProtocol.FreshIdentities` | src/ccs/adapters/coherent_volume.py:823-851 | every comparand read of a write is made under an identity no earlier read used |
| `VolumeProtocol.CoherentVolume.RemintIdentity` | src/ccs/adapters/coherent_volume.py:823-851 | a new identity, the commit cache emptied, the observed baseline kept |
| `VolumeProtocol.CoherentVolume.WriteCas` | src/ccs/adapters/coherent_volume.py:923-1072 | against any server the loop ends, its transcript conforms to the protocol and ends as that transcript says, and make_content is called once per post |
| `VolumeProtocol.CoherentVolume.WriteCasAt` | src/ccs/adapters/coherent_volume.py:1103-1162 | the single-attempt variant conforms and ends exactly too, under a fresh identity |
| `VolumeSystem.CleanReadValidates` | src/ccs/adapters/coherent_volume.py:823-851 | in every run whose commits renew (a winner's bytes differ from the file's content and from unchecked loads under unknown identities) a hash-checked read that is not denied holds the file's current bytes, and no winner is outstanding |
| `VolumeSystem.NoLostUpdateOnDisk` | src/ccs/adapters/coherent_volume.py:945-1056 | in every such interleaving, with lost and late commits, failing replacements and contents that come back, the file is the fold of the operations that replaced it, each applied to the bytes it was derived from, and at most one winner is outstanding |
| `VolumeSystem.FileIsKeptRecords` | src/ccs/adapters/coherent_volume.py:945-1056 | in every such run the file has gone through exactly the committed contents that are not orphaned, in version order; if no committed content repeats, an orphaned one never reaches it |
| `VolumeSystem.FileTracksVersion` | src/ccs/adapters/coherent_volume.py:945-1056 | in every such run: with nobody pending the file is the current version and the fold of all winners exactly if no commit was orphaned; with a winner pending and no orphan it is the previous version and that winner's base |
| `VolumeSystem.RenewingExactly` | src/ccs/adapters/coherent_volume.py:945-1056 | the condition is exact: every commit of a run renews if and only if at no point a loaded volume's or a newcomer's read can be clean without its bytes being the file's and nobody outstanding |
| `VolumeSystem.NeverHeldRenews` | src/ccs/adapters/coherent_volume.py:945-1056 | a run whose commits are all of bytes the file has never held renews, retries of unconfirmed commits included |
| `VolumeSystem.DistinctRenews` | src/ccs/adapters/coherent_volume.py:945-1056 | so does a run without repeated contents |
| `VolumeSystem.UnchangedWinIsNotAlone` | src/ccs/adapters/coherent_volume.py:945-1056 | at any reachable state, after a win with the file's own content any newcomer's update wins too, with both replacements outstanding |
| `VolumeSystem.LoadedSlipsThrough` | src/ccs/adapters/coherent_volume.py:945-1056 | after a commit of bytes that an update has loaded under an unknown identity, that update becomes a second winner, or is about to replace a content it never read |
| `VolumeSystem.UnchangedWriteUndoesAnother` | src/ccs/adapters/coherent_volume.py:1027-1038 | for any two volumes and any update a run in which the update is acknowledged as landed and the file then returns to its old content |
| `VolumeSystem.UnconfirmedYetCommitted` | src/ccs/adapters/coherent_volume.py:1003-1025 | a run in which the caller is told that its commit did not land and it is recorded |
| `VolumeSystem.LostCommitExactly` | src/ccs/adapters/coherent_volume.py:1003-1025 | a commit whose answer is lost is reported unconfirmed and, whatever happens before it arrives, takes effect exactly if it is not turned away and its version is then still current; it does not touch the file |
| `VolumeSystem.FailedReplaceStaysBehind` | src/ccs/adapters/coherent_volume.py:1562-1572 | a winner whose replacement fails: the version is recorded, the file is unchanged, and the commit is an orphan |
| `VolumeSystem.WritesConform` | src/ccs/adapters/coherent_volume.py:923-1072 | in every run, with repeated contents or not, each operation's own calls follow the protocol |
| `VolumeSystem.WritesWithinBudget` | src/ccs/adapters/coherent_volume.py:941-1072 | so inside any interleaving a whole write makes at most 9 posts, 81 comparand reads and one file replacement |
| `VolumeSystem.LostRaceIsRetried` | src/ccs/adapters/coherent_volume.py:1039-1056 | a post that finds its version overtaken, or is turned away, leads to another attempt under a new identity until the ninth loss, which names the current version |
| `VolumeSystem.RetryLands` | src/ccs/adapters/coherent_volume.py:945-1056 | in every run a call that has lost up to eight races, or was denied, lands as soon as it is left alone with an up-to-date file |
| `VolumeSystem.ReacquiredStartsUnknown` | src/ccs/adapters/coherent_volume.py:823-851 | in every run an operation that re-acquires, and every write at a given version, starts under an identity the coordinator never heard of, and such an update lands if left alone |
| `VolumeSystem.DeniedExactly` | src/ccs/adapters/claude_code/coordinator_server.py:1485-1690 | a read is denied exactly if the session lost its standing, or the bytes are not the recorded ones and the session did not just commit itself |
| `VolumeSystem.StaleLoadPasses` | src/ccs/adapters/coherent_volume.py:1677-1768 | a delayed load of content that was committed away and back passes the hash check and makes a second outstanding winner |
| `VolumeSystem.RepeatedContentBreaksExclusion` | src/ccs/adapters/coherent_volume.py:945-1056 | a concrete run of that, in which a commit does not renew |
| `EffectFence.FiredMeansUnchanged` | src/ccs/adapters/effect_gate.py:131-145 | if the gate fires, then between the two coordinator answers no commit happened, the generation did not move and the grant stood at every moment, the effect got the decision on the captured bytes, and a recorded file still holds them |
| `EffectFence.UndisturbedFires` | src/ccs/adapters/effect_gate.py:289-324 | the converse: an undisturbed, confirmed input with unchanged bytes passes |
| `EffectFence.PreemptionHoldsForever` | src/ccs/adapters/claude_code/coordinator_server.py:1485-1890 | after a peer's write acquire every re-check holds, however often and whatever others do, and a re-check changes no grant |
| `EffectFence.EveryHoldHasACause` | src/ccs/adapters/effect_gate.py:148-241 | no input reaches the assertion arm |
| `EffectFence.CausesAreExact` | src/ccs/adapters/effect_gate.py:148-324 | the gate stops with a cause if and only if that is what happened: a vanished file, an unanswered read, a commit, a denied re-read, an unconfirmed generation, a reclaimed or a preempted grant |
| `EffectFence.LossIsReportedAsDenied` | src/ccs/adapters/effect_gate.py:174-180 | on a strict path a reclaimed or preempted grant with no commit since is reported as a denied re-read |
| `EffectFence.ForeignEditStops` | src/ccs/adapters/effect_gate.py:174-190 | other bytes in the file than the recorded ones stop an otherwise undisturbed gate: as denied on a strict path unless the session just committed, else for want of a confirmed generation |
| `EffectFence.ConfirmedExactly` | src/ccs/adapters/coherent_volume.py:1784-1817 | a capture is confirmed exactly if a generation is reported, the file holds what is recorded, and a strict session has not lost its grant |
| `EffectFence.LossIsSticky` | src/ccs/adapters/claude_code/coordinator_server.py:1690-1790 | a lost grant stays lost under anything the other sessions do |
| `EffectFence.UnclaimedBytesMayDiffer` | src/ccs/adapters/coherent_volume.py:1784-1817 | for every standing session whose artifact has no recorded content, seed or filler, the gate fires whatever the file is rewritten to meanwhile |
| `AgentCache.ArtifactCache.Invalidate` | src/ccs/agent/cache.py:29-54 | the entry becomes INVALID with its version lowered to the bound, or a placeholder is made; nothing else changes |
| `AgentCache.ArtifactCache.InvalidateAll` | src/ccs/agent/cache.py:56-71 | every present entry is lowered, and no entry appears |
| `AgentCache.InvalidationsMeet` | src/ccs/agent/cache.py:29-54 | any non-empty list of invalidations in any order leaves the entry INVALID at the least of its version and all bounds, not below zero, other fields unchanged |
| `AgentCache.PlaceholderFollowsFirstSignal` | src/ccs/agent/cache.py:38-46 | for an absent entry the order does show |
| `AgentCache.AllIsEach` | src/ccs/agent/cache.py:56-71 | invalidating all equals invalidating each present key, in any order and with repetition |
| `Registry.FetchKeepsOneWriter` | src/ccs/coordinator/service.py:498-552 | a fetch leaves at most one write grant |
| `Registry.AcquireKeepsOneWriter` | src/ccs/coordinator/service.py:1885-1924 | so does the pessimistic acquire |
| `Registry.CommitKeepsOneWriter` | src/ccs/coordinator/service.py:1958-2060 | so does a commit |
| `Registry.CasKeepsOneWriter` | src/ccs/coordinator/registry.py:697-878 | so does an optimistic commit |
| `Registry.RevokeKeepsOneWriter` | src/ccs/coordinator/service.py:2843-2923 | so do an invalidation and a sweep |
| `Registry.UpdateKeepsOneWriter` | src/ccs/agent/runtime.py:359-411 | so does a broadcast delivery |
| `Registry.ClaimsUnderBroadcast` | src/ccs/agent/runtime.py:359-411 | a broadcast never takes the recipient's write claim, and takes another agent's exactly if that agent is its named writer, it is of the current version and the recipient has no claim |
| `Registry.LateBroadcastTakesFreshClaim` | src/ccs/agent/runtime.py:407-411 | a run in which a writer's fresh EXCLUSIVE claim is lost to the late broadcast of its own last commit |
| `Registry.LoneFetcherIsRefused` | src/ccs/coordinator/service.py:2150-2175 | right after its own fetch an agent's optimistic commit is refused as a grant holder's exactly if it is the only holder |
| `Registry.FetchGrants` | src/ccs/coordinator/service.py:498-552 | a fetch grants EXCLUSIVE exactly if nobody else holds, shrinks a peer's write grant to a read grant, and takes no grant |
| `Registry.AcquireTakes` | src/ccs/coordinator/service.py:1885-1924 | an acquire leaves the caller the one holder, and every former holder INVALID and in transition |
| `Registry.CommitDecides` | src/ccs/coordinator/service.py:1958-2060 | a commit is accepted exactly from a write grant no revocation has overtaken; it appends its content and leaves the committer the one holder; refused it changes no content and no grant |
| `Registry.CasDecides` | src/ccs/coordinator/registry.py:697-878 | an optimistic commit wins exactly if the caller is in no transition and holds no write grant, the version is expected, nobody else holds one, and no revocation has overtaken its read; otherwise nothing changes |
| `RegistryFence.FenceIsExact` | src/ccs/coordinator/registry.py:697-878 | in every run of the registry's operations both kinds of commit go through exactly if their grants allow it and, since the agent's last claim, no write grant was revoked |
| `RegistryFence.RevokedCannotCommit` | src/ccs/coordinator/service.py:1958-2060 | a reclaimed or self-released writer cannot commit until it claims again |
| `AgentRuntime.OverlapsExactly` | src/ccs/agent/runtime.py:359-395 | two writers of the pair that cross or keep apart leave a coherent pair; one inside the other, and a cached read inside or around a broadcast, give a committed pair exactly if the bytes are the same |
| `AgentRuntime.Runtime.Refresh` | src/ccs/agent/runtime.py:417-441 | a fetch caches and returns the current version with its content |
| `AgentRuntime.Runtime.Read` | src/ccs/agent/runtime.py:62-83 | a read calls the coordinator exactly if the strategy wants a fetch; under any strategy but the blind one it returns a committed version with its own content; a hit touches only the entry |
| `AgentRuntime.Runtime.Write` | src/ccs/agent/runtime.py:85-147 | whatever others do and whatever arrives between the calls, a write makes its calls in order, commits exactly one version with this content and caches it as MODIFIED, or reports the coordinator's refusal; a wrong hash is refused before any call |
| `AgentRuntime.Runtime.Attempt` | src/ccs/agent/runtime.py:213-261 | one attempt posts once, or not at all if the producer's hash is wrong, and a win derives its content from exactly the version before, with messages arriving at any point |
| `AgentRuntime.Runtime.Propose` | src/ccs/agent/runtime.py:213-222 | a proposal against the current version is made from the current content, even if messages arrive between the looks at entry and body |
| `AgentRuntime.Runtime.WriteCas` | src/ccs/agent/runtime.py:198-271 | whatever others do, whatever arrives in its own cache and whatever the strategy allows, it goes on exactly while its posts lose and attempts are left; a win commits and caches one version derived from exactly its predecessor; anything else commits nothing |
| `AgentRuntime.Runtime.Deliver` | src/ccs/agent/runtime.py:287-411 | any message a commit can have sent has the effect of its handler on cache and registry, keeps the cache coherent, keeps the entry and never loses the current body |
| `AgentRuntime.SignalTakesExactly` | src/ccs/coordinator/service.py:2905-2923 | a peer's signal of version v changes neither grant nor cache of a holder that has observed v or newer, and takes both from anyone else; an agent's own signal always does |
| `AgentRuntime.BroadcastTakesExactly` | src/ccs/agent/runtime.py:359-411 | a broadcast of the current version is cached and granted by every agent without a write claim; any other moves no grant and no cache; both clear transitions |
| `AgentRuntime.ServedExactly` | src/ccs/strategies/lease.py:30-57 | after a fetch and any cached reads, a lease refetches exactly from its expiry on, an access count exactly at its maximum, every other strategy only once INVALID, and the blind one never |
| `AgentRuntime.Runtime.HandleInvalidation` | src/ccs/agent/runtime.py:299-330 | the cache follows the coordinator's verdict, and stays coherent with the history |
| `AgentRuntime.Runtime.HandleUpdate` | src/ccs/agent/runtime.py:332-411 | a stale broadcast or one against a live claim changes neither cache nor states; a fresh one caches the current version |
| `AgentRuntime.Runtime.InvalidateAllCache` | src/ccs/agent/runtime.py:287-297 | recovery marks the entry INVALID, lowered to the bound if one is given, and keeps the cache coherent |
| `RuntimeSystem.ReadsAreCommittedAndOrdered` | src/ccs/agent/runtime.py:62-83 | in every run, down to single dictionary accesses, in which no broadcast overlaps its recipient's accesses with other bytes, each version an agent that honours INVALID has read or committed is a committed version with its content, and they never go back, so it reads its own writes |
| `RuntimeSystem.ReadReturns` | src/ccs/agent/runtime.py:62-83 | an undisturbed read returns the current version if the strategy wants a fetch, and else the cached pair |
| `RuntimeSystem.DeliveryIsHandler` | src/ccs/agent/runtime.py:332-411 | the two writes of a broadcast, with nothing in between, are one delivery |
| `RuntimeSystem.SignalIsHandler` | src/ccs/agent/runtime.py:299-330 | the two halves of an invalidation are one signal |
| `RuntimeSystem.RecoveryIsHandler` | src/ccs/agent/runtime.py:287-297 | recovery is the cache's recovery, a sweep the registry's reclaim |
| `RuntimeSystem.ApartIsExact` | src/ccs/agent/runtime.py:332-411 | where a broadcast and the own thread meet, at a valid entry or at a derivation whose function tells the two bodies apart, the step keeps the invariant (the one behind the theorems on reads and winners) exactly if they are apart in the sense assumed |
| `RuntimeOverlaps.OverlapsTear` | src/ccs/agent/runtime.py:332-411 | a run of two agents in which a read returns a pair never committed and an optimistic write wins with its function of the version before the last |
| `RuntimeSystem.BlindReadsAreNot` | src/ccs/strategies/blind_cache.py:24-54 | the blind strategy hands out a version that was never committed |
| `RuntimeSystem.WinnersFold` | src/ccs/agent/runtime.py:198-271 | in every run without such an overlap each optimistic win committed its function of the version before, so a run of only such writes ends at the fold of the winners |
| `RuntimeSystem.OutcomesAreExact` | src/ccs/agent/runtime.py:198-271 | in every run at all a finished optimistic write won exactly one version or applied nothing, and exhaustion came after exactly the attempts its strategy allowed |
| `RuntimeSystem.NoWriteIsDropped` | src/ccs/agent/runtime.py:198-271 | in every run at all each optimistic write begun has its outcome or exactly one agent still working on it |
| `RuntimeSystem.PlainWriteEnds` | src/ccs/agent/runtime.py:85-147 | a plain write ends with its commit call, with one version if accepted and none otherwise |
| `RuntimeSystem.SingleWriter` | src/ccs/core/invariants.py:14-25 | in every run at all at most one agent holds a write grant |
| `Publish.Normalize` | src/ccs/adapters/coherent_volume.py:1246-1273 | a write-set is accepted exactly if it is not empty and its paths are distinct |
| `Publish.Disk.StageTmp` | src/ccs/adapters/coherent_volume.py:1538-1560 | staging touches no target; on failure only an unremovable temporary is left |
| `Publish.Disk.ReplaceTmp` | src/ccs/adapters/coherent_volume.py:1562-1572 | a rename moves the staged bytes onto the target, or leaves the target old |
| `Publish.Volume.Stage` | src/ccs/adapters/coherent_volume.py:1389-1404 | every member is staged with its bytes, or nothing remains staged |
| `Publish.Volume.RenameAll` | src/ccs/adapters/coherent_volume.py:1405-1425 | a failure at any index leaves exactly the members before it renamed, recorded and named as landed |
| `Publish.Volume.Materialize` | src/ccs/adapters/coherent_volume.py:1374-1425 | landed followed by not_landed is the write-set in order, exactly the landed prefix is in place, and no temporary remains if cleanup succeeds |
| `Publish.Volume.AtomicPublish` | src/ccs/adapters/coherent_volume.py:1275-1372 | how a publication ends is determined by the set, the pins, the two answers and the disk: materialised exactly if every pin matched and the batch was won, published exactly if also no disk operation failed, a stale view exactly on a lost batch, a conflict naming the first moved member; otherwise no file, temporary or baseline changes |
| `Publish.RightEndIsUnique` | src/ccs/adapters/coherent_volume.py:1275-1372 | no other end is right |
| `Publish.LandedExactly` | src/ccs/adapters/coherent_volume.py:1405-1425 | in that image landed files are new, every other file is old, and the same for baselines and reported versions |
| `ForeignEdit.Volume.Load` | src/ccs/adapters/coherent_volume.py:1710-1718 | a read seeds the baseline with what it read, a verification read leaves it |
| `ForeignEdit.Volume.Reacquire` | src/ccs/adapters/coherent_volume.py:792-821 | recovery re-mints, then reads and re-seeds the baseline |
| `ForeignEdit.Volume.CheckForeignEdit` | src/ccs/adapters/coherent_volume.py:1503-1526 | denies exactly an existing managed file that differs from its baseline under "raise" |
| `ForeignEdit.Volume.Write` | src/ccs/adapters/coherent_volume.py:713-790 | the outcome and the three maps after a plain write, for every fate of its coordinator calls and its disk write and every outside edit in between |
| `ForeignEdit.BaselineIsLastTouch` | src/ccs/adapters/coherent_volume.py:1710-1718 | in every run the baseline is the hash of the last non-verification load or own write |
| `ForeignEdit.WritePassesExactly` | src/ccs/adapters/coherent_volume.py:1503-1526 | in every run a write that is not denied at pre-edit is refused as stale exactly if the file is there and is not what this instance last saw |
| `ForeignEdit.WriteEndsExactly` | src/ccs/adapters/coherent_volume.py:713-790 | in every run the outcome of a write is determined: the coordinator's first answer, then the guard, then the disk unless the replacement is skipped, then the second answer; it is skipped exactly if this identity last committed these bytes and they are there |
| `ForeignEdit.ForeignEditsSurvive` | src/ccs/adapters/coherent_volume.py:741-763 | in every run a refused or failed write leaves what the outsiders left, one denied at once changes nothing, and no write replaces a foreign edit that was there when it looked |
| `ForeignEdit.CommitCacheIsLastCommit` | src/ccs/adapters/coherent_volume.py:1528-1536 | in every run the commit cache is the hash of this identity's last write that went through |
| `ForeignEdit.FenceChecksAreInvisible` | src/ccs/adapters/effect_gate.py:272-280 | striking all fence checks from any run changes no file, cache or verdict |
| `ForeignEdit.ComparandReadAbsolves` | src/ccs/adapters/coherent_volume.py:1710-1718 | after a foreign edit a fence check keeps the write denied, a comparand read does not |
| `ForeignEdit.EditInWindowIsLost` | src/ccs/adapters/coherent_volume.py:741-763 | an edit between the guard's look at the disk and the replacement never changes the verdict, and survives exactly if the write skipped the replacement or both put the same bytes |
| `OpGuard.SingleOpGuard.Enter` | src/ccs/adapters/coherent_volume.py:371-386 | admits the owner or anyone if free, otherwise changes nothing |
| `OpGuard.SingleOpGuard.Exit` | src/ccs/adapters/coherent_volume.py:387-393 | closes one operation and frees the guard with the last |
| `OpGuard.SingleOpGuard.BeginReacquire` | src/ccs/adapters/coherent_volume.py:814-821 | the identity moves whether or not the guard admits the thread |
| `OpGuard.GuardIsExact` | src/ccs/adapters/coherent_volume.py:371-393 | in every interleaving the owner is set exactly while operations are open, all are the owner's, and depth is their number |
| `OpGuard.AdmittedExactly` | src/ccs/adapters/coherent_volume.py:371-386 | in every interleaving a thread is let in exactly if no other thread has an operation open |
| `OpGuard.RejectionChangesOnlyIdentity` | src/ccs/adapters/coherent_volume.py:371-386 | a rejected call changes nothing exactly if it is not a reacquire; guard and open operations never change |
| `OpGuard.IdentityMovesUnderOpenOperation` | src/ccs/adapters/coherent_volume.py:814-821 | a run in which a rejected reacquire replaces the identity of a running operation |
| `SweepGate.Sweeper.Claim` | src/ccs/adapters/base.py:207-222 | admits and claims exactly if no sweep was claimed within the gate |
| `SweepGate.Sweeper.MaybeSweep` | src/ccs/adapters/base.py:193-265 | one caller alone: swept exactly if the gate is open, reported exactly if it is the first reclamation |
| `SweepGate.SweepsAreSpaced` | src/ccs/adapters/base.py:207-222 | in every interleaving and for any ticks two admitted sweeps are at least the gate apart |
| `SweepGate.DueSweepIsAdmitted` | src/ccs/adapters/base.py:193-222 | in every interleaving a call is admitted exactly if it is the first or its tick is a gate after the last admitted one, and it is over after its report |
| `SweepGate.SweepsInWindow` | src/ccs/adapters/base.py:207-222 | so sweeps with ticks in [a, b] number at most (b - a) / gate + 1 |
| `SweepGate.LookNeverStealsAdmission` | src/ccs/adapters/base.py:198-205 | a call turned away by the lock-free look would be turned away by the locked check at any later time |
| `SweepGate.OneReport` | src/ccs/adapters/base.py:247-252 | in every interleaving the diagnostic is given at most once |
| `SweepGate.ReportedExactly` | src/ccs/adapters/base.py:247-252 | and it is given exactly if some sweep reclaimed something |
| `Conninfo.SkipSpaces` | src/ccs/adapters/substrate_manifest.py:552-553 | the index moves past exactly the leading spaces |
| `Conninfo.ReadKeyword` | src/ccs/adapters/substrate_manifest.py:556-559 | reads up to a space or '=' |
| `Conninfo.ReadQuoted` | src/ccs/adapters/substrate_manifest.py:576-585 | reads a quoted value with its escapes, or finds it unterminated |
| `Conninfo.ReadBare` | src/ccs/adapters/substrate_manifest.py:586-591 | reads a bare value with its escapes |
| `Conninfo.ReadValue` | src/ccs/adapters/substrate_manifest.py:573-591 | chooses between the two by the first character |
| `Conninfo.ConninfoParams` | src/ccs/adapters/substrate_manifest.py:537-570 | the scan ends on every text with the map or the error that the format's definition gives |
| `Conninfo.ParseInvertsRender` | src/ccs/adapters/substrate_manifest.py:537-591 | every list of pairs, rendered quoted or bare with any legal escaping and any padding, parses to its last-wins map; a pair without a keyword says nothing |
| `Conninfo.MissingEqualsIsAnError` | src/ccs/adapters/substrate_manifest.py:560-563 | after any legal pairs a keyword without '=' is an error |
| `Conninfo.OpenQuoteIsAnError` | src/ccs/adapters/substrate_manifest.py:576-585 | and so is a quoted value that is never closed |
| `Conninfo.EmptyBareTakesNextPair` | src/ccs/adapters/substrate_manifest.py:564-567 | an empty bare value is not a rendering: the next pair is read as the value |

## Left out

- CREATE_IF_ABSENT, deletes and re-creation of artifacts outside the versioned put, and the first observation that registers one.
- Pessimistic `write` mixed with `write_cas` on one file path; in the volume runs a pessimistic holder only shows as a turned-away commit.
- Degrade mode and warn-mode paths of the volume, except where the fence and the publication meet them.
- Publish.Volume.AtomicPublish: a single-member set is handed to the optimistic write, modelled in `VolumeProtocol`; the coordinator's side of the batch commit is one answer.
- EffectFence.FiredMeansUnchanged: the window between the re-check and the effect cannot be closed and is not modelled; a coordinator that ignores verification reads is not either.
- SweepGate.Sweeper.MaybeSweep: what a sweep reclaims is an argument.
- More than one artifact per runtime, registry or volume run: artifacts do not interact there.
- HTTP, TLS, secrets, process spawning and the `open()` shim; psycopg and boto3 calls, SQL text, IAM policies and legal holds.
- Telemetry, audit logs, counters and warnings; framework adapters and store indexes; URI connection strings and address checks; the diff engine, tools and benchmarks.
