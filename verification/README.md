# A verified model of repossess

repossess keeps a browser session alive: once a day a *run* restores the last snapshot, checks it, lets workloads use
it, and saves a new one; a *seed* starts the chain. Durable state lives in a key/value store that offers
compare-and-swap on one key at a time, and several processes that may stop at any moment act on it. This project
models that state and proves what survives interleaving, lost messages and crashes.

`dafny verify dfyconfig.toml` checks everything.

## How the model is laid out

**The store.** `Stores` states the per-key contract as a function on store values (`Apply`) and implements it as the
class `InMemoryStore`. Its conditional writes are the preconditions of sections 13.1.1 and 13.1.2 of RFC 9110.
`Perform` adds a fault to a request: it may never arrive, or take effect and lose its answer. `Keys` holds the key
formats, `Hex` the signature text, `Snapshot` the pointer, the draft of a snapshot and what it means for a pointer to
resolve.

**Sessions.** `Protocol` is a transition system of any number of runs and seeds over one primary and any mirrors. A step
is one store request or one local decision of one process; each process keeps exactly the values it has read.
`LockSafety`, `PointerSafety`, `MirrorSafety` and `OutcomeSafety` hold the inductive invariants and the theorems over all
reachable states. `Hypotheses` holds two runs that show which assumptions are needed. `RunCommand` is the same code as
sequential methods over `InMemoryStore`, with exact conditions for success, and `SoloRuns` shows that the two agree,
stage by stage from the first request to the last fan-out.

**Git branch.** `GitBranch` is the branch as a ref over a commit graph with clones whose HEAD may be stale or ahead;
`GitBranchStores` is the store class, each operation proved equal to the two steps of the transition system.

**Chats.** `ChatList` is the paged walk with early stop, `Retry` one API request with its retries, `ChatSync` what a run
does to index and bodies, `ChatWorkload` the run as methods, `SyncSafety` any number of syncs and imports at once,
`ImportChats` the import with unordered uploads. `JsonValues` is JSON with the lookups the code makes.

**Rendering.** `Conversation` is the parent walk, `Rendering` the Markdown.

**Releases.** `GithubRelease` is the routing of keys to assets, `ReleaseStore` the mirror store over GitHub's assets.

Serialisation, compression, encryption, signing, hashing and timestamp formatting are functions the model is
parameterised by; `Codec.Lawful` and `ChatCodec.Lawful` say that reading undoes writing. `Codecs` builds one lawful codec
of each kind, so that the theorems under these laws speak of something. Doubles are counts of units of 2^-1074, of which
every finite double is a whole number (`Basics.Double`).

## Hypotheses

- Every successful write gets an etag never used before, and the store answers conditional writes truthfully.
- Snapshot stamps are fresh (`Protocol.FreshStamps`). Stamps have one-second resolution while the rollback check compares
  full timestamps; `Hypotheses.StampsMustBeFresh` shows a run without it.
- One clock, which never runs backwards, for lease claims only (`Protocol.ClockRunsForward`);
  `Hypotheses.ClockMustNotRunBackwards` shows a run without it. No theorem about the pointer uses it.
- A seed takes no lock and makes no rollback check, so creation times increase only along stretches without a seed.
- Operations on one `GitBranchStore` object are serialised, and new commits have fresh names.
- The list endpoint returns exact slices of one list, and, where a theorem says so, listed or exported ids are distinct.

## What the code does not deliver

Each of these is the code as it stands; where there is a theorem it gives the exact condition.

- A git write that finds nothing to commit may report success for a body the remote never got
  (`GitBranch.EmptyCommitIsHonestIffNotAhead`, `GitBranch.RepeatedPutCanLie`).
- A clone whose first push to a new branch was lost can never create the branch
  (`GitBranch.StuckCloneStaysStuck`, `GitBranch.LostFirstPushSticks`). In that state only, some of its conditional puts
  are not compare-and-swap; `GitBranchStores.ReachableRemoteIsExactCasIff` says which of them.
- With a git branch as primary a run or an index save defeats itself: its own uploads move the branch head that it then
  names as etag, unless they change nothing (`GitBranchStores.OwnUploadsDefeatTheWriteIffNew`).
- A run or seed that loses the answer to its own pointer write reports an error although it has committed
  (`OutcomeSafety.CommittedIffSavedOrUnheard`). No other lost answer makes an outcome untrue.
- After an aborted sync an index entry may record the hash of an overwritten body
  (`SyncSafety.HashIsRightUntilOverwritten`, `SyncSafety.AbortedRunLeavesStaleHash`).
- A conversation left for the next run may be hidden from it by the early stop
  (`ChatList.FetchedIffNoWindowBefore`, `ChatList.EarlyStopCanHideALeftover`).
- An export that lists an id twice makes the index depend on the completion order of the uploads
  (`ImportChats.ConfluentIffDistinctIds`, `ImportChats.RepeatedIdIsARace`).
- Two miscellaneous keys may share one release asset and overwrite each other (`GithubRelease.CollidesIffAmbiguous`,
  `ReleaseStore.SharedAssetIsOverwritten`, `ReleaseStore.NotesCollide`).
- A conversation whose parent links form a cycle is never rendered; the walk does not end
  (`Conversation.EndsIffNoRevisit`, `Conversation.OwnParentNeverEnds`).
- An import skips a conversation only on equal update time, although its comment takes a skipped body to be as new as
  the export; an older export replaces a newer body (`ImportChats.UploadedIffTimeDiffers`,
  `ImportChats.OlderExportReplacesNewer`).
- The rollback check compares the new pointer with the one just restored, so, against the project's own description, it
  does not notice an old pointer put back from outside (`RunCommand.PutBackPointerGoesUnnoticed`).

Where code and documentation differ the model follows the code; besides the last two points, an asset name is the rest of
the key, not its basename (`src/stores/github_release.rs:66-76`).

## Model

| member | source | states |
|---|---|---|
| `Stores.InMemoryStore.NextEtag` | tests/chatgpt_workload.rs:60-64 | each call hands out the next number, so no two successful writes share an etag |
| `Stores.InMemoryStore.Put` | tests/chatgpt_workload.rs:73-79 | an unconditional write takes effect under a new etag, exactly as the contract function prescribes |
| `Stores.InMemoryStore.PutIfUnmodified` | tests/chatgpt_workload.rs:81-107 | create-only fails on an existing key, update-only on a missing key or another etag; otherwise the write takes effect, and a refusal changes nothing |
| `Stores.InMemoryStore.Get` | tests/chatgpt_workload.rs:109-114 | body and etag of a present key, an error for an absent one |
| `Stores.InMemoryStore.Head` | tests/chatgpt_workload.rs:116-123 | the current etag, or none |
| `Stores.InMemoryStore.DeleteIfMatch` | tests/chatgpt_workload.rs:140-152 | removes the key only under its current etag; an absent key is success |
| `Stores.ApplyFrame` | src/stores/mod.rs:29-48 | a request changes no key but its own |
| `Stores.EtagPinsObject` | src/stores/mod.rs:29-37 | an etag handed out earlier and still carried by a key pins the object at every moment in between (no ABA) |
| `Stores.CasSucceedsIffUntouched` | src/stores/mod.rs:29-37 | a conditional write succeeds if and only if the key has carried the object its caller saw ever since |
| `Keys.WorkloadKeysEndInAge` | src/workload/chatgpt_chats.rs:65-71 | every index and conversation key has a workload suffix, whatever the prefix and id |
| `Keys.WorkloadKeysAreSeparate` | src/workload/chatgpt_chats.rs:65-71 | for every prefix and id, workload keys never meet the lock, pointer, health, snapshot or signature keys |
| `Keys.ProtocolKeysAreSeparate` | src/commands/run.rs:247-249 | the protocol's own keys are pairwise different and a snapshot key determines its stamp |
| `Keys.ChatKeysAreSeparate` | src/workload/chatgpt_chats.rs:65-71 | under one prefix the index never collides with a conversation, and a conversation key determines its id |
| `Hex.DecodeEncode` | src/commands/run.rs:214-217 | decoding the hex of a signature gives the signature back |
| `Hex.DecodeMeans` | src/commands/run.rs:217 | a text decodes if and only if it spells bytes in hex digits of either case, the high digit first, and then to those bytes |
| `Hex.EncodeMeans` | src/commands/run.rs:262 | encoding spells each byte in two lower-case hex digits |
| `Hex.TrimMeans` | src/commands/run.rs:214-216 | white space around the stored text goes, and nothing else |
| `Hex.StoredSignatureReadsBack` | src/commands/run.rs:214-218 | the stored signature text, trimmed and decoded, is the signature, for every signature |
| `Snapshot.UploadedDraftResolves` | src/commands/run.rs:242-266 | a snapshot and signature uploaded under their own keys open to the state they were made from |
| `Codecs.SnapshotLawsCanBeMet` | src/commands/run.rs:201-222 | the laws asked of serialisation and cryptography hold together of a concrete codec with a collision-free hash and distinct stamps |
| `Codecs.ChatLawsCanBeMet` | src/workload/chatgpt_chats.rs:78-118 | the laws asked of the chats codec hold together of a concrete codec whose encryptions all differ and whose hash has no collisions |
| `RunCommand.Acquire` | src/lock.rs:24-60 | with no lock it succeeds, with an unreadable one it fails, with a readable one it succeeds if and only if that one expires no later than now; then the lock object is its own with its own times, under the returned etag, else nothing changes |
| `RunCommand.LeaseWindow` | src/lock.rs:29-54 | a lock taken at some time for some term is refused at every instant before the term is over and can be taken at every instant from then on |
| `RunCommand.ReleaseLock` | src/lock.rs:62-66 | removes the lock if it is still the guard's own, succeeds also if none is there, and changes nothing otherwise |
| `RunCommand.Restore` | src/commands/run.rs:193-230 | with a pointer that is there and readable it succeeds if and only if both objects are there, the snapshot has the digest, the stored text decodes to a signature that verifies, and decryption and decompression succeed; it returns that pointer, its etag and the state |
| `RunCommand.ForgedSignatureIsRefused` | src/commands/run.rs:210-218 | a snapshot whose well-formed signature does not verify is refused, whatever else is in place |
| `RunCommand.NonHexSignatureIsRefused` | src/commands/run.rs:214-217 | so is a snapshot whose signature text has a character that is no hex digit |
| `RunCommand.Fanout` | src/stores/mod.rs:115-124 | one put to every mirror; a mirror that fails keeps what it had and stops no other |
| `RunCommand.Save` | src/commands/run.rs:233-279 | commits if and only if the clock has moved past the old pointer and nobody replaced that pointer; states the three objects byte by byte; a rollback writes nothing, a lost race leaves two uploads and no other change; after a commit each mirror holds each of the three objects unless that item did not get through, and then what it held before |
| `RunCommand.FannedHolds` | src/stores/mod.rs:115-124 | after the three fan-outs a mirror has exactly the items that got through, and everything else as before |
| `RunCommand.MirrorRestores` | src/commands/run.rs:274-276 | from a mirror that everything reached a restore yields exactly the published pointer and state |
| `RunCommand.PublishedIsRestorable` | src/commands/run.rs:193-278 | what a save publishes is what the next restore returns |
| `RunCommand.WorkloadRequestKeepsState` | src/commands/run.rs:139-163 | no request of a workload touches the lock, the pointer, any snapshot or any signature |
| `RunCommand.RunWorkloads` | src/commands/run.rs:147-162 | the store sees exactly the requests of the workloads in order, up to and including the first that fails; success means that all succeeded; none disturbs session state |
| `RunCommand.RunLocked` | src/commands/run.rs:98-185 | saves if and only if every stage succeeds; a failed canary is reported if and only if restore and launch went through, anything else as an error; workloads run only after the canary; the store is exactly what the workloads and the save leave |
| `RunCommand.RunOnce` | src/commands/run.rs:51-94 | a lone run saves exactly when the lock is free and every stage succeeds; whenever it got the lock it gives it back and records its outcome under its health key; the whole store and all mirrors are stated, and mirrors that everything reached restore to what was saved |
| `RunCommand.PutBackPointerGoesUnnoticed` | src/snapshot.rs:43-54 | after an earlier pointer has been put back from outside, a run saves exactly when its stages succeed and its clock is past that earlier pointer; the replaced one plays no part |
| `RunCommand.SeedOnce` | src/commands/seed.rs:46-101 | a lone seed publishes unless no cookies were captured, with no lock and no later clock; each mirror then holds each of the three objects that got through and restores to the seeded state if all did |
| `SoloRuns.SoloAcquire` | src/lock.rs:24-60 | stepped alone, a process that asks for the lock gets it if and only if there is none or a readable one that expires no later than its own creation time |
| `SoloRuns.LockObjectIsALease` | src/lock.rs:56-59 | in every reachable state, whatever the clock does, the lock object is one that some process wrote, under the etag it got |
| `SoloRuns.LeaseDecides` | src/lock.rs:39-59 | in every reachable state an undisturbed process that asks for the lock ends up with a guard if and only if there is no lock or its lease ends no later than the process's own lock was made; the guard is the etag of its own lock |
| `SoloRuns.SoloRestore` | src/commands/run.rs:193-230 | stepped alone, the three reads of the interleaved process end as the sequential restore does; if one fails the process goes to release its lock |
| `SoloRuns.SoloWork` | src/commands/run.rs:120-178 | while a run holds its session, workload requests are served, a failed canary or stage leads to release, and an exported state is saved only with cookies and a clock past the restored pointer |
| `SoloRuns.SoloSave` | src/commands/run.rs:264-272 | stepped alone, the three writes of the interleaved process leave what the sequential save leaves |
| `SoloRuns.SoloFan` | src/stores/mod.rs:115-124 | stepped alone from its commit to its end, a process leaves every mirror with each item whose request arrived, answered or not, and otherwise as it was, and reports success |
| `SoloRuns.SoloEnd` | src/commands/run.rs:70-83 | at its end a run removes its lock if it is still its own, writes its health record, and keeps its outcome |
| `SoloRuns.SoloSeed` | src/commands/seed.rs:46-97 | stepped alone, a seed publishes the captured state unless it has no cookies or capturing failed |
| `LockSafety.AcquireGetStep` | src/lock.rs:41-52 | the etag of `get` is discarded in favour of the one of `head`, yet while the lock still carries that etag the body just read is its body |
| `LockSafety.LockInvHolds` | src/lock.rs:24-66 | the lock invariant holds after every run of any number of processes |
| `LockSafety.MutualExclusion` | src/lock.rs:24-66 | in every reachable state at most one process holds an acquired, unreleased, unexpired guard, and the lock object is its own |
| `LockSafety.GuardsAreGenuine` | src/lock.rs:56-59 | every held guard names a lock body that its holder wrote |
| `LockSafety.LockChangesHandsOnlyWhenDue` | src/lock.rs:39-54 | a lock object is removed or replaced only by its writer or after it expired |
| `LockSafety.StaleReleaseIsHarmless` | src/lock.rs:63-65 | a release by a holder that has been taken over leaves the successor's lock untouched |
| `LockSafety.TakeoverReplacesTheLockItJudged` | src/lock.rs:41-53 | a takeover that lands replaced exactly a lock whose expiry it had checked |
| `PointerSafety.StepKeepsPointerInv` | src/commands/run.rs:193-278 | every step of every process keeps the pointer invariant |
| `PointerSafety.PointerInvHolds` | src/commands/seed.rs:51-97 | the pointer invariant holds after every run of runs and seeds with fresh stamps |
| `PointerSafety.PointerAlwaysResolves` | src/commands/run.rs:264-272 | in every reachable state a present pointer is the last one committed and resolves to exactly the state its writer saved |
| `PointerSafety.RestoreIsConsistent` | src/commands/run.rs:199-222 | a restore whose reads are spread over other writers' steps never fails a check and holds the state of one commit |
| `PointerSafety.NoLostUpdates` | src/commands/run.rs:260-272 | every pointer is written over its direct predecessor, and a run writes only over the pointer it restored from, with a later creation time, whether or not it still holds the lock |
| `PointerSafety.CreationTimesIncrease` | src/snapshot.rs:44-54 | along any stretch without a seed creation times strictly increase, whatever the clocks do |
| `PointerSafety.CommitsOnlyGrow` | src/commands/run.rs:268-272 | the history of pointers is append-only |
| `PointerSafety.RunCommitsIffUnraced` | src/commands/run.rs:268-272 | in every reachable state a run at its undisturbed pointer write commits if and only if the last pointer is still the one it restored from; otherwise it commits nothing and fails |
| `PointerSafety.SnapshotsAreImmutable` | src/commands/run.rs:264-266 | a snapshot that a pointer has ever named stays in place, unchanged, and goes on resolving |
| `MirrorSafety.MirrorInvHolds` | src/stores/mod.rs:115-124 | the mirror invariant holds after every run, for any mirrors and any failures |
| `MirrorSafety.MirrorsNeverLie` | src/commands/run.rs:274-276 | a mirror's pointer is one the primary really held, and it resolves there exactly when its snapshot and signature have both arrived |
| `OutcomeSafety.CommittedIffSavedOrUnheard` | src/commands/run.rs:98-185 | under any faults, a process that has ended committed a pointer if and only if it reports success or lost the answer to its own pointer write, in which case it reports an error; none commits twice |
| `OutcomeSafety.UnheardIsALostPointerAnswer` | src/commands/run.rs:268-272 | the processes of the last case are those that made a pointer write whose answer was lost |
| `Hypotheses.StampsMustBeFresh` | src/commands/run.rs:246-249 | two seeds within one second leave a pointer that does not resolve, so stamp freshness is needed |
| `Hypotheses.ClockMustNotRunBackwards` | src/lock.rs:29-51 | a clock set back after a takeover makes two guards live at once, so the clock hypothesis is needed |
| `GitBranch.InvHolds` | src/stores/git_branch.rs:129-208 | the branch invariant holds after every interleaving of clones |
| `GitBranch.BadKeyMeans` | src/stores/git_branch.rs:210-215 | a key is refused exactly if it has two dots in a row or starts with a slash |
| `GitBranch.HistoryOnlyGrows` | src/stores/git_branch.rs:160-208 | no commit the branch has pointed to is ever dropped and each is the child of the one before |
| `GitBranch.LandedPushIsPerKeySuccess` | src/stores/git_branch.rs:253-307 | a push that lands changes exactly its key of the remote's current content and meets the per-key condition of its request; one that does not land changes nothing |
| `GitBranch.ContentIsGenuine` | src/stores/git_branch.rs:309-320 | a `get` answers with the body of the very commit it names as etag, even when the fetch failed |
| `GitBranch.ReadModifyWriteIsSafe` | src/stores/git_branch.rs:253-320 | a conditional put under the etag of an earlier `get` that lands finds the remote still holding the body that was read |
| `GitBranch.OneWinnerPerEtag` | src/stores/git_branch.rs:179-204 | no two commits of the branch were pushed over the same head |
| `GitBranch.EmptyCommitIsHonestIffNotAhead` | src/stores/git_branch.rs:171-177 | the answer of a write that finds nothing to commit names a remote commit holding the body if and only if HEAD was not ahead or the fetch reset it |
| `GitBranch.RepeatedPutCanLie` | src/stores/git_branch.rs:171-177 | the excluded case: a lost push repeated while the remote is unreachable is reported as written although the branch has no commit |
| `GitBranch.StuckCloneStaysStuck` | src/stores/git_branch.rs:160-208 | a clone that has a commit while the branch does not exist never lands anything again by itself, in any weather |
| `GitBranch.LostFirstPushSticks` | src/stores/git_branch.rs:160-208 | the run that gets there: the first push to a new branch is lost, and the branch is never created by that clone |
| `GitBranchStores.ReachableRemoteIsExactCasIff` | src/stores/git_branch.rs:253-292 | with the remote reachable and no rival, a conditional put is exactly compare-and-swap on the branch, except that a clone with a commit but no branch refuses creates and answers a repetition of its own commit as written |
| `GitBranchStores.ReachableReads` | src/stores/git_branch.rs:309-333 | with the remote reachable, `get` answers with the key's body and the branch head or fails if the key is absent, `head` with the branch head exactly for a key that is there, and neither changes anything |
| `GitBranchStores.ReachablePut` | src/stores/git_branch.rs:294-307 | with the remote reachable and no rival, a put leaves its body at the remote, changes nothing else, and answers with the new branch head |
| `GitBranchStores.ReachableDelete` | src/stores/git_branch.rs:367-386 | with the remote reachable and no rival, a delete succeeds if and only if the branch is at its etag, and then exactly its key is gone |
| `GitBranchStores.OutOfReach` | src/stores/git_branch.rs:129-135 | with the remote out of reach nothing changes there; reads answer from the clone's own tree, `head` sees nothing, and a write succeeds only if there is nothing to push |
| `GitBranchStores.OwnUploadsDefeatTheWriteIffNew` | src/commands/run.rs:264-272 | on a git branch as primary, a write under the head seen before the run's own uploads succeeds if and only if every upload found its key already holding its body |
| `GitBranchStores.RivalsWin` | src/stores/git_branch.rs:179-204 | if a rival pushes first, a write that had something to push fails and the rival's content stays |
| `GitBranchStores.GitBranchStore.FetchAndReset` | src/stores/git_branch.rs:129-145 | HEAD becomes the remote head exactly when the branch was reachable and exists |
| `GitBranchStores.GitBranchStore.PushUnderLease` | src/stores/git_branch.rs:179-204 | the remote moves exactly if it is where the lease says and the push arrives |
| `GitBranchStores.GitBranchStore.CommitAndPush` | src/stores/git_branch.rs:160-208 | nothing to commit changes nothing; otherwise one commit on the old HEAD, pushed under a lease on it while rivals may push first |
| `GitBranchStores.GitBranchStore.Put` | src/stores/git_branch.rs:294-307 | the operation is the protocol's two steps with the rivals in between, including its answer |
| `GitBranchStores.GitBranchStore.PutIfUnmodified` | src/stores/git_branch.rs:253-292 | the operation is the protocol's two steps, with the three refusals on key, empty branch and etag |
| `GitBranchStores.GitBranchStore.Get` | src/stores/git_branch.rs:309-320 | the read answers from the working tree after the fetch |
| `GitBranchStores.GitBranchStore.Head` | src/stores/git_branch.rs:322-333 | a failed fetch reads as absent; otherwise the branch head for a present key |
| `GitBranchStores.GitBranchStore.DeleteIfMatch` | src/stores/git_branch.rs:367-386 | only under the current head; an absent key is success; otherwise a commit without the key |
| `ChatList.Server.Page` | src/workload/chatgpt_chats.rs:454-469 | the server hypothesis: a page is an exact slice, short only at the end of the list |
| `ChatList.ScanItem` | src/workload/chatgpt_chats.rs:338-358 | one item counts as known, closing the window or not, or is to be fetched |
| `ChatList.ScanPage` | src/workload/chatgpt_chats.rs:338-359 | one page advances the flat walk, or stops it at the end of the first known window |
| `ChatList.CollectOutdated` | src/workload/chatgpt_chats.rs:321-367 | for every page size, the outdated items up to the end of the first window of known items, with no more list calls than pages start before that point; fails exactly when one of its calls fails |
| `ChatList.StopIsUnique` | src/workload/chatgpt_chats.rs:344-354 | the stopping point is determined by the list, the index and the window length alone |
| `ChatList.OutdatedMembers` | src/workload/chatgpt_chats.rs:339-358 | an item is to be fetched exactly when it is listed and not known under the same update time |
| `ChatList.OutdatedInOrder` | src/workload/chatgpt_chats.rs:338-358 | items to be fetched keep the order of the list, and an item is one of them unless indexed under the same time |
| `ChatList.NextRunFetchesOnlyLeftovers` | src/workload/chatgpt_chats.rs:321-367 | over the same list, the walk under an updated index stops no later and finds only items that were not stored |
| `ChatList.FetchedIffNoWindowBefore` | src/workload/chatgpt_chats.rs:285-300 | an item left for the next run is fetched by it if and only if no window of known items ends before it |
| `ChatList.EarlyStopCanHideALeftover` | src/workload/chatgpt_chats.rs:344-354 | a concrete list: the next run stops before the item the first one left |
| `Retry.BackoffDoublesUpToTheCap` | src/workload/chatgpt_chats.rs:611-616 | the saturating arithmetic never saturates; waiting is the doubling capped at five doublings and at the cap, and never shrinks |
| `Retry.LadderDoubles` | src/workload/chatgpt_chats.rs:611-616 | the waits of the first attempts add up to one minute times one less than the power of two |
| `Retry.StructuredDetail` | src/workload/chatgpt_chats.rs:573-589 | a structured error counts as inaccessible exactly when its code or its message says so, with the defaults for missing and non-string fields, whatever other fields there are |
| `Retry.RefusalsAreRecognised` | src/workload/chatgpt_chats.rs:573-588 | a text and an error code that say the conversation cannot be had, with the message reported |
| `Retry.VerdictMeans` | src/workload/chatgpt_chats.rs:503-592 | status by status what a response means once no retry is left: 429 and the five hundreds are transient, a readable success without `detail` is its own body, and `detail` decides between inaccessible and fatal |
| `Retry.FinalIsUnique` | src/workload/chatgpt_chats.rs:482-595 | every sequence of responses has at most one final request, so it fixes the outcome |
| `Retry.TransientMeansBudgetSpent` | src/workload/chatgpt_chats.rs:503-553 | a request ends as transient exactly when one more failure came than the retry budget |
| `Retry.ChosenWaitIsBounded` | src/workload/chatgpt_chats.rs:511-551 | the waits the client chooses itself are at most the ladder of its backoffs |
| `Retry.ChosenWaitIsExact` | src/workload/chatgpt_chats.rs:511-551 | if no response dictates a wait, the client has waited for every backoff of the ladder |
| `Retry.DictatedWaitsAreNotChosen` | src/workload/chatgpt_chats.rs:511-512 | if every retried response is a 429 that dictates its wait, the client chose none |
| `Retry.TokenOfRequest` | src/workload/chatgpt_chats.rs:482-533 | each request carries the old token until a 401 has come back and the session has given a new one |
| `Retry.ChatsApiClient.RefreshToken` | src/workload/chatgpt_chats.rs:448-452 | the token is replaced exactly when the session yields a non-empty one |
| `Retry.ChatsApiClient.Settle` | src/workload/chatgpt_chats.rs:555-592 | a response that is not retried is classified by status, payload and error detail |
| `Retry.ChatsApiClient.GetJson` | src/workload/chatgpt_chats.rs:482-595 | for every sequence of responses: the verdict on the one final response, at most `max_retries + 2` requests and one refresh, bounded chosen waiting, and each request under the right token |
| `ChatSync.PassSettlesItsItems` | src/workload/chatgpt_chats.rs:222-303 | a pass puts each of its items in exactly one place |
| `ChatSync.EveryItemEndsInOnePlace` | src/workload/chatgpt_chats.rs:220-304 | over both passes every item is stored, inaccessible or left, each exactly once |
| `ChatSync.CallsAreItemsThenQueue` | src/workload/chatgpt_chats.rs:232-281 | the detail calls of a run that gets through are one per item in order, then one per queued item |
| `ChatSync.AtMostTwoCallsEach` | src/workload/chatgpt_chats.rs:232-281 | wherever a run is cut short, no item has been asked for more than twice |
| `ChatSync.FreshEntryDescribes` | src/workload/chatgpt_chats.rs:163-188 | a new entry names, hashes and measures the object just stored, which decodes to the fetched body, and carries the list's title and time and the time of storing |
| `ChatSync.KeepAgrees` | src/workload/chatgpt_chats.rs:235-246 | storing one conversation keeps index and bodies in agreement |
| `ChatSync.FetchedAgrees` | src/workload/chatgpt_chats.rs:219-304 | wherever a run is cut short only conversation objects changed; if it gets through, the index is the loaded one overridden on exactly the stored ids by true entries |
| `ChatSync.RunFollowsItsAnswers` | src/workload/chatgpt_chats.rs:219-304 | a run is cut short if and only if a body could not be stored or the first pass met a fatal answer; otherwise each list of items is exactly those with the answer that leads there, and every recorded body is what a call for that id was answered with |
| `ChatSync.EachAnswer` | src/workload/chatgpt_chats.rs:232-302 | item by item: answered and put is stored, inaccessible is set aside, transient is queued and asked again, fatal does not get through; in the sweep every other answer leaves the item for the next run |
| `ChatSync.StoredIsTheAnswer` | src/workload/chatgpt_chats.rs:234-246 | for distinct ids, the object under an id decodes to what the detail endpoint answered for that conversation, in either pass |
| `ChatWorkload.LoadIndex` | src/workload/chatgpt_chats.rs:123-140 | the stored index with its etag, the empty one on a first run, or an error |
| `ChatWorkload.SaveIndex` | src/workload/chatgpt_chats.rs:143-159 | one conditional write under the loaded etag |
| `ChatWorkload.StoreConversation` | src/workload/chatgpt_chats.rs:163-188 | one put of the encoded body; the entry, stated field by field, is returned only if the put is known to have succeeded |
| `ChatWorkload.FetchItem` | src/workload/chatgpt_chats.rs:232-265 | one item of the first pass, by its answer: the body answered is stored and entered, an inaccessible item changes nothing, a transient one joins the queue, a fatal one ends the run |
| `ChatWorkload.RetryItem` | src/workload/chatgpt_chats.rs:279-302 | one item of the sweep, by its answer: the body answered is stored and entered, anything else changes nothing; only a failed put ends the run |
| `ChatWorkload.FetchBatches` | src/workload/chatgpt_chats.rs:220-267 | the first pass, its detail calls included, does not depend on the batch size |
| `ChatWorkload.RetrySweep` | src/workload/chatgpt_chats.rs:270-304 | the sweep goes once over exactly the queued items |
| `ChatWorkload.Run` | src/workload/chatgpt_chats.rs:197-314 | nothing to fetch means success and an untouched store; a failure to load, log in or list writes nothing; otherwise both passes and one index save |
| `ChatWorkload.SavedIndexTellsTheTruth` | src/workload/chatgpt_chats.rs:306-307 | after success the stored index is the loaded one overridden on exactly the stored ids, with key, hash and length of the objects that are there |
| `ChatWorkload.RunStoresTheAnswers` | src/workload/chatgpt_chats.rs:234-307 | after a successful run over distinct ids, the object of every conversation answered in either pass decodes to that answer, and the index object is the encryption of the new index |
| `ChatWorkload.LoneRunAlwaysSaves` | src/workload/chatgpt_chats.rs:143-159 | with no other writer of the index, a run that gets through its items always saves |
| `ChatWorkload.RunsKeepToThemselves` | src/workload/chatgpt_chats.rs:197-314 | a run changes no object outside its workload, and the index only by its one conditional write |
| `ChatWorkload.RerunFetchesOnlyLeftovers` | src/workload/chatgpt_chats.rs:197-367 | the next run over an unchanged list fetches only what was inaccessible or left; if nothing was, it fetches nothing |
| `SyncSafety.StepKeepsInv` | src/workload/chatgpt_chats.rs:123-188 | every step of any number of concurrent syncs and imports keeps the index invariant |
| `SyncSafety.SaveReplacesItsBase` | src/workload/chatgpt_chats.rs:143-159 | an index save that lands replaced exactly the index its process had loaded |
| `SyncSafety.IndexNeverDangles` | src/workload/chatgpt_chats.rs:219-307 | at every abort point of every interleaving each entry of the stored index records a put that happened, of a conversation that still exists, decodes, and is that put's object or a later one |
| `SyncSafety.NoLostIndexUpdates` | src/workload/chatgpt_chats.rs:143-159 | each saved index is its direct predecessor overridden on the ids its writer uploaded, and the stored index is the last one saved |
| `SyncSafety.EntriesNeverDisappear` | src/workload/chatgpt_chats.rs:143-159 | along every run, an id listed by the stored index at some moment is listed ever after |
| `SyncSafety.HashIsRightUntilOverwritten` | src/workload/chatgpt_chats.rs:172-187 | given fresh ciphertexts and a collision-free hash, the recorded hash is that of the stored body if and only if the conversation has not been put again |
| `SyncSafety.KeepIsUploadThenInsert` | src/workload/chatgpt_chats.rs:235-245 | storing one body in a sequential run is one upload and one insertion of a process of the concurrent model |
| `SyncSafety.LoadIsLoadIndex` | src/workload/chatgpt_chats.rs:123-140 | loading gives a process the stored index and its etag, the empty one if there is none, or stops it if it cannot be read |
| `SyncSafety.SaveIsSaveIndex` | src/workload/chatgpt_chats.rs:143-159 | a save stores the process's index if and only if the index is under the etag it was loaded under |
| `SyncSafety.AbortedRunLeavesStaleHash` | src/workload/chatgpt_chats.rs:264 | a concrete run: after an abort the index records a hash that the stored body no longer has |
| `ImportChats.ScanBatch` | src/commands/import_chatgpt.rs:100-132 | one file's conversations are each counted once as pending, current or malformed |
| `ImportChats.ClassifyMeans` | src/commands/import_chatgpt.rs:100-131 | a conversation counts under its `id` or, only without one, its `conversation_id`, is malformed unless that is a string, and current exactly if indexed under the same time |
| `ImportChats.PendingInOrder` | src/commands/import_chatgpt.rs:100-132 | pending items keep the order of the export |
| `ImportChats.CountMalformedMeans` | src/commands/import_chatgpt.rs:100-110 | the malformed counter is the number of conversations without an id |
| `ImportChats.FlattenInOrder` | src/commands/import_chatgpt.rs:88-133 | the export is its files one after another, and one unreadable file spoils it |
| `ImportChats.Scan` | src/commands/import_chatgpt.rs:84-133 | fails exactly when some file cannot be read; otherwise the pending items of the whole export in order, with conserved counters |
| `ImportChats.PutAllShows` | src/commands/import_chatgpt.rs:159-172 | for distinct ids every body that was sent is in the store in the end, whatever order the puts arrived in |
| `ImportChats.UploadAll` | src/commands/import_chatgpt.rs:157-191 | for every bound on uploads in flight and every schedule: never more uploads at a time than the bound, all puts are sent once, the index is that of some completion order, and the counters are the successes and failures |
| `ImportChats.Import` | src/commands/import_chatgpt.rs:26-205 | nothing is written unless every file could be read; a dry run writes nothing and reports what it would upload; imported, skipped, failed and malformed add up to the whole export and each is what it says; the index is saved once, also when uploads failed, and then the import ends in an error |
| `ImportChats.ConfluentIffDistinctIds` | src/commands/import_chatgpt.rs:174-191 | whatever the store answers, the final index is independent of the completion order, if and only if the ids to be uploaded are distinct |
| `ImportChats.RepeatedIdIsARace` | src/commands/import_chatgpt.rs:100-132 | an export that lists one conversation twice: both copies are uploaded and the order decides which entry stays |
| `ImportChats.ConfluentIffNoClash` | src/commands/import_chatgpt.rs:174-191 | for given answers of the store, the index is independent of the completion order if and only if no two successful uploads under one id record different entries |
| `ImportChats.ImportedEntriesDescribe` | src/commands/import_chatgpt.rs:158-187 | for distinct ids each imported entry tells the truth about the object that is there at the end |
| `ImportChats.ReimportUploadsTheFailures` | src/commands/import_chatgpt.rs:153-156 | importing the same export again uploads exactly the items that failed, in the same order |
| `ImportChats.UploadedIffTimeDiffers` | src/commands/import_chatgpt.rs:112-131 | an indexed conversation is uploaded over if and only if some copy in the export carries another time, later or earlier |
| `ImportChats.OlderExportReplacesNewer` | src/commands/import_chatgpt.rs:118-131 | a concrete export older than the stored conversation: it is uploaded and its entry replaces the newer one |
| `Conversation.EndsIffNoRevisit` | src/workload/chatgpt.rs:272-287 | the walk ends if and only if it revisits no node, and then within as many steps as the map has nodes |
| `Conversation.OwnParentNeverEnds` | src/workload/chatgpt.rs:278-284 | a conversation whose current node is its own parent: the walk never ends |
| `Conversation.ChainIsUnique` | src/workload/chatgpt.rs:272-287 | there is at most one root-to-current chain |
| `Conversation.ChainIsSimple` | src/workload/chatgpt.rs:272-287 | a chain repeats no node, is no longer than the map, and exists only if the walk ends |
| `Conversation.WalkToCurrent` | src/workload/chatgpt.rs:272-287 | whenever the walk ends, it returns the nodes of the root-to-current chain in order |
| `Rendering.EligibleMeans` | src/workload/chatgpt.rs:314-342 | a message is skipped exactly when cut off or when all its text parts are blank; no text at all, or one empty part, is shown as a placeholder |
| `Rendering.PartsText` | src/workload/chatgpt.rs:326-338 | the string parts joined by newlines, or the placeholder |
| `Rendering.JoinMeans` | src/workload/chatgpt.rs:330-335 | string parts are joined by single line breaks in order, other parts have no text |
| `Rendering.RoleNames` | src/workload/chatgpt.rs:319-325 | the four roles with names of their own; any other role is its own name |
| `Rendering.RenderNode` | src/workload/chatgpt.rs:315-346 | a node adds its block or nothing |
| `Rendering.ToMarkdown` | src/workload/chatgpt.rs:296-350 | the header, then one block per eligible message of the root-to-current chain in order |
| `Rendering.ExchangeIsRendered` | src/workload/chatgpt.rs:296-350 | a titled conversation of a question and an answer, character by character, for every title, time and text |
| `Rendering.NothingIsRendered` | src/workload/chatgpt.rs:296-312 | a conversation without title, times and messages, character by character |
| `Rendering.MarkdownIsUnique` | src/workload/chatgpt.rs:296-350 | a conversation has at most one rendering |
| `Rendering.RenderingIsLocal` | src/workload/chatgpt.rs:272-350 | rendering depends on header, current node, and messages and parent links of the ancestors only |
| `GithubRelease.RouteMeans` | src/stores/github_release.rs:66-76 | the release and asset name of the pointer, of snapshot and signature keys, of health keys and of the lock |
| `GithubRelease.RoutesMeetIff` | src/stores/github_release.rs:66-76 | two keys share an asset exactly when equal, or both miscellaneous and equal up to slash and underscore |
| `GithubRelease.RouteIsInjective` | src/stores/github_release.rs:66-76 | pointer, snapshot and health keys collide with nothing, nor do miscellaneous keys without underscore with each other |
| `GithubRelease.CollidesIffAmbiguous` | src/stores/github_release.rs:66-76 | some other key can overwrite a key if and only if it is miscellaneous and has a slash, or an underscore that may stand for one |
| `GithubRelease.ChatRoutesStayApart` | src/stores/github_release.rs:66-76 | under every prefix the chats index shares no asset with a conversation, and two conversations share one only if their ids agree up to slash and underscore |
| `ReleaseStore.PlainKeysAreSeparated` | src/stores/github_release.rs:66-76 | all pointer, snapshot and health keys together, and all other keys without underscore, have assets of their own |
| `ReleaseStore.ChatKeysAreSeparated` | src/stores/github_release.rs:66-76 | so have the index and conversations of one workload, when no two ids agree up to slash and underscore |
| `ReleaseStore.PutIsMapPut` | src/stores/github_release.rs:261-274 | over any set of keys with assets of their own, a put is the put of a map from keys to bytes |
| `ReleaseStore.BrokenPutIsLocal` | src/stores/github_release.rs:264-270 | over such a set a put that breaks off changes at most its own key, which is then absent, new, or as before |
| `ReleaseStore.SharedAssetIsOverwritten` | src/stores/github_release.rs:261-274 | a put to one of two keys that share an asset replaces what the other holds |
| `ReleaseStore.NotesCollide` | src/stores/github_release.rs:66-76 | two such keys |
| `ReleaseStore.ReplacedHere` | src/stores/github_release.rs:264-270 | after a whole put exactly one asset of that name is left, the new one |
| `ReleaseStore.ReplacedElsewhere` | src/stores/github_release.rs:264-270 | whatever part of a put took effect, every other release and name is as before |
| `ReleaseStore.BrokenPut` | src/stores/github_release.rs:264-270 | a put that fails half-way leaves an old asset, nothing, or the new body under its key |
| `ReleaseStore.PutKeepsOnePerName` | src/stores/github_release.rs:264-270 | however far a put gets there is never a second asset of one name |
| `ReleaseStore.DeleteIsMapDelete` | src/stores/github_release.rs:323-340 | over any set of keys with assets of their own, a delete is the delete of a map, and keeps one asset per name |
| `ReleaseStore.GithubReleaseStore.EnsureRelease` | src/stores/github_release.rs:106-139 | the release exists afterwards; an existing one is kept |
| `ReleaseStore.GithubReleaseStore.ListAssets` | src/stores/github_release.rs:141-170 | the page loop sees every asset of the release, in one call per full page and one more |
| `ReleaseStore.GithubReleaseStore.DeleteNamed` | src/stores/github_release.rs:265-269 | every asset of the name is deleted unless a call fails on the way |
| `ReleaseStore.GithubReleaseStore.Put` | src/stores/github_release.rs:261-274 | succeeds exactly when none of its calls fails; then the new asset is the only one of its name and the store changes as a map does |
| `ReleaseStore.GithubReleaseStore.Locate` | src/stores/github_release.rs:292-303 | release, then assets, then the first asset of the name: what the key holds |
| `ReleaseStore.GithubReleaseStore.Get` | src/stores/github_release.rs:276-290 | the asset the key holds, an error if there is none; over any key set, the value of the map |
| `ReleaseStore.GithubReleaseStore.Head` | src/stores/github_release.rs:292-303 | the id of what the key holds, or none |
| `ReleaseStore.GithubReleaseStore.DeleteIfMatch` | src/stores/github_release.rs:323-340 | an absent key is success, another etag an error, otherwise exactly that asset goes |

## Left out

- Etags that are content hashes, as on some object stores: there a key rewritten with equal bytes gets its old etag back.
- Mirrors of the chats workload: the fan-out of bodies and index follows the same code as `RunCommand.Fanout`, and the protocol lets workloads write to mirrors at will.
- ChatList.CollectOutdated: does not model the wrap-around of the 32-bit offset and counter, which needs a list of four billion items.
- Retry.ChatsApiClient.GetJson: counts waits and does not sleep; waits a server dictates in `Retry-After` are not bounded by the code and not counted.
- ImportChats.UploadedIffTimeDiffers: does not model the rounding of integers above 2^53 that reading a JSON number as a double brings.
- Hex.TrimMeans: trims ASCII white space only; the original also trims other Unicode white space around a signature, which no stored signature has.
- ReleaseStore.GithubReleaseStore.Put: one actor at a time on the releases; another writer between listing and upload is not modelled.
- GitBranchStores.GitBranchStore.Put: failures of local git commands, files left behind by them, and keys that are directories of other keys are not modelled.
- Conditional puts on releases, which that store always refuses.
- The listing operations of the stores (`list`), whose results no modelled code uses.
- Cloning, authentication URLs, temporary directories, and parsing of git output.
- The browser, the canary request, cookie jars and the HTTP transport: they are parameters or choices of a step.
- Configuration, command line, key generation, environment scrubbing, logging, and the contents of health records.
- Cooldowns and delays between requests, and calendar formatting of timestamps.
- The one-off export command and its simpler client, apart from the renderer it uses.
