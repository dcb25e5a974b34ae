# SkillMeter: a verified model of its local protocols

SkillMeter's clients record coding sessions and upload them. Between a transcript on disk and the collector lies a set of
local protocols that must survive crashes, concurrent processes, rewrites and lost stores: a lock that outlives dead owners,
a store and a session on top of it, the cutting and numbering of transcript chunks, the boundaries of what may be sent, the
order of uploads, references inside compacted histories, the history import and the refresh status. This project models
them in Dafny and proves what they promise over every run.

Verify everything with `dafny verify dfyconfig.toml`.

| file | models |
|---|---|
| `CredentialLock.dfy`, `LockRelease.dfy` | `acquireLock` and its release as steps of any number of calls, with crashes between any two steps; what is left of a lock |
| `StoreFile.dfy` | `mutateFile` on top of that lock; `ensureIdentityField` |
| `Credstore.dfy`, `Renewal.dfy`, `RenewalOutcome.dfy` | the session record with its guarded commits; renewal interleaved with sign-ins, sign-outs and crashes; what a renewal comes to |
| `TurnRouting.dfy` | turns and their destinations |
| `ChunkSplit.dfy`, `ChunkPlan.dfy` | the two size budgets; the delta, its cut and its numbering |
| `Staging.dfy` | live staging, its three boundary stores, and the hooks that write them, as steps that interleave |
| `Delivery.dfy`, `DeliveryLimits.dfy` | what the collector ends with, and the exact condition for it |
| `Boundary.dfy`, `BoundaryLimits.dfy`, `BoundaryRule.dfy` | what may never be sent, the exact conditions for it, and the rule on the plain files |
| `Beginning.dfy` | where a repository begins that is first seen in the middle of a transcript |
| `Overlap.dfy`, `BoundaryOverlap.dfy` | both again where stagings overlap: one reads in one step and writes in another |
| `TailReader.dfy` | the backward block reader against the forward parse |
| `Drain.dfy` | which chunks are tried, the concurrent workers, the one retry after a 401 |
| `DrainDelivery.dfy` | uploads and delivery together: what the collector has after any number of drains |
| `CanonicalJson.dfy`, `Compaction.dfy` | the canonical text; the projection of compacted histories |
| `KeyAllocation.dfy` | the keys of a scrubbed object |
| `LicenseStatus.dfy` | the refresh status as a history |
| `Backfill.dfy`, `BackfillRuns.dfy`, `BackfillImport.dfy` | the import's lifecycle record, all its runs, and one undisturbed run |
| `Luhn.dfy` | the check-digit loop |
| `Options.dfy`, `Seqs.dfy` | an option type; rearranging sequences |

Protocols are state machines: a datatype of actions, a function that applies one, and an invariant kept by each. Classes
hold the records the source changes in place; their methods are tied to functions, and the functions are what the machines
step by. What the source calls out to is a parameter: parsing, the gzip size (with the worst case the source itself
assumes), the scrubbing of a key, the place of a directory, the broker's and the collector's answers, the clock.

## Model

| member | source | states |
|---|---|---|
| CredentialLock.MutualExclusion | shared/lib/credential-lock.js:34-87 | after any interleaving of any number of calls with crashes, two calls that claim one lock file, store lock or reaper lock, are the same call |
| CredentialLock.HolderStillHolds | shared/lib/credential-lock.js:76-86 | a live holder's own token stays in its lock file until its own release |
| LockRelease.ReleaseFrees | shared/lib/credential-lock.js:76-84 | from any reachable state, a holder that releases removes its own lock file and no other |
| LockRelease.NextCallAcquires | shared/lib/credential-lock.js:34-87 | after a release a new call for that lock, left alone, gets it, though the process that released goes on living |
| LockRelease.NothingLeftBehind | shared/lib/credential-lock.js:34-87 | in every run, a lock file, store lock or reaper lock, with a token issued in the run and of a process that has not crashed is claimed by a live call of that process |
| CredentialLock.RemovalsAreJust | shared/lib/credential-lock.js:59-71 | whoever removes a lock file either owns it or removes an owner that is gone and stays gone in every continuation: a delayed reaper never removes a later owner |
| CredentialLock.GoneForever | shared/lib/credential-lock.js:59-63 | a token nobody holds any more is never held again |
| CredentialLock.ExecKeepsInv | shared/lib/credential-lock.js:34-87 | the invariant over all lock names at once is kept by every run |
| CredentialLock.SoloAcquires | shared/lib/credential-lock.js:34-87 | a lone call facing k dead owners and dead reapers gets the lock exactly when k is at most 8; then no reaper lock of the chain is left and no other file is touched, and otherwise no file is touched at all |
| CredentialLock.ClimbsDeadChain | shared/lib/credential-lock.js:54-74 | from any depth, a lone activation clears a dead chain below it and ends holding its own file |
| CredentialLock.GivesUpOnDeepChain | shared/lib/credential-lock.js:35-35 | past the depth limit the call ends without the lock and leaves every file as it was |
| StoreFile.Serializable | shared/lib/store-file.js:91-124 | after any run with crashes and errors anywhere the store equals the committed functions applied one after another, no attempt was preempted, every copy set aside is of a corrupt first file, and there is one as soon as anything was written over it |
| StoreFile.CopiesSettle | shared/lib/store-file.js:116-117 | once anything was committed no further copy is set aside: all copies come before the first commit |
| StoreFile.AnyNumberOfCopies | shared/lib/store-file.js:57-65 | there may be any number of them: for every n a run in which n attempts die between copying and writing leaves n copies and nothing committed, and the next attempt commits with n + 1 |
| StoreFile.AttemptCompletes | shared/lib/store-file.js:106-127 | nobody else at work, a new process comes through: the store is what its mutator makes of it, a corrupt one copied aside first, or as it was when the mutator declines, and the lock is free again, also over a dead owner |
| StoreFile.AttemptEnds | shared/lib/store-file.js:88-103 | an attempt that fails anywhere leaves the store as it is and the lock free |
| StoreFile.IdentityAgreement | shared/lib/device-identity.js:20-37 | any two values processes return for a key, at any two moments of a run, are equal |
| StoreFile.EnsureSets | shared/lib/device-identity.js:25-28 | a committing attempt leaves the field set, to the value already there if there was one; every other field keeps its value, and none is added or removed |
| StoreFile.EnsureIsHonest | shared/lib/device-identity.js:25-28 | processes that each ensure a field of their own, such as the device id and the hash salt, never replace or clear any field that is set, which is what agreement on every field rests on |
| StoreFile.FieldStays | shared/lib/device-identity.js:20-37 | a field that is set keeps its value in every continuation |
| Credstore.SessionStore.TakeSnapshot | clients/claude-code/skillmeter/scripts/credstore.js:76-93 | from now on the snapshot matches exactly the sessions that are signed in, on the same device, and still have the same tokens under the same generation; taken of a signed-out session it matches none |
| Credstore.SessionStore.Matches | clients/claude-code/skillmeter/scripts/credstore.js:87-93 | a snapshot matches when neither side is signed out and tokens, generation and device agree |
| Credstore.SessionStore.CommitRotation | clients/claude-code/skillmeter/scripts/credstore.js:102-107 | commits exactly on a matching snapshot, replaces the refresh token alone, and otherwise changes nothing |
| Credstore.SessionStore.CommitRefresh | clients/claude-code/skillmeter/scripts/credstore.js:109-121 | commits exactly on a matching snapshot, replaces the license alone, and otherwise changes nothing |
| Credstore.SessionStore.DropRevokedLicense | clients/claude-code/skillmeter/scripts/credstore.js:123-132 | on a matching snapshot removes both tokens and takes a new generation, and otherwise changes nothing |
| Credstore.SessionStore.SignOut | clients/claude-code/skillmeter/scripts/credstore.js:321-331 | leaves no token, a new generation and the signed-out flag, whatever was there |
| Credstore.SessionStore.MarkEngaged | clients/claude-code/skillmeter/scripts/credstore.js:333-342 | an intent takes a new generation and keeps the tokens |
| Credstore.SessionStore.CommitSignin | clients/claude-code/skillmeter/scripts/credstore.js:344-369 | commits exactly when the intent's generation and device still stand, or none was given; then the new tokens replace the old and a new generation ends the intent |
| Renewal.SnapshotStillMatches | clients/claude-code/skillmeter/scripts/credstore.js:87-121 | a snapshot that still matches after any further steps of any processes proves that no intent, sign-in commit, sign-out or revocation took place since it was taken, so a guarded commit never lands on a session that was replaced |
| Renewal.SessionLineage | shared/lib/license-renewal.js:57-92 | in every interleaving the stored license and refresh token descend from the same committed sign-in, one whose intent began after the last sign-out |
| Renewal.SignOutEndsEverything | clients/claude-code/skillmeter/scripts/credstore.js:321-363 | after a sign-out nothing is stored, and nothing is stored later but by a sign-in whose intent began after it |
| Renewal.SingleFlight | shared/lib/license-renewal.js:159-184 | at most one live process is between its snapshot under the lock and the settling of the outcome |
| Renewal.ReplacedNeverPresented | shared/lib/license-renewal.js:69-73 | once a successor is stored, the refresh token it replaced is never presented to the broker again |
| RenewalOutcome.RenewalStores | shared/lib/license-renewal.js:57-92 | a renewal nobody comes between presents the old refresh token once and stores the broker's new one and the minted license of the same sign-in; a session /activate says has ended loses both; when /activate fails the new refresh token stays |
| RenewalOutcome.RenewalLeaves | shared/lib/license-renewal.js:168-184 | after it the lock is released and no file of it left |
| RenewalOutcome.SpentOncePresented | shared/lib/license-renewal.js:69-73 | in every run, a refresh token the broker has replaced is presented again only if the process that had the answer crashed, gave up, or found its session replaced before it could store the new one |
| RenewalOutcome.ReplacedIsLeftAlone | shared/lib/license-renewal.js:57-92 | once the session was replaced or signed out, its old refresh token is not presented, what was granted for it is not stored, and a verdict on it does not drop the new session |
| RenewalOutcome.UserReplaces | clients/claude-code/skillmeter/scripts/credstore.js:321-369 | a sign-out, an intent or a commit replaces the session for every snapshot taken before it |
| RenewalOutcome.GivesUpAndLeaves | shared/lib/license-renewal.js:168-184 | wherever a renewal is, it can give up, leaving the session as it is and the lock free |
| RenewalOutcome.SignInStores | clients/claude-code/skillmeter/scripts/credstore.js:333-369 | an intent and its commit store the new license, the new refresh token or none, and a generation of their own |
| RenewalOutcome.StaleSignInStoresNothing | clients/claude-code/skillmeter/scripts/credstore.js:344-357 | after a sign-out or another intent in between, or on another device, the commit changes nothing |
| Renewal.ExecKeepsInv | shared/lib/license-renewal.js:95-184 | lineage, generations, snapshots and token freshness are kept by every run |
| TurnRouting.TurnNumbers | clients/claude-code/skillmeter/scripts/lib/transcript-delta.js:70-91 | the numbers are the count of turns started up to each record |
| TurnRouting.TurnRises | clients/claude-code/skillmeter/scripts/lib/transcript-delta.js:70-91 | on the numbers alone: a record has a higher number than the one before exactly when it is a user record that carries a prompt id other than that of the last record that raised the number, or carries none and answers no tool |
| TurnRouting.TurnsNeverDecrease | clients/claude-code/skillmeter/scripts/lib/transcript-delta.js:70-91 | turn numbers never decrease and rise by at most one a record |
| TurnRouting.SamePromptSameTurn | clients/claude-code/skillmeter/scripts/lib/transcript-delta.js:85-91 | a user record that repeats the turn's prompt id, or carries none and answers a tool, starts no turn |
| TurnRouting.TurnDestinations | clients/claude-code/skillmeter/scripts/lib/transcript-delta.js:113-139 | records of a turn share one destination, which is repository R exactly when the turn's last directory inside a repository is in R, none is gone or in a repository that does not record, and its first prompt id is unmarked; it stays open exactly when no directory is named and the prompt is unmarked |
| ChunkSplit.SplitLinesByBudget | clients/claude-code/skillmeter/scripts/lib/transcript-delta.js:146-162 | the loop makes the greedy groups: their lines are all the lines in order, each group within the budget or a single line |
| ChunkSplit.BudgetSplitIsMinimal | clients/claude-code/skillmeter/scripts/lib/transcript-delta.js:146-162 | no other division into contiguous admissible groups has fewer |
| ChunkSplit.GreedyStaysAhead | clients/claude-code/skillmeter/scripts/lib/transcript-delta.js:146-162 | with a group open, no rival division of what remains and what is open ends with fewer groups |
| ChunkSplit.EnvelopeSplitSound | clients/claude-code/skillmeter/scripts/lib/transcript-delta.js:164-191 | the recursive split keeps the order, leaves out only lines that do not fit alone and counts them, and every group's compressed, encoded size with the reserve is within the envelope |
| ChunkSplit.NothingLeftOut | clients/claude-code/skillmeter/scripts/lib/transcript-delta.js:174-191 | when every line fits alone, nothing is left out |
| ChunkSplit.AcceptedExactly | clients/claude-code/skillmeter/scripts/lib/transcript-delta.js:174-191 | within gzip's bound, what counts as fitting is exactly what the encoded compressed size with the reserve says |
| ChunkSplit.EnvelopeHoldsBody | clients/claude-code/skillmeter/scripts/lib/transcript-delta.js:164-166 | the envelope is the reserve and the fewest groups of four characters that hold the body's bits |
| ChunkPlan.FindLastContentUuid | clients/claude-code/skillmeter/scripts/lib/transcript-delta.js:43-49 | the loop finds the newest content uuid, "" when there is none |
| ChunkPlan.IndexOfAppend | clients/claude-code/skillmeter/scripts/lib/transcript-delta.js:58-63 | an anchor found in a transcript is found at the same place after any append |
| ChunkPlan.BuildChunkPlan | clients/claude-code/skillmeter/scripts/lib/transcript-delta.js:216-255 | the loops compute the plan: the kept delta cut by both budgets and numbered on, the cursor moved past the whole delta |
| ChunkPlan.PlanCarries | clients/claude-code/skillmeter/scripts/lib/transcript-delta.js:193-255 | a plan's chunks carry the kept delta in order less what no upload could carry, are non-empty, within the envelope, numbered on without a gap, and all carry the new cursor's baseline |
| Staging.RepositoryTranscript.CollectBoundaries | clients/claude-code/skillmeter/scripts/lib/transfer.js:1560-1581 | the boundaries of the three stores that can be placed, and the times of those that cannot |
| Staging.RepositoryTranscript.FindDeltaStart | clients/claude-code/skillmeter/scripts/lib/transfer.js:1560-1597 | staging holds exactly when an unplaceable boundary is not followed by a placed one, and otherwise starts at the furthest boundary |
| Staging.RepositoryTranscript.StageRepositoryTurns | clients/claude-code/skillmeter/scripts/lib/transfer.js:1056-1115 | the new cursor and queue after a live staging, in the held, the empty and the sealing case |
| Staging.RepositoryTranscript.AdvanceCursorToTranscriptTail | clients/claude-code/skillmeter/scripts/lib/transfer.js:1260-1294 | the cursor a tail boundary writes: whether it was missing and its number are as read before the look, the check against a cursor written since the look and the baseline are as read at the write |
| Staging.RepositoryTranscript.StartTranscriptAtTurn | clients/claude-code/skillmeter/scripts/lib/transfer.js:1310-1344 | the cursor a hook of a turn writes if it found no cursor file before its look: at the start of the transcript when no earlier turn is in it, else at the last content before the turn, numbered from 0; nothing when no record carries a prompt id |
| Beginning.BeginsAtItsTurn | clients/claude-code/skillmeter/scripts/lib/transfer.js:1310-1344 | of the transcript a hook saw and all written later, kept content that fits is sealed after it exactly when it is at or beyond the first record of the hook's prompt (beyond all it saw when that is not written yet), or when no turn was before that |
| Beginning.BeginsOnlyThen | clients/claude-code/skillmeter/scripts/lib/transfer.js:1310-1344 | such a hook writes a cursor exactly when it found none, knows its prompt, and either the transcript tells its turns or holds no content |
| Staging.RepositoryTranscript.MarkUnlicensedTranscript | clients/claude-code/skillmeter/scripts/lib/transfer.js:1402-1434 | the signed-out mark after a hook, which keeps a later and larger one |
| Staging.RepositoryTranscript.RecordPendingBoundary | clients/claude-code/skillmeter/scripts/lib/transfer.js:1451-1478 | a pending entry is appended, without a position when the transcript could not be read, and not at all for an empty transcript |
| Delivery.CollectorHoldsNewest | clients/claude-code/skillmeter/scripts/lib/transcript-delta.js:193-215 | whatever order generations arrive in, a collector that replaces, appends or ignores by baseline holds the chunks of the newest one in arrival order |
| Delivery.GenerationsMayOvertake | clients/claude-code/skillmeter/scripts/lib/transfer.js:847-851 | two deliveries with the same order inside each generation leave the collector with the same object |
| Delivery.EndToEnd | clients/claude-code/skillmeter/scripts/lib/transfer.js:1056-1115 | over any run of appends, rewrites, stagings and hooks that read, look and write in any interleaving, each step of which keeps the count: chunks are numbered consecutively from 1 and the collector ends with exactly the lines of the simple form, those taken since the last rewrite that sealed something, in order |
| Delivery.StepKeepsInv | clients/claude-code/skillmeter/scripts/lib/transfer.js:450-463 | a step keeps number and baseline of the cursor in agreement with the queue if and only if it keeps the count: a staging reads the cursor or has nothing to lose by not reading it, and a hook writes the number, and once anything is sealed the baseline, that the file has at that moment |
| Delivery.RunKeepsInv | clients/claude-code/skillmeter/scripts/lib/transfer.js:450-463 | in every such run number and baseline of the cursor agree with the queue at every moment: the number is the last one sealed, the baseline is at most the next number and above the collector's exactly when a rewrite has sealed nothing yet |
| DeliveryLimits.PromisedExactly | clients/claude-code/skillmeter/scripts/lib/transfer.js:1056-1115 | the promise of `EndToEnd` holds in a state and after all its count-keeping continuations if and only if number and baseline agree with the queue there |
| DeliveryLimits.StepPromisedExactly | clients/claude-code/skillmeter/scripts/lib/transfer.js:1260-1294 | from a state in agreement, the promise survives a step for good if and only if the step keeps the count: the condition of `EndToEnd` is exact for each step |
| DeliveryLimits.LateHookRepeatsNumber | clients/claude-code/skillmeter/scripts/lib/transfer.js:1265-1289 | the failing run for a hook, every file readable: a hook that read the cursor before a rewrite was staged writes the old number back, two chunks get one number, and the collector takes a new generation for a continuation of the one before |
| DeliveryLimits.UnreadableCursorLosesLines | clients/claude-code/skillmeter/scripts/lib/transfer.js:1064-1079 | the failing run for a staging: one that cannot read the cursor after a rewrite makes the next chunk carry an old baseline, and the collector ignores its sealed line |
| Overlap.UndisturbedIsWhole | clients/claude-code/skillmeter/scripts/lib/transfer.js:1056-1115 | a staging's read and write with nothing in between are the one step it is elsewhere |
| Overlap.StepKeepsExactly | clients/claude-code/skillmeter/scripts/lib/transfer.js:1056-1115 | a staging's write keeps number and baseline in agreement with the queue if and only if it writes nothing, or the number it read is the one there now and, once anything is sealed, it starts a generation or its baseline stands to the last sealed one as the cursor's does |
| Overlap.ClosePromisedExactly | clients/claude-code/skillmeter/scripts/lib/transfer.js:1056-1115 | from a state in agreement, the promise of `EndToEnd` survives such a write for good if and only if that condition holds |
| Overlap.OverlapEndToEnd | clients/claude-code/skillmeter/scripts/lib/transfer.js:1056-1115 | the promise of `EndToEnd` over runs in which stagings overlap each other, hooks, appends and rewrites in any way, each step keeping the count |
| Overlap.OverlapRepeatsNumber | clients/claude-code/skillmeter/scripts/lib/transfer.js:1056-1115 | the failing run: two stagings read before either writes, and both seal the first record as chunk 1 |
| Delivery.ExactlyOnce | clients/claude-code/skillmeter/scripts/lib/transcript-delta.js:58-63 | over any stagings of a growing transcript with unique uuids, the uuid-carrying lines of all sealed chunks are the records kept when first reached, once each and in file order, less the oversized ones |
| Boundary.NothingBeforeABoundary | clients/claude-code/skillmeter/scripts/lib/transfer.js:1402-1470 | once a boundary for the repository was placed by the cursor, the mark or a pending entry, no later staging seals content at or before it, whichever store took the write; either hooks write what they see now and any store may be unreadable, or hooks write however late, the staging can read every store, and a cursor written unchecked leaves no boundary behind that no other store reaches |
| Boundary.SealedExactly | clients/claude-code/skillmeter/scripts/lib/transfer.js:1056-1115 | after any run of a growing transcript, with hooks however late and any stores unreadable, kept content that fits is sealed if and only if the stores, as they can be read then, neither hold staging nor place a boundary at or beyond it |
| BoundaryRule.SealsByRule | clients/claude-code/skillmeter/scripts/lib/transfer.js:1056-1115 | the rule on the plain files: kept content that fits is sealed exactly when the repository is not found unrecorded, no boundary that cannot be placed is as late as every one that can, and no placed boundary lies at the record or beyond |
| BoundaryRule.TailBoundaryWrites | clients/claude-code/skillmeter/scripts/lib/transfer.js:1260-1294 | a tail boundary puts the cursor at the newest content the hook saw, with the number it read before and the baseline that is there at the write, each 0 when it cannot be read, unless it was to write only if missing and found one, or a later cursor at a record it did not see is there |
| BoundaryRule.NoContentNoBoundary | clients/claude-code/skillmeter/scripts/lib/transfer.js:1275-1278 | a hook that saw no content writes no cursor |
| BoundaryRule.OtherBoundariesWrite | clients/claude-code/skillmeter/scripts/lib/transfer.js:1402-1478 | the mark goes to the newest content the hook saw unless one written since of a longer transcript is there; a pending entry is added with that content, or without a place when the transcript was not read |
| Boundary.CoveredGuards | clients/claude-code/skillmeter/scripts/lib/transfer.js:1560-1597 | a boundary still covered by some store makes staging hold or start at it or beyond, whichever stores can be read |
| Boundary.SealsExactly | clients/claude-code/skillmeter/scripts/lib/transfer.js:1056-1115 | of any files and any readability, a record is sealed only if staging neither holds nor starts beyond it and it is kept, and if it fits alone exactly then |
| BoundaryLimits.LateWriteExactly | clients/claude-code/skillmeter/scripts/lib/transfer.js:1260-1344 | in a run with late hooks, the staging after a write of the cursor seals nothing at or before any boundary if and only if the write leaves none behind, and the run stays in good order if and only if it does: the condition on unchecked writes is exact |
| BoundaryLimits.SealedAfterWrite | clients/claude-code/skillmeter/scripts/lib/transfer.js:1260-1344 | what that staging seals, record by record: kept content that fits exactly when it lies beyond the place written and neither the mark nor an entry reaches it |
| BoundaryLimits.BeginExactly | clients/claude-code/skillmeter/scripts/lib/transfer.js:1310-1344 | where stores may be unreadable, after a transcript is begun a record is sealed under some readability if and only if it lies beyond the place it begins at |
| BoundaryLimits.LateInitLosesBoundary | clients/claude-code/skillmeter/scripts/lib/transfer.js:1265-1281 | the failing run for a cursor judged missing before the look: another hook places the boundary, the first one writes its older cursor unchecked, and the record at the boundary is sealed with every store readable |
| BoundaryLimits.LateBeginLosesBoundary | clients/claude-code/skillmeter/scripts/lib/transfer.js:1310-1344 | the same for a hook that begins the transcript at its turn |
| BoundaryLimits.LateWriteHidesUnreadableMark | clients/claude-code/skillmeter/scripts/lib/transfer.js:1260-1294 | why lateness and unreadable stores cannot be mixed: a late cursor write with a newer time hides an unreadable mark beyond it, and a record before the mark is sealed |
| BoundaryOverlap.SealsAsRead | clients/claude-code/skillmeter/scripts/lib/transfer.js:1056-1115 | of overlapping stagings, kept content that fits is sealed if and only if the stores as the staging read them neither held it nor placed a boundary at or beyond it, whatever was written since |
| BoundaryOverlap.CloseKeepsExactly | clients/claude-code/skillmeter/scripts/lib/transfer.js:1056-1115 | a staging's write keeps a run with late hooks in good order if and only if it writes no cursor or leaves no boundary behind |
| BoundaryOverlap.NothingBeforeWhatWasRead | clients/claude-code/skillmeter/scripts/lib/transfer.js:1056-1115 | over such runs, a staging that read every store seals no content at or before a boundary placed before it read |
| TailReader.ReadTranscriptTail | clients/claude-code/skillmeter/scripts/lib/transfer.js:1364-1395 | for every file and every block size from 1 on, the backward reader ends with the uuid a forward parse of the whole file finds, "" exactly when there is none |
| TailReader.NewestIsLastGiven | clients/claude-code/skillmeter/scripts/lib/transcript-delta.js:23-49 | that uuid is the one of the last line that is not blank, parses, and carries one |
| TailReader.NewestAtNewline | clients/claude-code/skillmeter/scripts/lib/transcript-delta.js:23-49 | the newest uuid of a text split at any newline is that of the second part, or of the first when the second has none |
| TailReader.JoinOfLines | clients/claude-code/skillmeter/scripts/lib/transcript-delta.js:23-41 | splitting into lines and joining them gives the text back |
| TailReader.LinesOfJoin | clients/claude-code/skillmeter/scripts/lib/transcript-delta.js:23-41 | joining whole lines and splitting gives the lines back |
| Drain.GroupIndices | clients/claude-code/skillmeter/scripts/lib/transfer.js:858-864 | each transcript's map entry lists exactly its positions, ascending, under distinct keys |
| Drain.EligibleChunksInOrder | clients/claude-code/skillmeter/scripts/lib/transfer.js:858-876 | a chunk is chosen exactly when it and every chunk before it in its transcript's queue may be tried now, and the chosen ones of a transcript come in queue order |
| Drain.SortInOrder | clients/claude-code/skillmeter/scripts/lib/transfer.js:867-869 | the sort puts exactly the given chunks in strict (number, file) order |
| Drain.GroupsPartition | clients/claude-code/skillmeter/scripts/lib/transfer.js:881-887 | the groups of a pass partition the files by transcript |
| Drain.UploadsInTurn | clients/claude-code/skillmeter/scripts/lib/transfer.js:881-906 | at every moment of every interleaving of the at most 4 workers, each file was sent at most once, and only after every earlier one of its transcript was acknowledged |
| Drain.FinishedPass | clients/claude-code/skillmeter/scripts/lib/transfer.js:135-153 | a finished pass has a result at every input index: the answer to that file's own upload, or held back, which it is exactly when an earlier file of its transcript was not acknowledged |
| Drain.SentInOrder | clients/claude-code/skillmeter/scripts/lib/transfer.js:881-906 | at every moment of every interleaving the files of one transcript were sent in queue order, and every file with an answer was sent |
| Drain.PassEnds | clients/claude-code/skillmeter/scripts/lib/transfer.js:135-153 | how far a pass has come is bounded, every step that changes anything, whatever the collector answers, brings it further, and while a worker is not finished some step changes something: every pass ends |
| Drain.RetryUnauthorizedOnce | clients/claude-code/skillmeter/scripts/lib/transfer.js:1704-1716 | new results go to the places of the files refused with 401 and only there, and nothing changes without a new license |
| Drain.RetryKeepsOrder | clients/claude-code/skillmeter/scripts/lib/transfer.js:1704-1716 | after the pass and the one retry pass, in any interleaving, the acknowledged files of a transcript are still its first ones, none was lost, and no resent file was held back |
| Drain.DrainAcknowledgesPrefix | clients/claude-code/skillmeter/scripts/lib/transfer.js:847-906 | whatever precedes an acknowledged chunk in its transcript's whole queue was itself tried and acknowledged |
| DrainDelivery.PassDrains | clients/claude-code/skillmeter/scripts/lib/transfer.js:847-906 | a finished pass, its workers in any interleaving, delivers of each transcript exactly its acknowledged files, in queue order |
| DrainDelivery.RetriedPassDrains | clients/claude-code/skillmeter/scripts/lib/transfer.js:1704-1716 | so does a pass followed by the one retry pass: what the two deliver, one after the other, is in queue order |
| DrainDelivery.DrainsDeliver | clients/claude-code/skillmeter/scripts/lib/transfer.js:847-906 | over any number of drains with stagings in between, and any answers: what arrived of a transcript is its queue from the front, each chunk once and in order, and exactly the later chunks still wait |
| DrainDelivery.DeliveredEndToEnd | clients/claude-code/skillmeter/scripts/lib/transfer.js:1056-1115 | staging and concurrent uploads together: what arrived is a prefix of what was sealed, and once nothing waits the collector holds exactly the lines of the simple form |
| CanonicalJson.CanonicalInjective | clients/codex/plugins/skillmeter/scripts/lib/compaction-projection.js:13-17 | two JSON values have the same canonical text only when they are the same up to the order of keys |
| CanonicalJson.ValueSplits | clients/codex/plugins/skillmeter/scripts/lib/compaction-projection.js:13-17 | a value's canonical text can be read off the beginning of a text in only one way |
| CanonicalJson.QuotedSplits | clients/codex/plugins/skillmeter/scripts/lib/compaction-projection.js:15-16 | a quoted string, with its escapes, ends at one place only and names one string |
| CanonicalJson.EscapedReadsBack | clients/codex/plugins/skillmeter/scripts/lib/compaction-projection.js:15-16 | a JSON reader makes of an escaped string that string |
| CanonicalJson.RankIsUnitOrder | clients/codex/plugins/skillmeter/scripts/lib/compaction-projection.js:15-15 | the key order compares characters as their UTF-16 units do |
| Compaction.Projection.Remember | clients/codex/plugins/skillmeter/scripts/lib/compaction-projection.js:22-28 | only objects are remembered, the first place of a text stays, and a full map lets its oldest text go |
| Compaction.Projection.Index | clients/codex/plugins/skillmeter/scripts/lib/compaction-projection.js:29-43 | a line that is excluded, too long or unparsable is passed over; of others the payload and the history entries are remembered under their places |
| Compaction.Projection.ScanThrough | clients/codex/plugins/skillmeter/scripts/lib/compaction-projection.js:44-62 | however short the reads, exactly the newline-ended records are indexed, in order and with their offsets; each failure names what the file is like there |
| Compaction.Projection.Project | clients/codex/plugins/skillmeter/scripts/lib/compaction-projection.js:63-85 | what goes out: while the map is not full, an entry of a history is a reference exactly when it is worth replacing and an earlier readable record holds an equal value at a place that is remembered, which the reference names; other entries go out whole, and a record without a reference as it is |
| Compaction.IndexedThroughOk | clients/codex/plugins/skillmeter/scripts/lib/compaction-projection.js:22-62 | every remembered place lies before the part scanned and holds a value with the text it is remembered under; the map never exceeds its bound |
| Compaction.ReferencesLeadBack | clients/codex/plugins/skillmeter/scripts/lib/compaction-projection.js:69-77 | every emitted reference names a strictly earlier record and, in it, the very value it replaced |
| Compaction.EverythingRestored | clients/codex/plugins/skillmeter/scripts/lib/compaction-projection.js:63-85 | following references from emitted record to emitted record restores every history entry and payload of the source |
| Compaction.EarlierValueFound | clients/codex/plugins/skillmeter/scripts/lib/compaction-projection.js:22-43 | while the map is not full, every payload or history entry of an earlier record is found again, at the first record that holds it |
| Compaction.RememberedExactly | clients/codex/plugins/skillmeter/scripts/lib/compaction-projection.js:22-43 | while the map is not full, a value is found exactly when an earlier readable record holds it at an eligible place |
| Compaction.OldestLeavesFirst | clients/codex/plugins/skillmeter/scripts/lib/compaction-projection.js:26-27 | a text leaves only a full map, and only after every text before it, and its place never changes |
| Compaction.ReadableExactly | clients/codex/plugins/skillmeter/scripts/lib/compaction-projection.js:29-34 | a line is decoded exactly when none of its bytes is excluded and it is not too long |
| Compaction.HistoryIs | clients/codex/plugins/skillmeter/scripts/lib/compaction-projection.js:36-41 | a history is the array under its name in the record's payload, and nothing else |
| KeyAllocation.ScrubObject | shared/lib/sanitize.js:397-426 | one entry for each input entry, under pairwise distinct keys named by the rule, with the value scrubbed under its original key |
| KeyAllocation.AllocationDistinct | shared/lib/sanitize.js:402-420 | the naming rule, first holder keeps its key and later ones get the first free number from 2, gives distinct names |
| KeyAllocation.AllocationUnique | shared/lib/sanitize.js:402-420 | the rule leaves no choice, so the loop with its cache names keys as a naive search would |
| KeyAllocation.NextName | shared/lib/sanitize.js:413-417 | the do-while ends, and a search from the cached number finds the same name as one from 2 |
| KeyAllocation.FreeNumber | shared/lib/sanitize.js:413-415 | among the numbered names some is free, however many are taken |
| KeyAllocation.DecimalInjective | shared/lib/sanitize.js:414-414 | different numbers give different suffixes |
| KeyAllocation.SplitExtension | shared/lib/sanitize.js:281-294 | base and extension make up the name, the extension having the length of the first rule that applies |
| KeyAllocation.ExtensionKinds | shared/lib/sanitize.js:281-294 | a dotfile has no extension, and any other is a listed compound one or a dot and one to ten letters or digits after something |
| KeyAllocation.ExtensionExactly | shared/lib/sanitize.js:281-294 | a file name has no extension as a dotfile, else the first compound one it ends with, else exactly the part from a dot, not the first character, with one to ten letters or digits behind it |
| KeyAllocation.BasenameExactly | shared/lib/sanitize.js:409-410 | the name whose extension counts is what follows the last slash or backslash |
| LicenseStatus.StatusFile.UpdateLicenseStatus | clients/claude-code/skillmeter/scripts/lib/license-status.js:135-187 | what is written is the mutation of the record as read; that is the record replaced unless the file changed under an unchanged revision or before every one of the five attempts |
| LicenseStatus.ReportsAreHistory | clients/claude-code/skillmeter/scripts/lib/license-status.js:89-108 | after any serial run, the last success is the time of the latest success ever, and the terminal reason that of the latest terminal outcome unless a success followed, through any session change and any clearing |
| LicenseStatus.ReasonOutlastsRecord | clients/claude-code/skillmeter/scripts/lib/license-status.js:89-108 | a terminal reason is reported on through a clearing, a reset and a session change, also from a record without `lastTerminal` |
| LicenseStatus.StandingIsHistory | clients/claude-code/skillmeter/scripts/lib/license-status.js:242-358 | terminal record, failure count and retry time depend only on the events since the latest reset, where a session change is one |
| LicenseStatus.BlockedIsHistory | clients/claude-code/skillmeter/scripts/lib/license-status.js:231-240 | a refresh is blocked as terminal exactly when since the reset there was a terminal outcome, the last not the old exhausted one, however many failures followed; by backoff exactly when there were only failures and the last one's delay is not over |
| LicenseStatus.BackoffDoublesToCap | shared/lib/license-renewal.js:41-44 | the delay is none without failures, starts at the base, doubles with each further failure up to the cap and is never beyond it |
| Backfill.LifecycleFile.ClaimOffer | clients/claude-code/skillmeter/scripts/lib/backfill-state.js:181-210 | an offer is claimed exactly when it is pending, or by hand after a failure or refusal; a new claim is not authorized |
| Backfill.LifecycleFile.Begin | clients/claude-code/skillmeter/scripts/lib/backfill-state.js:219-260 | an import starts exactly for a claimed, unanswered offer with a known tenant, with fresh counts |
| Backfill.LifecycleFile.IsRunning | clients/claude-code/skillmeter/scripts/lib/backfill-state.js:362-371 | a run whose worker is gone or that was silent too long is ended as failed and not reported running |
| Backfill.LifecycleFile.MarkDelivered | clients/claude-code/skillmeter/scripts/lib/backfill-state.js:334-348 | taken once, for the record's own offer, after its run ended |
| Backfill.UploadsOnlyBegun | clients/claude-code/skillmeter/scripts/lib/backfill-state.js:181-348 | in every run of the record from the first one, uploads are authorized exactly while the offer runs or has run, a running record has neither ended nor been delivered, and an ended one has its end on record |
| Backfill.ClaimedStarts | clients/claude-code/skillmeter/scripts/lib/backfill-state.js:181-260 | a claimed offer is not authorized, and starts when it is begun, counting anew |
| Backfill.RefusedNeverRuns | clients/claude-code/skillmeter/scripts/lib/backfill-state.js:212-217 | once answered with no, an offer never runs and is never authorized, whatever comes later |
| Backfill.CountBackfillChunks | clients/claude-code/skillmeter/scripts/lib/backfill-delivery.js:45-85 | the counts are the numbers of places, over all queues, of sidecars with a body and of set-aside ones whose metadata names the offer |
| Backfill.NonePending | clients/claude-code/skillmeter/scripts/lib/backfill-delivery.js:104-107 | the pending count is zero exactly when no file of any queue is a pending chunk of the offer |
| BackfillRuns.SettlesOnce | clients/claude-code/skillmeter/scripts/lib/backfill-delivery.js:92-138 | in every run where the clock demotes a living worker only while nothing is queued, each offer settles and is announced at most once, and a settled offer has no chunk in a queue then or ever after |
| BackfillRuns.ResultsStayTrue | clients/claude-code/skillmeter/scripts/lib/backfill-delivery.js:114-127 | in such runs sent and unsent make up what was queued, and for a run without a failed transcript the unsent chunks are exactly those the collector never acknowledges, then or later |
| BackfillRuns.CanSettle | clients/claude-code/skillmeter/scripts/lib/backfill-delivery.js:92-138 | once a run has ended and nothing of its offer is pending, one settling process alone settles it, reports it and touches nothing else |
| BackfillRuns.RunInv | clients/claude-code/skillmeter/scripts/lib/backfill-state.js:181-371 | record, workers (also those of a demoted run that go on), queues and settling processes agree at every moment of every such run |
| BackfillImport.ImportCounts | clients/claude-code/skillmeter/scripts/backfill_worker.js:100-135 | an accepted import nobody disturbs ends completed, or failed if a transcript did, counts exactly the chunks of the transcripts that did not fail, and has queued all it staged |
| BackfillImport.DeadRunEnds | clients/claude-code/skillmeter/scripts/lib/backfill-state.js:362-371 | a run whose worker is gone is ended as failed with what it had counted, and a living worker's run is not |
| BackfillImport.WorkerEnds | clients/claude-code/skillmeter/scripts/lib/backfill-state.js:318-331 | a worker that throws ends its run as failed, one that dies leaves the record running |
| BackfillImport.LateWorkerStops | clients/claude-code/skillmeter/scripts/backfill_worker.js:46-55 | a worker that comes when its offer no longer runs stops before it stages anything |
| BackfillRuns.StaleDemotionExactly | clients/claude-code/skillmeter/scripts/lib/backfill-state.js:362-371 | after any such run, a demotion by the clock leaves every continuation without another one harmless if and only if the worker is over or nothing was queued |
| BackfillRuns.StaleDemotionBreaksSettlement | clients/claude-code/skillmeter/scripts/lib/backfill-state.js:362-371 | the failing run, for any number of queues and settling processes: the clock demotes a living worker, the offer settles, and one of its chunks then waits in a queue |
| Luhn.LuhnValid | shared/lib/rules.js:64-77 | the right-to-left toggle loop decides whether the position-wise sum is a multiple of ten |
| Luhn.SingleDigitErrorFound | shared/lib/rules.js:64-77 | changing any one digit of a valid string makes it invalid |
| Luhn.NeighbourSwapFound | shared/lib/rules.js:64-77 | swapping neighbouring digits of a valid string goes unnoticed exactly when they are equal or are 0 and 9 |
| Luhn.EvenSwapUnnoticed | shared/lib/rules.js:64-77 | swapping digits an even distance apart never changes validity |
| Luhn.OneCheckDigit | shared/lib/rules.js:64-77 | every digit string has exactly one last digit that makes it valid |

Where the comments and the code differ, the model follows the code. One such place: a status record left by an older
version with the reason `backoff_exhausted` does not block a refresh, but it is still terminal for `recordRefreshFailure`,
so failures after it set no retry time (license-status.js, lines 234 and 279); `LicenseStatus.BlockedIsHistory` says so.

## Left out

- Delivery.EndToEnd: is about runs whose every step keeps the count, because the source fails otherwise; `DeliveryLimits.StepPromisedExactly` shows the condition exact, `LateHookRepeatsNumber` and `UnreadableCursorLosesLines` are the failing runs. Whether a broken count can be mended by a second fault is not asked.
- DeliveryLimits.PromisedExactly: supposes that there are still two records, one of which fits alone, with uuids that nothing in the files names.
- Delivery.ExactlyOnce: is about a transcript that only grows and is staged with no mark and no pending entry.
- Boundary.NothingBeforeABoundary: excludes rewrites of the transcript, and is about the two kinds of run its row names; what is sealed in any other is `Boundary.SealedExactly`. In the late kind the condition on a write of the cursor is exact; that hooks see what is there in the other kind is sufficient, not exact.
- BoundaryLimits.BeginExactly: supposes that no store was written at the very time of the write.
- BackfillRuns.SettlesOnce: is about runs that demote a living worker only while nothing is queued; otherwise it fails, and `BackfillRuns.StaleDemotionExactly` shows the condition exact.
- BackfillRuns.ResultsStayTrue: for a run that failed part way the recorded count may be below what was staged, as in the source, so `unsent` is bounded only by that count.
- LicenseStatus.ReportsAreHistory: is about serial updates; what concurrent ones can lose is in `UpdateLicenseStatus`.
- LicenseStatus.StandingIsHistory: assumes that a session's hash does not come back, which its random generation ensures.
- StoreFile.Serializable: holds without writers outside the protocol; the source's checks for them, the lost lock and the changed file, are modelled and proved never to trigger. Making a copy and replacing the file are one step each.
- KeyAllocation.ScrubObject: does not model that JavaScript lists integer-like keys first.
- CanonicalJson.CanonicalInjective: takes strings as sequences of Unicode scalar values, so lone surrogates are left out, and numbers as the texts JSON gives them.
- Luhn.LuhnValid: the extraction of digits and the issuer rules around it are left out.
- Lock: errors of the file system in the middle of a call, the names of the temporary owner files, lock files older clients wrote (they count as unreadable), and the reuse of process ids.
- Hashes and identifiers: HMAC, SHA-256 and UUIDs are taken as distinct for distinct inputs; a reference names its record by offset where the source uses an HMAC over it.
- Renewal: the device id is constant; a sign-in always commits with its intent, as its one caller does; the first snapshot of `ensureFresh`, which only decides to return early; `renewNow` without the lock; the broker's revocation call; the text of status messages.
- Session migration, sign-in result files, organization lists and the Codex session store, which is the same protocol.
- Staging: a staging is one step, or in `Overlap` and `BoundaryOverlap` two, all it reads and all it writes; what a hook checks and writes at its end is one step, its read of the cursor and its look at the transcript are one each.
- Overlap.OverlapEndToEnd: the simple form takes a staging's lines as it read them, when it writes.
- Delivery: chunks that cannot be written to disk, wire ids, a transcript staged by several repositories (each has its own queue), `stageTranscriptSnapshot`, whose chunks carry baseline 0.
- DrainDelivery: a chunk counts as arrived when it is acknowledged, so one that arrived and whose answer was lost is not modelled; nor is a chunk that was set aside.
- Drain.EligibleChunksInOrder: takes file paths as ranks in the locale's order, different for different files.
- Drain: the drain lock, deletion of queues on a policy change, the attempt budget and the delay of a failed chunk (`retryDelayMs`), event logs.
- Compaction: byte counts of what was replaced, sanitizing of what goes out, and the choice to project only oversized records, which is a parameter.
- Backfill: a queue directory that cannot be listed, which the count takes for an empty one, so that an offer could settle with chunks in it.
- Backfill: the scan for sessions, offers kept for their queued chunks, tenants, the notice texts, the set-aside count in the announcement, a worker started by hand.
- Age-evicting locks, cleanup by age and clock skew: their safety rests on clocks.
- The detectors and entropy rules that redact text: they rest on a regular-expression engine.
