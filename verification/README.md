# KOSMO: a model in Dafny

KOSMO turns a product idea into documents, features, requirements, diagrams and generated code, with language models
doing the writing.  The models are opaque here.  What is modelled is the state around them: who holds a session,
which container may run, which suggestion may still change a text, what a generation run leaves behind when a call
fails half way.  Each part is a module, in a file of the same name.

| module | part of the system |
|---|---|
| `Sse` | the incremental reader of server-sent events in the web client, and the printer on the server |
| `ApiClient` | the web client's single-flight token refresh |
| `Launcher` | the container launcher: creation mutex, job cap, heartbeat leases, sweeper |
| `TokenFamilies`, `TokenRuns`, `TokenGrace`, `TokenUse` | refresh-token rotation over the Redis store: one request alone, every interleaving, the grace window, and how a use waits in it |
| `Artifacts`, `Impacts` | the artifacts of a project, the transactional application of impacts, and what each impact writes |
| `Suggestions`, `SnapshotGuard`, `SuggestionRuns`, `Evaluation`, `SuggestionBook`, `SuggestionSafety` | consistency suggestions: keys and snapshots, what a snapshot pins down, apply, bulk, review, evaluation, and every run of their steps |
| `Codegen`, `Recovery`, `Deletion` | code generation, the recovery sweep over dead generations, removal of a feature's code |
| `Polling`, `Slug`, `ChatHistory` | deployment polling, unique slugs, the chat-history budget |
| `Wrappers` | an option type |

Code that changes things in place is modelled by classes and methods with loops, each proved equal to a
specification function; the properties are proved of those functions.  Concurrent parts are state machines whose
actions are the stretches between two awaits, and their results speak of every reachable state or every run.

## Where the code falls short of its promises

Some properties one would expect are false of the code.  For each there is a lemma or a method with a run or an
input that breaks it, and, where there is one, the exact condition under which the property holds.

- Logout is not final.  The Redis store keeps no tombstone: revoking a family deletes its key, and
  `register_refresh` writes it again.  A family that is gone stays gone exactly when no rotation has already passed
  its family check (`TokenRuns.RevocationIsFinal`, `TokenRuns.LogoutDuringRefresh`).
- The grace window of a rotated token (section 4.14.2 of RFC 9700 asks for reuse detection; the window is there for
  parallel requests) is destroyed by the second use itself: the consume transaction overwrites the stored pair and
  then deletes it.  A use that missed can still get the pair exactly when a first use has yet to publish it and the
  family is alive or about to be opened again; on its own it never does, and a burst of two can lose the session
  (`TokenGrace.SecondUseCanReturn`, `TokenFamilies.ReplayAlone`, `TokenRuns.BurstCanFail`).
- A lease does not always protect its job: two overlapping sweeps that kept an old list and an old clock reading can
  ask for the removal of a job just renewed (`Launcher.LeaseProtects`, `Launcher.OverlappingSweeps`).
- An abandoned job is not always reaped.  A removal that fails with anything but "not found" ends the sweep, so a job
  that cannot be removed shields every job listed after it, sweep after sweep (`Launcher.AbandonedJobsAreReaped`,
  `Launcher.StuckJobShields`; input: two old jobs, the first of which Docker refuses to remove,
  `Launcher.FailedRemovalStrands`).
- The client's waiting queue can be left non-empty with nobody refreshing (`ApiClient.LeftBehind`,
  `ApiClient.QueueCanOutliveRefresh`).
- The snapshot of a suggestion joins its parts with a bar, so it need not pin its source and target texts down.  It
  does exactly when the two are the same text, or the joined string can be cut into texts of their kinds in one way
  only (`SnapshotGuard.BarsBlurTheGuard`).  From requirements to a diagram that means no bar but the joint
  (`SnapshotGuard.DiagramIsPinned`).  A feature's own two bars do no harm as long as no other text has one: what is
  left is a title or an origin that reads "none" (`SnapshotGuard.FeatureSourceIsPinned`,
  `SnapshotGuard.FeatureTargetIsPinned`).  Input: requirements with a bar, as in any table
  (`SnapshotGuard.OneSnapshotTwoReadings`).
- The guard compares the texts at the check, the change comes later.  An edit in between goes unseen, and a text is
  changed that is not the one captured (`SuggestionSafety.EditSlipsIn`).  With no edit and no other conclusion between
  an apply's check and its own conclusion the change finds the captured texts
  (`SuggestionSafety.QuietApplyIsProtected`); from any point on, that holds exactly if the texts are still the captured
  ones or the impact changes nothing (`SuggestionSafety.ProtectedExactly`).
- A suggestion can make its change twice for one writing.  It cannot if its applies do not overlap and the record of
  the change is saved (`SuggestionSafety.OneChangePerWriting`).  Two that overlap run the transaction twice, and
  change the text again exactly if the impact changes its own result (`SuggestionSafety.OverlapAppliesTwice`,
  `SuggestionSafety.OverlappingAppliesRepeat`).  If the save after the transaction fails, the row stays pending
  (`SuggestionSafety.LostRecordStaysPending`).
- A bulk apply without a review first can change one text twice (`SuggestionSafety.StaleRowRevives`); for that some
  pending row must match the texts as the first change left them (`SuggestionRuns.SecondChangeNeedsRevival`).  It
  happens exactly if, after the first change, the bulk comes to a row that is COMPLETED, readable and fresh then and
  whose impact changes the text (`SuggestionRuns.SecondChangeExactly`).
- A pair counted as failed can have lost suggestions.  When superseding an empty pair breaks off, the rows before
  stay discarded; no row but the marker changes exactly if there was none to discard (`Evaluation.HalfwayExactly`;
  input: one pending row whose save raises after it took effect, `Evaluation.FailedPairDiscards`).
- A generation run that fails leaves its record IN_PROGRESS exactly when it finds it so and the exception handler's
  own read fails, or its save fails without effect (`Codegen.Generation.Generate`; input: a rejected plan and a read
  that fails, `Codegen.FailedRunStaysInProgress`).
- A run, even a successful one, keeps its project locked when its release fails without effect: the failure is
  suppressed.  The lock is given back exactly if the release, the last call, takes effect, and a cancellation in the
  `finally` block keeps it from being made.  An acquire that takes effect and then fails locks the project for nobody
  (`Codegen.Generation.Generate`, `Codegen.Generation.Sync`, `Deletion.Removal.ExecuteStream`; inputs:
  `Codegen.LockKeptAfterSuccess`, `Codegen.CancelledClosingKeepsLock`, `Codegen.StrayAcquire`).
- The redeployment after a generation cannot succeed.  As it is wired (`composition/integrations.py`, lines 114 to
  121) it first syncs with GitHub without `skip_lock`, and the run holds the lock: the sync is refused and the
  redeployment ends in its warning, whenever the project was deployed before (`Codegen.Generation.AutoDeploy`).
- The recovery sweep can release the lock of a project another run is working on (`Recovery.SweepKeepsExclusion`;
  input: `Recovery.SweepLetsInTwo`).
- Removing a feature's code deletes the implementation record even when the code is put back, and a failure between
  the commit and the first validation leaves the commit unreverted (`Deletion.Removal.ExecuteStream`; inputs:
  `Deletion.RecordLostCodeBack`, in which no call fails, and `Deletion.StrandedCommit`, in which only the drop of the
  record does).
- The removal announces that the code is back whether or not it is.  That is true exactly if there was a commit to
  revert and one of the at most two reverts took effect; the revert swallows every error of Git
  (`Deletion.Removal.ExecuteStream`; input: a removal that never passes validation and a commit Git cannot revert,
  `Deletion.AnnouncedInVain`).
- The docstring of the chat-history function says the oldest messages are dropped; the code keeps a prefix, so the
  newest go first (`ChatHistory.NewestKeptIff`; input: two long messages, `ChatHistory.NewestIsDropped`).

## Assumptions

- A Docker operation takes effect, if at all, between its request and its reply, and a sweep's clock reading and list
  are one step.  The launcher's clock never goes back.  The reply to a list request may come any time later: the
  30-second limit of the launcher is on idle time, so a reply that arrives in pieces can take longer, and
  `Launcher.OverlappingSweeps` uses one that does.
- Redis commands and transactions are atomic; expiry is the loss of any key at any time.  Signed tokens cannot be
  forged, their identifiers and family identifiers are fresh, and a subject holds no bar.
- The snapshot digest is injective on the joined string.  The functions of the domain layer that change texts,
  validate diagrams, strip origin lines and convert documents are arbitrary functions; the diff is partial.
- A use case of the consistency part is one step, except that an apply is two, its guard and its transaction, and
  that a row may be written from artifacts read earlier.  Any save of a row may fail, with or without effect.
- In code generation every awaited call may succeed, fail or be cancelled, and a call that fails or is cancelled may
  have taken effect all the same, `acquire_lock` and `release_lock` included.

## Model

| member | source | states |
|---|---|---|
| Sse.Dispatch | frontend/src/shared/lib/sse.ts:12-29 | the inner loop delivers, in order, the parsed data of the block's `data:` lines |
| Sse.ConsumeSse | frontend/src/shared/lib/sse.ts:3-46 | for every chunking the events are, in order and once each, the parses of exactly those data of the concatenated text that parse; if all do, event `i` is the parse of datum `i` |
| Sse.BufferStep | frontend/src/shared/lib/sse.ts:34-41 | handing over the finished blocks and keeping the last one loses and repeats nothing, whatever text follows |
| Sse.AtFeed | frontend/src/shared/lib/sse.ts:13 | a line feed separates what comes before it from what comes after, also when it completes a CR LF cut between two chunks |
| Sse.AtRun | frontend/src/shared/lib/sse.ts:36 | a whole run of line breaks can be taken out between two blocks without changing the data read |
| Sse.BlankHasNoData | frontend/src/shared/lib/sse.ts:43-45 | the test for a blank remainder at the end of the stream drops no event |
| Sse.DataIsOneLine | frontend/src/shared/lib/sse.ts:13-17 | whatever the text, only nonempty single lines without outer white space are handed over |
| Sse.PrintThenRead | backend/src/kosmo/application/consistency/cascade_consistency.py:290-292 | printing a list of payloads and reading it back over any chunking gives the list exactly when every payload is such a line |
| Sse.ReadPrinted | backend/src/kosmo/application/consistency/cascade_consistency.py:290-292 | a printed stream of such payloads, over any chunking, gives the client the event of each payload that parses, once and in order |
| Sse.LineByLine | frontend/src/shared/lib/sse.ts:13-28 | the data of a text are those of its lines, one after another; every text is lines ended by line feeds and a last one |
| Sse.DataOfExactly | frontend/src/shared/lib/sse.ts:14-17 | a line holds a datum if and only if it is `data:` and the datum with white space around and between, and the datum is not blank and has no outer white space |
| Sse.DeliveredAreParses | frontend/src/shared/lib/sse.ts:18-27 | what is delivered for a list of data: the parses of exactly those that parse, in order |
| ApiClient.RefreshQueue.ProcessQueue | frontend/src/shared/api/client.ts:14-23 | every waiter is settled once, in order, with the error or the token, and the queue is emptied |
| ApiClient.ReachableIsSound | frontend/src/shared/api/client.ts:46-103 | in every interleaving at most one refresh is in flight and no waiter is settled twice |
| ApiClient.RefreshBegins | frontend/src/shared/api/client.ts:46-70 | a call starts a refresh if and only if it is answered 401, may refresh and nobody does, and joins the end of the queue if and only if somebody does |
| ApiClient.OtherAnswersEnd | frontend/src/shared/api/client.ts:46-70 | any other answer ends the call and neither refreshes, queues nor tells anybody |
| ApiClient.AnswerDecides | frontend/src/shared/api/client.ts:82-91 | however it is interleaved, a refused refresh rejects the queue whatever its body says, and an accepted one resolves it with the token of its body if that can be read |
| ApiClient.TellingStep | frontend/src/shared/api/client.ts:72-94 | the step at which the owner tells the queue settles all of it, in order, with the token its refresh gave or the very error it failed with, each waiter goes on with that, and the owner goes on with that token or ends |
| ApiClient.SettledByItsOwner | frontend/src/shared/api/client.ts:53-94 | a waiter queued before its owner tells the queue stays queued until then, and is then settled once, by that owner, with its token or its error, whatever happens later |
| ApiClient.LeftBehind | frontend/src/shared/api/client.ts:90-102 | calls that join between the telling and the end of the owner's retry stay queued if the retry is answered and are rejected by the owner if it fails |
| ApiClient.QueueCanOutliveRefresh | frontend/src/shared/api/client.ts:90-101 | from a fresh client a run ends with nobody refreshing and one call still queued |
| Launcher.LeaseTable.Forget | docker/opencode/launcher.js:94 | exactly the leases of unknown jobs are dropped |
| Launcher.LeaseTable.VisitJobs | docker/opencode/launcher.js:95-98 | the loop dates unleased jobs with the sweep's start and stops at the first overdue one |
| Launcher.HandleRemoval | docker/opencode/launcher.js:95-98 | what a sweep does between the reply to one removal and the next removal it asks for |
| Launcher.HandleList | docker/opencode/launcher.js:90-98 | what a sweep does between its list and its first removal |
| Launcher.CapHolds | docker/opencode/launcher.js:159-162 | in every interleaving of create, heartbeat, delete and sweep, failed starts and cleanups included, there are at most `maxJobs` labelled containers |
| Launcher.VisitFacts | docker/opencode/launcher.js:95-98 | a sweep never changes a lease that is there, and asks only for jobs whose lease is overdue by its own clock reading |
| Launcher.ReachableIsWellformed | docker/opencode/launcher.js:199-222 | the premise of the lease results holds in every reachable state |
| Launcher.LeaseProtects | docker/opencode/launcher.js:90-99 | a lease recorded at `h` protects a live job from every sweep started by `h + leaseMillis`, in every continuation, if and only if no old list without the job and no older sweep that will still visit it are both under way |
| Launcher.RenewalRecords | docker/opencode/launcher.js:264 | a heartbeat that found its job, or a start that worked, dates that job's lease with the present and changes no other |
| Launcher.RenewalProtects | docker/opencode/launcher.js:260-266 | after such a renewal the live job is safe, in every continuation, from every sweep started within the lease time, if and only if no old list without it or no older sweep that has yet to look at it is under way |
| Launcher.HeartbeatRenews | docker/opencode/launcher.js:260-266 | however it is interleaved, a heartbeat renews the lease of its job if and only if the job was listed when it asked, and no other lease |
| Launcher.LeaseChanges | docker/opencode/launcher.js:82-99 | in every step a lease is lost exactly by a confirmed removal or a list without its job, changed only by a renewal, and appears only by a renewal or with the date of a passing sweep |
| Launcher.FailureEndsSweep | docker/opencode/launcher.js:90-99 | a list or a removal that fails ends its sweep and does nothing else |
| Launcher.DeleteAsks | docker/opencode/launcher.js:274-279 | however it is interleaved, a delete asks for the removal of its job if and only if the job was listed when it asked |
| Launcher.DeleteRemoves | docker/opencode/launcher.js:82-89 | a delete that is confirmed leaves neither the job nor its lease, and every other lease |
| Launcher.CreationNeedsRoom | docker/opencode/launcher.js:159-162 | however it is interleaved, a creation goes on if and only if its list had room and the workspace passed its checks; otherwise the mutex is free again |
| Launcher.FailedStartCleansUp | docker/opencode/launcher.js:205-222 | a failed start keeps the mutex until the removal of its container is answered; a confirmed one leaves neither container nor lease |
| Launcher.FailureFreesMutex | docker/opencode/launcher.js:244-258 | a creation that fails before its container starts, or whose cleanup is answered, gives the mutex back |
| Launcher.CreationSucceeds | docker/opencode/launcher.js:154-212 | with room and no failure a creation ends with a new container leased from that moment, and a free mutex |
| Launcher.AbandonedJobsAreReaped | docker/opencode/launcher.js:83-99 | with no old list without the job pending, a run lets a sweep that started after the lease ran out and lists the unrenewed job end without asking for it if and only if a removal asked for before it failed; and it takes such a failure in every run if and only if no old list is pending |
| Launcher.StuckJobShields | docker/opencode/launcher.js:83-99 | a job whose removal fails, listed first, keeps any number of sweeps from ever asking for another job, however long that one has been abandoned |
| Launcher.FailedRemovalStrands | docker/opencode/launcher.js:90-99 | this happens from a launcher just started with two jobs |
| Launcher.FirstSightCounts | docker/opencode/launcher.js:96 | a job that never got a lease gets one dated with the start of the first sweep that passes it |
| Launcher.OverlappingSweeps | docker/opencode/launcher.js:90-99 | from an idle launcher a run in which a freshly leased live job is asked for all the same |
| TokenFamilies.Advance | backend/src/kosmo/application/auth/use_cases.py:79-134 | each store call of a refresh, as a function of the store and of how far the refresh has come |
| TokenFamilies.RefreshTokenPair | backend/src/kosmo/application/auth/use_cases.py:77-144 | the whole refresh with nothing in between |
| TokenFamilies.RevokeSession | backend/src/kosmo/application/auth/use_cases.py:154-182 | logout's result for every combination of missing, forged, expired and good tokens, the exact new store, and that the access token no longer passes |
| TokenFamilies.FirstUseAlone | backend/src/kosmo/application/auth/use_cases.py:106-134 | a first use replaces the old token by the new one in the same family and for the same subject, and returns that pair |
| TokenFamilies.ReplayAlone | backend/src/kosmo/infrastructure/persistence/redis/token_store.py:43-54 | a later use on its own returns no pair and revokes the family if it is alive |
| TokenRuns.ReachableIsSound | backend/src/kosmo/application/auth/use_cases.py:77-134 | in every interleaving a family has at most one unconsumed refresh token or rotation in flight, and the keys, marks and tasks agree with the tokens signed |
| TokenRuns.SamePair | backend/src/kosmo/application/auth/use_cases.py:79-86 | two refreshes of the same token that return a pair return the same one, subject and family unchanged |
| TokenRuns.RevocationIsFinal | backend/src/kosmo/application/auth/use_cases.py:106-127 | a family that is gone stays gone in every continuation if and only if no rotation has passed its family check and not yet registered |
| TokenRuns.DeadFamilyStaysShut | backend/src/kosmo/application/auth/use_cases.py:58-66 | under that condition no later access check in the family passes and no later refresh in it returns a pair |
| TokenRuns.PassedWasGood | backend/src/kosmo/application/auth/use_cases.py:58-66 | however a check is interleaved, it passes only if, while it was under way, the token was at some moment not revoked and its family at that moment or later alive |
| TokenRuns.RotationReopens | backend/src/kosmo/application/auth/use_cases.py:122-144 | a rotation past its check can finish after the revocation, and an access token it issued then passes |
| TokenRuns.LogoutDuringRefresh | backend/src/kosmo/application/auth/use_cases.py:153-178 | from an empty store, a logout that falls into a refresh and is undone by it |
| TokenRuns.ReplayNeedsOverlap | backend/src/kosmo/infrastructure/persistence/redis/token_store.py:46-54 | once a second use has missed with no rotation under way, nobody who lacks the pair will ever get it |
| TokenGrace.SecondUseCanReturn | backend/src/kosmo/application/auth/use_cases.py:79-86 | in every reachable state a use that missed can still be given the pair if and only if a first use of the token has yet to publish it and the family is alive or about to be registered again |
| TokenGrace.FoundPairCanReturn | backend/src/kosmo/application/auth/use_cases.py:82-86 | a use that has found the pair can still return it if and only if the family is alive or about to be registered again |
| TokenRuns.ReplayRevokes | backend/src/kosmo/application/auth/use_cases.py:88-99 | an undisturbed replay revokes the live family |
| TokenRuns.BurstCanFail | backend/src/kosmo/application/auth/use_cases.py:79-108 | two simultaneous uses of a stored token can both fail and lose the family |
| TokenUse.WaitsForThePair | backend/src/kosmo/infrastructure/persistence/redis/token_store.py:95-130 | in every run a polling use goes on while each read found ROTATING and there were fewer than 30; it has found the pair exactly if its last read did, at whatever attempt; it gives up only after a read without a key or 30 reads that all found ROTATING |
| TokenUse.WaitingPays | backend/src/kosmo/infrastructure/persistence/redis/token_store.py:95-102 | of three uses of one stored token at once, the second reads ROTATING, waits, and is given the pair of the first |
| TokenUse.StoredUseAlone | backend/src/kosmo/application/auth/use_cases.py:100-144 | what becomes of a use that finds its token, for every entry: wrong subject, dead family, or the new pair registered, published and returned |
| TokenUse.LoginIsGood | backend/src/kosmo/application/auth/use_cases.py:41-50 | after a login its access token passes and its refresh token is stored for its first use |
| Artifacts.ArtifactStore.ApplyImpacts | backend/src/kosmo/application/consistency/apply_consistency_impacts.py:58-102 | the loop's artifacts, applied and failed lists are those of running the impacts one transaction after another |
| Artifacts.RefusedChangesNothing | backend/src/kosmo/application/consistency/apply_consistency_impacts.py:81-100 | an impact that is refused, for whatever reason, leaves the artifacts as they were |
| Artifacts.NothingLost | backend/src/kosmo/application/consistency/apply_consistency_impacts.py:58-102 | applied and failed are the given impacts split in order, none lost or repeated |
| Artifacts.OnlyAppliedMatter | backend/src/kosmo/application/consistency/apply_consistency_impacts.py:81-100 | running only the applied impacts applies all of them and gives the same artifacts |
| Artifacts.DiagramsStayValid | backend/src/kosmo/application/consistency/apply_consistency_impacts.py:278-304 | if all diagrams were valid they are valid after any list of impacts |
| Impacts.UpdateWrites | backend/src/kosmo/application/consistency/apply_consistency_impacts.py:180-304 | for each kind and field: an update is done if and only if its data are complete, no call raises, its text is there, the diff finds what to change in it, and a diagram stays valid; then that text is the diff's result, a new title gives the slug, and everything else is as before |
| Impacts.DeletionTakesAll | backend/src/kosmo/application/consistency/apply_consistency_impacts.py:249-276 | a feature is deleted if and only if it is there, with its requirements, diagram and implementation and nothing else |
| Impacts.OtherDeletions | backend/src/kosmo/application/consistency/apply_consistency_impacts.py:122-149 | which other deletions are done, and that they change nothing but an implementation's record |
| Impacts.MarkedForReview | backend/src/kosmo/application/consistency/apply_consistency_impacts.py:153-167 | an update of an implementation marks it REQUIRES_REVIEW, keeps its files and changes nothing else |
| Impacts.NothingElse | backend/src/kosmo/application/consistency/apply_consistency_impacts.py:138-151 | an unknown kind or a field that cannot be changed is refused |
| Impacts.EachInTurn | backend/src/kosmo/application/consistency/apply_consistency_impacts.py:58-102 | in a list each impact is attempted on what those before it left |
| Impacts.ListWrites | backend/src/kosmo/application/consistency/apply_consistency_impacts.py:58-102 | so in a list each applied update of a text writes it |
| Suggestions.ScopeUndoesKey | backend/src/kosmo/application/consistency/run_consistency_evaluation.py:261-264 | the scope read from a row's key is the item's target if and only if the target id has no colon |
| Suggestions.SnapshotSplits | backend/src/kosmo/application/consistency/consistency_snapshot.py:19-71 | the joined snapshot is a prefix fixed by the row, the source text, a bar, and the target text |
| Suggestions.SameSnapshot | backend/src/kosmo/domain/sdd/consistency_snapshot.py:6-8 | two snapshots of one row agree if and only if its joined source and target texts agree |
| Suggestions.NamesDiffer | backend/src/kosmo/application/consistency/consistency_snapshot.py:32 | phases and statuses are told apart by the names that enter a snapshot |
| SnapshotGuard.BarsBlurTheGuard | backend/src/kosmo/application/consistency/consistency_snapshot.py:19-71 | for all artifacts and every kind of row: artifacts with the row's snapshot all have its two texts if and only if the texts are one and the same or the joined string has one cut into texts that artifacts of the two kinds can have |
| SnapshotGuard.FeatureSourceIsPinned | backend/src/kosmo/application/consistency/consistency_snapshot.py:38-40 | from a feature to its requirements or diagram, with bar-free fields and target: both texts are pinned if and only if the title is not "none" |
| SnapshotGuard.FeatureTargetIsPinned | backend/src/kosmo/application/consistency/consistency_snapshot.py:50-52 | from the discovery document to a feature, with bar-free fields and document: both texts are pinned unless the origin is "none" and some document reads as document, title and description joined |
| SnapshotGuard.DiagramIsPinned | backend/src/kosmo/application/consistency/consistency_snapshot.py:41-58 | from requirements to a diagram: both texts are pinned if and only if the requirements have no bar after their first letter and the diagram has none |
| SnapshotGuard.OneSnapshotTwoReadings | backend/src/kosmo/domain/sdd/consistency_snapshot.py:6-8 | two values of the artifacts with one snapshot that differ in both texts |
| SuggestionRuns.TextDecidesFreshness | backend/src/kosmo/application/consistency/manage_consistency.py:228-255 | applying one row makes another row on the same kind of artifact stale exactly when it changes that row's target text, and changes no other text of the kind than its own |
| SuggestionRuns.BulkSettles | backend/src/kosmo/application/consistency/manage_consistency.py:326-350 | a bulk resolution that is not broken off counts every COMPLETED row once, resolved exactly if it ends APPLIED (or DISCARDED), and leaves a row COMPLETED exactly when the project is gone and the row was fresh; one that is broken off has counted the rows before and leaves those after alone; other rows are not touched |
| SuggestionRuns.OneChangePerText | backend/src/kosmo/application/consistency/manage_consistency.py:338-349 | among rows that are all fresh when a bulk apply starts, at most one changes a given target text |
| SuggestionRuns.ChangesExactly | backend/src/kosmo/application/consistency/manage_consistency.py:326-350 | a bulk apply changes a text if and only if it comes to a row that is COMPLETED, readable and fresh then and whose impact changes the text |
| SuggestionRuns.SecondChangeExactly | backend/src/kosmo/application/consistency/manage_consistency.py:338-349 | it changes a text a second time if and only if, after the first change, it comes to such a row again |
| SuggestionRuns.SecondChangeNeedsRevival | backend/src/kosmo/application/consistency/manage_consistency.py:338-349 | whatever the rows were at the start, a second change of a text needs a pending row that matches the texts as the first change left them |
| SuggestionRuns.ReviewSifts | backend/src/kosmo/application/consistency/manage_consistency.py:119-157 | a review discards only stale rows it could check and changes nothing else; if no save raises it discards them all and shows the others once each |
| SuggestionBook.Book.Apply | backend/src/kosmo/application/consistency/manage_consistency.py:213-283 | an apply is its guard followed by its transaction, with the status each ending leaves and every failure of the read of the row, its texts or the project and of a save |
| Impacts.SuggestionWrites | backend/src/kosmo/application/consistency/manage_consistency.py:254-283 | a suggestion past its guard is resolved if and only if its change fits; then the text of the artifact its key is about holds the change, nothing else changed and the row is APPLIED; otherwise the row has failed and nothing else changed |
| Impacts.NothingSuggested | backend/src/kosmo/application/consistency/manage_consistency.py:254-283 | an update without a suggested text changes nothing and its row fails |
| SuggestionBook.Book.BulkResolve | backend/src/kosmo/application/consistency/manage_consistency.py:326-350 | the loop, and an exception that ends it, compute the bulk function the lemmas are about |
| SuggestionBook.Book.ReviewPhase | backend/src/kosmo/application/consistency/manage_consistency.py:119-157 | the loop, and a save that ends it, compute the review function the lemmas are about |
| SuggestionBook.Book.SupersedePair | backend/src/kosmo/application/consistency/run_consistency_evaluation.py:267-291 | exactly the COMPLETED rows of the pair outside the kept keys are discarded, up to the row where a save fails |
| SuggestionBook.Book.Evaluate | backend/src/kosmo/application/consistency/run_consistency_evaluation.py:118-255 | the loops over phases and items, and an exception at any item, row or marker, compute the evaluation function the lemmas are about |
| Evaluation.ReportSettlesPair | backend/src/kosmo/application/consistency/run_consistency_evaluation.py:211-255 | after a reported pair its COMPLETED rows carry keys of the items, every readable item has a COMPLETED fresh row, and other pairs are untouched |
| Evaluation.OtherOutcomes | backend/src/kosmo/application/consistency/run_consistency_evaluation.py:128-200 | a pair whose evaluation fails changes its marker row only; a pair with no artifacts keeps no COMPLETED row, or counts as failed if superseding fails |
| Evaluation.HalfwayExactly | backend/src/kosmo/application/consistency/run_consistency_evaluation.py:129-168 | an empty pair whose superseding breaks off keeps exactly the rows before that point discarded, and changes its marker row only if and only if there were none |
| Evaluation.FailedPairDiscards | backend/src/kosmo/application/consistency/run_consistency_evaluation.py:129-168 | a failed pair that has discarded a pending suggestion |
| Evaluation.EvaluationKeepsOthers | backend/src/kosmo/application/consistency/run_consistency_evaluation.py:118-255 | an evaluation, broken off or not, changes only rows from its source phase to the phases after it, and keeps keys unique |
| Evaluation.WholeEvaluationSettles | backend/src/kosmo/application/consistency/run_consistency_evaluation.py:118-255 | after an evaluation of a phase that runs to its end, each of its pairs is settled as its own outcome says |
| Evaluation.ReportCarriesItems | backend/src/kosmo/application/consistency/run_consistency_evaluation.py:211-255 | each readable item of a report has a pending row with its key, kind and proposal, unless a later one has the same key |
| Evaluation.EvaluationTreats | backend/src/kosmo/application/consistency/run_consistency_evaluation.py:118-291 | an evaluation, broken off or not, leaves a row as it is, writes it anew, or discards it if it was COMPLETED: no applied row is ever discarded |
| Evaluation.DownstreamIsAfter | backend/src/kosmo/domain/sdd/traceability_tracer.py:7-9 | the phases evaluated are exactly those after the source, in order |
| Evaluation.KindIsOfItsPhase | backend/src/kosmo/application/consistency/consistency_snapshot.py:34-69 | the text a row suggests to change is the text its target phase is the source of |
| SuggestionSafety.RunIsSound | backend/src/kosmo/application/consistency/run_consistency_evaluation.py:233-247 | in every run each COMPLETED row holds the snapshot of what it was made from, and keys stay unique |
| SuggestionSafety.StepsTakeEffect | backend/src/kosmo/application/consistency/manage_consistency.py:290-311 | the steps of the runs do what they are named for: a row is written, a failure marked, a suggestion withdrawn |
| SuggestionSafety.ChangedAsCaptured | backend/src/kosmo/application/consistency/manage_consistency.py:222-255 | in every run a suggestion changes artifacts only if its guard, at its check, found the joined texts it was made from |
| SuggestionSafety.QuietApplyIsProtected | backend/src/kosmo/application/consistency/manage_consistency.py:228-255 | in every run, with no edit and no other conclusion between an apply's check and its conclusion, a change finds the joined texts the row was made from |
| SuggestionSafety.ProtectedExactly | backend/src/kosmo/application/consistency/manage_consistency.py:228-255 | from any world an apply past its check is so protected in every such continuation if and only if its joined texts are still those captured or its impact changes nothing |
| SuggestionSafety.EditSlipsIn | backend/src/kosmo/application/consistency/manage_consistency.py:228-255 | a run in which an edit between check and conclusion lets a suggestion change a text that is not the captured one |
| SuggestionSafety.OutOfDateExactly | backend/src/kosmo/application/consistency/manage_consistency.py:240-252 | in every run the guard lets a COMPLETED row pass exactly when its texts can be read and are those it was made from, and otherwise discards it unless that save is lost or the texts could not be read |
| SuggestionSafety.ApplyIsTwoSteps | backend/src/kosmo/application/consistency/manage_consistency.py:213-283 | the uninterrupted apply is the check step followed by the conclusion step of the runs |
| SuggestionSafety.BulkAfterReview | backend/src/kosmo/application/consistency/manage_consistency.py:326-350 | in every run a bulk apply that follows a review that could read every row and save every discard changes each target text at most once |
| SuggestionSafety.OneChangePerWriting | backend/src/kosmo/application/consistency/manage_consistency.py:222-277 | in every run in which no apply of a row is checked while another is under way: after a change made through the row and recorded, it makes another only if an evaluation wrote it anew in between |
| SuggestionSafety.OverlapAppliesTwice | backend/src/kosmo/application/consistency/manage_consistency.py:222-277 | two overlapping applies of a fresh row run its transaction twice, so the change is repeated exactly if the impact changes its own result |
| SuggestionSafety.LostRecordStaysPending | backend/src/kosmo/application/consistency/manage_consistency.py:254-277 | a change whose record is lost leaves the row pending, and it would pass the guard again exactly if its target text is unchanged |
| SuggestionSafety.OverlappingAppliesRepeat | backend/src/kosmo/application/consistency/manage_consistency.py:222-277 | two overlapping applies of one row make its change twice |
| SuggestionSafety.StaleRowRevives | backend/src/kosmo/application/consistency/manage_consistency.py:338-349 | a run after which a bulk apply changes one text twice, because applying one row makes a stale one fresh again |
| Codegen.Generation.Validate | backend/src/kosmo/application/codegen/validation_service.py:85-217 | validation stops at the first attempt that passes both checks or at the last one allowed, with one history entry, in order, for each failed attempt, and one RETRY event before each further attempt |
| Codegen.Generation.Sync | backend/src/kosmo/application/integrations/sync_github_repository.py:75-263 | with `skip_lock` the sync leaves the lock held; without it the lock it took is given back exactly if the release takes effect; a normal end has committed, and with nothing failing it ends so exactly if nothing stands in the way |
| Codegen.Generation.Succeed | backend/src/kosmo/application/codegen/post_deploy_service.py:119-318 | a success stores IMPLEMENTED and ends with DONE; sync, deployment and traceability failures do not change that; with nothing failing it commits once, and once more if the project can be synced |
| Codegen.Generation.AutoDeploy | backend/src/kosmo/application/codegen/post_deploy_service.py:201-268 | when the project was deployed before and the deployment syncs first, as it is wired, the redeployment never ends normally, because its sync is refused the lock the run holds |
| Codegen.Generation.GiveUp | backend/src/kosmo/application/codegen/post_deploy_service.py:347-382 | a failure rolls back, stores REQUIRES_REVIEW and ends with a fatal error |
| Codegen.Generation.Handle | backend/src/kosmo/application/codegen/generate_feature_implementation.py:576-600 | the exception handler rolls back if that call takes effect, turns IN_PROGRESS into FAILED exactly when its read succeeds and its save takes effect, and emits one fatal error |
| Codegen.Generation.Generate | backend/src/kosmo/application/codegen/generate_feature_implementation.py:356-613 | on every uncancelled exit after the lock: the stored status, when it is still IN_PROGRESS, success if and only if some allowed attempt passes when the run returns, the lock given back, last, exactly if the release takes effect, and the last event DONE exactly on success; without the lock nothing but perhaps a stray acquire; if the agent reports an error while planning, its plan is invalid, or it reports one while building and what is on disk is not valid, the run does not succeed, stores no IMPLEMENTED, and with handler and saves working leaves FAILED |
| Codegen.Generation.Plan | backend/src/kosmo/application/codegen/planning_service.py:125-131 | a normal end means that the agent reported no error and gave a valid plan; with nothing failing, an error of the agent raises |
| Codegen.Generation.Build | backend/src/kosmo/application/codegen/build_service.py:88-146 | after an error the agent reports the build goes on if and only if the structure on disk is valid, else it rolls back and raises; other exceptions are never recovered from |
| Codegen.Generation.Stream | backend/src/kosmo/application/codegen/build_service.py:35-44 | the stream is passed on piece by piece, and ends normally only without an error reported |
| Codegen.Generation.Fix | backend/src/kosmo/application/codegen/validation_service.py:175-190 | errors the agent reports in a correction are skipped, every other piece is passed on |
| Codegen.AgentErrorFails | backend/src/kosmo/application/codegen/planning_service.py:130 | a run with no failing call and one error of the agent, which ends FAILED, rolled back, its lock given back |
| Codegen.FailedRunStaysInProgress | backend/src/kosmo/application/codegen/generate_feature_implementation.py:576-600 | a run in which only the handler's read fails, and which is over with its record IN_PROGRESS |
| Codegen.LockKeptAfterSuccess | backend/src/kosmo/application/codegen/generate_feature_implementation.py:603-613 | a successful run in which only the release fails, and which keeps the lock |
| Codegen.CancelledClosingKeepsLock | backend/src/kosmo/application/codegen/generate_feature_implementation.py:603-613 | a run whose closing of the session is cancelled, and which keeps the lock |
| Codegen.StrayAcquire | backend/src/kosmo/application/codegen/generate_feature_implementation.py:408 | a run whose acquire takes effect and fails, and which leaves the project locked |
| Codegen.ImplementedIsEarned | backend/src/kosmo/application/codegen/post_deploy_service.py:129-139 | IMPLEMENTED is only ever stored after a check that passed, then a commit, with no other check and no rollback in between |
| Codegen.ReviewIsRolledBack | backend/src/kosmo/application/codegen/post_deploy_service.py:347-359 | REQUIRES_REVIEW is only ever stored after a rollback following the last check, when no check has passed |
| Codegen.LockBrackets | backend/src/kosmo/application/codegen/generate_feature_implementation.py:408-613 | the lock is taken first and once, given back last and at most once, and nothing in between, the sync included, touches it |
| Codegen.EndedCounts | backend/src/kosmo/application/codegen/generate_feature_implementation.py:394-400 | the count of terminal events in the run's contract is the count in the emitted sequence |
| Codegen.OnlyFatalAfterTerminal | backend/src/kosmo/application/codegen/generate_feature_implementation.py:566-602 | after a terminal event only a fatal error can follow |
| Codegen.ExecuteStream | backend/src/kosmo/application/codegen/generate_feature_implementation.py:316-347 | the client reads exactly the events whose sink call succeeded, all of them without a sink and then one terminal one, last; and the stream fails exactly when the run raised |
| Recovery.Recover | backend/src/kosmo/application/codegen/recover_zombie_implementations.py:31-57 | the loop computes the sweep function, counting the records it saved |
| Recovery.SweepSettles | backend/src/kosmo/application/codegen/recover_zombie_implementations.py:34-44 | exactly the listed inactive records whose save takes effect become FAILED, and exactly the locks of projects of inactive records whose release takes effect are given back |
| Recovery.SweepCounts | backend/src/kosmo/application/codegen/recover_zombie_implementations.py:30-57 | the sweep counts exactly the inactive records whose save did not raise |
| Recovery.RunsExclude | backend/src/kosmo/infrastructure/codegen/workspace.py:493-513 | with no sweep, and no lock taken over as stale, no two runs ever hold the lock of the same project, lost releases and stray acquires included |
| Recovery.LockHandedOver | backend/src/kosmo/infrastructure/codegen/workspace.py:493-513 | a run holds the lock it takes, giving it back undoes that, and a lock kept for nobody keeps every run out until it is released |
| Recovery.SweepKeepsExclusion | backend/src/kosmo/application/codegen/recover_zombie_implementations.py:41-42 | exclusion survives a release of the lock, a sweep's or a takeover of a stale lock's, in every continuation if and only if nobody held that lock |
| Recovery.SweepLetsInTwo | backend/src/kosmo/application/codegen/recover_zombie_implementations.py:41-42 | a sweep during a run, after which a second run holds the lock of the same project |
| Deletion.Removal.Repair | backend/src/kosmo/application/codegen/delete_feature_code.py:116-197 | at most `max_fix_attempts + 1` validations and `max_fix_attempts` prompts, a repair round exactly while rounds are left and the agent is there; a normal end is deleted if and only if one of the validations so reached passes, else the revert is asked for |
| Deletion.Removal.ExecuteStream | backend/src/kosmo/application/codegen/delete_feature_code.py:62-223 | a run that ends normally says once how it ended and has dropped the record: deleted after a validation that passed or with nothing to validate, or reverted, which is true if and only if one of the at most two reverts, made exactly if there was a commit hash, took effect; a run that raises did so before any validation and asked for no revert; with no call failing it is deleted if and only if there is nothing to validate or a validation so reached passes |
| Deletion.AnnouncedInVain | backend/src/kosmo/application/codegen/delete_feature_code.py:180-197 | a run in which no call fails, that announces the code is back and it is not |
| Deletion.RecordLostCodeBack | backend/src/kosmo/application/codegen/delete_feature_code.py:100-197 | a run in which no call fails and the revert works: the code is back and its record is gone |
| Deletion.StrandedCommit | backend/src/kosmo/application/codegen/delete_feature_code.py:94-100 | a run in which only the drop of the record fails: it raises, and the commit stays |
| Polling.Monitor.Poll | backend/src/kosmo/application/integrations/monitor_deployment_status.py:65-164 | at most `max_attempts + 1` status calls; the token of each; one renewal if and only if a token was rejected and a refresh token is there, with the credentials it leaves; a return means a final report, taken over, or time run out; it raises if and only if the last answer was hopeless or its last save failed; the URL reported last, and no URL lost |
| Polling.Monitor.Execute | backend/src/kosmo/application/integrations/monitor_deployment_status.py:43-164 | nothing happens without a service, a status still open and a readable token, and it raises only for the last; otherwise it asks at once with the stored token, and a normal return leaves a final status |
| Polling.FailureIsTold | backend/src/kosmo/application/integrations/monitor_deployment_status.py:120-146 | a failure is always stored with an error: the provider's words unless they are a link, which goes to the log; a report that is no failure clears the error |
| Slug.DecimalReadsBack | backend/src/kosmo/application/projects/create_project.py:31 | a written suffix reads back as its number |
| Slug.CandidatesDiffer | backend/src/kosmo/application/projects/create_project.py:30-32 | the slugs that are tried are pairwise distinct |
| Slug.TriedCount | backend/src/kosmo/application/projects/create_project.py:30-32 | so `n` tries are `n` different slugs |
| Slug.BuildUniqueSlug | backend/src/kosmo/application/projects/create_project.py:25-34 | the search ends for every finite set of taken slugs, with the first free candidate in the order base, base-2, base-3, after no more misses than there are taken slugs |
| ChatHistory.Fill | backend/src/kosmo/application/pipeline/kosmo_agent.py:390-404 | each loop keeps the longest prefix that fits |
| ChatHistory.FormatChatHistory | backend/src/kosmo/application/pipeline/kosmo_agent.py:358-408 | the text is the header, the longest fitting prefix of older decisions, the longest fitting prefix of the last 20 messages; the summed estimates stay within the budget and the joined estimate exceeds them by less than one token a piece |
| ChatHistory.RecentAreLast | backend/src/kosmo/application/pipeline/kosmo_agent.py:369-374 | the window holds the last 20 messages, or all there are, in order |
| ChatHistory.DecisionsAreOlder | backend/src/kosmo/application/pipeline/kosmo_agent.py:372-373 | the decisions are exactly the messages before the window that carry changes, in order |
| ChatHistory.LineTells | backend/src/kosmo/application/pipeline/kosmo_agent.py:379-385 | a line tells the role and the content and nothing else, the content of a user only as it is cleaned |
| ChatHistory.OneLongestFit | backend/src/kosmo/application/pipeline/kosmo_agent.py:390-404 | the longest fitting prefix is unique, and is everything exactly when everything fits |
| ChatHistory.JoinedEstimate | backend/src/kosmo/application/pipeline/kosmo_agent.py:354-355 | joining formatted pieces never lowers the summed estimate and raises it by less than one token a piece |
| ChatHistory.NewestKeptIff | backend/src/kosmo/application/pipeline/kosmo_agent.py:398-404 | the recent messages are all kept, the newest included, if and only if their sum fits |
| ChatHistory.NewestIsDropped | backend/src/kosmo/application/pipeline/kosmo_agent.py:398-404 | of two long messages that would each fit alone the older is kept |

## Left out

- Language-model calls, prompts, embeddings and verdicts: arbitrary values.
- HTTP routes, SQLAlchemy, Redis, Git, Docker and Railway clients: port calls with the effects written down above.
- JWT signatures, Argon2, Fernet, PKCE digests and the decoding of bytes in `TextDecoder`: abstract values; JSON parsing is a parameter of `Sse`.
- backend/src/kosmo/application/auth/exchange.py: one atomic take of a code and one issue of a pair, with nothing to interleave.
- The event order of the cascade's stream and its impact lists: lists appended to in loops, an easy member.
- Audit events, telemetry, log output and wall-clock durations: no state of their own.
- React components, stores, pages, settings, migrations and CRUD use cases: no hard property.
- Sse.ConsumeSse: a response without a body and an `onEvent` that throws are not part of the model.
- ApiClient.ReachableIsSound: the URL tests that keep token requests out of the refresh, and the session-expired redirect, are not modelled.
- Launcher.CapHolds: a creation that Docker performs after its request has timed out is outside the assumption on Docker.
- TokenRuns.ReachableIsSound: the polling interval and its 30-second limit are left open, a reader of the grace key may give up at any time.
- Suggestions.SameSnapshot: the SHA-256 digest is taken to be injective on the joined string.
- SnapshotGuard.BarsBlurTheGuard: it speaks of all values of the artifacts, without asking which of them the rest of the system lets arise.
- SuggestionBook.Book.Apply: the parse of requirements for traceability after an apply, which cannot fail the apply, is left out.
- SuggestionBook.Book.Evaluate: items arrive enriched, with the artifact type of their target phase.
- SuggestionSafety.RunIsSound: a row that a review or a supersession saves is written back as it is at that moment, not as it was read.
- Codegen.Generation.Generate: one run over one record; file sets, plans, prompts and event payloads are left out, and so are writers of the same record other than the run.
- Codegen.Generation.Sync: that a failed sync is noted in the project's integration record is left out; that record is no state of the model.
- Codegen.Generation.Succeed: that the traceability step and the worker of a redeployment are called is not part of its contract, only that they do not change the outcome.
- Recovery.RunsExclude: when a lock counts as stale, and for which process, is left open: a takeover is a release followed by an acquire, at any time.
- Deletion.Removal.ExecuteStream: a revert takes effect or not; its conflicts with edits the agent left uncommitted are not modelled.
- Polling.Monitor.Poll: absent and empty texts are not told apart, the timeout message is abbreviated, and sleeping takes no time.
- Slug.BuildUniqueSlug: a repository that fails and a slug taken by somebody else after the search are left out.
- ChatHistory.FormatChatHistory: the cleaning of user text is an arbitrary function.
