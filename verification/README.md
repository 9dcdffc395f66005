# handoffd in Dafny

handoffd is a daemon on one host. It finds notifications in a client's log, opens terminal windows with coding agents
for them, and speaks for those agents in chat threads and merge requests. Its goroutines share one durable store. This
project models the parts whose correctness is not visible in any single function, and proves what they promise.

**Review rounds and the outbound writer** (`Threads`, `Outbound`, `ReviewRuns`, `ReviewTheorems`, `ReviewResults`,
`ReviewLimits`, `WriteBacks`, `AdmissionRules`, `WriterRules`, `PostWriter`, `ThreadDrafts`, `RecordWriters`,
`EvidenceOnce`). A thread record goes through review rounds. A post is admitted against a snapshot, delivered slowly,
and committed if its round is still current. Continuations, progress markers, launches, relinks, releases and crashes
fall in between. `ReviewRuns` is the state machine of one record under that interference; `ReviewTheorems` says what
each step keeps and exactly which do not; `ReviewResults` has the theorems over whole runs and `ReviewLimits` the runs
that leave the protocol; `WriteBacks` takes stops and links apart into a read and a write, and `EvidenceOnce` joins
the record with the outbox directory. `AdmissionRules` says which posts are admitted as rules rather than as an order
of checks. `RecordWriters` runs the writers over the store as the source does and proves that whatever they do to a
record, the store holds what the machine reaches by their steps.

**The notification pipeline** (`Ledgers`, `Notifications`, `PipelineHandler`, `TriageDesk`). Inbox, queue, handling,
asynchronous triage, seen ids and dead letters, with every disk write able to fail and a crash able to erase everything
that is not in a file.

**Supporting parts.** The store and its rollback (`Store`), cloning of records with pointers (`Isolation`), budgets
(`Budget`), memories that forget (`Memory`), the outbox directory (`OutboxDir`), window ownership (`Relinking`), waiting
prompts (`Waiting`), worktrees (`Worktrees`, `Workspace`), session statistics (`SessionTimeline`), the log scanner
(`LogScanner`), shell quoting (`ShellWords`) and hook files (`HookMerge`).

Code that changes state step by step is a class or a method here, and its contract ties it to a function; the theorems
are about those functions and about state machines built from them. What the terminal, git, the forges, the chat service
and the disk answer is an argument of each step: a lookup is live, not live or failed; a write works or not; a send is
accepted, refused or unknown.

Where the code and its design document differ the model follows the code. The document falls back to the known head when
the provider cannot be read; the code leaves a result pending (`AdmissionRules.ResultExactly`).

Several promises hold only under a condition. Each is proved with its exact condition, and a lemma shows what happens
without it: a launch restarts the round number (`HarmlessExactly`, `LaunchReusesTheRoundNumber`, `VerdictBeforeReview`), a
round may be opened without a head (`InFlightPostErasesAPin`), a whole record is written back (`StopLosesExactly`,
`StopLosesAVerdict`), a relink can stop while releasing (`SharedExactly`), the mark of a replay is given free before its
dead letter is removed (`LostExactly`, `FailureCanBeLost`), two triages can be checked before either is marked
(`OverlapExactly`, `TwoTriagesRun`), a receipt or transition can fail to be saved (`ReopenedExactly`,
`UnsavedIsTakenTwice`, `LostReceiptIsRecordedTwice`), a sweep can skip a record and remove its receipt
(`SweepIsSafeExactly`, `ReopenedBySweepExactly`, `HiddenIsTakenTwice`), two drainers can overlap (`SecondDrainerExactly`,
`TwoDrainersSendTwice`), check and charge of a budget can interleave (`BudgetHolds`, `InterleavedPairsOverspend`), a tree
can be edited after its status was read (`DirtyIsSafeExactly`, `EditedTreeIsMoved`), a separator can stand in a key field
(`SeparatorInFieldCollides`), a second blocking event restarts the clock (`BlockedTimeIsExact`, `BlockedAgainForgets`), a
renamed program does not recognise its hooks (`InstallingTwiceExactly`), and an archived round is shared by clones
(`ChangeArchived`).

`dafny verify dfyconfig.toml` checks the whole project.

## Model

| member | source | states |
|---|---|---|
| Commits.SameCommitBasics | internal/mrref/mrref.go:30-36 | An id can be compared at all, even with itself, exactly when it has seven characters; the relation is symmetric and ignores case. |
| Commits.AgreeThroughHead | internal/mrref/mrref.go:30-36 | Two ids that both name a head name each other whenever the head is no shorter than one of them, which is when evidence of one round can be trusted to be about one commit. |
| Commits.AbbreviatedHeadIsAmbiguous | internal/mrref/mrref.go:30-36 | Through an abbreviated head the relation is not transitive: two different full ids both match it. |
| Threads.MemberOfFindsTheFirst | internal/state/state.go:134-147 | A session resolves to the first member that carries it and never to the driver; it resolves to nobody exactly when no member carries it. |
| ReviewTheorems.NothingMissing | internal/pipeline/outbox.go:286-299 | The joint verdict is held up by nobody exactly when every member has a result or its window was seen free; an unreadable window counts as occupied. |
| AdmissionRules.ResultExactly | internal/pipeline/outbox.go:175-230 | A result is admitted exactly when its revision was confirmed and it is either stale or the round still takes it; it is left pending exactly when the revision was not confirmed. |
| AdmissionRules.AdmittedExactly | internal/pipeline/outbox.go:152-231 | The writer admits a post exactly when a rule per kind of post allows it (session, label, duplicate, head, driver, order, missing members), whatever the order of checks; stale exactly when the provider moved or the commit differs. |
| ReviewTheorems.AdmissionIsJustified | internal/pipeline/outbox.go:152-231 | An admitted post carries everything the later commit relies on, established on its own snapshot: the round, the fence and the verdict order. |
| ReviewTheorems.EvidenceIsSound | internal/pipeline/outbox.go:482-502 | One committed post that the round accepts adds one piece of evidence and keeps the SHA fence and the verdict order of its round. |
| ReviewTheorems.CommitIsSoundExactly | internal/pipeline/outbox.go:439-506 | Whichever launch a post was admitted in, its commit keeps the fence and the verdict order of the record exactly when it carries the head the round was opened with and builds on what happened in the record it is written to. |
| ReviewTheorems.CommitOnlyAddsExactly | internal/pipeline/outbox.go:439-506 | A commit keeps every earlier round, note and verdict as it was exactly when it writes no verdict over another one and none after the joint verdict. |
| ReviewTheorems.HarmlessExactly | internal/pipeline/outbox.go:449-455 | A post committed in the launch it was admitted in is harmless although the record changed since; in a later launch a result that counts never is, a start of review only if the thread was marked, and anything else exactly when it carries the head its round was opened with. |
| PostWriter.PostInHand.MissingResults | internal/pipeline/outbox.go:286-299 | The loop over members computes the agents the specification says are missing, in member order. |
| PostWriter.PostInHand.CheckReviewDone | internal/pipeline/outbox.go:204-229 | A result is taken exactly when it is stale or the started, still open round waits for it: the driver's when every member has a result or a free window, a member's when it has none; any other ends as the specification of the verdict order says. |
| PostWriter.PostInHand.CheckRound | internal/pipeline/outbox.go:186-230 | The head check and the checks per kind, filling the post field by field, agree with the specification. |
| PostWriter.PostInHand.AdmitPost | internal/pipeline/outbox.go:152-231 | The imperative admission ends exactly as the specification says, with the post in hand equal to the admitted one. |
| PostWriter.Writer.CommitTransition | internal/pipeline/outbox.go:449-455 | The store ends with exactly the specified record, saved, or untouched in memory and on disk when the round was replaced, the thread is gone or the save failed. |
| PostWriter.Writer.RecordPost | internal/pipeline/outbox.go:439-471 | Besides the transition: the post is remembered as a duplicate exactly when it was committed, needed no commit or its round was replaced, and forgotten again when its transition was not saved. |
| ReviewTheorems.StepKeeps | internal/pipeline/outbox.go:439-506 | Every step whatever (launch, member attachment, release, stop, relink, cursor, continuation, progress, admit, deliver, commit in any launch, crash) keeps the rounds in order and what the post in flight and the observers know, and within one launch only adds to the record. |
| ReviewTheorems.StepKeepsExactly | internal/pipeline/outbox.go:439-506 | A step keeps the fence and the verdict order, in memory and on disk, exactly when it is no harmful commit: every other step keeps them always. |
| ReviewTheorems.OneLaunchRunIsHarmless | internal/pipeline/outbox.go:439-455 | So a run in which every post is committed in the launch it was admitted in has only harmless commits. |
| ReviewResults.SoundThroughoutExactly | internal/pipeline/outbox.go:439-506 | From any state that keeps them, a run keeps the fence and the verdict order throughout, in memory and on disk, exactly when all its commits are harmless. |
| ReviewResults.ShaFence | internal/pipeline/outbox.go:186-191 | In every state reached by harmless commits, in memory and on disk, each round opened with a head still has that head, and every note, result and joint verdict in it names that commit. |
| ReviewResults.VerdictOrder | internal/pipeline/outbox.go:193-229 | In every state reached by harmless commits, in memory and on disk, a result or joint verdict implies a started review, which implies that in this launch a taken marker was committed or a progress mark of the driver was read; taken is committed at most once per launch. |
| ReviewResults.VerdictsAreFinal | internal/pipeline/outbox.go:482-502 | Over any run, with crashes and posts of earlier launches anywhere: a result or joint verdict once recorded, in memory or on disk, stands unaltered in both copies as long as they hold the same launch, and no result follows a joint verdict. |
| ReviewResults.DurableRecordOnlyGrows | internal/state/state.go:285-302 | Over any run, with crashes and posts of earlier launches anywhere: as long as the disk holds the same launch its rounds are only appended to, archived rounds stay as they are and evidence only accumulates. |
| ReviewResults.JointCoversMembers | internal/pipeline/outbox.go:217-223 | In any reachable state the commit that records a joint verdict is the driver's; in the launch it was admitted in every member has a result or its window was seen free. In a later launch the round it closes has no result and no started review, so the members are covered exactly when at admission every window was seen free. |
| ReviewResults.PostIsCompareAndSwap | internal/pipeline/outbox.go:449-463 | In any state a post whose round was replaced changes nothing anywhere; any commit keeps the round or leaves it for the next one, archiving it as it stood. |
| ReviewResults.ContinuationIsCompareAndSwap | internal/pipeline/deliver.go:55-62 | In any reachable state a continuation raises the round by at most one, and within its launch only if the round it read is still current. |
| ReviewResults.OneHeadMoveOpensOneRound | internal/pipeline/workspace.go:123-127 | However many continuations and posts saw the head move from one round, in whatever order they commit, whichever saves fail, and whatever progress marks, members, cursors, releases and other posts come between, they open exactly one round, and what the old round held is archived with it. |
| ReviewResults.PinArchives | internal/linkq/apply.go:117-133 | A relink ends with the record at the confirmed head and base; the round it leaves is archived, never discarded, and it is left exactly when its head or base differs. |
| WriteBacks.VerdictsOutliveWrites | internal/pipeline/pipeline.go:554-577 | With the reading and the writing of stops and links as separate steps and anything between them: over any run whose stops and links write a copy that is up to date, recorded verdicts stand unaltered in both copies of the launch, crashes and posts of earlier launches included. |
| WriteBacks.FenceOutlivesWrites | internal/linkq/apply.go:38-99 | And the fence and the verdict order hold in both copies after such runs, if the commits were harmless. |
| WriteBacks.StopLosesExactly | internal/pipeline/pipeline.go:554-577 | In any state such a run reaches, a stop loses something of its launch's record exactly when a round, evidence or the first progress was recorded after it had read the thread. |
| WriteBacks.StopLosesAVerdict | internal/pipeline/pipeline.go:554-577 | A reachable run in which a joint verdict, recorded in memory and on disk, is gone from both after a stop that had read the thread before. |
| ReviewLimits.LaunchReusesTheRoundNumber | internal/pipeline/launch.go:185-206 | A note admitted before a relaunch and committed after it leaves the new round 1 with the head of the old one. |
| ReviewLimits.VerdictBeforeReview | internal/pipeline/launch.go:185-206 | A reachable run whose joint verdict stands in a round no review of which was started and whose member, in a window that may hold its agent, has no result: the driver's result was in flight while its thread was launched anew for the same head. |
| ReviewLimits.InFlightPostErasesAPin | internal/pipeline/outbox.go:473-481 | For every round opened without a head: a pin made by a relink while a note is in flight is undone by the note. |
| WriterRules.ContinuationEndToEnd | internal/pipeline/workspace.go:103-131 | A continuation from reading to commit: it opens the next round exactly when the provider moved, fresh and for what the provider named; nothing else of the record changes, and committing it again opens nothing. |
| WriterRules.PostEndToEnd | internal/pipeline/outbox.go:152-231 | A post from admission to commit with nothing in between: admitted exactly by the rules, then committed; which round it lands in and under which head, that the round holds the evidence of its kind and nothing more, who is marked and that nobody else is, and that a result that counts writes over no verdict. |
| WriterRules.SecondObserverFindsTheRoundReplaced | internal/pipeline/outbox.go:449-463 | When a continuation and a result in flight both saw one head move, whichever commits second finds the round replaced and opens none. |
| WriterRules.LinkKeepsTheReview | internal/linkq/apply.go:81-133 | A link that goes through hands the thread over with its members, progress, cursor and rounds; a review ends at the confirmed revision and no evidence is discarded. |
| ThreadDrafts.Draft.OpenRound | internal/state/state.go:117-125 | The in-place opening of a round computes the specified record and returns its run. |
| ThreadDrafts.Draft.MarkMembers | internal/pipeline/outbox.go:538-543 | The loop marks exactly the members of the named agent. |
| ThreadDrafts.Draft.MarkProgress | internal/pipeline/outbox.go:534-547 | Progress of the driver or of a member, and the cursor when a message time is known, as specified. |
| ThreadDrafts.Draft.ApplyPost | internal/pipeline/outbox.go:473-506 | The field-by-field transition of a delivered post equals the specification the run theorems are about. |
| ThreadDrafts.Draft.CommitProgress | internal/pipeline/progress.go:85-107 | The progress marker's in-place commit, accepted or only pinning the revision, equals the specification. |
| RecordWriters.Keeper.Launch | internal/pipeline/launch.go:185-212 | The store takes the launch step of the machine: in memory whether or not the save works, on disk only if it does, no other record touched. |
| RecordWriters.Keeper.Attach | internal/pipeline/committee.go:105-114 | Attaching the members is the machine's step on the store. |
| RecordWriters.Keeper.ReadTree | internal/pipeline/workspace.go:103-131 | Syncing a copy to the working tree leaves the store alone and gives the observer the machine records. |
| RecordWriters.Keeper.Continue | internal/pipeline/deliver.go:55-62 | The continuation's transition, run on whatever the store then holds, is the machine's commit of that observer, no other record touched. |
| RecordWriters.Keeper.ReadMarker | internal/pipeline/progress.go:62-83 | Reading a progress marker gives the observer the machine records, accepted by the same rule. |
| RecordWriters.Keeper.Progress | internal/pipeline/progress.go:85-107 | The marker's transition on the store is the machine's commit of that observer. |
| RecordWriters.Keeper.Admit | internal/pipeline/outbox.go:152-231 | The admission over the store is the machine's, and a post is handed on exactly when it takes off there. |
| RecordWriters.Keeper.Record | internal/pipeline/outbox.go:439-471 | The commit of the post in flight, with its duplicate memory, is the machine's commit on the store. |
| RecordWriters.Keeper.UpdateAnother | internal/state/state.go:285-302 | A transaction on another record is to this one at most a save of what memory holds. |
| RecordWriters.Keeper.WhatTheStoreHolds | internal/pipeline/outbox.go:186-191 | Whatever these writers did, the stored rounds are in order; and if their commits were harmless each stored round keeps its head, its evidence names it and its verdict followed its review. |
| Relinking.OwnershipIsExclusive | internal/linkq/apply.go:38-99 | After any sequence of link requests, launches, releases and drops, with releases failing anywhere, a window and a nonempty session belong to at most one thread, unless the window's last request stopped halfway. |
| Relinking.LinkTakesTheWindow | internal/linkq/apply.go:81-94 | A request that goes through leaves its window to its thread alone whoever held it; a window that had a session keeps it; other threads keep their own. |
| Relinking.SharedExactly | internal/linkq/apply.go:186-201 | A window is left with more than one thread exactly when the request stopped while releasing. |
| Relinking.NoTakeoverUnasked | internal/linkq/apply.go:38-94 | A thread loses its window to a link only when the link is for that thread and its old window is dead or the request forced, or when the link is for that window, live, and with a confirmed revision if it is a review. |
| Relinking.Linker.Session | internal/linkq/apply.go:203-210 | The session chosen is one the window already has, or the new id exactly when it has none, whatever order the records are walked in. |
| Relinking.Linker.ReleaseOthers | internal/linkq/apply.go:186-201 | The other holders are released one saved record at a time until one fails; it reports success exactly when all were. |
| Relinking.Linker.Apply | internal/linkq/apply.go:38-99 | The whole request over the store: rejection and failure cases in the source's order, the records it leaves, and linked exactly when every release and the save worked. |
| Store.SeenIsTheRecentTail | internal/state/state.go:227-243 | Over any run of commits the seen list is the most recently first-committed ids in order, duplicate free and within capacity. |
| Store.StillRecognised | internal/state/state.go:227-243 | An id is recognised while fewer than capacity distinct ids were committed since it entered. |
| Store.ForgottenAfterCapacity | internal/state/state.go:231-236 | The bound is tight: capacity new ids push the oldest out, in order. |
| Store.Store.ReindexSeen | internal/state/state.go:245-250 | The rebuilt index is exactly the set of the list. |
| Store.Store.Seen | internal/state/state.go:221-225 | Membership in the index answers membership in the list. |
| Store.Store.CommitSeen | internal/state/state.go:227-243 | A failed save leaves list, index and disk as before; a successful one makes memory and disk equal. |
| Store.Store.UpdateThread | internal/state/state.go:285-302 | A transaction on one record: unknown, refused or unsaved changes nothing in memory, index or on disk; a success replaces exactly that record and makes memory and disk equal. |
| Store.Store.Sweep | internal/state/state.go:324-346 | A record is dropped exactly when it is older than its cutoff, the short one for a gone or dead window; no other record changes. |
| Store.Store.RecordLaunch | internal/state/state.go:354-358 | The pruned list charged in place is the one the budget theorems are about. |
| Store.Store.AllowLaunch | internal/state/state.go:348-352 | The answer over the pruned list is the specified one. |
| Store.Store.RecordTriage | internal/state/state.go:366-370 | The triage list charged in place is the specified one and independent of the launches. |
| Store.Store.AllowTriage | internal/state/state.go:360-364 | The triage answer is the specified one. |
| Store.Store.Prune | internal/state/state.go:402-411 | The pruning loop keeps exactly the times inside the window, in order. |
| Budget.BudgetHolds | internal/state/state.go:348-358 | However often the budget is asked and whichever launches fail, with at most k of them between check and charge at a time every half-open interval of the window's length holds at most limit + k - 1 launches (none for a limit of zero), counted over everything ever charged and not only over the pruned list; so at most limit when checks and charges do not interleave. |
| Budget.InterleavedPairsOverspend | internal/pipeline/triage.go:51-93 | The bound is tight for every limit and every k: k pairs that all ask before any charges overspend by k - 1. |
| Isolation.Clone | internal/state/state.go:252-270 | A clone equals the record in value, owns fresh copies of everything but the archived rounds, and shares exactly those. |
| Isolation.Mutate | internal/state/state.go:285-302 | Changing the pointer-based record in place has exactly the effect of the value model used everywhere else, starting the review and opening a round included. |
| Isolation.MutateBeside | internal/state/state.go:272-283 | No sequence of changes to one record changes a record that reaches none of its own objects. |
| Isolation.ChangeHandedOut | internal/state/state.go:272-277 | No sequence of changes to a record handed out changes anything that existed before. |
| Isolation.ChangePassedIn | internal/state/state.go:279-283 | No sequence of changes to a record after it was passed in changes the stored one. |
| Isolation.ChangeArchived | internal/state/state.go:252-270 | The limit of isolation: writing through an archived round of a copy changes the stored record. |
| Isolation.RecordStore.UpdateThread | internal/state/state.go:285-302 | With pointers too, a refused or unsaved change leaves every stored record as it was, for only a copy was changed. |
| Memory.PostKeyIsInjective | internal/pipeline/outbox.go:257-259 | Two posts share a key exactly when session, kind, phase, commit and trimmed text agree, provided the fields before the text hold no separator. |
| Memory.SeparatorInFieldCollides | internal/pipeline/outbox.go:257-259 | With a separator in the commit field, posts that differ in commit and text share a key. |
| Memory.DuplicateCheckIsExact | internal/pipeline/outbox.go:261-284 | Over any run of posts on a clock that does not go back, the pruned map answers exactly as a search of every committed post of the last ten minutes. |
| Memory.AlertsAreSpaced | internal/alert/alert.go:53-69 | Two alerts with one key are always at least the cooldown apart although the map forgets other keys. |
| Memory.QuietedOnlyInCooldown | internal/alert/alert.go:53-69 | An alert is held back only while an alert of its key lies less than the cooldown behind. |
| Memory.RecentPosts.SeenPost | internal/pipeline/outbox.go:261-272 | Walking the map, forgetting every expired key on the way, answers as the specification and leaves the specified map. |
| Memory.Notifier.Alert | internal/alert/alert.go:53-69 | The in-place map ends as specified, whether or not the alert was raised. |
| Notifications.NothingAdmittedIsLost | internal/pipeline/pipeline.go:199-235 | In every reachable state, whatever write failed and wherever the process crashed, each admitted id is in the inbox file or was durably committed as seen. |
| Notifications.LostExactly | internal/pipeline/pipeline.go:354-373 | A step loses a failure exactly when it is the last write of a replay whose id was buried again after that replay was committed. |
| Notifications.KeptExactly | internal/pipeline/pipeline.go:354-373 | A run keeps every standing failure in the dead letters throughout exactly when it holds no such write. |
| Notifications.FailuresStayInDeadLetters | internal/pipeline/pipeline.go:293-373 | In every state reached without such a write an id settled as dropped or error is in the dead letters, unless a replay of it was settled otherwise after it was last buried. |
| Notifications.FailureCanBeLost | internal/pipeline/pipeline.go:354-373 | A reachable run, with every write working, that ends with an id settled as dropped last and in neither file: the replay mark is released before the dead letter is removed. |
| Notifications.DeadLettersLeaveOnlyByReplay | internal/pipeline/pipeline.go:354-373 | In every reachable state the only step that removes a dead letter is the last write of a replay of that id that was committed with a good outcome. |
| Notifications.StepKeeps | internal/pipeline/pipeline.go:307-382 | Each single read or write, failing or not, of each of any number of handlers, the check for seen ids apart from the outcome, keeps the accounting of inbox, seen ids and dead letters; the order bury, commit, forget is what makes it hold. |
| Notifications.RecoveryIsExact | internal/pipeline/pipeline.go:214-235 | After a crash in any reachable state an undisturbed recovery requeues exactly the unseen inbox records in order, leaves exactly those in the inbox and touches no other file. |
| Notifications.EveryNotificationIsAttended | internal/pipeline/pipeline.go:199-235 | In every reachable state each admitted id is committed, in somebody's hands, or was left to the next start by a failed write or a handling that was cut off. |
| Notifications.RecoveryMissesNothing | internal/pipeline/pipeline.go:214-235 | From the start of a recovery after a crash in any reachable state, whatever is handled, arrives, is replayed or fails meanwhile: each record that was in the inbox is committed, in somebody's hands, or left over by something that failed since. |
| Notifications.SettledToTheEnd | internal/pipeline/pipeline.go:354-373 | What settling leaves in the three files for every combination of failing writes. |
| Notifications.HandledToTheEnd | internal/pipeline/pipeline.go:307-352 | With its writes working a success leaves the notification committed, out of the inbox and, for a replay, out of the dead letters; a failure leaves it buried as well; every other record stays. |
| PipelineHandler.ExhaustedAfterThreeErrors | internal/pipeline/pipeline.go:318-351 | A notification is given up exactly after three errors, none of them cancelled. |
| PipelineHandler.Pipeline.Enqueue | internal/pipeline/pipeline.go:199-212 | The queue holds nothing that was not written to the inbox first. |
| PipelineHandler.Pipeline.Recover | internal/pipeline/pipeline.go:214-235 | The recovery loop with any writes failing: a prefix of the inbox is processed, exactly its unseen records are queued in order, and no unseen id leaves the inbox. |
| PipelineHandler.Pipeline.Settle | internal/pipeline/pipeline.go:354-373 | The files end as the machine's settling steps leave them and the replay mark is released. |
| PipelineHandler.Pipeline.Handle | internal/pipeline/pipeline.go:307-352 | The retry loop over the files: seen ones are only forgotten, failures are buried before they are settled, an unburied failure changes no file. |
| TriageDesk.DeferredAreHandedBack | internal/pipeline/triage.go:36-43 | However triages overlap, each message deferred behind one is handed back once, in order, or still waits; and while one waits a triage of its thread is running that will hand it back. |
| TriageDesk.OverlapExactly | internal/pipeline/triage.go:36-95 | Over any run two triages of one thread ever overlap exactly when a message of the thread is checked while another triage of it is between its check and its mark. |
| TriageDesk.TwoTriagesRun | internal/pipeline/triage.go:36-95 | A run from the empty desk in which two triages of one thread run behind one mark. |
| TriageDesk.Desk.Ask | internal/pipeline/triage.go:36-43 | The check and append under the lock are the specified step. |
| TriageDesk.Desk.MarkThread | internal/pipeline/triage.go:93-95 | The mark in its own critical section is the specified step. |
| TriageDesk.Desk.Release | internal/pipeline/triage.go:188-193 | Mark and messages are taken together and exactly the waiting messages are handed back. |
| Ledgers.WithoutKeepsTheRest | internal/deadletter/deadletter.go:54-71 | Removing an id removes exactly its records; every other stays in order, and the file shrinks exactly when the id was there. |
| Ledgers.AddedKeepsTheRest | internal/deadletter/deadletter.go:31-46 | Adding replaces the record of the same id and keeps every other, one per id. |
| Ledgers.Ledger.Add | internal/deadletter/deadletter.go:31-46 | The rewritten file is the specified one, or untouched when the write fails. |
| Ledgers.Ledger.Remove | internal/deadletter/deadletter.go:54-71 | The rewritten file is the specified one; an unknown id succeeds without a write. |
| OutboxDir.DeliverOnce | internal/pipeline/outbox.go:346-369 | A send is repeated only after refusals, so the provider takes one delivery at most once, and not at all when refusal is reported. |
| OutboxDir.AtMostOnce | internal/pipeline/outbox.go:107-150 | Over any run of drains, retries, sweeps and restarts whose receipt and state writes work, and whose sweeps skip no expired record whose receipt is still ahead, the provider takes each record at most once. |
| OutboxDir.SpentIsNeverOffered | internal/pipeline/outbox.go:389-418 | A record the provider took, or whose acceptance is unknown, is never offered again. |
| OutboxDir.SweepNeverReopens | internal/outbox/outbox.go:238-262 | Wherever a sweep stops that hid no record from itself, a record that had a receipt still has it or is gone. |
| OutboxDir.SweepIsSafeExactly | internal/outbox/outbox.go:238-262 | A step of the sweep keeps every guarantee exactly when it does not skip, for unreadable metadata, an expired record whose receipt is still ahead. |
| OutboxDir.ReopenedBySweepExactly | internal/outbox/outbox.go:238-262 | After such a step the record is open again, once the rest of the sweep has passed its receipt, exactly when the receipt is expired too. |
| OutboxDir.HiddenIsTakenTwice | internal/outbox/outbox.go:238-262 | A run from the empty directory in which a sweep hides a settled record and the provider takes it a second time. |
| OutboxDir.RecordBeforeReceipt | internal/outbox/outbox.go:238-262 | In directory order a record sorts before its receipt, for every id, which is what the sweep rests on. |
| OutboxDir.ReopenedExactly | internal/pipeline/outbox.go:426-437 | A taken record stays closed exactly when its receipt was written and its transition saved, or it was given up as unknown. |
| OutboxDir.UnsavedIsTakenTwice | internal/pipeline/outbox.go:426-437 | A run from the empty directory in which the transition is not saved, the owner retries, and the provider takes the record a second time. |
| OutboxDir.SweepAllIsTheSteps | internal/outbox/outbox.go:238-262 | The sweep of a whole listing is the machine's steps taken one after the other. |
| OutboxDir.RetryAllIsTheSteps | internal/outbox/outbox.go:212-236 | So is the retry of a whole listing. |
| OutboxDir.RetryAllExactly | internal/outbox/outbox.go:212-236 | Retry touches no record and removes only listed receipts that are pending, each counted; it gets through exactly when every removal it needs works, and then none of them is left. |
| OutboxDir.Dir.Pending | internal/outbox/outbox.go:134-176 | Pending returns exactly the valid, readable records without a receipt, oldest first and by id among equals, and reports exactly the others without a receipt as malformed. |
| OutboxDir.Dir.Retry | internal/outbox/outbox.go:212-236 | Retry reopens exactly the records still pending, up to the first failure. |
| OutboxDir.Dir.Sweep | internal/outbox/outbox.go:238-262 | Sweep removes exactly what is older than the cutoff in listing order, up to the first failure. |
| OutboxDir.DeliverPost | internal/pipeline/outbox.go:346-369 | The retry loop ends as specified, with the provider having taken the message as often as specified. |
| EvidenceOnce.EvidenceAtMostOnce | internal/pipeline/outbox.go:107-150 | Directory and thread together: over any run whose receipts and transitions are saved and whose sweeps hide nothing, with launches, links and every other writer between admission and commit and restarts anywhere, each outbox record is committed into the thread at most once. |
| EvidenceOnce.NotesAreAccounted | internal/pipeline/outbox.go:473-506 | So the thread holds, in memory and on disk and in all rounds together, no more notes than different outbox records of notes were committed into it. |
| EvidenceOnce.LostReceiptIsRecordedTwice | internal/pipeline/outbox.go:420-437 | A run from the start in which a note's receipt is not written and, after a restart, the same record adds a second note. |
| Ordering.SortedIsUnique | internal/waitq/waitq.go:151-156 | There is one order of given records by time and then id, so the sort decides it alone. |
| Ordering.InsertIsSorted | internal/outbox/outbox.go:169-174 | Placing one more record keeps the order and loses none. |
| Waiting.PromptsAreConserved | internal/pipeline/deliver.go:79-191 | A prompt acknowledged as queued is at every later time waiting, sent or kept as undelivered with its content, with any write failing, drainers overlapping and crashes anywhere. |
| Waiting.DirectSendWaitsItsTurn | internal/pipeline/deliver.go:79-98 | A direct send is decided only when every acknowledged prompt of the window was sent or kept. |
| Waiting.QueueOrderIsKept | internal/pipeline/deliver.go:132-157 | With one drainer per window and strictly increasing times a window receives its queued prompts in queue order; only a restart repeats one, at once. |
| Waiting.SecondDrainerExactly | internal/pipeline/deliver.go:99-108 | A delivery starts a second drainer exactly when it queues the only waiting prompt of a window whose drainer has not yet noticed that the queue ran empty. |
| Waiting.TwoDrainersSendTwice | internal/pipeline/deliver.go:132-157 | A run from the empty queue in which two overlapping drainers send one prompt twice. |
| Waiting.Dir.Peek | internal/waitq/waitq.go:59-71 | Peek returns exactly the window's prompts, oldest first and by id among equals. |
| Waiting.Dir.Append | internal/waitq/waitq.go:37-57 | A prompt waits exactly when it names an id and a window and the write works. |
| Waiting.Dir.Quarantine | internal/waitq/waitq.go:97-125 | Each prompt is kept aside before it stops waiting, so at whatever write it stops none is lost, and success leaves the window nothing waiting. |
| Waiting.Dir.Deliver | internal/pipeline/deliver.go:79-109 | Direct exactly when nothing waits and the session is not blocked; a drainer is started exactly for the first prompt to wait. |
| Waiting.Dir.Drain | internal/pipeline/deliver.go:132-157 | The window receives a prefix of the queue in order; the rest still waits or is kept aside; all of it when every send and removal works. |
| Worktrees.PrunedExactly | internal/worktree/worktree.go:330-382 | A tree is removed exactly when a candidate for it is expired and unkept, its status was read as clean, it is no dry run and git removes it; every other tree stays as it is. |
| Worktrees.DirtyTreesStay | internal/worktree/worktree.go:228-250 | Over any run of undisturbed preparing, refreshing, inspecting and pruning a tree with local changes is never moved and never removed. |
| Worktrees.DirtyIsSafeExactly | internal/worktree/worktree.go:228-250 | With the status read and the checkout or removal as separate steps and any others between them: changes made to a tree leave it where it is over every run that follows exactly when, at the moment they are made, nobody who read it as clean and stale is still to move it to another head. |
| Worktrees.DirtyIsNeverRemoved | internal/worktree/worktree.go:372-382 | Even then, over any run a tree with local changes is not removed and keeps them. |
| Worktrees.EditedTreeIsMoved | internal/worktree/worktree.go:228-250 | A run in which a clean tree is found stale, edited, and then moved with the changes in it. |
| Worktrees.DirtyTreesStayMeanwhile | internal/worktree/worktree.go:228-250 | A tree with local changes that no job had taken up before stays as it is whatever is checked, moved, removed or edited elsewhere meanwhile. |
| Worktrees.ChangesCameAfterTheCheck | internal/worktree/worktree.go:228-250 | A job that finds its tree with local changes finds changes made after its status was read. |
| Worktrees.KeptTreesStay | internal/worktree/worktree.go:372-382 | A tree that every pruning of a run keeps or finds fresh is there at the end. |
| Worktrees.PreparedIsConfirmed | internal/worktree/worktree.go:73-111 | A successful preparation ends with its tree at the fetched head, which the provider confirms when it names one; only that tree moves, and only if it was clean. |
| Worktrees.Preparer.ChoosePath | internal/worktree/worktree.go:136-149 | The first free candidate is chosen, and a busy one only when all twenty are busy. |
| Worktrees.Preparer.InspectTree | internal/worktree/worktree.go:252-270 | The step-by-step inspection reports what the specification does. |
| Worktrees.Preparer.RefreshTree | internal/worktree/worktree.go:228-250 | The guarded checkout leaves the specified trees. |
| Worktrees.Preparer.PrepareTree | internal/worktree/worktree.go:73-111 | The whole preparation, on the first free candidate, leaves the specified trees and result. |
| Worktrees.Preparer.PruneTrees | internal/worktree/worktree.go:330-370 | The pruning loop leaves the specified trees and reports every tree it removed. |
| Workspace.BusyWorktrees | internal/pipeline/workspace.go:77-101 | Exactly the paths that a thread or member works in, in a window that may still hold its agent, are busy; with no window list none is. |
| Workspace.ChooseFreeTree | internal/pipeline/workspace.go:69-75 | A new session is given a tree that a live one holds only when live sessions hold all twenty candidates. |
| SessionTimeline.CountsAreEntries | internal/session/session.go:105-128 | Over any events the blocked count is the number of entries into Blocked, and entries exceed exits by one exactly while the session is blocked. |
| SessionTimeline.BlockedTimeIsExact | internal/session/session.go:121-126 | With nondecreasing times the blocked time is the time really blocked less the time a repeated blocking event forgets, up to a millisecond per exit. |
| SessionTimeline.StatsAreConsistent | internal/session/session.go:39-48 | Whenever the statistics are read, blocked time and time to the first action lie within the duration, despite truncation. |
| SessionTimeline.BlockedAgainForgets | internal/session/session.go:121-126 | Whatever time was blocked before a second blocking event is not counted. |
| SessionTimeline.TimesAreSetOnce | internal/session/session.go:110-120 | Once set the start and the first action never change; counts and, with nondecreasing times, blocked time never shrink. |
| LogScanner.LineByLineIsBatch | internal/notifylog/notifylog.go:43-65 | Feeding a log line by line finds what a recursive batch parse of the whole log finds, in the same order. |
| LogScanner.CompleteBlockIsDecodedOnce | internal/notifylog/notifylog.go:43-65 | Whatever lines came before, a complete block whose header is a log entry is decoded exactly once, with nothing found before its brace and the scanner outside after it. |
| LogScanner.HeaderStartsABlockExactly | internal/notifylog/notifylog.go:67-72 | A header and the lines after it are read as a block of their own exactly when no block was being read or the header is a log entry. |
| LogScanner.Scanner.Feed | internal/notifylog/notifylog.go:43-65 | The in-place scanner takes the specified step on the line without trailing blanks and emits what it emits. |
| ShellWords.QuotedReadsBack | internal/session/session.go:355-357 | Under sections 2.2.1 and 2.2.2 of the POSIX.1-2017 Shell Command Language the quoted form of any string reads back as that one word. |
| ShellWords.JoinedReadsBack | internal/launcher/cmux.go:111-113 | Any line joined from quoted and bare parts reads back as exactly those parts. |
| ShellWords.RunAgentReadsBack | internal/launcher/herdr.go:197-199 | The command a window is started with reads back as its five words, whatever the paths hold. |
| ShellWords.HookReadsBack | internal/session/session.go:247-249 | The hook command reads back as its four words. |
| ShellWords.CommandsAreDistinct | internal/launcher/cmux.go:111-113 | Different programs, configurations or prompt files never give the same command. |
| HookMerge.MergeIsConservative | internal/session/session.go:300-329 | Foreign groups keep content and order for every event, no group of ours survives that was not just added, every added group is there, no event is left empty and nothing is invented. |
| HookMerge.IdempotentExactly | internal/session/session.go:300-329 | For every file, merging the same groups again changes nothing exactly when every added group is recognised as ours. |
| HookMerge.OurGroupsAreOursExactly | internal/session/session.go:251-262 | The groups built for a command are all recognised exactly when the command is. |
| HookMerge.HookCommandIsOursExactly | internal/session/session.go:342-353 | The quoted command is recognised exactly when the path of the program or of its configuration holds the program's name. |
| HookMerge.InstallingTwiceExactly | internal/session/session.go:247-329 | Installing the hooks twice leaves the file as once exactly when one of the two paths holds the program's name. |
| HookMerge.RemoveOurs | internal/session/session.go:331-340 | The filtering loop keeps exactly the foreign groups, in order. |
| HookMerge.HooksFile.Merge | internal/session/session.go:300-329 | The maps rewritten in place, in any iteration order, end as specified; the rest of the document stays and a malformed file changes nothing. |

## Left out

- ReviewResults.ShaFence: claimed for rounds opened with a nonempty head and for runs whose commits are harmless; SoundThroughoutExactly and HarmlessExactly say exactly which runs those are, LaunchReusesTheRoundNumber and InFlightPostErasesAPin show both limits.
- ReviewResults.VerdictOrder: for runs whose commits are harmless, exactly as ShaFence; VerdictBeforeReview is a reachable run beyond them. "Taken" may also be a progress mark of the driver that was read from the thread, as in the code.
- ReviewResults.JointCoversMembers: promised in the launch of the admission; in a later one only when every window was seen free, as VerdictBeforeReview shows.
- ReviewTheorems.StepKeeps: a stop and a link are one step each there; WriteBacks has them as a read and a write, and StopLosesExactly says exactly when an update in between is lost. For a link it is proved that a copy that is up to date loses nothing, not that every other one does.
- ReviewResults.OneHeadMoveOpensOneRound: launches, drops, relinks and crashes end the move it is about.
- RecordWriters.Keeper.WhatTheStoreHolds: covers launch, members, continuations, progress markers and posts; links run in Relinking.Linker.Apply and are not among its calls; releases, stops and cursor moves, single updates of the record, are not repeated there.
- Notifications.RecoveryMissesNothing: recovery's check of one record and its requeueing or removal are one step.
- Notifications.FailuresStayInDeadLetters: for runs without a stale removal of a dead letter, which KeptExactly makes the exact condition; FailureCanBeLost is a reachable run with one.
- OutboxDir.AtMostOnce: is about runs whose receipts and transitions are saved, whose sweeps skip no expired record whose receipt is still ahead, and whose refusals are truthful; a crash between acceptance and its receipt counts as a receipt that was not written.
- EvidenceOnce.EvidenceAtMostOnce: for the same runs as AtMostOnce; stops and links are one step each.
- OutboxDir.DeliverOnce: a cancelled back-off after a refusal ends as acceptance unknown, as in the code, so a refused message need not stay retryable.
- OutboxDir.SweepNeverReopens: for steps that skip no expired record whose receipt is still ahead; SweepIsSafeExactly makes that the exact condition.
- Waiting.QueueOrderIsKept: needs one drainer per window and strictly increasing times; equal times fall back to the order of ids.
- Budget.BudgetHolds: takes the number k of attempts between check and charge as given; it needs a clock that does not go back.
- Relinking.OwnershipIsExclusive: supposes new session ids are new and a terminal opens a window no record holds.
- Memory.DuplicateCheckIsExact: needs a clock that does not go back.
- Commits.SameCommitBasics: lower-casing is modelled on ASCII, which is all a commit id can hold.
- PipelineHandler.Pipeline.Handle: takes the outcome of each attempt as given; which outcome a message gets is the classifier's and the terminal's answer.
- ShellWords.QuotedReadsBack: the reader treats NUL as any other character; no shell can be passed one.
- HookMerge.HooksFile.Merge: a hooks file that holds JSON null, on which the code assigns into a nil map, is not modelled.
- Isolation.Mutate: changes to lists are made in place or by appending to the record's own list; spare capacity behind a Go slice is not modelled beyond that.
- Worktrees.DirtyTreesStay: each operation is one step there; DirtyIsSafeExactly has the status read and the write that follows it as separate steps. A checkout that local changes make git refuse counts as one that does not work.
- Worktrees.Preparer.PrepareTree: notes that only explain a result are dropped; remote URLs are compared by the answer of the comparison.
- Texts that only inform: message wording, journal entries, log lines, notes, the shortened text of a recorded note, the reason and time of a dead letter.
- Terminal backends, git and forge command lines, chat HTTP and the helper process: only their outcomes are arguments.
- File formats and JSON syntax: files are maps replaced atomically or not at all; a decoder is a function argument.
- Prompt templates, configuration, setup, command-line flags, the web status page and reports.
- Regular expressions, message classification and link extraction, and the scanner of last-read marks: large matchers with weak claims.
- Silent-verdict streaks and their cooldown: the same pruned list as the budgets.
- File locking and process signals: one writing process is supposed.
