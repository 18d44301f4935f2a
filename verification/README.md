# Raiker: a verified model of its protocols

Raiker is a self-hosted assistant whose API and agent layers are full of small stateful protocols: budgets and
deduplication on inbound channels, approvals with several doors onto one row, idempotency keys, redaction of every
response, bounded subagents with signed results, instance creation, and a remote listener. This project models those
protocols in Dafny and proves what they promise over every input, every run and every interleaving.

`dafny verify dfyconfig.toml` checks the whole project.

## How the model is laid out

- **Channels.** `SlidingWindow`, `InboundBudget` and `LoopGuard` keep the source's pruned deques in classes that refine a
  log of every message ever seen. `EventClaims` interleaves any number of messages over the event-claim table.
  `InboundLedger` keeps the books over all messages, and `InboundReceiver` is the handler in the two stretches around its
  await, so that any number of messages overlap.
- **Approvals.** `Approvals` is a state machine in which each database statement of each request is one step: local
  resolve, channel response, replacement, execution relay, expiry, held sends and undo. `ApprovalSafety`,
  `ApprovalRelays` and `ApprovalSends` prove what all interleavings keep, `ApprovalCourses` that each request does its work
  when its gates are on, and `ApprovalHost` ties the requests' statements on the store to the steps. `TextLines`,
  `PatchSelection` and `PatchReview` are the patches a reviewer narrows or edits, and `PatchChoice` says line by line what
  a selection copies;
  `PatchNames`, `PatchReach` and `PatchMeanings` are the files the applier would change for them and what the names on a
  patch say about those, with `Matching` (Hall's theorem) deciding what several names say together; `PatchBuilding` builds
  patches for given names and files, and `PatchEdits` decides when an edit can reach another file.
- **Idempotency** interleaves guards over one table with expiry.
- **Redaction.** `Redaction` is the recursive rewrite and its checker, `RedactionPlaces` what they do to each place of a
  body, `KeyNames` what a field's name says, `SecretRemoval` the removal of secrets on loan, `ResponseRedaction` the
  middleware with its buffering path and its identity fast path, and `ContentTypes` the headers that decide between them.
- **Agents.** `Subagents` runs specs and teams against an arbitrary broker and clock; `Delegation` signs and verifies.
- **Hosts.** `Instances` creates instances under one lock while readers read; `RemoteAccess` decides which requests are
  local, and `SessionAssurance` which sessions let whom in, over runs of sign-ins, sign-outs, uses and enrolments.
- **Texts.** `Texts` has the string operations the source leans on, `Positions` sub-lists by position.
- **Tooling.** `Reachability`, `TypeContract` and `LicenceWorklist` are the graph searches of the scripts.

## Where the code does not do what is promised

Each of these is stated with the input that shows it and with the exact condition under which the promise holds.

- `ApprovalInbox.resolve` ignores whether its update changed the row, so a request can be told "denied" or "replaced"
  while the action executes (`DenialCanComeTooLate`, `DenialHoldsExactly`).
- With two processes, a connector write can be sent although its approval row says denied (`DeniedWriteCanBeSent`,
  `WriteDenialHoldsExactly`); on one event loop it cannot (`DeniedWriteIsNotSent`).
- `complete` and `abandon` match rows by key only, so a request that outlives the key's lifetime settles somebody else's
  reservation (`PoisonedExactlyWhenLate`, `DoubledExactlyWhenLate`).
- An event is not accepted "at most once ever": claims are forgotten after 48 hours (`TwiceWhenFarApart`). With two
  processes a duplicate can be answered with a message that is then refused (`DuplicateExactlyHonest`).
- Redaction is idempotent only if the text rule is (`OnePassSuffices`), and a registered secret can break that. Alone, it
  does exactly if it clashes with the marker put in its place: it lies inside the marker, contains it, or overlaps it where
  the two can meet (`SettlesExactlyWithoutClash`, `ClashingSecrets`). Several secrets that do not clash can break it
  together (`TwoSecretsUnsettled`); a secret is harmless in every registry of harmless ones exactly if it is apart from the
  marker, or is the marker (`SettlesInAnyCompanyExactly`).
- The check that an edit does not widen a patch compares the names on `+++` lines, and the applier goes by both header lines:
  an accepted edit can delete or write a file the proposal never reached (`DeletionOfAnotherFile`, `FolderNamedA`). It cannot
  exactly when the names on its headers pin its files: some of them have no more files to mean among them than they are
  (`EditStaysInsideExactly`, and `ReviewStaysInsideExactly` for whole reviews).
- Selecting every hunk of a patch gives the patch back only if every section of it has a hunk: a section without one, such as
  a pure header pair, is dropped (`EverythingSelected`).
- A narrowed patch reads back as the accepted hunks only if the patch reads cleanly (`RoundTripsExactlyWhenClean`).
- A failed registration leaves the name unusable if its staged directory could not be removed (`FailureRestores`,
  `RetryGoesThrough`).
- A change of enrolment ends all earlier remote sessions but the one that confirmed the new enrolment
  (`ConfirmingSessionGoesOn`).

## Model

| member | source | states |
|---|---|---|
| `PatchSelection.ParseSections` | raiker/tools/patch_selection.py:35-69 | the loops that find file starts and split headers from hunks compute `Sections`, the function the results below are about |
| `PatchSelection.SelectHunks` | raiker/tools/patch_selection.py:97-116 | the loops compute `Selected`, the function whose lines the next results name |
| `PatchChoice.KeptAreTheChosen` | raiker/tools/patch_selection.py:106-110 | of every file exactly the hunks whose ids are selected are kept, at strictly increasing positions |
| `PatchChoice.SelectionCopies` | raiker/tools/patch_selection.py:35-116 | counting header lines in the text alone: a selection copies exactly the lines of selected hunks and of the headers of files that have one, in order; no line of another hunk, no header of a file without one |
| `PatchChoice.NothingSelected` | raiker/tools/patch_selection.py:97-116 | selecting nothing gives the empty text |
| `PatchChoice.EverythingSelected` | raiker/tools/patch_selection.py:97-116 | selecting every hunk gives the patch back if and only if every section of it has a hunk |
| `PatchSelection.PatchTargetPaths` | raiker/tools/patch_selection.py:119-141 | the first `+++` line of each header, without timestamp and `b/` |
| `PatchReview.SelectionRoundTrip` | raiker/tools/patch_selection.py:35-116 | the text of a selection parses back to exactly the kept sections if and only if what is kept still opens with a `---`/`+++` pair |
| `PatchReview.RoundTripsExactlyWhenClean` | raiker/tools/patch_selection.py:36-69 | every selection of a patch round-trips exactly when no hunk header stands before the first file header with a choice behind it; otherwise a selection that does not is constructed |
| `PatchReview.SelectionNamesNoNewFile` | raiker/tools/patch_selection.py:97-141 | no selection of any patch names a target outside the patch's own |
| `PatchReview.ReplacementExactly` | raiker/api/routes_approvals.py:435-459 | an edit is accepted exactly when it is not blank, names a file and only files of the proposal, and differs from it; otherwise refused for the first of these that fails |
| `PatchReview.ReviewsNameNoNewFile` | raiker/api/routes_approvals.py:435-459 | along every chain of accepted edits and selections the names on a patch stay within the first proposal's |
| `PatchNames.SameBase` | raiker/tools/filesystem.py:762-766 | the review and the applier cut the same text out of a header line unless a tab stands in front of the path |
| `PatchNames.BaseIsClean` | raiker/tools/filesystem.py:762-766 | what is cut out of a line has no tab, no line break and no blank end |
| `PatchReach.SelectionReachesNoNewFile` | raiker/tools/filesystem.py:915-945 | for every patch and selection, no file is written or deleted that the patch itself would not |
| `PatchReach.FileOfExactly` | raiker/tools/filesystem.py:922-935 | a section changes the file on both its lines, or on one beside `/dev/null`, and nothing is renamed |
| `PatchMeanings.NamesAreOfPairs` | raiker/tools/patch_selection.py:119-141 | the names the review compares are those of the sections the applier changes |
| `PatchMeanings.ChangeIsMeant` | raiker/tools/filesystem.py:762-766 | the file a section changes is the path its name gives behind `b/`, or the one it gives bare, unless the name can stand for a deletion |
| `PatchMeanings.ChoiceFits` | raiker/tools/filesystem.py:922-945 | a patch the applier takes gives each of its names a file of its own, out of those the name may mean: no file twice |
| `PatchMeanings.PinnedIsReached` | raiker/tools/filesystem.py:915-945 | whatever the applier takes that carries the names reaches every file they pin |
| `Matching.TakenExactlyWhenPinned` | raiker/tools/filesystem.py:941-943 | with a file for each name and none twice, a file is taken whatever the choice if and only if some of the names have no more files among them than they are |
| `PatchEdits.ToldEditStaysInside` | raiker/api/routes_approvals.py:435-459 | an accepted edit whose `+++` names pin every file it reaches stays inside every proposal |
| `PatchEdits.UntoldEditEscapes` | raiker/api/routes_approvals.py:435-459 | for any other edit the applier would take, a proposal the applier would take, no file twice, is constructed that accepts it and does not reach its file |
| `PatchEdits.EditStaysInsideExactly` | raiker/api/routes_approvals.py:435-459 | an edit stays inside every proposal that accepts it if and only if its names pin its files: a condition on the edit's header lines alone |
| `PatchEdits.ReviewsReachNoNewFile` | raiker/api/routes_approvals.py:435-459 | along every chain of selections and accepted edits, with nothing asked of the patches in between: if the applier would take the first proposal and the last edit's names pin its files, no file is reached that the first did not reach; selections alone need neither |
| `PatchEdits.ReviewStaysInsideExactly` | raiker/api/routes_approvals.py:435-459 | an edit stays inside the first proposal of every review that ends with it if and only if its names pin its files |
| `PatchEdits.DeletionOfAnotherFile` | raiker/api/routes_approvals.py:439-459 | for any two files, a proposal that deletes one accepts an edit that deletes the other |
| `PatchEdits.FolderNamedA` | raiker/api/routes_approvals.py:439-459 | for any file, a proposal for its namesake in a folder `a` accepts an edit that writes the file |
| `PatchEdits.UsualHeadersReach` | raiker/tools/filesystem.py:762-766 | the usual headers create, change and delete exactly their own file, and a section that would rename one is refused |
| `PatchEdits.OrdinaryEditIsTold` | raiker/api/routes_approvals.py:435-459 | the usual headers of a file outside a folder `a` pin it, so an edit of its hunks is accepted and stays inside |
| `PatchEdits.NeighbourPins` | raiker/tools/filesystem.py:762-766 | the name of a file in a folder `a` leaves a choice alone and none beside the name of the file it could be taken for |
| `Idempotency.IdempotencyGuard.Begin` | raiker/api/idempotency.py:57-89 | purge, look up, reserve or answer: the new table and the verdict as functions of the old table, and the reservation flag |
| `Idempotency.IdempotencyGuard.Complete` | raiker/api/idempotency.py:91-100 | records the answer under the key if this guard reserved it, and touches no other row |
| `Idempotency.IdempotencyGuard.Abandon` | raiker/api/idempotency.py:102-112 | frees the key if it has no answer, and touches no other row |
| `Idempotency.HeldKeyAnswers` | raiker/api/idempotency.py:69-89 | while a request holds its key every other `begin` gets its answer, "in progress" or "reused", never a reservation |
| `Idempotency.TimelyRunsKeepInv` | raiker/api/idempotency.py:57-112 | every interleaving in which no request outlives the lifetime keeps each row tied to the request that inserted it |
| `Idempotency.OneCreationPerKey` | raiker/api/idempotency.py:57-112 | in every such run two requests that create under one key reserved it more than the lifetime apart |
| `Idempotency.ReplaysAreGenuine` | raiker/api/idempotency.py:84-89 | every replayed answer was recorded by a request with the same key and payload digest |
| `Idempotency.RetriesGetTheAnswer` | raiker/api/idempotency.py:84-100 | until it expires, each retry of a finished request gets its answer and another payload is refused |
| `Idempotency.AbandonKeepsAnswers` | raiker/api/idempotency.py:102-112 | in any state whatever, abandoning removes no recorded answer |
| `Idempotency.PoisonedExactlyWhenLate` | raiker/api/idempotency.py:91-100 | in every state: a completion can become the replay of a payload it was not given for exactly when it comes after the expiry and no live row for its own payload stands under the key |
| `Idempotency.LateCompletionPoisons` | raiker/api/idempotency.py:91-100 | the run in which it does, whenever no row for the key is live |
| `Idempotency.LateAbandonFreesAnother` | raiker/api/idempotency.py:102-112 | likewise an abandon frees the reservation of another request that is still creating |
| `Idempotency.DoubledExactlyWhenLate` | raiker/api/idempotency.py:102-112 | in every state: an abandon can let two requests create at once exactly when it comes after the expiry and no live row with an answer stands under the key |
| `SlidingWindow.Prune` | raiker/api/routes_channels.py:239-241 | the popping loop leaves the longest suffix of live entries |
| `SlidingWindow.LiveIsSince` | raiker/api/routes_channels.py:239-241 | on entries in time order that suffix is every entry in the window |
| `InboundBudget.LimitsFrom` | raiker/api/routes_channels.py:103-153 | positive overrides hold as given, and otherwise 60, four and ten times the sender's; all positive, and the defaults nested |
| `InboundBudget.InboundBudgets.Sweep` | raiker/api/routes_channels.py:191-195 | every sender's deque is pruned and no empty one remains |
| `InboundBudget.InboundBudgets.WithinBudget` | raiker/api/routes_channels.py:182-201 | answers whether fewer than the limit are live and records only if asked and within it |
| `InboundBudget.InboundBudgets.Spend` | raiker/api/routes_channels.py:156-179 | the verdict off the pruned deques is the verdict off the log of every message ever accepted: the smallest full scope, or one entry in each budget; a refusal changes no log |
| `InboundBudget.RefusedExactly` | raiker/api/routes_channels.py:156-179 | a message is refused exactly when a scope of its own has as many accepted messages in the closed minute before it as its limit, and is told the smallest |
| `InboundBudget.NoWindowOverflows` | raiker/api/routes_channels.py:156-201 | in every lawful log, limits changing over time, any closed minute of any scope holds at most the limit in force at its last message |
| `InboundBudget.FixedLimitHolds` | raiker/api/routes_channels.py:156-201 | with fixed limits, at most the limit per sender, per connector and for the host |
| `InboundBudget.OthersNeverSpend` | raiker/api/routes_channels.py:156-201 | any flood of other senders' messages leaves a sender's own count unchanged |
| `LoopGuard.LoopGuards.LoopReason` | raiker/api/routes_channels.py:244-258 | the verdict off the pruned deques is the verdict off the full logs; a refused repeat is recorded, an echo is not |
| `LoopGuard.LoopGuards.RememberReply` | raiker/api/routes_channels.py:261-263 | a reply that is not blank joins the remembered ones, nothing else changes |
| `LoopGuard.VerdictExactly` | raiker/api/routes_channels.py:244-258 | an echo exactly of a reply on the connector in the last 600 seconds, otherwise a repeat exactly if its sender sent it twice there before in that time |
| `LoopGuard.AtMostTwoPass` | raiker/api/routes_channels.py:244-258 | at most two copies of one message from one sender on one connector pass in any closed 600-second window |
| `LoopGuard.SteadyRepeaterIsCutOff` | raiker/api/routes_channels.py:244-258 | a sender that repeats steadily passes its first two copies and none after them: refused repeats extend the window |
| `LoopGuard.EchoesAreFound` | raiker/api/routes_channels.py:249-252 | the guard finds an echo exactly when some reply ever sent on the connector says the same within the window |
| `LoopGuard.MessageKeepsNoEchoes` | raiker/api/routes_channels.py:249-255 | with `ReplyKeepsNoEchoes`: over every run no recorded message repeats a reply sent before it and still in its window |
| `LoopGuard.ReplyKeepsNoEchoes` | raiker/api/routes_channels.py:261-263 | a new reply makes no earlier message an echo |
| `LoopGuard.MarksCountOccurrences` | raiker/api/routes_channels.py:254-257 | counting a fingerprint in the sender's deque counts the message's occurrences |
| `EventClaims.OneAcceptedPerLifetime` | raiker/storage/stores/extensions.py:1042-1084 | in every interleaving, also of processes whose cut-offs are read before another's claim commits, two accepted messages of one event claimed it more than 48 hours apart |
| `EventClaims.TwiceWhenFarApart` | raiker/storage/stores/extensions.py:1042-1074 | for all claim times: the second of two is accepted exactly when they are that far apart, so "at most one ever" is false beyond the claim's lifetime |
| `EventClaims.RefusalFreesTheEvent` | raiker/storage/stores/extensions.py:1076-1084 | a retry after a refusal wins the event unless another message's claim has outlived the refused one's |
| `EventClaims.RefusalSparesOthers` | raiker/storage/stores/extensions.py:1076-1084 | a refusal never gives back another message's claim |
| `EventClaims.DuplicatesRepeatAccepted` | raiker/api/routes_channels.py:778-828 | when nothing comes between claim and decision, each duplicate was answered with the receipt of an accepted message |
| `EventClaims.DuplicateExactlyHonest` | raiker/api/routes_channels.py:966-1008 | in any state: if the claim's holder is accepted the duplicate's answer is true, and if it is undecided its refusal makes it false |
| `InboundReceiver.Receiver.Admit` | raiker/api/routes_channels.py:697-920 | the handler up to its await: outcome, plan, claim table and both logs as functions of what was there; a duplicate spends no budget, marks no loop and writes no receipt; a refused message leaves no claim, a passed one exactly its own |
| `InboundReceiver.Receiver.Settle` | raiker/api/routes_channels.py:920-930 | the handler after its await, however many others came in between: its own receipt settled, its reply remembered, nothing else changed |
| `InboundReceiver.Receiver.Screen` | raiker/api/routes_channels.py:792-858 | budgets before the loop guard, and a message over budget leaves both logs as they were |
| `InboundLedger.BooksBalance` | raiker/api/routes_channels.py:697-1052 | at every moment of every interleaving: one receipt for each message that is neither unpaired nor a duplicate, all coherent, only the owner's messages among the interrupts, each as its text says, no tools in anybody else's turn, and no message of the owner's lost |
| `InboundLedger.OneReceiptEach` | raiker/api/routes_channels.py:725-738 | exactly one receipt for each message to an enabled pairing that is no duplicate |
| `InboundLedger.AllReceiptsCoherent` | raiker/api/routes_channels.py:1011-1052 | every receipt, settled or open, is coherent |
| `InboundLedger.ReceiptSaysWhoAndWhy` | raiker/api/routes_channels.py:725-920 | role, acceptance and reason of a receipt: who the sender is to the pairing, and which of the six refusals or the pause stopped the message |
| `InboundLedger.OnlyOwnersInterrupt` | raiker/api/routes_channels.py:1218-1334 | over every ledger: every stop came from an owner's stop word, every steer from another text of an owner's, each to the pairing's own session; another's turn may call no tool |
| `InboundLedger.OthersOnlyAsk` | raiker/api/routes_channels.py:1218-1303 | whoever is not the owner stops and steers nothing and starts at most a side question with no tool calls |
| `InboundLedger.OwnersInterrupt` | raiker/api/routes_channels.py:1218-1262 | on an interrupt pairing with a session the owner's message stops it if and only if it is a stop word, and otherwise steers it with its first 4000 characters unless the queue is full |
| `InboundLedger.StopWordsExactly` | raiker/api/routes_channels.py:1247-1247 | a stop word is stop, cancel or pause in any case with blanks around it, and nothing else |
| `InboundLedger.TurnsAreStarted` | raiker/api/routes_channels.py:1263-1303 | the owner's message starts a turn in the stored session or the new one with twelve tool calls; a side question starts one in the paired session with none |
| `InboundLedger.NothingElseStarts` | raiker/api/routes_channels.py:1218-1303 | no other pairing and message sets anything going, with the reason each gives |
| `InboundLedger.OwnersAreHeard` | raiker/api/routes_channels.py:1218-1334 | over every ledger each message of the owner's that was let in interrupts or starts a turn unless the queue was full |
| `InboundLedger.SettlingIsCoherent` | raiker/api/routes_channels.py:1011-1052 | for every plan and response: queued exactly if something was set going, processed exactly for an interrupt or a finished turn, failed exactly for a refused route or a failed turn and then with that reason, delivered exactly if the reply was |
| `InboundLedger.ResponseRecorded` | raiker/api/routes_channels.py:920-929 | a turn that comes back changes its own message's receipt and no other |
| `InboundReceiver.ClaimThenRelease` | raiker/storage/stores/extensions.py:1058-1084 | claiming and giving back leaves the table as its purge left it |
| `Approvals.ApprovalStore.ClaimForExecution` | raiker/storage/stores/approvals.py:347-362 | moves a pending row to executing and says whether it did |
| `Approvals.ApprovalStore.FinalizeExecution` | raiker/storage/stores/approvals.py:364-380 | settles only a claimed row |
| `Approvals.ApprovalStore.ReleaseClaim` | raiker/storage/stores/approvals.py:438-452 | returns only a claimed row to pending |
| `Approvals.ApprovalStore.ResolveApproval` | raiker/storage/stores/approvals.py:690-699 | decides only a pending row and tells its caller nothing |
| `Approvals.ApprovalStore.ResolveRelay` | raiker/storage/stores/approvals.py:745-755 | uses an open relay once |
| `Approvals.ApprovalStore.Hold` | raiker/runtime/held_sends.py:35-43 | takes a waiting write into its undo window |
| `Approvals.ApprovalStore.ClaimSend` | raiker/runtime/held_sends.py:46-64 | claims a held write for sending |
| `Approvals.ApprovalStore.UndoSend` | raiker/runtime/held_sends.py:67-74 | takes a held write back |
| `ApprovalHost.Host.Claim` | raiker/runtime/executors/tier1_approval.py:288-295 | the claim on the store is that step of the state machine, and all it keeps safe stays safe |
| `ApprovalHost.Host.Settle` | raiker/runtime/executors/tier1_approval.py:328-372 | likewise recording the outcome, or giving the claim back |
| `ApprovalHost.Host.Decide` | raiker/approvals/__init__.py:61-64 | likewise the inbox's update |
| `ApprovalHost.Host.Consume` | raiker/api/routes_channels.py:1130-1137 | likewise the use of a relay |
| `ApprovalHost.Host.HoldWrite` | raiker/api/routes_approvals.py:743-747 | likewise holding an approved write |
| `ApprovalHost.Host.RefuseWrite` | raiker/api/routes_approvals.py:737-742 | likewise refusing a denied one |
| `ApprovalHost.Host.ClaimHeld` | raiker/runtime/held_sends.py:46-64 | likewise the end of the undo window |
| `ApprovalHost.Host.Undo` | raiker/api/routes_approvals.py:536-551 | likewise an undo, after which, if it says so, nothing that can happen sends the write |
| `ApprovalSafety.ExecutesAtMostOnce` | raiker/runtime/executors/tier1_approval.py:288-373 | over every interleaving of all the doors each action executes at most once, and only out of its claim |
| `ApprovalSafety.DeniedNeverRuns` | raiker/storage/stores/approvals.py:690-699 | a row recorded denied, approved without execution, expired or answered stays so in every continuation and its action never executes |
| `ApprovalSafety.CriticalIsNeverTouched` | raiker/api/routes_approvals.py:423-427 | none of these doors decides or executes a critical approval |
| `ApprovalSafety.DenialHoldsExactly` | raiker/approvals/__init__.py:61-64 | after a denial or replacement has been answered, no continuation executes the action if and only if the row was not claimed or run at the denial's own update, whose row count nobody reads |
| `ApprovalSafety.DenialCanComeTooLate` | raiker/approvals/__init__.py:45-64 | a run in which a request is told "denied" while its action executes |
| `ApprovalCourses.ApprovedActionRuns` | raiker/runtime/executors/tier1_approval.py:288-373 | approved here with both gates on, a pending executable action runs once and its outcome is recorded |
| `ApprovalCourses.RelayIsUsedFirst` | raiker/api/routes_channels.py:1130-1137 | an answer over a channel uses its open relay up before anything else |
| `ApprovalCourses.RelayedActionRuns` | raiker/api/routes_channels.py:1130-1186 | with both gates on the relayed action then runs, once, and the run is the relay's |
| `ApprovalCourses.DecisionIsRecorded` | raiker/api/routes_approvals.py:591-720 | a denial, or an approval with a gate off, is written to the row and nothing runs |
| `ApprovalCourses.ReplacementIsProposed` | raiker/api/routes_approvals.py:477-500 | a replacement is raised as a pending patch of its own first |
| `ApprovalCourses.ReplacedIsDenied` | raiker/api/routes_approvals.py:477-500 | the one it replaces is then denied under its name |
| `ApprovalCourses.WriteIsDecided` | raiker/api/routes_approvals.py:721-736 | the decision on a connector write is recorded whatever the gates say |
| `ApprovalCourses.WriteIsHeld` | raiker/api/routes_approvals.py:737-747 | approved it is held, denied it is refused |
| `ApprovalCourses.HeldWriteIsSent` | raiker/runtime/held_sends.py:46-64 | at the end of its window a held write is sent once and its outcome recorded |
| `ApprovalCourses.UndoneWriteIsNotSent` | raiker/runtime/held_sends.py:67-74 | undone inside its window it is not sent, and the waiting request says so |
| `ApprovalCourses.ClosedIsRefused` | raiker/approvals/__init__.py:45-64 | at every door an approval that is no longer pending is refused and nothing about it changes |
| `ApprovalCourses.ExpiryClosesPending` | raiker/storage/stores/approvals.py:690-699 | expiry and an owner's answer close pending rows and no others |
| `ApprovalRelays.RelayUsedBeforeItsActionRuns` | raiker/api/routes_channels.py:1130-1155 | at every moment of every run an action run for a relay belongs to it and the relay is already used as approved; no relay is used twice |
| `ApprovalRelays.DenialsNameExistingRows` | raiker/api/routes_approvals.py:477-500 | however replacements race, a denial that names a replacement names another row that exists |
| `ApprovalSends.SendsAtMostOnce` | raiker/api/routes_approvals.py:743-808 | over every interleaving each connector write is sent at most once |
| `ApprovalSends.UndoIsFinal` | raiker/runtime/held_sends.py:67-74 | an undo that changed a row means no continuation sends the write |
| `ApprovalSends.WriteDenialHoldsExactly` | raiker/api/routes_approvals.py:737-742 | after a denial of a write has been answered, no continuation sends it if and only if no approval had taken it into its window by then, or it was undone there |
| `ApprovalSends.DeniedWriteIsNotSent` | raiker/api/routes_approvals.py:721-750 | on one event loop a write whose row says denied has not been sent |
| `ApprovalSends.DeniedWriteCanBeSent` | raiker/api/routes_approvals.py:721-750 | with a second process a run in which it has |
| `Subagents.Effective` | raiker/agents/orchestration.py:88-98 | no dimension above the caller's or the cap's |
| `Subagents.Runner.Run` | raiker/agents/orchestration.py:205-407 | settles the one contract it opens and no other, leaves the identities as it found them, and dispatches a prefix of the steps in order |
| `Subagents.Runner.Finish` | raiker/agents/orchestration.py:282-331 | the contract's final status, the child's identity and an owned parent's ended |
| `Subagents.Runner.CallUntilStop` | raiker/agents/orchestration.py:347-405 | the loop stops at the first step that stops it, before its call for time and call budgets and after it otherwise |
| `Subagents.StaysInBudget` | raiker/agents/orchestration.py:333-402 | for every broker and clock: calls within both budgets and both caps, every tool delegable and allowed or a proposal, no call after the time budget, and the characters of all calls but the last below four for each token of the budget |
| `Subagents.DelegatedExactly` | raiker/agents/orchestration.py:36-38 | a tool may be used exactly if both sides allow it or it is one of the five that propose a change |
| `Subagents.ReportsItsSuccesses` | raiker/agents/orchestration.py:376-405 | the reported count is the number of calls allowed and succeeded |
| `Subagents.SucceedsExactly` | raiker/agents/orchestration.py:333-407 | success if and only if depth, step, tool-call and token budgets hold and every step was allowed and succeeded in time |
| `Subagents.StepTokens` | raiker/agents/orchestration.py:55-59 | four characters of tool name and arguments to a token, and one more |
| `Subagents.TokensCountCharacters` | raiker/agents/orchestration.py:55-59 | the tokens of a list of steps count their characters, to within four for each step |
| `Subagents.LongRunsFail` | raiker/agents/orchestration.py:395-402 | steps with four characters for each token of the budget cannot be a success |
| `Subagents.ShortRunsFit` | raiker/agents/orchestration.py:333-407 | a run with few enough characters that is allowed and succeeds throughout in time is one |
| `Subagents.FirstDisallowedNames` | raiker/agents/orchestration.py:333-346 | the tool a refusal names is the first that may not be used |
| `Subagents.ReasonsAreTrue` | raiker/agents/orchestration.py:333-407 | a run gives a reason exactly when it fails, and the reason holds of it; only a proposed mutation cancels |
| `Subagents.FirstFailureIsFirst` | raiker/agents/orchestration.py:470-489 | a team's reason is that of its first member that has one |
| `Subagents.Coordinator.RunTeam` | raiker/agents/orchestration.py:424-489 | succeeds exactly when there are at most five members and each one's run is good; first failing reason; ledger settled; no contract left running; at most 125 calls |
| `Subagents.Coordinator.RunMembers` | raiker/agents/orchestration.py:470-480 | every member runs, whatever the earlier ones did, and each result is that member's own outcome |
| `Delegation.MappingReadsBack` | raiker/agents/delegation.py:83-107 | the printed claims read back as themselves through the exact field check |
| `Delegation.TokenSplits` | raiker/agents/delegation.py:163-189 | the two halves of a token are the two halves it was made of |
| `Delegation.TokenJoins` | raiker/agents/delegation.py:189-193 | a text with one dot is two halves without dots around it |
| `Delegation.SignedIsAcceptedExactly` | raiker/agents/delegation.py:127-231 | a signed token is accepted, with its own claims, if and only if the expected owner, session, turn and content are its own and the spawn's row agrees; another content is a result mismatch |
| `Delegation.RefusalSaysWhy` | raiker/agents/delegation.py:211-231 | every other expectation of a signed token is refused for the first claim that differs, and the spawn's row last |
| `Delegation.AcceptedIsSigned` | raiker/agents/delegation.py:187-231 | whatever the token and the primitives: an accepted one is two halves, the second the key's signature of the first, with exactly the fields, this version and audience, what is expected, and an agreeing row |
| `Delegation.OtherAudienceIsRefused` | raiker/agents/delegation.py:203-206 | signed claims for another audience are refused as such |
| `Delegation.SwappedResultsAreRefused` | raiker/agents/delegation.py:110-117 | findings exchanged between two spawns of a turn are refused both ways |
| `Delegation.AcceptedWasSigned` | raiker/agents/delegation.py:166-231 | whatever the key has signed, an accepted token whose signature the key issued was signed as a delegation for exactly that owner, session, turn and content |
| `Delegation.SignedIsNotForged` | raiker/agents/delegation.py:127-163 | every token the key's holder hands out meets that assumption, among any other uses of the key |
| `Delegation.GenuineIsAccepted` | raiker/agents/delegation.py:127-231 | such a token is accepted by the parent that expects what it was signed for, so the result above is about it |
| `Delegation.RecordIsNoDelegation` | raiker/agents/delegation.py:87-90 | a machine identity or other record signed with the same key is refused by the field check |
| `Instances.CreationIsSafe` | raiker/api/app.py:442-491 | in every run of creators and readers: one successful creator per name, no name twice, every listed name has its directory and is mounted once or about to be by its creator, nothing else is mounted, every reader was given a whole list the registry still begins with |
| `Instances.NoNameIsLost` | raiker/api/app.py:344-363 | the registry only grows at its end |
| `Instances.FailureRestores` | raiker/api/app.py:467-475 | a failed registration restores directories and registry if and only if its staged directory was removed |
| `Instances.HolderIsUndisturbed` | raiker/api/app.py:461-476 | no other request's step changes disk or lock while one holds it |
| `Instances.RetryGoesThrough` | raiker/api/app.py:461-475 | a retry is staged if the failure removed its directory and refused as existing if not |
| `Instances.StagedExactlyWhenNew` | raiker/api/app.py:461-466 | a request under the lock is refused exactly when the name has a directory, and then lets go with nothing changed |
| `Instances.RegistrationDecides` | raiker/api/app.py:467-476 | whether the account could be registered decides between publishing and undoing |
| `Instances.FailedPublishesNothing` | raiker/api/app.py:467-475 | a request whose registration failed publishes nothing in any continuation |
| `Instances.HolderGoesOn` | raiker/api/app.py:461-491 | whoever holds the lock has a step to take |
| `Instances.CreationGoesThrough` | raiker/api/app.py:442-491 | a new name that nobody is creating gets its directory, its place at the end of the registry and its mount |
| `Redaction.ResidualSecretPaths` | raiker/api/redaction.py:203-242 | the appending walk finds the paths of the recursive definition, in its order |
| `Redaction.AcceptedIsFixed` | raiker/api/redaction.py:144-242 | the checker finds nothing if and only if the redactor would change nothing |
| `Redaction.OnePassSuffices` | raiker/api/redaction.py:144-242 | every redacted body is accepted, and redacting is idempotent, if and only if `redact_text` is idempotent under every setting in use |
| `Redaction.RedactKeepsOutline` | raiker/api/redaction.py:144-196 | keys, order and lengths stay; booleans, counts and every value that is no string and no secret stay |
| `Redaction.CountsAreNamedLikeSecrets` | raiker/events/export.py:15-83 | every key that counts tokens is a secret key by name, so the exemption is what keeps counts |
| `RedactionPlaces.LeavesByPlace` | raiker/api/redaction.py:144-196 | under no secret key each leaf stays at its place: a text redacted under the flags of its nearest key through any lists, anything else unchanged |
| `RedactionPlaces.SecretsByPlace` | raiker/api/redaction.py:161-182 | a secret key discards its value whole, whatever it is, but for a boolean and for an integer or null that counts tokens |
| `RedactionPlaces.NoSecretsLeft` | raiker/api/redaction.py:144-200 | in a redacted body every secret-named field at every depth holds the marker, a boolean or a count |
| `RedactionPlaces.LeaksAreReported` | raiker/api/redaction.py:203-242 | every place that still holds a secret or a text the redactor would change is reported, by its own keys and indices |
| `RedactionPlaces.ReportsLeak` | raiker/api/redaction.py:203-242 | and every path reported is such a place |
| `KeyNames.SecretExactly` | raiker/events/export.py:15-83 | a key is secret exactly when one of the eleven words stands in it in any case |
| `KeyNames.LocatorExactly` | raiker/api/redaction.py:66-125 | a locator by its last word after an underscore, or by its whole name |
| `KeyNames.IdentifierExactly` | raiker/api/redaction.py:77-131 | an identifier by the last word id or ids, repositories excepted |
| `KeyNames.DigestExactly` | raiker/api/redaction.py:94-136 | a digest by its last word alone |
| `KeyNames.ModelExactly` | raiker/api/redaction.py:119-142 | a model by its last word, or a repository |
| `KeyNames.AtMostOneKind` | raiker/api/redaction.py:121-142 | no name is of two kinds, so at most one fallback of the text scan is narrowed |
| `KeyNames.CountNames` | raiker/events/export.py:61-78 | every name with a whole tokens word in it counts |
| `SecretRemoval.SettlesExactlyWithoutClash` | raiker/context/redaction.py:270-278 | removing a secret twice is removing it once, for every text, if and only if secret and marker do not clash: neither inside the other, no overlap where they can meet |
| `SecretRemoval.BodiesSettleExactlyWithoutClash` | raiker/api/redaction.py:121-242 | with the API's own key rules and one secret on loan, every redacted body passes the checker if and only if the secret does not clash with the marker |
| `SecretRemoval.ManySecretsSettle` | raiker/context/redaction.py:270-278 | any number of secrets that keep apart from the marker are all removed by one pass, and a second changes nothing |
| `SecretRemoval.SettlesInAnyCompanyExactly` | raiker/context/redaction.py:241-278 | every registry, longest first, of this secret and otherwise safe ones settles on every text if and only if the secret is safe: apart from the marker, or the marker itself |
| `SecretRemoval.ComesBack` | raiker/context/redaction.py:270-278 | a secret that ends with the marker's beginning is put together again by the removal of another that stood behind its front |
| `SecretRemoval.TwoSecretsUnsettled` | raiker/context/redaction.py:270-278 | two secrets that clash with nothing, and a second pass that changes what the first one left |
| `SecretRemoval.BodiesSettleAsTextsDo` | raiker/api/redaction.py:121-242 | with the API's own key rules and any registry, every redacted body passes the checker if and only if the registry settles on every text |
| `SecretRemoval.ClashingSecrets` | raiker/context/redaction.py:270-278 | a secret inside the marker clashes, and one that begins with the marker's end |
| `ResponseRedaction.Responder.CaptureMessage` | raiker/api/app.py:244-271 | one message updates start, body, pass-through and output as `Capture` says |
| `ResponseRedaction.JsonIsRedacted` | raiker/api/app.py:244-302 | every ordered response whose headers declare JSON or no type leaves as one start and one body that parses to the redaction of what the application produced, unparseable bodies unchanged, on either path; a rewritten one keeps every other header in its place and declares one length, its own (section 8.6 of RFC 9110) |
| `ResponseRedaction.OtherMediaUntouched` | raiker/api/app.py:194-258 | a response whose first content type is of no JSON media type leaves message by message as sent |
| `ResponseRedaction.PathsAgreeExactly` | raiker/api/app.py:260-271 | whatever is sent around it, a rendered body parses the same for the client whether its scope recognises it or not, for every value, if and only if `redact_text` settles |
| `ResponseRedaction.RenderScope.Render` | raiker/api/redaction.py:325-377 | in both branches the rendered bytes parse to the redaction of what the plain rendering parses to, if it does not raise, and the scope recognises that very object; it raises exactly when a value of another shape or the redacted value cannot be rendered |
| `ResponseRedaction.ClientReads` | raiker/api/app.py:244-302 | the client's bytes are those produced on the fast path and their rewriting on the other |
| `ResponseRedaction.ContentReachesClientRedacted` | raiker/api/redaction.py:362-377 | from a route's value to the client: rendered by the response class or by the route, on either path, the client parses the redaction of the value it stands for |
| `ContentTypes.CarriesJsonExactly` | raiker/api/app.py:194-209 | taken for JSON exactly when no header is named content-type in any case, or the first such value is a media type ending in /json or +json in any case, blanks around it and parameters behind it or not |
| `ResponseRedaction.DeclaredJsonIsRedacted` | raiker/api/app.py:194-302 | a response that declares `application/json` or any other JSON type, with or without parameters, reaches the client redacted on either path |
| `ResponseRedaction.UndeclaredIsRedacted` | raiker/api/app.py:194-302 | so does one that declares no type |
| `ResponseRedaction.StreamsLeaveAsSent` | raiker/api/app.py:194-258 | downloads and event streams leave as sent |
| `ResponseRedaction.RedactKeepsKeys` | raiker/api/redaction.py:144-196 | redaction never makes two keys of an object equal |
| `ResponseRedaction.DecimalReadsBack` | raiker/api/app.py:291-291 | the printed length reads back as the length |
| `TypeContract.WireIsFields` | scripts/api_contract.py:613-642 | terminates on cyclic type graphs and answers true exactly when no class reachable from the view breaks the contract |
| `TypeContract.SoundExactly` | scripts/api_contract.py:613-642 | a view keeps the contract exactly when no chain of arguments and declared fields leads from it to a class whose own code makes its JSON |
| `TypeContract.WireSearch.IsFields` | scripts/api_contract.py:613-642 | with any shared `seen`: a true answer settles all it added, a false one has a reachable culprit |
| `TypeContract.DataclassNames` | scripts/api_contract.py:1059-1075 | exactly the dataclasses reachable from the annotation through arguments and declared fields |
| `TypeContract.SettledIsSound` | scripts/api_contract.py:613-642 | what a finished search settled reaches nothing that breaks the contract |
| `LicenceWorklist.PythonComponents` | scripts/licensing_check.py:113-149 | each installed distribution reachable through non-extra requirements once and nothing else, whatever order is popped |
| `LicenceWorklist.NameOf` | scripts/licensing_check.py:146-146 | the longest front without `<>=!~;[` or a blank, letter by letter in lower case with `_` as `-` |
| `LicenceWorklist.ForExtraExactly` | scripts/licensing_check.py:144-144 | a requirement is for an extra exactly when `extra ==` stands somewhere behind a semicolon |
| `LicenceWorklist.DependenciesExactly` | scripts/licensing_check.py:143-148 | the dependencies are the names of the requirements that have one and are for no extra, in order |
| `LicenceWorklist.LicencesInOrder` | scripts/licensing_check.py:131-141 | declared licence, classifier, files; an empty expression hides the licence field |
| `LicenceWorklist.PushDependencies` | scripts/licensing_check.py:143-148 | the non-extra requirements join the pending names in order |
| `LicenceWorklist.NothingMissed` | scripts/licensing_check.py:113-149 | with nothing pending, everything reachable has been resolved |
| `RemoteAccess.Guard.Serve` | raiker/api/proxy_guard.py:286-331 | the verdict, and counters that count exactly what was refused and served; once disabled, nothing more is served |
| `RemoteAccess.Guard.DisableNow` | raiker/api/proxy_guard.py:241-244 | access is off from here, and the record keeps that nothing from the remote listener passed after it |
| `RemoteAccess.RemoteIsNeverLocal` | raiker/api/proxy_guard.py:169-320 | a request on the remote listener passes exactly when access is on and it came over HTTPS or is the health check, and then is never local |
| `RemoteAccess.LocalIsUntouched` | raiker/api/proxy_guard.py:286-300 | what passes as local passed unchanged, on no remote listener, with no forwarding header |
| `RemoteAccess.AddedHeadersNeverMakeLocal` | raiker/api/proxy_guard.py:145-181 | adding headers anywhere never makes a request local |
| `RemoteAccess.LocalExactly` | raiker/api/proxy_guard.py:124-181 | a request reaches the application as local exactly when its peer is a loopback address or one of the two named hosts, over TCP, with no proxy's header in any case, on an address that is not the remote listener's |
| `RemoteAccess.GuardedExactly` | raiker/api/proxy_guard.py:286-320 | when each of the three refusals is given and when a request passes as remote, by listener, switch, encryption and path |
| `RemoteAccess.ProtoSaysHttps` | raiker/api/proxy_guard.py:189-193 | `X-Forwarded-Proto` declares HTTPS exactly when the first entry of its list is https, blanks aside |
| `RemoteAccess.ForwardedSaysHttps` | raiker/api/proxy_guard.py:194-195 | `Forwarded` does exactly when it spells proto=https with nothing but spaces in between |
| `SessionAssurance.RemoteListenerNeedsRemoteMfa` | raiker/api/auth.py:102-125 | from the remote listener only a remote session verified at the account's current epoch authenticates, and only while access is on |
| `SessionAssurance.EpochChangeEndsRemoteSessions` | raiker/auth/accounts.py:431-508 | over every run, a change of enrolment ends all earlier sessions for other devices and as fresh proof, for every later moment, but for one a new enrolment itself verifies |
| `SessionAssurance.ConfirmingSessionGoesOn` | raiker/auth/accounts.py:466-471 | that exception: the confirming session is good remotely at once exactly if it came from another device |
| `SessionAssurance.LevelsAreALadder` | raiker/api/auth.py:27-40 | host control, control, elevated: each level does what the ones before it do, and any other scope only its own |
| `SessionAssurance.LetInExactly` | raiker/api/auth.py:70-125 | let in exactly if not signed out, neither limit passed, the account active and the level reached, and from another device only with a code of the enrolment in force |
| `SessionAssurance.RefusalSaysWhy` | raiker/api/auth.py:70-125 | each refusal names what is missing |
| `SessionAssurance.SignedOutStaysOut` | raiker/api/sessions.py:133-205 | a session ended by sign-out, by signing out others or all, by a retired account or by a change of enrolment opens nothing in any continuation, from anywhere |
| `SessionAssurance.OthersStaySignedIn` | raiker/api/sessions.py:133-205 | no step signs out a session it does not name |
| `SessionAssurance.RetiredStaysOut` | raiker/api/auth.py:89-100 | an account that is no longer active opens nothing by any session it has or is ever given |
| `SessionAssurance.HardLimitHolds` | raiker/api/sessions.py:150-172 | however it is used a session is over once its hard limit has passed |
| `SessionAssurance.IdleSessionEnds` | raiker/api/auth.py:127-150 | a remote session with no use noted for twelve hours is over |
| `SessionAssurance.UseKeepsItGoing` | raiker/api/auth.py:127-150 | each noted use from another device buys exactly twelve hours, up to the hard limit |
| `SessionAssurance.UseProlongsNothingElse` | raiker/api/auth.py:127-150 | no use prolongs a local or an elevated session, and local use prolongs none |
| `SessionAssurance.LimitsStayOrdered` | raiker/api/sessions.py:150-172 | the idle limit never passes the hard one |

## Left out

- Regular expressions of `redact_text`, hashing, HMAC, Ed25519, base64, Fernet and JSON text: given functions with the
  properties each result names; lower-casing is ASCII only, and a float is its bits.
- Stored times are whole seconds. That is exact for the claim and key tables: stored stamps have no fraction, and a cut-off
  with a fraction sorts before the same second without one.
- `_check_no_secrets`: it raises on any secret-named key even when the value is already redacted; the checker modelled is
  `residual_secret_paths`.
- The set of rendered bodies is fixed when a response is sent, and path exemptions of the redaction middleware are not modelled.
- Patch hunk ids are pairs of numbers, not their decimal text.
- `PatchReach.SelectionReachesNoNewFile` and the results on edits go by the header lines: what the applier then refuses for
  its hunks, for a path that is not written the shortest way, or for what is on disk can only shrink what it changes. The
  optional `path` argument of a proposal, which pins the first section's file, is taken as absent.
- `SecretRemoval.SettlesInAnyCompanyExactly`: exact over all registries a secret can be in; a single registry with an unsafe
  secret in it may still settle (alone, exactly without a clash), and which of those do is not decided. The pattern rules
  that run after the removal are not part of these results.
- Receipts beyond the newest 200 of a connector are trimmed by the store; the model keeps all of them.
- Channels: sender labels, audit events and the reply sent back to the owner's own chat. Settling is a step of its own also
  for routes that await nothing, which allows more interleavings than the event loop has.
- Approvals: the checks before a claim (time limit, payload hash, posture, hunk selection) are one refusal that may happen,
  the gates and the target's outcome are arbitrary answers, and the critical lifecycle's own route is not modelled. A host
  that stops in the middle of a request is not modelled.
- Answering an owner question is one conditional update; the shape of the answers (`_checked_answers`) is not checked.
- Subagents: parsing a specification, what the broker returns beyond decision and status, and exceptions out of the broker,
  after which the source itself cleans nothing up.
- Delegation: one active issuer key; key rotation and the event that records a delegation are not modelled.
- Instances: registry reads and writes succeed and an unreadable registry is not distinguished from an empty one beyond
  that; the place of a mounted route among the others and the instance's runtime are not modelled.
- Remote access: which addresses are loopback and which are the same are given tests; HSTS headers, cookies, CSRF checks and
  which uses are noted (at most one a minute) are not modelled.
- Type contracts: resolving annotations and handlers, projections, the OpenAPI and TypeScript printers.
- Licence report: normalising and classifying licences, the final sort, and the package-lock half.
- Desktop shell, installers, browse routes and the other routes of the API.
