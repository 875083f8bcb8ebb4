# MirrorGate verification

MirrorGate supervises untrusted agents and workers: it journals what it owns on disk and
reclaims it after a crash, runs hosted authoring sessions under one lock, relays a small
worker protocol, and checks exact values and source trees at its boundary. This project
models those four cores in Dafny and proves what they promise, for all inputs, runs, crash
points and interleavings. `dafny verify dfyconfig.toml` checks everything.

- **Offline recovery** (`Recovery*.dfy`, `Publication.dfy`). The file system is a tree of
  identity-stamped directories, the journal a map, and a crash a cut between any two durable
  steps. `Recovery.dfy` holds the attempt itself; `RecoveryGuards` says what it may plan to
  remove; `RecoverySteps`, `RecoveryPasses`, `RecoveryFleet`, `RecoveryGroup`,
  `RecoverySafety` and `RecoveryResults` hold what its steps keep. `Publication.dfy` opens up
  the one step the others treat as atomic, under a disk on which only synced data is certain.
- **Sessions and hosted runs** (`HostedRun.dfy`, `Hosting.dfy`, `Operations.dfy`,
  `Sessions.dfy`, `Supervision.dfy`, `Events.dfy`). Every lock section is one step; the
  theorems range over all sequences of steps of all threads. A deadline or a join that gives
  up is a choice. `Supervision.dfy` joins session and run under the lock they share.
- **Worker protocol** (`Worker.dfy`, `Relay.dfy`, `Conversation.dfy`). The worker's event
  loop, the relay's monitor, and the two run together over their pipes.
- **Exact values and source trees** (`Decimals.dfy`, `NumberGrammar.dfy`, `ExactNumbers.dfy`,
  `NumberLexer.dfy`, `JsonTokens.dfy`, `Json.dfy`, `Ordered.dfy`, `KeyText.dfy`,
  `PortableValues.dfy`, `WireForms.dfy`, `CanonicalKeys.dfy`, `CanonicalLoops.dfy`,
  `SourcePaths.dfy`, `SourceView.dfy`, `SourceCopy.dfy`, `SourceSelector.dfy`, `Utf8.dfy`).

Where the code does less than one might expect, the exact condition is proved:

- A claim whose recorded target is not its own quarantine name is lost to recovery by a crash
  right after the rename, and only such a claim (`RecoveryGroup.CrashAfterRename`,
  `RecoveryGroup.AimedMemberLost`).
- The rename to a quarantine name replaces an empty directory there, whoever owns it; a finished
  removal loses something of another owner exactly then (`RecoverySteps.ClearExact`,
  `RecoverySteps.ReplacedLost`).
- A removable claim inside a protected claim's directory is planned for removal
  (`RecoveryGuards.BelowProtected`); everything else in that directory stays
  (`RecoveryPasses.ProtectedStays`).
- A claim holding 64 observations cannot be closed, since closing adds one; convergence asks
  for room (`Recovery.Recoverer.Close`, `Recovery.Recoverer.CrashesThenRerun`).
- An open record that is full, a cgroup whose emptiness is on record and a retained source that
  policy keeps can each end an attempt early, since the journal refuses their next phase
  (`RecoverySteps.StuckExactly`); progress is claimed for journals without such records.
- The receipt refuses identifiers with a leading underscore or hyphen that the journal
  accepts; a snapshot's receipts are coherent exactly without them
  (`RecoveryReceipt.AlwaysCoherent`, `RecoveryReceipt.UnderscoreRefused`).
- The relay refuses an honest answer to a cancellation exactly when a new call overtook it
  (`Conversation.NextCorrelates`, `Conversation.OvertakingHappens`). A successful answer to a
  cancellation sets the relay's lifecycle to ready, as in the code, so only the worker's own
  poisoned state is absorbing.
- With a retention bound of 0 the finished cleanup operation is evicted and can no longer be
  joined (`Sessions.SessionState.Cleanup`, `Sessions.CleanupForgotten`).
- Events of a dispatch leave without its response exactly on a closing connection
  (`Events.ClosingFlushes`).
- Clipping the exponent is harmless within the byte bound and not beyond it
  (`ExactNumbers.ClippingHarmless`, `ExactNumbers.ClippingNeedsBound`).

## Model

| member | source | states |
|---|---|---|
| Recovery.Recoverer.CrashesThenRerun | supervisor/mirrorgate/recovery.py:109-273 | Restart convergence: from a journal with nothing protected, claims at distinct paths and nested groups together, trees within the removal budget and an observation to spare per attempt, any number of attempts, each cut off at any step boundary or not, then one undisturbed attempt, with the journal and tree between them on record. Each attempt advances records only and takes from resources only what a removable claim accounts for; unless one of them left a claim open whose tree had lost an entry, the last ends with every record reclaimed and every claim gone from its path and its target |
| Recovery.Recoverer.Reclaim | supervisor/mirrorgate/recovery.py:109-273 | One attempt over any journal, cut off anywhere: its items account for the whole snapshot, records only advance, and only claims that may be removed give up entries. No entry of another owner or device is lost, unless a claim aimed elsewhere finds one at its own quarantine name. Whatever else the journal holds, if claims have distinct paths and every root is at its own path or aimed at its own quarantine name, each planned group that was in order ends, stays together or has lost an entry, no root that held anything of another owner or device is recorded as reclaimed, and, if also no open record is stuck, undisturbed each group in order and within budget ends reclaimed. From a journal without protected claims every group is still together unless torn, and undisturbed and within budget everything is reclaimed and every item says recovered, but for cgroups reclaimed earlier without evidence |
| Recovery.Recoverer.PlanRemoval | supervisor/mirrorgate/recovery.py:121-221 | The passes before any removal, over the journal itself: call a record spared if it is not plannable and, after the review, not this owner's and reclaimed. A plannable claim is in a group if and only if no spared record bars it, then in exactly one; no root lies above another; no root is at or above the recorded path of a spared record, none shares a session with a spared record without a path or belongs to the controller while there is one; every protected claim is spared. Undisturbed, planning finishes if no open record is stuck |
| RecoveryGuards.RemovalSet | supervisor/mirrorgate/recovery.py:183-221 | Snapshot, review, guards, the plans they leave and the grouping of those add up to that statement |
| RecoveryGuards.BlockedWhenBarred | supervisor/mirrorgate/recovery.py:183-194 | The guards block a plan if and only if some spared record of the journal bars it |
| RecoveryGuards.ResultsAgree | supervisor/mirrorgate/recovery.py:126-181 | The results of the review speak against exactly the records that are neither plannable nor, by then, this owner's and reclaimed |
| RecoveryPasses.Converges | supervisor/mirrorgate/recovery.py:109-273 | Convergence for any run of attempts, from what one attempt promises |
| RecoveryPasses.ProtectedStays | supervisor/mirrorgate/recovery.py:183-221 | However an attempt is cut off, the directory of a protected claim stays, with every entry in it that no removable claim further down accounts for |
| RecoveryGuards.BelowProtected | supervisor/mirrorgate/recovery.py:183-194 | A concrete journal and tree: our claim inside another owner's claimed directory is planned for removal whatever the review does, so only claims above a protected one are held back |
| RecoveryPasses.RootsYield | supervisor/mirrorgate/recovery.py:210-262 | Whatever goes from resources lies below a root of the plan, so it belongs to a claim with no protected claim at or below it that keeps clear of every record left open |
| RecoveryPasses.SessionsQuiet | supervisor/mirrorgate/recovery.py:183-194 | However an attempt is cut off, what it took from resources belongs to a claim in whose session every process and cgroup of ours without a guarded path ends reclaimed, and to the controller's session only if that holds of all sessions |
| RecoveryPasses.StillSafe | supervisor/mirrorgate/recovery.py:210-262 | The plan is as safe against the journal the attempt leaves as against the one it was made from |
| RecoveryPasses.PlannedForeign | supervisor/mirrorgate/recovery.py:210-221 | Claims at distinct places that can all be moved on make groups that share no path, name or record |
| RecoveryPasses.UnderwayNext | supervisor/mirrorgate/recovery.py:222-262 | One group's turn, whatever comes of it, leaves every other group that was in order as it was |
| RecoveryPasses.DoneNext | supervisor/mirrorgate/recovery.py:222-262 | Undisturbed, each group in order and within budget ends at its turn, and stays ended |
| RecoveryFleet.RenameLosesNothing | supervisor/mirrorgate/recovery.py:559-571 | The rename to the quarantine name loses no entry of the claim, so a crash right after it tears nothing |
| RecoveryFleet.FetchedLoses | supervisor/mirrorgate/recovery.py:577-581 | Any entry unlinked from the fetched tree is one the claim has lost |
| Recovery.Recoverer.Attempts | supervisor/mirrorgate/recovery.py:109-273 | No early terminal record: over any number of attempts cut off anywhere, a claim recovery records as reclaimed had its own directory at neither of its two places when that was recorded, and never has it there again |
| Recovery.Recoverer.NeverBack | supervisor/mirrorgate/recovery.py:577-599 | Every claim reclaimed since recovery first saw the journal is gone from both places, now and at the moment it was recorded |
| Recovery.Recoverer.constructor | supervisor/mirrorgate/recovery.py:109-115 | Recovery starts on a well-formed journal and tree with nothing closed; the claims already reclaimed are remembered apart |
| Recovery.Recoverer.ReclaimGroup | supervisor/mirrorgate/recovery.py:222-262 | One group, cut off anywhere: only its own records change; unless its root is found at a foreign target nothing of the tree changes but its own two places; nothing of another owner or device goes, and a root that held any is not recorded as reclaimed; a group in order stays together while its tree has lost no entry; a recovered root closes every member; undisturbed it never stops the attempt if all its claims can be closed, and in order and within budget it is recovered |
| Recovery.Recoverer.ReclaimFilesystem | supervisor/mirrorgate/recovery.py:511-599 | Removing one root, cut off anywhere: reported as recovered only when its record is terminal and both places are empty; nothing of another owner or device goes, and if the claim held any its record does not become reclaimed; a group in order stays together while its tree has lost no entry, and nothing else in the tree changes |
| Recovery.Recoverer.Carry | supervisor/mirrorgate/recovery.py:540-599 | From the second validation on, the same promises as for the whole removal, and the exact loss of a finished one |
| Recovery.Recoverer.Fetch | supervisor/mirrorgate/recovery.py:559-571 | The tree moves to its quarantine name or stays; an aimed group is together on both sides of the rename and keeps within its budget |
| Recovery.Recoverer.Clear | supervisor/mirrorgate/recovery.py:559-588 | Rename and removal together leave exactly the old tree without the claim, or an error or a cut; what goes is ours, and a finished removal found nothing else in the claim and lost, of what is not ours, exactly the directory its rename replaced; an aimed group that lost no entry is still together and within budget |
| Recovery.Recoverer.Empty | supervisor/mirrorgate/recovery.py:577-581 | Only entries below the quarantine name disappear, all of them of this owner and on the claim's device; a finished removal leaves exactly the rest |
| Recovery.Recoverer.Conclude | supervisor/mirrorgate/recovery.py:582-599 | The terminal record is written only for a finished removal, a failure keeps the claim open for a retry |
| Recovery.Recoverer.Intend | supervisor/mirrorgate/recovery.py:519-536 | Cleanup intent with a target is on record before anything is touched; a target recorded earlier is kept |
| Recovery.Recoverer.Prepare | supervisor/mirrorgate/recovery.py:236-248 | A member gets exactly the place its root's rename will give it, and the group stays together |
| Recovery.Recoverer.PrepareAll | supervisor/mirrorgate/recovery.py:236-248 | All members are aimed before the root is touched, and no record gains an observation |
| Recovery.Recoverer.TargetsAgree | supervisor/mirrorgate/recovery.py:222-235 | True exactly when no member's recorded target contradicts the root's rename |
| Recovery.Recoverer.CloseAll | supervisor/mirrorgate/recovery.py:253-262 | Members are recorded as reclaimed only below a root whose path and quarantine name are both empty |
| Recovery.Recoverer.MarkAmbiguous | supervisor/mirrorgate/recovery.py:425-433 | A terminal record is only reported, any other becomes ambiguous; nothing already closed reopens |
| RecoverySteps.StuckExactly | supervisor/mirrorgate/recovery_journal.py:268-297 | When a record is stuck: it can be marked ambiguous if and only if it holds fewer than 64 observations and no evidence of emptiness, and its cleanup can be intended if and only if it is no retained source or policy lets it go |
| RecoverySteps.MovableFits | supervisor/mirrorgate/recovery_journal.py:528-559 | A record that is not stuck can make every move recovery asks of it |
| Recovery.Recoverer.Publish | supervisor/mirrorgate/recovery_journal.py:593-634 | One record is replaced as a whole or not at all, and only by one the journal's validation accepts |
| Recovery.Recoverer.Transition | supervisor/mirrorgate/recovery_journal.py:528-559 | Only moves of the phase graph succeed, with the target and the observation added; a reclaimed claim is logged with the tree at that moment |
| Recovery.Recoverer.Step | supervisor/mirrorgate/recovery_journal.py:528-559 | A transition that closes no directory claim keeps every closure true |
| Recovery.Recoverer.SetTarget | supervisor/mirrorgate/recovery_journal.py:561-570 | A target is fixed once, during cleanup intent |
| Recovery.Recoverer.BeginCleanup | supervisor/mirrorgate/recovery_journal.py:572-579 | Ends in cleanup intent or in the terminal phase already reached, changing nothing else |
| Recovery.Recoverer.FinishFailed | supervisor/mirrorgate/recovery_journal.py:581-591 | An incomplete cleanup ends as failed or in the terminal phase already reached |
| Recovery.Recoverer.Rename | supervisor/mirrorgate/recovery.py:559-571 | The tree is moved as a whole onto the quarantine name or left alone, and every closure stays true |
| Recovery.Recoverer.Close | supervisor/mirrorgate/recovery.py:594-599 | The terminal record of a claim that is provably gone; undisturbed it succeeds if and only if the record holds fewer than 64 observations |
| Recovery.Recoverer.Fail | supervisor/mirrorgate/recovery.py:582-588 | A failed removal leaves the record failed, so it can be tried again, and keeps an aimed group together |
| Recovery.Recoverer.Defer | supervisor/mirrorgate/recovery.py:198-205 | Begin and fail at once: reported as failed and left retryable |
| Recovery.Recoverer.Finish | supervisor/mirrorgate/recovery.py:393-422 | A process or cgroup seen to be empty is recorded as reclaimed with what was seen |
| Recovery.Recoverer.ReclaimProcess | supervisor/mirrorgate/recovery.py:393-422 | A covered process is recovered exactly when its covering cgroup, linked by exact identity, owner and boot, was reclaimed empty; it is retryable exactly while that cgroup is still open |
| Recovery.Recoverer.ReclaimCgroup | supervisor/mirrorgate/recovery.py:299-390 | For every sight the kernel offers: recovered if and only if the recorded cgroup of this boot is seen empty, or is missing with its emptiness already on record; failed if and only if it is seen busy; doubtful otherwise |
| Recovery.Recoverer.FinishCgroup | supervisor/mirrorgate/recovery.py:359-386 | The emptiness evidence of a grouped cgroup is on record before it counts as reclaimed |
| Recovery.Recoverer.KeepEvidence | supervisor/mirrorgate/recovery.py:362-365 | Only the evidence changes |
| Recovery.Recoverer.Review | supervisor/mirrorgate/recovery.py:126-181 | Every record is planned for removal exactly when it is an open owned claim found at one of its places, or gets one result, which spares it exactly when it is ours and reclaimed by then; whatever is not spared is guarded at its recorded path |
| Recovery.Recoverer.ReviewUnplaced | supervisor/mirrorgate/recovery.py:148-174 | Processes and cgroups: doubtful without covering evidence, failed when an earlier cleanup failed |
| Recovery.Recoverer.TakeSnapshot | supervisor/mirrorgate/recovery.py:121-126 | Every record once, cgroups first |
| Recovery.Recoverer.ReviewAll | supervisor/mirrorgate/recovery.py:124-182 | The first pass accounts for every record, plans every plannable one and guards every other with its id, session and recorded path; its items spare exactly what is reclaimed by then; with nothing protected it changes nothing, and undisturbed it finishes if no open record is stuck |
| Recovery.Recoverer.Hold | supervisor/mirrorgate/recovery.py:195-207 | A blocked plan is retryable exactly when every blocker failed before, doubtful otherwise |
| Recovery.Recoverer.HoldBlocked | supervisor/mirrorgate/recovery.py:183-209 | The plans left are exactly those no guard blocks; the others have a result, and no other record changes |
| Recovery.Recoverer.RemoveGroups | supervisor/mirrorgate/recovery.py:222-262 | Every group that was in order ends reclaimed, is kept together, or has lost an entry, whatever happens to the others, and nothing but the groups' records and the trees below their roots changes; entries of other owners and devices are all still there unless one stood where a rename put a claim; undisturbed, each group in order and within budget ends reclaimed and is reported so |
| RecoveryFleet.ClaimLocated | supervisor/mirrorgate/recovery.py:448-491 | Between attempts every open claim is found, at exactly one of its recorded path and its target |
| RecoveryFleet.FreshFleet | supervisor/mirrorgate/recovery.py:210-262 | Claims with no target fixed and each at its own path are such a journal |
| RecoveryFleet.UntouchedFleet | supervisor/mirrorgate/recovery.py:109-181 | In plain words: our directories and recoverable retained sources in use, each at its own path with its own stamp, no two at one path and nothing yet quarantined, are such a journal and tree |
| RecoveryFleet.TopExists | supervisor/mirrorgate/recovery.py:210-221 | Every claim lies in the group of some outermost one |
| RecoveryFleet.SeparateKeeps | supervisor/mirrorgate/recovery.py:222-262 | Whatever one group's removal does, a separate group is as it was |
| RecoveryGroup.MemberLocated | supervisor/mirrorgate/recovery.py:448-491 | Every member of a group is found at exactly one of its path and its target, all on the same side of the rename |
| RecoveryGroup.AimKeeps | supervisor/mirrorgate/recovery.py:236-248 | Fixing a member's target keeps the group together on either side of the rename |
| RecoveryGroup.RenameKeeps | supervisor/mirrorgate/recovery.py:559-571 | Once all members are aimed, the rename is allowed and carries the whole group over |
| RecoveryGroup.CrashAfterRename | supervisor/mirrorgate/recovery.py:511-571 | A crash right after the rename is recoverable if and only if the recorded target is the claim's own quarantine name |
| RecoveryGroup.AimedMemberLost | supervisor/mirrorgate/recovery.py:448-571 | A claim aimed below another root, found before its own rename and refused after it |
| RecoveryPlan.GroupPlans | supervisor/mirrorgate/recovery.py:210-221 | The loop over plans by depth puts every plan into one group, members strictly below their root, roots outermost |
| RecoveryPlan.FindGroup | supervisor/mirrorgate/recovery.py:214-217 | The first group whose root lies strictly above the record, or none |
| RecoveryPlan.Blockers | supervisor/mirrorgate/recovery.py:184-194 | Exactly the guards that block the plan |
| RecoveryRecords.Locate | supervisor/mirrorgate/recovery.py:448-491 | A claim is located only where its own identity is, and then nothing is at its other place |
| RecoveryRecords.LocateExactly | supervisor/mirrorgate/recovery.py:448-491 | A claim is found at a place if and only if its own directory is there and its other place is free; and when it counts as missing, duplicate, incomplete or outside |
| RecoveryRecords.PhaseSources | supervisor/mirrorgate/recovery_journal.py:28-41 | Where each phase may be entered from: cleanup from every open phase, failure and reclaimed from intended cleanup only, doubt from every open phase, and nothing leads out of the two terminal phases |
| RecoveryRemoval.Remover.RemoveTree | supervisor/mirrorgate/recovery.py:602-630 | Only entries below the tree disappear, all of this owner and on the same device, in any order and cut off anywhere; finished, exactly the tree is gone and every entry was counted; it finishes only within depth, budget, device and owner, and undisturbed always then |
| RecoveryRemoval.Remover.RemoveBelow | supervisor/mirrorgate/recovery.py:602-630 | The same for the contents of one directory |
| RecoveryRemoval.Remover.RemoveEntry | supervisor/mirrorgate/recovery.py:602-630 | The same for one entry |
| RecoveryRemoval.Remover.Unlink | supervisor/mirrorgate/recovery.py:602-630 | One name disappears with all there is below it, or nothing changes |
| RecoveryRemoval.Remover.Admit | supervisor/mirrorgate/recovery.py:602-630 | An entry is counted, and admitted only within budget and if it is this owner's and on the same device |
| RecoveryRemoval.MoveEnough | supervisor/mirrorgate/recovery.py:559-581 | A tree that fits the removal budget still fits it after the rename |
| RecoveryRemoval.CopiesMoved | supervisor/mirrorgate/recovery.py:559-571 | A rename carries every entry along and loses exactly the empty directory it replaces, if there is one |
| RecoveryRemoval.CopiesKept | supervisor/mirrorgate/recovery.py:602-630 | A removal that takes only this owner's entries on one device leaves as many of every other as before |
| RecoverySteps.ClearExact | supervisor/mirrorgate/recovery.py:559-588 | So a finished clearing loses something of another owner or device if and only if it stood at the quarantine name of a claim found elsewhere |
| RecoverySteps.ReplacedLost | supervisor/mirrorgate/recovery.py:559-571 | A concrete tree: the rename of a claim aimed elsewhere is allowed and replaces another owner's empty directory |
| RecoveryPasses.ConservingNext | supervisor/mirrorgate/recovery.py:222-262 | One group's turn leaves every entry of another owner or device, and nothing in the way of the later ones |
| RecoveryPasses.ForeignClosed | supervisor/mirrorgate/recovery.py:222-262 | What a root held to begin with decides whether it may be recorded as reclaimed, whatever other groups do meanwhile |
| RecoveryResults.ConfirmedCloses | supervisor/mirrorgate/recovery.py:263-296 | A complete account in which every item says recovered closes every record of the snapshot |
| RecoveryResults.AccountMore | supervisor/mirrorgate/recovery.py:253-262 | Adding the results of a group keeps the account: one result a record, closed records closed |
| RecoverySafety.RootClosed | supervisor/mirrorgate/recovery.py:559-599 | After a finished removal nothing in the tree carries the claim's identity |
| RecoverySafety.MemberSettled | supervisor/mirrorgate/recovery.py:253-262 | A claim below a reclaimed root has both its places below the root's two empty places, so it is gone too |
| RecoverySafety.SettledMove | supervisor/mirrorgate/recovery.py:559-571 | A rename of another claim never brings a closed claim's directory back |
| RecoverySafety.SettledPruned | supervisor/mirrorgate/recovery.py:602-630 | Nor does any removal |
| RecoveryTree.MoveWellFormed | supervisor/mirrorgate/recovery.py:559-571 | A permitted rename leaves a tree in which every entry hangs from directories and no directory has two names |
| RecoveryReceipt.ReceiptSound | supervisor/mirrorgate/recovery_receipt.py:73-225 | Each record has at most one result; the receipt's lists are coherent if and only if every reported name starts with a character the receipt accepts; a confirmed receipt means the whole snapshot is reclaimed |
| RecoveryReceipt.StatusMeans | supervisor/mirrorgate/recovery_receipt.py:177-184 | Over any items: the status is failed if and only if some item failed, and confirmed if and only if there are items and all say recovered |
| RecoveryReceipt.ListsMean | supervisor/mirrorgate/recovery_receipt.py:187-225 | Each row says of its item what it was about and how it ended, and the remaining resources are, in order, exactly those that failed or stayed in doubt or unconfirmed |
| Recovery.Recoverer.ReclaimWithReceipt | supervisor/mirrorgate/recovery.py:109-296 | An attempt that ends and whose rows are accepted gives a coherent receipt; confirmed, it means every record is reclaimed. Undisturbed, on a nonempty fleet within budget with names a receipt can spell, there is a receipt, and it is confirmed if and only if no cgroup was reclaimed earlier without evidence |
| RecoveryReceipt.ReceiptChecked | supervisor/mirrorgate/recovery_receipt.py:73-100 | Rows that pass the check are all a coherent receipt needs, and an attempt on spellable records passes |
| RecoveryPasses.FleetResults | supervisor/mirrorgate/recovery.py:126-181 | Without protected claims the first pass reports exactly what was reclaimed before, all as recovered but for cgroups without evidence |
| RecoveryPasses.ClearedNext | supervisor/mirrorgate/recovery.py:222-262 | Undisturbed, a group in order and within budget is reported recovered, root and members |
| RecoveryReceipt.AlwaysCoherent | supervisor/mirrorgate/recovery_receipt.py:73-184 | Known before any attempt: every account of a snapshot makes a coherent receipt if and only if no record of it has an id or session with a leading underscore or hyphen |
| RecoveryReceipt.UnderscoreRefused | supervisor/mirrorgate/recovery_receipt.py:32-35 | A record the journal accepts, named _a, whose receipt is refused whatever became of it |
| RecoveryReceipt.ConfirmedReclaims | supervisor/mirrorgate/recovery_receipt.py:177-184 | A confirmed status implies that every record of the snapshot ends reclaimed |
| RecoveryReceipt.CheckRows | supervisor/mirrorgate/recovery_receipt.py:73-100 | The pass with the identifiers seen so far accepts exactly the lists of distinct, well-formed rows |
| RecoveryReceipt.NoMoreItems | supervisor/mirrorgate/recovery.py:263-296 | An attempt never reports more items than it saw records |
| RecoveryReceipt.JournalIdAccepted | supervisor/mirrorgate/recovery_receipt.py:32-35 | The journal allows exactly the identifiers the receipt accepts and those that differ from one only by a leading underscore or hyphen |
| RecoveryReceipt.ReceiptIdMeans | supervisor/mirrorgate/recovery_receipt.py:32-35 | The identifiers a receipt accepts, in ASCII codes |
| Publication.JournalDisk.Publish | supervisor/mirrorgate/recovery_journal.py:593-634 | Atomic publication: wherever it is cut off, and whatever unsynced data survives, the record is exactly the old or the new one and all others are untouched; after it the new one is durable, after a failure the old one, and the disk is as quiet as before; undisturbed, it publishes unless it was to create a record that is there |
| Publication.JournalDisk.PublishAll | supervisor/mirrorgate/recovery_journal.py:593-634 | Any sequence of publications up to the first cut off or left unsynced: whatever a crash then keeps, every record is the last one published under its name, or the one under way; undisturbed, all are carried out and each is published unless it was to create a record there by then |
| Publication.QuietCrash | supervisor/mirrorgate/recovery_journal.py:593-634 | Between publications a crash changes no record |
| Publication.StillQuiet | supervisor/mirrorgate/recovery_journal.py:593-627 | Before the rename every record is exactly as it was |
| Publication.JournalDisk.WriteAll | supervisor/mirrorgate/recovery_journal.py:612-618 | Pieces of any size end with the whole content in the file, unsynced, or in an error |
| Publication.JournalDisk.Unlink | supervisor/mirrorgate/recovery_journal.py:628-634 | Removing the temporary name keeps every record durable |
| Publication.InstallingSafe | supervisor/mirrorgate/recovery_journal.py:593-634 | At every step before the rename a crash leaves the old record, after it the old or the new one |
| Publication.OutcomeSafe | supervisor/mirrorgate/recovery_journal.py:593-634 | The same for one particular choice of what the disk kept |
| Publication.Inspect | supervisor/mirrorgate/recovery_journal.py:672-698 | The entries split into records and invalid ones, every leftover temporary name among the invalid |
| Publication.ClaimAllowed | supervisor/mirrorgate/recovery_journal.py:492-526 | A new claim goes ahead if and only if there is room, the name is free, and every entry has a record name of at most 517 characters, is no leftover temporary and decodes |
| Publication.CrashReported | supervisor/mirrorgate/recovery_journal.py:672-698 | After a crash every entry is a temporary name, the published record old or new, or a record as it was |
| ExactNumbers.ExactNumber | runtimes/rust/src/strict.rs:197-282 | On every token: succeeds if and only if it is a JSON number (section 6 of RFC 8259) whose value, the exponent clipped at a million, is an integer of magnitude at most 2^53-1, and returns its canonical decimal; on tokens of at most 262,144 bytes that is the exact value |
| ExactNumbers.ClippedExact | runtimes/rust/src/strict.rs:235-240 | On a token within the byte bound the clipped and the exact reading give the same safe integers |
| ExactNumbers.ScanNumber | runtimes/rust/src/strict.rs:197-250 | The scan finds the pieces of a number exactly when the grammar does |
| ExactNumbers.ScanWhole | runtimes/rust/src/strict.rs:202-213 | The integer part as the grammar reads it |
| ExactNumbers.ScanFraction | runtimes/rust/src/strict.rs:214-226 | The fraction as the grammar reads it |
| ExactNumbers.ScanExponent | runtimes/rust/src/strict.rs:227-247 | The exponent as the grammar reads it, clipped |
| ExactNumbers.ScanExponentDigits | runtimes/rust/src/strict.rs:235-240 | Clipping after every digit equals clipping the whole exponent |
| ExactNumbers.ShiftDigits | runtimes/rust/src/strict.rs:251-282 | The canonical decimal of the value the pieces denote, exactly when that is a safe integer |
| ExactNumbers.Rescale | runtimes/rust/src/strict.rs:255-282 | Shifting the significant digits gives the safe integer they denote at that scale, if there is one |
| ExactNumbers.ClippingHarmless | runtimes/rust/src/strict.rs:235-240 | Within the byte bound no safe integer is gained or lost by clipping the exponent at 1,000,000 |
| ExactNumbers.ClippingNeedsBound | runtimes/rust/src/strict.rs:235-240 | A token past the byte bound that spells the value 1, and no integer once its exponent is clipped |
| NumberGrammar.ParseExact | runtimes/rust/src/strict.rs:197-250 | The grammar of section 6 of RFC 8259 is unambiguous and the parser accepts exactly it |
| NumberLexer.NormalizeNumbers | runtimes/rust/src/strict.rs:158-195 | On every text whose number tokens are within the byte bound: fails exactly when some number token is not a safe integer; otherwise every number token is replaced by its canonical decimal and every other segment, string literals included, is copied; the segments put together are the text |
| JsonTokens.NormalizeTokens | runtimes/rust/src/strict.rs:158-195 | On every JSON text given by its tokens (string literals with any escapes, numbers of RFC 8259 section 6, the three names, the six structural characters, white space; no number running into a number or a name): fails if and only if some number denotes no safe integer; otherwise the result is the same tokens with every number in the plain decimal of what it denotes |
| JsonTokens.TokensNormalized | runtimes/rust/src/strict.rs:158-195 | What the segmentation of a spelt text comes to, token by token |
| JsonTokens.LiteralSpelt | runtimes/rust/src/strict.rs:164-175 | The scan of a spelt string literal ends behind its closing quote, whatever the escapes and whatever follows |
| JsonTokens.NumFirst | runtimes/rust/src/strict.rs:176-188 | A spelt number is read to its last character and no further |
| JsonTokens.SpeltCanonical | runtimes/rust/src/strict.rs:197-277 | A spelt number has a canonical form if and only if it denotes a safe integer, and then its decimal |
| NumberLexer.NormalizeTwice | runtimes/rust/src/strict.rs:158-195 | The output of the loop can be given to it again and comes back unchanged |
| NumberLexer.FlattenLex | runtimes/rust/src/strict.rs:158-195 | The segments put together are the text |
| NumberLexer.Relex | runtimes/rust/src/strict.rs:158-195 | Lexing the output again finds the same segmentation |
| NumberLexer.RewriteIdempotent | runtimes/rust/src/strict.rs:158-195 | The output is accepted and normalises to itself |
| NumberLexer.FirstAfterRewrite | runtimes/rust/src/strict.rs:176-188 | A replaced token is still the first segment found, whatever follows |
| NumberLexer.SkipLiteral | runtimes/rust/src/strict.rs:164-175 | The scan of a string literal ends where the literal does, escapes included |
| NumberLexer.ReadNumber | runtimes/rust/src/strict.rs:176-188 | The token read is the first number segment and its replacement the canonical decimal |
| Json.CheckBounds | runtimes/rust/src/strict.rs:12-45 | The worklist that refuses early accepts exactly the values within the node and depth bounds |
| Json.JsonBounds | supervisor/mirrorgate/protocol.py:76-96 | The worklist that counts only what it pops accepts exactly the same values |
| Json.OpenSpends | runtimes/rust/src/strict.rs:12-45 | Replacing a value on the worklist by its children spends exactly one node |
| Json.OpenKeeps | runtimes/rust/src/strict.rs:12-45 | And keeps the verdict on the whole worklist |
| CanonicalKeys.KeysExact | runtimes/rust/src/value.rs:114-214 | For every portable type and any two values valid for it: the Rust keys are equal if and only if the values mean the same if and only if the Python keys are equal |
| CanonicalKeys.KeysAccept | supervisor/mirrorgate/protocol.py:328-397 | For every type and value: the Rust validator yields a key if and only if the value inhabits the type if and only if the Python validator yields one, nested duplicate sets included |
| WireForms.SpellsExact | supervisor/mirrorgate/protocol.py:328-397 | For every type, value and meaning: the value is one of the written forms of that meaning, given by literal objects with their tags and no further members, if and only if the type admits it and it denotes that meaning |
| WireForms.IntegerForm | supervisor/mirrorgate/protocol.py:334-341 | The forms of an integer are the one object with its canonical decimal, and nothing else is read as it |
| CanonicalKeys.IntegerCanonical | runtimes/rust/src/value.rs:216-224 | The accepted integer texts are exactly the canonical decimals, one for each integer |
| CanonicalKeys.SetKeyed | runtimes/rust/src/value.rs:133-143 | A set of valid members is accepted by either validator exactly when no two members mean the same |
| CanonicalKeys.SetExact | runtimes/rust/src/value.rs:133-143 | Set keys agree exactly when the sets do, in either language |
| CanonicalKeys.MapExact | runtimes/rust/src/value.rs:179-197 | Map keys agree exactly when the maps do, in either language |
| CanonicalKeys.RecordExact | runtimes/rust/src/value.rs:165-178 | Record keys agree exactly when all fields mean the same |
| CanonicalKeys.TupleExact | runtimes/rust/src/value.rs:152-164 | Tuple keys agree exactly when all parts mean the same |
| CanonicalKeys.VariantExact | runtimes/rust/src/value.rs:198-209 | Variant keys agree exactly when tag and value do |
| KeyText.ArrayTextInjective | runtimes/rust/src/value.rs:133-164 | Different lists of member keys never serialise to the same text |
| KeyText.ObjectTextInjective | runtimes/rust/src/value.rs:165-197 | Different tables of keys never serialise to the same text |
| KeyText.EscapePrefixFree | runtimes/rust/src/value.rs:130-132 | The string escapes form a prefix code, so a quoted key ends where it ends |
| KeyText.QuoteRead | runtimes/rust/src/value.rs:130-132 | A quoted string read back by the escapes of section 7 of RFC 8259 is the string |
| CanonicalLoops.Canonical | runtimes/rust/src/value.rs:114-214 | The recursion with its ordered sets and maps computes the key function the lemmas are about |
| CanonicalLoops.CanonicalSet | runtimes/rust/src/value.rs:133-143 | The loop over members fails exactly on a bad member or a repeated key and otherwise orders the keys |
| CanonicalLoops.CanonicalItems | runtimes/rust/src/value.rs:144-151 | All member keys in order, or none if one is refused |
| CanonicalLoops.CanonicalParts | runtimes/rust/src/value.rs:152-164 | All part keys in order, each at its own type |
| CanonicalLoops.CanonicalRecord | runtimes/rust/src/value.rs:165-178 | Exactly the declared fields, whatever their order in the value |
| CanonicalLoops.CanonicalMap | runtimes/rust/src/value.rs:179-197 | Entries in any order, refused on a repeated key |
| CanonicalLoops.CanonicalCollection | runtimes/rust/src/value.rs:133-197 | The collection cases together |
| CanonicalLoops.Validate | runtimes/rust/src/value.rs:108-113 | Accepts exactly the values within bounds that inhabit the type |
| SourceSelector.ViewOf | supervisor/mirrorgate/source_view.py:117-183 | A stated selection is delivered if and only if it is well stated, meets the workspace nowhere, and everything it names may be copied; the view is then the source restricted to the include paths and their ancestors, contents included, nothing in it lies in the workspace, and the manifest lists it once each in component order within both budgets |
| SourceView.EntryOkMeans | supervisor/mirrorgate/source_view.py:523-557 | An entry may be copied if and only if its name is not empty, a dot or two dots, holds no slash or zero and takes at most 255 bytes, its path as written takes at most 1024, and it is a directory at most 64 deep other than the workspace or a file with one link |
| SourceSelector.Crossed | supervisor/mirrorgate/source_view.py:476-557 | So nothing but plainly named directories and single-link files crosses, files with their content and executable bit |
| SourceSelector.CanonicalMeans | supervisor/mirrorgate/source_view.py:215-225 | An include path is accepted if and only if every component is a plain name and the path as written takes at most 1024 bytes |
| SourceSelector.ViewTwice | supervisor/mirrorgate/source_view.py:153-154 | The same paths in another order give the same verdict, view and manifest |
| SourceSelector.CheckSelector | supervisor/mirrorgate/source_view.py:228-255 | Accepts exactly the lists within count and bytes of canonical paths of which none is or leads to another |
| SourceSelector.CheckApart | supervisor/mirrorgate/source_view.py:138-144 | Refuses exactly a workspace that holds the source or that an include path leads to, is, or lies in |
| SourceSelector.ApartFromCopy | supervisor/mirrorgate/source_view.py:138-144 | Then nothing that is copied lies in the workspace |
| SourceSelector.SameWhenReordered | supervisor/mirrorgate/source_view.py:228-255 | Whether a list is well stated does not depend on its order |
| SourceCopy.Materialize | supervisor/mirrorgate/source_view.py:145-183 | Accepted exactly when the selection may be copied; the view is the restriction, the manifest its ordered listing |
| SourceCopy.ListingUnique | supervisor/mirrorgate/source_view.py:182-183 | A manifest in order is determined by what it lists |
| SourceCopy.CheckPicks | supervisor/mirrorgate/source_view.py:228-236 | Looking up proper prefixes finds every overlap and counting finds every repeat |
| SourceCopy.SortPicks | supervisor/mirrorgate/source_view.py:153-154 | The same paths, strictly ascending by components |
| SourceCopy.CopyState.MaterializePick | supervisor/mirrorgate/source_view.py:476-520 | One include path adds exactly itself, its missing ancestors and all below it, or fails exactly when that may not be copied |
| SourceCopy.CopyState.EnsureAncestor | supervisor/mirrorgate/source_view.py:558-563 | A missing ancestor is added once, in order; a refusal means the path cannot be delivered |
| SourceCopy.CopyState.CopyDirectory | supervisor/mirrorgate/source_view.py:523-555 | Everything inside, in name order, or a failure exactly when that does not fit |
| SourceCopy.CopyState.CopyEntry | supervisor/mirrorgate/source_view.py:529-553 | One entry with all there is below it, or a failure exactly when that does not fit |
| SourceCopy.CopyState.CopyFolder | supervisor/mirrorgate/source_view.py:537-548 | A directory with everything in it, under the same condition |
| SourceCopy.CopyState.CopyFile | supervisor/mirrorgate/source_view.py:615-687 | A file is copied with its contents exactly when entry and byte budgets allow |
| SourceCopy.CopyState.CreateDirectory | supervisor/mirrorgate/source_view.py:586-612 | A directory is added exactly when the entry budget allows |
| SourceCopy.CopyState.ReserveEntry | supervisor/mirrorgate/source_view.py:461-464 | An entry is reserved exactly while the budget lasts |
| SourceCopy.CopyState.constructor | supervisor/mirrorgate/source_view.py:449-459 | Nothing copied, nothing listed, nothing spent |
| WorkerLoop.Worker.Run | runtimes/rust/src/worker.rs:379-535 | Over any events: while the loop runs, the answers are exactly the requests in order but for at most one pending, each once even if a cancelled callback completes late; the commands are a prefix of create, initialise, observe, then invoke and observe by turns, cut by at most one final dispose, each but a dispose after the success of the one before; poisoned is absorbing; order and language hold even after the loop ends |
| WorkerLoop.Worker.Serve | runtimes/rust/src/worker.rs:379-535 | Every word of the command language is served to its end: a new worker asked for its commands one after the other, each completed with a valid value, sends exactly these, answers every request with success, and goes on unless the word ends with a disposal |
| WorkerLoop.Worker.Dispose | runtimes/rust/src/worker.rs:424-426 | In every state past the handshake with nothing pending, a disposal is sent, once, and its completion is answered and ends the loop |
| WorkerLoop.Worker.Take | runtimes/rust/src/worker.rs:379-535 | What one event of the loop does, for every event and state |
| WorkerLoop.PlanAdmits | runtimes/rust/src/worker.rs:456-512 | The lifecycle sends a command if and only if it continues the language, or is a disposal past the handshake |
| WorkerLoop.Worker.OnComplete | runtimes/rust/src/worker.rs:389-427 | The pending operation is answered and decides the next state; any other completion changes nothing |
| WorkerLoop.Worker.OnRequestPending | runtimes/rust/src/worker.rs:434-452 | Only the cancellation of the pending operation survives: it answers that operation, then itself, and poisons |
| WorkerLoop.Worker.OnRequestIdle | runtimes/rust/src/worker.rs:453-532 | Past the handshake a request becomes its command if and only if that keeps the command language, or it is a disposal; a matching hello is accepted first, and anything else is refused and poisons |
| WorkerLoop.Worker.Respond | runtimes/rust/src/worker.rs:252-261 | One answer is written, or the pipe is broken and the loop is over |
| WorkerLoop.Worker.constructor | runtimes/rust/src/worker.rs:317-378 | Awaiting hello, nothing sent or answered |
| WorkerLoop.PlannedLanguage | runtimes/rust/src/worker.rs:456-512 | Whatever the lifecycle admits continues the command language |
| WorkerLoop.CancelFacts | runtimes/rust/src/worker.rs:434-452 | A cancellation leaves a sound run with both answers in request order |
| WorkerLoop.CompleteFacts | runtimes/rust/src/worker.rs:389-427 | Answering the pending operation leaves a sound run |
| WorkerLoop.IdleFacts | runtimes/rust/src/worker.rs:453-532 | Each way of treating a request in turn leaves a sound run |
| Relay.WorkerFlow.Run | supervisor/mirrorgate/worker_broker.py:61-171 | Over any accepted interleaving: the request table is exactly the pending ordinary and cancel requests, hello, create and dispose are forwarded at most once each, ready fires at most once, and after closing at most one cancel and one dispose are forwarded, never a dispose after a cancel |
| Relay.WorkerFlow.ClientFrame | supervisor/mirrorgate/worker_broker.py:90-126 | A frame is forwarded exactly when its number is new, the lifecycle admits it and closing allows it; every invariant of the conversation is kept |
| Relay.WorkerFlow.WorkerFrame | supervisor/mirrorgate/worker_broker.py:128-171 | An answer is accepted exactly when it is the one due and satisfies its request; ready is signalled for create alone |
| Relay.WorkerFlow.BeginClosing | supervisor/mirrorgate/worker_broker.py:77-88 | Closing is remembered, and a disposal is still to come if and only if the worker came up, nothing is pending, nothing failed, and neither a cancellation nor a disposal was ever forwarded |
| Relay.WorkerFlow.Passes | supervisor/mirrorgate/worker_broker.py:61-171 | A session that goes well passes as a whole: hello, create, any calls, each answered, then closing and the disposal it still lets through |
| Relay.WorkerFlow.CancelPasses | supervisor/mirrorgate/worker_broker.py:90-143 | A call in progress can be cancelled, closing or not, and both answers pass, its own first |
| Relay.Quiescent | supervisor/mirrorgate/worker_broker.py:77-84 | The mode against what was forwarded and raised |
| Relay.WorkerFlow.constructor | supervisor/mirrorgate/worker_broker.py:64-75 | Nothing pending, nothing forwarded |
| Relay.ForwardKeeps | supervisor/mirrorgate/worker_broker.py:90-126 | Every frame the relay takes keeps the table exact and the log clean |
| Relay.ReplyKeeps | supervisor/mirrorgate/worker_broker.py:128-171 | Every answer it takes does too |
| Conversation.NextCorrelates | supervisor/mirrorgate/worker_broker.py:128-140 | Between the relay and the worker of the other half, the worker's next answer is accepted as due if and only if no new call overtook an unanswered cancellation |
| Conversation.Link.Converse | supervisor/mirrorgate/worker_broker.py:61-171 | Client, relay and worker in any interleaving over their two pipes: the relay's forwarding limits and the worker's answer order hold together, and up to the first rejected frame the two are in step |
| Conversation.Link.Serve | supervisor/mirrorgate/worker_broker.py:90-171 | Every word of the command language short of its disposal goes through relay and worker together: each frame is let through, each command sent, each answer a success and accepted |
| Conversation.Link.Call | supervisor/mirrorgate/worker_broker.py:90-171 | One call through both |
| Conversation.Link.constructor | supervisor/mirrorgate/worker_broker.py:61-88 | Both ends start with nothing sent, answered or on its way |
| Conversation.Link.Send | supervisor/mirrorgate/worker_broker.py:90-126 | A client frame is let through exactly when the relay's table allows, and is then on its way to the worker |
| Conversation.Link.Take | runtimes/rust/src/worker.rs:379-535 | The worker takes the next frame; through the relay a busy worker is only ever sent the cancellation of what it is doing |
| Conversation.Link.Complete | runtimes/rust/src/worker.rs:379-452 | The pending call is answered with what its callback gave |
| Conversation.Link.Read | supervisor/mirrorgate/worker_broker.py:128-171 | The next answer is always to a request the relay knows; it is accepted if and only if no call overtook a cancellation and the answer suits the request |
| Conversation.Link.Close | supervisor/mirrorgate/worker_broker.py:76-88 | Closing keeps both ends in step |
| Conversation.NextFrame | supervisor/mirrorgate/worker_broker.py:90-126 | The next frame on its way has a new number, and goes to a busy worker only as the cancellation of its call |
| Conversation.JointForward | supervisor/mirrorgate/worker_broker.py:90-126 | Forwarding keeps relay, pipes and worker consistent |
| Conversation.JointTook | runtimes/rust/src/worker.rs:379-535 | So does the worker taking a frame |
| Conversation.JointRead | supervisor/mirrorgate/worker_broker.py:128-171 | And the relay reading an answer |
| Conversation.OvertakingHappens | supervisor/mirrorgate/worker_broker.py:90-171 | A run of relay and worker together, from the handshake on, in which that happens: the worker's honest answer to the cancellation is refused |
| Conversation.ForwardInStep | supervisor/mirrorgate/worker_broker.py:90-126 | Forwarding keeps relay and worker in step |
| Conversation.WorkerInStep | runtimes/rust/src/worker.rs:379-535 | The worker's own order keeps them in step |
| Conversation.ReplyInStep | supervisor/mirrorgate/worker_broker.py:128-171 | Reading the next answer keeps them in step, and that answer is always to a known request |
| HostedRun.AddLine | supervisor/mirrorgate/orchestration.py:343-358 | The progress window stays contiguous and is the longest suffix of the old window and the new line that meets all three budgets, in bytes of the line as encoded, escapes included |
| HostedRun.NotedMeans | supervisor/mirrorgate/orchestration.py:343-358 | The window after a line, spelt out: numbered without a gap up to the new line, flagged if and only if lines were lost, within all three budgets, and with one more of the dropped lines over one of them |
| Utf8.EncodedBytes | supervisor/mirrorgate/orchestration.py:343-358 | The bytes counted for a character are those of its encoding by section 3 of RFC 3629, which can be read back |
| HostedRun.NewRun | supervisor/mirrorgate/control_protocol_v2.py:118-165 | A new record passes the protocol's own validation |
| HostedRun.ValidMeans | supervisor/mirrorgate/control_protocol_v2.py:118-165 | What a valid record says, in plain words: remaining resources, submission, error, outcome, phase and teardown against one another, and the progress window |
| HostedRun.Adopt | supervisor/mirrorgate/orchestration.py:374-383 | A committed submission becomes the outcome of an unfinished run, which stays valid; a finished one is left alone |
| HostedRun.Terminate | supervisor/mirrorgate/orchestration.py:393-416 | The ended record is valid, shows the committed submission, and claims a clean teardown exactly when there was one; without a submission it keeps an outcome it has, and otherwise timed out if and only if the cancel reason is the deadline or the host reports the wall timeout, and failed if and only if it was not cancelled and the host reports neither |
| Hosting.HostedSession.Interleave | supervisor/mirrorgate/orchestration.py:360-562 | In any interleaving of start, tools, submits, commit, cancel, join and end: every record that can be shown passes the protocol's validation, a finished record never changes, once finished its submission equals the backend's for ever, and a tool still running was told to stop. A run that finishes without a submission is explained by its steps: if a refused commit was taken up before any cancellation, or for lateness, it timed out if and only if for lateness and otherwise failed; if not, it timed out if and only if the first cancel reason is the deadline or the host reports the wall timeout, was cancelled if and only if otherwise cancelled or reported so, and failed if and only if neither |
| Hosting.HostedSession.GoesWell | supervisor/mirrorgate/orchestration.py:428-562 | A run in which the agent starts, uses any number of tools, submits in time and ends is let through at every step, and its finished record shows what was submitted |
| Hosting.HostedSession.constructor | supervisor/mirrorgate/orchestration.py:514-524 | A run starts valid, unsubmitted and uncancelled |
| Hosting.HostedSession.Note | supervisor/mirrorgate/orchestration.py:343-358 | Only the progress window changes, by one line |
| Hosting.HostedSession.AdoptLocked | supervisor/mirrorgate/orchestration.py:374-383 | Adoption ends authoring |
| Hosting.HostedSession.Cancel | supervisor/mirrorgate/orchestration.py:385-391 | The first reason stays, a finished run is not touched |
| Hosting.HostedSession.HostBegin | supervisor/mirrorgate/orchestration.py:525-532 | A cancelled run never starts; any other turns running |
| Hosting.HostedSession.Launch | supervisor/mirrorgate/orchestration.py:533-547 | The agent lives or never does |
| Hosting.HostedSession.HostStops | supervisor/mirrorgate/agent_runtime.py:313-380 | The runtime returns only with the cancel event set and a remaining tool told to stop |
| Hosting.HostedSession.HostExits | supervisor/mirrorgate/agent_runtime.py:300-307 | An agent that exits stops any submit not yet committed |
| Hosting.HostedSession.ToolBegin | supervisor/mirrorgate/orchestration.py:428-437 | A tool starts exactly while authoring, uncancelled, before submitting and with the slot free |
| Hosting.HostedSession.ToolEnd | supervisor/mirrorgate/orchestration.py:456-459 | The slot is given back |
| Hosting.HostedSession.SubmitBegin | supervisor/mirrorgate/orchestration.py:461-471 | Sealing starts exactly while authoring, uncancelled and not past running, so never twice at once; any other submit is given the committed submission if there is one, and refused otherwise |
| Hosting.HostedSession.Commit | supervisor/mirrorgate/preparation.py:962-977 | The backend installs the submission exactly when frozen in time, neither stopping nor cancelled, so never into a finished run |
| Hosting.HostedSession.SubmitDone | supervisor/mirrorgate/orchestration.py:475-483 | The run is stopped and shows the committed submission |
| Hosting.HostedSession.SubmitFailed | supervisor/mirrorgate/orchestration.py:484-500 | The run fails or times out unless it was cancelled or adopted first; a passed deadline replaces the reason |
| Hosting.HostedSession.Terminal | supervisor/mirrorgate/orchestration.py:393-426 | The run is finished with the backend's submission, which ends authoring; its outcome is explained by what happened to it, and its last progress line says whether the cleanup was confirmed |
| Hosting.HostedSession.Step | supervisor/mirrorgate/orchestration.py:360-562 | Each step of each thread keeps all of this, moves only its own thread, and is entered into the story of the run |
| Hosting.TerminalRecounts | supervisor/mirrorgate/orchestration.py:393-416 | Ending a run gives it the outcome its story calls for |
| Supervision.Supervised.Interleave | supervisor/mirrorgate/orchestration.py:251-764 | Session and hosted run under their one lock, in any interleaving: a session that goes on past a hosted run has a finished, valid, cleaned-up run whose submission is the one committed, and what it prepared is that source; once its cleanup exists no source is committed any more and a tool still going on has been told to stop |
| Supervision.Supervised.GoesOn | supervisor/mirrorgate/orchestration.py:603-669 | A session whose run submitted and was cleaned up is prepared with that source and goes on to running |
| Supervision.Supervised.StartRun | supervisor/mirrorgate/orchestration.py:502-524 | A run starts exactly while authoring with the slot free, and only once |
| Supervision.Supervised.HostStep | supervisor/mirrorgate/orchestration.py:374-500 | What a lock section of the run adopts or ends, the session shows at once |
| Supervision.Supervised.ToolStep | supervisor/mirrorgate/orchestration.py:428-459 | A tool holds the session's one slot exactly while it runs |
| Supervision.Supervised.Cleanup | supervisor/mirrorgate/orchestration.py:680-702 | The first cleanup closes the session to authoring and cancels its run, unless that is finished |
| Supervision.Supervised.Release | supervisor/mirrorgate/orchestration.py:743-752 | A release ends authoring before its cleanup exists |
| Supervision.Supervised.Prepare | supervisor/mirrorgate/orchestration.py:603-610 | Preparing starts past a hosted run only if that run committed a submission and was cleaned up |
| Supervision.Supervised.Done | supervisor/mirrorgate/orchestration.py:611-624 | A prepared source other than the committed one is refused |
| Supervision.Supervised.Step | supervisor/mirrorgate/orchestration.py:251-764 | Each lock section keeps session and run consistent |
| Supervision.Supervised.constructor | supervisor/mirrorgate/orchestration.py:237-238 | A session starts without a run |
| Sessions.SessionState.Interleave | supervisor/mirrorgate/orchestration.py:251-764 | Over any interleaving: phases only move forward in rank, the one cleanup operation and the first reason stay, no operation is created after it, every other pending operation has been cancelled, pending operations are never evicted, and with a retention bound of at least 1 neither is the cleanup operation |
| Sessions.SessionState.NewOperation | supervisor/mirrorgate/orchestration.py:251-258 | Created exactly when the session is not ending and the ordinary slot is free if needed |
| Sessions.SessionState.Finish | supervisor/mirrorgate/orchestration.py:260-282 | The operation is no longer pending and gives its slot back |
| Sessions.SessionState.Forget | supervisor/mirrorgate/orchestration.py:320-324 | Eviction keeps every pending operation, and with retention the cleanup operation |
| Sessions.SessionState.Cleanup | supervisor/mirrorgate/orchestration.py:680-702 | The first call creates the operation, keeps its reason and cancels all others; every later one joins it, exactly while it is retained |
| Sessions.SessionState.CleanupEnds | supervisor/mirrorgate/orchestration.py:719-735 | Closed exactly when complete, failed otherwise |
| Sessions.SessionState.ReleaseBegins | supervisor/mirrorgate/orchestration.py:743-752 | The session is ending before the release's cleanup exists |
| Sessions.SessionState.StartRun | supervisor/mirrorgate/orchestration.py:502-521 | A run starts exactly while authoring, with none before it and the slot free |
| Sessions.SessionState.BorrowSlot | supervisor/mirrorgate/orchestration.py:428-437 | A tool takes the slot exactly while its run is going and the session is authoring |
| Sessions.SessionState.ReturnSlot | supervisor/mirrorgate/orchestration.py:456-459 | The slot is free again |
| Sessions.SessionState.AdoptSubmission | supervisor/mirrorgate/orchestration.py:374-383 | A session that is not ending becomes submitted |
| Sessions.SessionState.RunEnds | supervisor/mirrorgate/orchestration.py:409-414 | The run is over, usable or not |
| Sessions.SessionState.Move | supervisor/mirrorgate/orchestration.py:603-669 | Each request or worker event moves the phase exactly when the phase before, the slot and the hosted run allow |
| Sessions.SessionState.Walk | supervisor/mirrorgate/orchestration.py:603-669 | Left to itself, a session that may be prepared goes through preparing, prepared, authorized, reserved, starting and running, one phase for each move that comes in its turn, and ignores all others |
| Sessions.SessionState.Step | supervisor/mirrorgate/orchestration.py:603-764 | Each step keeps all of this and ends only the operation it names |
| Sessions.SessionState.constructor | supervisor/mirrorgate/orchestration.py:237-238 | No operation, no cleanup |
| Operations.Evict | supervisor/mirrorgate/orchestration.py:320-324 | What remains is in order, at most the bound of finished operations, every pending one, and with a bound of at least 1 the newest |
| Sessions.CleanupForgotten | supervisor/mirrorgate/orchestration.py:320-324 | With a bound of 0: after cleanup, its end and one eviction, the next cleanup finds nothing to join |
| Operations.DropKeepsNewest | supervisor/mirrorgate/orchestration.py:320-324 | The newest operation goes only when it is the only finished one |
| Events.Controller.Interleave | supervisor/mirrorgate/orchestration.py:130-318 | Over any interleaving: emitted, leaving and queued events carry exactly the numbers 1 to n in order; what a dispatch produced leaves after its response, or after closing began; operation.finished, session.closed and agent.finished occur at most once each; no agent.updated follows agent.finished |
| Events.ExactlyOnce | supervisor/mirrorgate/orchestration.py:307-311 | With nothing pending on an open connection every finished and advertised operation has been announced exactly once |
| Events.ClosingFlushes | supervisor/mirrorgate/orchestration.py:784-792 | A connection that closes during a dispatch lets its events out without the response |
| Events.Controller.Announce | supervisor/mirrorgate/orchestration.py:130-139 | The event takes the next number and its place behind a response under way, or is dropped exactly on a closed connection |
| Events.Controller.AfterResponse | supervisor/mirrorgate/orchestration.py:289-300 | Everything deferred is released in order, and only behind the response or a close |
| Events.Controller.Flush | supervisor/mirrorgate/orchestration.py:289-300 | Events leave in order, then the deferred threads |
| Events.Controller.Accept | supervisor/mirrorgate/orchestration.py:154-163 | Under the lock: a request with a larger number is accepted on an open connection, and only answered on a closed one |
| Events.Controller.Mark | supervisor/mirrorgate/orchestration.py:164 | The dispatch is marked later, without the lock, whatever happened in between |
| Events.Controller.Reject | supervisor/mirrorgate/orchestration.py:180-189 | A malformed request uses up its number and is answered |
| Events.Controller.Respond | supervisor/mirrorgate/control_server.py:125-126 | The response leaves, nothing numbered moves |
| Events.Controller.Spawn | supervisor/mirrorgate/orchestration.py:282-287 | Work spawned by a dispatch waits for its response |
| Events.Controller.Close | supervisor/mirrorgate/orchestration.py:784-790 | The close is marked once, before any flush |
| Events.Controller.OperationEnds | supervisor/mirrorgate/orchestration.py:260-276 | An ended operation has an attempt to announce it under way |
| Events.Controller.Advertise | supervisor/mirrorgate/orchestration.py:680-700 | Advertising an operation that had ended starts another attempt |
| Events.Controller.Attempt | supervisor/mirrorgate/orchestration.py:307-311 | A notice is flagged exactly when advertised and not flagged before |
| Events.Controller.SessionEnds | supervisor/mirrorgate/orchestration.py:313-318 | The closing notice is flagged exactly once |
| Events.Controller.RunEnds | supervisor/mirrorgate/orchestration.py:409-414 | A run that is over stays over |
| Events.Controller.HostEvent | supervisor/mirrorgate/orchestration.py:360-372 | A going run is updated, an ended one is announced once, both numbered with the snapshot |
| Events.Controller.Step | supervisor/mirrorgate/orchestration.py:130-372 | Each step only extends what was numbered and what has left; while the holder of the event lock lets things out, nothing is numbered and no one else takes over |
| Events.Controller.constructor | supervisor/mirrorgate/orchestration.py:105-116 | Nothing numbered |
| Events.AppendKeeps | supervisor/mirrorgate/orchestration.py:307-318 | Whatever may be numbered keeps every notice single and every flag true |

## Left out

- Sandboxes, processes, signals, pidfds and kernel cgroup files: what recovery sees of a cgroup is given as strange, missing, busy or quiet, and the counters and settings read from it are not modelled.
- Sockets, credentials, tokens, thread scheduling and the clock: frames are values, lock sections are steps, deadlines are choices.
- SHA-256, JSON text decoding, UTF-8 decoding and the digests of manifests and selectors: identities are compared as values.
- Outside changes while recovery or a copy is under way: trees change only by the modelled steps, so the identity rechecks after a rename or a copy have nothing to find, and an ownership token that cannot be read counts as a different one.
- RecoveryReceipt.ReceiptSound: cgroup observations and the receipt's limit of 512 KB are outside its coherence, since the counters and texts they count are not modelled.
- The hello rule for the first control request: a request that breaks it ends the connection.
- Recovery after a tree has lost its first entry and before its claims are all recorded: the code means this to end as ambiguous, and only the absence of early terminal records is claimed there.
- Quarantining invalid journal entries, locking of the state root, and journal records beyond 64 KB: not modelled.
- Controller-side closure of claims while the supervisor runs, and preparation beyond the submission commit: operating-system effects around the modelled steps.
- The Python decimal token check, type declaration parsing, manifest checks and capability reports: each is settled by reading it.
- Source view: modes and owners of the workspace, and rollback of a partial view.
- Relay and worker after the first frame they reject: the connection is over, so what the state then holds is not modelled.
- Policy catalogs, agent audit, command line, adapters and the TypeScript and C++ facades: thin composition around the cores.
