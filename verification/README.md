# ours-fleet: a verified model of its protocols

ours-fleet supervises agents through files shared by many processes: locks, ledgers, cursors,
configuration trees, registries. Most of what keeps them right is stated in comments and sampled by
tests. This project states those protocols as Dafny state machines, classes and functions, and
proves what they promise for every interleaving, crash, failure and input.

| file | models | main results |
|---|---|---|
| `Incarnation.dfy` | pids, boots, start times, liveness probes | a death verdict is sound under pid reuse, and exact up to reuse within one tick; which answers let an ended holder pass for a live one |
| `Bakery.dfy` | the synchronous claim-file lock | mutual exclusion, first come first served, no deadlock; a call that returns leaves no claim behind |
| `DirectoryLock.dfy`, `LockRace.dfy` | the rename-published lock and its reclamation, on top of the bakery | mutual exclusion, a live holder's lock is its own, and exactly when this fails |
| `LockProgress.dfy` | what one call of that lock can do by its own steps | taking a free lock, releasing it, taking over the lock of an ended owner, and sparing any other |
| `AtomicReplace.dfy` | atomic file replacement | a reader never sees part of a file, whatever call fails |
| `Monitor.dfy` | the mail monitor | at-least-once delivery over any sequence of lives; which notifications count as one |
| `Json.dfy`, `Erasure.dfy` | redaction of ledgers | composition, idempotence, field by field what a pass does, exact fixed points, permanence against stale snapshots |
| `Publication.dfy` | publication of a new setup | all or nothing, exactly when it succeeds, what it then holds path by path, originals never lost, and exactly when another process's bytes are |
| `CanonicalJson.dfy` | canonical JSON text | the text decides meaning; independent of key order exactly when no keys tie |
| `JsonText.dfy` | a reader of JSON text (RFC 8259), against which the canonical text is checked | what is printed reads back |
| `DaemonRecovery.dfy` | token-superseded recovery | a superseded run writes nothing, six calls at most, `recovered` is exact |
| `Creation.dfy` | creation transactions | exclusion per name, free names are had and taken ones refused, rollback exactly after a throw, exactly which steps leak a name, undo in reverse, isolation of failed undos |
| `RecoveryGate.dfy` | the recovery evidence gate | the whole verdict from the calls of the turn, independence of arrival order and of other turns |
| `RulesRegistry.dfy` | holder-counted rules files | a file exists iff it is held, and serves all its holders |
| `AuditStore.dfy` | the write-once audit ledger | the file never goes back, over failed writes, restarts and erasures; retries are known after erasure |
| `LifecycleEvents.dfy` | lifecycle checkpoints | nothing lost, and recording order, with the exact conditions |
| `ModelRecovery.dfy` | fallback along a model chain | the closed form of the ledger |
| `BoundedMessages.dfy` | bounded lifecycle messages | within bounds, the longest that fits, line by line |
| `TemplateMerge.dfy` | overrides over templates | who wins at each path, twice is once, and when twice is refused |

`Options.dfy` and `StringOrder.dfy` are shared. Protocols that run concurrently are step machines with
inductive histories; code that changes state step by step is a class whose methods are proved against
what they change; loops of the original are loops here. With Dafny 4.11,
`dafny verify dfyconfig.toml` checks the whole project; no proof relies on further flags.

What the environment does is a parameter: which call fails, when a process dies, what the daemon
answers, what another process does meanwhile. Clocks and timeouts are free choices, so no result
depends on them.

## Findings

The proofs hold with these exceptions, each stated exactly in the model:

- Removing a lock whose observation held no owner (the lock vanished before it was read, or it is an
  incomplete lock) can take away a lock published between comparison and removal
  (src/atomic-file.ts:122, src/atomic-file.ts:174). `withFileLock` also reads a refused signal (EPERM) as
  death, unlike the bakery lock (src/atomic-file.ts:94 and src/atomic-file.ts:257-258). `LockRace` gives, for
  either, a history of two processes that ends with two live holders; `DirectoryLock` proves the
  guarantees for every history without these two steps.
- A role reservation that cannot be written leaves the identity reserved (src/creation.ts:152-162);
  `Creation.LeakedIdentityIsRefused` reaches that state and a later call that is refused.
- An Agent file that existed and is overwritten is not put back when the transaction rolls back
  (src/creation.ts:445-454); `CreationRollback.FileIsTakenBackIffNew`.
- A file called `fleet.yaml` at the top of an existing split root takes the place of the manifest
  (src/init-wizard.ts:392-407).
- Publication looks at a target, or compares its inode, and acts on the path in a second call. What
  another process puts there in between is replaced (src/init-wizard.ts:579-581) or deleted
  (src/init-wizard.ts:601-604); `Publication.TheirManifestIsReplaced` and `Publication.TheirManifestIsDeleted`.
- The rollback recognises what it published by inode alone (src/init-wizard.ts:601-604), so it deletes
  what another process wrote into the published manifest or created under its freed inode, and every
  file added to the published root, without anybody acting in a gap; `Publication.TheirEditIsDeleted`
  and `Publication.TheirFileIsDeleted`.
- Two notifications share their key only if they are of the same kind, sender and id, but for parts
  that hold the separator U+0000 (src/monitor.ts:222-226): `Monitor.KeyTellsApartIff`. Of two such
  notifications in one page the second would be taken for a repetition.
- Keys that `localeCompare` does not tell apart make canonical text depend on key order
  (src/canonical-json.ts:4-6). It must tie canonically equivalent strings (section 22.1.3.12 of
  ECMA-262, 15th edition), such as the two spellings of an accented letter in `CanonicalJson.AccentsShow`.
- Checkpoints under way together can reorder events, and one that fails after the collection was
  consumed loses its batch (src/fleet-command-audit.ts:75-80). No module under src calls the
  exported function, so this is about its contract, not about a command of today.
- Overrides accepted once may be refused when applied to their own result, for a null below a map
  that the template did not have (src/config.ts:718-734).

## Model

| member | source | states |
|---|---|---|
| Incarnation.EndedStaysEnded | src/process-incarnation.ts:33-54 | a run that has ended never runs again, over any spawn, exit, tick and reboot |
| Incarnation.OwnMarkersAreRight | src/process-incarnation.ts:33-36 | the boot id and start time a live process records about itself are its own or absent |
| Incarnation.DeadVerdictIsSound | src/process-incarnation.ts:43-54 | a process judged dead by a missing pid or a changed marker has ended, though its pid may be reused |
| Incarnation.DeadVerdictIsExact | src/process-incarnation.ts:43-54 | with both markers readable, judged dead if and only if ended, except for reuse of the pid in the same clock tick |
| Incarnation.DirectoryLockVerdictOnLiveRun | src/atomic-file.ts:94 | the directory lock misjudges a live holder if and only if signalling it is not permitted |
| Incarnation.DirectoryLockVerdictOnEndedRun | src/atomic-file.ts:94-135 | the directory lock takes a holder that has ended for alive if and only if its pid is in use again, the signal was delivered, and no recorded marker was read to differ |
| Incarnation.DirectoryLockVerdictIsExact | src/atomic-file.ts:94-135 | with both markers readable and the signal permitted, its holder is judged dead if and only if ended, except for reuse of the pid in the same clock tick |
| Incarnation.FullReadingTells | src/atomic-file.ts:94-135 | when no probe fails, both locks give up on an owner exactly when its pid is free or now belongs to another boot or start time |
| Bakery.StepKeepsFilesMatch | src/atomic-file.ts:239-284 | every step keeps a live contender's claim file in step with where its call is; only dead contenders' claims are swept |
| Bakery.ReturnedLeavesNothing | src/atomic-file.ts:272-283 | in every history a claim file exists only while its call is open: a call that has returned, or has thrown, left none, and a running one has one |
| Bakery.Leaves | src/atomic-file.ts:272-283 | from wherever it stands, a running call reaches by its own steps a state where it has returned and exactly its own claim is gone |
| Bakery.SweptIsDead | src/atomic-file.ts:255-266 | a claim is removed by another contender only if its owner has ended |
| Bakery.PassedStaysOrdered | src/atomic-file.ts:273-278 | once a contender has passed another in its scan, whatever the other does keeps it behind |
| Bakery.ReadingOrders | src/atomic-file.ts:277-278 | a scan passes a claim only if its owner comes later in (ticket, name) order, even though scans are not atomic |
| Bakery.TicketsAreSafe | src/atomic-file.ts:273-275 | in every history every ticket in a claim is one that the reader of claims accepts |
| Bakery.TicketIsTakenIff | src/atomic-file.ts:273-274 | having read all claims, a call can take the next ticket if and only if that is a safe integer |
| Bakery.StepKeepsOrdered | src/atomic-file.ts:239-284 | the bakery order between all live contenders is kept by every step of any of them |
| Bakery.MutualExclusion | src/atomic-file.ts:239-284 | in every reachable state at most one live call is inside `work` |
| Bakery.LaterArrivalWaits | src/atomic-file.ts:271-279 | a call announced after another wrote its ticket is not inside `work` while that claim exists |
| Bakery.SomeoneIsFirst | src/atomic-file.ts:277-278 | once dead claims are swept and nobody is choosing, some claim is blocked by no other |
| Bakery.FirstGetsIn | src/atomic-file.ts:276-282 | and its owner gets into `work` by its own steps alone |
| Bakery.GetsInAlone | src/atomic-file.ts:271-282 | a call that has announced itself, where every other claim is of an ended run, takes ticket 1 and gets into `work` by its own steps alone, sweeping those claims |
| Bakery.ComesAndGoes | src/atomic-file.ts:239-284 | a new call that finds no claim of a run that might be alive announces itself, works, returns, and leaves no claim at all, by its own steps alone |
| DirectoryLock.StepKeepsInv | src/atomic-file.ts:85-182 | the lock invariant is kept by every step of every call, bakery steps included, but for the two hazards |
| DirectoryLock.LockLostOnlyByOwnerOrDeath | src/atomic-file.ts:151-156 | but for the hazards, a lock goes away only by its owner's release or by reclamation from a dead owner |
| DirectoryLock.CondemnedIsDead | src/atomic-file.ts:122-141 | if the lock is still the one observed when a caller gives up on it, its owner is dead, unless a signal was refused |
| DirectoryLock.SectionStays | src/atomic-file.ts:172-175 | inside the reclaim section nobody else removes the dead lock that was re-read, by bakery exclusion |
| DirectoryLock.MutualExclusion | src/atomic-file.ts:85-157 | in every history without the two hazards at most one live caller is between its rename and its release |
| DirectoryLock.LiveHolderKeepsLock | src/atomic-file.ts:149-156 | in every history without the two hazards a live holder's lock is in place and is removed by nobody else |
| DirectoryLock.ReclaimTakesOnlyTheObserved | src/atomic-file.ts:167-182 | a reclaimer removes the lock of the dead owner it observed, never a successor's |
| DirectoryLock.RemovalOfLiveLockIsOwnerless | src/atomic-file.ts:174 | the first removal to hit a live caller's lock had an observation without an owner |
| DirectoryLock.LiveOwnerCondemnedIffRefused | src/atomic-file.ts:94 | a caller can give up on a live owner if and only if its signal to that owner is refused |
| LockProgress.Arrives | src/atomic-file.ts:108-118 | a live caller that finds the path free takes the lock by its own steps, with its own token and stamp |
| LockProgress.Releases | src/atomic-file.ts:149-156 | a live holder gives its lock up by its own steps, and none is left |
| LockProgress.ReleaseSparesOthers | src/atomic-file.ts:151-156 | a holder whose lock has been taken from it, as the hazards allow, never removes a successor's when it lets go |
| LockProgress.TakesOver | src/atomic-file.ts:108-182 | a live caller that finds the lock of an owner recognisably gone observes it, gives up on it, removes it in the reclaim section, which nobody that might be alive contends for, leaves no claim there, and ends up holding the lock with its own token, by its own steps alone |
| LockProgress.Spares | src/atomic-file.ts:167-182 | a reclaimer that finds another lock than the one it observed leaves it in place, takes its own claim away and tries again, by its own steps |
| LockProgress.GivesUpSection | src/atomic-file.ts:164-182 | one that cannot get into the reclaim section takes its claim away and tries again |
| LockRace.OwnerlessRemovalBreaksExclusion | src/atomic-file.ts:122-141 | a history of two processes, one reclaiming with no owner observed, in which two live callers hold the lock |
| LockRace.RefusedSignalBreaksExclusion | src/atomic-file.ts:94 | likewise with one refused signal to a live owner |
| AtomicReplace.WriteAll | src/atomic-file.ts:206-211 | short writes add up to exactly the contents; it ends whatever the kernel accepts, and fails only on a write that does not advance |
| AtomicReplace.ReplaceFileAtomically | src/atomic-file.ts:191-233 | a reader never sees a partial file; a failure leaves the target as it was; only a durable replace fails after the rename |
| Monitor.FilterEvents | src/monitor.ts:210-213 | keeps exactly the events of wake sources |
| Monitor.FilterGoesOn | src/monitor.ts:210-213 | and goes event by event, so that their order and repetitions stay |
| Monitor.KeyAbsentIff | src/monitor.ts:222-226 | a notification has no key if and only if it has no file id for a received file, and no message id otherwise |
| Monitor.SameKeyIff | src/monitor.ts:222-226 | where no part holds the separator, keys are equal if and only if kind, sender and id are, an absent kind or sender counting as empty |
| Monitor.KeyTellsApartIff | src/monitor.ts:222-226 | nothing else has the key of a notification if and only if none of its parts holds the separator |
| Monitor.AppendUniqueEvents | src/monitor.ts:228-236 | the loop with its set of seen keys appends what the specification `Appended` says |
| Monitor.AppendedRepresents | src/monitor.ts:215-236 | every event is there or one with its notification key is, and nothing is made up |
| Monitor.KeylessAreKept | src/monitor.ts:215-220 | events without a stable id are all kept, in order |
| Monitor.AppendedKeysDistinct | src/monitor.ts:222-236 | no notification key is appended twice |
| Monitor.AppendedOnce | src/monitor.ts:228-236 | no notification of the same kind, sender and id as an earlier one is appended |
| Monitor.World.WriteCursor | src/monitor.ts:748-757 | a failed or torn cursor write never leaves a cursor past what was delivered |
| Monitor.World.WriteState | src/monitor.ts:781-797 | the state file is replaced whole or not at all |
| Monitor.Monitor.PersistCursor | src/monitor.ts:748-757 | commits the observed cursor, which is sound because the batch is empty |
| Monitor.Monitor.Prime | src/monitor.ts:480-502 | resumes exactly the durable delivered cursor, and primes at the tip only without one |
| Monitor.Monitor.Fetch | src/monitor.ts:543-559 | the cursor and the batch take exactly what the page says, and the cursor moves only over events delivered or pending; a failed poll changes nothing |
| Monitor.Monitor.CheckBacklog | src/monitor.ts:516-541 | the loop goes on only once nothing was unread, or the session took the wake for what was; an unavailable check holds it back |
| Monitor.Monitor.RunRound | src/monitor.ts:510-585 | one turn keeps the invariant; no cursor moves and nothing is polled before the unread work was put to the session; the delivered cursor moves only with an empty batch; and when nothing fails the whole batch is accepted and the cursor durable |
| Monitor.Monitor.Deliver | src/monitor.ts:570-584 | only an accepted wake empties the batch and commits, and then all of it was accepted |
| Monitor.LiveThrough | src/monitor.ts:480-606 | at least once: after any sequence of lives with crashes, torn writes, failed polls and refused wakes, every wake event before the delivered cursor was accepted, it or one of the same kind, sender and id unless its parts hold the separator |
| Erasure.EditedKeyNeverMatches | src/erased-resources.ts:33-35 | no field that redaction rewrites ever ties an attempt to an erased resource |
| Erasure.OwnershipStays | src/erased-resources.ts:33-37 | redaction does not change which attempts belong to an erased resource |
| Erasure.HidingJoins | src/erased-resources.ts:36-38 | two passes hide arguments exactly when the joint pass does, and only once |
| Erasure.RedactComposes | src/erased-resources.ts:18-41 | redacting with one registry and then another is redacting with their union, for all JSON |
| Erasure.RedactIsIdempotent | src/erased-resources.ts:18-41 | redacting twice is redacting once |
| Erasure.MetadataStays | src/erased-resources.ts:17-41 | identifiers, kinds and other metadata survive redaction as they are |
| Erasure.PassOnField | src/erased-resources.ts:18-41 | what a pass makes of every field of an object: the eight labels, `agents`, `participants`, `name`, `brain`, `role`, `inherited`, `argv` and `erased`, by kind and by what is erased; the rest is only gone into |
| Erasure.FixedIffClean | src/erased-resources.ts:18-41 | a value is left alone if and only if, at every depth, no object of an erased resource or in an erased room shows any of the fields named there, and no attempt about an erased resource shows its arguments |
| Erasure.StaysErased | src/erased-resources.ts:42-46 | what is filtered under a larger registry presents nothing of a smaller one |
| Erasure.Store.WritePrivacyFiltered | src/erased-resources.ts:44-46 | whatever snapshot is written, the ledger is filtered under the current registry |
| Erasure.Store.EraseResourcePresentations | src/erased-resources.ts:48-66 | registers, then rewrites every ledger; a crash leaves a prefix rewritten and the registry extended or not |
| Erasure.Store.NothingComesBack | src/erased-resources.ts:43-66 | in a settled store no ledger presents anything ever registered |
| Erasure.Serve | src/erased-resources.ts:43-66 | after every sequence of stale writes and erasures whose last erasure ran to its end, whatever died before it, no ledger presents anything ever registered |
| Publication.BytesSurviveIffNoCollision | src/init-wizard.ts:392-407 | existing bytes survive into the new setup if and only if the root has no file named like the manifest |
| Publication.StagedPathByPath | src/init-wizard.ts:392-407 | the staged setup has at each path the old root's text, else the old manifest's for `fleet.yaml`, else the generated one, and no other paths |
| Publication.Target.SaveAway | src/init-wizard.ts:567-568 | what is at a target moves to the recovery directory by one rename, exactly when the call goes and nobody removes it first; every state has the original whole |
| Publication.Target.Publish | src/init-wizard.ts:571-581 | the staged item takes a target that was seen free, exactly when both calls go and nobody is in the way; a success destroys what came in the gap |
| Publication.Target.Delete | src/init-wizard.ts:601-604 | the target is removed exactly when it has the published inode when looked at, whatever it holds by then |
| Publication.Target.Restore | src/init-wizard.ts:605-612 | what was saved returns to a target that was seen free, exactly when the call goes and nobody is in the way |
| Publication.Publisher.RootIsLostByDeletion | src/init-wizard.ts:575-611 | renames of the root never cost other processes bytes, its deletion may |
| Publication.Publisher.RollBack | src/init-wizard.ts:600-614 | comes to its end exactly when its calls go and nobody is in the way; both targets are then restored, and which destroying calls went ahead is exact |
| Publication.Publisher.PublishSetup | src/init-wizard.ts:538-619 | all or nothing: originals whole in every state; success exactly when no call of publication throws and nobody is in the way; a reported restoration is one; undisturbed it takes a second failing call to stop the rollback; other processes' bytes are lost if and only if a destroying call went ahead on a target that held them, put there in its gap or, before a deletion, earlier under the published inode |
| Publication.TheirManifestIsReplaced | src/init-wizard.ts:579-581 | a successful run that replaces a manifest created after the look at the free target |
| Publication.TheirManifestIsDeleted | src/init-wizard.ts:601-602 | a run rolled back by its last call that deletes a manifest put there after the inode was compared |
| Publication.TheirEditIsDeleted | src/init-wizard.ts:601-602 | one that deletes what was written into the published manifest, or under its inode, with every gap empty |
| Publication.TheirFileIsDeleted | src/init-wizard.ts:603-604 | one that deletes a file added to the published root, with every gap empty |
| CanonicalJson.CanonicalIsPrintOfOrdered | src/canonical-json.ts:2-8 | sorting printed entries is printing the value with its keys sorted |
| CanonicalJson.ReadEscaped | src/canonical-json.ts:6-7 | a quoted string and what follows it can be read back, with the escapes of section 7 of RFC 8259 |
| CanonicalJson.Readable | src/canonical-json.ts:2-8 | unique readability: a printed value and what follows it determine the value |
| CanonicalJson.OrderedKeepsMeaning | src/canonical-json.ts:4-6 | sorting keys keeps a value's meaning, whatever the comparator |
| CanonicalJson.SortIsStable | src/canonical-json.ts:5 | entries whose keys tie keep their order |
| CanonicalJson.TextDeterminesMeaning | src/canonical-json.ts:1-8 | equal texts are texts of values equal up to key order, whatever the comparator |
| CanonicalJson.TextDecidesMeaning | src/canonical-json.ts:1-8 | without ties, texts are equal if and only if the values are equal up to key order |
| CanonicalJson.OrderBlindIffNoTies | src/canonical-json.ts:1-8 | the text of a value is independent of key order if and only if no two keys of one of its objects tie |
| CanonicalJson.AccentsShow | src/canonical-json.ts:5 | two objects with the same fields, under the two spellings of an accented letter, have different texts |
| JsonText.EscapeAllReads | src/canonical-json.ts:6-7 | a reader that follows section 7 of RFC 8259 gets back every string from its escaped text |
| JsonText.CanonicalReads | src/canonical-json.ts:2-8 | the canonical text of every value is, to a reader that follows RFC 8259, the value with its keys sorted at every depth |
| DaemonRecovery.BackoffDoublesToTheCap | src/daemon-recovery.ts:275-281 | waits start at one second and double up to five; the bound on the exponent never shows |
| DaemonRecovery.Controller.Recover | src/daemon-recovery.ts:337-415 | repeating the active epoch starts nothing; any other epoch starts one run under a new token, recovering, with both paths pending and ready for a first call |
| DaemonRecovery.Controller.Begin | src/daemon-recovery.ts:359-364 | a superseded path returns; a late one is degraded with the deadline as its reason and the calls made so far; any other makes one more call, written down before |
| DaemonRecovery.Controller.Settle | src/daemon-recovery.ts:374-398 | a superseded answer changes nothing that is persisted; a current one recovers its path, or is tried again, or after the sixth degrades it with the reason given as far as that is safe |
| DaemonRecovery.Controller.Finish | src/daemon-recovery.ts:399-411 | a current run ends recovered if and only if both operations said yes, and degraded otherwise |
| DaemonRecovery.Controller.Cancel | src/daemon-recovery.ts:416-424 | the active run is withdrawn; if it has not finished, its status and the file become cancelled and keep all else; otherwise nothing is written |
| DaemonRecovery.InterruptedIsCurrent | src/daemon-recovery.ts:416-424 | the status object that `cancel` changes is that of the current unfinished run and no other |
| DaemonRecovery.Controller.NoteLoss | src/daemon-recovery.ts:426-440 | every run becomes stale and both paths are persisted as degraded after no calls, with the reason given if it is safe and `DAEMON_UNAVAILABLE` otherwise |
| DaemonRecovery.RunIsReadable | src/daemon-recovery.ts:286-325 | every status a run persists is accepted by the reader |
| DaemonRecovery.SafeIffKeepable | src/daemon-recovery.ts:286-321 | a reason is kept if and only if the reader of the file takes it and it starts with a letter |
| DaemonRecovery.RecoveredExactly | src/daemon-recovery.ts:399-411 | the file says recovered if and only if the current run finished with both operations having said yes |
| DaemonRecovery.RecoveredNeverLies | src/daemon-recovery.ts:374-411 | whenever the file said recovered, both operations of the writing run had said yes under the current token |
| DaemonRecovery.Controller.Drive | src/daemon-recovery.ts:329-449 | over any schedule a superseded run writes nothing and no path calls its operation more than six times |
| Creation.StepKeepsInv | src/creation.ts:135-189 | the reservation files are exactly those of the calls that hold them, after every step of every process |
| Creation.HoldersExclude | src/creation.ts:150-164 | no two transactions hold the same role name or the same identity |
| Creation.OutcomeIff | src/creation.ts:165-189 | a call was rolled back if and only if its body threw, or its role could not be released after that; it returned a result if and only if the body went well and nothing was rolled back |
| Creation.GoesThrough | src/creation.ts:135-189 | a call whose names are free gets by its own steps into its body holding both, and out again, succeeded or rolled back as the body went, with the reservations as it found them |
| Creation.IsRefused | src/creation.ts:150-161 | a call one of whose names is taken is refused under the lock and leaves nothing |
| Creation.NamesAreFreeIff | src/creation.ts:135-189 | a call that ended left its names free if and only if none of its steps in the history was a failed write of the role file, a failed write that left the identity file, a failed release of the identity, or one of the role with no rollback to follow |
| Creation.LeakedIdentityIsRefused | src/creation.ts:152-162 | a history in which the role file cannot be written and a later call finds the identity taken by nobody |
| CreationRollback.Transaction.RollBack | src/creation.ts:175-179 | every undo is attempted, newest first, and a failing one stops none |
| CreationRollback.UnwindingRestores | src/creation.ts:118-134 | when each undo inverts its step, the world is what it was |
| CreationRollback.Transaction.Run | src/creation.ts:171-188 | a body that throws anywhere leaves the world as it was |
| CreationRollback.SuccessfulUndosStand | src/creation.ts:176-179 | with separate regions, every step whose undo succeeded is taken back whatever other undos did, judged in the world the step found |
| CreationRollback.FileIsTakenBackIffNew | src/creation.ts:445-454 | undoing a written Agent file takes the write back if and only if the file was new, or had these contents |
| CreationRollback.OnlyStuckFilesRemain | src/creation.ts:171-188 | after the rollback of new files those that could be removed are gone, however many could not |
| RecoveryGate.EvaluateAgentRecovery | src/agent-recovery-gate.ts:96-139 | the loop over the ordered ledger computes `Verdict` |
| RecoveryGate.RecordsTell | src/agent-recovery-gate.ts:36-51 | the table holds every tool call of the turn, each field as last said |
| RecoveryGate.VerdictSays | src/agent-recovery-gate.ts:96-139 | the whole verdict from the events alone: no admission, no end of the turn, an end that is not `completed`, and otherwise which of the three calls were made and completed in order |
| RecoveryGate.OkExactly | src/agent-recovery-gate.ts:96-139 | ok if and only if, strictly inside the completed turn, the three calls were made with the required inputs and completed in order |
| RecoveryGate.OnlyOwnEventsCount | src/agent-recovery-gate.ts:115-120 | events of other prompts or generations never change the verdict |
| RecoveryGate.ArrivalOrderDoesNotCount | src/agent-recovery-gate.ts:99 | permuting events with distinct sequence numbers never changes the verdict |
| RulesRegistry.AcquireServes | src/managed-cli.ts:514-533 | an acquire serves its holder and narrows no other holder |
| RulesRegistry.Host.Acquire | src/managed-cli.ts:514-533 | the file gets what its other holders had and this one asks for, or only the latter when it holds alone; a conflict changes nothing |
| RulesRegistry.Host.CarryOut | src/managed-cli.ts:542-590 | every entry is treated as planned, independently of the others, and files go only with their last holder |
| RulesRegistry.Host.Release | src/managed-cli.ts:542-559 | drops the holder everywhere but at `keep`, and nobody else; no file that is not Fleet's is touched |
| RulesRegistry.Host.Reconcile | src/managed-cli.ts:567-590 | entries of one configuration are held by those expected and those of its holders still alive, entries of configurations that are gone by nobody, all others stay; no file that is not Fleet's is touched |
| RulesRegistry.FileIffHeld | src/managed-cli.ts:472-590 | a generated file exists if and only if it is held, and has all its holders last acquired |
| RulesRegistry.Host.Drive | src/managed-cli.ts:472-590 | this holds after any sequence of operations, and foreign files are as they were |
| AuditStore.FilteringIsRedaction | src/erased-resources.ts:33-41 | what the store does to an attempt is what `redact` does to its JSON |
| AuditStore.FilteredTwice | src/erased-resources.ts:33-41 | filtering an attempt by one registry and then another is filtering it by both; its arguments are replaced by digests once |
| AuditStore.RetryIsKnown | src/fleet-command-audit.ts:342-345 | erasing an attempt's arguments does not change which requests are retries of it, as far as digests tell them apart |
| AuditStore.RequestKeepsItsAttempt | src/fleet-command-audit.ts:341 | a repeated request finds the attempt it found first, whatever happened since |
| AuditStore.Store.Begin | src/fleet-command-audit.ts:339-351 | one attempt per caller and request; repeating it returns the first, also after erasure, other arguments are refused |
| AuditStore.Store.Invocation | src/fleet-command-audit.ts:352-358 | the invocation leaves `sending` once; another caller cannot touch it |
| AuditStore.Store.Finish | src/fleet-command-audit.ts:359-373 | the outcome is written once, as still being sent; another is refused unless it differs only in what has been erased |
| AuditStore.Store.Delivering | src/fleet-command-audit.ts:374-380 | the outcome's delivery leaves `sending` once, and needs an outcome |
| AuditStore.Store.Reopen | src/fleet-command-audit.ts:324-337 | a restart reads the file back, makes every `sending` uncertain and changes nothing else, and writes exactly if there was any |
| AuditStore.Store.Erase | src/erased-resources.ts:48-66 | the registry grows and the file is rewritten under it, or not, behind the store's back |
| AuditStore.Store.Drive | src/fleet-command-audit.ts:322-390 | over any operations, failed writes, restarts and erasures the file never goes back and attempts stay unique |
| AuditStore.SettledStays | src/fleet-command-audit.ts:322-390 | whatever the file once said of an attempt, as far as it was settled, it says ever after, less what is erased since |
| LifecycleEvents.Collection.Record | src/fleet-command-audit.ts:113-134 | an event is recorded unless one of the same digest is still held |
| LifecycleEvents.Collection.Fail | src/fleet-command-audit.ts:78-79 | a failed batch goes back in front, or is lost when the collection is gone |
| LifecycleEvents.DeliveredInTurnIff | src/fleet-command-audit.ts:75-80 | delivering a batch keeps recording order if and only if it is the oldest under way |
| LifecycleEvents.FailedInTurnIff | src/fleet-command-audit.ts:75-80 | a batch that goes back keeps recording order if and only if it is the newest under way |
| LifecycleEvents.OneAtATimeIsInTurn | src/fleet-command-audit.ts:75-80 | when no checkpoint starts while another is under way, none settles out of turn |
| LifecycleEvents.Collection.Drive | src/fleet-command-audit.ts:63-80 | nothing is lost if and only if no checkpoint fails after consumption; otherwise delivered then final batches are in recording order when none settles out of turn, hence when none starts while another is under way |
| LifecycleEvents.OverlapReorders | src/fleet-command-audit.ts:75-80 | two checkpoints under way together can be delivered in the other order |
| LifecycleEvents.OvertakingHeals | src/fleet-command-audit.ts:75-80 | and a run out of turn can end in order after all |
| LifecycleEvents.LateFailureLoses | src/fleet-command-audit.ts:75-80 | a checkpoint that fails after consumption loses its batch |
| ModelRecovery.Recovery.Reconcile | src/model-recovery.ts:76-101 | keeps a readable ledger of the chain, and starts at the first model otherwise |
| ModelRecovery.Recovery.RecordModelFailure | src/model-recovery.ts:103-141 | one piece of evidence moves the closed form on exactly when it qualifies against the model in effect |
| ModelRecovery.CountIsBounded | src/model-recovery.ts:103-141 | at most three pieces of evidence per model ever qualify |
| ModelRecovery.Recovery.Drive | src/model-recovery.ts:76-141 | after any evidence the ledger is the closed form of the number that qualified |
| BoundedMessages.LongerCuts | src/fleet-command-audit.ts:602-610 | a message with fewer details fits whenever one with more does |
| BoundedMessages.RendersLineByLine | src/fleet-command-audit.ts:602-610 | a message is its headline, one line per field, and the action behind a blank line |
| BoundedMessages.Fill | src/fleet-command-audit.ts:625-630 | the greedy loop finds the longest prefix of the details that fits with the marker |
| BoundedMessages.StructuredMessage | src/fleet-command-audit.ts:612-630 | within both bounds or an error; the marker shows exactly when a detail was dropped |
| BoundedMessages.GroupsShowAll | src/fleet-command-audit.ts:693-720 | grouping drops or reorders no visible field, and keeps no empty group |
| BoundedMessages.BoundedAgentMessage | src/fleet-command-audit.ts:693-720 | likewise by groups, with every mandatory field always shown |
| TemplateMerge.MergeTemplateDefinition | src/config.ts:718-734 | the loop over overrides merges field by field, and fails if and only if the merge meets a null it refuses |
| TemplateMerge.FieldByField | src/config.ts:718-734 | which fields the result has, and the eight that are merged while any other takes the override |
| TemplateMerge.RefusedIff | src/config.ts:718-730 | overrides are refused if and only if a field other than `model` is null, or a merged field holds a null where maps meet |
| TemplateMerge.GivenWins | src/config.ts:721-730 | a path to which the overrides give a value of their own has that value |
| TemplateMerge.OthersStay | src/config.ts:724-727 | any other path inside merged maps keeps the template's value |
| TemplateMerge.MergedTwice | src/config.ts:718-734 | merging the same overrides twice gives what merging once gives |
| TemplateMerge.SecondAcceptedIff | src/config.ts:721-724 | and the second merge is refused if and only if the overrides hold a null where maps merge |
| TemplateMerge.NullBelowNewMap | src/config.ts:721-729 | overrides accepted once and refused the second time |

## Left out

- Locks: directory listing, reading one file, replacing one file, the rename and the recursive removal of a lock are one step each; a claim that fails to parse makes the call give up.
- Locks: reading a claim is one step with the probe of its owner and the removal of a dead owner's claim, since a death verdict stays true and nobody else writes that path.
- Locks: lock directories without `owner.json` from older versions count as ownerless.
- Locks: expiry, polling, timeouts and the error for an unverifiable owner are free choices between waiting and giving up; removal of a lock is taken to succeed.
- DirectoryLock.MutualExclusion: does not cover histories with an ownerless removal of a lock published meanwhile or a refused signal to a live owner, for which it is false (`LockRace`); `DirectoryLock.RemovalOfLiveLockIsOwnerless` and `DirectoryLock.LiveOwnerCondemnedIffRefused` say exactly when these happen.
- DirectoryLock.StepKeepsInv: excludes the same two steps.
- DirectoryLock.LockLostOnlyByOwnerOrDeath: excludes the same two steps.
- DirectoryLock.CondemnedIsDead: excludes the same two steps.
- DirectoryLock.LiveHolderKeepsLock: excludes the same two steps.
- LockProgress.TakesOver: says what one caller can do while the others stand still; that it is scheduled, and that the age of the lock lets it start, are free choices.
- AtomicReplace.ReplaceFileAtomically: the file system is a map from paths to bytes; durability is the answer of the last call, not a crash model of the disk.
- Monitor: status causes, counts, message texts and the lease are not modelled; wake sources are fixed per world; a state file of another identity or profile is an unreadable one.
- Monitor: one monitor at a time drives a cursor; the daemon's pages are honest about the log they cover.
- Erasure: objects are maps, so key order is not modelled; hashing is a function parameter; lower-casing is ASCII; ledger shapes on which the original would throw count as no match.
- Erasure: each critical section is one operation, by the exclusion proved for the bakery lock.
- Publication: preflight checks of paths and permissions, the contents of generated files, and removal of stage directories are left out; neighbouring calls on paths of this run's own are grouped; the removal of a tree is one step; `dev:ino` is one number.
- Publication: what other processes do to a target between two looks of the run is one step, given by how they leave it; what they put at the root is a directory; nobody touches an original in its place, the stage, or the recovery directory.
- Publication, Creation: their file locks are taken to exclude, hence to have histories without the two hazards of `DirectoryLock`.
- CanonicalJson: numbers are the text JSON prints, strings are Unicode scalar values (no lone surrogates), and `undefined` is not a value.
- DaemonRecovery: writing the status file is taken to succeed; an operation does not call the controller back before its first await; epochs stand for their hash; the reader's size limit is left out.
- Creation: age-based removal of stale reservations and identity registries other than the host-local one are left out; a step and the record of its undo are one.
- RecoveryGate: numbers in tool inputs are integers.
- RulesRegistry: each operation is one step under its lock; a process that dies between writing the rules and the registry, and damaged registries, are left out; dry runs of reconciliation change nothing.
- AuditStore: classification and redaction of arguments and the time of invocation are left out; correlation ids are fresh; digests are a function parameter, and key order in a reported outcome is not modelled.
- LifecycleEvents: labels, erasure of presentations and the resources collected beside events are left out, as is a second collection begun while a checkpoint of the first is under way.
- ModelRecovery: classification of failure text by patterns, timestamps and the status file are left out.
- TemplateMerge: values are JSON; inherited properties and cloning are left out.
- Owner-channel identities, the generation observer of the daemon, session backends, harness adapters, command-line handling and reporting are not part of this model.
