# Verified model of the durable-workflow engine

A Dafny model of the parts of `packages/adonis` that make a workflow durable: the replay context and its fans,
entities, singleton admission, the fast reads of a run's detail and of a child's settlement, the schedulers and
gates, and the grammars of the ids that tie runs together. The store is the set of atomic operations declared in
`packages/adonis/src/interfaces.ts`; a process may die between any two of them.

`dafny verify dfyconfig.toml` checks everything.

## How it is laid out

| files | what they hold |
|---|---|
| `Common`, `Replay`, `ReplayRuns`, `ReplayProofs`, `ReplayLimits`, `WorkflowCtx` | a run as a state machine over single store operations, with crashes, child settlements and the clock interleaved; determinism of replay over every run; the inputs on which it fails; and the context object, whose methods are proved to be exactly the machine's operations in sequence |
| `FanFold`, `FanRuns`, `FanProofs`, `FanProgress`, `FanShelter`, `FanFailFast`, `FanFairness` | the waves of `ctx.all`, folding of settled waves and expansion of folds (in place, on arrays), the fan as a state machine, its bounds, the faithfulness of its results, failing fast, its completion alone and under fair interleaving, and what can lie under a fold |
| `Entities`, `EntityRuns`, `EntityCounts`, `EntityCalls` | the entity loop, the whole call protocol between a calling run and an entity, the count of what is sent, dropped and applied, and that calls are sent, applied and answered when turns go on ending |
| `SignalWait` | one token: a waiting run against any number of signallers |
| `RunStatuses`, `Singleton`, `SingletonRuns` | the admission decision, and every history of the runs competing for a key |
| `ChildSignals`, `ChildJournals` | the keyed lookup of a child's settlement, the page sweep of buffered completions, and the journals a parent's calls write |
| `RunDetail`, `RunDetailTotals`, `RunDetailStats`, `RunDetailStore`, `RunDetailViews` | the detail of a run read from `GROUP BY` buckets, against the one read from every checkpoint, and what either says of the rows |
| `Queue`, `BoundedRunner`, `Accumulators`, `Schedules`, `ScheduleWindows`, `Scheduler` | the gates and schedulers, as classes or as processes racing on one store |
| `Text`, `FanIds`, `FanGroups`, `LifecycleIds` | the printers and parsers of ids, on strings |

Code that updates state in place is a class, or a method over arrays, proved against a function; the function's
properties are then the lemmas. Protocols between processes are `datatype World` / `datatype Event` machines: an
event that cannot happen in a state leaves it unchanged, so every list of events is a run.

## What the proofs found

- **A child's failure can be told twice, differently.** `failedCompletion` carries `code` and `details`
  (completion.ts:29-36); a parent that re-derives the completion from the child's row does not
  (workflow-ctx.ts:780-783), although the comment there calls it the exact completion. A notification that took the
  waiter just before then overwrites the parent's record, and a body that branches on `code` trips the
  non-determinism guard on its next turn. `DeterministicIffLossless`: this is the only way a body that catches no
  failed step can trip it.
- **A failed local step that the body catches runs again on replay**, and may then succeed (`CaughtStepRun`).
- **An entity op can be lost, and a record overwritten.** The buffer is read destructively before the wait is
  recorded, so a turn that dies in between drops an op already marked as sent (`OpLostRun`); and a turn that reads
  its buffer leaves an earlier waiter registered, so a later wake-up can write over a recorded wait
  (`ClobberedRun`). `OrderlyIff` says exactly which steps can lead there, `SentAppliedIff` exactly which ops are
  applied.
- **A resume can lose a fire.** It reads the row and later writes all of its state back with no expected fire time:
  a window fired in between is committed again (`FiredTwiceRun`), and by setting the row back it lets two pollers
  through that the compare-and-set should keep apart (`SetBackRun`). `CountsIff` is the exact condition.
- **A wake can be lost on a token that two waits share.** A signaller whose second look finds the buffer empty has
  already taken a waiter and drops it, on the reading that the waiter resolved itself; but with a token a loop reuses,
  as entities and accumulators do, it may be the run's next wait. The run then sleeps with no waiter, every later
  signal is buffered, and only the reconcile sweep, if it is on, wakes it (`LostWakeRun`, `GivenUpSleeps`).
  `NoLostWake` says this is the only way.
- **Two signals racing on one token can write the same wait** (`TwoSignalsCollide`).
- **A free singleton slot can stay unused.** With a limit of two, two waiters requeued behind a younger holder each
  count the other as a possible legacy holder, attempt after attempt (`SlotCanStayIdle`); the comment on legacy
  accounting says it can only delay. `FreeSlotIff` says when the oldest waiter takes a free slot.
- **The keyed child lookup is not the lookup by name on two kinds of journal**: one where an outcome the child no
  longer has lies under a fold, and one where a caller's own id is spelled like a minted one (`LateRowDiffers`,
  `LookAlikeDiffers`). `KeyedIsByName` says these are all; a fan whose children have one outcome each never makes
  the first (`FanChildFound`).
- **A scheduled window whose start throws is lost to that process.** The memo is written before the start, so it
  does not only skip work known to have happened (`ThrownWindowLost`); and a deferred window queued behind the throw
  is gone once the schedule has moved past it (`QueuedBehind`).

## Model

| member | source | states |
|---|---|---|
| `ReplayProofs.ReplayDeterminism` | packages/adonis/src/workflow-ctx.ts:257-802 | For every interleaving of turns, single store operations, crashes, clock ticks, child starts, settlements and notifications: the non-determinism guard never fires, what has been observed only grows, a turn in progress has been given a prefix of it (but for a step that has just failed), and every observed position replays the same from the journal ever after |
| `ReplayProofs.CompletedStepNeverReruns` | packages/adonis/src/workflow-ctx.ts:300-305 | No step body that runs after a point of a run is at a position observed before that point |
| `ReplayProofs.SameResult` | packages/adonis/src/workflow-ctx.ts:251-284 | Any two turns of a run that return, return the same value |
| `ReplayProofs.DoKeeps` | packages/adonis/src/workflow-ctx.ts:712-802 | Each event, of the turn or around it, keeps the invariant behind determinism |
| `ReplayLimits.DeterministicIffLossless` | packages/adonis/src/workflow-ctx.ts:780-783 | For bodies that catch no failed step, the guard never fires in any run if and only if every child's row re-derives the completion its notification carries |
| `ReplayLimits.LosslessChild` | packages/adonis/src/completion.ts:29-36 | A row re-derives the completion exactly when the child completed, or failed with neither code nor details |
| `ReplayLimits.LossyRun` | packages/adonis/src/workflow-ctx.ts:765-796 | For every lossy failure, a body and a run in which the guard fires |
| `ReplayLimits.CaughtStepRun` | packages/adonis/src/workflow-ctx.ts:300-377 | A body that catches a failed step, and a run in which its step runs again, succeeds, and the guard fires |
| `WorkflowContext.PrimitiveIsItsOperations` | packages/adonis/src/workflow-ctx.ts:290-421 | A primitive run without interleaving is the machine's operations, one after the other, and ends in its effect |
| `WorkflowContext.LastIsFirstNotRetried` | packages/adonis/src/workflow-ctx.ts:290-377 | The attempt that decides a step is the first that succeeds, is fatal, or is the last allowed; every earlier one failed and was not fatal |
| `WorkflowContext.LastDecides` | packages/adonis/src/workflow-ctx.ts:306-377 | Exactly one attempt decides a step: the first that succeeds, fails fatally or is the last of `retries`, at least one; and the retry loop ends with it |
| `WorkflowContext.StepEndsIff` | packages/adonis/src/workflow-ctx.ts:306-377 | A step yields `v` exactly when one of its `retries` attempts (one, if fewer) succeeds with `v` after failures that are not fatal; it throws `f` exactly when such failures end in one with `f` that is fatal or the last allowed |
| `WorkflowContext.Ctx.LocalStep` | packages/adonis/src/workflow-ctx.ts:290-377 | The object ends in the machine's state; a name that differs ends the turn, a completed checkpoint is handed back as recorded, and otherwise the deciding attempt of the literal `retries` is recorded at the position and its value or failure handed to the body |
| `WorkflowContext.Ctx.Execute` | packages/adonis/src/workflow-ctx.ts:306-377 | The retry loop records the deciding attempt as completed with its output or as failed, and hands the body that output or that failure |
| `WorkflowContext.Ctx.Sleep` | packages/adonis/src/workflow-ctx.ts:407-424 | A timer is recorded once, for its time from now; a replay resumes exactly when that time has come and parks again until then, writing nothing |
| `WorkflowContext.Ctx.SetEvent` | packages/adonis/src/workflow-ctx.ts:1333-1344 | An event is published once, with its value under the name its position expects; a name that differs ends the turn |
| `WorkflowContext.Ctx.Child` | packages/adonis/src/workflow-ctx.ts:712-802 | The object ends in the machine's state; a recorded completion is told again with nothing written, a new call leaves waiter and placeholder before it looks, and the body is told the child's value or thrown its failure |
| `WorkflowContext.Ctx.Collect` | packages/adonis/src/workflow-ctx.ts:745-802 | The lost-notify guard: the oldest buffered completion, else what the terminal row says without code and details, is recorded, its waiter freed and its value or failure handed to the body; else the turn waits |
| `FanPlan.AllWaves` | packages/adonis/src/fan-join.ts:104-123 | Rejected exactly for a limit that is no positive integer, unbounded exactly without a limit below the size; otherwise waves of one for a limit of one, and two waves of half the limit for any other, so that in flight are at most `concurrency` children and at most one fewer |
| `FanPlan.Plan.InWave` | packages/adonis/src/workflow-ctx.ts:831-843 | The item-to-wave arithmetic and the slice of items of a wave agree |
| `FanFold.Expand` | packages/adonis/src/workflow-ctx.ts:1099-1119 | The in-place loop that grows folds back into checkpoints yields the view in which each item under a fold reads as its completed checkpoint, marks exactly those items, and fails exactly on a malformed fold no fold covers |
| `FanFold.ReadFan` | packages/adonis/src/workflow-ctx.ts:1093-1140 | Snapshot rows expanded, missing rows read live and expanded: what the fan sees, and when it fails |
| `FanFold.FoldSettled` | packages/adonis/src/workflow-ctx.ts:942-972 | The folding loop leaves store and snapshot with exactly the fully successful waves folded |
| `FanFold.CompactTransparent` | packages/adonis/src/workflow-ctx.ts:954-970 | Folding one successful wave leaves every item's completion as it reads |
| `FanFold.FoldTransparent` | packages/adonis/src/workflow-ctx.ts:939-972 | Whatever waves are folded, in whatever order, every item reads back the completion it had, and the same items have a checkpoint |
| `FanProofs.FanBounded` | packages/adonis/src/workflow-ctx.ts:974-1028 | Over every interleaving of turns, crashes, settlements and lost starts: at most `maxWaves` of the waves sent have a child not over, only children of sent waves run, and no more children run than those waves hold |
| `FanProofs.ConcurrencyRespected` | packages/adonis/src/fan-join.ts:104-123 | Under a limit that binds, no more than `concurrency` children ever run at once |
| `FanProofs.ResultsFaithful` | packages/adonis/src/workflow-ctx.ts:912-1051 | Every result says of each child what it said, in input order: all outputs when all succeeded, exactly the failures otherwise, and those only from a fan that does not fail fast, a failed child when it does |
| `FanProofs.WavesSentInOrder` | packages/adonis/src/workflow-ctx.ts:988-1028 | A dispatch sends the waves right after those sent, with all of their children |
| `FanProofs.DispatchBounded` | packages/adonis/src/workflow-ctx.ts:974-986 | The waves a dispatch makes active never take the live ones past the limit |
| `FanProofs.GatherFaithful` | packages/adonis/src/workflow-ctx.ts:1030-1051 | What the last turn gathers is faithful |
| `FanProofs.ActiveComplete` | packages/adonis/src/workflow-ctx.ts:974-986 | A dispatch that makes fewer waves active than the limit lets has left no unsettled wave out |
| `FanProofs.FoldsIff` | packages/adonis/src/workflow-ctx.ts:939-972 | Waves are folded, each before anything is sent, exactly with a store that can and 100 children or more, and a wave then exactly when all its children have succeeded and it is not folded yet |
| `FanProofs.TakeIs` | packages/adonis/src/workflow-ctx.ts:845-910 | What a turn takes for a placeholder: the oldest buffered completion if the token listing showed one, else what the terminal row says without code and details; a child with no row is started again |
| `FanFailFast.FailsFastIff` | packages/adonis/src/workflow-ctx.ts:912-935 | After any history a turn that has delivered all it could ends there if and only if the fan fails fast and the turn sees a failed child; it throws the failure of the lowest, and however the run goes on nothing is sent or registered and no turn ends but by throwing |
| `FanFailFast.NothingSentAfter` | packages/adonis/src/workflow-ctx.ts:912-935 | Once a failure is stored for a fan that fails fast, with any turn under way still to see it, no run sends a wave, registers a child or adds a result but a throw |
| `FanProgress.RoundAdvances` | packages/adonis/src/workflow-ctx.ts:813-1051 | A turn left to itself ends with a result, or leaves one more wave whose children are all recorded and, once they settle, over |
| `FanProgress.FanEnds` | packages/adonis/src/workflow-ctx.ts:813-1051 | After any history of crashes and losses, at most one turn more than there are waves yields a faithful result |
| `FanFairness.FairFanEnds` | packages/adonis/src/workflow-ctx.ts:813-1051 | After any history, in every run in which turns go on ending and each child started is over in the end, whatever the order in which children start and settle, completions land, and further turns begin or die: a faithful result comes within one fair epoch for each wave and two for each notification that lands on a fold, of which there are at most two a wave |
| `FanFairness.FairRunExists` | packages/adonis/src/workflow-ctx.ts:813-1051 | From any state between turns a fair run can go on for any number of epochs |
| `FanFairness.EpochAdvances` | packages/adonis/src/workflow-ctx.ts:813-1051 | A turn not killed, and its children over by the end of the epoch, give a result or one wave fewer that is not ready, but for the waves whose folds were landed on |
| `Entities.AppliedOnce` | packages/adonis/src/entities.ts:171-178 | No two applied messages carry the same id |
| `Entities.GivenIsApplied` | packages/adonis/src/entities.ts:171-178 | Every op given is applied |
| `Entities.NextApplied` | packages/adonis/src/entities.ts:171-178 | The next message is passed over exactly when it is a wake-up or its id came with an earlier message, and applied last otherwise |
| `Entities.Runner.Receive` | packages/adonis/src/entities.ts:172-195 | One message of the loop: skipped exactly when a wake-up or a copy, and otherwise handled on the state of the messages applied so far; a recorded outcome is used instead of the handler |
| `Entities.Replay` | packages/adonis/src/entities.ts:163-195 | The loop over a whole log computes the fold of the handlers over the messages applied: a chain of states, each the handler's on the one before, stopping where a handler throws |
| `EntityRuns.CallsExactlyOnce` | packages/adonis/src/workflow-ctx.ts:1190-1260 | Whatever crashes and however often ops are sent again, as long as no record was overwritten, every value a call returns is the recorded result of its op, which the entity applied exactly once |
| `EntityRuns.StateIsFold` | packages/adonis/src/entities.ts:163-197 | In every run the recorded outcomes are the handlers' on the id-deduplicated messages, and the published state is their fold |
| `EntityRuns.SentIsApplied` | packages/adonis/src/entities.ts:103-123 | An op marked as sent is buffered, on its way, recorded or lost with a turn that died; when nothing is left to do and it was not lost, it has been applied exactly once |
| `EntityRuns.NothingOverwritten` | packages/adonis/src/workflow-ctx.ts:526-552 | An orderly run, one in which no step takes a message for a wait that has another recorded or in hand, overwrites no record |
| `EntityRuns.OrderlyIff` | packages/adonis/src/workflow-ctx.ts:526-552 | A run is orderly if and only if at no point of it could saving the messages in hand, in any order, overwrite a record: so every disorderly step has a continuation that overwrites |
| `EntityRuns.SafeIff` | packages/adonis/src/workflow-ctx.ts:526-552 | What is in hand can be saved without overwriting exactly when it agrees with what the waits have recorded and with itself |
| `EntityRuns.OrderlyExactlyOnce` | packages/adonis/src/workflow-ctx.ts:1190-1260 | In every orderly run each call that returns has had its op applied exactly once, and returns its result |
| `EntityRuns.OrderlyStateIsFold` | packages/adonis/src/entities.ts:163-197 | In every orderly run the recorded outcomes are the handlers' on the id-deduplicated messages, and the published state is their fold |
| `EntityCounts.SentAppliedIff` | packages/adonis/src/entities.ts:103-123 | In an orderly run with nothing left to do, the entity has applied a call's op, and then exactly once, if and only if fewer copies of it were dropped by dying turns and deliveries than were sent |
| `EntityCounts.RunCounts` | packages/adonis/src/entities.ts:103-123 | Over any run, the copies of a message on their way, dropped and saved are those that were there and those sent |
| `EntityCounts.MarkedIsApplied` | packages/adonis/src/workflow-ctx.ts:1190-1260 | So an op its call has marked as sent, no copy of which was dropped, is applied exactly once |
| `EntityCalls.EveryCallApplied` | packages/adonis/src/workflow-ctx.ts:1190-1280 | In an orderly run in which a turn of a call's has ended, awaited or not, no copy of its op was dropped and nothing is left to do, the entity has applied just the op asked for, exactly once |
| `EntityCalls.SentAgain` | packages/adonis/src/workflow-ctx.ts:1229-1240 | From any state in which an awaited call has left its intent unmarked, whatever happens and however often its turn dies, by the time a turn of it ends its op has been sent or the call has returned |
| `EntityCalls.CallerSends` | packages/adonis/src/workflow-ctx.ts:1229-1240 | Such a turn left to itself, with no reply to find, buffers the op, marks it if the store can, and ends |
| `EntityCalls.SentNoMore` | packages/adonis/src/workflow-ctx.ts:1195-1240 | Once the call's op is marked as sent, noted or answered, no run sends another copy of it |
| `EntityCalls.SignallerSends` | packages/adonis/src/workflow-ctx.ts:1261-1280 | The turn of a call that awaits nothing, left to itself, buffers its op and records that it has |
| `EntityCalls.Drains` | packages/adonis/src/entities.ts:163-197 | With handlers that do not throw, after any orderly run the entity can work off all it holds, in order and dropping nothing, until nothing is left to do |
| `EntityCalls.NextTurnReturns` | packages/adonis/src/workflow-ctx.ts:1198-1235 | With a reply recorded or buffered, the call's next turn left to itself returns that reply, has recorded it and waits for no other |
| `EntityCalls.CallReturns` | packages/adonis/src/workflow-ctx.ts:1190-1260 | In an orderly run that lost none of a call's replies, once the entity is done with its op the next turn of the call's left to itself returns what the handler gave |
| `EntityRuns.OpLostRun` | packages/adonis/src/workflow-ctx.ts:441-454 | A run in which an op marked as sent is dropped for good |
| `EntityRuns.ClobberedRun` | packages/adonis/src/workflow-ctx.ts:526-552 | A run in which a call has returned and the entity's log no longer holds its op |
| `SignalWait.NoLostWake` | packages/adonis/src/engine.ts:6078-6104 | However check, register, re-check interleave with take, buffer, re-take, and wherever a turn dies, once no signaller has a step left a run asleep at a wait not yet recorded has its waiter registered and nothing buffered for it, exactly when no signaller has given that wait up since it registered |
| `SignalWait.TendedIff` | packages/adonis/src/engine.ts:6086-6104 | At every moment of every run: a wait not yet recorded has someone who can still deliver to it exactly when it has not been given up |
| `SignalWait.GivenUpSleeps` | packages/adonis/src/engine.ts:6094-6102 | After a wait is given up, whatever is signalled, until something else begins a turn the run sleeps on, records nothing, and every payload ends up in the buffer |
| `SignalWait.LostWakeRun` | packages/adonis/src/engine.ts:6094-6102 | A run with no crash and nothing dropped that ends asleep with a payload buffered and no one with a step left |
| `SignalWait.EachOnce` | packages/adonis/src/engine.ts:6086-6104 | Each signal sent is at every moment in exactly one place |
| `SignalWait.KeptIff` | packages/adonis/src/workflow-ctx.ts:526-553 | Any number of signals: once no one is handling one, every signal sent is recorded or still buffered as often as it was sent, exactly when no step dropped one: a turn that died holding it, or a record written over another |
| `SignalWait.OneSignalOnce` | packages/adonis/src/workflow-ctx.ts:526-553 | One signal on the token, no turn dying with it in hand: recorded exactly once or still buffered, never both, never lost |
| `SignalWait.TwoSignalsCollide` | packages/adonis/src/workflow-ctx.ts:544-552 | A run in which two signals write the same wait and one is lost |
| `SignalWait.WaitAlone` | packages/adonis/src/workflow-ctx.ts:526-553 | A waiting turn on its own records a payload already buffered without registering, and otherwise falls asleep registered |
| `SignalWait.SecondLook` | packages/adonis/src/workflow-ctx.ts:540-552 | A payload buffered since the waiter was registered is recorded by the second look, which then frees the waiter |
| `SignalWait.SignalAlone` | packages/adonis/src/engine.ts:6086-6104 | A signaller on its own delivers to a waiting run, and buffers the payload otherwise |
| `SignalWait.SignallerPairs` | packages/adonis/src/engine.ts:6094-6104 | A signaller whose second look finds a run registered since delivers it the oldest buffered payload |
| `Singleton.AdmissionIff` | packages/adonis/src/singleton-admission.ts:118-150 | A run is admitted exactly when it is active under the key and holds a slot or is among the oldest waiters that free slots are left for; it then has the admitted tag, not the tracked one, and every other tag it had |
| `Singleton.AdmissionByRows` | packages/adonis/src/singleton-admission.ts:27-150 | The decision by the rows: among the workflow's pending, running, suspended or blocked rows with the key's tag, a run is let in exactly when it is admitted already or has fewer waiters ahead of it, by creation and id, than the admitted and possibly unmarked holders leave slots |
| `Singleton.OldestByRank` | packages/adonis/src/singleton-admission.ts:35-37 | Sorting by creation and taking the first `n` is having fewer than `n` runs older |
| `Singleton.LegacyIs` | packages/adonis/src/singleton-admission.ts:77-104 | The legacy holders are the runs never marked, or inside the window the scan of older replicas ranked |
| `Singleton.LegacyOnlyDelays` | packages/adonis/src/singleton-admission.ts:56-104 | Admitted with legacy holders counted, admitted without, for every set of runs and every limit |
| `Singleton.LimitOneUnchanged` | packages/adonis/src/singleton-admission.ts:56-104 | With a limit of one and every other run tracked, legacy accounting changes no decision |
| `Singleton.OldestAdmitted` | packages/adonis/src/singleton-admission.ts:118-150 | With no holder and every other run tracked, the oldest waiter that has run is admitted |
| `Singleton.FreeSlotIff` | packages/adonis/src/singleton-admission.ts:77-150 | With every other run tracked and a slot free, the oldest waiter, running or suspended, takes it exactly when every holder has fewer than `limit` older runs in the old scan's ranking |
| `Singleton.FreeSlotPendingIff` | packages/adonis/src/singleton-admission.ts:77-150 | One that has not run takes it exactly when fewer than `limit` runs are in that ranking |
| `SingletonRuns.AtMostLimit` | packages/adonis/src/singleton-gate.ts:83-100 | After any history of starts, moves, denials, lease losses, settlements, requeues and runs of older replicas, at most `limit` pending, running, suspended or blocked runs of the key have the admitted tag, and no completed, failed, cancelled or dead run has |
| `SingletonRuns.HolderKeeps` | packages/adonis/src/singleton-admission.ts:183-194 | A holder keeps its slot through every event but its own settlement or requeue |
| `SingletonRuns.AdmitsTheOldest` | packages/adonis/src/singleton-admission.ts:118-150 | Each admission leaves fewer older waiters than there are slots left by holders and legacy holders |
| `SingletonRuns.DenialRevivesNothing` | packages/adonis/src/singleton-admission.ts:157-180 | A run no longer active is exactly as it was after a denied attempt |
| `SingletonRuns.SlotCanStayIdle` | packages/adonis/src/singleton-admission.ts:77-104 | A run from the empty store after which one run holds one of two slots and two older waiters compete, and no attempt of either, on whatever listing, changes anything |
| `SingletonRuns.Store.TryAdmitSingleton` | packages/adonis/src/testing/in-memory-state-store.ts:233-251 | The critical section decides and claims on one snapshot: an admitted row is marked so and no longer tracked, a denied one that competes is suspended and tracked when a retry is given, and nothing else changes |
| `SingletonRuns.Gate.Admit` | packages/adonis/src/singleton-gate.ts:83-100 | Admitted exactly when the run holds a slot afterwards, in a valid store; its own copy, however old, gains the admitted tag for the tracked one; no other run and no status but a denied candidate's changes |
| `ChildJournals.KeyedIsByName` | packages/adonis/src/buffered-child-signals.ts:161-242 | On every journal a parent writes, with any number of fans beside other calls, the lookup by computed positions decides as the scan by name exactly when the child is neither shadowed (its own row, under a fold that covers it, says otherwise) nor misplaced (its outcome is recorded, but not where its id leads the lookup) |
| `ChildJournals.WrittenWell` | packages/adonis/src/workflow-ctx.ts:712-1051 | What fans, folded or not and in waves or not, awaited and started children and other calls write is what the keyed lookup supposes, rows under folds included |
| `ChildJournals.FanChildFound` | packages/adonis/src/workflow-ctx.ts:942-971 | In every state a fan reaches, whatever crashed or landed late under a fold, both lookups agree on a child's own completion |
| `ChildJournals.SeqChildFound` | packages/adonis/src/buffered-child-signals.ts:161-242 | Both agree on a child by position that no call awaits by its id |
| `ChildJournals.FanIsGood` | packages/adonis/src/fan-join.ts:104-123 | The cells of a fan, whatever its limit and its run, hold folds of whole waves only |
| `FanShelter.UnderFolds` | packages/adonis/src/workflow-ctx.ts:939-1018 | In every state a fan reaches, a row under a fold is the completion its child was notified with, and what the fold stands for |
| `WorkflowContext.ChildWritesItsRow` | packages/adonis/src/workflow-ctx.ts:712-802 | All an awaited child's call writes is a placeholder or an outcome, under its signal's name, at its own position |
| `ChildSignals.KeyedIff` | packages/adonis/src/buffered-child-signals.ts:61-242 | The same equivalence on any journal whose folds are where their names say |
| `ChildSignals.KeyedSeqIff` | packages/adonis/src/buffered-child-signals.ts:61-242 | For a child by position, on any journal at all |
| `ChildSignals.ByNameIs` | packages/adonis/src/buffered-child-signals.ts:61-90 | By name: some completed checkpoint is the child's signal with that payload, or a fold of its block that spans it |
| `ChildSignals.ParentSettles` | packages/adonis/src/buffered-child-signals.ts:161-242 | The three batched reads give the keyed answer for every entry |
| `ChildSignals.Sweep` | packages/adonis/src/buffered-child-signals.ts:321-379 | A row is doomed if its id names no run, or its parent's run is absent, completed or cancelled; only if so, or if its parent's checkpoints were read and one tells its completion; so never for a failed or dead parent with nothing recorded. A row before `decided` whose completion is recorded where the keyed lookup goes is doomed; `decided` covers at least one row of a page that has any, and all unless the time was up |
| `ChildSignals.GroupRows` | packages/adonis/src/buffered-child-signals.ts:336-357 | Rows still to be asked about, grouped by parent in page order, and the rows the parent's run row alone dooms |
| `ChildSignals.AskParent` | packages/adonis/src/buffered-child-signals.ts:358-375 | One parent's journal answers all of its rows; an unreadable one answers none |
| `ChildSignals.LateRowDiffers` | packages/adonis/src/buffered-child-signals.ts:161-242 | A shadowed child: an outcome it no longer has, landed under a fold; the scan sees the fold, the keyed read the row |
| `ChildSignals.LookAlikeDiffers` | packages/adonis/src/buffered-child-signals.ts:61-90 | A misplaced child: a caller-chosen id spelled like a minted one, on which the two lookups differ |
| `RunDetail.MergeSelections` | packages/adonis/src/run-detail-summary.ts:480-482 | Two disjoint selections of a timeline, merged, are the selection of either |
| `RunDetail.MergeFirst` | packages/adonis/src/run-detail-summary.ts:506-579 | The first `n` of a merge need only the first `n` of each side |
| `RunDetailTotals.TotalsMean` | packages/adonis/src/run-detail-summary.ts:105-152 | The totals of any list of rows: each count is the weight of the rows of that status, a completed child that reports a failure counted as failed, the size is their sum, and first, last, start and finish are the least or greatest of the rows' |
| `RunDetailStats.CheckpointStats` | packages/adonis/src/run-detail-summary.ts:408-450 | The accumulating loop yields the buckets of the rows |
| `RunDetailStats.StatsSum` | packages/adonis/src/run-detail-summary.ts:408-450 | The buckets add up to what the rows' columns do |
| `RunDetailStats.GroupStats` | packages/adonis/src/run-detail-summary.ts:616-671 | A group's buckets are the buckets of its rows |
| `RunDetailStore.SummarizeFan` | packages/adonis/src/run-detail-summary.ts:112-152 | The full scan of one fan: counts by status, failures as failed, adding up to the size; places and times the extremes of its members; the first 20 that fail, in order, some if and only if one does; how many declared children have no row; and the heading |
| `RunDetailStore.SummaryMeans` | packages/adonis/src/run-detail-summary.ts:105-152 | So for the summary of any list of members, independently of how either road adds them up |
| `RunDetailStore.TotalsAgree` | packages/adonis/src/run-detail-summary.ts:506-579 | Buckets, folded rows and completed children add up to the members' totals |
| `RunDetailStore.LabelsAgree` | packages/adonis/src/run-detail-summary.ts:566 | The label read off minimum and maximum names is the one read off the members |
| `RunDetailStore.FailuresAgree` | packages/adonis/src/run-detail-summary.ts:506-579 | Failed rows merged with failed children are the failed members, and their first `n` the members' first `n` |
| `RunDetailStore.SummarizeFanFromStats` | packages/adonis/src/run-detail-summary.ts:506-579 | The summary from buckets is the summary of the full scan, and says as much of the members |
| `RunDetailViews.SummarizeTimeline` | packages/adonis/src/run-detail-summary.ts:160-186 | The full scan draws exactly the wide fans that have rows, each summary true of its members, in the order of their first rows, and leaves the rest of the timeline |
| `RunDetailViews.FansSorted` | packages/adonis/src/run-detail-summary.ts:184 | Fans in order of appearance are already in order of first position |
| `RunDetailViews.SummarizeRunFromStore` | packages/adonis/src/run-detail-summary.ts:616-671 | Same timeline, same fans, same first children as the full scan, for every timeline; the count of children is exact unless both the edges and the children outrun one page, and then never too low |
| `RunDetailViews.FirstChildIds` | packages/adonis/src/run-detail-summary.ts:580-601 | Page by page: a prefix of the distinct child ids, all of them when it says so |
| `RunDetailViews.PageFanFromStore` | packages/adonis/src/run-detail-summary.ts:674-711 | The page read from the store is the page of the full list, for every offset and limit: the group's rows, or those that fail, from the offset on, at most `limit`, with their number |
| `RunDetailViews.FanPageBounds` | packages/adonis/src/run-detail-summary.ts:198-208 | A usable offset is floored and at least 0, a usable limit floored and from 1 to 500; otherwise 0 and 100 |
| `Queue.QueueController.TryAdmit` | packages/adonis/src/queue.ts:111-166 | Admitted exactly when the rate limit leaves room, a slot is free and it is the call's turn; without fairness by key that is when no other waiter has a higher priority or, with the same, arrived before it (after it, last in first out), or no order applies to it; by key, fairness to every waiter; a rate denial names the earliest instant a rolling window passes or the end of the fixed one, any other block the retry; who is registered and who cleared; every invariant of the history |
| `Queue.QueueController.Bounds` | packages/adonis/src/queue.ts:79-171 | Over every history: any window of a period holds at most `limit` sliding admissions and at most twice `limit` fixed ones; in flight is admissions less effective releases, within `concurrency` |
| `Queue.QueueController.SlidingCheck` | packages/adonis/src/queue.ts:111-166 | Lets a call in exactly when the admissions of the last period leave room; a denial names the earliest instant they will |
| `Queue.QueueController.FixedCheck` | packages/adonis/src/queue.ts:111-166 | A new window starts once the last is over; a denial names its end |
| `Queue.QueueController.IsNext` | packages/adonis/src/queue.ts:188-204 | True exactly when the caller comes before every other registered waiter |
| `Queue.QueueController.Register` | packages/adonis/src/queue.ts:173-186 | The arrival of a waiter is stamped once and survives a refresh |
| `Queue.QueueController.Release` | packages/adonis/src/queue.ts:169-171 | A release with nothing in flight has no effect |
| `Queue.BetterIsOrder` | packages/adonis/src/queue.ts:207-221 | Priority, least recently served, arrival: a strict order, total on waiters that arrived apart |
| `Queue.BetterIs` | packages/adonis/src/queue.ts:205-221 | The higher priority first; then the key served less recently; then the earlier arrival, or the later for a queue that is last in, first out, a call not registered having come last |
| `Queue.SpacedBoundsWindow` | packages/adonis/src/queue.ts:79-171 | Admissions `gap` apart a period apart put at most `gap` in any window of a period |
| `Queue.PassesByCount` | packages/adonis/src/queue.ts:113-126 | The rolling window lets a call in exactly when fewer than `limit` calls were admitted in the last period |
| `Queue.FixedSpaced` | packages/adonis/src/queue.ts:79-171 | Fixed-window admissions twice `limit` apart are a period apart |
| `Queue.NoSecondTurn` | packages/adonis/src/queue.ts:207-221 | A caller that passes a waiter of another key and no lower priority is of a key not served since that waiter's key was |
| `Queue.TurnIsFair` | packages/adonis/src/queue.ts:136-165 | A call whose turn it is passes no waiter of another key and no lower priority that was not served since the call's own key last was |
| `BoundedRunner.Runner.Submit` | packages/adonis/src/bounded-runner.ts:31-46 | Starts at once when a slot is free, joins the waiter of its key, or waits last; the peak is the most that ever ran |
| `BoundedRunner.Runner.Settle` | packages/adonis/src/bounded-runner.ts:56-77 | Resolves the task's promise once and hands its slot to the oldest waiter |
| `BoundedRunner.Runner.Clear` | packages/adonis/src/bounded-runner.ts:49-54 | Resolves every waiting promise and starts nothing |
| `BoundedRunner.StartsNow` | packages/adonis/src/bounded-runner.ts:31-46 | A task accepted with a slot free keeps the accounting: each task running, waiting or resolved, and only one of them |
| `BoundedRunner.NextStarts` | packages/adonis/src/bounded-runner.ts:56-77 | Starting the oldest waiter keeps starts in arrival order, each task once |
| `BoundedRunner.Dropped` | packages/adonis/src/bounded-runner.ts:49-54 | Dropping what waits resolves each promise once |
| `Accumulators.Batch` | packages/adonis/src/event-accumulators.ts:121-156 | Over any stream of events and timeouts and across re-arms, the batches and the one still open are the new arrivals in order, each batch of 1 to `maxSize`; a batch is fired when it is full or its window ends and not before, none goes on past its window, and the open one is neither full nor over |
| `Accumulators.Debounce` | packages/adonis/src/event-accumulators.ts:86-119 | Each burst ends with the first quiet window after a new event and fires its last new payload; the last one exactly when such a window follows before the stream ends |
| `Accumulators.NotDeliveredAgain` | packages/adonis/src/event-accumulators.ts:175-197 | Two deliveries of one id have at least 200 other ids between them |
| `Accumulators.Seen.Take` | packages/adonis/src/event-accumulators.ts:184-191 | New exactly when the id is not remembered, and always without one; a new id is remembered last |
| `Accumulators.Seen.Carry` | packages/adonis/src/event-accumulators.ts:193-197 | What is carried is the last 200 ids, or all of fewer |
| `Schedules.FiresInOrder` | packages/adonis/src/schedules.ts:267-395 | Pollers racing with one another and with pauses, and with resumes that write over the row they read at the instant they took: in every state committed windows strictly increase, `fires` counts them, `lastFireAt` is the last, each has its run |
| `Schedules.CountsIff` | packages/adonis/src/schedules.ts:283-395 | Pollers, pauses and resumes in single steps: in every state of a run the row tells the history of what was fired, exactly when no write of the run (a commit whose compare-and-set passes, or a resume's) is made from a row read before the latest fire was committed |
| `Schedules.FiredTwiceRun` | packages/adonis/src/schedules.ts:283-297 | A resume that lets a poller fire between its read and its write undoes the fire, and the window is committed twice |
| `Schedules.SetBackRun` | packages/adonis/src/schedules.ts:283-297 | A resume loses a fire even when none is committed between its read and its write: two pollers that read different rows both pass their compare-and-sets |
| `Schedules.Client.Resume` | packages/adonis/src/schedules.ts:283-297 | The resume's write replaces the whole state with one built from the row read before, whatever the stored row has become |
| `Schedules.AdvanceGoesOn` | packages/adonis/src/schedules.ts:378-395 | Whatever the resumes, every advance that commits leaves the next fire beyond the poll's time and later than before |
| `Schedules.ReadIff` | packages/adonis/src/schedules.ts:314-333 | A poll takes the row up exactly when it is not paused and its fire time has come |
| `Schedules.StartRunIff` | packages/adonis/src/schedules.ts:335-375 | It starts the run of the interval's multiple at or before its time exactly when that is no later than a minute and the jitter ago, or windows are caught up; when the row waits for no later window; and when no run overlaps, or may |
| `Schedules.CommitIs` | packages/adonis/src/schedules.ts:376-395 | A commit that lands waits for the next multiple and its jitter, counts a fire if there was one, and leaves a pause; one that does not changes nothing |
| `Schedules.ResumeIs` | packages/adonis/src/schedules.ts:283-297 | A resume lifts the pause and waits for the first multiple after its time, with that window's jitter, keeping the history it read |
| `ScheduleWindows.NoWindowSkipped` | packages/adonis/src/schedules.ts:335-395 | Pollers racing between read, start and advance, reading at most the interval less the jitter apart (with a rule against missed windows, also its grace), none giving up a window it is to start: every window whose time has come by the latest read has its run or is held by a poller still to start it, and no other window ever has one |
| `Schedules.OnePoller` | packages/adonis/src/schedules.ts:335-395 | For polls that nothing interleaves with, the windows committed are consecutive, and the row waits for the one after |
| `Schedules.SkipsIff` | packages/adonis/src/schedules.ts:335-395 | A due poll fires the row's own window exactly when it comes before the next one |
| `Schedules.LatestWindow` | packages/adonis/src/schedules.ts:470-475 | The window at or before an instant, less than an interval back |
| `Schedules.NextWindow` | packages/adonis/src/schedules.ts:477-482 | The window strictly after an instant, at most an interval on |
| `Schedules.Client.Fire` | packages/adonis/src/schedules.ts:335-395 | Starts the latest window's run when it should, and advances the row unless another poller has |
| `Scheduler.CreatedOnce` | packages/adonis/src/scheduler.ts:376-453 | Each window is created at most once, whoever races and whatever throws |
| `Scheduler.CreatesExactlyWhatIsDue` | packages/adonis/src/scheduler.ts:376-499 | With the memo or without it, for every run of overlapping, throwing and restarting processes, once each is between ticks the windows due at some tick are exactly those created, each once, those that a throw or a restart made a process drop, and with a jitter those still deferred; undisturbed, none is dropped |
| `Scheduler.MemoIsTrue` | packages/adonis/src/scheduler.ts:438-499 | As long as no start throws, the memo names only windows that exist or are being started |
| `Scheduler.LookIs` | packages/adonis/src/scheduler.ts:430-449 | A process looks whether the head of its queue exists and notes that it has, forgetting the rest beyond 64, and starts it only if it did not |
| `Scheduler.BackfillCovers` | packages/adonis/src/scheduler.ts:340-363 | Ticks at most `maxCatchup` windows apart leave no window out |
| `Scheduler.DueIff` | packages/adonis/src/scheduler.ts:340-363 | A window is due from its start until `maxCatchup` windows after its end |
| `Scheduler.FirstSeenDraws` | packages/adonis/src/scheduler.ts:136-165 | A window first seen due fires at that tick without a jitter, and otherwise at the tick's time and its draw modulo the jitter |
| `Scheduler.JitteredFires` | packages/adonis/src/scheduler.ts:128-165 | So, whatever happens in between short of a restart of the process, it joins the windows to fire at the first tick at or after that time, and at none before |
| `Scheduler.DeferredFires` | packages/adonis/src/scheduler.ts:128-165 | A deferred window joins the windows to fire at the first tick at or after its drawn time, even once the schedule has moved on, and keeps that time until then |
| `Scheduler.ThrownWindowLost` | packages/adonis/src/scheduler.ts:436-499 | In any run of any processes, after a start that throws, a later tick of the process at which the window is due takes it up exactly when the process has not kept it in mind: it remembers nothing, restarted, or its memo overflowed since |
| `Scheduler.QueuedBehind` | packages/adonis/src/scheduler.ts:424-449 | The windows queued behind a throw are not remembered: the next tick takes one up exactly when it is still due, so a deferred one the schedule has moved past is gone |
| `Scheduler.ThrownRun` | packages/adonis/src/scheduler.ts:440-448 | A run in which a window is never created and no later tick of it fires it |
| `FanIds.ParentOfMinted` | packages/adonis/src/fan-join.ts:125-136 | The parser finds the parent of anything minted after an id, exactly when that id is not empty and holds no line terminator |
| `FanIds.ParentRoundTrip` | packages/adonis/src/fan-join.ts:127-136 | So for fan children in waves or not, children by position and failure handlers |
| `FanIds.FanIdInjective` | packages/adonis/src/fan-join.ts:13-17 | Two fan children of a run share an id only when fan, wave and index are the same |
| `FanIds.FanIdsDisjoint` | packages/adonis/src/fan-join.ts:13-17 | Nor do fan children of two runs, whatever the ids of the runs |
| `FanIds.OneParent` | packages/adonis/src/fan-join.ts:125-136 | An id is cut into a run's id and something minted in one way |
| `FanGroups.GroupRoundTrip` | packages/adonis/src/fan-join.ts:17-63 | Groups parse back to what was printed, and only a step fan's names a block of steps |
| `FanGroups.WaiterRoundTrip` | packages/adonis/src/fan-join.ts:138-159 | The barrier reads off a waiter exactly the prefix its parent suspended on |
| `FanGroups.PrefixCovers` | packages/adonis/src/fan-join.ts:142-159 | A prefix read off a waiter covers that waiter: what is left of its token is a child's index |
| `FanGroups.FoldedRoundTrip` | packages/adonis/src/fan-join.ts:87-98 | A fold names exactly the children of its block, in input order, and no other child of the fan |
| `LifecycleIds.LifecycleSourceIff` | packages/adonis/src/lifecycle-events.ts:188-273 | A run's id names a source and an ending exactly when it was minted for them and the source is not empty, whatever separators the ids hold |
| `LifecycleIds.RunWaitTargetIff` | packages/adonis/src/lifecycle-events.ts:342-366 | A waiter's token names a target exactly when it was minted for that target, run and position and the target is not empty |
| `LifecycleIds.ContinuationIs` | packages/adonis/src/lifecycle-events.ts:482-485 | The `k`-th continuation is the base with its number raised by `k` |
| `LifecycleIds.PredecessorIff` | packages/adonis/src/lifecycle-events.ts:513-523 | A run is among the predecessors of its `k`-th continuation exactly when `k` is at most 100, its base has no line terminator, and its own number, if any, is at least 1 and not padded |
| `LifecycleIds.BasePredecessor` | packages/adonis/src/lifecycle-events.ts:482-523 | So for every run that does not itself end in `~` and digits, for `k` from 1 to 100 |
| `LifecycleIds.LastRunOfChain` | packages/adonis/src/lifecycle-events.ts:495-506 | The run reached by following continuations of completed runs, at most 100 hops, where the chain goes no further |
| `LifecycleIds.OneEnd` | packages/adonis/src/lifecycle-events.ts:495-506 | A chain has one such end |
| `LifecycleIds.EndFindsWaiter` | packages/adonis/src/lifecycle-events.ts:508-523 | The run a wait names is among the predecessors of the run that ends its chain, exactly for the ids the parsers read |
| `LifecycleIds.ChainPredecessorsOf` | packages/adonis/src/lifecycle-events.ts:513-523 | The loop lists the chain's ids from the oldest followed up to the one before, the base for number zero |
| `LifecycleIds.CallIdInjective` | packages/adonis/src/workflow-ctx.ts:1180-1188 | No two entity calls, of one run or of two, share the id the entity dedupes by |

## Left out

- `engine.ts`: of the engine only the signal side is modelled (take, buffer, re-take, deliver), and the events that settle, retry or requeue a run.
- SQL, Redis and Lucid stores, transports, providers, commands, dashboard and telemetry: I/O around the same contracts.
- `codec-state-store.ts`, cron evaluation, hashes, ETags, canonical JSON and date formatting: equal payloads, an arbitrary jitter hash and fixed intervals stand for them.
- `ctx.step` and step fans, `ctx.patched`, `ctx.webhook`, `ctx.waitForEvent`, `ctx.waitForRun`, `ctx.task`, breakpoints, compensations, continue-as-new as a step, and bounded waits.
- An empty fan: it returns at once, before anything modelled here. `Settled` results of `ctx.allSettled`: the same fan with its outcomes gathered in another shape.
- A retried child whose completion changes: each child has one outcome, so a fan whose failed children are requeued is not a run of the model.
- A store that lists only some rows, reads in chunks, or registers waits one by one: those reads and writes happen in any order, one row at a time.
- `markChildDelivered`, `cancelChild`, `checkpoint` metadata (input, attempts, timings) beyond what a read of the run detail aggregates; in a bucket, `sumAttempts` and `maxStartedAt`.
- `SingletonGate.assertCapacity`, `admitByScan`, `wakeNext`: the store is one that admits atomically.
- Entities on a host without a durable path, and an entity whose handler throws: its loop stops there.
- Schedules deleted, upserted or triggered by hand; `drain` and pause overrides.
- Names, labels and run ids outside the id grammars are numbers or abstract values with equality; tags are sets; times are integers, nonnegative for the interval loop.
- ReplayProofs.ReplayDeterminism: for bodies that catch no failed step and children whose rows lose nothing; `DeterministicIffLossless`, `LossyRun` and `CaughtStepRun` show both are needed.
- EntityRuns.CallsExactlyOnce: for runs in which no record of the entity's waits was overwritten; `OrderlyIff` gives the exact order of steps that can never lead to one, `ClobberedRun` a run that breaks it.
- EntityRuns.StateIsFold: under the same condition.
- EntityRuns.SentIsApplied: under the same condition, and only for ops not taken by a turn that died before recording them; `SentAppliedIff` is exact, `OpLostRun` shows such a run.
- EntityCounts.SentAppliedIff: for orderly runs.
- EntityCalls.EveryCallApplied: for orderly runs that drop no copy of the op; `OpLostRun` and `ClobberedRun` show both are needed.
- EntityCalls.CallReturns: for orderly runs that lose none of the call's replies to a process that dies with one in hand.
- SignalWait.NoLostWake: the turn that a delivery wakes is an event of its own; leases, and the sweep that wakes a run no one else does, are not modelled.
- SignalWait.OneSignalOnce: for one signal on the token, and no turn dying with it in hand; `TwoSignalsCollide` shows two, `KeptIff` covers any number.
- ChildJournals.FanChildFound: for parents that choose no id spelled like that of a fan's child.
- FanFold.Expand: for folds that sit at their own `from`, as a fan writes them.
- WorkflowContext.Ctx.Child: without the delivered mark on the child's row; the child's start is an event of its own, not the end of the turn.
- Queue.QueueController.TryAdmit: for a clock that does not go back.
- Queue.QueueController.SlidingCheck: with a limit of zero the code's `retryAt` is not a number, and the model gives none.
- Scheduler.DeferredFires: up to the window's place in the tick's queue; `QueuedBehind` says what a start that throws ahead of it does.
- Schedules.FiresInOrder: for resumes that are not overtaken; `CountsIff` is exact for all others.
- ScheduleWindows.NoWindowSkipped: while nobody pauses or resumes the schedule, and no poller dies between its read and its start.
- Schedules.OnePoller: for a schedule that allows overlap and whose starts succeed.
- FanProgress.FanEnds: each turn from there on runs to its end and its children settle before the next; `FairFanEnds` is for any fair order.
- LifecycleIds.PredecessorIff: `Number` is exact, as for ids of fewer than 16 digits.
