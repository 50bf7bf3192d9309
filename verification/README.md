# A model of Linux signal delivery, and proofs about the conformance programs

Each program under `src/` fixes one rule of Linux/x86 signal delivery with its assertions. Taken
together they describe two machines, and this project models both.

* **The delivery machine** (`Signals`, `Queue`, `Machine`). A thread has a blocked mask, a queue of
  pending instances, a table of dispositions, a stack of live signal frames, an alternate-stack
  setting, registers, and the mask put aside by `sigsuspend`. Its steps are sending, delivering,
  `sigprocmask`, `sigsuspend`, `sigtimedwait`, `sigaction`, `sigaltstack`, editing a saved context,
  `sigreturn`, `longjmp`, and blocking calls. A log notes what became of every instance.
* **The single-step machine** (`Stepping`): nop, pushf, setting and clearing the TF bit of the pushed
  word, popf, call and ret, with a trap after every instruction that began with TF set.

On top of them stand three kinds of results.

* **Statements about every run of the delivery machine**: nothing lost or served twice (`Accounting`),
  nested handlers give everything back (`Nesting`, `AltStack`), no re-entry (`Reentry`), ignored
  signals leave no trace (`Erasure`), what is blocked and when (`Masks`), frames are aligned and disjoint (`Layout`).
* **Statements about every interleaving** of a sender and a receiver: the spin-lock handshake
  (`RtOrder`, `RtOrderOnlyOne`), block-create-suspend against `pause` (`Handshake`), restartable calls (`Restart`).
* **The programs**, as classes with the programs' own globals and loops, for any number of signals,
  payloads, rounds or instructions in place of their constants: `AutoDisarm`, `TwoSignals`,
  `RealtimeOrder`, `SuspendDriver`, `LongjmpLoop`, `OneSignal`, `SyncWait`, `AltStack`,
  `Masks`, `TrapPrograms`, `Tables`, `SharedTable`, `Inherit` and `Defaults`. An assertion of a program is a flag
  here (`failed`, `ok`) and is proved never to fail, or to fail exactly when the row says.

The rules of delivery follow POSIX.1-2017, System Interfaces, sections 2.4.1 to 2.4.3, and Linux
where POSIX leaves a choice; single-stepping follows the Intel SDM, volume 3, section 17.3.1.4; the
alignment of handler entry follows section 3.2.2 of the System V AMD64 ABI.

`dafny verify dfyconfig.toml` checks everything.

## Results that are not what one might expect

* A signal that comes before `pause` is not survived. `Handshake.PauseStops`: a `pause` run stops at its end
  if and only if the signal was not early, which is what the program's `usleep` is there for. If it
  was, the handler runs in ordinary code: the program's own handler fails its assertions there and
  exits (`Handshake.PauseCanFail`), and a handler that asserts nothing lets the receiver go to sleep
  for ever (`Handshake.PauseCanHang`).
* An alternate stack can outlive the handler that set it. `Nesting.SettingCanOutliveHandler`: a program
  without one is interrupted, the handler sets the region around the program's own stack pointer,
  and after the return it is still set, because `sigreturn` may not replace a stack in use.
  `Nesting.HandlerRestoresSettingExactly`: the setting comes back if and only if the live one does not
  claim the stack returned to, or is the same anyway. A live auto-disarming setting never claims one.
* An ignored signal can be noticed. `Erasure.IgnoredSendVanishes`: sending one leaves no trace if and only
  if it is not a CONT that finds the thread stopped. `Erasure.WaitSeesNoIgnored`: a wait behaves as if
  they had not been sent if and only if it does not take one of them.
* `LongjmpLoop.LongjmpNoOverflow.Drive`: without the handler's own mask restore the loop stops short
  for every `max` of two or more, and for no other.
* `TrapPrograms.PopfClear.Drive`: what the program asserts of its count and last flag holds for up to
  thirteen nops between its switches and for no more, since its handler stops the stepping when the
  array is full; TF is clear afterwards in every case.

## Model

| member | source | states |
|---|---|---|
| Queue.Pick | src/rt-order-only-one.cpp:39-45 | takes the oldest instance of the lowest-numbered unblocked signal, and finds none only if all are blocked |
| Queue.TakePopsOneQueue | src/multiple-realtime.cpp:31-39 | a take pops the head of its own signal's FIFO queue and leaves the queue of every other signal as it was |
| RealtimeOrder.OneUnblockServesStableSort | src/multiple-realtime.cpp:19-45 | for any pending queue with covering handler masks and any run in which handlers make no system call but their return: the handlers entered are always a prefix of the stable sort of the sends by signal number, and when nothing is left all of it, each instance once, everything else as before |
| Accounting.EveryInstanceAccountedFor | src/sigwait-sigpending.cpp:11-40 | over any run from a fresh thread, for each instance: times sent = times handled, waited for, coalesced, discarded or fatal, plus times still pending |
| Accounting.PendingView | src/multiple-standard.cpp:20-30 | in any reachable state a standard signal has at most one instance pending, and while the thread runs its `sigpending` bit is set exactly when its own queue is not empty |
| Accounting.KillAndStopCannotBeHeldOff | src/block-rtmin.cpp:6-15 | after any run KILL and STOP are neither in the live mask nor in the one put aside, and a KILL sent then kills before the next user instruction, whatever is pending |
| Accounting.ResetHandRunsOnce | src/resethand.cpp:9-18 | over any run without a new `sigaction`, a one-shot handler is entered at most once, and its signal is back to the default action if and only if it was |
| Accounting.InstallTakesEffect | src/syscall-sigign.cpp:16-22 | `sigaction` changes the disposition of its signal alone, fails with -EINVAL and changes nothing for KILL and STOP, and empties the signal's queue exactly when it makes it ignored, every other queue staying as it was |
| Nesting.WellNestedHandlersRestore | src/uc_mask.cpp:21-24 | whenever all frames pushed since a point are gone again, frames, mask, alternate stack and registers are those of that point, however handlers nested and whatever masks, stacks and suspensions they used |
| Masks.EntryMask | src/uc_mask.cpp:6-12 | a signal is blocked at the entry of a handler if and only if it is neither KILL nor STOP and the interrupted mask or `sa_mask` holds it, or it is the signal itself without SA_NODEFER |
| Masks.LiveMaskIsSumOfFrames | src/uc_mask.cpp:6-24 | over any run without mask calls, however handlers nest and return: a signal is blocked if and only if the program below all handlers blocks it or one of the live frames' actions does, and each saved mask is that of the frames below |
| Masks.UcMask.SignalHandler | src/uc_mask.cpp:6-12 | fails exactly when the probe is in the saved mask or not in the live one |
| Masks.UcMask.Drive | src/uc_mask.cpp:14-25 | for any `sa_mask` and caller's mask: the live, saved and final masks are exactly the expected sets, and the assertions hold if and only if the probe is in `sa_mask` or the signal itself, can be blocked, and is not blocked by the caller |
| Nesting.ExcursionRun | src/uc-oldmask.cpp:7-16 | throughout such an excursion the bottom frame holds the interrupted mask, alternate stack and registers |
| Masks.MaskCallsDecide | src/uc-oldmask.cpp:19-24 | over any run in which no handler is entered or returned from: a signal is blocked if and only if the last mask call that says something about it blocks it, KILL and STOP never, whatever else happens, `longjmp` included |
| Masks.UcOldmask.Drive | src/uc-oldmask.cpp:7-35 | for any blocked set that leaves the raised signal open the handler runs and its frame holds exactly that set, less KILL and STOP |
| Nesting.SigsuspendReturns | src/sigsuspend-mask.cpp:6-45 | from the machine's Suspend step on: `sigsuspend` returns only after a handler was entered, with -EINTR just past the call and the caller's mask; until then exactly the signals it was given are blocked; the bottom frame pushed in it saved the caller's mask, not the temporary one |
| Nesting.SuspendConsumesExactlyOne | src/rt-order-only-one.cpp:39-45 | with a covering handler mask one `sigsuspend` consumes one instance, the oldest of the lowest open signal; the rest stays pending in order and everything else is as before |
| Nesting.EditedStackInstalled | src/uc-stack-restore.cpp:8-36 | from any reachable state, whatever a handler and those nested in it do and wherever it edits its `uc_stack`: the return restores mask, registers and frames and applies `sigaltstack`'s rules to the last edit, or to the setting at entry if there is none, on the stack returned to; it is installed if and only if it is in order and the live setting does not claim that stack, or it is live already |
| Nesting.EditedContextInstalled | src/uc-stack-restore.cpp:8-36 | the general form for all of the saved context: the last edits of mask, registers and `uc_stack`, or else what was interrupted, are what the return installs, the mask less KILL and STOP |
| Nesting.HandlerRestoresSettingExactly | src/sigaltstack-query.cpp:43-48 | so a handler that leaves its `uc_stack` as it was gives the setting back if and only if the one that is live at its return does not claim the stack returned to, or is the same |
| Nesting.ReachableIsResumable | src/block-rtmin.cpp:6-15 | in every reachable state KILL and STOP are open in the mask handlers return to, and a set alternate stack has the minimum size |
| Reentry.NoReentry | src/same-signal.cpp:8-26 | in every reachable state of a program without SA_NODEFER whose handlers do not unblock, live frames carry pairwise distinct, blocked signals, so at most 62 are live |
| Erasure.IgnoredSignalsLeaveNoTrace | src/syscall-sigign.cpp:16-33 | erasing from any run the sends of ignored signals (CONT included, unless it finds the thread stopped), and the steps that discard them, leaves a possible run with the same handler trace, frames, mask and sleep, provided no wait takes one of them |
| Erasure.IgnoredSendVanishes | src/sigdfl-all.cpp:99-117 | the send of an ignored signal leaves no trace if and only if it is not a CONT to a stopped thread |
| Erasure.IgnoredNeverEndSigsuspend | src/syscall-sigign.cpp:5-40 | a suspended child stays asleep and alive under any number of ignored signals, pending or new, and the KILL is what ends it |
| Layout.EntrySpAligned | src/frame-alignment.cpp:46-68 | for every top of stack the entry stack pointer is 16 minus the word size modulo 16, and at most 24 bytes of padding are lost |
| Layout.LiveFramesDisjoint | src/two-signals-alt-stack.cpp:18-37 | in every reachable state of a disciplined run live frames are pairwise disjoint, aligned, each wholly on or wholly off the alternate stack, and each below the stack pointer it interrupted or at the top of the alternate stack |
| AutoDisarm.SettleDisarms | src/two-signals-alt-stack-disarm.cpp:51-57 | any number of distinct pending signals become that many frames in ascending order: the first saves the armed stack and a stack pointer off it, all later ones save none and a stack pointer on it |
| TwoSignals.SettleNests | src/two-signals-alt-stack.cpp:32-37 | on a plain alternate stack any number of distinct pending signals become that many frames, each inside the stack, below the one before and saving the setting |
| TwoSignals.TwoSignalsAltStack.RunHandlers | src/two-signals-alt-stack.cpp:9-16 | running the nested frames serves them from the last to the first and leaves setting and mask as at the start |
| TwoSignals.TwoSignalsAltStack.Drive | src/two-signals-alt-stack.cpp:18-44 | for any number of distinct signals in any order `main` returns 0, with one call for each signal in descending order |
| AutoDisarm.TwoSignalsAltStackDisarm.SignalHandler | src/two-signals-alt-stack-disarm.cpp:13-34 | counts, and fails exactly when one of the program's assertions for that call does |
| AutoDisarm.TwoSignalsAltStackDisarm.SetUp | src/two-signals-alt-stack-disarm.cpp:36-53 | the auto-disarming stack is armed, all handlers are installed and everything is blocked |
| AutoDisarm.TwoSignalsAltStackDisarm.RunHandlers | src/two-signals-alt-stack-disarm.cpp:13-34 | running the stacked frames serves them from the last to the first with no failure and ends with the stack armed and the mask restored |
| AutoDisarm.TwoSignalsAltStackDisarm.Drive | src/two-signals-alt-stack-disarm.cpp:36-59 | for any n distinct signals in any order no assertion fails, the handlers run in descending order of signal, once each, and the stack is armed again |
| RealtimeOrder.ServingCycle | src/mask-all.cpp:6-32 | with covering handler masks one frame goes up at a time, for the next instance in service order, and its return gives back the same thread less that instance |
| RealtimeOrder.MaskAll.SignalHandler | src/mask-all.cpp:6-13 | fails exactly when the signal is not the one its count calls for |
| RealtimeOrder.MaskAll.Drive | src/mask-all.cpp:15-33 | in whichever order the two signals are raised no assertion fails, and both are handled |
| RealtimeOrder.AlternatingService | src/multiple-realtime.cpp:31-39 | the alternating sends are served as two blocks of ascending payloads, the lower signal first, for any n |
| RealtimeOrder.MultipleRealtime.SignalHandler | src/multiple-realtime.cpp:6-17 | fails exactly when signal or payload is not the one its count calls for |
| RealtimeOrder.MultipleRealtime.QueuePayloads | src/multiple-realtime.cpp:34-39 | the queueing loop leaves exactly the alternating sequence pending |
| RealtimeOrder.MultipleRealtime.ServeAll | src/multiple-realtime.cpp:41-43 | for any pending queue with covering handlers: the trace is the stable sort of the queue, each instance once, an assertion fails if and only if some instance is not what its place calls for, and only queue and log of the thread change |
| RealtimeOrder.MultipleRealtime.DriveAny | src/multiple-realtime.cpp:19-45 | for any sequence of sends with any payloads: one unblock runs the handler once for each instance of a realtime signal and once for each standard signal sent, with its first instance, in the stable sort of what was accepted |
| RealtimeOrder.MultipleRealtime.Drive | src/multiple-realtime.cpp:19-45 | for every n no assertion fails, the handler runs 2n times, and its trace is the n payloads of the lower signal and then those of the higher, the stable sort of the sends |
| RtOrder.PermutationServed | src/rt-order.cpp:44-51 | any permutation of any range of realtime signals is served as the ascending range |
| RtOrder.SetUp | src/rt-order.cpp:16-33 | `main` up to its fork leads to the starting configuration of the results below |
| RtOrder.SafeStep | src/rt-order.cpp:33-54 | every step of parent, child and kernel keeps the invariant that links lock word, sends made, queue and counters |
| RtOrder.EveryInterleavingServesAll | src/rt-order.cpp:10-54 | in every interleaving and for every permutation no assertion fails, the child leaves its spin loop only after all sends, and at the end all are serviced |
| RtOrder.Progress | src/rt-order.cpp:34-43 | until the child is done some step other than an idle turn of the spin loop is possible, and each such step lowers a measure |
| RtOrderOnlyOne.EveryInterleavingServesOne | src/rt-order-only-one.cpp:10-52 | in every interleaving and for every permutation no assertion fails, the child makes its one `sigsuspend` only after all sends, and at the end the lowest signal has been served and all others are pending under the mask of before |
| RtOrderOnlyOne.OneCall | src/rt-order-only-one.cpp:39-45 | the stages of that call: asleep with a delivery due, in the handler for the lowest signal, returned with -EINTR and everything but that signal pending |
| RtOrderOnlyOne.OneStepCounts | src/rt-order-only-one.cpp:33-45 | every step that is not an idle turn of the spin loop lowers a measure |
| RtOrderOnlyOne.OneProgress | src/rt-order-only-one.cpp:33-45 | until the child is done such a step is possible |
| SuspendDriver.OneSuspend | src/sigsuspend-multiple.cpp:32-42 | one call: the frame the handler sees, the head of the service order consumed, the rest and the mask as before |
| SuspendDriver.Suspender.SignalHandler | src/sigsuspend-mask.cpp:6-30 | fails exactly when RAX, the saved instruction pointer or the saved mask is not what the program asserts |
| SuspendDriver.Suspender.Sigsuspend | src/sigsuspend-multiple.cpp:39-41 | one call moves exactly one instance from the queue to the trace, in service order, with no failure |
| SuspendDriver.Suspender.Drive | src/sigsuspend-multiple.cpp:22-43 | of what any sends of standard and realtime signals leave pending, m calls serve the first m instances in service order; the rest is pending under the caller's mask |
| Handshake.Beginnings | src/sigsuspend-pc-rax.cpp:20-36 | the handshake programs lead from a fresh thread to the starting configurations of the results below, and the handler of the `pause` program would fail in the code it then is in |
| Handshake.BlockBeforeCreateLosesNothing | src/sigqueueinfo.cpp:33-58 | in every interleaving no assertion fails, no sleeping receiver has missed the signal, the handler runs exactly once by the end, some move is always possible, and no run exceeds six moves |
| Handshake.PauseLosesEarlySignals | src/pause-pc-rax.cpp:4-41 | with `pause`: once the handler has run, an assertion has failed and ended the program if and only if the send came before the call and the handler's assertions fail in ordinary code; otherwise a receiver asleep after the send is lost if and only if the send was early; a run that reaches its end was not early and failed nowhere |
| Handshake.PauseStops | src/pause-pc-rax.cpp:20-46 | a run that can go no further is at its end with every assertion passed if and only if the send was not early; else it has exited in the handler, or is asleep for ever if the handler asserts nothing that fails there |
| Handshake.PauseCanFail | src/pause-pc-rax.cpp:4-38 | the run in which the program's own handler fails: send, deliver, handle |
| Handshake.PauseCanHang | src/pause-pc-rax.cpp:20-43 | the same program with a handler whose assertions are taken out, or hold in ordinary code: a run in which the handler runs first and the receiver then sleeps with no move left |
| Restart.StartsAtCall | src/restartable-read.cpp:30-50 | a fresh thread with the handler installed, at its call, is the starting configuration of the results below |
| Restart.HandlersSeeTheRewoundCall | src/restartable-read.cpp:12-28 | while the call is not over, the context below all handlers is saved at the call instruction with the call number in RAX |
| Restart.CallFailsOnlyWhenBroken | src/pause-pc-rax.cpp:4-18 | past the call, with handlers returned, the value is the call's own if and only if no handler without SA_RESTART interrupted it, and -EINTR otherwise |
| Restart.RestartIsInvisible | src/restartable-sem_wait.cpp:12-37 | erasing any number of SA_RESTART interruptions and re-executions leaves a run of the uninterrupted program with the same result and instruction pointer |
| Restart.CallGoesOn | src/restartable-write.cpp:13-37 | in any run, while the thread lives and the call is not over, some move other than a send is possible and every such move lowers a measure, restarts included |
| LongjmpLoop.LongjmpNoOverflow.SignalHandler | src/longjmp-no-overflow.cpp:10-14 | takes the machine's SetMask step, if it restores, and then its Longjmp step: all frames are dropped, and the mask is the interrupted one or, without the restore, still the handler's |
| Masks.JumpedFromStaysBlocked | src/longjmp-no-overflow.cpp:10-14 | over any run in which handlers are left by `longjmp` alone and nobody unblocks, each signal is handled at most once and is blocked from then on |
| LongjmpLoop.LongjmpNoOverflow.RaiseAndJump | src/longjmp-no-overflow.cpp:10-32 | one turn comes back to `setjmp` exactly when the signal was open, with one delivery more |
| LongjmpLoop.LongjmpNoOverflow.Drive | src/longjmp-no-overflow.cpp:16-37 | for every 64-bit max: exactly max deliveries, at most one live frame, every landing with the mask, stack pointer and depth of the start, and the assertion holds; without the mask restore it holds if and only if max is at most one |
| Tables.TableIsOwnHistory | src/signal-table-fork.cpp:26-63 | over any run the table of a process is what its own threads' calls make of it; no other process has a part in it |
| Tables.MaskIsOwnHistory | src/thread-inherit.cpp:15-33 | over any run a thread blocks a signal if and only if the last of its own mask calls that says something about it blocks it, KILL and STOP never |
| Inherit.Drive | src/thread-inherit.cpp:7-34 | for any set blocked on top of any mask, creator and new thread or process both read exactly the union, less KILL and STOP |
| Inherit.Program | src/fork-inherit.cpp:7-40 | the two programs with their five signals: each is in either mask, and nothing else is |
| Tables.BornLikeItsCreator | src/fork-inherit.cpp:15-34 | a thread or process starts with its creator's mask, a process also with a copy of the table, and later depends on its own calls only, signal by signal |
| Tables.ChangeSeenBySiblingsOnly | src/signal-table-thread.cpp:54-56 | a handler installed by one thread is found by every thread of the process, present or later, until changed there again, and matters to no other process |
| SharedTable.Raise | src/signal-table-thread.cpp:32-58 | a `raise` enters, in the thread that makes it, the handler the process's private table holds, or none if the thread blocks the signal |
| SharedTable.ThreadStep | src/signal-table-thread.cpp:22-34 | the new thread finds the handler the other installed, installs its own for the other to find, and its raise enters the former |
| SharedTable.SignalTableThread.SignalHandler | src/signal-table-thread.cpp:12-15 | fails exactly when another thread than the new one runs it |
| SharedTable.SignalTableThread.Drive | src/signal-table-thread.cpp:38-63 | wherever among the new thread's steps the parent blocks its signals, no assertion fails: both handlers run, each in the thread that raised its signal |
| Tables.System.Query | src/signal-table-fork.cpp:61-63 | returns the entry of the private table of the task's process |
| Tables.System.Sigaction | src/signal-table-thread.cpp:27-31 | assigning to the shared table object is the change of the process's private table |
| Tables.System.Sigmask | src/thread-inherit.cpp:8-15 | changes the mask of one task only, as the step on private masks does |
| Tables.System.Clone | src/signal-table-thread.cpp:49-50 | adds a task that shares the creator's table and copies its mask |
| Tables.System.Fork | src/signal-table-fork.cpp:45-49 | adds a task with a fresh copy of the table and of the mask |
| Tables.System.PerformAll | src/signal-table-fork.cpp:34-64 | any run on the heap of aliased tables shows the run on one private table per process |
| Stepping.SteppingIsTransparent | src/trap-flag.cpp:28-55 | whatever the handler does to TF, a stepped run of any program ends where the plain run ends, up to TF in live flags and pushed images |
| Stepping.LogIsTfSuccessors | src/trap-flag-popf-clear.cpp:29-44 | the trap log of any program is exactly the successor addresses, with saved TF, of the instructions started with TF set |
| Stepping.PushfPopf | src/trap-flag-popf-clear.cpp:9-27 | the image pushf pushes is that of the live flags: popping it changes nothing but the instruction pointer |
| Stepping.PopfPushf | src/trap-flag-popf-clear.cpp:46-65 | popf makes the image on the stack live, all of it: pushing it gives it back |
| Stepping.GetTf | src/trap-flag-popf-clear.cpp:9-27 | the TF bit read from a pushed image is the live one |
| Stepping.SectionTraps | src/trap-flag-popf-clear.cpp:46-65 | for any body of n instructions between the two switches: the setting popf is not logged, every body instruction is, the clearing popf is logged with a clear flag, n + 3 traps in all |
| Stepping.ClearingLateIsNever | src/trap-flag-popf-clear.cpp:41-43 | a handler that clears TF only from call k on changes nothing in a run that makes fewer traps |
| Stepping.ExactlyKTraps | src/trap-flag.cpp:52-70 | a handler that clears TF at call k is called exactly k times when at least k instructions remain, and the program ends where it would have, with TF clear |
| TrapPrograms.ClearSection | src/trap-flag-popf-clear.cpp:46-65 | the code of `run` is such a section, and its log has the addresses `main` expects |
| TrapPrograms.RepeatSection | src/trap-flag-popf-repeat.cpp:36-60 | through call and ret of a body of j nops the section makes j + 6 traps and comes back behind itself |
| TrapPrograms.ClearStopped | src/trap-flag-popf-clear.cpp:36-65 | with more than thirteen nops the handler stops the stepping: sixteen traps, a prefix of the full log, and TF is clear at the end |
| TrapPrograms.PopfClear.SignalHandler | src/trap-flag-popf-clear.cpp:29-44 | fails exactly when signal, code or address is wrong or TF is set where it runs, as it reads with a pushf; writes one array entry while there is room, remembers the flag, and clears the saved TF once there is none |
| TrapPrograms.PopfClear.Execute | src/trap-flag-popf-clear.cpp:29-65 | array, count and last flag record the log of the stepped run |
| TrapPrograms.PopfClear.Drive | src/trap-flag-popf-clear.cpp:91-109 | for any n the log has the prefix-sum addresses the program asserts as far as its array goes and TF is clear afterwards; the asserted count and clear last flag hold if and only if n is at most thirteen |
| TrapPrograms.PopfRepeat.Drive | src/trap-flag-popf-repeat.cpp:77-94 | for any number of rounds the count is j + 6 after the stepped run and still after any number of plain calls |
| TrapPrograms.TrapFlag.SignalHandler | src/trap-flag.cpp:28-55 | fails exactly when code, address, error code, trap number, saved flag, the handler's own TF or the instructions around the saved address are wrong, notes a wrong address, and withholds TF from call k on |
| TrapPrograms.TrapFlag.Execute | src/trap-flag.cpp:28-71 | the globals say of the log of the stepped run: its length, whether all addresses were the expected ones, whether every saved context was as asserted |
| TrapPrograms.TrapFlag.Drive | src/trap-flag.cpp:92-102 | for every k and at least k nops: exactly k calls at consecutive addresses, the program ends where the plain run does with TF clear, and the handler's assertions hold if and only if a second nop follows the first |
| OneSignal.SameSignal.SignalHandler | src/same-signal.cpp:8-17 | raising its own signal any number of times leaves one instance pending and enters no second handler |
| OneSignal.SameSignal.Drive | src/same-signal.cpp:19-28 | the no-re-entry assertion never fails, and raises made together in a handler are one further call |
| OneSignal.MultipleStandard.Drive | src/multiple-standard.cpp:9-31 | any positive number of raises while blocked is one call after the unblock and none before |
| OneSignal.NoDefer.SignalHandler | src/nodefer.cpp:6-13 | re-enters itself before `raise` returns, finishes innermost first, and gives its thread back unchanged but for the log |
| OneSignal.NoDefer.Drive | src/nodefer.cpp:15-24 | for every limit: depth limit + 1, no assertion fails, and the thread is back where it raised the first signal |
| SyncWait.WantedPick | src/sigwait-sigpending.cpp:23-30 | a wait takes the head of the service order of the wanted signals and leaves the others as they were |
| SyncWait.Waiter.WaitOnce | src/sigwait-sigpending.cpp:23-40 | one wait returns and removes the oldest instance of the lowest wanted signal, or -EAGAIN exactly when none is pending |
| SyncWait.Waiter.Drain | src/sigwait-sigpending.cpp:17-40 | repeated waits return exactly the wanted instances in service order, then -EAGAIN; everything else stays, and `sigpending` shows it |
| AltStack.QueryReturnsLastAccepted | src/sigaltstack-query.cpp:17-59 | over any run, outside handlers a query returns the last setting accepted there or, if its handler wrote to `uc_stack`, what the return made of that, whatever was rejected and whatever handlers set meanwhile, with SS_ONSTACK exactly when the stack pointer lies in it |
| AltStack.QueriedSettingIsAccepted | src/sigaltstack-query.cpp:32-58 | a setting queried anywhere, also while in use, can be set again from outside it; that succeeds and changes nothing |
| AltStack.SigaltstackErrors | src/sigaltstack-errors.cpp:6-44 | the four settings return -ENOMEM, -EINVAL whatever the size, 0, -ENOMEM; the queries read disabled and then the accepted one, which survives |
| AltStack.RaiseAndReturn | src/frame-alignment.cpp:46-49 | install, raise and return: the handler starts aligned on the stack its flag asks for, its frame has the alternate-stack setting, and the thread is as before |
| AltStack.UcStackAlways.Drive | src/uc-stack-always.cpp:8-38 | however often the handler is installed, with SA_ONSTACK or without, its frame has the setting, and the setting is the same at the end |
| AltStack.SigaltstackQuery.Drive | src/sigaltstack-query.cpp:17-60 | the queries off, on, in use, on again and disabled all read as asserted |
| AltStack.FrameAlignment.Drive | src/frame-alignment.cpp:36-70 | three handlers, three aligned entry addresses, each just below the stack it belongs to, for any misaligned stack |
| Defaults.ChecksOut | src/sigdfl-all.cpp:62-126 | the parent's checks of one child against the program's table pass, a stopped child living on after CONT |
| Defaults.Drive | src/sigdfl-all.cpp:56-128 | the loop returns 0 after having seen the foretold status of each of the 63 signals |

## Left out

- Hardware faults (src/synchronous-div-zero.cpp and its siblings, src/segv-cr2.cpp, src/segv-trapno.cpp, src/illegal-cs.cpp): one fault with fixed constants each, no run to reason about.
- Floating-point and extended-state layouts and segment packing (src/fpstate-*.cpp, src/xstate-*.cpp, src/segments.cpp, src/sigcontext-segments.cpp): byte offsets of processor state.
- Single facts that would only add easy members: src/uc-flags.cpp, src/df-reset.cpp, src/rt-sigaction-oldact.cpp, src/sigdfl-segv.cpp, src/sigdfl-urg.cpp, src/sigdfl-usr1.cpp, src/execve-inherit.cpp.
- Printing, exit codes other than those asserted, `waitpid`, `mmap`, the Makefile and run.sh.
- Real time: where a program sleeps, all interleavings are quantified over. Of the timed wait only its empty result is modelled, and a `sigwaitinfo` with nothing to take returns -EAGAIN instead of blocking.
- Kernel rules no program pins: queue limits, priority of synchronous signals, private against shared pending stores, the flushing of stop and continue signals against each other. There is one store per thread.
- What `sigfillset` leaves out: the C library withholds signals 32 and 33; masks here are the raw ones of src/block-rtmin.cpp.
- Discarding a dequeued ignored signal and going back to sleep in the interrupted call are one step, in which the thread stays asleep.
- Siginfo fields: the code, sender and value of an instance are one payload. Handlers are told apart by `code`; whether a handler asked for siginfo is not modelled, so on 32 bits all frames of a thread have one size.
- Program text: the bytes `0f 05` and `cd 80` before a saved instruction pointer are modelled by the address of the call instruction, the nop and popf bytes src/trap-flag.cpp reads back by the instructions at those addresses.
- Flags other than TF are one value in the single-step machine, and what a handler is told of a trap (signal, code, address, error code, trap number) and that its own instructions start with TF clear are rules of that machine, not results. Of `get_tf` the pushf and the bit it reads are modelled, not the shift in a register.
- Whether an alternate stack is in use is decided by the interrupted stack pointer itself, before the red zone is skipped.
- A new thread or process inherits mask and table here; what becomes of pending signals and the alternate stack at creation is not modelled.
- src/two-signals.cpp has no class of its own: it is the case without an alternate stack, and Nesting.WellNestedHandlersRestore and Accounting.EveryInstanceAccountedFor speak about its run.
- SharedTable.Raise: the tasks of a process have no pending store of their own here, so a raise of a blocked signal enters no handler and is not remembered, and raises of signals without a handler are not part of it.
- Exit on a failed assertion: it ends the receiver in Handshake. Elsewhere the flag is set and the run goes on, so where a row says that an assertion can fail (RealtimeOrder.MultipleRealtime.ServeAll and DriveAny, TrapPrograms.TrapFlag.Drive), what it says of counts and final states then holds of the program with its assertions taken out.
- Erasure.IgnoredSignalsLeaveNoTrace: the dispositions stay while the run lasts; a `sigaction` that ends the ignoring while such a signal is pending lets it be seen.
- Nesting.WellNestedHandlersRestore: no handler sets an alternate stack that claims the interrupted stack or edits the context it returns to; Nesting.EditedStackInstalled says what happens otherwise.
- AltStack.QueryReturnsLastAccepted: no handler sets an alternate stack that claims the interrupted stack or leaves the handler without returning.
- Layout.LiveFramesDisjoint: one alternate stack at a time, set only outside handlers, handlers that do not edit saved stacks or registers, contexts that keep to their stacks, and room for each frame; a program that breaks these can overwrite its frames.
- RtOrder.Progress: says that a useful step exists and lowers a measure; that the scheduler takes one is not part of the model.
