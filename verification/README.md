# Course systems code, modelled and proved in Dafny

The repository holds four programs whose correctness is about all runs or all inputs: an xv6 kernel with
a lottery scheduler (`hw3`), a small shell (`hw2`), a hash table filled by several threads (`hw4`) and a
disk reader that computes the exclusive or of a file (`final_project`). This project models the four and
proves what they are meant to do. `dafny verify dfyconfig.toml` verifies all of it.

**Kernel.** `proc_table.dfy` has the process table as a value and what each critical section does to it.
`proc.dfy` has the loops of `hw3/proc.c` on an array of slots, each method proved to do exactly that.
`kernel.dfy` puts the same table functions into a state machine of any number of slots and CPUs: one
step is one critical section, cut at each `swtch()`, and `fork()` is split at the writes it makes
outside the lock. `forest.dfy`, `kernel_inv.dfy`, `kernel_steps.dfy` and `kernel_forks.dfy` prove one
invariant of every run; `kernel_theorems.dfy` says what it means: the parent forest, no missed exit in
`wait()`, no circular waiting, one CPU per running process, no lost wakeup, each pid returned once,
slots conserved, and that `ptable.lock`, once taken, can always be released. `sleep()` is three steps
there: it takes `ptable.lock`, it releases `lk`, it writes `SLEEPING`; others may take `lk` and make the
condition true in between. `kernel_answers.dfy` says on the fields of the slots what a step of `wait()`,
`kill()`, `wakeup()` or `exit()` does, and which steps are always open. `kernel_kill.dfy` says which slots are marked killed, `lottery.dfy` counts the
draws, and `sysproc.dfy` has `sys_sleep()` in C's wrapping arithmetic.

**Shell.** `shell_syntax.dfy` has the language twice over: tokens and a grammar, and the exact condition
under which a line is rejected. `shell_parser.dfy` is the parser as written, a pointer that moves over
the line and an exec node that is still filled in after it has been wrapped, proved equal to the grammar.
`shell_print.dfy` prints trees and proves both round trips. `shell_lines.dfy` says on literal characters and
token positions what the tokeniser and the grammar do, with an example from its line to its processes. `shell_run.dfy` is `runcmd()` on descriptor
tables, with the descriptors of every stage of a pipeline of any length.

**Hash table.** `atomic_table.dfy` is the table one would like to have, `hash_code.dfy` the code on
linked entries, and `hash_machine.dfy` all interleavings of inserting threads and lock-free readers, with
per-bucket locks, one lock, or none, one memory access at a time. `hash_inv.dfy` proves one invariant for
the three. `hash_theorems.dfy` proves that nothing is lost with locks, what survives without them, and that
the locked tables refine the atomic one; `hash_loss.dfy` exactly when a bucket loses an entry;
`hash_readers.dfy` which entry a reader returns while others insert; `hash_progress.dfy` that the put phase
can always be finished.

**Exclusive or.** `xor_words.dfy` has words, their bits, `xorbuf()` and reading, `xor_blocks.dfy` blocks and strides,
`xor_readers.dfy` the two sequential readers and `xor_threads.dfy` the parallel one, whose threads take
their turns in any order and which gives what the sequential reader gives.

Where code and documentation differ, the code is modelled:

- `final_project/README.md` says that the block size does not matter when reading. It does when a block is
  too small for a word; `XorThreads.BlockSizeDoesNotMatterIff` gives the exact condition.
- `final_project/run_blocksize.c` writes `ceil` around an integer division, so a last partial word is
  dropped and not counted.
- The shell applies the leftmost redirection of a direction, not the rightmost as section 2.7 of
  POSIX.1-2017 XCU has it; `ShellRun.RedirectionOrderAgreesIff` says when that makes no difference.
- `hw4/parallel_hashtable.c` inserts without locks and can lose keys; `HashLoss.BucketKeepsAllIff` gives the
  exact condition on a run under which it does not.
- `sys_settickets()` accepts any int. `Lottery.LotteryCounts` gives the exact condition on ticket counts
  under which the draws come out as the tickets say.
- `kill()` does not look for UNUSED slots and `allocproc()` does not clear `killed`. So `kill(0)` marks the
  first slot with pid 0 and returns 0, and the next process made in that slot is killed from the start:
  `KernelKill.ChildIsBornKilled` is such a run, and `KernelKill.KilledIff` says exactly when a slot is
  marked. A failed `fork()` leaves its pid behind in its slot.

Assumptions about the surroundings are parameters or preconditions: a draw is any value from 0 to the
ticket sum (up to it, if negative), an allocation may fail or not, the scheduler's sums fit an int, `random()` gives non-negative keys,
memory is sequentially consistent, descriptors are taken lowest first (section 2.14 of POSIX.1-2017 XSH)
and a read of a regular file gives the bytes asked for as far as there are any.

## Model

| member | source | states |
|---|---|---|
| ProcCode.PTable.constructor | hw3/proc.c:13-20 | the table starts with every slot zero-filled and UNUSED, and pids start at 1 |
| ProcCode.PTable.Wakeup1 | hw3/proc.c:427-435 | exactly the processes asleep on the channel become RUNNABLE |
| ProcCode.PTable.AllocProc | hw3/proc.c:39-83 | the first UNUSED slot is claimed with a new pid and the initial tickets; a failed stack allocation makes it UNUSED again but keeps the pid; a full table changes nothing |
| ProcCode.PTable.Fork | hw3/proc.c:137-176 | a new slot, child of the caller, ends RUNNABLE and its pid is returned; both failures return -1 and leave an UNUSED slot behind |
| ProcCode.PTable.Exit | hw3/proc.c:203-221 | the caller is a ZOMBIE, its children belong to init, its parent is woken, and init too exactly if it inherits a zombie |
| ProcCode.PTable.Wait | hw3/proc.c:233-264 | it reaps exactly if there is a zombie child, the first one, whose pid it returns and whose slot it frees; it returns -1 exactly if there is none and the caller is killed or has no child; it puts the caller to sleep on its own slot exactly if there is a child, no zombie and no kill |
| ProcCode.PTable.Kill | hw3/proc.c:449-467 | the first slot with the pid is killed and, if it was asleep on whatever channel, RUNNABLE; nothing else changes; the result is 0 exactly if there is such a slot |
| ProcCode.PTable.SchedulerPass | hw3/proc.c:291-331 | with sums that fit an int and a draw of at most the total, negative tickets included, the slot made RUNNING is the one the prefix sums give for the draw, and one is found exactly if some slot was RUNNABLE |
| ProcCode.PTable.SetTickets | hw3/sysproc.c:102-112 | the caller's tickets are the argument, whatever it is, and it is returned |
| Lottery.PassIsWorkConserving | hw3/proc.c:292-330 | with a draw of at most the sum, whatever the tickets, a pass picks nobody exactly if nobody is RUNNABLE |
| Lottery.ChosenIsUnique | hw3/proc.c:303-329 | a draw determines the slot |
| Lottery.WinningInterval | hw3/proc.c:303-312 | each RUNNABLE slot wins the draws between two neighbouring counter values, the first also those down to 0 |
| Lottery.WinsCount | hw3/proc.c:292-312 | a RUNNABLE slot wins as many draws as it has tickets, the first one more |
| Lottery.LotteryCounts | hw3/proc.c:292-312 | all RUNNABLE slots win what their tickets say if and only if no count is negative, where the first slot may have -1 |
| Lottery.DrawsArePartitioned | hw3/proc.c:300-312 | every draw from 0 to the sum makes exactly one slot win |
| Lottery.NegativeTicketsBreakTheCount | hw3/sysproc.c:102-112 | two slots with -2 and 3 tickets, where the second wins 2 draws of 2 and not 3 |
| Forest.ExitKeeps | hw3/proc.c:206-219 | exit keeps pids, the parent forest, and the reason of everybody asleep in wait |
| Forest.ReapKeeps | hw3/proc.c:241-253 | freeing a zombie keeps them |
| Forest.AllocKeeps | hw3/proc.c:52-59 | claiming a slot keeps them |
| Forest.AbandonKeeps | hw3/proc.c:62-65 | giving up a claimed slot keeps them, its stale pid included |
| Forest.AdoptKeeps | hw3/proc.c:155 | the parent write that fork makes without the lock keeps them |
| Forest.LaunchKeeps | hw3/proc.c:171-173 | making the child RUNNABLE keeps them |
| Forest.BlockKeeps | hw3/proc.c:236-264 | going to sleep in wait keeps them: the scan has seen a child and no zombie |
| KernelSteps.SavedWhenFree | hw3/proc.c:314-331 | while ptable.lock is free, a RUNNABLE process has its context saved and is on no CPU |
| KernelSteps.SleepUnlockKeepsWakeups | hw3/proc.c:404-407 | at the moment sleep releases lk the condition is false, and from then on the process counts among those a wakeup is owed to |
| KernelSteps.WokenUp | hw3/proc.c:404-444 | a wakeup leaves nobody asleep on its channel or on the way to sleep, because ptable.lock keeps it out while sleep is between the release of lk and the write of SLEEPING |
| KernelInv.InitInv | hw3/proc.c:86-112 | the invariant holds after userinit |
| KernelForks.StepKeepsInv | hw3/proc.c:138-467 | every step of every process, CPU and interrupt handler keeps the invariant |
| KernelForks.RunKeepsInv | hw3/proc.c:138-467 | so it holds in every state of every run |
| KernelTheorems.EveryProcessDescendsFromInit | hw3/proc.c:155-219 | in every reachable state each process descends from initproc through live parents of ever smaller pids |
| KernelTheorems.ParentLinksFormAForest | hw3/proc.c:45-54 | non-zero pids are distinct and below nextpid, and a parent is alive and older than its child |
| KernelTheorems.WaiterHasSomethingToWaitFor | hw3/proc.c:233-264 | whoever sleeps in wait is not killed, sleeps on its own slot, has a child and no zombie child |
| KernelTheorems.WaitingIsNotCircular | hw3/proc.c:228-266 | below whoever sleeps in wait there is a descendant that is RUNNABLE, RUNNING or asleep for another reason |
| KernelTheorems.RunningOnExactlyOneCpu | hw3/proc.c:314-331 | while ptable.lock is free, a slot is RUNNING exactly if precisely one CPU has it as proc |
| KernelTheorems.PickedOnlyWhenSaved | hw3/proc.c:314-326 | a process is picked only when its context is saved and no other CPU has it |
| KernelTheorems.OneCpuPerStack | hw3/proc.c:321-352 | no two CPUs run on one kernel stack |
| KernelTheorems.ReapedChild | hw3/proc.c:237-253 | wait returns a child of its caller that has exited, whose pid was not returned before and whose stack nobody is on |
| KernelAnswers.WaitAnswers | hw3/proc.c:233-264 | over every run a step of wait frees a slot exactly if its caller has a zombie child, falls asleep exactly if it has a child, no zombie and is not killed, and otherwise goes on with nothing changed |
| KernelAnswers.KillAnswers | hw3/proc.c:454-466 | over every run a step of kill marks and wakes the first slot with the pid, on whatever channel it sleeps, and changes no other |
| KernelAnswers.KilledIsNotAsleep | hw3/proc.c:456-462 | no slot that a kill finds is asleep after it |
| KernelAnswers.WakeupAnswers | hw3/proc.c:438-444 | over every run a wakeup makes the sleepers on its channel RUNNABLE and leaves the others as they are |
| KernelAnswers.ExitAnswers | hw3/proc.c:206-219 | over every run exit changes states and parents as the source does, and leaves init asleep exactly if it is not the parent and inherits no zombie |
| KernelAnswers.ChanTellsSleep | hw3/proc.c:410-415 | in every reachable state chan is set only from the writes of sleep to the first one after sched |
| KernelAnswers.EveryCallIsOpen | hw3/proc.c:138-467 | a process running its own code with ptable.lock free and no lock of its own can take each of the steps |
| KernelAnswers.SleepIsOpen | hw3/proc.c:404-407 | and it can go to sleep under the one lock it holds |
| KernelAnswers.ForkIsOpen | hw3/proc.c:144-175 | a fork under way can always go on |
| KernelAnswers.PassIsOpen | hw3/proc.c:291-331 | a CPU in scheduler that finds ptable.lock free can make its pass |
| KernelTheorems.PidReturnedOnce | hw3/proc.c:241-253 | over a run no two waits return the same pid |
| KernelTheorems.SlotsAreConserved | hw3/proc.c:45-65 | occupied slots are allocations less reaps less failed allocations |
| KernelTheorems.NoLostWakeup | hw3/proc.c:389-444 | if wakers change the condition and call wakeup under lk, nobody is asleep, or past the release of lk on the way to sleep, with a true condition unless the holder's wakeup is still to come |
| KernelTheorems.WakeupFindsSleepers | hw3/proc.c:404-444 | when a wakeup comes, every process that has released lk to sleep on the channel is SLEEPING already and becomes RUNNABLE |
| KernelTheorems.WakerMayComeInBetween | hw3/proc.c:404-411 | between the release of lk and the write of SLEEPING a handler can take lk and make the condition true, but not call wakeup |
| KernelTheorems.HaltsOnlyWhenIdle | hw3/proc.c:287-331 | whatever the tickets, as long as the sums fit an int, a pass finds nobody, so that the CPU halts, only if nobody was RUNNABLE |
| KernelTheorems.LockCanBeReleased | hw3/proc.c:314-373 | every run can be continued, by at most four steps of the CPU that holds ptable.lock, to a state in which it is free |
| KernelTheorems.HolderKeepsTheLock | hw3/proc.c:314-373 | in every run, no step of anyone takes the lock from its holder or puts its release off |
| KernelKill.KilledIff | hw3/proc.c:450-467 | over every run a slot is marked killed exactly if a kill has found it since wait last freed it |
| KernelKill.ChildStartsUnkilledIff | hw3/proc.c:138-176 | a forked child is not killed from the start exactly if no kill has found its slot since wait last freed it |
| KernelKill.ChildIsBornKilled | hw3/proc.c:450-463 | a complete run in which kill(0) marks a free slot and the child forked into it is born killed |
| SysProc.SysSleep | hw3/sysproc.c:68-77 | the loop ends at the first evaluation at which the time is up, or at which it is not and the process is killed |
| SysProc.SleepOverAfter | hw3/sysproc.c:69 | however often the counter wraps, the time is up k ticks on exactly if k modulo 2^32 has reached n modulo 2^32 |
| SysProc.SleepsForNTicks | hw3/sysproc.c:69 | n >= 0 waits for n ticks even across a wrap; n < 0 waits for 2^32 + n |
| SysProc.NobodyOversleeps | hw3/sysproc.c:67-76 | nobody is asleep in sys_sleep with its time up unless the tick's wakeup is still to come |
| ShellSyntax.RejectedIff | hw2/shell.c:275-365 | a line is rejected exactly if a redirection lacks its word or a stage has ten or more arguments; the other two error exits are never taken |
| ShellLines.WhiteSpaceSeparates | hw2/shell.c:205-216 | space, tab, carriage return, newline and vertical tab separate tokens and make none |
| ShellLines.SymbolsStandAlone | hw2/shell.c:206-229 | each of the three symbols is a token wherever it stands |
| ShellLines.PlainTextIsAWord | hw2/shell.c:230-234 | a text is one word exactly if it has none of these eight characters |
| ShellLines.NewlineIsIgnored | hw2/shell.c:123-147 | the newline that fgets leaves changes nothing |
| ShellLines.OneStage | hw2/shell.c:336-365 | an accepted line without a bar has its arguments and its redirections in the order written, however they are mixed |
| ShellLines.BarEndsStage | hw2/shell.c:299-309 | a bar ends a stage and what follows it is parsed by itself |
| ShellLines.RejectedWhen | hw2/shell.c:319-360 | a line is rejected exactly if some redirection is not followed by a word or ten words that are no files stand between bars, and each message is given only for its reason |
| ShellLines.NineArgumentsAtMost | hw2/shell.c:355-360 | words with spaces between them are a command exactly if there are at most nine |
| ShellLines.TenLetters | hw2/shell.c:355-360 | a line of nine letters is accepted and one of ten is not |
| ShellParser.ExecCmd.constructor | hw2/shell.c:164-173 | a new exec node has an argv of ten null pointers |
| ShellParser.Parser.constructor | hw2/shell.c:275-281 | the parser starts with all the line's tokens ahead of it |
| ShellParser.Parser.Peek | hw2/shell.c:245-255 | it moves past white space only, and answers whether the next token is one of the symbols |
| ShellParser.Parser.GetToken | hw2/shell.c:208-243 | it returns the next token of the line with its text, and what is left are the tokens after it |
| ShellParser.Parser.ParseRedir | hw2/shell.c:318-330 | one redirection wraps the command so far, or fails as the grammar does |
| ShellParser.Parser.ParseRedirs | hw2/shell.c:311-333 | all redirections up to a word, a bar or the end are taken, innermost first |
| ShellParser.Parser.TakeArg | hw2/shell.c:355-361 | a word becomes the next argument of the exec node inside its wrappers; the tenth is refused |
| ShellParser.Parser.ParseExec | hw2/shell.c:335-365 | it builds the tree of the first stage of the tokens ahead and stops at its end, or fails as the grammar does |
| ShellParser.Parser.ParsePipe | hw2/shell.c:298-309 | it builds the tree of all stages ahead and leaves nothing |
| ShellParser.Parser.ParseCmd | hw2/shell.c:274-296 | on every line without NUL the parser gives what tokenising the line and parsing the tokens gives, errors included |
| ShellPrint.PrintThenParse | hw2/shell.c:274-365 | printing any tree the parser can build and parsing the text gives the tree back |
| ShellPrint.ParsePrintParse | hw2/shell.c:274-365 | every accepted line gives such a tree, and parsing its printed form gives the same tree |
| ShellRun.Process.OpenFile | hw2/shell.c:80 | open takes the lowest free descriptor |
| ShellRun.Process.DupFd | hw2/shell.c:97 | dup gives the lowest free descriptor the same file |
| ShellRun.System.RunCmd | hw2/shell.c:44-114 | the processes that reach exec nodes, with their descriptor tables, are those of the tree's outcome |
| ShellRun.StageOutcome | hw2/shell.c:73-83 | a stage with any redirections runs with the leftmost file of each direction on 0 and 1 and leaves 2 alone |
| ShellRun.LeftmostRedirectionWins | hw2/shell.c:73-83 | of any number of redirections the command sees the leftmost one of a direction, and another file than the standard's order gives if the last one names another |
| ShellRun.RedirectionOrderAgreesIff | hw2/shell.c:73-83 | a stage runs with the table that applying its redirections from left to right makes, if and only if the first and the last file of each direction are the same |
| ShellRun.PipeOutcome | hw2/shell.c:86-110 | the left stage writes to a new pipe, the rest runs reading from it, and neither keeps another end |
| ShellRun.PipelineOutcome | hw2/shell.c:73-111 | in a pipeline of any length each stage has its leftmost redirections, otherwise the pipes beside it, and exactly 0, 1 and 2 open |
| ShellRun.PipeEndsAreNotLeaked | hw2/shell.c:96-107 | a process holds an end of a pipe exactly if it is the stage beside it and has not redirected that direction |
| ShellRun.LineOutcome | hw2/shell.c:146-147 | every accepted line runs as such a pipeline |
| ShellLines.ExampleProcesses | hw2/shell.c:44-114 | the two processes of a line with three redirections and a bar, with all their descriptors |
| AtomicTable.LookupFindsLatest | hw4/parallel_mutex.c:34-54 | in the atomic table a lookup finds the last insert of its key, if there is one |
| AtomicTable.FindIff | hw4/parallel_mutex.c:48-54 | the search of a list finds an entry of the key exactly if there is one |
| AtomicTable.FindIsFirst | hw4/parallel_mutex.c:50-52 | the search stops at the first entry of the key |
| AtomicTable.LatestIs | hw4/parallel_mutex.c:39-42 | the latest insert of a key is the one with no other after it |
| AtomicTable.LookupAfterInsert | hw4/parallel_mutex.c:34-54 | after an insert its key is found with its value and every other as before |
| AtomicTable.KeyBucketIs | hw4/parallel_mutex.c:35 | the bucket is the remainder by five |
| HashCode.HashTable.constructor | hw4/parallel_mutex.c:19 | every bucket starts as a null pointer |
| HashCode.HashTable.Insert | hw4/parallel_mutex.c:34-44 | on linked entries, insert is the atomic prepend |
| HashCode.HashTable.Retrieve | hw4/parallel_mutex.c:48-54 | retrieve returns the entry in the bucket's list that the atomic lookup gives, and null exactly if there is none |
| HashCode.HashTable.GetPhase | hw4/parallel_mutex.c:69-80 | a thread counts exactly the keys of its stride that no entry of their bucket has |
| HashCode.HashTable.TotalLost | hw4/parallel_mutex.c:128-140 | the threads' counts add up to the number of keys that no entry of their bucket has, for any number of threads |
| HashInv.StepKeepsInv | hw4/parallel_mutex.c:34-67 | every step of an inserting thread or a reader keeps the invariant, in each of the three locking modes |
| HashInv.RunKeepsInv | hw4/parallel_mutex.c:34-67 | so it holds in every interleaving |
| HashInv.PublishKeepsLocks | hw4/parallel_mutex.c:38-43 | with locks, no other insert on the bucket is under way when an entry is published |
| HashTheorems.ChainsAreSound | hw4/parallel_hashtable.c:33-41 | with or without locks each bucket is a finite list without repetition of entries that some thread published there |
| HashTheorems.NoKeyIsLost | hw4/parallel_mutex.c:111-120 | after the barrier, with locks or one thread, each bucket holds exactly the keys with its remainder by five, each once, with the number of the thread that its index leaves |
| HashTheorems.UndisturbedInsertIsKept | hw4/parallel_hashtable.c:33-41 | without locks, an entry published while no other insert on its bucket is between reading the head and publishing stays reachable for ever |
| HashTheorems.DisturbedInsertIsLost | hw4/parallel_hashtable.c:33-64 | a complete run of two threads without locks in which a published key is lost |
| HashLoss.DisturbedIff | hw4/parallel_hashtable.c:33-41 | at every moment of every run a bucket has a lost entry, or an insert under way that will lose one, exactly if an entry was published on it during another insert's head-read-to-publish window |
| HashLoss.BucketKeepsAllIff | hw4/parallel_hashtable.c:33-64 | after the barrier all keys that hash to a bucket are reachable in it if and only if no entry was published on it while another insert on it was under way |
| HashLoss.LocksPreventCollisions | hw4/parallel_mutex.c:34-44 | with locks, or with one thread, no entry is published so |
| HashTheorems.PublishIsAtomicInsert | hw4/parallel_spin.c:62-67 | with locks, the write of table[i] is the atomic prepend |
| HashTheorems.OthersStutter | hw4/parallel_spin.c:58-78 | no other step changes the contents of the table |
| HashTheorems.LockedTableIsAtomic | hw4/parallel_spin.c:58-68 | at every moment of every run with locks, memory is what the inserts so far in lock order make of an empty table |
| HashTheorems.LockedLookupIsLatest | hw4/parallel_spin.c:58-78 | so at every moment a lookup in the contents of memory gives the latest insert of its key in lock order |
| HashTheorems.EveryLookupSucceeds | hw4/parallel_mutex.c:111-140 | after the barrier every key is found |
| HashTheorems.CountLost | hw4/parallel_mutex.c:111-140 | on the memory that the put phase has left behind, with locks or one thread, the get threads' counts of lost keys add up to zero, however many threads count |
| HashProgress.PutPhaseCanFinish | hw4/parallel_mutex.c:56-67 | every run, with or without locks, can be continued until all inserting threads have ended |
| HashProgress.InsertIsHeldUpIff | hw4/parallel_mutex.c:38-43 | an insert is held up exactly by another on the same bucket with a mutex for each, by any other with the spinlock, and by none without locks |
| HashReaders.RetrieveIsAtomic | hw4/parallel_hashtable.c:45-51 | in all three programs retrieve returns what a lookup in the table gives at the moment it reads table[i], whatever is inserted while it walks |
| HashReaders.RetrieveReturnsLatest | hw4/parallel_spin.c:72-78 | with locks retrieve returns the latest insert of its key, in lock order, before it began |
| HashReaders.RetrieveFindsFinishedInsert | hw4/parallel_spin.c:72-78 | a lock-free retrieve returns an entry of its key if an insert of it was published before it began; without locks if that insert was undisturbed |
| HashReaders.RetrieveTerminates | hw4/parallel_mutex.c:48-54 | over every run a retrieve takes at most two steps for each entry that was ahead of it when it began, and one more, whatever is inserted meanwhile |
| HashReaders.ReaderCanStep | hw4/parallel_mutex.c:48-54 | a retrieve can always begin and go on |
| XorWords.XorBuf | final_project/fast.c:13-19 | xorbuf gives the exclusive or of the first words of the buffer |
| XorWords.XorIsParity | final_project/fast.c:13-19 | that is, each bit of it is set exactly if an odd number of the whole words has it |
| XorWords.TwiceIsNothing | final_project/fast.c:13-19 | words that come twice give 0 |
| XorWords.BytesOfWord | final_project/fast.c:25-33 | a word is its four bytes in the buffer, the first one lowest |
| XorWords.XorRead | final_project/fast.c:32-33 | of the bytes read, the whole words count and up to three bytes at the end do not |
| XorWords.Pread | final_project/run_multithreaded.c:38 | the buffer starts with the bytes at the offset, as many as were asked for or are left |
| XorBlocks.StridesCover | final_project/run_multithreaded.c:36-46 | dealing a series out to any number of strides loses nothing and repeats nothing |
| XorBlocks.NextTurn | final_project/run_multithreaded.c:40-42 | one turn of a thread's loop takes in exactly the next term of its stride |
| XorBlocks.BlockAt | final_project/run_multithreaded.c:38-42 | reading at a multiple of the block size gives that block, and nothing exactly if it is past the last |
| XorBlocks.BlocksMakeFile | final_project/fast.c:30-34 | the exclusive or of the blocks, the short last one included, is that of the file |
| XorReaders.OpenFile.constructor | final_project/fast.c:23 | an opened file is read from its start |
| XorReaders.OpenFile.Read | final_project/fast.c:30 | a read gives the next bytes and moves on by as many |
| XorReaders.FastRead | final_project/fast.c:21-37 | fast.c computes the exclusive or of all whole words of the file |
| XorReaders.BlockRead | final_project/run_blocksize.c:21-39 | run_blocksize.c computes that of the first blockCount blocks of the file, of all of it if they cover it and 0 if the count is not positive, and has read one block more |
| XorReaders.EnoughBlocks | final_project/run_blocksize.c:31-36 | with a count that covers the file it agrees with fast.c |
| XorThreads.ThreadArg.constructor | final_project/run_multithreaded.c:56-65 | a thread starts at the block of its own number with nothing taken in |
| XorThreads.ThreadArg.Round | final_project/run_multithreaded.c:38-43 | after each turn the accumulator holds exactly the part of the stride before the offset, and the thread comes nearer its end |
| XorThreads.TurnTaken | final_project/run_multithreaded.c:38-42 | the offset computed from the count is that of the next block of the stride |
| XorThreads.StrideComplete | final_project/run_multithreaded.c:38-43 | a thread whose read gives nothing has taken in its whole stride |
| XorThreads.MakeThreads | final_project/run_multithreaded.c:56-65 | each thread has its own number, buffer and accumulator |
| XorThreads.Turn | final_project/run_multithreaded.c:67-69 | a turn of one thread leaves every other thread as it was |
| XorThreads.DiskRead | final_project/run_multithreaded.c:48-77 | for every file, thread count and interleaving the reader ends with what fast.c computes, or with 0 if a block cannot hold a word |
| XorThreads.BlockSizeDoesNotMatterIff | final_project/run_multithreaded.c:54-62 | the block size makes no difference on any file if and only if it is at least a word |

## Left out

- Kernel stacks, trap frames, page tables, file tables, boot code and procdump: hardware layout and debug output; an allocation either succeeds or fails.
- System call dispatch, the other system calls and the user programs of hw3: they change no process table state, or only through the functions modelled here.
- The random generator of hw3 and its probabilities: rand.h is not part of this model; a draw is any value in range and the winning draws are counted exactly.
- nextpid is unbounded: the C int overflows only after 2^31 allocations, which is undefined.
- ProcCode.PTable.SchedulerPass: asks that the sums fit an int, because they are undefined in C otherwise; the kernel model then lets any RUNNABLE slot be picked. What random_at_most answers to a negative sum is not shown; it is taken to be at most the sum.
- ProcCode.PTable.Fork: has no other CPU running in between; the unlocked writes are separate steps of the kernel model.
- KernelTheorems.NoLostWakeup: that a waker whose write makes a sleeper's condition true calls wakeup before it releases lk is a guard of the model's steps, because it is the callers' part; that of sleep is proved.
- KernelTheorems.LockCanBeReleased: that a CPU which can step does step is not modelled, so no fairness and no liveness beyond it is claimed.
- SysProc.SysSleep: ticks and killed as the loop sees them are arguments; how the loop sleeps in between is the kernel model's three steps of sleep.
- Interrupt handlers of the kernel model may act at any moment on locks they hold; the CPU they borrow is not named.
- The shell's prompt, cd, PATH, the 100-byte line buffer, execvp itself and the texts of its messages.
- ShellRun.System.RunCmd: open, dup, pipe and fork succeed, and the two sides of a pipe run on their own tables one after the other; wait after runcmd(pcmd->right) is never reached.
- ShellParser.Parser.ParseCmd: the parser exits on an error, so its state is not described after one.
- HashCode.HashTable.Insert: runs as its lock makes it, with nothing in between; interleavings are the business of HashMachine. There the test of b for null is one step with the comparison of b->key, because b is a local variable.
- The real memory model, malloc failure, addresses reused by malloc, and timing in hw4.
- XorThreads.DiskRead: negative block sizes, for which the sizes handed to malloc wrap, and thread counts below 1; and count is unbounded where the C int would overflow on files of more than 2^31 blocks a thread.
- XorReaders.BlockRead: negative block sizes, for which the array in the C code has a negative length.
- disk_write, run.c, part_4_lseek_run.c, the benchmark, the Python scripts and their JSON cases: input, output and timing around the same readers.
- hw1/uniq.c: its comparison buffers have no room for the terminating NUL, so that most of what it does is undefined in C.
