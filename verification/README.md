# MiniShell: a verified model

MiniShell is a Unix job-control shell written in C.  This project models the part of it that is
hard to get right and proves what that part is for: launching pipelines behind a startup gate,
keeping the job table in step with the kernel, losing no child event, shutting down completely,
parsing exactly the command language, assembling input lines, redirecting builtins and loading the
configuration as one transaction.

Check everything with `dafny verify dfyconfig.toml`.

## How it is built

The kernel is explicit state (`Kernel.dfy`): children with their process group, gate phase, pending
report and death; pipes with the bytes written and who consumed them; the terminal's foreground
group and modes.  Children take steps of their own (`Kernel.Act`).  The shell process is the class
`Machines.Machine` (`Machine.dfy`): every system call has its effect and then lets the children take
any number of steps, and a call that may fail in the source fails by free choice.  So every contract
of a method that uses the machine speaks about all interleavings and all failures.  `faults` counts
the calls that failed, which is how a contract can say that an operation fails only when a call did.
`log` keeps the order of the calls that matter (terminal calls, signals, blocking waits), `got` what
foreground waits were told, `openings` the job list and the terminal's owner at the first byte written
to each gate, `readings` the terminal modes read and the group the terminal had been given to, and
`peak` the largest number of descriptors ever open.  Only the calls themselves write these records.

| file | what it models |
|---|---|
| `Kernel.dfy`, `Machine.dfy` | children, gates, terminal; the system calls the shell makes |
| `Jobs.dfy`, `JobTable.dfy`, `Schedule.dfy`, `Shutdown.dfy` | `src/job.c` |
| `LaunchState.dfy`, `Rollback.dfy`, `Launch.dfy`, `Executor.dfy`, `Spawn.dfy`, `Execute.dfy`, `Wiring.dfy` | `src/executor.c` |
| `Terminal.dfy` | `src/terminal.c` |
| `Modes.dfy` | the modes a job remembers, from the stop to the fg that gives them back |
| `MainLoop.dfy` | fg and bg of `src/builtin.c`, the job limit, and whole runs of the loop |
| `EventLoop.dfy` | `src/sig.c`, `src/event.c` and the event branch of `src/shell.c` as a state machine |
| `Lexer.dfy`, `Grammar.dfy`, `Parser.dfy` | `src/parser.c`, `src/command.c` |
| `LineInput.dfy` | line assembly in `src/shell.c` |
| `Dispatcher.dfy` | `src/dispatcher.c` |
| `Config.dfy` | `config/config.c` |

The central predicates: `Jobs.Conserved` says that the unreaped children are, as a multiset, exactly
the processes of listed jobs that are not done plus whatever a launch in progress holds;
`Jobs.Synced` adds that each such process has the job's group and, when it has nothing left to
collect, the status the kernel gives it; `Jobs.AtPrompt` is the state in which the shell is back in
its loop.  `Kernel.WorldOk`, part of every machine state, contains the gate accounting and the
condition under which the first byte was written to a gate; `Machines.Accounted`, also part of it, says
that the stamped gates are exactly the recorded openings and that a gate is open only while the shell
holds a descriptor on it.

### What is assumed of the environment

- `fork` never returns a pid in use as a pid or as a process group.
- `waitpid` with `WNOHANG` does not return `EINTR`; elsewhere an `EINTR` retry loop is modelled by
  the result it ends with, that is, only finitely many `EINTR`s come in a row.
- A foreground wait is given finitely many reports (any number, `Machine.reports`).
- `sigprocmask` with valid arguments succeeds.  SIGKILL to an unreaped child of the shell succeeds.
- A child stays in the group the launcher put it in, and only a program of the foreground group
  changes the terminal.
- Descriptors 0, 1 and 2 are open at start (src/main.c:30-42); so a newly opened one is above 2.
- A builtin handler leaves the descriptor table as it found it.

### A condition on one property

At every prompt the terminal belongs to the shell, except that the code does not look at the result
of `terminal_restore` on its error paths (for instance src/executor.c:464 and src/builtin.c:161).
`Shell.lostTerminal` says that the last restore was such a call and failed; a later restore that
succeeds clears it.  `Shell.TerminalOk`, which every operation keeps, is: the terminal is the shell's,
or `lostTerminal`.  A restore after a completed wait is checked, and its failure stops the shell.

## Model

| member | source | states |
|---|---|---|
| `Kernel.GateSafety` | src/executor.c:125-142 | in every reachable world a child past its gate is a process of the job that headed the list when the gate's first byte was written, and is in that job's group |
| `Machines.PassedWasOpened` | src/executor.c:84-142 | at every moment a child past its gate belongs to an opening on record, with its job listed |
| `Machines.NewGates` | src/executor.c:144-202 | pipes made since a moment whose descriptors are gone again are closed; if no opening was recorded since, nobody has passed one or ever will |
| `Kernel.StepRelies` | src/executor.c:84-142 | each step a child can take (close its write end, join its group, read a byte, see end of file, die, stop, continue, change the terminal) keeps the gate accounting and the relation the shell relies on between its calls |
| `Kernel.RelyTransitive` | src/executor.c:84-142 | that relation covers any number of steps, including who may have changed the terminal |
| `Kernel.ClosedGateStrandsNobody` | src/executor.c:84-142 | once the shell has closed the gate, members that have run out of steps are past the gate or dead: nobody blocks on it for ever |
| `Kernel.GateStepsRunOut` | src/executor.c:125-142 | every gate step strictly lowers the number of steps left, so members do run out of steps |
| `Kernel.ReleasedMemberFindsByte` | src/executor.c:104-123 | when a byte for every member was written, a member that has not passed finds one unconsumed |
| `Machines.TtyKept` | src/terminal.c:160-172 | while the shell's group is in front no child can change the terminal |
| `Machines.Machine.Pipe` | src/executor.c:51-67 | two fresh descriptors above 2 on the ends of a new pipe, or nothing changes and a fault is counted |
| `Machines.Machine.Fork` | src/executor.c:387-410 | the child inherits the shell's exact table and joins the gate's members; its pid is fresh |
| `Machines.Machine.SetPgid` | src/executor.c:27-39 | a child that has already passed exec or is gone counts as success; otherwise it is moved to its group |
| `Machines.Machine.WaitGroup` | src/job.c:385-412 | what waitpid(-pgid, WUNTRACED) returns is the report of a child of that group, taken from it once and recorded |
| `Machines.Machine.WaitNow` | src/job.c:428-470 | what a non-blocking wait returns is decided by the child's state at that moment, and a report is handed out once |
| `Machines.Machine.WaitDeath` | src/executor.c:144-163 | a blocking wait for a killed child returns its death and removes it |
| `Jobs.OnlyOwner` | src/job.c:288-320 | no two live processes of the table have the same pid |
| `Jobs.SyncedStable` | src/job.c:428-470 | nothing the children do by themselves makes the table disagree with the kernel |
| `Jobs.CollectConserves` | src/job.c:65-79 | collecting one report and applying it keeps the children equal to the live processes of the table |
| `Jobs.CollectSynced` | src/job.c:65-79 | and keeps every other process owned and in agreement |
| `JobTables.FinishedExitStatus` | src/job.c:414-426 | a finished job's status is the exit code of its last process, or 128 plus the signal that killed it, in 0..255 |
| `JobTables.ReportedBelongs` | src/job.c:385-412 | a child reported for the job's group is a live process of that job, so the "not found" exit is never taken |
| `JobTables.JobManager.Add` | src/job.c:246-272 | a new running job at the head with the next id; refused only for a bad group or when memory runs out |
| `JobTables.JobManager.ProcessAdd` | src/job.c:288-320 | a running process at the end of the job's list; refused only for a bad pid or when memory runs out |
| `JobTables.JobManager.Find` | src/job.c:274-286 | the first job with the group, or none |
| `JobTables.JobManager.FindProcess` | src/job.c:26-40 | a process of the job with that pid, or none |
| `JobTables.JobManager.CountActive` | src/job.c:339-352 | the number of positions in the list whose job is running or stopped |
| `JobTables.Truncated` | src/job.c:246-272 | the listed command is the first 127 bytes of its name |
| `JobTables.JobManager.UpdateStatus` | src/job.c:42-63 | the cached status becomes the aggregate of the processes: running if one runs, else stopped if one is stopped, else done |
| `JobTables.JobManager.Continue` | src/job.c:354-383 | succeeds exactly for a stopped job whose SIGCONT was sent; then every stopped process is marked running, and table and kernel agree again |
| `JobTables.JobManager.WaitForeground` | src/job.c:385-412 | ends with the job as the kernel's reports, in their order, make it; fails only when waitpid does; all other jobs are untouched and the table still agrees with the kernel |
| `JobTables.JobManager.Remove` | src/job.c:496-516 | exactly the first job with the group leaves the list |
| `JobTables.JobManager.CleanupDone` | src/job.c:472-494 | exactly the finished jobs leave the list, in place, order kept |
| `JobTables.CleanupAtPrompt` | src/job.c:472-494 | dropping the finished jobs of a table in agreement loses no child and brings the shell to its prompt state |
| `JobTables.JobManager.Reap` | src/job.c:428-470 | every live process is polled once and takes exactly the report its child had at that moment; done processes are untouched |
| `JobTables.NothingMissed` | src/job.c:428-470 | a process whose child had a report when the pass began carries a report after it, and the death if the child was dead |
| `Schedule.PlayOk` | src/job.c:42-79 | for every sequence of reports and continues the status is the aggregate and a done process never changes |
| `Schedule.PlayDeath` | src/job.c:65-79 | a stage is done in the end if and only if its death was reported, and keeps the first one reported |
| `Schedule.LastStageDecides` | src/job.c:90-99 | the status of a finished job is that of its last stage in command order: its exit code, or 128 plus its signal |
| `Schedule.ScheduleIndependent` | src/job.c:385-426 | two schedules in which the last stage dies the same way give the same status |
| `Schedule.HeardIsPlayed` | src/job.c:385-412 | what a foreground wait makes of a job is one of those schedules |
| `Schedule.LaunchReturnsLastStatus` | src/job.c:385-426 | a foreground launch that ends without stopping returns the exit code, or 128 plus the signal, of the first death the kernel reported for the last stage |
| `Schedule.FgReturnsLastStatus` | src/builtin.c:130-209 | a job that stopped and is finished by fg returns it too, whether that death was on record before or came in this wait |
| `Shutdown.ContinueStopped` | src/job.c:204-222 | the stopped processes are marked running and no child is lost, whether or not the signal could be sent |
| `Shutdown.TryReap` | src/job.c:113-138 | answers true exactly when the process is done, and touches no other process |
| `Shutdown.TryReapAll` | src/job.c:165-185 | answers true exactly when every process of every job is done |
| `Shutdown.PollForExit` | src/job.c:566-571 | at most fifty sleeps, fewer only when everything is done |
| `Shutdown.AskedMeans` | src/job.c:546-564 | a group gets SIGCONT exactly when a stopped job has it, and SIGTERM exactly when an unfinished one has it |
| `Shutdown.ForceReap` | src/job.c:140-163 | the one blocking wait is for a process already killed, and ends with it reaped |
| `Shutdown.JobShutdown` | src/job.c:535-601 | from any table in agreement: SIGCONT to exactly the stopped jobs, SIGTERM to exactly the unfinished ones, at most fifty sleeps, SIGKILL to every group, only then blocking waits; at the end no child, no job, next id 1 |
| `Terminal.SetForeground` | src/terminal.c:126-132 | the group is put in front, or nothing changes and a call failed |
| `Terminal.GetModes` | src/terminal.c:134-145 | the modes in force at the call |
| `Terminal.SetModes` | src/terminal.c:147-158 | the modes are set, or nothing changes and a call failed |
| `Terminal.Restore` | src/terminal.c:160-172 | on success the shell's group and modes are in force, and remain so |
| `LaunchState.NobodyPassed` | src/executor.c:125-142 | before the release nobody who could change the terminal is in the launch's group |
| `LaunchState.ForkHeld` | src/executor.c:567-626 | one more fork keeps what the launch knows about the stages it holds at the gate |
| `LaunchState.RegisterSynced` | src/executor.c:672-700 | listing the held stages as a job turns exactly the held children into owned ones |
| `LaunchState.UnlistHead` | src/executor.c:724-757 | taking the job off again leaves its live processes as what has to be rolled back |
| `Rollbacks.ReapPid` | src/executor.c:144-163 | one held child less, and nobody else's child is taken |
| `Rollbacks.Rollback` | src/executor.c:165-202 | every held child is killed and reaped; the children are those of the listed jobs again |
| `Wiring.ChildFds.RedirectFd` | src/executor.c:219-234 | the description moves to the target and the old descriptor is closed; equal descriptors are left alone; failure changes nothing |
| `Wiring.ChildFds.SetRedirect` | src/executor.c:308-369 | output then input file on 1 and 0, opened as the command says; fails only when a call failed |
| `Wiring.ChildFds.Connect` | src/executor.c:604-615 | the pipe ends end up on 0 and 1 and no other end is left |
| `Wiring.ChildFds.Prepare` | src/executor.c:594-621 | at exec a stage has exactly the promised table: the shell's without the event pipe, 0 and 1 replaced by pipe ends or redirections, no gate end |
| `Wiring.OneReaderOneWriter` | src/executor.c:529-670 | over all stages, pipe i is written only through descriptor 1 of stage i and read only through descriptor 0 of stage i + 1, unless that stage redirects it |
| `Launch.Abandon` | src/executor.c:431-447 | closes the gate and rolls back: nobody ever passed or will pass it, and the children are those of the listed jobs |
| `Launch.RegisterStages` | src/executor.c:686-699 | every stage in command order, or memory ran out |
| `Launch.GateWrite` | src/executor.c:104-123 | the first byte can be written only when the gate's members are exactly the processes of the job at the head of the list, all aimed at its group; the list and the terminal's owner of that moment go on record |
| `Launch.Release` | src/executor.c:104-123 | one byte per process of the listed job; the opening is recorded once, with the list and the terminal's owner at the call; every stage still in front of the gate finds a byte; fails only when a write does |
| `Launch.SaveModes` | src/executor.c:260-263 | a job stopped in the foreground remembers exactly the modes read, and the reading is recorded; a failed read leaves it as it was |
| `Launch.FinishForeground` | src/executor.c:255-291 | a finished job leaves the list and gives its exit status, a stopped one stays; the terminal is the shell's again, or the shell stops |
| `Executor.ListAndFront` | src/executor.c:672-722 | job listed with all stages and terminal handed over with nobody past the gate; or everything undone, the gate never opened, and a call failed |
| `Executor.ReleaseListed` | src/executor.c:724-740 | the release of a listed launch and the close of the gate: the opening has the whole list and, in the foreground, the launch's group in front |
| `Executor.RunForked` | src/executor.c:672-762 | the rest of a launch: the table agrees with the kernel however it ends; it opens no gate, or its own, once, with its job at the head of the list, every stage registered in order, and the terminal its group's when it is a foreground launch; a launch that fails while the shell goes on leaves the list as it was, and it fails only when a call did |
| `Executor.WaitAndFinish` | src/executor.c:745-761 | the job ends as its reports make it, and if stopped it is at the head of the list with the modes read while it had the terminal; or it is rolled back and off the list |
| `Spawn.CreateGate` | src/executor.c:51-67 | a fresh close-on-exec gate, or no descriptor is left |
| `Spawn.AbortSpawn` | src/executor.c:532-592 | each descriptor of the failed turn is closed once, the stages are rolled back, the table is the one before the launch |
| `Spawn.MakePipe` | src/executor.c:548-565 | the pipe to the next stage exists when there is a next stage, and the table is then exactly what the child is to inherit |
| `Spawn.ForkStage` | src/executor.c:567-654 | the new stage inherited its two pipe ends and is in the group, or the whole launch is undone |
| `Spawn.SpawnStage` | src/executor.c:529-665 | one turn keeps the loop's invariant and never stores beyond entry 63, or undoes the launch; it fails only when a call did or the chain is too long |
| `Spawn.SpawnAll` | src/executor.c:529-665 | all stages forked and wired, never more than five descriptors above those at entry |
| `Spawn.PipelineWired` | src/executor.c:529-670 | for the launch as a whole: every stage meets what its own wiring needs, and over all stages each end of each pipe is held at exec by at most one descriptor of one stage, and no end of the gate by any |
| `Spawn.StageFiles` | src/executor.c:308-369 | for every stage, at exec: a named file is open at exactly that path, for writing on 1 and appended to exactly when the command says so, for reading on 0; without one, 0 and 1 are the pipes to the neighbours or, at the ends, the shell's own; everything else is the shell's |
| `Execute.ForkChain` | src/executor.c:503-670 | execute_pipeline up to the closing of the gate's read end: all stages forked and wired, or everything undone and every pipe it made closed and never released |
| `Execute.ForkAlone` | src/executor.c:371-426 | the same for execute_single |
| `Execute.ExecuteSingle` | src/executor.c:371-501 | descriptors as at entry, children those of the listed jobs, terminal the shell's; the only gate it can open is its own, with the job listed and the terminal handed over; if it opens none, no pipe it made was ever released or can be, so none of its children gets to exec; fails only when a call did |
| `Execute.ExecutePipeline` | src/executor.c:503-762 | the same for a chain of any length; it fails only when a call did or the chain has more than 64 commands |
| `MainLoop.ExecuteCommand` | src/executor.c:204-306 | refused exactly when max_job jobs are active, and then nothing at all was done; otherwise a launch as above |
| `MainLoop.HandOver` | src/builtin.c:150-166 | the terminal goes to the job's group first, then the modes the job stopped with are set |
| `MainLoop.Resume` | src/builtin.c:150-175 | and only after that the job is continued |
| `MainLoop.WaitInFront` | src/builtin.c:174-209 | fg's wait: the job ends as its reports make it, off the list with its status or stopped at its place with the modes read while it had the terminal |
| `MainLoop.StoppedThenResumed` | src/builtin.c:150-175 | after a launch that leaves its job stopped, that job is the one fg picks, and fg gives it the terminal, sets exactly the modes read at the stop, and then continues it, in that order |
| `MainLoop.ModesComeBack` | src/builtin.c:150-175 | after any run in between, the modes fg sets are the last ones read while that job had the terminal; they are set after the hand-over, and only a stopped job is continued, after that |
| `Modes.SoundStopped` | src/executor.c:260-263 | a job that stops takes the modes read last, and no other job's memory becomes wrong by it |
| `Modes.SoundLaunch` | src/executor.c:371-762 | every launch keeps it that each job remembers the last modes read while it had the terminal |
| `MainLoop.SoundForeground` | src/builtin.c:130-209 | so does fg |
| `MainLoop.Fg` | src/builtin.c:130-209 | the newest active job; terminal, its modes and SIGCONT in that order; it ends as its reports make it, off the list with its status or stopped at its place with the modes the terminal then had; fails only for an empty table or when a call did |
| `MainLoop.Bg` | src/builtin.c:211-240 | the newest stopped job is continued; fails only when there is none or the signal could not be sent |
| `MainLoop.Normalized` | src/shell.c:16-19 | a failure counts as status 1, anything else is kept |
| `MainLoop.ReapAndClean` | src/shell.c:243-248 | every process polled, the finished jobs gone, the shell at its prompt state |
| `MainLoop.Turn` | src/shell.c:82-99 | one turn leaves the shell clean and the job limit respected; what it was asked for was done, its result is what `$?` becomes, and a failure makes it 1 |
| `MainLoop.Largest` | src/executor.c:204-217 | the largest limit in force: the first one or one of the reloads, and none is larger |
| `MainLoop.Serve` | src/shell.c:190-282 | over every run: children are exactly the live processes of the table, ids and groups in order, descriptors as at start, never more than five above, status in 0..255, active jobs at most the largest max_job so far, terminal the shell's; every gate opened was opened by a command of the run, with its job listed and the terminal handed over; every job remembers the last modes read while it had the terminal |
| `MainLoop.PassedByCommand` | src/executor.c:84-142 | over a whole run a child past its gate was released by one of the run's commands, as a process of the listed job, in its group, with the terminal its group's if the command ran in the foreground |
| `MainLoop.Session` | src/shell.c:159-296 | start, any run, shutdown: no child and no job is left, whatever happened, and the descriptors are those of the start |
| `EventLoop.NextKeeps` | src/sig.c:9-114 | each step of child, handler or loop keeps: an uncollected change is announced (signal pending, handler running, or CHILD bit set with a byte to wake the loop) or the reap pass has yet to reach it |
| `EventLoop.CommandReturns` | src/shell.c:82-99 | what every command and builtin leaves behind is the state in which the loop may go on |
| `EventLoop.SignalKeeps` | src/sig.c:9-21 | delivery and the handler, with a full event pipe or not, keep it |
| `EventLoop.PlainKeeps` | src/event.c:51-84 | select, draining and taking the bits under the mask keep it |
| `EventLoop.ReapsKeeps` | src/job.c:428-470 | each step of a reap pass interleaved with signals keeps it |
| `EventLoop.NothingIsEverLost` | src/shell.c:210-261 | so it holds at every moment of every run |
| `EventLoop.QuietMeansExact` | src/shell.c:210-261 | when the loop blocks on an empty pipe with nothing pending, every change has been collected and the table says of every child what the kernel says |
| `EventLoop.InterruptNeverLost` | src/sig.c:9-21 | in every run a SIGINT that has arrived is pending, in the handler, in the bits with the loop about to be woken, or on its way through the loop, until the partial line has been discarded for it |
| `EventLoop.QuietMeansReset` | src/shell.c:250-260 | when the loop blocks on an empty pipe with nothing pending, every interrupt that arrived before has been acted on |
| `Lexer.Push` | src/parser.c:11-31 | a token is refused exactly beyond 128 tokens or 255 bytes, in that order |
| `Lexer.Tokenize` | src/parser.c:104-210 | the pointer loop computes the reference lexer, and its verdict is that of the first limit exceeded |
| `Lexer.LimitsDecide` | src/parser.c:11-31 | which failure it is, decided by counting to 128 tokens and 255 bytes alone |
| `Lexer.OneCharacter` | src/parser.c:33-39 | what each character is on its own: the six blanks nothing, the four operators their tokens, any other a word; with `Lexer.LexDistributes` this decides every line |
| `Lexer.LexConserves` | src/parser.c:104-210 | the token texts joined are the line without its whitespace, and every token is well formed |
| `Lexer.LexDistributes` | src/parser.c:104-210 | a line cut where no token can continue lexes piece by piece: words and operators are maximal |
| `Lexer.LexRoundTrip` | src/parser.c:104-210 | the space-joined text of any list of valid tokens lexes to that list |
| `Grammar.BuildAccepts` | src/parser.c:212-402 | every sentence of the grammar is accepted with its meaning |
| `Grammar.BuildSound` | src/parser.c:212-402 | everything accepted is a sentence |
| `Grammar.ExactLanguage` | src/parser.c:212-402 | accepted if and only if a pipeline of 1 to 63 words a command, at most one input and one output each, a word after each pipe, and & only last |
| `Grammar.WordsMeant` | src/parser.c:224-386 | every sentence is parsed into its segments in order: each word is an argument as it stands, except that `$?` is the last status in decimal without leading zeros; files and appending are as written |
| `Grammar.ThreeDigits` | src/parser.c:240-244 | units, tens, hundreds |
| `Grammar.ParseRoundTrip` | src/parser.c:212-402 | the canonical tokens of any well-formed chain parse to that chain |
| `Parser.CommandFree` | src/command.c:23-38 | everything the chain owns is given back, each address once |
| `Parser.BuildStep` | src/parser.c:224-386 | one turn of the switch advances the grammar's state, stores one string or node, and owns each address once |
| `Parser.BuildCommand` | src/parser.c:212-402 | the grammar's result, or its syntax error, or out of memory exactly when an allocation failed; every failure gives back all it allocated exactly once |
| `Parser.ParseLine` | src/parser.c:86-102 | nothing exactly for a blank line, status 2 for a lexical or syntax error, status 1 exactly when memory ran out, else the chain |
| `Parser.LineRoundTrip` | src/parser.c:86-102 | the text of any well-formed chain within the limits means that chain |
| `LineInput.LineReader.TakeByte` | src/shell.c:101-157 | one byte into the 4096-byte buffer does what the reference does with the whole line; the status becomes 2 exactly when a line turns out too long |
| `LineInput.LineReader.Dispatch` | src/shell.c:82-99 | the line run is what the buffer holds without a CR at its end, if it has one there, and the buffer is reset |
| `LineInput.LineReader.Feed` | src/shell.c:101-157 | after any events what has been run is exactly what the reference runs on them; each event is consumed before the next |
| `LineInput.ReferenceStep` | src/shell.c:237-278 | the reference is causal: a later event only adds to what has been run |
| `LineInput.RunsTheLines` | src/shell.c:101-157 | on a text, line by line: for each of its lines of at most 4095 bytes, a nonempty unterminated last one included, that line is run, without one CR at its end if it has one |
| `LineInput.ReportsOverlong` | src/shell.c:146-152 | each line of more than 4095 bytes is reported exactly once |
| `LineInput.LinesRejoin` | src/shell.c:101-157 | the lines of a text, each with its newline, and the rest are the text again, and no line contains a newline |
| `LineInput.FittingMeans` | src/shell.c:146-152 | the lines that fit are those of at most 4095 bytes, and the others are the overlong ones |
| `LineInput.RunLinesMeans` | src/shell.c:101-157 | every action either runs a line or reports one |
| `LineInput.InterruptDropsPartial` | src/shell.c:250-260 | an interrupt discards the partial line and nothing else |
| `Dispatcher.Choose` | src/dispatcher.c:149-184 | a builtin runs if and only if it stands alone in the foreground; the executor gets exactly the chains without builtins |
| `Dispatcher.Dispatch.Replace` | src/dispatcher.c:51-79 | the backup survives every failure after it was made; on success a new description of exactly the named file is on the descriptor, opened for writing or reading and appended to as asked |
| `Dispatcher.Dispatch.Apply` | src/dispatcher.c:30-115 | succeeds exactly when nothing failed; on every exit what is needed to restore is at hand |
| `Dispatcher.Dispatch.RestoreRedirect` | src/dispatcher.c:117-147 | the open set is as before always, and every description when it reports success |
| `Dispatcher.Dispatch.RunBuiltin` | src/dispatcher.c:186-234 | the builtin sees exactly the files its command names, appended to when it says so; afterwards 0 and 1 refer to what they did before, or the shell is told to stop; the open set is unchanged on every path |
| `Config.TrimSpace` | config/config.c:10-23 | the in-place trim computes the reference trim |
| `Config.TrimMeaning` | config/config.c:10-23 | the result is what is left between two runs of whitespace and has none at its ends |
| `Config.ParseLine` | config/config.c:36-99 | one line changes exactly the setting it asks for, or nothing |
| `Config.Store.Load` | config/config.c:101-178 | either the old configuration untouched, or the fold of all lines over the defaults; succeeds exactly when the file opens, reads, closes and every line is good; always within its ranges |
| `Config.AppliedValid` | config/config.c:36-99 | no accepted line leaves the ranges: prompt trimmed and 1..63 bytes, max_job 1..INT_MAX, debug 0 or 1 |
| `Config.CommentIgnored` | config/config.c:41-44 | blank lines and comments are accepted and change nothing |
| `Config.UnknownKeyRefused` | config/config.c:98-98 | a line with any other key is refused, whatever its value |
| `Config.MalformedRefused` | config/config.c:46-57 | a line that is neither blank nor a comment is refused when it has no = sign, or nothing before it |
| `Config.OverlongRefused` | config/config.c:126-142 | a line of more than 254 bytes is refused wherever it stands |
| `Config.MaxJobLine` | config/config.c:67-82 | a number of jobs is accepted exactly when it is digits, after at most a plus sign, and lies in 1..2147483647 |
| `Config.PromptAndDebugLines` | config/config.c:59-96 | a prompt must have at most 63 bytes, and debug must be 0 or 1 |
| `Config.LastLine` | config/config.c:121-142 | a last line without its newline counts like any other |
| `Config.ConfigRoundTrip` | config/config.c:36-178 | printing any configuration in range and loading it gives it back |
| `Config.PromptFits` | src/shell.c:65-80 | the prompt of any such configuration fits its 128-byte buffer |

## Left out

- Linked lists of jobs and processes and the command chain are sequences in fields that the methods reassign: pointer identity and the aliasing of list nodes are not captured (the addresses of command nodes and strings are, in `Parser`).
- Freeing of job and process records (`process_destroy`, `job_destroy`) is not tracked; only the lists are.
- Overflow of `nextid` and of the event counter: integers are unbounded.
- `EINTR` retry loops appear only through the result they end with.
- Signal masks of children (`child_block_startup_signals`, `signal_reset_child`) and signal dispositions.
- `execvp` and what a program does after it: a child past its gate may exit, stop, continue, die or change the terminal at will.
- Real time: a sleep is a moment in which children may take any steps.
- `terminal_init` and `terminal_shutdown`: the model starts from a terminal the shell owns, or from none.
- Null-pointer guards at the head of the C functions.
- The text of messages and the output of `jobs`, `help`, `pwd`, `cd` and the information and LED builtins.
- The search for the configuration file and the environment variables it reads.
- Startup and shutdown of signal handlers and of the event pipe (`signal_init`, `event_init` and their counterparts); the event loop starts after them.
- `shell_write_all` and flushing of standard output, except where a builtin's redirection depends on it.
- EventLoop.NextKeeps: between the start and the return of a command the loop's table is left to the contracts of `Execute` and `MainLoop`, which give what the state machine asks for on return (`EventLoop.CommandReturns`).
