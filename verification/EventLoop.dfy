/**
 src/sig.c, src/event.c and the event branch of shell_run: children change state, signals are
 delivered and the handler runs between any two steps of the loop.  No child event is lost.
 */
module EventLoop {
  import opened Kernel
  import opened Machines
  import opened Jobs
  import opened JobTables
  import Launch
  import Execute

  const PIPE_CAPACITY: nat := 65536
  const DRAIN_BUFFER: nat := 64

  datatype Sig = Chld | Int

  /** pending_events */
  datatype Bits = Bits(child: bool, interrupt: bool)

  const NO_BITS := Bits(false, false)

  /** Where signal_handler is: not running, entered, or about to call event_notify. */
  datatype Handler = Idle | Entered(sig: Sig) | Noted

  /** What a turn of the loop still has to do behind the reap pass. */
  datatype Todo = Todo(interrupt: bool, input: bool)

  /** Where the main program is; `input` says that select also reported standard input. */
  datatype Pc =
    | Select
    | Drain(input: bool)                            // event_drain
    | Block(input: bool)                            // signal_take_events: before sigprocmask
    | Take(input: bool)                             //   signals blocked, pending_events not read yet
    | Unblock(events: Bits, input: bool)            //   read and cleared
    | Handle(events: Bits, input: bool)
    | Reaping(i: nat, j: nat, todo: Todo)           // job_reap at process j of job i
    | Clean(todo: Todo)                             // job_cleanup_done
    | Read                                          // shell_read_input
    | Dispatch                                      // inside dispatcher_command

  datatype State = State(
    w: World, jobs: seq<Job>, nextId: int,
    chldPending: bool, intPending: bool, blocked: bool,
    handler: Handler, bits: Bits, pipe: nat, pc: Pc,
    resets: nat)                  // how often an interrupt has made the loop discard the partial line

  // ---------------------------------------------------------------- steps

  /** The steps that change a child's state in the sense of waitpid; each raises SIGCHLD. */
  predicate Raises(a: Act) {
    a.JoinFail? || a.ReadEof? || a.ReadErr? || a.Die? || a.Stop? || a.Cont?
  }

  ghost predicate ChildStep(s: State, s': State, p: Pid, a: Act) {
    && Enabled(s.w, p, a)
    && s' == s.(w := Apply(s.w, p, a), chldPending := s.chldPending || Raises(a))
  }

  predicate Interrupted(s: State, s': State) { s' == s.(intPending := true) }

  /** Both handlers block both signals while they run. */
  predicate Deliver(s: State, s': State) {
    && s.handler.Idle? && !s.blocked
    && (|| (s.chldPending && s' == s.(chldPending := false, handler := Entered(Chld)))
        || (s.intPending && s' == s.(intPending := false, handler := Entered(Int))))
  }

  predicate HandlerMarks(s: State, s': State) {
    && s.handler.Entered?
    && s' == s.(handler := Noted,
                bits := if s.handler.sig.Chld? then s.bits.(child := true) else s.bits.(interrupt := true))
  }

  /** event_notify on a nonblocking pipe: a byte goes in, or the pipe is full. */
  predicate HandlerNotifies(s: State, s': State) {
    && s.handler.Noted?
    && s' == s.(handler := Idle, pipe := if s.pipe < PIPE_CAPACITY then s.pipe + 1 else s.pipe)
  }

  /** select returns; event_fd is reported exactly when its pipe is not empty. */
  predicate Selects(s: State, s': State) {
    && s.pc.Select?
    && (if s.pipe > 0 then s' == s.(pc := Drain(true)) || s' == s.(pc := Drain(false)) else s' == s.(pc := Read))
  }

  /** One read of event_drain: up to 64 bytes, or EAGAIN when the pipe is empty. */
  predicate Drains(s: State, s': State, n: nat) {
    && s.pc.Drain?
    && if s.pipe == 0 then s' == s.(pc := Block(s.pc.input))
       else 0 < n <= DRAIN_BUFFER && n <= s.pipe && s' == s.(pipe := s.pipe - n)
  }

  predicate Takes(s: State, s': State) {
    match s.pc
    case Block(input) => s' == s.(blocked := true, pc := Take(input))
    case Take(input) => s' == s.(bits := NO_BITS, pc := Unblock(s.bits, input))
    case Unblock(events, input) => s' == s.(blocked := false, pc := Handle(events, input))
    case _ => false
  }

  /** The end of the event branch: on an interrupt shell_reset_input, then input if there is any. */
  function Ends(s: State, todo: Todo): State {
    s.(pc := if todo.input then Read else Select, resets := s.resets + if todo.interrupt then 1 else 0)
  }

  predicate Handles(s: State, s': State) {
    && s.pc.Handle?
    && s' == if s.pc.events.child then s.(pc := Reaping(0, 0, Todo(s.pc.events.interrupt, s.pc.input)))
             else Ends(s, Todo(s.pc.events.interrupt, s.pc.input))
  }

  /** One step of job_reap. */
  ghost predicate Reaps(s: State, s': State) {
    && s.pc.Reaping?
    && var i, j := s.pc.i, s.pc.j;
    if i >= |s.jobs| then s' == s.(pc := Clean(s.pc.todo))
    else if j >= |s.jobs[i].procs| then
      s' == s.(jobs := s.jobs[i := if s.jobs[i].procs == [] then s.jobs[i] else Aggregated(s.jobs[i])],
               pc := Reaping(i + 1, 0, s.pc.todo))
    else if s.jobs[i].procs[j].status.ProcessDone? then s' == s.(pc := Reaping(i, j + 1, s.pc.todo))
    else
      var pid := s.jobs[i].procs[j].pid;
      var r := WaitNowResult(s.w, pid, true);
      s' == s.(w := if r.Got? then Collect(s.w, pid) else s.w,
               jobs := SetProcessAt(s.jobs, i, j, ReapResult(s.jobs[i].procs[j], r)),
               pc := Reaping(i, j + 1, s.pc.todo))
  }

  predicate Cleans(s: State, s': State) {
    s.pc.Clean? && s' == Ends(s, s.pc.todo).(jobs := NotDone(s.jobs))
  }

  /** A byte of input: either the line is not complete or a command is dispatched. */
  predicate Reads(s: State, s': State) {
    s.pc.Read? && (s' == s.(pc := Select) || s' == s.(pc := Dispatch))
  }

  /** Any system call made while a command runs: it may fork, kill and collect.  A child it makes
      reportable (SIGCONT) raises SIGCHLD like any other change. */
  ghost predicate Works(s: State, s': State) {
    && s.pc.Dispatch?
    && s' == s.(w := s'.w, jobs := s'.jobs, nextId := s'.nextId, chldPending := s'.chldPending)
    && WorldOk(s'.w)
    && (s.chldPending ==> s'.chldPending)
    && (s'.chldPending || forall p :: p in s'.w.children && Uncollected(s'.w.children[p]) ==>
          p in s.w.children && Uncollected(s.w.children[p]))
  }

  /** A command or builtin returns to a loop that goes on running: what it leaves behind is what
      Execute, Fg and Bg promise. */
  ghost predicate Returns(s: State, s': State) {
    s.pc.Dispatch? && AtPrompt(s.w, s.jobs, s.nextId) && s' == s.(pc := Select)
  }

  ghost predicate MainStep(s: State, s': State) {
    && s.handler.Idle?
    && (|| Selects(s, s') || (exists n: nat :: Drains(s, s', n)) || Takes(s, s') || Handles(s, s')
        || Reaps(s, s') || Cleans(s, s') || Reads(s, s') || Works(s, s') || Returns(s, s'))
  }

  ghost predicate Next(s: State, s': State) {
    || (exists p, a :: ChildStep(s, s', p, a))
    || Interrupted(s, s') || Deliver(s, s') || HandlerMarks(s, s') || HandlerNotifies(s, s')
    || MainStep(s, s')
  }

  ghost predicate Init(s: State) {
    && WorldOk(s.w) && AtPrompt(s.w, s.jobs, s.nextId)
    && s.handler.Idle? && !s.blocked && s.bits == NO_BITS && s.pipe == 0 && s.pc.Select?
    && (forall p :: p in s.w.children ==> !Uncollected(s.w.children[p]))
  }

  /** What commands and builtins promise is what Returns asks for. */
  twostate lemma CommandReturns(sh: Launch.Shell, s: State)
    requires Execute.Clean(sh) && sh.running && s.pc.Dispatch?
    requires s.w == sh.m.w && s.jobs == sh.mgr.jobs && s.nextId == sh.mgr.nextId
    ensures Returns(s, s.(pc := Select))
  {
  }

  // ---------------------------------------------------------------- the invariant

  /** The shell will still look: SIGCHLD is pending or being handled, or the CHILD bit is set and
      either a byte is (about to be) in the pipe or the loop is on its way to read the bit. */
  predicate Announced(s: State) {
    || s.chldPending
    || s.handler == Entered(Chld)
    || (s.bits.child && (s.pipe > 0 || s.handler.Noted? || s.pc.Drain? || s.pc.Block? || s.pc.Take?))
    || (s.pc.Unblock? && s.pc.events.child)
    || (s.pc.Handle? && s.pc.events.child)
  }

  /** The reap pass has yet to reach the process with this pid. */
  ghost predicate ToVisit(s: State, p: Pid) {
    s.pc.Reaping? && exists i, j :: Position(s.jobs, i, j, p) && Ahead(s.pc.i, s.pc.j, i, j)
  }

  predicate Position(jobs: seq<Job>, i: int, j: int, p: Pid) {
    0 <= i < |jobs| && 0 <= j < |jobs[i].procs| && !jobs[i].procs[j].status.ProcessDone? && jobs[i].procs[j].pid == p
  }

  predicate Ahead(i: int, j: int, i': int, j': int) { i' > i || (i' == i && j' >= j) }

  ghost predicate NothingLost(s: State) {
    forall p :: p in s.w.children && Uncollected(s.w.children[p]) ==> Announced(s) || ToVisit(s, p)
  }

  /** During a reap pass only the job being visited may have a stale status. */
  ghost predicate Fresh(s: State) {
    forall k :: 0 <= k < |s.jobs| && !(s.pc.Reaping? && s.pc.i == k) ==> JobOk(s.jobs[k])
  }

  ghost predicate TableInOrder(s: State) {
    match s.pc
    case Dispatch => true
    case Reaping(i, j, _) =>
      && Synced(s.w, s.jobs, multiset{}) && IdsOk(s.jobs, s.nextId) && Fresh(s)
      && i <= |s.jobs| && (i < |s.jobs| ==> j <= |s.jobs[i].procs|)
    case Clean(_) => Synced(s.w, s.jobs, multiset{}) && TableOk(s.jobs, s.nextId)
    case _ => AtPrompt(s.w, s.jobs, s.nextId)
  }

  ghost predicate Inv(s: State) {
    && WorldOk(s.w)
    && (s.blocked <==> s.pc.Take? || s.pc.Unblock?)
    && (s.blocked ==> s.handler.Idle?)
    && TableInOrder(s)
    && NothingLost(s)
  }

  // ---------------------------------------------------------------- steps of the environment

  lemma ChildStepKeeps(s: State, s': State, p: Pid, a: Act)
    requires Inv(s) && ChildStep(s, s', p, a)
    ensures Inv(s')
  {
    StepRelies(s.w, p, a);
    ChildStepTable(s, s');
    forall q | q in s'.w.children && Uncollected(s'.w.children[q])
      ensures Announced(s') || ToVisit(s', q)
    {
      if !Raises(a) {
        assert Uncollected(s.w.children[q]);
        if ToVisit(s, q) {
          var i, j :| Position(s.jobs, i, j, q) && Ahead(s.pc.i, s.pc.j, i, j);
          assert Position(s'.jobs, i, j, q);
        }
      }
    }
  }

  lemma ChildStepTable(s: State, s': State)
    requires TableInOrder(s) && Rely(s.w, s'.w) && s'.jobs == s.jobs && s'.nextId == s.nextId && s'.pc == s.pc
    ensures TableInOrder(s')
  {
    hide Synced, Drifts;
    if !s.pc.Dispatch? {
      SyncedStable(s.w, s'.w, s.jobs, multiset{});
    }
  }

  lemma SignalKeeps(s: State, s': State)
    requires Inv(s) && (Interrupted(s, s') || Deliver(s, s') || HandlerMarks(s, s') || HandlerNotifies(s, s'))
    ensures Inv(s')
  {
    hide WorldOk, TableInOrder;
    SameTable(s, s');
    forall q | q in s'.w.children && Uncollected(s'.w.children[q])
      ensures Announced(s') || ToVisit(s', q)
    {
      if ToVisit(s, q) {
        var i, j :| Position(s.jobs, i, j, q) && Ahead(s.pc.i, s.pc.j, i, j);
        assert Position(s'.jobs, i, j, q);
      }
    }
  }

  lemma SameTable(s: State, s': State)
    requires TableInOrder(s) && s'.w == s.w && s'.jobs == s.jobs && s'.nextId == s.nextId && s'.pc == s.pc
    ensures TableInOrder(s')
  {
  }

  // ---------------------------------------------------------------- steps of the loop

  /** Steps that leave children and jobs alone and do not start a reap pass. */
  lemma PlainKeeps(s: State, s': State)
    requires Inv(s) && s.handler.Idle?
    requires Selects(s, s') || (exists n: nat :: Drains(s, s', n)) || Takes(s, s') || Reads(s, s') || Returns(s, s')
    ensures Inv(s')
  {
    hide WorldOk, AtPrompt;
    forall q | q in s'.w.children && Uncollected(s'.w.children[q])
      ensures Announced(s')
    {
      assert q in s.w.children && Uncollected(s.w.children[q]);
    }
  }

  lemma HandlesKeeps(s: State, s': State)
    requires Inv(s) && s.handler.Idle? && Handles(s, s')
    ensures Inv(s')
  {
    assert s'.pc.Reaping? ==> Fresh(s');
    forall q | q in s'.w.children && Uncollected(s'.w.children[q])
      ensures Announced(s') || ToVisit(s', q)
    {
      if s'.pc.Reaping? {
        var i, j := OwnerOf(s.w, s.jobs, q);
        assert Position(s'.jobs, i, j, q) && Ahead(0, 0, i, j);
      } else {
        assert Announced(s);
      }
    }
  }

  lemma CleansKeeps(s: State, s': State)
    requires Inv(s) && s.handler.Idle? && Cleans(s, s')
    ensures Inv(s')
  {
    CleanupAtPrompt(s.w, s.jobs, s.nextId);
  }

  lemma WorksKeeps(s: State, s': State)
    requires Inv(s) && s.handler.Idle? && Works(s, s')
    ensures Inv(s')
  {
  }

  /** The pass moves past a position that has nothing to collect for anybody. */
  lemma VisitKeeps(s: State, s': State)
    requires s.pc.Reaping? && s'.pc.Reaping? && NothingLost(s)
    requires s'.chldPending == s.chldPending && s'.handler == s.handler && s'.bits == s.bits && s'.pipe == s.pipe
    requires forall q, i, j ::
      (q in s'.w.children && Uncollected(s'.w.children[q]) && Position(s.jobs, i, j, q)
       && Ahead(s.pc.i, s.pc.j, i, j)) ==>
        Position(s'.jobs, i, j, q) && Ahead(s'.pc.i, s'.pc.j, i, j)
    requires forall q :: q in s'.w.children && Uncollected(s'.w.children[q]) ==>
      q in s.w.children && Uncollected(s.w.children[q])
    ensures NothingLost(s')
  {
  }

  lemma ReapsKeeps(s: State, s': State)
    requires Inv(s) && s.handler.Idle? && Reaps(s, s')
    ensures Inv(s')
  {
    var i, j := s.pc.i, s.pc.j;
    if i >= |s.jobs| {
      ReapsDone(s, s');
    } else if j >= |s.jobs[i].procs| {
      ReapsNextJob(s, s');
    } else if s.jobs[i].procs[j].status.ProcessDone? {
      ReapsSkip(s, s');
    } else {
      ReapsVisit(s, s');
    }
  }

  lemma ReapsDone(s: State, s': State)
    requires Inv(s) && s.handler.Idle? && Reaps(s, s') && s.pc.i >= |s.jobs|
    ensures Inv(s')
  {
    assert TableOk(s'.jobs, s'.nextId);
    forall q | q in s'.w.children && Uncollected(s'.w.children[q])
      ensures Announced(s')
    {
      assert !ToVisit(s, q);
    }
  }

  lemma ReapsNextJob(s: State, s': State)
    requires Inv(s) && s.handler.Idle? && Reaps(s, s') && s.pc.i < |s.jobs| && s.pc.j >= |s.jobs[s.pc.i].procs|
    ensures Inv(s')
  {
    var i := s.pc.i;
    RestatusSynced(s.w, s.jobs, multiset{}, i, Aggregate(s.jobs[i].procs));
    assert JobShape(s.jobs[i]);
    assert s'.jobs == s.jobs[i := Aggregated(s.jobs[i])];
    FreshNext(s, s');
    VisitKeeps(s, s');
  }

  lemma FreshNext(s: State, s': State)
    requires s.pc.Reaping? && s.pc.i < |s.jobs| && Fresh(s) && IdsOk(s.jobs, s.nextId) && JobShape(s.jobs[s.pc.i])
    requires s' == s.(jobs := s.jobs[s.pc.i := Aggregated(s.jobs[s.pc.i])], pc := Reaping(s.pc.i + 1, 0, s.pc.todo))
    ensures Fresh(s') && IdsOk(s'.jobs, s'.nextId)
  {
    assert JobOk(Aggregated(s.jobs[s.pc.i]));
  }

  lemma ReapsSkip(s: State, s': State)
    requires Inv(s) && s.handler.Idle? && Reaps(s, s') && s.pc.i < |s.jobs| && s.pc.j < |s.jobs[s.pc.i].procs|
    requires s.jobs[s.pc.i].procs[s.pc.j].status.ProcessDone?
    ensures Inv(s')
  {
    hide Synced, IdsOk, JobOk, WorldOk;
    assert Fresh(s');
    VisitKeeps(s, s');
  }

  lemma ReapsVisit(s: State, s': State)
    requires Inv(s) && s.handler.Idle? && Reaps(s, s') && s.pc.i < |s.jobs| && s.pc.j < |s.jobs[s.pc.i].procs|
    requires !s.jobs[s.pc.i].procs[s.pc.j].status.ProcessDone?
    ensures Inv(s')
  {
    var i, j := s.pc.i, s.pc.j;
    var p := s.jobs[i].procs[j];
    SyncedChild(s.w, s.jobs, i, j);
    var r := WaitNowResult(s.w, p.pid, true);
    if r.Got? {
      CollectSynced(s.w, s.jobs, multiset{}, i, j);
      CollectKeepsWorldOk(s.w, p.pid);
    } else {
      assert s'.jobs[i].procs == s.jobs[i].procs;
      assert s'.jobs == s.jobs;
    }
    VisitTable(s, s', p.pid);
    VisitReports(s, s', i, j, r);
    VisitKeeps(s, s');
  }

  lemma VisitTable(s: State, s': State, pid: Pid)
    requires s.pc.Reaping? && s.pc.i < |s.jobs| && s.pc.j < |s.jobs[s.pc.i].procs|
    requires Fresh(s) && IdsOk(s.jobs, s.nextId) && s'.nextId == s.nextId
    requires |s'.jobs| == |s.jobs| && s'.pc == Reaping(s.pc.i, s.pc.j + 1, s.pc.todo)
    requires s'.jobs == s.jobs[s.pc.i := s'.jobs[s.pc.i]]
    requires s'.jobs[s.pc.i] == s.jobs[s.pc.i].(procs := s'.jobs[s.pc.i].procs)
    ensures Fresh(s') && IdsOk(s'.jobs, s'.nextId)
  {
  }

  /** After the visit the visited child has nothing left to collect; for the others nothing moved. */
  lemma VisitReports(s: State, s': State, i: nat, j: nat, r: WaitResult)
    requires i < |s.jobs| && j < |s.jobs[i].procs| && !s.jobs[i].procs[j].status.ProcessDone?
    requires s.pc.Reaping? && s.pc.i == i && s.pc.j == j && s'.pc == Reaping(i, j + 1, s.pc.todo)
    requires Conserved(s.w, s.jobs, multiset{}) && s.jobs[i].procs[j].pid in s.w.children
    requires r == WaitNowResult(s.w, s.jobs[i].procs[j].pid, true)
    requires s'.w == if r.Got? then Collect(s.w, s.jobs[i].procs[j].pid) else s.w
    requires s'.jobs == SetProcessAt(s.jobs, i, j, ReapResult(s.jobs[i].procs[j], r))
    ensures forall q :: q in s'.w.children && Uncollected(s'.w.children[q]) ==>
      q in s.w.children && Uncollected(s.w.children[q])
    ensures forall q, i', j' ::
      (q in s'.w.children && Uncollected(s'.w.children[q]) && Position(s.jobs, i', j', q) && Ahead(i, j, i', j')) ==>
        Position(s'.jobs, i', j', q) && Ahead(i, j + 1, i', j')
  {
    var p := s.jobs[i].procs[j].pid;
    assert p !in s'.w.children || !Uncollected(s'.w.children[p]);
    forall q, i', j' | q in s'.w.children && Uncollected(s'.w.children[q]) && Position(s.jobs, i', j', q)
                       && Ahead(i, j, i', j')
      ensures Position(s'.jobs, i', j', q) && Ahead(i, j + 1, i', j')
    {
      assert q != p;
      assert i' != i || j' != j;
    }
  }

  // ---------------------------------------------------------------- whole runs

  lemma NextKeeps(s: State, s': State)
    requires Inv(s) && Next(s, s')
    ensures Inv(s')
  {
    hide Inv, ChildStep, Interrupted, Deliver, HandlerMarks, HandlerNotifies, Selects, Drains, Takes, Handles, Reaps,
         Cleans, Reads, Works, Returns;
    if exists p, a :: ChildStep(s, s', p, a) {
      var p, a :| ChildStep(s, s', p, a);
      ChildStepKeeps(s, s', p, a);
    } else if Interrupted(s, s') || Deliver(s, s') || HandlerMarks(s, s') || HandlerNotifies(s, s') {
      SignalKeeps(s, s');
    } else if Selects(s, s') || (exists n: nat :: Drains(s, s', n)) || Takes(s, s') || Reads(s, s') || Returns(s, s') {
      PlainKeeps(s, s');
    } else if Handles(s, s') {
      HandlesKeeps(s, s');
    } else if Reaps(s, s') {
      ReapsKeeps(s, s');
    } else if Cleans(s, s') {
      CleansKeeps(s, s');
    } else {
      WorksKeeps(s, s');
    }
  }

  ghost predicate IsRun(run: seq<State>) {
    && run != [] && Init(run[0])
    && forall i :: 0 <= i < |run| - 1 ==> Next(run[i], run[i + 1])
  }

  /** In every interleaving, at every moment, an uncollected change of a child is announced or the
      reap pass under way has yet to reach that child. */
  lemma {:induction false} NothingIsEverLost(run: seq<State>, i: nat)
    requires IsRun(run) && i < |run|
    ensures Inv(run[i])
  {
    if i > 0 {
      NothingIsEverLost(run, i - 1);
      assert Next(run[i - 1], run[i - 1 + 1]);
      NextKeeps(run[i - 1], run[i]);
    }
  }

  /** The table says of every child exactly what the kernel says, and every child is in it once. */
  ghost predicate Exact(w: World, jobs: seq<Job>) {
    && multiset(w.children.Keys) == LiveJobs(jobs)
    && (forall i :: 0 <= i < |jobs| ==> ExactJob(w, jobs[i]))
  }

  ghost predicate ExactJob(w: World, job: Job) {
    && job.status == Aggregate(job.procs)
    && forall j :: 0 <= j < |job.procs| && !job.procs[j].status.ProcessDone? ==>
         && job.procs[j].pid in w.children
         && Alive(w.children[job.procs[j].pid])
         && (job.procs[j].status.ProcessStopped? <==> w.children[job.procs[j].pid].stopped)
  }

  /** When the loop blocks in select, with nothing pending and an empty event pipe, every state
      change of every child has been collected and the job table is exact. */
  lemma QuietMeansExact(run: seq<State>, i: nat)
    requires IsRun(run) && i < |run|
    requires var s := run[i]; s.pc.Select? && s.handler.Idle? && !s.chldPending && s.pipe == 0
    ensures Exact(run[i].w, run[i].jobs)
    ensures forall p :: p in run[i].w.children ==> !Uncollected(run[i].w.children[p])
  {
    var s := run[i];
    NothingIsEverLost(run, i);
    assert forall p :: p in s.w.children ==> !Uncollected(s.w.children[p]) by {
      assert !Announced(s);
    }
    forall k | 0 <= k < |s.jobs| ensures ExactJob(s.w, s.jobs[k]) {
      assert JobOk(s.jobs[k]) && OwnsJob(s.w, s.jobs[k]) && AgreesJob(s.w, s.jobs[k]);
      forall j | 0 <= j < |s.jobs[k].procs| && !s.jobs[k].procs[j].status.ProcessDone?
        ensures s.jobs[k].procs[j].pid in s.w.children && Alive(s.w.children[s.jobs[k].procs[j].pid])
        ensures s.jobs[k].procs[j].status.ProcessStopped? <==> s.w.children[s.jobs[k].procs[j].pid].stopped
      {
        assert Owns(s.w, s.jobs[k].pgid, s.jobs[k].procs[j]) && Agrees(s.w, s.jobs[k].procs[j]);
      }
    }
  }

  // ---------------------------------------------------------------- interrupts

  /** A SIGINT the shell has not acted on yet: it is pending or being handled, or the INTERRUPT bit
      is set and the loop will be woken to read it, or the loop has read it and is on its way. */
  predicate Interrupting(s: State) {
    || s.intPending
    || s.handler == Entered(Int)
    || (s.bits.interrupt && (s.pipe > 0 || s.handler.Noted? || s.pc.Drain? || s.pc.Block? || s.pc.Take?))
    || (s.pc.Unblock? && s.pc.events.interrupt)
    || (s.pc.Handle? && s.pc.events.interrupt)
    || (s.pc.Reaping? && s.pc.todo.interrupt)
    || (s.pc.Clean? && s.pc.todo.interrupt)
  }

  /** Each step keeps an interrupt on its way until the partial line is discarded for it. */
  lemma InterruptStep(s: State, s': State)
    requires Inv(s) && Next(s, s') && Interrupting(s)
    ensures s'.resets >= s.resets && (Interrupting(s') || s'.resets > s.resets)
  {
    hide WorldOk, TableInOrder, NothingLost, AtPrompt, MainStep, Interrupting, ChildStep;
    if MainStep(s, s') {
      InterruptMainStep(s, s');
    } else {
      InterruptSignalStep(s, s');
    }
  }

  lemma InterruptMainStep(s: State, s': State)
    requires Inv(s) && MainStep(s, s') && Interrupting(s)
    ensures s'.resets >= s.resets && (Interrupting(s') || s'.resets > s.resets)
  {
    hide WorldOk, TableInOrder, NothingLost, AtPrompt;
  }

  lemma InterruptSignalStep(s: State, s': State)
    requires Inv(s) && Next(s, s') && !MainStep(s, s') && Interrupting(s)
    ensures s'.resets == s.resets && Interrupting(s')
  {
    hide WorldOk, TableInOrder, NothingLost, MainStep;
  }

  lemma ResetsGrow(s: State, s': State)
    requires Next(s, s')
    ensures s'.resets >= s.resets
  {
    hide WorldOk, AtPrompt;
  }

  /** In every run a SIGINT that has arrived is on its way until the partial line is discarded. */
  lemma {:induction false} InterruptNeverLost(run: seq<State>, i: nat, j: nat)
    requires IsRun(run) && i <= j < |run| && Interrupting(run[i])
    ensures run[j].resets >= run[i].resets && (Interrupting(run[j]) || run[j].resets > run[i].resets)
  {
    hide Inv, Next, Interrupting, Init;
    if i < j {
      InterruptNeverLost(run, i, j - 1);
      assert Next(run[j - 1], run[j - 1 + 1]);
      NothingIsEverLost(run, j - 1);
      ResetsGrow(run[j - 1], run[j]);
      if Interrupting(run[j - 1]) { InterruptStep(run[j - 1], run[j]); }
    }
  }

  /** So when the loop blocks with nothing pending and an empty event pipe, every interrupt that
      arrived before has been acted on. */
  lemma QuietMeansReset(run: seq<State>, i: nat, j: nat)
    requires IsRun(run) && i <= j < |run| && Interrupting(run[i])
    requires run[j].pc.Select? && run[j].handler.Idle? && !run[j].intPending && run[j].pipe == 0
    ensures run[j].resets > run[i].resets
  {
    InterruptNeverLost(run, i, j);
  }
}
