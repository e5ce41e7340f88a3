/**
 src/job.c: the job manager.  The linked lists of jobs and of processes are sequences, newest job
 first and processes in command order; a pointer to a job is its position.
 */
module JobTables {
  import opened Kernel
  import opened Machines
  import opened Jobs

  const COMMAND_SIZE := 128

  function Truncated(command: string): (r: string)
    ensures r <= command && |r| == if |command| <= 127 then |command| else 127
  {
    if |command| < COMMAND_SIZE then command else command[..COMMAND_SIZE - 1]
  }

  function MarkRunning(p: Process): Process {
    if p.status.ProcessStopped? then p.(status := ProcessRunning) else p
  }

  function MarkAll(ps: seq<Process>): seq<Process> {
    seq(|ps|, i requires 0 <= i < |ps| => MarkRunning(ps[i]))
  }

  /** Same job, same stages; processes already done are exactly as they were. */
  ghost predicate SameJob(a: Job, b: Job) {
    && b.id == a.id && b.pgid == a.pgid && b.command == a.command && b.modes == a.modes
    && |b.procs| == |a.procs|
    && (forall j :: 0 <= j < |a.procs| ==> b.procs[j].pid == a.procs[j].pid)
    && (forall j :: 0 <= j < |a.procs| && a.procs[j].status.ProcessDone? ==> b.procs[j] == a.procs[j])
  }

  ghost predicate SameJobs(a: seq<Job>, b: seq<Job>) {
    |b| == |a| && forall i :: 0 <= i < |a| ==> SameJob(a[i], b[i])
  }

  lemma SameJobsTransitive(a: seq<Job>, b: seq<Job>, c: seq<Job>)
    requires SameJobs(a, b) && SameJobs(b, c)
    ensures SameJobs(a, c)
  {
  }

  /** job_exit_status */
  function ExitStatus(job: Job): int {
    if job.procs == [] || job.procs[|job.procs| - 1].wait.None? then -1
    else match job.procs[|job.procs| - 1].wait.value
         case Exited(code) => code
         case Signaled(sig) => 128 + sig
         case StoppedBy(_) => -1
         case Resumed => -1
  }

  lemma FinishedExitStatus(job: Job)
    requires JobOk(job) && job.status.JobDone?
    ensures var last := job.procs[|job.procs| - 1];
      && last.wait.Some? && IsDeath(last.wait.value)
      && (last.wait.value.Exited? ==> ExitStatus(job) == last.wait.value.code)
      && (last.wait.value.Signaled? ==> ExitStatus(job) == 128 + last.wait.value.sig)
    ensures 0 <= ExitStatus(job) <= 255
  {
  }

  // ---------------------------------------------------------------- continuing a job

  lemma {:induction false} MarkAllLive(ps: seq<Process>)
    ensures Live(MarkAll(ps)) == Live(ps)
  {
    if ps != [] {
      assert MarkAll(ps)[1..] == MarkAll(ps[1..]);
      MarkAllLive(ps[1..]);
    }
  }

  lemma MarkAllConserves(w: World, w': World, jobs: seq<Job>, held: multiset<Pid>, i: nat, status: JobStatus)
    requires i < |jobs| && Conserved(w, jobs, held) && w'.children.Keys == w.children.Keys
    ensures Conserved(w', jobs[i := jobs[i].(procs := MarkAll(jobs[i].procs), status := status)], held)
  {
    var job := jobs[i].(procs := MarkAll(jobs[i].procs), status := status);
    LiveJobsUpdate(jobs, i, job);
    MarkAllLive(jobs[i].procs);
    CancelSum(LiveJobs(jobs[i := job]), LiveJobs(jobs), Live(jobs[i].procs));
  }

  lemma KillOwns(w: World, pgid: Pid, sig: int, job: Job)
    requires OwnsJob(w, job)
    ensures OwnsJob(KillEffect(w, pgid, sig), job)
  {
  }

  lemma KillOwned(w: World, pgid: Pid, sig: int, jobs: seq<Job>, held: multiset<Pid>)
    requires Owned(w, jobs, held)
    ensures Owned(KillEffect(w, pgid, sig), jobs, held)
  {
  }

  /** SIGCONT wakes a process and leaves a report to collect, so it never makes the table wrong. */
  lemma ContinueAgrees(w: World, pgid: Pid, job: Job)
    requires AgreesJob(w, job)
    ensures AgreesJob(KillEffect(w, pgid, SIGCONT), job)
  {
  }

  lemma MarkedAgrees(w: World, job: Job, status: JobStatus)
    requires OwnsJob(w, job) && AgreesJob(w, job)
    ensures AgreesJob(KillEffect(w, job.pgid, SIGCONT), job.(procs := MarkAll(job.procs), status := status))
    ensures OwnsJob(KillEffect(w, job.pgid, SIGCONT), job.(procs := MarkAll(job.procs), status := status))
  {
  }

  lemma ContinueSynced(w: World, jobs: seq<Job>, held: multiset<Pid>, i: nat, status: JobStatus)
    requires i < |jobs| && Synced(w, jobs, held)
    ensures Synced(KillEffect(w, jobs[i].pgid, SIGCONT),
                   jobs[i := jobs[i].(procs := MarkAll(jobs[i].procs), status := status)], held)
  {
    var w' := KillEffect(w, jobs[i].pgid, SIGCONT);
    var jobs' := jobs[i := jobs[i].(procs := MarkAll(jobs[i].procs), status := status)];
    assert w'.children.Keys == w.children.Keys;
    MarkAllConserves(w, w', jobs, held, i, status);
    forall k | 0 <= k < |jobs'|
      ensures JobShape(jobs'[k]) && OwnsJob(w', jobs'[k]) && AgreesJob(w', jobs'[k])
    {
      if k == i {
        MarkedAgrees(w, jobs[i], status);
      } else {
        KillOwns(w, jobs[i].pgid, SIGCONT, jobs[k]);
        ContinueAgrees(w, jobs[i].pgid, jobs[k]);
      }
    }
  }

  // ---------------------------------------------------------------- who a reported pid belongs to

  lemma {:induction false} LivePosition(ps: seq<Process>, p: Pid) returns (j: nat)
    requires p in Live(ps)
    ensures j < |ps| && !ps[j].status.ProcessDone? && ps[j].pid == p
  {
    if p in LiveOne(ps[0]) {
      j := 0;
    } else {
      j := LivePosition(ps[1..], p);
      j := j + 1;
    }
  }

  lemma {:induction false} LiveJobsPosition(jobs: seq<Job>, p: Pid) returns (i: nat, j: nat)
    requires p in LiveJobs(jobs)
    ensures i < |jobs| && j < |jobs[i].procs| && !jobs[i].procs[j].status.ProcessDone? && jobs[i].procs[j].pid == p
  {
    if p in Live(jobs[0].procs) {
      i := 0;
      j := LivePosition(jobs[0].procs, p);
    } else {
      i, j := LiveJobsPosition(jobs[1..], p);
      i := i + 1;
    }
  }

  lemma OwnerOf(w: World, jobs: seq<Job>, p: Pid) returns (i: nat, j: nat)
    requires Conserved(w, jobs, multiset{}) && p in w.children
    ensures i < |jobs| && j < |jobs[i].procs| && !jobs[i].procs[j].status.ProcessDone? && jobs[i].procs[j].pid == p
  {
    assert p in multiset(w.children.Keys);
    assert p in LiveJobs(jobs) + multiset{};
    i, j := LiveJobsPosition(jobs, p);
  }

  /** A child that waitpid(-pgid) reports is a live process of the job with that group. */
  lemma ReportedBelongs(w: World, jobs: seq<Job>, nextId: int, shell: Pid, i: nat, p: Pid) returns (j: nat)
    requires Synced(w, jobs, multiset{}) && TableOk(jobs, nextId) && Homes(w, shell)
    requires i < |jobs| && jobs[i].status.JobRunning? && p in w.children && w.children[p].pgid == jobs[i].pgid
    ensures j < |jobs[i].procs| && !jobs[i].procs[j].status.ProcessDone? && jobs[i].procs[j].pid == p > 0
  {
    assert OwnsJob(w, jobs[i]);
    var _ := ActiveGroup(w, jobs[i], shell);
    var i';
    i', j := OwnerOf(w, jobs, p);
    assert OwnsJob(w, jobs[i']);
    assert Owns(w, jobs[i'].pgid, jobs[i'].procs[j]);
    assert w.children[p].target == jobs[i'].pgid;
    assert i' == i;
    assert JobShape(jobs[i]);
    assert ProcessOk(jobs[i].procs[j]);
  }

  /** A job that is not done has a process that is not done, hence a child, hence a group that is
      not the shell's. */
  lemma ActiveGroup(w: World, job: Job, shell: Pid) returns (j: nat)
    requires JobOk(job) && !job.status.JobDone? && OwnsJob(w, job) && Homes(w, shell)
    ensures j < |job.procs| && !job.procs[j].status.ProcessDone? && job.procs[j].pid in w.children
    ensures job.pgid != shell
  {
    if job.status.JobRunning? {
      j :| 0 <= j < |job.procs| && job.procs[j].status.ProcessRunning?;
    } else {
      j :| 0 <= j < |job.procs| && job.procs[j].status.ProcessStopped?;
    }
    assert Owns(w, job.pgid, job.procs[j]);
  }

  // ---------------------------------------------------------------- removing finished jobs

  function NotDone(jobs: seq<Job>): seq<Job> {
    if jobs == [] then []
    else if jobs[0].status.JobDone? then NotDone(jobs[1..])
    else [jobs[0]] + NotDone(jobs[1..])
  }

  lemma {:induction false} DoneHasNoLive(ps: seq<Process>)
    requires forall j :: 0 <= j < |ps| ==> ps[j].status.ProcessDone?
    ensures Live(ps) == multiset{}
  {
    if ps != [] {
      DoneHasNoLive(ps[1..]);
    }
  }

  lemma {:induction false} NotDoneLive(jobs: seq<Job>)
    requires forall i :: 0 <= i < |jobs| ==> JobOk(jobs[i])
    ensures LiveJobs(NotDone(jobs)) == LiveJobs(jobs)
  {
    if jobs != [] {
      NotDoneLive(jobs[1..]);
      if jobs[0].status.JobDone? {
        var ps := jobs[0].procs;
        assert JobOk(jobs[0]);
        forall j | 0 <= j < |ps| ensures ps[j].status.ProcessDone? {
          assert !ps[j].status.ProcessRunning? && !ps[j].status.ProcessStopped?;
        }
        DoneHasNoLive(ps);
      } else {
        assert NotDone(jobs)[1..] == NotDone(jobs[1..]);
      }
    }
  }

  /** What is kept is a subsequence: each kept job was at some position no earlier than its own,
      and the order is the old one. */
  lemma {:induction false} NotDoneFrom(jobs: seq<Job>, k: nat) returns (i: nat)
    requires k < |NotDone(jobs)|
    ensures k <= i < |jobs| && NotDone(jobs)[k] == jobs[i] && !jobs[i].status.JobDone?
  {
    if jobs[0].status.JobDone? {
      i := NotDoneFrom(jobs[1..], k);
      i := i + 1;
    } else if k == 0 {
      i := 0;
    } else {
      i := NotDoneFrom(jobs[1..], k - 1);
      i := i + 1;
    }
  }

  lemma {:induction false} NotDoneIds(jobs: seq<Job>, nextId: int)
    requires IdsOk(jobs, nextId)
    ensures IdsOk(NotDone(jobs), nextId)
  {
    if jobs != [] {
      NotDoneIds(jobs[1..], nextId);
      if !jobs[0].status.JobDone? {
        forall k | 0 <= k < |NotDone(jobs[1..])|
          ensures NotDone(jobs[1..])[k].id < jobs[0].id && NotDone(jobs[1..])[k].pgid != jobs[0].pgid
        {
          var i := NotDoneFrom(jobs[1..], k);
        }
        assert NotDone(jobs) == [jobs[0]] + NotDone(jobs[1..]);
      }
    }
  }

  /** Dropping the finished jobs from an up-to-date table brings the shell back to its prompt. */
  lemma CleanupAtPrompt(w: World, jobs: seq<Job>, nextId: int)
    requires Synced(w, jobs, multiset{}) && TableOk(jobs, nextId)
    ensures AtPrompt(w, NotDone(jobs), nextId)
  {
    NotDoneLive(jobs);
    NotDoneIds(jobs, nextId);
    forall k | 0 <= k < |NotDone(jobs)|
      ensures JobOk(NotDone(jobs)[k]) && OwnsJob(w, NotDone(jobs)[k]) && AgreesJob(w, NotDone(jobs)[k])
      ensures !NotDone(jobs)[k].status.JobDone?
    {
      var i := NotDoneFrom(jobs, k);
      assert JobOk(jobs[i]);
    }
  }

  // ---------------------------------------------------------------- the manager

  ghost predicate FirstWith(jobs: seq<Job>, pgid: Pid, k: int) {
    0 <= k < |jobs| && jobs[k].pgid == pgid && forall i :: 0 <= i < k ==> jobs[i].pgid != pgid
  }

  /** What job_reap does to a process for one waitpid result. */
  function ReapResult(p: Process, r: WaitResult): Process {
    match r
    case Got(_, s) => ApplyWait(p, s)
    case NoChild => p.(status := ProcessDone)
    case _ => p
  }

  class JobManager {
    var jobs: seq<Job>
    var nextId: int

    constructor ()
      ensures jobs == [] && nextId == 1
    {
      jobs, nextId := [], 1;
    }

    /** job_add: malloc may fail. */
    method Add(m: Machine, pgid: Pid, command: string) returns (ok: bool)
      modifies this, m`faults
      ensures m.faults >= old(m.faults) && (!ok ==> pgid <= 0 || m.faults > old(m.faults))
      ensures ok ==> pgid > 0 && nextId == old(nextId) + 1
      ensures ok ==> jobs == [Job(old(nextId), pgid, JobRunning, Truncated(command), [], None)] + old(jobs)
      ensures !ok ==> jobs == old(jobs) && nextId == old(nextId)
    {
      if pgid <= 0 { return false; }
      ok := m.Malloc();
      if ok {
        jobs := [Job(nextId, pgid, JobRunning, Truncated(command), [], None)] + jobs;
        nextId := nextId + 1;
      }
    }

    /** process_add: at the end of the job's list; malloc may fail. */
    method ProcessAdd(m: Machine, i: nat, pid: Pid) returns (ok: bool)
      requires i < |jobs|
      modifies this`jobs, m`faults
      ensures m.faults >= old(m.faults) && (!ok ==> pid <= 0 || m.faults > old(m.faults))
      ensures ok ==> pid > 0
      ensures ok ==>
        jobs == old(jobs)[i := old(jobs)[i].(procs := old(jobs)[i].procs + [Process(pid, ProcessRunning, None)])]
      ensures !ok ==> jobs == old(jobs)
    {
      if pid <= 0 { return false; }
      ok := m.Malloc();
      if ok {
        jobs := jobs[i := jobs[i].(procs := jobs[i].procs + [Process(pid, ProcessRunning, None)])];
      }
    }

    /** job_find */
    method Find(pgid: Pid) returns (k: int)
      ensures k >= 0 ==> pgid > 0 && FirstWith(jobs, pgid, k)
      ensures k < 0 ==> pgid <= 0 || forall i :: 0 <= i < |jobs| ==> jobs[i].pgid != pgid
    {
      k := -1;
      if pgid <= 0 { return; }
      var i := 0;
      while i < |jobs|
        invariant 0 <= i <= |jobs|
        invariant forall j :: 0 <= j < i ==> jobs[j].pgid != pgid
      {
        if jobs[i].pgid == pgid { return i; }
        i := i + 1;
      }
    }

    /** job_count_active */
    method CountActive() returns (n: nat)
      ensures n == |set k | 0 <= k < |jobs| && Active(jobs[k])|
    {
      n := 0;
      var i := 0;
      while i < |jobs|
        invariant 0 <= i <= |jobs|
        invariant n == |set k | 0 <= k < i && Active(jobs[k])|
      {
        ghost var before := set k | 0 <= k < i && Active(jobs[k]);
        assert (set k | 0 <= k < i + 1 && Active(jobs[k])) == if Active(jobs[i]) then before + {i} else before;
        if jobs[i].status.JobRunning? || jobs[i].status.JobStopped? { n := n + 1; }
        i := i + 1;
      }
    }

    /** job_update_status: one pass with two flags gives the aggregate of the processes. */
    method UpdateStatus(i: nat)
      requires i < |jobs|
      modifies this`jobs
      ensures jobs == old(jobs)[i := old(jobs)[i].(status := if old(jobs)[i].procs == [] then old(jobs)[i].status
                                                             else Aggregate(old(jobs)[i].procs))]
    {
      var ps := jobs[i].procs;
      if ps == [] { return; }
      var hasRunning, hasStopped := false, false;
      var j := 0;
      while j < |ps|
        invariant 0 <= j <= |ps|
        invariant hasRunning <==> exists k :: 0 <= k < j && ps[k].status.ProcessRunning?
        invariant hasStopped <==> exists k :: 0 <= k < j && ps[k].status.ProcessStopped?
      {
        if ps[j].status.ProcessRunning? { hasRunning := true; }
        else if ps[j].status.ProcessStopped? { hasStopped := true; }
        j := j + 1;
      }
      var status := if hasRunning then JobRunning else if hasStopped then JobStopped else JobDone;
      jobs := jobs[i := jobs[i].(status := status)];
    }

    /** The loop of job_continue and continue_stopped_job that marks stopped processes running. */
    method MarkProcesses(i: nat)
      requires i < |jobs|
      modifies this`jobs
      ensures jobs == old(jobs)[i := old(jobs)[i].(procs := MarkAll(old(jobs)[i].procs))]
    {
      ghost var before := jobs[i];
      var j := 0;
      while j < |jobs[i].procs|
        invariant |jobs| == |old(jobs)| && jobs == old(jobs)[i := before.(procs := jobs[i].procs)]
        invariant |jobs[i].procs| == |before.procs| && 0 <= j <= |before.procs|
        invariant forall k :: 0 <= k < j ==> jobs[i].procs[k] == MarkRunning(before.procs[k])
        invariant forall k :: j <= k < |before.procs| ==> jobs[i].procs[k] == before.procs[k]
      {
        if jobs[i].procs[j].status.ProcessStopped? {
          jobs := jobs[i := SetProcess(jobs[i], j, jobs[i].procs[j].(status := ProcessRunning))];
        }
        j := j + 1;
      }
      assert jobs[i].procs == MarkAll(before.procs);
    }

    method MarkContinued(i: nat)
      requires i < |jobs| && jobs[i].procs != []
      modifies this`jobs
      ensures jobs == old(jobs)[i := Continued(old(jobs)[i])]
    {
      ghost var before := jobs;
      MarkProcesses(i);
      UpdateStatus(i);
      assert jobs == before[i := Continued(before[i])];
    }

    /** job_continue */
    method Continue(m: Machine, i: nat) returns (ok: bool)
      requires m.Valid() && i < |jobs| && Synced(m.w, jobs, multiset{}) && TableOk(jobs, nextId)
      modifies this`jobs, m`w, m`log, m`faults
      ensures m.Valid() && Synced(m.w, jobs, multiset{}) && TableOk(jobs, nextId)
      ensures m.faults >= old(m.faults) && (ok <==> old(jobs)[i].status.JobStopped? && m.faults == old(m.faults))
      ensures jobs == if ok then old(jobs)[i := Continued(old(jobs)[i])] else old(jobs)
      ensures ok ==> SameJob(old(jobs)[i], jobs[i]) && jobs[i].status.JobRunning?
      ensures m.log ==
        if old(jobs)[i].status.JobStopped? then old(m.log) + [KillGroup(old(jobs)[i].pgid, SIGCONT)] else old(m.log)
      ensures old(m.w).tty.fg == m.shellPgid ==> m.w.tty == old(m.w).tty
    {
      assert JobOk(jobs[i]);
      hide Synced, TableOk, JobOk, Drifts, SameJob, Continued, WorldOk, Accounted, Homes;
      ok := jobs[i].pgid > 0 && jobs[i].status.JobStopped?;
      if !ok { return; }
      ok := Wake(m, jobs, nextId, i);
      if ok { MarkContinued(i); }
    }

    /** job_wait_foreground */
    method WaitForeground(m: Machine, i: nat) returns (ok: bool)
      requires m.Valid() && i < |jobs| && Synced(m.w, jobs, multiset{}) && TableOk(jobs, nextId)
      modifies this`jobs, m`w, m`reports, m`got, m`faults
      ensures m.Valid() && Synced(m.w, jobs, multiset{}) && TableOk(jobs, nextId)
      ensures |jobs| == |old(jobs)| && SameJob(old(jobs)[i], jobs[i]) && jobs == old(jobs)[i := jobs[i]]
      ensures ok <==> !jobs[i].status.JobRunning?
      ensures old(m.got) <= m.got && jobs[i] == Heard(old(jobs)[i], m.got[|old(m.got)|..])
      ensures m.faults == old(m.faults) + Fault(ok)
    {
      hide Synced, TableOk, Drifts, SameJob, Aggregate, Homes, Collect, ApplyWait, WorldOk, Accounted, Unseizable,
           Heard, Hear, SetProcess, Aggregated;
      ok := false;
      NothingHeard(jobs[i]);
      assert m.got[|old(m.got)|..] == [];
      SameJobReflexive(jobs[i]);
      while jobs[i].status.JobRunning?
        invariant m.Valid() && Synced(m.w, jobs, multiset{}) && TableOk(jobs, nextId)
        invariant |jobs| == |old(jobs)| && SameJob(old(jobs)[i], jobs[i]) && jobs == old(jobs)[i := jobs[i]]
        invariant m.faults == old(m.faults)
        invariant old(m.got) <= m.got && jobs[i] == Heard(old(jobs)[i], m.got[|old(m.got)|..])
        decreases m.reports
      {
        ghost var w0, told := m.w, m.got[|old(m.got)|..];
        var r, mid := m.WaitGroup(jobs[i].pgid);
        SyncedStable(w0, mid, jobs, multiset{});
        if !r.Got? {
          SyncedStable(mid, m.w, jobs, multiset{});
          return;
        }
        HomesStable(w0, mid, m.shellPgid);
        var j := FindProcess(i, r.pid);
        ghost var owner := ReportedBelongs(mid, jobs, nextId, m.shellPgid, i, r.pid);
        if j < 0 {
          assert false;   // a child in the job's group is always one of its processes
        }
        ghost var before := jobs;
        OnlyPosition(before, nextId, i, j, owner);
        RecordReport(i, j, r.status);
        RelyWorldOk(w0, mid);
        ReportApplied(mid, before, nextId, i, j);
        HeardMore(old(jobs)[i], told, before, nextId, i, j, Told(r.pid, r.status));
        assert m.got[|old(m.got)|..] == told + [Told(r.pid, r.status)];
        SyncedStable(Collect(mid, r.pid), m.w, jobs, multiset{});
        SameJobTransitive(old(jobs)[i], before[i], jobs[i]);
      }
      ok := true;
    }

    /** process_apply_wait_status on one process of the job, and job_update_status. */
    method RecordReport(i: nat, j: nat, s: WaitStatus)
      requires i < |jobs| && j < |jobs[i].procs|
      modifies this`jobs
      ensures jobs == old(jobs)[i := Aggregated(SetProcess(old(jobs)[i], j, ApplyWait(old(jobs)[i].procs[j], s)))]
    {
      jobs := jobs[i := SetProcess(jobs[i], j, ApplyWait(jobs[i].procs[j], s))];
      UpdateStatus(i);
    }

    /** process_find */
    method FindProcess(i: nat, pid: Pid) returns (j: int)
      requires i < |jobs|
      ensures j >= 0 ==> j < |jobs[i].procs| && jobs[i].procs[j].pid == pid
      ensures j < 0 ==> forall k :: 0 <= k < |jobs[i].procs| && pid > 0 ==> jobs[i].procs[k].pid != pid
    {
      if pid <= 0 { return -1; }
      j := 0;
      while j < |jobs[i].procs|
        invariant 0 <= j <= |jobs[i].procs| && forall k :: 0 <= k < j ==> jobs[i].procs[k].pid != pid
      {
        if jobs[i].procs[j].pid == pid { return; }
        j := j + 1;
      }
      j := -1;
    }

    /** job_remove: unlinks the first job with the group. */
    method Remove(pgid: Pid)
      modifies this`jobs
      ensures forall k :: pgid > 0 && FirstWith(old(jobs), pgid, k) ==> jobs == old(jobs)[..k] + old(jobs)[k + 1..]
      ensures pgid <= 0 || (forall i :: 0 <= i < |old(jobs)| ==> old(jobs)[i].pgid != pgid) ==> jobs == old(jobs)
    {
      var k := Find(pgid);
      if k >= 0 {
        jobs := jobs[..k] + jobs[k + 1..];
      }
    }

    /** job_cleanup_done */
    method CleanupDone()
      modifies this`jobs
      ensures jobs == NotDone(old(jobs))
    {
      var i := 0;
      while i < |jobs|
        invariant 0 <= i <= |jobs|
        invariant jobs[..i] + NotDone(jobs[i..]) == NotDone(old(jobs))
        decreases |jobs| - i
      {
        assert jobs[i..][1..] == jobs[i + 1..];
        if jobs[i].status.JobDone? {
          var rest := jobs[..i] + jobs[i + 1..];
          assert rest[..i] == jobs[..i] && rest[i..] == jobs[i + 1..];
          jobs := rest;
        } else {
          assert jobs[..i + 1] == jobs[..i] + [jobs[i]];
          i := i + 1;
        }
      }
      assert jobs[..i] == jobs;
    }

    /** job_reap: polls every process that is not done, once each. */
    method Reap(m: Machine)
      requires m.Valid() && Synced(m.w, jobs, multiset{}) && TableOk(jobs, nextId)
      modifies this`jobs, m`w
      ensures m.Valid() && Synced(m.w, jobs, multiset{}) && TableOk(jobs, nextId)
      ensures SameJobs(old(jobs), jobs)
      ensures forall i :: 0 <= i < |old(jobs)| ==> PolledJob(old(m.w), old(jobs)[i], jobs[i])
      ensures old(m.w).tty.fg == m.shellPgid ==> m.w.tty == old(m.w).tty
    {
      hide Synced, TableOk, SameJobs, SameJob, WorldOk, Accounted, Homes, PolledJob, Unpolled;
      SameJobsReflexive(jobs);
      NobodyPolled(m.w, jobs);
      var i := 0;
      while i < |jobs|
        invariant 0 <= i <= |jobs| == |old(jobs)|
        invariant m.Valid() && Synced(m.w, jobs, multiset{}) && TableOk(jobs, nextId) && SameJobs(old(jobs), jobs)
        invariant old(m.w).tty.fg == m.shellPgid ==> m.w.tty == old(m.w).tty
        invariant forall k :: 0 <= k < i ==> PolledJob(old(m.w), old(jobs)[k], jobs[k])
        invariant forall k :: i <= k < |jobs| ==> jobs[k] == old(jobs)[k]
        invariant Unpolled(old(m.w), m.w, jobs, i, 0)
      {
        ghost var before := jobs;
        ReapJob(m, i, old(m.w));
        SameJobsTransitive(old(jobs), before, jobs);
        i := i + 1;
      }
    }

    method ReapJob(m: Machine, i: nat, ghost start: World)
      requires m.Valid() && i < |jobs| && Synced(m.w, jobs, multiset{}) && TableOk(jobs, nextId)
      requires Unpolled(start, m.w, jobs, i, 0)
      modifies this`jobs, m`w
      ensures m.Valid() && Synced(m.w, jobs, multiset{}) && TableOk(jobs, nextId)
      ensures |jobs| == |old(jobs)| && SameJobs(old(jobs), jobs) && jobs == old(jobs)[i := jobs[i]]
      ensures PolledJob(start, old(jobs)[i], jobs[i]) && Unpolled(start, m.w, jobs, i + 1, 0)
      ensures old(m.w).tty.fg == m.shellPgid ==> m.w.tty == old(m.w).tty
    {
      hide Synced, TableOk, SameJobs, SameJob, Aggregate, WorldOk, Accounted, Homes, Seen, Unpolled;
      SameJobReflexive(jobs[i]);
      var j := 0;
      while j < |jobs[i].procs|
        invariant |jobs| == |old(jobs)| && 0 <= j <= |jobs[i].procs| == |old(jobs)[i].procs|
        invariant m.Valid() && Synced(m.w, jobs, multiset{})
        invariant SameJob(old(jobs)[i], jobs[i]) && jobs == old(jobs)[i := jobs[i]]
        invariant forall k :: 0 <= k < j ==> Seen(start, old(jobs)[i].procs[k], jobs[i].procs[k])
        invariant forall k :: j <= k < |jobs[i].procs| ==> jobs[i].procs[k] == old(jobs)[i].procs[k]
        invariant Unpolled(start, m.w, jobs, i, j)
        invariant old(m.w).tty.fg == m.shellPgid ==> m.w.tty == old(m.w).tty
      {
        ghost var before, w1 := jobs, m.w;
        if !jobs[i].procs[j].status.ProcessDone? {
          ReapProcess(m, i, j);
          SameJobTransitive(old(jobs)[i], before[i], jobs[i]);
        } else {
          assert jobs[i].procs[j := jobs[i].procs[j]] == jobs[i].procs;
          assert SetProcessAt(jobs, i, j, jobs[i].procs[j]) == jobs;
        }
        PollOne(start, w1, before, m.w, i, j);
        j := j + 1;
      }
      ghost var collected := jobs;
      UpdateStatus(i);
      RestatusSynced(m.w, collected, multiset{}, i, jobs[i].status);
      RestatusSame(old(jobs), collected, nextId, i, m.w);
      assert jobs == collected[i := Aggregated(collected[i])];
      NextJob(start, m.w, collected, jobs, i);
    }

    method ReapProcess(m: Machine, i: nat, j: nat)
      requires m.Valid() && i < |jobs| && j < |jobs[i].procs| && Synced(m.w, jobs, multiset{})
      requires !jobs[i].procs[j].status.ProcessDone?
      modifies this`jobs, m`w
      ensures m.Valid() && Synced(m.w, jobs, multiset{})
      ensures jobs == SetProcessAt(old(jobs), i, j,
                ReapResult(old(jobs)[i].procs[j], WaitNowResult(old(m.w), old(jobs)[i].procs[j].pid, true)))
      ensures Others(old(m.w), m.w, old(jobs)[i].procs[j].pid)
      ensures |jobs[i].procs| == |old(jobs)[i].procs| && SameJob(old(jobs)[i], jobs[i])
      ensures old(m.w).tty.fg == m.shellPgid ==> m.w.tty == old(m.w).tty
    {
      hide Synced, Drifts, Collect, WorldOk, Accounted, Homes, Others;
      ghost var w0, before := m.w, jobs;
      SyncedChild(w0, jobs, i, j);
      var r := m.WaitNow(jobs[i].procs[j].pid, true);
      CollectTty(w0, jobs[i].procs[j].pid, r.Got?, m.w, m.shellPgid);
      OthersOnly(w0, jobs[i].procs[j].pid, r.Got?, m.w);
      jobs := SetProcessAt(jobs, i, j, ReapResult(jobs[i].procs[j], r));
      if r.Got? {
        CollectSynced(w0, before, multiset{}, i, j);
        SyncedStable(Collect(w0, before[i].procs[j].pid), m.w, jobs, multiset{});
      } else {
        assert jobs[i].procs == before[i].procs;
        assert jobs == before;
        SyncedStable(w0, m.w, jobs, multiset{});
      }
    }
  }

  // ---------------------------------------------------------------- what a reaping pass sees

  /** A process polled at some moment after `start`: its child had taken some steps by then, and
      the process got the report the child had at that moment, if it had one. */
  ghost predicate Seen(start: World, p: Process, p': Process) {
    if p.status.ProcessDone? then p' == p
    else
      && p.pid in start.children
      && exists c :: Evolves(start.children[p.pid], c) && p' == if Uncollected(c) then ApplyWait(p, ReportOf(c)) else p
  }

  ghost predicate PolledJob(start: World, job: Job, job': Job) {
    |job'.procs| == |job.procs| && forall j :: 0 <= j < |job.procs| ==> Seen(start, job.procs[j], job'.procs[j])
  }

  /** Nothing that was there when the pass began is missed: a process whose child had a report then
      carries a report now, and a dead child's process carries its death. */
  lemma NothingMissed(start: World, p: Process, p': Process)
    requires Seen(start, p, p') && !p.status.ProcessDone? && Uncollected(start.children[p.pid])
    ensures exists s ::
      p' == ApplyWait(p, s) && (start.children[p.pid].death.Some? ==> s == start.children[p.pid].death.value)
  {
  }

  /** Every process from position (i, j) on still has its child, and only the child has moved. */
  ghost predicate Unpolled(start: World, w: World, jobs: seq<Job>, i: nat, j: nat) {
    forall i', j' ::
      (&& 0 <= i' < |jobs| && 0 <= j' < |jobs[i'].procs| && (i < i' || (i == i' && j <= j'))
       && !jobs[i'].procs[j'].status.ProcessDone?) ==>
        var p := jobs[i'].procs[j'].pid;
        p in start.children && p in w.children && Evolves(start.children[p], w.children[p])
  }

  /** Children other than p have only taken steps of their own. */
  ghost predicate Others(a: World, b: World, p: Pid) {
    forall q :: q in a.children && q != p ==> q in b.children && Evolves(a.children[q], b.children[q])
  }

  lemma OthersOnly(a: World, p: Pid, got: bool, b: World)
    requires p in a.children && Drifts(if got then Collect(a, p) else a, b)
    ensures Others(a, b, p)
  {
  }

  lemma NobodyPolled(w: World, jobs: seq<Job>)
    requires Synced(w, jobs, multiset{})
    ensures Unpolled(w, w, jobs, 0, 0)
  {
  }

  lemma EvolvesTransitive(a: Child, b: Child, c: Child)
    requires Evolves(a, b) && Evolves(b, c)
    ensures Evolves(a, c)
  {
  }

  /** One turn of the inner loop of job_reap, taken or skipped. */
  lemma PollOne(start: World, w: World, jobs: seq<Job>, w': World, i: nat, j: nat)
    requires i < |jobs| && j < |jobs[i].procs| && Unpolled(start, w, jobs, i, j) && Synced(w, jobs, multiset{})
    requires if jobs[i].procs[j].status.ProcessDone? then w' == w else Others(w, w', jobs[i].procs[j].pid)
    ensures var p := jobs[i].procs[j];
      var p' := if p.status.ProcessDone? then p else ReapResult(p, WaitNowResult(w, p.pid, true));
      Seen(start, p, p') && Unpolled(start, w', SetProcessAt(jobs, i, j, p'), i, j + 1)
  {
    var p := jobs[i].procs[j];
    var p' := if p.status.ProcessDone? then p else ReapResult(p, WaitNowResult(w, p.pid, true));
    var jobs' := SetProcessAt(jobs, i, j, p');
    if !p.status.ProcessDone? {
      assert Evolves(start.children[p.pid], w.children[p.pid]);
    }
    hide Evolves, ReapResult, Seen;
    forall i', j' | 0 <= i' < |jobs'| && 0 <= j' < |jobs'[i'].procs| && (i < i' || (i == i' && j + 1 <= j'))
                    && !jobs'[i'].procs[j'].status.ProcessDone?
      ensures var q := jobs'[i'].procs[j'].pid;
        q in start.children && q in w'.children && Evolves(start.children[q], w'.children[q])
    {
      var q := jobs'[i'].procs[j'].pid;
      assert jobs'[i'].procs[j'] == jobs[i'].procs[j'];
      assert Evolves(start.children[q], w.children[q]);
      if !p.status.ProcessDone? {
        OnlyOwner(w, jobs, multiset{}, i, j, i', j');
        EvolvesTransitive(start.children[q], w.children[q], w'.children[q]);
      }
    }
  }

  lemma NextJob(start: World, w: World, jobs: seq<Job>, jobs': seq<Job>, i: nat)
    requires i < |jobs| == |jobs'| && jobs' == jobs[i := jobs'[i]] && Unpolled(start, w, jobs, i, |jobs[i].procs|)
    ensures Unpolled(start, w, jobs', i + 1, 0)
  {
  }

  /** The kill of job_continue: what the table will say is then true of the group. */
  method Wake(m: Machine, jobs: seq<Job>, ghost nextId: int, i: nat) returns (ok: bool)
    requires m.Valid() && i < |jobs| && jobs[i].status.JobStopped? && Synced(m.w, jobs, multiset{})
    requires TableOk(jobs, nextId)
    modifies m`w, m`log, m`faults
    ensures m.Valid() && m.faults == old(m.faults) + Fault(ok)
    ensures m.log == old(m.log) + [KillGroup(jobs[i].pgid, SIGCONT)]
    ensures Synced(m.w, if ok then jobs[i := Continued(jobs[i])] else jobs, multiset{})
    ensures TableOk(jobs[i := Continued(jobs[i])], nextId) && SameJob(jobs[i], Continued(jobs[i]))
    ensures Continued(jobs[i]).status.JobRunning? && jobs[i].procs != []
    ensures old(m.w).tty.fg == m.shellPgid ==> m.w.tty == old(m.w).tty
  {
    hide Synced, TableOk, JobOk, Drifts, SameJob, Continued, KillEffect, WorldOk, Accounted, Homes;
    ghost var w0 := m.w;
    ok := m.Kill(jobs[i].pgid, SIGCONT);
    KillTty(w0, jobs[i].pgid, m.w, m.shellPgid, ok);
    ContinueApplied(w0, jobs, nextId, i);
    if ok {
      SyncedStable(KillEffect(w0, jobs[i].pgid, SIGCONT), m.w, jobs[i := Continued(jobs[i])], multiset{});
    } else {
      SyncedStable(w0, m.w, jobs, multiset{});
    }
  }

  lemma KillTty(a: World, pgid: Pid, b: World, shell: Pid, ok: bool)
    requires Homes(a, shell) && (if ok then Rely(KillEffect(a, pgid, SIGCONT), b) else Rely(a, b))
    ensures a.tty.fg == shell ==> b.tty == a.tty
  {
  }

  lemma CollectTty(a: World, p: Pid, got: bool, b: World, shell: Pid)
    requires p in a.children && Homes(a, shell) && Rely(if got then Collect(a, p) else a, b)
    ensures a.tty.fg == shell ==> b.tty == a.tty
  {
  }

  lemma SyncedChild(w: World, jobs: seq<Job>, i: nat, j: nat)
    requires Synced(w, jobs, multiset{}) && i < |jobs| && j < |jobs[i].procs| && !jobs[i].procs[j].status.ProcessDone?
    ensures jobs[i].procs[j].pid in w.children
  {
  }

  ghost function Aggregated(job: Job): Job { job.(status := Aggregate(job.procs)) }

  function HearOne(p: Process, t: Told): Process {
    if p.pid == t.pid && !p.status.ProcessDone? then ApplyWait(p, t.status) else p
  }

  /** A job after one report: the process with that pid takes it, unless it is done. */
  ghost function Hear(job: Job, t: Told): Job {
    Aggregated(job.(procs := seq(|job.procs|, k requires 0 <= k < |job.procs| => HearOne(job.procs[k], t))))
  }

  /** A job after the reports `told`, in that order. */
  ghost function Heard(job: Job, told: seq<Told>): Job {
    if told == [] then job else Hear(Heard(job, told[..|told| - 1]), told[|told| - 1])
  }

  lemma NothingHeard(job: Job)
    ensures Heard(job, []) == job
  {
  }

  lemma HeardMore(job: Job, told: seq<Told>, jobs: seq<Job>, nextId: int, i: nat, j: nat, t: Told)
    requires TableOk(jobs, nextId) && i < |jobs| && jobs[i] == Heard(job, told) && j < |jobs[i].procs|
    requires jobs[i].procs[j].pid == t.pid && !jobs[i].procs[j].status.ProcessDone?
    ensures Heard(job, told + [t]) == Aggregated(SetProcess(jobs[i], j, ApplyWait(jobs[i].procs[j], t.status)))
  {
    assert (told + [t])[..|told|] == told;
    assert JobOk(jobs[i]);
    assert Hear(jobs[i], t).procs == SetProcess(jobs[i], j, ApplyWait(jobs[i].procs[j], t.status)).procs;
  }

  /** A job after job_continue: every stopped process is taken to run. */
  ghost function Continued(job: Job): Job { Aggregated(job.(procs := MarkAll(job.procs))) }

  /** One collected report keeps the whole table in order. */
  lemma ReportApplied(w: World, jobs: seq<Job>, nextId: int, i: nat, j: nat)
    requires WorldOk(w) && Synced(w, jobs, multiset{}) && TableOk(jobs, nextId)
    requires i < |jobs| && j < |jobs[i].procs| && !jobs[i].procs[j].status.ProcessDone?
    requires jobs[i].procs[j].pid in w.children && Uncollected(w.children[jobs[i].procs[j].pid])
    ensures var p := jobs[i].procs[j];
      var job' := Aggregated(SetProcess(jobs[i], j, ApplyWait(p, ReportOf(w.children[p.pid]))));
      && Synced(Collect(w, p.pid), jobs[i := job'], multiset{})
      && TableOk(jobs[i := job'], nextId)
      && SameJob(jobs[i], job')
  {
    hide Synced, Collect, Aggregate, IdsOk;
    var p := jobs[i].procs[j];
    var s := ReportOf(w.children[p.pid]);
    ReportIsReport(w, p.pid);
    hide WorldOk;
    var after := SetProcess(jobs[i], j, ApplyWait(p, s));
    CollectSynced(w, jobs, multiset{}, i, j);
    CollectShape(jobs[i], j, s);
    RestatusSynced(Collect(w, p.pid), jobs[i := after], multiset{}, i, Aggregate(after.procs));
    assert jobs[i := after][i := Aggregated(after)] == jobs[i := Aggregated(after)];
    assert SameJob(jobs[i], Aggregated(after));
    ReplaceTableOk(jobs, nextId, i, Aggregated(after));
  }

  lemma ReportIsReport(w: World, p: Pid)
    requires WorldOk(w) && p in w.children && Uncollected(w.children[p])
    ensures var s := ReportOf(w.children[p]); s.StoppedBy? || s.Resumed? || IsDeath(s)
  {
  }

  lemma ContinueApplied(w: World, jobs: seq<Job>, nextId: int, i: nat)
    requires Synced(w, jobs, multiset{}) && TableOk(jobs, nextId)
    requires i < |jobs| && jobs[i].status.JobStopped?
    ensures var job' := Continued(jobs[i]);
      && Synced(KillEffect(w, jobs[i].pgid, SIGCONT), jobs[i := job'], multiset{})
      && TableOk(jobs[i := job'], nextId)
      && SameJob(jobs[i], job') && job'.status.JobRunning? && jobs[i].procs != []
  {
    var job' := Continued(jobs[i]);
    ContinueSynced(w, jobs, multiset{}, i, job'.status);
    MarkedRuns(jobs[i]);
    assert JobShape(jobs[i := job'][i]);
    ReplaceTableOk(jobs, nextId, i, job');
  }

  lemma ReplaceTableOk(jobs: seq<Job>, nextId: int, i: nat, job: Job)
    requires TableOk(jobs, nextId) && i < |jobs| && SameJob(jobs[i], job) && JobOk(job)
    ensures TableOk(jobs[i := job], nextId)
  {
  }

  lemma OnlyPosition(jobs: seq<Job>, nextId: int, i: nat, j: nat, k: nat)
    requires TableOk(jobs, nextId) && i < |jobs| && j < |jobs[i].procs| && k < |jobs[i].procs|
    requires jobs[i].procs[j].pid == jobs[i].procs[k].pid
    ensures j == k
  {
  }

  lemma RelyWorldOk(a: World, b: World)
    requires Drifts(a, b)
    ensures WorldOk(b)
  {
  }

  lemma SameJobReflexive(a: Job)
    ensures SameJob(a, a)
  {
  }

  lemma SameJobTransitive(a: Job, b: Job, c: Job)
    requires SameJob(a, b) && SameJob(b, c)
    ensures SameJob(a, c)
  {
  }

  lemma SameJobsReflexive(a: seq<Job>)
    ensures SameJobs(a, a)
  {
  }

  lemma RestatusSame(a: seq<Job>, b: seq<Job>, nextId: int, i: nat, w: World)
    requires i < |a| == |b| && SameJob(a[i], b[i]) && b == a[i := b[i]] && TableOk(a, nextId)
    requires Synced(w, b, multiset{})
    ensures b[i].procs != [] && SameJobs(a, b[i := Aggregated(b[i])])
    ensures TableOk(b[i := Aggregated(b[i])], nextId)
  {
    var job := Aggregated(b[i]);
    assert JobShape(b[i]);
    assert JobOk(job);
    assert SameJob(a[i], job);
    ReplaceTableOk(a, nextId, i, job);
    assert b[i := job] == a[i := job];
  }

  /** A job that counts against max_job. */
  predicate Active(job: Job) { job.status.JobRunning? || job.status.JobStopped? }

  lemma MarkedRuns(job: Job)
    requires JobOk(job) && job.status.JobStopped?
    ensures Aggregate(MarkAll(job.procs)) == JobRunning
  {
    var j :| 0 <= j < |job.procs| && job.procs[j].status.ProcessStopped?;
    assert MarkAll(job.procs)[j].status.ProcessRunning?;
  }

  /** The cached status of a job plays no part in what the table owns and knows. */
  lemma RestatusSynced(w: World, jobs: seq<Job>, held: multiset<Pid>, i: nat, status: JobStatus)
    requires i < |jobs| && Synced(w, jobs, held)
    ensures Synced(w, jobs[i := jobs[i].(status := status)], held)
  {
    RestatusOwned(w, jobs, held, i, status);
    var jobs' := jobs[i := jobs[i].(status := status)];
    forall k | 0 <= k < |jobs'| ensures AgreesJob(w, jobs'[k]) {
      assert AgreesJob(w, jobs[k]);
    }
  }

  lemma RestatusOwned(w: World, jobs: seq<Job>, held: multiset<Pid>, i: nat, status: JobStatus)
    requires i < |jobs| && Owned(w, jobs, held)
    ensures Owned(w, jobs[i := jobs[i].(status := status)], held)
  {
    var jobs' := jobs[i := jobs[i].(status := status)];
    LiveJobsUpdate(jobs, i, jobs[i].(status := status));
    CancelSum(LiveJobs(jobs'), LiveJobs(jobs), Live(jobs[i].procs));
    forall k | 0 <= k < |jobs'| ensures JobShape(jobs'[k]) && OwnsJob(w, jobs'[k]) {
      assert OwnsJob(w, jobs[k]);
    }
  }
}
