/**
 The job table as values: processes, jobs, how wait results change them, and what it means for
 the table to agree with the kernel.
 */
module Jobs {
  import opened Kernel
  import opened Machines

  datatype ProcessStatus = ProcessRunning | ProcessStopped | ProcessDone

  datatype Process = Process(pid: Pid, status: ProcessStatus, wait: Option<WaitStatus>)

  datatype JobStatus = JobRunning | JobStopped | JobDone

  datatype Job = Job(
    id: int, pgid: Pid, status: JobStatus, command: string, procs: seq<Process>, modes: Option<int>)

  /** process_apply_wait_status */
  function ApplyWait(p: Process, s: WaitStatus): Process {
    p.(wait := Some(s),
       status := match s
                 case Exited(_) => ProcessDone
                 case Signaled(_) => ProcessDone
                 case StoppedBy(_) => ProcessStopped
                 case Resumed => ProcessRunning)
  }

  /** The status a job has by virtue of its processes. */
  ghost function Aggregate(ps: seq<Process>): JobStatus {
    if exists i :: 0 <= i < |ps| && ps[i].status.ProcessRunning? then JobRunning
    else if exists i :: 0 <= i < |ps| && ps[i].status.ProcessStopped? then JobStopped
    else JobDone
  }

  predicate ProcessOk(p: Process) {
    && p.pid > 0
    && (p.status.ProcessDone? <==> p.wait.Some? && IsDeath(p.wait.value))
  }

  /** A job's processes, whatever its cached status says. */
  ghost predicate JobShape(job: Job) {
    && job.procs != [] && job.pgid > 0
    && (forall j :: 0 <= j < |job.procs| ==> ProcessOk(job.procs[j]))
    && (forall j, k :: 0 <= j < k < |job.procs| ==> job.procs[j].pid != job.procs[k].pid)
  }

  ghost predicate JobOk(job: Job) {
    JobShape(job) && job.status == Aggregate(job.procs)
  }

  ghost predicate IdsOk(jobs: seq<Job>, nextId: int) {
    && nextId >= 1
    && (forall i :: 0 <= i < |jobs| ==> 1 <= jobs[i].id < nextId)
    && (forall i, j :: 0 <= i < j < |jobs| ==> jobs[i].id > jobs[j].id)
    && (forall i, j :: 0 <= i < j < |jobs| ==> jobs[i].pgid != jobs[j].pgid)
  }

  // ---------------------------------------------------------------- ownership of children

  function LiveOne(p: Process): multiset<Pid> {
    if p.status.ProcessDone? then multiset{} else multiset{p.pid}
  }

  /** The pids of the processes that are not done, with multiplicity. */
  function Live(ps: seq<Process>): multiset<Pid> {
    if ps == [] then multiset{} else LiveOne(ps[0]) + Live(ps[1..])
  }

  function LiveJobs(jobs: seq<Job>): multiset<Pid> {
    if jobs == [] then multiset{} else Live(jobs[0].procs) + LiveJobs(jobs[1..])
  }

  /** Conservation: the unreaped children are the disjoint union of the processes of listed jobs
      that are not done and of the pids a launch in progress still holds. */
  ghost predicate Conserved(w: World, jobs: seq<Job>, held: multiset<Pid>) {
    multiset(w.children.Keys) == LiveJobs(jobs) + held
  }

  ghost predicate Owns(w: World, pgid: Pid, p: Process) {
    !p.status.ProcessDone? ==>
      && p.pid in w.children
      && w.children[p.pid].target == pgid
      && (Alive(w.children[p.pid]) ==> w.children[p.pid].pgid == pgid)
  }

  ghost predicate OwnsJob(w: World, job: Job) {
    forall j :: 0 <= j < |job.procs| ==> Owns(w, job.pgid, job.procs[j])
  }

  /** A process with nothing left to collect is in the table as it is in the kernel. */
  ghost predicate Agrees(w: World, p: Process) {
    !p.status.ProcessDone? && p.pid in w.children && !Uncollected(w.children[p.pid]) ==>
      (p.status.ProcessStopped? <==> w.children[p.pid].stopped)
  }

  ghost predicate AgreesJob(w: World, job: Job) {
    forall j :: 0 <= j < |job.procs| ==> Agrees(w, job.procs[j])
  }

  ghost predicate Owned(w: World, jobs: seq<Job>, held: multiset<Pid>) {
    && Conserved(w, jobs, held)
    && (forall i :: 0 <= i < |jobs| ==> JobShape(jobs[i]) && OwnsJob(w, jobs[i]))
  }

  ghost predicate Synced(w: World, jobs: seq<Job>, held: multiset<Pid>) {
    && Owned(w, jobs, held)
    && (forall i :: 0 <= i < |jobs| ==> AgreesJob(w, jobs[i]))
  }

  ghost predicate TableOk(jobs: seq<Job>, nextId: int) {
    IdsOk(jobs, nextId) && forall i :: 0 <= i < |jobs| ==> JobOk(jobs[i])
  }

  /** Every state in which the shell is back in its main loop. */
  ghost predicate AtPrompt(w: World, jobs: seq<Job>, nextId: int) {
    && TableOk(jobs, nextId)
    && Synced(w, jobs, multiset{})
    && (forall i :: 0 <= i < |jobs| ==> !jobs[i].status.JobDone?)
  }

  // ---------------------------------------------------------------- stability

  lemma OwnedStable(a: World, b: World, jobs: seq<Job>, held: multiset<Pid>)
    requires Owned(a, jobs, held) && Drifts(a, b)
    ensures Owned(b, jobs, held)
  {
  }

  lemma SyncedStable(a: World, b: World, jobs: seq<Job>, held: multiset<Pid>)
    requires Synced(a, jobs, held) && Drifts(a, b)
    ensures Synced(b, jobs, held)
  {
    OwnedStable(a, b, jobs, held);
    forall i | 0 <= i < |jobs|
      ensures AgreesJob(b, jobs[i])
    {
      assert AgreesJob(a, jobs[i]);
      forall j | 0 <= j < |jobs[i].procs|
        ensures Agrees(b, jobs[i].procs[j])
      {
        assert Agrees(a, jobs[i].procs[j]);
      }
    }
  }

  // ---------------------------------------------------------------- the multiset of live pids

  lemma {:induction false} LiveUpdate(ps: seq<Process>, j: nat, p: Process)
    requires j < |ps|
    ensures Live(ps[j := p]) + LiveOne(ps[j]) == Live(ps) + LiveOne(p)
  {
    if j == 0 {
      assert ps[j := p][1..] == ps[1..];
    } else {
      assert ps[j := p][1..] == ps[1..][j - 1 := p];
      LiveUpdate(ps[1..], j - 1, p);
      CarrySum(LiveOne(ps[0]), Live(ps[1..][j - 1 := p]), LiveOne(ps[j]), Live(ps[1..]), LiveOne(p));
    }
  }

  lemma {:induction false} LiveJobsUpdate(jobs: seq<Job>, i: nat, job: Job)
    requires i < |jobs|
    ensures LiveJobs(jobs[i := job]) + Live(jobs[i].procs) == LiveJobs(jobs) + Live(job.procs)
  {
    if i == 0 {
      assert jobs[i := job][1..] == jobs[1..];
    } else {
      assert jobs[i := job][1..] == jobs[1..][i - 1 := job];
      LiveJobsUpdate(jobs[1..], i - 1, job);
      CarrySum(Live(jobs[0].procs), LiveJobs(jobs[1..][i - 1 := job]), Live(jobs[i].procs),
               LiveJobs(jobs[1..]), Live(job.procs));
    }
  }

  lemma {:induction false} LiveMember(ps: seq<Process>, j: nat)
    requires j < |ps| && !ps[j].status.ProcessDone?
    ensures ps[j].pid in Live(ps)
  {
    if j > 0 {
      LiveMember(ps[1..], j - 1);
    }
  }

  lemma {:induction false} LiveJobsMember(jobs: seq<Job>, i: nat, j: nat)
    requires i < |jobs| && j < |jobs[i].procs| && !jobs[i].procs[j].status.ProcessDone?
    ensures jobs[i].procs[j].pid in LiveJobs(jobs)
  {
    if i == 0 {
      LiveMember(jobs[0].procs, j);
    } else {
      LiveJobsMember(jobs[1..], i - 1, j);
    }
  }

  function SetProcess(job: Job, j: nat, p: Process): Job
    requires j < |job.procs|
  {
    job.(procs := job.procs[j := p])
  }

  function SetProcessAt(jobs: seq<Job>, i: nat, j: nat, p: Process): seq<Job>
    requires i < |jobs| && j < |jobs[i].procs|
  {
    jobs[i := SetProcess(jobs[i], j, p)]
  }

  lemma SetProcessLive(jobs: seq<Job>, i: nat, j: nat, p: Process)
    requires i < |jobs| && j < |jobs[i].procs|
    ensures LiveJobs(SetProcessAt(jobs, i, j, p)) + LiveOne(jobs[i].procs[j]) == LiveJobs(jobs) + LiveOne(p)
  {
    var job := SetProcess(jobs[i], j, p);
    LiveJobsUpdate(jobs, i, job);
    LiveUpdate(jobs[i].procs, j, p);
    ChainSum(LiveJobs(SetProcessAt(jobs, i, j, p)), Live(jobs[i].procs), LiveJobs(jobs), Live(job.procs),
             LiveOne(jobs[i].procs[j]), LiveOne(p));
  }

  lemma ChainSum(a: multiset<Pid>, b: multiset<Pid>, c: multiset<Pid>, d: multiset<Pid>, e: multiset<Pid>,
                 f: multiset<Pid>)
    requires a + b == c + d && d + e == b + f
    ensures a + e == c + f
  {
    forall x ensures (a + e)[x] == (c + f)[x] {
      assert (a + b)[x] == (c + d)[x] && (d + e)[x] == (b + f)[x];
    }
  }

  lemma ShiftSum(a: multiset<Pid>, b: multiset<Pid>, c: multiset<Pid>, d: multiset<Pid>)
    requires a + b == c + multiset{}
    ensures (a + d) + b == c + d
  {
    forall x ensures ((a + d) + b)[x] == (c + d)[x] {
      assert (a + b)[x] == (c + multiset{})[x];
    }
  }

  lemma CarrySum(h: multiset<Pid>, a: multiset<Pid>, b: multiset<Pid>, c: multiset<Pid>, d: multiset<Pid>)
    requires a + b == c + d
    ensures (h + a) + b == (h + c) + d
  {
    forall x ensures ((h + a) + b)[x] == ((h + c) + d)[x] {
      assert (a + b)[x] == (c + d)[x];
    }
  }

  lemma CancelSum(a: multiset<Pid>, b: multiset<Pid>, c: multiset<Pid>)
    requires a + c == b + c
    ensures a == b
  {
    forall x ensures a[x] == b[x] {
      assert (a + c)[x] == (b + c)[x];
    }
  }

  /** A live process is the only live one with its pid. */
  lemma OnlyOwner(w: World, jobs: seq<Job>, held: multiset<Pid>, i: nat, j: nat, i': nat, j': nat)
    requires Conserved(w, jobs, held)
    requires i < |jobs| && j < |jobs[i].procs| && !jobs[i].procs[j].status.ProcessDone?
    requires i' < |jobs| && j' < |jobs[i'].procs| && !jobs[i'].procs[j'].status.ProcessDone?
    requires i != i' || j != j'
    ensures jobs[i].procs[j].pid != jobs[i'].procs[j'].pid
  {
    var dead := jobs[i].procs[j].(status := ProcessDone);
    var rest := SetProcessAt(jobs, i, j, dead);
    SetProcessLive(jobs, i, j, dead);
    LiveJobsMember(rest, i', j');
    var p := jobs[i].procs[j].pid;
    assert multiset(w.children.Keys)[p] <= 1;
    assert (LiveJobs(rest) + multiset{p})[p] == (LiveJobs(jobs) + multiset{})[p];
    assert (LiveJobs(jobs) + held)[p] <= 1;
  }

  // ---------------------------------------------------------------- collecting one report

  lemma CollectShape(job: Job, j: nat, s: WaitStatus)
    requires JobShape(job) && j < |job.procs|
    requires s.StoppedBy? || s.Resumed? || IsDeath(s)
    ensures JobShape(SetProcess(job, j, ApplyWait(job.procs[j], s)))
  {
  }

  lemma CollectConserves(w: World, jobs: seq<Job>, held: multiset<Pid>, i: nat, j: nat)
    requires WorldOk(w) && Conserved(w, jobs, held)
    requires i < |jobs| && j < |jobs[i].procs| && !jobs[i].procs[j].status.ProcessDone?
    requires jobs[i].procs[j].pid in w.children && Uncollected(w.children[jobs[i].procs[j].pid])
    ensures var p := jobs[i].procs[j];
      Conserved(Collect(w, p.pid), SetProcessAt(jobs, i, j, ApplyWait(p, ReportOf(w.children[p.pid]))), held)
  {
    var p := jobs[i].procs[j];
    assert Placed(w, p.pid);
    var p' := ApplyWait(p, ReportOf(w.children[p.pid]));
    var w' := Collect(w, p.pid);
    var jobs' := SetProcessAt(jobs, i, j, p');
    SetProcessLive(jobs, i, j, p');
    if w.children[p.pid].death.Some? {
      assert w'.children.Keys == w.children.Keys - {p.pid};
      assert multiset(w'.children.Keys) + multiset{p.pid} == multiset(w.children.Keys);
      assert LiveJobs(jobs') + multiset{p.pid} == LiveJobs(jobs) + multiset{};
      ShiftSum(LiveJobs(jobs'), multiset{p.pid}, LiveJobs(jobs), held);
      CancelSum(multiset(w'.children.Keys), LiveJobs(jobs') + held, multiset{p.pid});
    } else {
      assert w'.children.Keys == w.children.Keys;
      assert LiveJobs(jobs') + multiset{p.pid} == LiveJobs(jobs) + multiset{p.pid};
      CancelSum(LiveJobs(jobs'), LiveJobs(jobs), multiset{p.pid});
    }
  }

  lemma CollectOwned(w: World, jobs: seq<Job>, held: multiset<Pid>, i: nat, j: nat)
    requires WorldOk(w) && Owned(w, jobs, held)
    requires i < |jobs| && j < |jobs[i].procs| && !jobs[i].procs[j].status.ProcessDone?
    requires jobs[i].procs[j].pid in w.children && Uncollected(w.children[jobs[i].procs[j].pid])
    ensures var p := jobs[i].procs[j];
      Owned(Collect(w, p.pid), SetProcessAt(jobs, i, j, ApplyWait(p, ReportOf(w.children[p.pid]))), held)
  {
    var p := jobs[i].procs[j];
    assert Placed(w, p.pid);
    var s := ReportOf(w.children[p.pid]);
    var jobs' := SetProcessAt(jobs, i, j, ApplyWait(p, s));
    var w' := Collect(w, p.pid);
    CollectConserves(w, jobs, held, i, j);
    CollectShape(jobs[i], j, s);
    forall i' | 0 <= i' < |jobs'|
      ensures OwnsJob(w', jobs'[i'])
    {
      assert OwnsJob(w, jobs[i']);
      forall j' | 0 <= j' < |jobs'[i'].procs|
        ensures Owns(w', jobs'[i'].pgid, jobs'[i'].procs[j'])
      {
        assert Owns(w, jobs[i'].pgid, jobs[i'].procs[j']);
        if (i' != i || j' != j) && !jobs[i'].procs[j'].status.ProcessDone? {
          OnlyOwner(w, jobs, held, i, j, i', j');
        }
      }
    }
  }

  lemma CollectSynced(w: World, jobs: seq<Job>, held: multiset<Pid>, i: nat, j: nat)
    requires WorldOk(w) && Synced(w, jobs, held)
    requires i < |jobs| && j < |jobs[i].procs| && !jobs[i].procs[j].status.ProcessDone?
    requires jobs[i].procs[j].pid in w.children && Uncollected(w.children[jobs[i].procs[j].pid])
    ensures var p := jobs[i].procs[j];
      Synced(Collect(w, p.pid), SetProcessAt(jobs, i, j, ApplyWait(p, ReportOf(w.children[p.pid]))), held)
  {
    var p := jobs[i].procs[j];
    assert Placed(w, p.pid);
    var jobs' := SetProcessAt(jobs, i, j, ApplyWait(p, ReportOf(w.children[p.pid])));
    var w' := Collect(w, p.pid);
    CollectOwned(w, jobs, held, i, j);
    forall i' | 0 <= i' < |jobs'|
      ensures AgreesJob(w', jobs'[i'])
    {
      assert AgreesJob(w, jobs[i']);
      forall j' | 0 <= j' < |jobs'[i'].procs|
        ensures Agrees(w', jobs'[i'].procs[j'])
      {
        assert Agrees(w, jobs[i'].procs[j']);
        if (i' != i || j' != j) && !jobs[i'].procs[j'].status.ProcessDone? {
          OnlyOwner(w, jobs, held, i, j, i', j');
        }
      }
    }
  }
}
