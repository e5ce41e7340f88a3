/**
 job_shutdown: continue the stopped jobs, ask every job to terminate, poll for at most half a
 second, kill what is left and wait for it.
 */
module Shutdown {
  import opened Kernel
  import opened Machines
  import opened Jobs
  import opened JobTables

  const RETRY_COUNT := 50

  ghost predicate AllDone(job: Job) {
    forall j :: 0 <= j < |job.procs| ==> job.procs[j].status.ProcessDone?
  }

  ghost predicate AllJobsDone(jobs: seq<Job>) {
    forall i :: 0 <= i < |jobs| ==> AllDone(jobs[i])
  }

  /** Every process of the job that is not done has been sent SIGKILL or is already dead. */
  ghost predicate DoomedJob(w: World, job: Job) {
    forall j :: 0 <= j < |job.procs| && !job.procs[j].status.ProcessDone? && job.procs[j].pid in w.children ==>
      w.children[job.procs[j].pid].doomed || w.children[job.procs[j].pid].death.Some?
  }

  ghost predicate DoomedJobs(w: World, jobs: seq<Job>, n: nat) {
    n <= |jobs| && forall i :: 0 <= i < n ==> DoomedJob(w, jobs[i])
  }

  ghost predicate SameGroups(a: seq<Job>, b: seq<Job>) {
    |a| == |b| && forall i :: 0 <= i < |a| ==> a[i].pgid == b[i].pgid
  }

  /** SIGKILL to each of the first n groups, in list order. */
  ghost function Kills(jobs: seq<Job>, n: nat): seq<Call>
    requires n <= |jobs|
  {
    seq(n, i requires 0 <= i < n => KillGroup(jobs[i].pgid, SIGKILL))
  }

  ghost predicate OnlyWaits(log: seq<Call>) {
    forall i :: 0 <= i < |log| ==> log[i].BlockingWait?
  }

  lemma DoomedStable(a: World, b: World, jobs: seq<Job>, n: nat)
    requires DoomedJobs(a, jobs, n) && Drifts(a, b)
    ensures DoomedJobs(b, jobs, n)
  {
  }

  lemma KillDooms(w: World, jobs: seq<Job>, n: nat)
    requires n < |jobs| && Owned(w, jobs, multiset{}) && DoomedJobs(w, jobs, n)
    ensures DoomedJobs(KillEffect(w, jobs[n].pgid, SIGKILL), jobs, n + 1)
  {
  }

  lemma DoomedAt(w: World, jobs: seq<Job>, i: nat, j: nat)
    requires DoomedJobs(w, jobs, |jobs|) && i < |jobs| && j < |jobs[i].procs| && !jobs[i].procs[j].status.ProcessDone?
    ensures jobs[i].procs[j].pid in w.children ==>
      w.children[jobs[i].procs[j].pid].doomed || w.children[jobs[i].procs[j].pid].death.Some?
  {
  }

  lemma DeathIsDeath(w: World, p: Pid)
    requires WorldOk(w) && p in w.children && w.children[p].death.Some?
    ensures IsDeath(w.children[p].death.value)
  {
  }

  /** Reaping one process leaves the others as doomed as they were. */
  lemma CollectDoomed(w: World, jobs: seq<Job>, i: nat, j: nat, p: Process)
    requires DoomedJobs(w, jobs, |jobs|) && i < |jobs| && j < |jobs[i].procs|
    requires p.status.ProcessDone? && jobs[i].procs[j].pid in w.children
    ensures DoomedJobs(Collect(w, jobs[i].procs[j].pid), SetProcessAt(jobs, i, j, p), |jobs|)
  {
  }

  lemma {:induction false} DoneIsEmpty(jobs: seq<Job>)
    requires AllJobsDone(jobs)
    ensures LiveJobs(jobs) == multiset{}
  {
    if jobs != [] {
      assert AllDone(jobs[0]);
      DoneHasNoLive(jobs[0].procs);
      DoneIsEmpty(jobs[1..]);
    }
  }

  lemma NothingLeft(w: World, jobs: seq<Job>)
    requires Owned(w, jobs, multiset{}) && AllJobsDone(jobs)
    ensures w.children == map[]
  {
    DoneIsEmpty(jobs);
    assert multiset(w.children.Keys) == multiset{};
    assert w.children.Keys == {} by {
      forall p ensures p !in w.children.Keys { assert p !in multiset(w.children.Keys); }
    }
  }

  lemma MarkedOwned(w: World, jobs: seq<Job>, i: nat, status: JobStatus)
    requires i < |jobs| && Owned(w, jobs, multiset{})
    ensures Owned(w, jobs[i := jobs[i].(procs := MarkAll(jobs[i].procs), status := status)], multiset{})
  {
    var jobs' := jobs[i := jobs[i].(procs := MarkAll(jobs[i].procs), status := status)];
    MarkAllConserves(w, w, jobs, multiset{}, i, status);
    forall k | 0 <= k < |jobs'| ensures JobShape(jobs'[k]) && OwnsJob(w, jobs'[k]) {
      assert OwnsJob(w, jobs[k]);
      forall j | 0 <= j < |jobs'[k].procs| ensures Owns(w, jobs'[k].pgid, jobs'[k].procs[j]) {
        assert Owns(w, jobs[k].pgid, jobs[k].procs[j]);
      }
    }
  }

  /** continue_stopped_job: marks the processes running whether or not kill succeeded. */
  method ContinueStopped(mgr: JobManager, m: Machine, i: nat)
    requires m.Valid() && i < |mgr.jobs| && Owned(m.w, mgr.jobs, multiset{})
    modifies mgr`jobs, m`w, m`log, m`faults
    ensures m.Valid() && Owned(m.w, mgr.jobs, multiset{})
    ensures mgr.jobs == old(mgr.jobs)[i := Continued(old(mgr.jobs)[i])]
    ensures m.log == old(m.log) + [KillGroup(old(mgr.jobs)[i].pgid, SIGCONT)]
  {
    hide Owned, Drifts, KillEffect, Aggregate;
    ghost var w0, before := m.w, mgr.jobs;
    var ok := m.Kill(mgr.jobs[i].pgid, SIGCONT);
    KillOwned(w0, before[i].pgid, SIGCONT, before, multiset{});
    if ok {
      OwnedStable(KillEffect(w0, before[i].pgid, SIGCONT), m.w, before, multiset{});
    } else {
      OwnedStable(w0, m.w, before, multiset{});
    }
    OwnedGroup(m.w, before, i);
    mgr.MarkContinued(i);
    MarkedOwned(m.w, before, i, mgr.jobs[i].status);
    assert mgr.jobs[i] == before[i].(procs := MarkAll(before[i].procs), status := mgr.jobs[i].status);
  }

  /** process_try_reap */
  method TryReap(mgr: JobManager, m: Machine, i: nat, j: nat) returns (done: bool)
    requires m.Valid() && i < |mgr.jobs| && j < |mgr.jobs[i].procs| && Owned(m.w, mgr.jobs, multiset{})
    modifies mgr`jobs, m`w
    ensures m.Valid() && Owned(m.w, mgr.jobs, multiset{})
    ensures |mgr.jobs| == |old(mgr.jobs)| && mgr.jobs == old(mgr.jobs)[i := mgr.jobs[i]]
    ensures mgr.jobs[i].pgid == old(mgr.jobs)[i].pgid && |mgr.jobs[i].procs| == |old(mgr.jobs)[i].procs|
    ensures forall k :: 0 <= k < |mgr.jobs[i].procs| && k != j ==> mgr.jobs[i].procs[k] == old(mgr.jobs)[i].procs[k]
    ensures done <==> mgr.jobs[i].procs[j].status.ProcessDone?
  {
    hide Owned, Drifts, Collect;
    if mgr.jobs[i].procs[j].status.ProcessDone? { return true; }
    ghost var w0, before := m.w, mgr.jobs;
    assert WorldOk(w0);
    OwnedChild(w0, before, i, j);
    assert Placed(w0, before[i].procs[j].pid);
    var r := m.WaitNow(mgr.jobs[i].procs[j].pid, false);
    done := r.Got?;
    if done {
      mgr.jobs := SetProcessAt(mgr.jobs, i, j, ApplyWait(mgr.jobs[i].procs[j], r.status));
      CollectOwned(w0, before, multiset{}, i, j);
      OwnedStable(Collect(w0, before[i].procs[j].pid), m.w, mgr.jobs, multiset{});
    } else {
      OwnedStable(w0, m.w, mgr.jobs, multiset{});
    }
  }

  lemma OwnedChild(w: World, jobs: seq<Job>, i: nat, j: nat)
    requires Owned(w, jobs, multiset{}) && i < |jobs| && j < |jobs[i].procs| && !jobs[i].procs[j].status.ProcessDone?
    ensures jobs[i].procs[j].pid in w.children
  {
  }

  /** The inner loop of jobmanager_try_reap_all. */
  method TryReapJob(mgr: JobManager, m: Machine, i: nat) returns (done: bool)
    requires m.Valid() && i < |mgr.jobs| && Owned(m.w, mgr.jobs, multiset{})
    modifies mgr`jobs, m`w
    ensures m.Valid() && Owned(m.w, mgr.jobs, multiset{})
    ensures |mgr.jobs| == |old(mgr.jobs)| && mgr.jobs == old(mgr.jobs)[i := mgr.jobs[i]]
    ensures mgr.jobs[i].pgid == old(mgr.jobs)[i].pgid && (done <==> AllDone(mgr.jobs[i]))
  {
    hide Owned, Aggregate, WorldOk, Accounted, Homes;
    done := true;
    var j := 0;
    while j < |mgr.jobs[i].procs|
      invariant m.Valid() && Owned(m.w, mgr.jobs, multiset{})
      invariant |mgr.jobs| == |old(mgr.jobs)| && mgr.jobs == old(mgr.jobs)[i := mgr.jobs[i]]
      invariant mgr.jobs[i].pgid == old(mgr.jobs)[i].pgid && 0 <= j <= |mgr.jobs[i].procs|
      invariant done <==> forall k :: 0 <= k < j ==> mgr.jobs[i].procs[k].status.ProcessDone?
    {
      ghost var before := mgr.jobs[i];
      var one := TryReap(mgr, m, i, j);
      assert forall k :: 0 <= k < j ==> mgr.jobs[i].procs[k] == before.procs[k];
      if !one { done := false; }
      j := j + 1;
    }
    ghost var collected := mgr.jobs;
    mgr.UpdateStatus(i);
    RestatusOwned(m.w, collected, multiset{}, i, mgr.jobs[i].status);
    assert mgr.jobs == collected[i := collected[i].(status := mgr.jobs[i].status)];
  }

  /** jobmanager_try_reap_all */
  method TryReapAll(mgr: JobManager, m: Machine) returns (allDone: bool)
    requires m.Valid() && Owned(m.w, mgr.jobs, multiset{})
    modifies mgr`jobs, m`w
    ensures m.Valid() && Owned(m.w, mgr.jobs, multiset{}) && SameGroups(old(mgr.jobs), mgr.jobs)
    ensures allDone <==> AllJobsDone(mgr.jobs)
  {
    hide Owned, WorldOk, Accounted, Homes, AllDone;
    allDone := true;
    var i := 0;
    while i < |mgr.jobs|
      invariant 0 <= i <= |mgr.jobs| && m.Valid() && Owned(m.w, mgr.jobs, multiset{})
      invariant SameGroups(old(mgr.jobs), mgr.jobs)
      invariant allDone <==> forall k :: 0 <= k < i ==> AllDone(mgr.jobs[k])
    {
      ghost var before := mgr.jobs;
      var done := TryReapJob(mgr, m, i);
      assert forall k :: 0 <= k < i ==> mgr.jobs[k] == before[k];
      if !done { allDone := false; }
      i := i + 1;
    }
  }

  /** process_force_reap: the one blocking wait, for a process that has been killed. */
  method ForceReap(mgr: JobManager, m: Machine, i: nat, j: nat)
    requires m.Valid() && i < |mgr.jobs| && j < |mgr.jobs[i].procs| && Owned(m.w, mgr.jobs, multiset{})
    requires DoomedJobs(m.w, mgr.jobs, |mgr.jobs|)
    modifies mgr`jobs, m`w, m`log
    ensures m.Valid() && Owned(m.w, mgr.jobs, multiset{}) && |mgr.jobs| == |old(mgr.jobs)|
    ensures DoomedJobs(m.w, mgr.jobs, |mgr.jobs|) && mgr.jobs == old(mgr.jobs)[i := mgr.jobs[i]]
    ensures |mgr.jobs[i].procs| == |old(mgr.jobs)[i].procs| && mgr.jobs[i].procs[j].status.ProcessDone?
    ensures forall k :: 0 <= k < |mgr.jobs[i].procs| && k != j ==> mgr.jobs[i].procs[k] == old(mgr.jobs)[i].procs[k]
    ensures m.log == old(m.log) || exists p :: m.log == old(m.log) + [BlockingWait(p)]
  {
    hide Owned, Drifts, Collect, DoomedJobs, WorldOk, Accounted;
    if mgr.jobs[i].procs[j].status.ProcessDone? { return; }
    ghost var w0, before := m.w, mgr.jobs;
    var pid := mgr.jobs[i].procs[j].pid;
    DoomedAt(w0, before, i, j);
    OwnedChild(w0, before, i, j);
    var r, mid := m.WaitDeath(pid);
    OwnedStable(w0, mid, before, multiset{});
    DoomedStable(w0, mid, before, |before|);
    RelyWorldOk(w0, mid);
    OwnedChild(mid, before, i, j);
    DeathIsDeath(mid, pid);
    mgr.jobs := SetProcessAt(mgr.jobs, i, j, ApplyWait(mgr.jobs[i].procs[j], r.status));
    CollectOwned(mid, before, multiset{}, i, j);
    CollectDoomed(mid, before, i, j, mgr.jobs[i].procs[j]);
    OwnedStable(Collect(mid, pid), m.w, mgr.jobs, multiset{});
    DoomedStable(Collect(mid, pid), m.w, mgr.jobs, |before|);
  }

  /** The last loop over the list before job_destroy. */
  method ForceReapAll(mgr: JobManager, m: Machine) returns (ghost waits: seq<Call>)
    requires m.Valid() && Owned(m.w, mgr.jobs, multiset{}) && DoomedJobs(m.w, mgr.jobs, |mgr.jobs|)
    modifies mgr`jobs, m`w, m`log
    ensures m.Valid() && Owned(m.w, mgr.jobs, multiset{}) && AllJobsDone(mgr.jobs)
    ensures m.log == old(m.log) + waits && OnlyWaits(waits)
  {
    hide Owned, DoomedJobs, Aggregate, WorldOk, Accounted, Homes;
    waits := [];
    var i := 0;
    while i < |mgr.jobs|
      invariant 0 <= i <= |mgr.jobs| && m.Valid() && Owned(m.w, mgr.jobs, multiset{})
      invariant DoomedJobs(m.w, mgr.jobs, |mgr.jobs|)
      invariant forall k :: 0 <= k < i ==> AllDone(mgr.jobs[k])
      invariant m.log == old(m.log) + waits && OnlyWaits(waits)
    {
      var j := 0;
      ghost var before := mgr.jobs;
      while j < |mgr.jobs[i].procs|
        invariant m.Valid() && Owned(m.w, mgr.jobs, multiset{}) && DoomedJobs(m.w, mgr.jobs, |mgr.jobs|)
        invariant |mgr.jobs| == |before| && mgr.jobs == before[i := mgr.jobs[i]] && 0 <= j <= |mgr.jobs[i].procs|
        invariant forall k :: 0 <= k < j ==> mgr.jobs[i].procs[k].status.ProcessDone?
        invariant m.log == old(m.log) + waits && OnlyWaits(waits)
      {
        ghost var log0 := m.log;
        ForceReap(mgr, m, i, j);
        if m.log != log0 {
          ghost var p :| m.log == log0 + [BlockingWait(p)];
          waits := waits + [BlockingWait(p)];
        }
        j := j + 1;
      }
      ghost var collected := mgr.jobs;
      mgr.UpdateStatus(i);
      RestatusOwned(m.w, collected, multiset{}, i, mgr.jobs[i].status);
      RestatusDoomed(m.w, collected, i, mgr.jobs[i].status);
      assert mgr.jobs == collected[i := collected[i].(status := mgr.jobs[i].status)];
      i := i + 1;
    }
  }

  lemma RestatusDoomed(w: World, jobs: seq<Job>, i: nat, status: JobStatus)
    requires i < |jobs| && DoomedJobs(w, jobs, |jobs|)
    ensures DoomedJobs(w, jobs[i := jobs[i].(status := status)], |jobs|)
  {
  }

  /** The loop that sends SIGKILL to every group. */
  method KillAll(mgr: JobManager, m: Machine)
    requires m.Valid() && Owned(m.w, mgr.jobs, multiset{})
    modifies m`w, m`log, m`faults
    ensures m.Valid() && Owned(m.w, mgr.jobs, multiset{}) && DoomedJobs(m.w, mgr.jobs, |mgr.jobs|)
    ensures m.log == old(m.log) + Kills(mgr.jobs, |mgr.jobs|)
  {
    hide WorldOk, Accounted, Homes, Owned, DoomedJob;
    var i := 0;
    while i < |mgr.jobs|
      invariant 0 <= i <= |mgr.jobs| && m.Valid() && Owned(m.w, mgr.jobs, multiset{})
      invariant DoomedJobs(m.w, mgr.jobs, i)
      invariant m.log == old(m.log) + Kills(mgr.jobs, i)
    {
      KillNext(mgr, m, i);
      assert Kills(mgr.jobs, i + 1) == Kills(mgr.jobs, i) + [KillGroup(mgr.jobs[i].pgid, SIGKILL)];
      i := i + 1;
    }
  }

  method KillNext(mgr: JobManager, m: Machine, i: nat)
    requires m.Valid() && i < |mgr.jobs| && Owned(m.w, mgr.jobs, multiset{}) && DoomedJobs(m.w, mgr.jobs, i)
    modifies m`w, m`log, m`faults
    ensures m.Valid() && Owned(m.w, mgr.jobs, multiset{}) && DoomedJobs(m.w, mgr.jobs, i + 1)
    ensures m.log == old(m.log) + [KillGroup(mgr.jobs[i].pgid, SIGKILL)]
  {
    hide Owned, Drifts, KillEffect, DoomedJobs;
    ghost var w0 := m.w;
    var _ := m.Kill(mgr.jobs[i].pgid, SIGKILL);
    KillOwned(w0, mgr.jobs[i].pgid, SIGKILL, mgr.jobs, multiset{});
    KillDooms(w0, mgr.jobs, i);
    OwnedStable(KillEffect(w0, mgr.jobs[i].pgid, SIGKILL), m.w, mgr.jobs, multiset{});
    DoomedStable(KillEffect(w0, mgr.jobs[i].pgid, SIGKILL), m.w, mgr.jobs, i + 1);
  }

  /** SIGCONT to each stopped job, in list order. */
  ghost function Conts(jobs: seq<Job>): seq<Call> {
    if jobs == [] then []
    else (if jobs[0].status.JobStopped? then [KillGroup(jobs[0].pgid, SIGCONT)] else []) + Conts(jobs[1..])
  }

  /** SIGTERM to each job that is not done, in list order. */
  ghost function Terms(jobs: seq<Job>): seq<Call> {
    if jobs == [] then []
    else (if jobs[0].status.JobDone? then [] else [KillGroup(jobs[0].pgid, SIGTERM)]) + Terms(jobs[1..])
  }

  /** A group is continued exactly when a stopped job has it, and asked to terminate exactly when
      an unfinished one has it. */
  lemma {:induction false} AskedMeans(jobs: seq<Job>, call: Call)
    ensures call in Conts(jobs) <==>
      exists i :: 0 <= i < |jobs| && jobs[i].status.JobStopped? && call == KillGroup(jobs[i].pgid, SIGCONT)
    ensures call in Terms(jobs) <==>
      exists i :: 0 <= i < |jobs| && !jobs[i].status.JobDone? && call == KillGroup(jobs[i].pgid, SIGTERM)
  {
    if jobs != [] {
      AskedMeans(jobs[1..], call);
      assert forall i :: 0 <= i < |jobs[1..]| ==> jobs[1..][i] == jobs[i + 1];
      assert forall i :: 0 < i < |jobs| ==> jobs[i] == jobs[1..][i - 1];
    }
  }

  ghost predicate SameDone(a: seq<Job>, b: seq<Job>) {
    |a| == |b| && forall i :: 0 <= i < |a| ==> (a[i].status.JobDone? <==> b[i].status.JobDone?)
  }

  lemma {:induction false} SameTerms(a: seq<Job>, b: seq<Job>)
    requires SameGroups(a, b) && SameDone(a, b)
    ensures Terms(a) == Terms(b)
  {
    if a != [] { SameTerms(a[1..], b[1..]); }
  }

  /** The first loop: SIGCONT to the stopped jobs. */
  method ContinueAll(mgr: JobManager, m: Machine)
    requires m.Valid() && Owned(m.w, mgr.jobs, multiset{}) && forall i :: 0 <= i < |mgr.jobs| ==> JobOk(mgr.jobs[i])
    modifies mgr`jobs, m`w, m`log, m`faults
    ensures m.Valid() && Owned(m.w, mgr.jobs, multiset{}) && SameGroups(old(mgr.jobs), mgr.jobs)
    ensures SameDone(old(mgr.jobs), mgr.jobs)
    ensures m.log == old(m.log) + Conts(old(mgr.jobs))
  {
    hide Owned, WorldOk, Accounted, Homes, JobOk, MarkAll, Aggregate;
    ghost var jobs := mgr.jobs;
    ghost var asked: seq<Call> := [];
    var i := 0;
    while i < |mgr.jobs|
      invariant 0 <= i <= |mgr.jobs| && m.Valid() && Owned(m.w, mgr.jobs, multiset{})
      invariant SameGroups(jobs, mgr.jobs) && SameDone(jobs, mgr.jobs)
      invariant forall k :: i <= k < |jobs| ==> mgr.jobs[k] == jobs[k]
      invariant m.log == old(m.log) + asked && asked + Conts(jobs[i..]) == Conts(jobs)
    {
      assert jobs[i..][1..] == jobs[i + 1..];
      if mgr.jobs[i].status.JobStopped? {
        asked := asked + [KillGroup(mgr.jobs[i].pgid, SIGCONT)];
        MarkedRuns(jobs[i]);
        ContinueStopped(mgr, m, i);
      }
      i := i + 1;
    }
  }

  /** The second loop: SIGTERM to the unfinished jobs. */
  method Terminate(mgr: JobManager, m: Machine)
    requires m.Valid() && Owned(m.w, mgr.jobs, multiset{})
    modifies m`w, m`log, m`faults
    ensures m.Valid() && Owned(m.w, mgr.jobs, multiset{})
    ensures m.log == old(m.log) + Terms(mgr.jobs)
  {
    hide Owned, WorldOk, Accounted, Homes, Terms;
    ghost var asked: seq<Call> := [];
    var i := 0;
    while i < |mgr.jobs|
      invariant 0 <= i <= |mgr.jobs| && m.Valid() && Owned(m.w, mgr.jobs, multiset{})
      invariant m.log == old(m.log) + asked && asked + Terms(mgr.jobs[i..]) == Terms(mgr.jobs)
    {
      TermsAt(mgr.jobs, i);
      OwnedGroup(m.w, mgr.jobs, i);
      if !mgr.jobs[i].status.JobDone? && mgr.jobs[i].pgid > 0 {
        asked := asked + [KillGroup(mgr.jobs[i].pgid, SIGTERM)];
        TerminateGroup(m, mgr.jobs[i].pgid, mgr.jobs);
      }
      i := i + 1;
    }
    TermsAtEnd(mgr.jobs, i);
  }

  lemma TermsAt(jobs: seq<Job>, i: nat)
    requires i < |jobs|
    ensures Terms(jobs[i..]) ==
      (if jobs[i].status.JobDone? then [] else [KillGroup(jobs[i].pgid, SIGTERM)]) + Terms(jobs[i + 1..])
  {
  }

  lemma TermsAtEnd(jobs: seq<Job>, i: nat)
    requires i == |jobs|
    ensures Terms(jobs[i..]) == []
  {
  }

  method TerminateGroup(m: Machine, pgid: Pid, ghost jobs: seq<Job>)
    requires m.Valid() && Owned(m.w, jobs, multiset{})
    modifies m`w, m`log, m`faults
    ensures m.Valid() && Owned(m.w, jobs, multiset{}) && m.log == old(m.log) + [KillGroup(pgid, SIGTERM)]
  {
    hide Owned, Drifts, KillEffect, WorldOk, Accounted, Homes;
    ghost var w0 := m.w;
    var ok := m.Kill(pgid, SIGTERM);
    KillOwned(w0, pgid, SIGTERM, jobs, multiset{});
    OwnedStable(if ok then KillEffect(w0, pgid, SIGTERM) else w0, m.w, jobs, multiset{});
  }

  lemma OwnedGroup(w: World, jobs: seq<Job>, i: nat)
    requires Owned(w, jobs, multiset{}) && i < |jobs|
    ensures jobs[i].pgid > 0 && jobs[i].procs != []
  {
  }

  method PollForExit(mgr: JobManager, m: Machine) returns (ghost naps: seq<Call>)
    requires m.Valid() && Owned(m.w, mgr.jobs, multiset{})
    modifies mgr`jobs, m`w, m`log
    ensures m.Valid() && Owned(m.w, mgr.jobs, multiset{}) && SameGroups(old(mgr.jobs), mgr.jobs)
    ensures m.log == old(m.log) + naps && |naps| <= RETRY_COUNT && forall i :: 0 <= i < |naps| ==> naps[i] == Sleep
    ensures |naps| < RETRY_COUNT ==> AllJobsDone(mgr.jobs)
  {
    hide Owned, Drifts, WorldOk, Accounted, Homes;
    naps := [];
    var i := 0;
    while i < RETRY_COUNT
      invariant 0 <= i <= RETRY_COUNT && m.Valid() && Owned(m.w, mgr.jobs, multiset{})
      invariant SameGroups(old(mgr.jobs), mgr.jobs)
      invariant m.log == old(m.log) + naps && |naps| == i && forall k :: 0 <= k < |naps| ==> naps[k] == Sleep
    {
      var done := TryReapAll(mgr, m);
      if done { break; }
      ghost var w0 := m.w;
      m.Nap();
      OwnedStable(w0, m.w, mgr.jobs, multiset{});
      naps := naps + [Sleep];
      i := i + 1;
    }
  }

  lemma SameKills(a: seq<Job>, b: seq<Job>)
    requires SameGroups(a, b)
    ensures Kills(a, |a|) == Kills(b, |b|)
  {
  }

  /** Everything before the kills. */
  method AskAndPoll(mgr: JobManager, m: Machine) returns (ghost naps: seq<Call>)
    requires m.Valid() && Owned(m.w, mgr.jobs, multiset{}) && forall i :: 0 <= i < |mgr.jobs| ==> JobOk(mgr.jobs[i])
    modifies mgr`jobs, m`w, m`log, m`faults
    ensures m.Valid() && Owned(m.w, mgr.jobs, multiset{}) && SameGroups(old(mgr.jobs), mgr.jobs)
    ensures m.log == old(m.log) + Conts(old(mgr.jobs)) + Terms(old(mgr.jobs)) + naps
    ensures |naps| <= RETRY_COUNT && forall i :: 0 <= i < |naps| ==> naps[i] == Sleep
  {
    hide Owned, WorldOk, Accounted, Homes, AllJobsDone, Conts, Terms, JobOk;
    ContinueAll(mgr, m);
    SameTerms(old(mgr.jobs), mgr.jobs);
    Terminate(mgr, m);
    naps := PollForExit(mgr, m);
  }

  /** The kills and everything after them. */
  method KillAndReap(mgr: JobManager, m: Machine) returns (ghost waits: seq<Call>)
    requires m.Valid() && Owned(m.w, mgr.jobs, multiset{})
    modifies mgr, m`w, m`log, m`faults
    ensures m.Valid() && m.w.children == map[] && mgr.jobs == [] && mgr.nextId == 1
    ensures m.log == old(m.log) + Kills(old(mgr.jobs), |old(mgr.jobs)|) + waits && OnlyWaits(waits)
  {
    hide Owned, WorldOk, Accounted, Homes, AllJobsDone, Kills, DoomedJobs;
    KillAll(mgr, m);
    waits := ForceReapAll(mgr, m);
    NothingLeft(m.w, mgr.jobs);
    mgr.jobs, mgr.nextId := [], 1;
  }

  /** job_shutdown: nothing is left running or unreaped and the list is empty.  The stopped jobs
      are continued first, then every unfinished job is asked to terminate; the shell sleeps at most
      fifty times, and every group gets SIGKILL before the first wait that can block. */
  method JobShutdown(mgr: JobManager, m: Machine) returns (ghost naps: seq<Call>, ghost waits: seq<Call>)
    requires m.Valid() && Owned(m.w, mgr.jobs, multiset{}) && TableOk(mgr.jobs, mgr.nextId)
    modifies mgr, m`w, m`log, m`faults
    ensures m.Valid() && m.w.children == map[] && mgr.jobs == [] && mgr.nextId == 1
    ensures m.log ==
      old(m.log) + Conts(old(mgr.jobs)) + Terms(old(mgr.jobs)) + naps + Kills(old(mgr.jobs), |old(mgr.jobs)|) + waits
    ensures |naps| <= 50 && forall i :: 0 <= i < |naps| ==> naps[i] == Sleep
    ensures OnlyWaits(waits)
  {
    naps, waits := [], [];
    if mgr.jobs == [] {
      mgr.nextId := 1;
      NothingLeft(m.w, mgr.jobs);
      assert Kills(old(mgr.jobs), 0) == [];
      return;
    }
    hide Owned, JobOk, WorldOk, Accounted, Homes, Conts, Terms, Kills;
    naps := AskAndPoll(mgr, m);
    SameKills(old(mgr.jobs), mgr.jobs);
    waits := KillAndReap(mgr, m);
  }
}
