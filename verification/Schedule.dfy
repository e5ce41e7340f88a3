/**
 A job's exit status does not depend on the order in which its processes are reported: it is
 decided by the death of its last stage alone.
 */
module Schedule {
  import opened Kernel
  import opened Machines
  import opened Jobs
  import opened JobTables
  import opened Executor
  import opened MainLoop

  /** What can happen to a listed job: a report about one of its processes (in a foreground wait
      or in a reap pass), or a continue by fg or bg. */
  datatype Event = Report(told: Told) | Continue

  ghost function After(job: Job, e: Event): Job {
    match e
    case Report(t) => Hear(job, t)
    case Continue => if job.status.JobStopped? then Continued(job) else job
  }

  ghost function Play(job: Job, es: seq<Event>): Job
    decreases |es|
  {
    if es == [] then job else Play(After(job, es[0]), es[1..])
  }

  /** The first death reported for a pid. */
  function DeathOf(es: seq<Event>, pid: Pid): Option<WaitStatus> {
    if es == [] then None
    else if es[0].Report? && es[0].told.pid == pid && IsDeath(es[0].told.status) then Some(es[0].told.status)
    else DeathOf(es[1..], pid)
  }

  lemma AfterOk(job: Job, e: Event)
    requires JobOk(job)
    ensures JobOk(After(job, e)) && SameJob(job, After(job, e))
  {
  }

  /** Whatever the schedule, the cached status is the aggregate of the processes and a process
      that is done never changes again. */
  lemma {:induction false} PlayOk(job: Job, es: seq<Event>)
    requires JobOk(job)
    ensures JobOk(Play(job, es)) && SameJob(job, Play(job, es))
    decreases |es|
  {
    if es == [] {
      SameJobReflexive(job);
    } else {
      AfterOk(job, es[0]);
      PlayOk(After(job, es[0]), es[1..]);
      SameJobTransitive(job, After(job, es[0]), Play(job, es));
    }
  }

  /** Stage j is done in the end exactly when a death was reported for it, and keeps that death. */
  lemma {:induction false} PlayDeath(job: Job, es: seq<Event>, j: nat)
    requires JobOk(job) && j < |job.procs| && !job.procs[j].status.ProcessDone?
    ensures SameJob(job, Play(job, es))
    ensures Play(job, es).procs[j].status.ProcessDone? <==> DeathOf(es, job.procs[j].pid).Some?
    ensures DeathOf(es, job.procs[j].pid).Some? ==> Play(job, es).procs[j].wait == DeathOf(es, job.procs[j].pid)
    decreases |es|
  {
    PlayOk(job, es);
    if es != [] {
      var job' := After(job, es[0]);
      AfterOk(job, es[0]);
      PlayOk(job', es[1..]);
      if job'.procs[j].status.ProcessDone? {
        assert es[0].Report? && es[0].told.pid == job.procs[j].pid && IsDeath(es[0].told.status);
      } else {
        assert !(es[0].Report? && es[0].told.pid == job.procs[j].pid && IsDeath(es[0].told.status));
        PlayDeath(job', es[1..], j);
      }
    }
  }

  function LastPid(job: Job): Pid
    requires job.procs != []
  {
    job.procs[|job.procs| - 1].pid
  }

  /** A job none of whose processes is done yet. */
  ghost predicate Started(job: Job) {
    JobOk(job) && forall j :: 0 <= j < |job.procs| ==> !job.procs[j].status.ProcessDone?
  }

  /** The status of a finished job is the exit code, or 128 plus the signal, of its last stage. */
  lemma LastStageDecides(job: Job, es: seq<Event>)
    requires Started(job)
    requires Play(job, es).status.JobDone?
    ensures var death := DeathOf(es, LastPid(job));
      && death.Some? && IsDeath(death.value)
      && (death.value.Exited? ==> ExitStatus(Play(job, es)) == death.value.code)
      && (death.value.Signaled? ==> ExitStatus(Play(job, es)) == 128 + death.value.sig)
  {
    var last := |job.procs| - 1;
    PlayOk(job, es);
    PlayDeath(job, es, last);
    FinishedExitStatus(Play(job, es));
    assert JobShape(Play(job, es));
    assert ProcessOk(Play(job, es).procs[last]);
  }

  /** Two schedules that finish a job and kill its last stage the same way agree on its status,
      whatever they do in between and however they order the other stages. */
  lemma ScheduleIndependent(job: Job, es: seq<Event>, es': seq<Event>)
    requires Started(job)
    requires Play(job, es).status.JobDone? && Play(job, es').status.JobDone?
    requires DeathOf(es, LastPid(job)) == DeathOf(es', LastPid(job))
    ensures ExitStatus(Play(job, es)) == ExitStatus(Play(job, es'))
  {
    LastStageDecides(job, es);
    LastStageDecides(job, es');
  }

  // ---------------------------------------------------------------- what a launch returns

  function Reports(told: seq<Told>): seq<Event> {
    seq(|told|, i requires 0 <= i < |told| => Report(told[i]))
  }

  lemma {:induction false} PlaySnoc(job: Job, es: seq<Event>, e: Event)
    ensures Play(job, es + [e]) == After(Play(job, es), e)
    decreases |es|
  {
    if es == [] {
      assert es + [e] == [e] && [e][1..] == [];
    } else {
      assert (es + [e])[0] == es[0] && (es + [e])[1..] == es[1..] + [e];
      PlaySnoc(After(job, es[0]), es[1..], e);
    }
  }

  /** The job a foreground wait leaves behind is one of the schedules above. */
  lemma {:induction false} HeardIsPlayed(job: Job, told: seq<Told>)
    ensures Heard(job, told) == Play(job, Reports(told))
    decreases |told|
  {
    if told != [] {
      var init, t := told[..|told| - 1], told[|told| - 1];
      HeardIsPlayed(job, init);
      PlaySnoc(job, Reports(init), Report(t));
      assert Reports(told) == Reports(init) + [Report(t)];
    }
  }

  /** A foreground launch that runs to its end returns the status of the last command: the first
      death the kernel reported for the last stage, whenever it came among the other reports. */
  lemma LaunchReturnsLastStatus(now: seq<Job>, r: int, final: Job, jobs: seq<Job>, entered: Job, told: seq<Told>,
                                read: seq<Reading>, hasTty: bool, failed: bool)
    requires Waited(now, r, final, jobs, entered, told, read, hasTty, failed) && final.status.JobDone?
    requires Started(entered)
    ensures var death := DeathOf(Reports(told), LastPid(entered));
      && death.Some? && IsDeath(death.value)
      && (death.value.Exited? ==> r == death.value.code)
      && (death.value.Signaled? ==> r == 128 + death.value.sig)
  {
    HeardIsPlayed(entered, told);
    LastStageDecides(entered, Reports(told));
  }

  lemma ResumedOk(job: Job)
    requires JobOk(job)
    ensures JobOk(FrontedJob(job)) && SameJob(job, FrontedJob(job))
    ensures forall j :: 0 <= j < |job.procs| ==>
      (FrontedJob(job).procs[j].status.ProcessDone? <==> job.procs[j].status.ProcessDone?)
  {
  }

  /** So does fg, however often the job was stopped and continued before: the death of the last
      stage, whether it was on record already or came among the reports of this wait. */
  lemma FgReturnsLastStatus(jobs: seq<Job>, now: seq<Job>, i: nat, r: int, final: Job, told: seq<Told>,
                            read: seq<Reading>, hasTty: bool, failed: bool)
    requires i < |jobs| && JobOk(jobs[i])
    requires Brought(jobs, now, i, r, final, told, read, hasTty, failed) && final.status.JobDone?
    ensures
      var last := jobs[i].procs[|jobs[i].procs| - 1];
      var death := if last.status.ProcessDone? then last.wait else DeathOf(Reports(told), last.pid);
      && death.Some? && IsDeath(death.value)
      && (death.value.Exited? ==> r == death.value.code)
      && (death.value.Signaled? ==> r == 128 + death.value.sig)
  {
    var job := FrontedJob(jobs[i]);
    var j := |job.procs| - 1;
    ResumedOk(jobs[i]);
    HeardIsPlayed(job, told);
    PlayOk(job, Reports(told));
    FinishedExitStatus(final);
    if !jobs[i].procs[j].status.ProcessDone? {
      PlayDeath(job, Reports(told), j);
      assert ProcessOk(final.procs[j]);
    }
  }
}
