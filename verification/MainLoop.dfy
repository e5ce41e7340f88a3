/**
 The foreground and background builtins, the job limit, and whole runs of the main loop.
 */
module MainLoop {
  import opened Kernel
  import opened Machines
  import opened Jobs
  import opened JobTables
  import opened LaunchState
  import opened Terminal
  import opened Launch
  import opened Executor
  import opened Spawn
  import opened Execute
  import opened Modes
  import opened Shutdown

  const ERR_PARSE := -7

  // ---------------------------------------------------------------- the job limit

  lemma {:induction false} AllActive(jobs: seq<Job>, n: nat)
    requires NoneDone(jobs) && n <= |jobs|
    ensures |set k | 0 <= k < n && Active(jobs[k])| == n
  {
    if n > 0 {
      AllActive(jobs, n - 1);
      var before := set k | 0 <= k < n - 1 && Active(jobs[k]);
      assert (set k | 0 <= k < n && Active(jobs[k])) == before + {n - 1};
    }
  }

  /** execute_command: refuses to start when max_job jobs are active. */
  method ExecuteCommand(sh: Shell, chain: seq<Cmd>, background: bool)
    returns (r: int, ghost f: Option<Forking>, ghost final: Job)
    requires sh.Ready() && sh.running && chain != []
    modifies sh`running, sh`lostTerminal, sh.m, sh.mgr
    ensures Clean(sh) && r <= 255
    ensures |old(sh.mgr.jobs)| >= sh.maxJob ==> r == ERR_JOB && unchanged(sh) && unchanged(sh.m) && unchanged(sh.mgr)
    ensures |old(sh.mgr.jobs)| < sh.maxJob ==> LaunchResult(sh, chain, background, r, f, final, old(Snapshot(sh)))
    ensures sh.running && |old(sh.mgr.jobs)| < sh.maxJob ==> |sh.mgr.jobs| <= sh.maxJob
    ensures r < 0 && sh.running ==> sh.mgr.jobs == old(sh.mgr.jobs)
    ensures r < 0 ==> sh.m.faults > old(sh.m.faults) || |chain| > 64 || |old(sh.mgr.jobs)| >= sh.maxJob
  {
    hide Synced, TableOk, WellForked, NeverReleased, WorldOk, Accounted, Homes, Opens, GatesShut, Heard;
    AllActive(sh.mgr.jobs, |sh.mgr.jobs|);
    var n := sh.mgr.CountActive();
    f, final := None, NO_JOB;
    if n >= sh.maxJob { return ERR_JOB, f, final; }
    if |chain| > 1 {
      r, f, final := ExecutePipeline(sh, chain, background);
    } else {
      assert chain == [chain[0]];
      r, f, final := ExecuteSingle(sh, chain[0], background);
    }
  }

  // ---------------------------------------------------------------- fg and bg

  ghost const NO_JOB := Job(0, 0, JobRunning, "", [], None)

  ghost predicate FirstActive(jobs: seq<Job>, i: int) {
    0 <= i < |jobs| && !jobs[i].status.JobDone? && forall k :: 0 <= k < i ==> jobs[k].status.JobDone?
  }

  ghost predicate FirstStopped(jobs: seq<Job>, i: int) {
    0 <= i < |jobs| && jobs[i].status.JobStopped? && forall k :: 0 <= k < i ==> !jobs[k].status.JobStopped?
  }

  method FindActive(mgr: JobManager) returns (i: int)
    ensures i >= 0 ==> FirstActive(mgr.jobs, i)
    ensures i < 0 ==> forall k :: 0 <= k < |mgr.jobs| ==> mgr.jobs[k].status.JobDone?
  {
    i := 0;
    while i < |mgr.jobs|
      invariant 0 <= i <= |mgr.jobs| && forall k :: 0 <= k < i ==> mgr.jobs[k].status.JobDone?
    {
      if mgr.jobs[i].status.JobRunning? || mgr.jobs[i].status.JobStopped? { return; }
      i := i + 1;
    }
    i := -1;
  }

  method FindStopped(mgr: JobManager) returns (i: int)
    ensures i >= 0 ==> FirstStopped(mgr.jobs, i)
    ensures i < 0 ==> forall k :: 0 <= k < |mgr.jobs| ==> !mgr.jobs[k].status.JobStopped?
  {
    i := 0;
    while i < |mgr.jobs|
      invariant 0 <= i <= |mgr.jobs| && forall k :: 0 <= k < i ==> !mgr.jobs[k].status.JobStopped?
    {
      if mgr.jobs[i].status.JobStopped? { return; }
      i := i + 1;
    }
    i := -1;
  }

  /** The terminal calls of fg, and the signal after them. */
  function FrontCalls(hasTty: bool, job: Job): seq<Call> {
    if !hasTty then []
    else [SetPgrp(job.pgid)] + if job.modes.Some? then [SetAttr(job.modes.value)] else []
  }

  function WakeCalls(job: Job): seq<Call> {
    if job.status.JobStopped? then [KillGroup(job.pgid, SIGCONT)] else []
  }

  /** A job as fg waits for it. */
  ghost function FrontedJob(job: Job): Job { if job.status.JobStopped? then Continued(job) else job }

  /** fg hands the terminal to the job, with the modes the job had when it stopped. */
  method HandOver(sh: Shell, i: nat) returns (r: int)
    requires sh.m.Valid() && i < |sh.mgr.jobs| && sh.mgr.jobs[i].pgid > 0
    requires Synced(sh.m.w, sh.mgr.jobs, multiset{})
    modifies sh`lostTerminal, sh.m`w, sh.m`log, sh.m`faults
    ensures sh.m.Valid() && Synced(sh.m.w, sh.mgr.jobs, multiset{})
    ensures sh.m.faults >= old(sh.m.faults)
    ensures r != OK ==> r < 0 && sh.m.faults > old(sh.m.faults) && (old(sh.TerminalOk()) ==> sh.TerminalOk())
    ensures r == OK ==> sh.lostTerminal == old(sh.lostTerminal)
    ensures r == OK ==> sh.m.log == old(sh.m.log) + FrontCalls(sh.m.hasTty, sh.mgr.jobs[i])
  {
    hide Synced, WorldOk, Accounted, Homes, Drifts;
    var m, mgr := sh.m, sh.mgr;
    ghost var w0, jobs := m.w, mgr.jobs;
    var ok := SetForeground(m, mgr.jobs[i].pgid);
    TtyCall(w0, w0.tty.(fg := jobs[i].pgid), m.w, jobs, m.hasTty, ok);
    if !ok {
      if m.w != w0 && w0.tty.fg == m.shellPgid { TtyKept(w0, m.w, m.shellPgid); }
      return ERR_UNKNOWN;
    }
    if mgr.jobs[i].modes.Some? {
      ghost var w1 := m.w;
      ok := SetModes(m, mgr.jobs[i].modes.value);
      TtyCall(w1, w1.tty.(modes := jobs[i].modes.value), m.w, jobs, m.hasTty, ok);
      if !ok {
        sh.RestoreUnchecked(jobs);
        return ERR_UNKNOWN;
      }
    }
    r := OK;
  }

  /** The first half of builtin_fg: hand over the terminal, give the job back the modes it had
      when it stopped, and only then continue it. */
  method Resume(sh: Shell, i: nat) returns (r: int)
    requires sh.m.Valid() && sh.running && i < |sh.mgr.jobs|
    requires Synced(sh.m.w, sh.mgr.jobs, multiset{}) && TableOk(sh.mgr.jobs, sh.mgr.nextId)
    modifies sh`lostTerminal, sh.m`w, sh.m`log, sh.m`faults, sh.mgr`jobs
    ensures sh.m.Valid() && Synced(sh.m.w, sh.mgr.jobs, multiset{}) && TableOk(sh.mgr.jobs, sh.mgr.nextId)
    ensures r == OK ==> sh.lostTerminal == old(sh.lostTerminal)
    ensures sh.m.faults >= old(sh.m.faults) && (r != OK ==> r < 0 && sh.m.faults > old(sh.m.faults))
    ensures sh.mgr.jobs == if r == OK then old(sh.mgr.jobs)[i := FrontedJob(old(sh.mgr.jobs)[i])] else old(sh.mgr.jobs)
    ensures SameJob(old(sh.mgr.jobs)[i], sh.mgr.jobs[i])
    ensures r != OK && old(sh.TerminalOk()) ==> sh.TerminalOk()
    ensures r == OK ==>
      sh.m.log == old(sh.m.log) + FrontCalls(sh.m.hasTty, old(sh.mgr.jobs)[i]) + WakeCalls(old(sh.mgr.jobs)[i])
  {
    assert JobOk(sh.mgr.jobs[i]);
    hide Synced, TableOk, JobOk, WorldOk, Accounted, Homes, Drifts, SameJob, FrontCalls, Continued;
    var mgr := sh.mgr;
    ghost var jobs := mgr.jobs;
    SameJobReflexive(jobs[i]);
    r := HandOver(sh, i);
    if r != OK { return; }
    if mgr.jobs[i].status.JobStopped? {
      var ok := mgr.Continue(sh.m, i);
      if !ok {
        sh.RestoreUnchecked(jobs);
        return ERR_JOB;
      }
    }
  }

  lemma TtyCall(a: World, t: Tty, b: World, jobs: seq<Job>, hasTty: bool, ok: bool)
    requires Synced(a, jobs, multiset{})
    requires b == a || Rely(a, b) || (hasTty && ok && Rely(a.(tty := t), b))
    ensures Synced(b, jobs, multiset{})
  {
    if Rely(a, b) {
      SyncedStable(a, b, jobs, multiset{});
    } else if b != a {
      TtyDrifts(a, t, b);
      SyncedStable(a, b, jobs, multiset{});
    }
  }

  /** What a completed fg of job i has done to the table: `final` is the job as the reports of the
      wait left it, and if it stopped again it keeps the modes the terminal had. */
  ghost predicate Brought(jobs: seq<Job>, now: seq<Job>, i: int, r: int, final: Job, told: seq<Told>,
                          read: seq<Reading>, hasTty: bool, failed: bool)
    requires 0 <= i < |jobs|
  {
    && final == Heard(FrontedJob(jobs[i]), told) && SameJob(jobs[i], final)
    && (|| (final.status.JobDone? && now == jobs[..i] + jobs[i + 1..] && r == ExitStatus(final) && read == [])
        || (&& final.status.JobStopped? && r == OK && ReadOnce(read, jobs[i].pgid, hasTty, failed)
            && now == jobs[i := final.(modes := if hasTty then KeptModes(jobs[i].modes, read) else Some(0))]))
  }

  lemma BroughtBack(jobs: seq<Job>, waited: seq<Job>, now: seq<Job>, i: nat, r: int, told: seq<Told>,
                    read: seq<Reading>, hasTty: bool, modes: int, failed: bool)
    requires i < |jobs| == |waited| && waited[i] == Heard(FrontedJob(jobs[i]), told) && !waited[i].status.JobRunning?
    requires waited == jobs[i := waited[i]] && SameJob(jobs[i], waited[i])
    requires waited[i].status.JobDone? ==>
      now == waited[..i] + waited[i + 1..] && r == ExitStatus(waited[i]) && read == []
    requires waited[i].status.JobStopped? ==> r == OK && exists f ::
      && now == waited[i := Saved(waited[i], true, hasTty, modes, f)] && (f ==> failed && hasTty)
      && read == if hasTty && !f then [Reading(jobs[i].pgid, modes)] else []
    ensures Brought(jobs, now, i, r, waited[i], told, read, hasTty, failed) && |now| <= |jobs|
  {
    hide Heard, FrontedJob, ExitStatus;
    assert waited[i].modes == jobs[i].modes;
    assert waited[..i] + waited[i + 1..] == jobs[..i] + jobs[i + 1..];
  }

  lemma FrontResumed(log: seq<Call>, job: Job)
    ensures Front(log + FrontCalls(true, job) + WakeCalls(job)) == job.pgid
  {
    var all := log + FrontCalls(true, job) + WakeCalls(job);
    if job.status.JobStopped? {
      assert all[..|all| - 1] == log + FrontCalls(true, job);
      FrontFronted(log, job);
    } else {
      assert all == log + FrontCalls(true, job);
      FrontFronted(log, job);
    }
  }

  lemma FrontFronted(log: seq<Call>, job: Job)
    ensures Front(log + FrontCalls(true, job)) == job.pgid
  {
    var all := log + FrontCalls(true, job);
    if job.modes.Some? {
      assert all[..|all| - 1] == log + [SetPgrp(job.pgid)];
    }
  }

  /** builtin_fg: the newest active job is brought to the front and waited for. */
  method Fg(sh: Shell) returns (r: int, ghost chosen: int, ghost final: Job)
    requires sh.Ready() && sh.running
    modifies sh`running, sh`lostTerminal, sh.m`w, sh.m`log, sh.m`faults, sh.m`reports, sh.m`got, sh.m`readings
    modifies sh.mgr`jobs
    ensures Clean(sh) && r <= 255 && |sh.mgr.jobs| <= |old(sh.mgr.jobs)|
    ensures chosen < 0 <==> old(sh.mgr.jobs) == []
    ensures chosen < 0 ==> r == ERR_JOB && sh.mgr.jobs == old(sh.mgr.jobs)
    ensures chosen >= 0 ==> FirstActive(old(sh.mgr.jobs), chosen) && (r < 0 ==> sh.m.faults > old(sh.m.faults))
    ensures r < 0 && sh.running ==> sh.m.readings == old(sh.m.readings) && From(old(sh.mgr.jobs), sh.mgr.jobs)
    ensures r >= 0 ==> Foregrounded(sh, r, chosen, final, old(Snapshot(sh)), old(sh.m.log))
  {
    hide Synced, TableOk, WorldOk, Accounted, Homes, Drifts, SameJob, FrontCalls, WakeCalls, Brought, FrontedJob, Front,
         From, Mine;
    var m, mgr := sh.m, sh.mgr;
    ghost var jobs, b := mgr.jobs, Snapshot(sh);
    PromptFacts(m.w, jobs, mgr.nextId);
    assert jobs != [] ==> !jobs[0].status.JobDone?;
    FromSame(jobs, jobs);
    var i := FindActive(mgr);
    chosen, final := i, NO_JOB;
    if i < 0 {
      r := ERR_JOB;
      return;
    }
    r := Resume(sh, i);
    if r != OK { return; }
    FrontResumed(old(m.log), jobs[i]);
    r, final := WaitInFront(sh, i, b);
  }

  /** The second half of builtin_fg: wait for the job it has resumed, then take the terminal back. */
  method WaitInFront(sh: Shell, i: nat, ghost b: Before) returns (r: int, ghost final: Job)
    requires sh.m.Valid() && sh.running && Synced(sh.m.w, sh.mgr.jobs, multiset{})
    requires TableOk(sh.mgr.jobs, sh.mgr.nextId)
    requires i < |b.jobs| && NoneDone(b.jobs) && sh.mgr.jobs == b.jobs[i := FrontedJob(b.jobs[i])]
    requires SameJob(b.jobs[i], sh.mgr.jobs[i]) && (sh.m.hasTty ==> Front(sh.m.log) == b.jobs[i].pgid)
    requires sh.m.readings == b.readings && |sh.m.got| == b.heard && sh.m.faults >= b.faults
    modifies sh`running, sh`lostTerminal, sh.m`w, sh.m`log, sh.m`faults, sh.m`reports, sh.m`got, sh.m`readings
    modifies sh.mgr`jobs
    ensures sh.Settled() && r <= 255 && |sh.mgr.jobs| <= |b.jobs|
    ensures sh.m.faults >= old(sh.m.faults) && (r < 0 ==> sh.m.faults > old(sh.m.faults))
    ensures r < 0 && sh.running ==> sh.m.readings == b.readings && From(b.jobs, sh.mgr.jobs)
    ensures r >= 0 ==>
      && b.heard <= |sh.m.got| && b.readings <= sh.m.readings && old(sh.m.log) <= sh.m.log
      && Brought(b.jobs, sh.mgr.jobs, i, r, final, sh.m.got[b.heard..], sh.m.readings[|b.readings|..],
                 sh.m.hasTty, sh.m.faults > b.faults)
    ensures sh.lostTerminal ==> old(sh.lostTerminal) || sh.m.faults > old(sh.m.faults)
    ensures sh.running ==> sh.TerminalOk()
  {
    hide Synced, TableOk, WorldOk, Accounted, Homes, Drifts, SameJob, Brought, FrontedJob, Heard, ExitStatus, Saved,
         Front, From, Mine;
    var m, mgr := sh.m, sh.mgr;
    ghost var jobs, resumed := b.jobs, mgr.jobs[i];
    var ok := mgr.WaitForeground(m, i);
    ghost var waited := mgr.jobs;
    SameJobTransitive(jobs[i], resumed, waited[i]);
    assert forall k :: 0 <= k < |jobs| && k != i ==> waited[k] == jobs[k];
    final := waited[i];
    if !ok {
      FromWaited(jobs, waited, i);
      sh.RestoreUnchecked(mgr.jobs);
      return ERR_UNKNOWN, final;
    }
    ghost var modes := m.w.tty.modes;
    r := FinishForeground(sh, i, true);
    if r >= 0 {
      BroughtBack(jobs, waited, mgr.jobs, i, r, m.got[b.heard..], m.readings[|b.readings|..],
                  m.hasTty, modes, m.faults > b.faults);
    }
  }

  lemma FromWaited(jobs: seq<Job>, waited: seq<Job>, i: nat)
    requires i < |jobs| == |waited| && waited == jobs[i := waited[i]] && SameJob(jobs[i], waited[i])
    ensures From(jobs, waited)
  {
    FromSame(jobs, waited);
  }

  /** What a completed fg has done: table and modes as Brought says, and before the wait the calls
      that hand over the terminal, set the job's modes and wake the job, in that order. */
  ghost predicate Foregrounded(sh: Shell, r: int, chosen: int, final: Job, b: Before, log: seq<Call>)
    reads sh.m, sh.mgr
  {
    && 0 <= chosen < |b.jobs| && b.heard <= |sh.m.got| && b.readings <= sh.m.readings
    && Brought(b.jobs, sh.mgr.jobs, chosen, r, final, sh.m.got[b.heard..], sh.m.readings[|b.readings|..],
               sh.m.hasTty, sh.m.faults > b.faults)
    && log + FrontCalls(sh.m.hasTty, b.jobs[chosen]) + WakeCalls(b.jobs[chosen]) <= sh.m.log
  }

  lemma SoundForeground(sh: Shell, r: int, chosen: int, final: Job, b: Before, log: seq<Call>)
    requires Foregrounded(sh, r, chosen, final, b, log) && sh.Settled() && sh.m.hasTty && Sound(b.readings, b.jobs)
    ensures Sound(sh.m.readings, sh.mgr.jobs)
  {
    hide TableOk, Synced, Heard, FrontedJob, ExitStatus, FrontCalls, WakeCalls, LastRead;
    var read := sh.m.readings[|b.readings|..];
    assert sh.m.readings == b.readings + read;
    if final.status.JobStopped? {
      SoundStopped(b.readings, read, b.jobs, sh.mgr.jobs, sh.mgr.nextId, chosen, sh.m.faults > b.faults);
    } else {
      assert sh.m.readings == b.readings;
      FromDropped(b.jobs, chosen);
      SoundFrom(b.readings, b.jobs, sh.mgr.jobs);
    }
  }

  // ---------------------------------------------------------------- the modes come back

  /** A launch that leaves its job stopped, followed by fg: the job is the one fg picks, and if the
      modes could be read then fg hands it the terminal, sets exactly those modes, and only then
      continues it. */
  lemma StoppedThenResumed(now: seq<Job>, r: int, final: Job, jobs: seq<Job>, entered: Job, told: seq<Told>,
                           read: seq<Reading>, failed: bool)
    requires Waited(now, r, final, jobs, entered, told, read, true, failed) && final.status.JobStopped?
    ensures FirstActive(now, 0) && now[0].pgid == entered.pgid && (read == [] ==> failed)
    ensures read != [] ==> read == [Reading(entered.pgid, read[0].modes)]
    ensures read != [] ==>
      FrontCalls(true, now[0]) + WakeCalls(now[0])
      == [SetPgrp(entered.pgid), SetAttr(read[0].modes), KillGroup(entered.pgid, SIGCONT)]
  {
    assert now[0].status.JobStopped?;
  }

  /** The same after any run in between: whatever job fg picks, the modes it sets are the last ones
      read while that job had the terminal, and only a stopped job is woken, after that. */
  lemma ModesComeBack(readings: seq<Reading>, jobs: seq<Job>, i: nat)
    requires Sound(readings, jobs) && i < |jobs|
    ensures jobs[i].modes.Some? ==> LastRead(readings, jobs[i].pgid).Some?
    ensures FrontCalls(true, jobs[i]) + WakeCalls(jobs[i])
         == [SetPgrp(jobs[i].pgid)]
            + (if jobs[i].modes.Some? then [SetAttr(LastRead(readings, jobs[i].pgid).value)] else [])
            + (if jobs[i].status.JobStopped? then [KillGroup(jobs[i].pgid, SIGCONT)] else [])
  {
  }

  /** builtin_bg: the newest stopped job is continued in the background. */
  method Bg(sh: Shell) returns (r: int, ghost chosen: int)
    requires sh.Ready() && sh.running
    modifies sh.m`w, sh.m`log, sh.m`faults, sh.mgr`jobs
    ensures Clean(sh) && |sh.mgr.jobs| == |old(sh.mgr.jobs)|
    ensures chosen < 0 <==> forall k :: 0 <= k < |old(sh.mgr.jobs)| ==> !old(sh.mgr.jobs)[k].status.JobStopped?
    ensures chosen >= 0 ==> FirstStopped(old(sh.mgr.jobs), chosen)
    ensures r == OK || r == ERR_JOB
    ensures r == OK <==> chosen >= 0 && sh.m.faults == old(sh.m.faults)
    ensures r == OK ==>
      && sh.mgr.jobs == old(sh.mgr.jobs)[chosen := Continued(old(sh.mgr.jobs)[chosen])]
      && sh.mgr.jobs[chosen].status.JobRunning?
      && sh.m.log == old(sh.m.log) + [KillGroup(old(sh.mgr.jobs)[chosen].pgid, SIGCONT)]
    ensures r != OK ==> sh.mgr.jobs == old(sh.mgr.jobs)
    ensures From(old(sh.mgr.jobs), sh.mgr.jobs)
  {
    hide Synced, TableOk, WorldOk, Accounted, Homes, Drifts, SameJob, Continued, From;
    var m, mgr := sh.m, sh.mgr;
    ghost var jobs, w0 := mgr.jobs, m.w;
    PromptFacts(m.w, jobs, mgr.nextId);
    FromSame(jobs, jobs);
    var i := FindStopped(mgr);
    chosen := i;
    if i < 0 {
      r := ERR_JOB;
      return;
    }
    var ok := mgr.Continue(m, i);
    if !ok {
      r := ERR_JOB;
      return;
    }
    assert forall k :: 0 <= k < |jobs| && k != i ==> mgr.jobs[k] == jobs[k];
    FromWaited(jobs, mgr.jobs, i);
    r := OK;
  }

  // ---------------------------------------------------------------- whole runs

  /** shell_normalize_status */
  function Normalized(status: int): (r: int)
    ensures (status < 0 ==> r == 1) && (status >= 0 ==> r == status)
  {
    if status < 0 then 1 else status
  }

  /** The child-event branch of the loop: job_reap, then job_cleanup_done. */
  method ReapAndClean(sh: Shell) returns (ghost reaped: seq<Job>)
    requires sh.Ready()
    modifies sh.m`w, sh.mgr`jobs
    ensures sh.Ready() && |sh.mgr.jobs| <= |old(sh.mgr.jobs)| && sh.m.fds == old(sh.m.fds)
    ensures |reaped| == |old(sh.mgr.jobs)| && sh.mgr.jobs == NotDone(reaped)
    ensures forall i :: 0 <= i < |reaped| ==> PolledJob(old(sh.m.w), old(sh.mgr.jobs)[i], reaped[i])
    ensures (old(Mine(sh.m)) ==> Mine(sh.m)) && From(old(sh.mgr.jobs), sh.mgr.jobs)
  {
    hide Synced, TableOk, WorldOk, Accounted, Homes, SameJobs, NotDone, PolledJob, From;
    PromptFacts(sh.m.w, sh.mgr.jobs, sh.mgr.nextId);
    sh.mgr.Reap(sh.m);
    reaped := sh.mgr.jobs;
    SameCount(old(sh.mgr.jobs), reaped);
    FromReaped(old(sh.mgr.jobs), reaped);
    sh.mgr.CleanupDone();
    CleanupAtPrompt(sh.m.w, reaped, sh.mgr.nextId);
    NotDoneCount(reaped);
  }

  lemma SameCount(a: seq<Job>, b: seq<Job>)
    requires SameJobs(a, b)
    ensures |a| == |b|
  {
  }

  lemma {:induction false} NotDoneCount(jobs: seq<Job>)
    ensures |NotDone(jobs)| <= |jobs|
  {
    if jobs != [] { NotDoneCount(jobs[1..]); }
  }

  /** One thing the main loop does: handle child events, run a command, a builtin, or reload. */
  datatype Op =
    | ChildEvents
    | Run(chain: seq<Cmd>, background: bool)
    | Foreground
    | Background
    | Reload(maxJob: int)
    | Other(status: int)
    | Exit

  predicate OpOk(op: Op) {
    match op
    case Run(chain, _) => chain != []
    case Reload(max) => max > 0
    case Other(status) => status <= 255
    case _ => true
  }

  /** The gate a command opens: one for the whole chain, its job at the head of the list with a
      process for each command, and the terminal its group's if the shell has one and the command
      runs in the foreground. */
  ghost predicate OpenedBy(op: Op, o: Opening, hasTty: bool) {
    && op.Run? && o.stamp.listed != [] && |o.stamp.listed[0].pids| == |op.chain|
    && (hasTty && !op.background ==> o.stamp.fg == o.stamp.listed[0].pgid)
  }

  ghost predicate OneOpening(op: Op, before: seq<Opening>, now: seq<Opening>, hasTty: bool) {
    now == before || (|now| == |before| + 1 && now[..|before|] == before && OpenedBy(op, now[|before|], hasTty))
  }

  lemma LaunchOpens(sh: Shell, op: Op, r: int, f: Option<Forking>, final: Job, b: Before)
    requires op.Run? && LaunchResult(sh, op.chain, op.background, r, f, final, b)
    ensures OneOpening(op, b.openings, sh.m.openings, sh.m.hasTty)
  {
    hide Ended, GatesShut, Held, NeverReleased;
    if sh.m.openings != b.openings {
      var entered := Entered(b.nextId, f.value.pgid, op.chain[0].name, f.value.pids);
      EnteredPids(b.nextId, f.value.pgid, op.chain[0].name, f.value.pids);
      assert Listings([entered] + b.jobs)[0] == ListingOf(entered);
    }
  }

  /** One turn of the loop; `r` is what the command or builtin returned, and the ghost results are
      those of the launch, fg or bg it ran. */
  method Turn(sh: Shell, op: Op) returns (r: int, ghost f: Option<Forking>, ghost final: Job, ghost chosen: int)
    requires sh.Ready() && sh.running && OpOk(op) && 0 <= sh.lastStatus <= 255
    modifies sh, sh.m, sh.mgr
    ensures Clean(sh) && 0 <= sh.lastStatus <= 255
    ensures op.ChildEvents? ==> sh.lastStatus == old(sh.lastStatus)
    ensures !op.ChildEvents? ==> (r < 0 ==> sh.lastStatus == 1) && (r >= 0 ==> sh.lastStatus == r)
    ensures op.Exit? ==> !sh.running && sh.lastStatus == old(sh.lastStatus)
    ensures sh.running ==> |sh.mgr.jobs| <= |old(sh.mgr.jobs)| || |sh.mgr.jobs| <= sh.maxJob
    ensures sh.maxJob == (if op.Reload? then op.maxJob else old(sh.maxJob))
    ensures op.Run? && |old(sh.mgr.jobs)| < sh.maxJob ==>
      LaunchResult(sh, op.chain, op.background, r, f, final, old(Snapshot(sh)))
    ensures op.Run? && r < 0 ==>
      sh.m.faults > old(sh.m.faults) || |op.chain| > 64 || |old(sh.mgr.jobs)| >= sh.maxJob
    ensures op.Foreground? && r >= 0 ==>
      FirstActive(old(sh.mgr.jobs), chosen) && Foregrounded(sh, r, chosen, final, old(Snapshot(sh)), old(sh.m.log))
    ensures op.Background? && r >= 0 ==>
      && FirstStopped(old(sh.mgr.jobs), chosen)
      && sh.mgr.jobs == old(sh.mgr.jobs)[chosen := Continued(old(sh.mgr.jobs)[chosen])]
    ensures OneOpening(op, old(sh.m.openings), sh.m.openings, sh.m.hasTty)
    ensures sh.m.hasTty && sh.running && old(Sound(sh.m.readings, sh.mgr.jobs)) ==> Sound(sh.m.readings, sh.mgr.jobs)
  {
    hide Synced, TableOk, WorldOk, Accounted, Homes, LaunchResult, Foregrounded, Continued, FirstActive, FirstStopped,
         Sound, From, OpenedBy;
    r, f, final, chosen := OK, None, NO_JOB, -1;
    ghost var b, log := Snapshot(sh), sh.m.log;
    match op {
      case ChildEvents =>
        ghost var reaped := ReapAndClean(sh);
        KeepSound(sh.m.readings, b.jobs, sh.mgr.jobs);
        return;
      case Run(chain, background) =>
        r, f, final := ExecuteCommand(sh, chain, background);
        if |b.jobs| < sh.maxJob { RanSound(sh, op, r, f, final, b); }
      case Foreground =>
        r, chosen, final := Fg(sh);
        FgSound(sh, r, chosen, final, b, log);
      case Background =>
        r, chosen := Bg(sh);
        KeepSound(sh.m.readings, b.jobs, sh.mgr.jobs);
      case Reload(max) =>
        sh.maxJob := max;
      case Other(status) =>
        r := status;
      case Exit =>
        sh.running := false;
        r := sh.lastStatus;
    }
    sh.lastStatus := Normalized(r);
  }

  lemma KeepSound(readings: seq<Reading>, jobs: seq<Job>, now: seq<Job>)
    requires From(jobs, now)
    ensures Sound(readings, jobs) ==> Sound(readings, now)
  {
    if Sound(readings, jobs) { SoundFrom(readings, jobs, now); }
  }

  lemma RanSound(sh: Shell, op: Op, r: int, f: Option<Forking>, final: Job, b: Before)
    requires op.Run? && LaunchResult(sh, op.chain, op.background, r, f, final, b) && sh.Settled()
    ensures OneOpening(op, b.openings, sh.m.openings, sh.m.hasTty)
    ensures sh.m.hasTty && sh.running && Sound(b.readings, b.jobs) ==> Sound(sh.m.readings, sh.mgr.jobs)
  {
    hide LaunchResult, Sound, OneOpening;
    LaunchOpens(sh, op, r, f, final, b);
    if sh.m.hasTty && sh.running && Sound(b.readings, b.jobs) {
      SoundLaunch(sh, op.chain, op.background, r, f, final, b);
    }
  }

  lemma FgSound(sh: Shell, r: int, chosen: int, final: Job, b: Before, log: seq<Call>)
    requires sh.Settled() && (r >= 0 ==> Foregrounded(sh, r, chosen, final, b, log))
    requires r < 0 && sh.running ==> sh.m.readings == b.readings && From(b.jobs, sh.mgr.jobs)
    ensures sh.m.hasTty && sh.running && Sound(b.readings, b.jobs) ==> Sound(sh.m.readings, sh.mgr.jobs)
  {
    hide Foregrounded, Sound, From;
    if sh.m.hasTty && sh.running && Sound(b.readings, b.jobs) {
      if r >= 0 {
        SoundForeground(sh, r, chosen, final, b, log);
      } else {
        SoundFrom(b.readings, b.jobs, sh.mgr.jobs);
      }
    }
  }

  function Largest(ops: seq<Op>, max: int): (m: int)
    ensures m >= max && forall i :: 0 <= i < |ops| && ops[i].Reload? ==> m >= ops[i].maxJob
    ensures m == max || exists i :: 0 <= i < |ops| && ops[i].Reload? && ops[i].maxJob == m
  {
    if ops == [] then max
    else Largest(ops[1..], if ops[0].Reload? && ops[0].maxJob > max then ops[0].maxJob else max)
  }

  /** Every gate opened from number `first` on was opened by one of these operations. */
  ghost predicate OpenedByRun(ops: seq<Op>, openings: seq<Opening>, first: nat, hasTty: bool) {
    forall k :: first <= k < |openings| ==> exists i :: 0 <= i < |ops| && OpenedBy(ops[i], openings[k], hasTty)
  }

  lemma OpenedMore(ops: seq<Op>, i: nat, before: seq<Opening>, now: seq<Opening>, first: nat, hasTty: bool)
    requires i < |ops| && OpenedByRun(ops, before, first, hasTty) && OneOpening(ops[i], before, now, hasTty)
    ensures OpenedByRun(ops, now, first, hasTty) && before <= now
  {
    hide OpenedBy;
    if now != before {
      forall k | first <= k < |now| ensures exists j :: 0 <= j < |ops| && OpenedBy(ops[j], now[k], hasTty) {
        if k < |before| {
          assert now[k] == before[k];
        } else {
          assert OpenedBy(ops[i], now[k], hasTty);
        }
      }
    }
  }

  /** Every run of the main loop, whatever commands, failures and schedules it meets: as long as
      the shell runs it is back at its prompt with a table that accounts for exactly its children,
      its descriptors are those it started with and never more than five above them, its status is
      in 0..255, and the number of jobs never exceeds the largest limit in force so far.  Gates are
      opened only for commands, each with its job listed and the terminal handed over, and the
      modes jobs remember are the last ones read while they had the terminal. */
  method Serve(sh: Shell, ops: seq<Op>)
    requires sh.Ready() && sh.running && 0 <= sh.lastStatus <= 255 && sh.maxJob > 0
    requires |sh.mgr.jobs| <= sh.maxJob && sh.m.peak <= |sh.m.fds| + 5
    requires forall i :: 0 <= i < |ops| ==> OpOk(ops[i])
    modifies sh, sh.m, sh.mgr
    ensures sh.Settled() && 0 <= sh.lastStatus <= 255
    ensures sh.m.fds == old(sh.m.fds) && sh.m.peak <= |sh.m.fds| + 5
    ensures sh.running ==> AtPrompt(sh.m.w, sh.mgr.jobs, sh.mgr.nextId)
    ensures sh.running ==> |sh.mgr.jobs| <= Largest(ops, old(sh.maxJob))
    ensures old(sh.TerminalOk()) && sh.running ==> sh.TerminalOk()
    ensures old(sh.m.openings) <= sh.m.openings && OpenedByRun(ops, sh.m.openings, |old(sh.m.openings)|, sh.m.hasTty)
    ensures sh.m.hasTty && sh.running && old(Sound(sh.m.readings, sh.mgr.jobs)) ==> Sound(sh.m.readings, sh.mgr.jobs)
  {
    hide Synced, TableOk, WorldOk, Accounted, Homes, LaunchResult, Foregrounded, Continued, Sound, OneOpening,
         OpenedBy, Mine;
    var i := 0;
    ghost var limit := sh.maxJob;
    while i < |ops| && sh.running
      invariant 0 <= i <= |ops| && sh.Settled() && 0 <= sh.lastStatus <= 255 && 0 < sh.maxJob <= limit
      invariant sh.m.fds == old(sh.m.fds) && sh.m.peak <= |sh.m.fds| + 5
      invariant sh.running ==> |sh.mgr.jobs| <= limit
      invariant Largest(ops[i..], limit) == Largest(ops, old(sh.maxJob))
      invariant old(sh.TerminalOk()) && sh.running ==> sh.TerminalOk()
      invariant old(sh.m.openings) <= sh.m.openings
      invariant OpenedByRun(ops, sh.m.openings, |old(sh.m.openings)|, sh.m.hasTty)
      invariant sh.m.hasTty && sh.running && old(Sound(sh.m.readings, sh.mgr.jobs)) ==>
        Sound(sh.m.readings, sh.mgr.jobs)
    {
      assert ops[i..][1..] == ops[i + 1..];
      if ops[i].Reload? && ops[i].maxJob > limit { limit := ops[i].maxJob; }
      ghost var openings := sh.m.openings;
      ghost var f, final, chosen;
      var r;
      r, f, final, chosen := Turn(sh, ops[i]);
      OpenedMore(ops, i, openings, sh.m.openings, |old(sh.m.openings)|, sh.m.hasTty);
      i := i + 1;
    }
  }

  /** Gate safety over a whole run that began with no gate open: a child that has passed its gate
      was released by a command of the run, as a process of the job that headed the list, is in
      that job's group, and the terminal was that group's if the command ran in the foreground. */
  lemma PassedByCommand(m: Machine, ops: seq<Op>, p: Pid)
    requires m.Valid() && OpenedByRun(ops, m.openings, 0, m.hasTty)
    requires p in m.w.children && m.w.children[p].phase.Passed?
    ensures exists i, o :: 0 <= i < |ops| && OpeningOf(m.w, p, o) && OpenedBy(ops[i], o, m.hasTty)
  {
    PassedWasOpened(m, p);
    var o :| o in m.openings && OpeningOf(m.w, p, o);
    var k :| 0 <= k < |m.openings| && m.openings[k] == o;
    var i :| 0 <= i < |ops| && OpenedBy(ops[i], m.openings[k], m.hasTty);
  }

  /** A whole session: start, any run, shutdown.  It ends with no child and no job, whatever
      happened, and with the descriptors it started with. */
  method Session(hasTty: bool, shellPgid: Pid, shellModes: int, reports: nat, maxJob: int, ops: seq<Op>)
    returns (sh: Shell)
    requires shellPgid > 0 && maxJob > 0 && forall i :: 0 <= i < |ops| ==> OpOk(ops[i])
    ensures fresh(sh) && fresh(sh.m) && fresh(sh.mgr)
    ensures sh.m.w.children == map[] && sh.mgr.jobs == [] && sh.mgr.nextId == 1
    ensures sh.m.fds.Keys == {0, 1, 2, 3, 4} && sh.m.peak <= |sh.m.fds| + 5 && 0 <= sh.lastStatus <= 255
    ensures OpenedByRun(ops, sh.m.openings, 0, hasTty)
  {
    hide WorldOk, Accounted, Homes;
    var m := new Machine(hasTty, shellPgid, shellModes, reports);
    var mgr := new JobManager();
    sh := new Shell(m, mgr, maxJob);
    assert multiset(m.w.children.Keys) == multiset{};
    assert sh.Ready();
    Serve(sh, ops);
    ghost var naps, waits := JobShutdown(mgr, m);
  }
}
