/**
 src/executor.c: launching a command or a pipeline.
 */
module Launch {
  import opened Kernel
  import opened Machines
  import opened Jobs
  import opened JobTables
  import opened LaunchState
  import opened Rollbacks
  import opened Terminal

  const OK := 0
  const ERR_UNKNOWN := -1
  const ERR_FORK := -3
  const ERR_PIPE := -4
  const ERR_JOB := -8
  const MAX_PIPELINE := 64

  datatype Cmd = Cmd(name: string, redirect: Redirect)

  function Redirects(chain: seq<Cmd>): seq<Redirect> {
    seq(|chain|, k requires 0 <= k < |chain| => chain[k].redirect)
  }

  ghost predicate NoneDone(jobs: seq<Job>) {
    forall i :: 0 <= i < |jobs| ==> !jobs[i].status.JobDone?
  }

  /** No byte was ever written to the gate and none can be: nobody passes it, now or later. */
  ghost predicate NeverReleased(w: World, g: nat) {
    g in w.gates && !w.gates[g].open && w.gates[g].written == 0 && w.gates[g].consumed == {}
  }

  lemma FlowsNeverReleased(a: World, b: World, shell: Pid, g: nat)
    requires Flows(a, b, shell) && WorldOk(b) && g in a.gates && !a.gates[g].open && a.gates[g].written == 0
    ensures NeverReleased(b, g)
  {
  }

  lemma DriftsNeverReleased(a: World, b: World, g: nat)
    requires Drifts(a, b) && NeverReleased(a, g)
    ensures NeverReleased(b, g)
  {
  }

  class Shell {
    const m: Machine
    const mgr: JobManager
    var running: bool
    var maxJob: int
    var lastStatus: int
    var lostTerminal: bool     // the last terminal_restore failed and its result was not looked at

    constructor (m: Machine, mgr: JobManager, maxJob: int)
      ensures this.m == m && this.mgr == mgr && this.maxJob == maxJob && running && !lostTerminal && lastStatus == 0
    {
      this.m, this.mgr, this.maxJob := m, mgr, maxJob;
      running, lostTerminal, lastStatus := true, false, 0;
    }

    /** The terminal is the shell's, or the last restore failed unnoticed. */
    ghost predicate TerminalOk()
      reads this, m
    {
      lostTerminal || Mine(m)
    }

    /** The shell in its main loop. */
    ghost predicate Ready()
      reads this, m, mgr
    {
      m.Valid() && AtPrompt(m.w, mgr.jobs, mgr.nextId)
    }

    /** The same, except that a shell about to stop may keep a finished job. */
    ghost predicate Settled()
      reads this, m, mgr
    {
      && m.Valid()
      && Synced(m.w, mgr.jobs, multiset{})
      && TableOk(mgr.jobs, mgr.nextId)
      && (running ==> NoneDone(mgr.jobs))
    }

    /** terminal_restore on an error path: its result is not looked at. */
    method RestoreUnchecked(ghost jobs: seq<Job>)
      requires m.Valid() && Synced(m.w, jobs, multiset{})
      modifies m`w, m`log, m`faults, this`lostTerminal
      ensures m.Valid() && Synced(m.w, jobs, multiset{}) && (m.w == old(m.w) || Drifts(old(m.w), m.w))
      ensures TerminalOk() && m.faults == old(m.faults) + Fault(!lostTerminal)
    {
      hide Synced, Drifts, WorldOk, Accounted, Homes;
      ghost var w0 := m.w;
      var ok := Terminal.Restore(m);
      if m.w != w0 { SyncedStable(w0, m.w, jobs, multiset{}); }
      lostTerminal := !ok;
    }
  }

  // ---------------------------------------------------------------- giving up

  lemma CloseHeld(w: World, d: Desc, jobs: seq<Job>, held: multiset<Pid>, pids: seq<Pid>, shell: Pid)
    requires Synced(w, jobs, held) && HeldIn(w, held, pids) && Homes(w, shell)
    ensures Synced(CloseEffect(w, d), jobs, held) && HeldIn(CloseEffect(w, d), held, pids)
    ensures Homes(CloseEffect(w, d), shell) && Flows(w, CloseEffect(w, d), shell)
  {
    SameChildrenSynced(w, CloseEffect(w, d), jobs, held);
  }

  lemma SameChildrenSynced(a: World, b: World, jobs: seq<Job>, held: multiset<Pid>)
    requires Synced(a, jobs, held) && b.children == a.children
    ensures Synced(b, jobs, held)
  {
  }

  /** One of the close calls on a failure exit. */
  method CloseIf(m: Machine, fd: int, ghost jobs: seq<Job>, ghost held: multiset<Pid>, ghost pids: seq<Pid>)
    requires Rolling(m, jobs, held, pids)
    requires fd >= 0 ==> fd in m.fds && fd > 2 && fd != m.eventR && fd != m.eventW
    requires fd < 0 ==> fd !in m.fds
    modifies m`w, m`fds
    ensures Rolling(m, jobs, held, pids) && m.fds == old(m.fds) - {fd} && Flows(old(m.w), m.w, m.shellPgid)
    ensures fd >= 0 && old(m.fds)[fd].desc.PipeEnd? && old(m.fds)[fd].desc.write ==>
      old(m.fds)[fd].desc.id in m.w.gates && !m.w.gates[old(m.fds)[fd].desc.id].open
  {
    if fd >= 0 {
      ghost var w0, d := m.w, m.fds[fd].desc;
      m.Close(fd);
      ghost var mid := CloseEffect(w0, d);
      CloseHeld(w0, d, jobs, held, pids, m.shellPgid);
      SyncedStable(mid, m.w, jobs, held);
      HeldInStable(mid, m.w, held, pids);
      CallFlows(mid, mid, m.w, m.shellPgid);
      FlowsTransitive(w0, mid, m.w, m.shellPgid);
      if d.PipeEnd? && d.write {
        assert GateEvolves(mid.gates[d.id], m.w.gates[d.id]);
      }
    } else {
      SelfFlows(m.w, m.shellPgid);
    }
  }

  /** The end of every failure exit that still has the gate's write end: close it, then roll back. */
  method Abandon(m: Machine, gateW: int, pgid: Pid, pids: seq<Pid>, ghost g: nat, ghost jobs: seq<Job>,
                 ghost held: multiset<Pid>)
    requires Rolling(m, jobs, held, pids) && g in m.w.gates
    requires gateW in m.fds && gateW > 2 && gateW != m.eventR && gateW != m.eventW
    requires m.fds[gateW].desc == PipeEnd(g, true)
    modifies m`w, m`fds, m`log, m`faults
    ensures m.Valid() && m.fds == old(m.fds) - {gateW} && Synced(m.w, jobs, multiset{})
    ensures Flows(old(m.w), m.w, m.shellPgid)
    ensures old(m.w).gates[g].written == 0 ==> NeverReleased(m.w, g)
    ensures m.faults >= old(m.faults)
  {
    hide Synced, Flows, HeldIn, Drifts, Homes;
    ghost var w0 := m.w;
    CloseIf(m, gateW, jobs, held, pids);
    ghost var w1 := m.w;
    Rollback(m, pgid, pids, jobs, held);
    FlowsTransitive(w0, w1, m.w, m.shellPgid);
    if w0.gates[g].written == 0 {
      FlowsWritten(w0, w1, m.shellPgid, g);
      FlowsNeverReleased(w1, m.w, m.shellPgid, g);
    }
  }

  lemma FlowsWritten(a: World, b: World, shell: Pid, g: nat)
    requires Flows(a, b, shell) && g in a.gates
    ensures g in b.gates && b.gates[g].written == a.gates[g].written
  {
  }

  // ---------------------------------------------------------------- registering and releasing

  /** The loop of process_add calls. */
  method RegisterStages(m: Machine, mgr: JobManager, pids: seq<Pid>) returns (ok: bool)
    requires |mgr.jobs| > 0 && mgr.jobs[0].procs == [] && forall k :: 0 <= k < |pids| ==> pids[k] > 0
    modifies mgr`jobs, m`faults
    ensures m.faults >= old(m.faults) && (!ok ==> m.faults > old(m.faults))
    ensures |mgr.jobs| == |old(mgr.jobs)| && mgr.jobs[1..] == old(mgr.jobs)[1..]
    ensures mgr.jobs[0].pgid == old(mgr.jobs)[0].pgid
    ensures ok ==> mgr.jobs[0] == old(mgr.jobs)[0].(procs := Registered(pids))
  {
    var i := 0;
    while i < |pids|
      invariant 0 <= i <= |pids| && |mgr.jobs| == |old(mgr.jobs)| && mgr.jobs[1..] == old(mgr.jobs)[1..]
      invariant mgr.jobs[0] == old(mgr.jobs)[0].(procs := Registered(pids[..i])) && m.faults >= old(m.faults)
    {
      ok := mgr.ProcessAdd(m, 0, pids[i]);
      if !ok { return; }
      assert Registered(pids[..i + 1]) == Registered(pids[..i]) + [Process(pids[i], ProcessRunning, None)];
      i := i + 1;
    }
    assert pids[..i] == pids;
    ok := true;
  }

  /** One byte into a gate.  At the first byte the job list as it then is and the group the terminal
      then belongs to go on record; the head of the list must be exactly the gate's members. */
  method GateWrite(m: Machine, mgr: JobManager, fd: int) returns (ok: bool)
    requires m.Valid() && fd in m.fds && m.fds[fd].desc.PipeEnd? && m.fds[fd].desc.id in m.w.gates
    requires var g := m.w.gates[m.fds[fd].desc.id];
      g.stamp.None? ==>
        && mgr.jobs != [] && g.members == (set p | p in PidsOf(mgr.jobs[0]))
        && (forall p :: p in m.w.children && m.w.children[p].gate == m.fds[fd].desc.id ==>
              m.w.children[p].target == mgr.jobs[0].pgid)
    modifies m`w, m`faults, m`openings
    ensures m.Valid() && m.faults == old(m.faults) + Fault(ok)
    ensures m.openings == old(m.openings) +
      if ok && old(m.w).gates[m.fds[fd].desc.id].stamp.None?
      then [Opening(m.fds[fd].desc.id, Stamp(Listings(mgr.jobs), old(m.w).tty.fg))] else []
    ensures Rely(if ok then WriteEffect(old(m.w), m.fds[fd].desc.id, Listings(mgr.jobs)) else old(m.w), m.w)
  {
    hide WorldOk, Accounted;
    ok := *;
    m.faults := m.faults + Fault(ok);
    if ok {
      var id, listed := m.fds[fd].desc.id, Listings(mgr.jobs);
      assert m.w.gates[id].stamp.None? ==> listed[0] == ListingOf(mgr.jobs[0]);
      WriteKeepsWorldOk(m.w, id, listed);
      AccountedWrite(m.w, m.fds, m.openings, id, listed);
      if m.w.gates[id].stamp.None? {
        m.openings := m.openings + [Opening(id, Stamp(listed, m.w.tty.fg))];
      }
      m.w := WriteEffect(m.w, id, listed);
    }
    m.Interfere();
  }

  /** startup_gate_release: one byte for each stage of the job at the head of the list.  The first
      byte goes out under the list and the terminal's owner of that moment. */
  method Release(m: Machine, mgr: JobManager, gateW: int, pids: seq<Pid>, ghost g: nat) returns (ok: bool)
    requires m.Valid() && Synced(m.w, mgr.jobs, multiset{}) && g in m.w.gates && m.w.gates[g].written == 0
    requires gateW in m.fds && m.fds[gateW].desc == PipeEnd(g, true)
    requires mgr.jobs != [] && PidsOf(mgr.jobs[0]) == pids
    requires m.w.gates[g].stamp.None? && m.w.gates[g].members == (set p | p in pids)
    requires forall p :: p in m.w.children && m.w.children[p].gate == g ==> m.w.children[p].target == mgr.jobs[0].pgid
    modifies m`w, m`faults, m`openings
    ensures m.Valid() && Synced(m.w, mgr.jobs, multiset{}) && g in m.w.gates && m.faults == old(m.faults) + Fault(ok)
    ensures m.openings == old(m.openings) ||
      m.openings == old(m.openings) + [Opening(g, Stamp(Listings(mgr.jobs), old(m.w).tty.fg))]
    ensures ok && pids != [] ==> m.openings != old(m.openings)
    ensures ok ==> m.w.gates[g].written == |pids| && m.w.gates[g].members == (set p | p in pids)
    ensures ok ==> forall p :: p in m.w.children && m.w.children[p].gate == g && !m.w.children[p].phase.Passed? ==>
      |m.w.gates[g].consumed| < |pids|
    ensures old(m.w).tty.fg == m.shellPgid ==> m.w.tty == old(m.w).tty
  {
    hide Synced, WorldOk, Accounted, Homes, Drifts;
    ghost var listed := Listings(mgr.jobs);
    var i := 0;
    while i < |pids|
      invariant 0 <= i <= |pids| && m.Valid() && Synced(m.w, mgr.jobs, multiset{}) && g in m.w.gates
      invariant m.w.gates[g].written == i && m.w.gates[g].members == (set p | p in pids)
      invariant m.faults == old(m.faults) && (i == 0 ==> m.w == old(m.w))
      invariant i > 0 ==> m.w.gates[g].stamp.Some?
      invariant m.openings == old(m.openings) + if i == 0 then [] else [Opening(g, Stamp(listed, old(m.w).tty.fg))]
      invariant old(m.w).tty.fg == m.shellPgid ==> m.w.tty == old(m.w).tty
    {
      ghost var w0 := m.w;
      ok := GateWrite(m, mgr, gateW);
      ghost var mid := if ok then WriteEffect(w0, g, listed) else w0;
      SameChildrenSynced(w0, mid, mgr.jobs, multiset{});
      SyncedStable(mid, m.w, mgr.jobs, multiset{});
      if w0.tty.fg == m.shellPgid {
        SameChildrenHomes(w0, mid, m.shellPgid);
        TtyKept(mid, m.w, m.shellPgid);
      }
      DriftedGate(mid, m.w, g);
      if !ok { return; }
      i := i + 1;
    }
    ok := true;
    EveryoneFindsByte(m.w, g, pids);
  }

  /** After the release every stage still in front of the gate finds a byte in it. */
  lemma EveryoneFindsByte(w: World, g: nat, pids: seq<Pid>)
    requires WorldOk(w) && g in w.gates && w.gates[g].written == |pids| && w.gates[g].members == (set p | p in pids)
    ensures forall p :: p in w.children && w.children[p].gate == g && !w.children[p].phase.Passed? ==>
      |w.gates[g].consumed| < |pids|
  {
    SetOfSeqSize(pids);
    forall p | p in w.children && w.children[p].gate == g && !w.children[p].phase.Passed?
      ensures |w.gates[g].consumed| < |pids|
    {
      ReleasedMemberFindsByte(w, p);
    }
  }

  lemma {:induction false} SetOfSeqSize(pids: seq<Pid>)
    ensures |set p | p in pids| <= |pids|
  {
    if pids != [] {
      SetOfSeqSize(pids[1..]);
      assert (set p | p in pids) == {pids[0]} + (set p | p in pids[1..]);
    }
  }

  lemma SameChildrenHomes(a: World, b: World, shell: Pid)
    requires Homes(a, shell) && b.children == a.children
    ensures Homes(b, shell)
  {
  }

  lemma DriftedGate(a: World, b: World, g: nat)
    requires Drifts(a, b) && g in a.gates
    ensures g in b.gates && GateEvolves(a.gates[g], b.gates[g])
  {
  }

  // ---------------------------------------------------------------- taking a job off the list

  lemma {:induction false} DropLive(jobs: seq<Job>, i: nat)
    requires i < |jobs|
    ensures LiveJobs(jobs[..i] + jobs[i + 1..]) + Live(jobs[i].procs) == LiveJobs(jobs)
  {
    if i == 0 {
      assert jobs[..i] + jobs[i + 1..] == jobs[1..];
    } else {
      var rest := jobs[1..];
      assert (jobs[..i] + jobs[i + 1..])[1..] == rest[..i - 1] + rest[i..];
      assert (jobs[..i] + jobs[i + 1..])[0] == jobs[0];
      DropLive(rest, i - 1);
      AssocSum(Live(jobs[0].procs), LiveJobs(rest[..i - 1] + rest[i..]), Live(jobs[i].procs), LiveJobs(rest));
    }
  }

  lemma AssocSum(h: multiset<Pid>, a: multiset<Pid>, b: multiset<Pid>, c: multiset<Pid>)
    requires a + b == c
    ensures (h + a) + b == h + c
  {
  }

  /** Removing a finished job loses no child. */
  lemma DropDone(w: World, jobs: seq<Job>, nextId: int, i: nat)
    requires Synced(w, jobs, multiset{}) && TableOk(jobs, nextId) && i < |jobs| && jobs[i].status.JobDone?
    ensures Synced(w, jobs[..i] + jobs[i + 1..], multiset{}) && TableOk(jobs[..i] + jobs[i + 1..], nextId)
  {
    hide IdsOk, JobOk, JobShape, OwnsJob, AgreesJob, Live, LiveJobs;
    var jobs' := jobs[..i] + jobs[i + 1..];
    DropLive(jobs, i);
    DoneJobHasNoLive(jobs[i]);
    assert LiveJobs(jobs') == LiveJobs(jobs);
    DropIds(jobs, nextId, i);
    forall k | 0 <= k < |jobs'|
      ensures JobOk(jobs'[k]) && JobShape(jobs'[k]) && OwnsJob(w, jobs'[k]) && AgreesJob(w, jobs'[k])
    {
      var k' := if k < i then k else k + 1;
      assert jobs'[k] == jobs[k'];
      assert JobOk(jobs[k']) && OwnsJob(w, jobs[k']) && AgreesJob(w, jobs[k']);
    }
  }

  lemma DoneJobHasNoLive(job: Job)
    requires JobOk(job) && job.status.JobDone?
    ensures Live(job.procs) == multiset{}
  {
    forall j | 0 <= j < |job.procs| ensures job.procs[j].status.ProcessDone? {
      assert !job.procs[j].status.ProcessRunning? && !job.procs[j].status.ProcessStopped?;
    }
    DoneHasNoLive(job.procs);
  }

  lemma DropIds(jobs: seq<Job>, nextId: int, i: nat)
    requires IdsOk(jobs, nextId) && i < |jobs|
    ensures IdsOk(jobs[..i] + jobs[i + 1..], nextId)
  {
  }

  lemma OnlyOneGroup(jobs: seq<Job>, nextId: int, i: nat)
    requires TableOk(jobs, nextId) && i < |jobs|
    ensures jobs[i].pgid > 0 && FirstWith(jobs, jobs[i].pgid, i)
  {
  }

  /** Terminal modes of a job play no part in what the table owns and knows. */
  lemma RemodeSynced(w: World, jobs: seq<Job>, nextId: int, i: nat, modes: Option<int>)
    requires i < |jobs| && Synced(w, jobs, multiset{}) && TableOk(jobs, nextId)
    ensures Synced(w, jobs[i := jobs[i].(modes := modes)], multiset{})
    ensures TableOk(jobs[i := jobs[i].(modes := modes)], nextId)
  {
    hide IdsOk, JobOk, JobShape, OwnsJob, AgreesJob, Live, LiveJobs;
    var jobs' := jobs[i := jobs[i].(modes := modes)];
    LiveJobsUpdate(jobs, i, jobs'[i]);
    CancelSum(LiveJobs(jobs'), LiveJobs(jobs), Live(jobs[i].procs));
    RemodeJob(w, jobs[i], modes);
    RemodeIds(jobs, nextId, i, modes);
    forall k | 0 <= k < |jobs'| ensures JobOk(jobs'[k]) && JobShape(jobs'[k]) && OwnsJob(w, jobs'[k])
                                        && AgreesJob(w, jobs'[k]) {
      assert JobOk(jobs[k]) && JobShape(jobs[k]) && OwnsJob(w, jobs[k]) && AgreesJob(w, jobs[k]);
    }
  }

  lemma RemodeIds(jobs: seq<Job>, nextId: int, i: nat, modes: Option<int>)
    requires i < |jobs| && IdsOk(jobs, nextId)
    ensures IdsOk(jobs[i := jobs[i].(modes := modes)], nextId)
  {
  }

  lemma RemodeJob(w: World, job: Job, modes: Option<int>)
    requires JobOk(job) && OwnsJob(w, job) && AgreesJob(w, job)
    ensures var job' := job.(modes := modes); JobOk(job') && JobShape(job') && OwnsJob(w, job') && AgreesJob(w, job')
  {
  }

  // ---------------------------------------------------------------- after the foreground wait

  /** A job after a foreground wait: a stopped one remembers the modes read, if they could be. */
  function Saved(job: Job, active: bool, hasTty: bool, modes: int, failed: bool): Job {
    if active && job.status.JobStopped? && !failed then job.(modes := Some(if hasTty then modes else 0)) else job
  }

  /** The part of finish_foreground_job that reads the modes of a stopped job. */
  method SaveModes(sh: Shell, i: nat, active: bool)
    requires sh.m.Valid() && i < |sh.mgr.jobs| && Synced(sh.m.w, sh.mgr.jobs, multiset{})
    requires TableOk(sh.mgr.jobs, sh.mgr.nextId)
    modifies sh.m`w, sh.m`faults, sh.m`readings, sh.mgr`jobs
    ensures sh.m.Valid() && Synced(sh.m.w, sh.mgr.jobs, multiset{}) && TableOk(sh.mgr.jobs, sh.mgr.nextId)
    ensures sh.m.faults >= old(sh.m.faults) && (!sh.m.hasTty ==> sh.m.faults == old(sh.m.faults))
    ensures var job, modes, failed := old(sh.mgr.jobs)[i], old(sh.m.w).tty.modes, sh.m.faults > old(sh.m.faults);
      && sh.mgr.jobs == old(sh.mgr.jobs)[i := Saved(job, active, sh.m.hasTty, modes, failed)]
      && sh.m.readings == old(sh.m.readings) +
           if sh.m.hasTty && active && job.status.JobStopped? && !failed then [Reading(Front(sh.m.log), modes)] else []
  {
    hide Synced, TableOk, WorldOk, Accounted, Homes, Drifts;
    var m, mgr := sh.m, sh.mgr;
    if active && mgr.jobs[i].status.JobStopped? {
      ghost var w0 := m.w;
      var ok, modes := GetModes(m);
      if m.w != w0 { SyncedStable(w0, m.w, mgr.jobs, multiset{}); }
      if ok {
        RemodeSynced(m.w, mgr.jobs, mgr.nextId, i, Some(modes));
        mgr.jobs := mgr.jobs[i := mgr.jobs[i].(modes := Some(modes))];
      }
    }
  }

  /** job_exit_status and job_remove at the end of a foreground job. */
  method TakeOff(sh: Shell, i: nat) returns (r: int)
    requires i < |sh.mgr.jobs| && Synced(sh.m.w, sh.mgr.jobs, multiset{}) && TableOk(sh.mgr.jobs, sh.mgr.nextId)
    requires sh.mgr.jobs[i].status.JobDone?
    modifies sh.mgr`jobs
    ensures Synced(sh.m.w, sh.mgr.jobs, multiset{}) && TableOk(sh.mgr.jobs, sh.mgr.nextId)
    ensures sh.mgr.jobs == old(sh.mgr.jobs)[..i] + old(sh.mgr.jobs)[i + 1..]
    ensures 0 <= r == ExitStatus(old(sh.mgr.jobs)[i]) <= 255
  {
    hide Synced, TableOk;
    var mgr := sh.mgr;
    FinishedAt(mgr.jobs, mgr.nextId, i);
    r := ExitStatus(mgr.jobs[i]);
    var pgid := mgr.jobs[i].pgid;
    OnlyOneGroup(mgr.jobs, mgr.nextId, i);
    DropDone(sh.m.w, mgr.jobs, mgr.nextId, i);
    mgr.Remove(pgid);
  }

  /** finish_foreground_job, and the same steps at the end of builtin_fg.  `active` is the source's
      terminal_active; fg runs the steps unconditionally. */
  method FinishForeground(sh: Shell, i: nat, active: bool) returns (r: int)
    requires sh.m.Valid() && i < |sh.mgr.jobs| && Synced(sh.m.w, sh.mgr.jobs, multiset{})
    requires TableOk(sh.mgr.jobs, sh.mgr.nextId) && !sh.mgr.jobs[i].status.JobRunning?
    requires forall k :: 0 <= k < |sh.mgr.jobs| && k != i ==> !sh.mgr.jobs[k].status.JobDone?
    requires sh.m.hasTty ==> active
    modifies sh`running, sh`lostTerminal, sh.m`w, sh.m`log, sh.m`faults, sh.m`readings, sh.mgr`jobs
    ensures sh.Settled()
    ensures r >= 0 ==> Mine(sh.m) && sh.running == old(sh.running) && (sh.lostTerminal ==> old(sh.lostTerminal))
    ensures r >= 0 && active ==> !sh.lostTerminal
    ensures r >= 0 && old(sh.mgr.jobs)[i].status.JobDone? ==>
      && sh.mgr.jobs == old(sh.mgr.jobs)[..i] + old(sh.mgr.jobs)[i + 1..]
      && r == ExitStatus(old(sh.mgr.jobs)[i]) <= 255 && sh.m.readings == old(sh.m.readings)
    ensures r >= 0 && old(sh.mgr.jobs)[i].status.JobStopped? ==>
      var job, modes, failed := old(sh.mgr.jobs)[i], old(sh.m.w).tty.modes, sh.m.faults > old(sh.m.faults);
      && r == OK && sh.mgr.jobs == old(sh.mgr.jobs)[i := Saved(job, active, sh.m.hasTty, modes, failed)]
      && sh.m.readings == old(sh.m.readings) +
           if sh.m.hasTty && !failed then [Reading(Front(old(sh.m.log)), modes)] else []
    ensures r < 0 ==> r == ERR_UNKNOWN && !sh.running && |sh.mgr.jobs| == |old(sh.mgr.jobs)|
    ensures sh.m.faults >= old(sh.m.faults) && (r < 0 ==> sh.m.faults > old(sh.m.faults))
    ensures !sh.m.hasTty ==> sh.m.faults == old(sh.m.faults)
    ensures old(sh.m.log) <= sh.m.log
  {
    hide Synced, TableOk, WorldOk, Accounted, Homes, Drifts, Front;
    var m, mgr := sh.m, sh.mgr;
    SaveModes(sh, i, active);
    if active {
      ghost var w1 := m.w;
      var ok := Restore(m);
      if m.w != w1 { SyncedStable(w1, m.w, mgr.jobs, multiset{}); }
      if !ok {
        sh.running := false;
        return ERR_UNKNOWN;
      }
      sh.lostTerminal := false;
    }
    if mgr.jobs[i].status.JobStopped? {
      return OK;
    }
    r := TakeOff(sh, i);
  }

  lemma FinishedAt(jobs: seq<Job>, nextId: int, i: nat)
    requires TableOk(jobs, nextId) && i < |jobs| && jobs[i].status.JobDone?
    ensures 0 <= ExitStatus(jobs[i]) <= 255
  {
  }
}
