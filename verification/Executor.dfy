/**
 src/executor.c from the end of the fork loop on: register, hand over the terminal, release, wait.
 */
module Executor {
  import opened Kernel
  import opened Machines
  import opened Jobs
  import opened JobTables
  import opened LaunchState
  import opened Rollbacks
  import opened Terminal
  import opened Launch

  /** All stages are forked and in their group, the gate's read end is closed in the shell. */
  ghost predicate AllForked(sh: Shell, pids: seq<Pid>, pgid: Pid, gateW: int, g: nat, base: FdTable)
    reads sh, sh.m, sh.mgr
  {
    && sh.m.Valid() && sh.running
    && Held(sh.m.w, sh.mgr.jobs, pids, |pids|, g, pgid)
    && pids != [] && pgid > 0 && pgid != sh.m.shellPgid
    && TableOk(sh.mgr.jobs, sh.mgr.nextId) && NoneDone(sh.mgr.jobs) && NewGroup(sh.mgr.jobs, pgid)
    && gateW in sh.m.fds && gateW > 2 && gateW != sh.m.eventR && gateW != sh.m.eventW
    && sh.m.fds[gateW].desc == PipeEnd(g, true) && sh.m.fds - {gateW} == base
  }

  function Entered(nextId: int, pgid: Pid, name: string, pids: seq<Pid>): Job {
    Job(nextId, pgid, JobRunning, Truncated(name), Registered(pids), None)
  }

  lemma TableLater(jobs: seq<Job>, nextId: int)
    requires TableOk(jobs, nextId)
    ensures TableOk(jobs, nextId + 1)
  {
  }

  lemma HeldRolling(w: World, jobs: seq<Job>, pids: seq<Pid>, joined: nat, g: nat, pgid: Pid)
    requires Held(w, jobs, pids, joined, g, pgid)
    ensures Synced(w, jobs, multiset(pids)) && HeldIn(w, multiset(pids), pids) && g in w.gates
    ensures w.gates[g].written == 0
  {
  }

  lemma HeldTty(w: World, t: Tty, jobs: seq<Job>, pids: seq<Pid>, joined: nat, g: nat, pgid: Pid)
    requires Held(w, jobs, pids, joined, g, pgid)
    ensures Held(w.(tty := t), jobs, pids, joined, g, pgid)
  {
  }

  /** Just after tcsetpgrp the new group is in front and nobody in it could have changed that. */
  lemma Fronted(w0: World, t: Tty, w: World, jobs: seq<Job>, pids: seq<Pid>, g: nat, pgid: Pid, shell: Pid)
    requires Held(w0, jobs, pids, |pids|, g, pgid) && t.fg == pgid && Rely(w0.(tty := t), w)
    requires Homes(w, shell) && pgid != shell && NewGroup(jobs, pgid)
    ensures Held(w, jobs, pids, |pids|, g, pgid) && w.tty.fg == pgid
  {
    HeldTty(w0, t, jobs, pids, |pids|, g, pgid);
    HeldStable(w0.(tty := t), w, jobs, pids, |pids|, g, pgid);
    NobodyPassed(w, jobs, pids, |pids|, g, pgid, shell);
  }

  /** A listed job of a launch that failed late: its unreaped processes can be rolled back. */
  lemma LateRolling(w: World, job: Job, jobs: seq<Job>, pids: seq<Pid>)
    requires Synced(w, [job] + jobs, multiset{}) && Apart(pids, jobs)
    requires |job.procs| == |pids| && forall k :: 0 <= k < |pids| ==> job.procs[k].pid == pids[k]
    ensures Synced(w, jobs, Live(job.procs)) && HeldIn(w, Live(job.procs), pids)
  {
    assert PidsOf(job) == pids;
    UnlistHead(w, job, jobs);
  }

  /** Everything the gate write needs to know about its members. */
  lemma ReadyToRelease(w: World, jobs: seq<Job>, pids: seq<Pid>, g: nat, pgid: Pid)
    requires Held(w, jobs, pids, |pids|, g, pgid) && WorldOk(w)
    ensures g in w.gates && w.gates[g].written == 0 && w.gates[g].stamp.None?
    ensures w.gates[g].members == (set p | p in pids)
    ensures forall p :: p in w.children && w.children[p].gate == g ==> w.children[p].target == pgid
    ensures Apart(pids, jobs)
  {
    HeldApart(w, jobs, pids);
    forall p | p in w.children && w.children[p].gate == g ensures w.children[p].target == pgid {
      assert Placed(w, p);
      var k :| 0 <= k < |pids| && pids[k] == p;
      assert Stage(w, pids[k], g, pgid);
    }
  }

  /** The exits after the job has been listed and before anything was released. */
  method GiveUp(sh: Shell, gateW: int, pgid: Pid, pids: seq<Pid>, ghost g: nat, ghost jobs: seq<Job>, ghost joined: nat)
    requires sh.m.Valid() && Held(sh.m.w, jobs, pids, joined, g, pgid) && pgid > 0
    requires gateW in sh.m.fds && gateW > 2 && gateW != sh.m.eventR && gateW != sh.m.eventW
    requires sh.m.fds[gateW].desc == PipeEnd(g, true)
    requires sh.mgr.jobs != [] && sh.mgr.jobs[0].pgid == pgid && sh.mgr.jobs[1..] == jobs
    modifies sh.m`w, sh.m`fds, sh.m`log, sh.m`faults, sh.mgr`jobs
    ensures sh.m.Valid() && sh.m.fds == old(sh.m.fds) - {gateW} && sh.mgr.jobs == jobs
    ensures Synced(sh.m.w, jobs, multiset{}) && NeverReleased(sh.m.w, g)
    ensures Flows(old(sh.m.w), sh.m.w, sh.m.shellPgid) && sh.m.faults >= old(sh.m.faults)
  {
    hide Held, Synced, Flows, HeldIn, WorldOk, Accounted, Homes, NeverReleased;
    HeldRolling(sh.m.w, jobs, pids, joined, g, pgid);
    Abandon(sh.m, gateW, pgid, pids, g, jobs, multiset(pids));
    ghost var before := sh.mgr.jobs;
    sh.mgr.Remove(pgid);
    assert FirstWith(before, pgid, 0);
    assert before[..0] + before[1..] == jobs;
  }

  /** The exits after the release began: the listed job's live processes are rolled back. */
  method GiveUpLate(sh: Shell, pgid: Pid, pids: seq<Pid>, ghost jobs: seq<Job>)
    requires sh.m.Valid() && pgid > 0 && sh.mgr.jobs != [] && sh.mgr.jobs[0].pgid == pgid && sh.mgr.jobs[1..] == jobs
    requires Synced(sh.m.w, sh.mgr.jobs, multiset{}) && Apart(pids, jobs)
    requires |sh.mgr.jobs[0].procs| == |pids|
    requires forall k :: 0 <= k < |pids| ==> sh.mgr.jobs[0].procs[k].pid == pids[k]
    modifies sh.m`w, sh.m`log, sh.m`faults
    ensures sh.m.Valid() && Synced(sh.m.w, jobs, multiset{}) && Flows(old(sh.m.w), sh.m.w, sh.m.shellPgid)
    ensures sh.m.faults >= old(sh.m.faults)
  {
    hide Synced, Flows, HeldIn, WorldOk, Accounted, Homes, Apart;
    assert sh.mgr.jobs == [sh.mgr.jobs[0]] + jobs;
    LateRolling(sh.m.w, sh.mgr.jobs[0], jobs, pids);
    Rollback(sh.m, pgid, pids, jobs, Live(sh.mgr.jobs[0].procs));
  }

  /** What a launch finds: the table, the descriptors and pipes, and how far the machine's records
      have got. */
  datatype Before = Before(jobs: seq<Job>, nextId: int, fds: FdTable, gates: set<nat>, openings: seq<Opening>,
                           readings: seq<Reading>, heard: nat, faults: nat)

  ghost function Snapshot(sh: Shell): Before
    reads sh, sh.m, sh.mgr
  {
    Before(sh.mgr.jobs, sh.mgr.nextId, sh.m.fds, sh.m.w.gates.Keys, sh.m.openings, sh.m.readings, |sh.m.got|,
           sh.m.faults)
  }

  /** Nothing has been listed, released, read or heard since. */
  ghost predicate Since(sh: Shell, b: Before)
    reads sh, sh.m, sh.mgr
  {
    && sh.mgr.jobs == b.jobs && sh.mgr.nextId == b.nextId && sh.m.openings == b.openings
    && sh.m.readings == b.readings && |sh.m.got| == b.heard && sh.m.faults >= b.faults
  }

  /** A launch has opened no gate, or its own, once: with its job at the head of the list, every
      stage registered in command order, and the terminal handed over if it is a foreground one. */
  ghost predicate Opens(openings: seq<Opening>, g: nat, entered: Job, foreground: bool, b: Before) {
    || openings == b.openings
    || exists fg :: openings == b.openings + [Opening(g, Stamp(Listings([entered] + b.jobs), fg))]
                    && (foreground ==> fg == entered.pgid)
  }

  /** How a launch may end. */
  ghost predicate Ended(sh: Shell, r: int, final: Job, entered: Job, background: bool, b: Before)
    reads sh`running, sh.m, sh.mgr
  {
    if r < 0 then sh.running ==> sh.mgr.jobs == b.jobs && sh.m.readings == b.readings
    else if background then r == OK && sh.mgr.jobs == [entered] + b.jobs && sh.m.readings == b.readings
    else
      && b.heard <= |sh.m.got| && b.readings <= sh.m.readings
      && Waited(sh.mgr.jobs, r, final, b.jobs, entered, sh.m.got[b.heard..],
                sh.m.readings[|b.readings|..], sh.m.hasTty, sh.m.faults > b.faults)
  }

  /** The modes a stopped job keeps: those read after the wait, or else what it had. */
  function KeptModes(modes: Option<int>, read: seq<Reading>): Option<int> {
    if read == [] then modes else Some(read[|read| - 1].modes)
  }

  /** With a terminal its modes were read once, while it was `pgid`'s, or the read failed. */
  predicate ReadOnce(read: seq<Reading>, pgid: Pid, hasTty: bool, failed: bool) {
    if hasTty then (read == [] && failed) || (|read| == 1 && read[0].front == pgid) else read == []
  }

  /** A foreground job ends up as the reports it was told of make it.  Either it finished, is off
      the list and gave its exit status, or it stopped and is at the head of the list with the
      modes the terminal had. */
  ghost predicate Waited(now: seq<Job>, r: int, final: Job, jobs: seq<Job>, entered: Job, told: seq<Told>,
                         read: seq<Reading>, hasTty: bool, failed: bool)
  {
    && final == Heard(entered, told) && SameJob(entered, final) && JobOk(final)
    && (|| (now == jobs && final.status.JobDone? && r == ExitStatus(final) <= 255 && read == [])
        || (&& r == OK && final.status.JobStopped? && ReadOnce(read, entered.pgid, hasTty, failed)
            && now == [final.(modes := KeptModes(final.modes, read))] + jobs))
  }

  /** job_add, process_add and the terminal hand-over. */
  method ListAndFront(sh: Shell, pids: seq<Pid>, pgid: Pid, gateW: int, name: string, background: bool, ghost g: nat,
                      ghost base: FdTable)
    returns (r: int)
    requires AllForked(sh, pids, pgid, gateW, g, base)
    modifies sh`lostTerminal, sh.m`w, sh.m`fds, sh.m`log, sh.m`faults, sh.mgr
    ensures sh.m.Valid() && (r == OK || r < 0)
    ensures sh.m.faults >= old(sh.m.faults) && (r < 0 ==> sh.m.faults > old(sh.m.faults))
    ensures r == OK ==>
      && sh.m.fds == old(sh.m.fds) && sh.lostTerminal == old(sh.lostTerminal)
      && sh.m.log == old(sh.m.log) + (if !background && sh.m.hasTty then [SetPgrp(pgid)] else [])
      && sh.mgr.nextId == old(sh.mgr.nextId) + 1
      && sh.mgr.jobs == [Entered(old(sh.mgr.nextId), pgid, name, pids)] + old(sh.mgr.jobs)
      && Held(sh.m.w, old(sh.mgr.jobs), pids, |pids|, g, pgid)
      && (!background && sh.m.hasTty ==> sh.m.w.tty.fg == pgid)
      && (background || !sh.m.hasTty ==> sh.m.w == old(sh.m.w))
    ensures r < 0 ==>
      && sh.m.fds == base && sh.mgr.jobs == old(sh.mgr.jobs) && NeverReleased(sh.m.w, g)
      && Synced(sh.m.w, sh.mgr.jobs, multiset{}) && TableOk(sh.mgr.jobs, sh.mgr.nextId)
      && (old(sh.TerminalOk()) ==> sh.TerminalOk())
  {
    hide Held, Synced, Flows, HeldIn, WorldOk, Accounted, Homes, NeverReleased, TableOk, Drifts, NewGroup, NoneDone;
    var m, mgr := sh.m, sh.mgr;
    ghost var jobs, w0 := mgr.jobs, m.w;
    TableLater(jobs, mgr.nextId);
    var ok := mgr.Add(m, pgid, name);
    if !ok {
      HeldRolling(m.w, jobs, pids, |pids|, g, pgid);
      Abandon(m, gateW, pgid, pids, g, jobs, multiset(pids));
      FlowsMine(w0, m.w, m.shellPgid);
      return ERR_JOB;
    }
    assert mgr.jobs[1..] == jobs;
    PositivePids(w0, jobs, pids, g, pgid);
    ok := RegisterStages(m, mgr, pids);
    if !ok {
      GiveUp(sh, gateW, pgid, pids, g, jobs, |pids|);
      FlowsMine(w0, m.w, m.shellPgid);
      return ERR_JOB;
    }
    assert mgr.jobs == [mgr.jobs[0]] + jobs;
    if !background && m.hasTty {
      ok := SetForeground(m, pgid);
      if !ok {
        if m.w != w0 { HeldStable(w0, m.w, jobs, pids, |pids|, g, pgid); }
        GiveUp(sh, gateW, pgid, pids, g, jobs, |pids|);
        ghost var w1 := m.w;
        sh.RestoreUnchecked(jobs);
        if m.w != w1 { DriftsNeverReleased(w1, m.w, g); }
        return ERR_UNKNOWN;
      }
      Fronted(w0, w0.tty.(fg := pgid), m.w, jobs, pids, g, pgid, m.shellPgid);
    }
    r := OK;
  }

  lemma PositivePids(w: World, jobs: seq<Job>, pids: seq<Pid>, g: nat, pgid: Pid)
    requires Held(w, jobs, pids, |pids|, g, pgid)
    ensures forall k :: 0 <= k < |pids| ==> pids[k] > 0
  {
  }

  lemma FlowsMine(a: World, b: World, shell: Pid)
    requires Flows(a, b, shell)
    ensures a.tty.fg == shell ==> b.tty == a.tty
  {
  }

  /** The exit after a failed release. */
  method GiveUpRelease(sh: Shell, pgid: Pid, pids: seq<Pid>, foreground: bool, ghost jobs: seq<Job>)
    requires sh.m.Valid() && pgid > 0 && sh.mgr.jobs != [] && sh.mgr.jobs[0].pgid == pgid && sh.mgr.jobs[1..] == jobs
    requires Synced(sh.m.w, sh.mgr.jobs, multiset{}) && Apart(pids, jobs)
    requires |sh.mgr.jobs[0].procs| == |pids|
    requires forall k :: 0 <= k < |pids| ==> sh.mgr.jobs[0].procs[k].pid == pids[k]
    modifies sh`lostTerminal, sh.m`w, sh.m`log, sh.m`faults, sh.mgr`jobs
    ensures sh.m.Valid() && sh.mgr.jobs == jobs && Synced(sh.m.w, jobs, multiset{}) && sh.m.faults >= old(sh.m.faults)
    ensures foreground || old(sh.TerminalOk()) ==> sh.TerminalOk()
  {
    hide Synced, Flows, WorldOk, Accounted, Homes, Drifts, Apart;
    ghost var w1 := sh.m.w;
    GiveUpLate(sh, pgid, pids, jobs);
    FlowsMine(w1, sh.m.w, sh.m.shellPgid);
    Unlist(sh.mgr, pgid, jobs);
    if foreground { sh.RestoreUnchecked(jobs); }
  }

  lemma OpensNothing(openings: seq<Opening>, g: nat, entered: Job, foreground: bool, b: Before)
    requires openings == b.openings
    ensures Opens(openings, g, entered, foreground, b)
  {
  }

  /** The release of a listed launch, and the close of the gate after it. */
  method ReleaseListed(sh: Shell, pids: seq<Pid>, pgid: Pid, gateW: int, name: string, ghost foreground: bool,
                       ghost g: nat, ghost b: Before)
    returns (ok: bool)
    requires sh.m.Valid() && Held(sh.m.w, b.jobs, pids, |pids|, g, pgid) && TableOk(b.jobs, b.nextId)
    requires pids != [] && pgid > 0 && NewGroup(b.jobs, pgid) && sh.m.openings == b.openings
    requires sh.mgr.nextId == b.nextId + 1 && sh.mgr.jobs == [Entered(b.nextId, pgid, name, pids)] + b.jobs
    requires gateW in sh.m.fds && gateW > 2 && gateW != sh.m.eventR && gateW != sh.m.eventW
    requires sh.m.fds[gateW].desc == PipeEnd(g, true) && sh.m.fds - {gateW} == b.fds
    requires foreground ==> sh.m.w.tty.fg == pgid
    modifies sh.m`w, sh.m`fds, sh.m`faults, sh.m`openings
    ensures sh.m.Valid() && sh.m.fds == b.fds && Synced(sh.m.w, sh.mgr.jobs, multiset{})
    ensures TableOk(sh.mgr.jobs, sh.mgr.nextId) && TableOk(b.jobs, sh.mgr.nextId) && Apart(pids, b.jobs)
    ensures Opens(sh.m.openings, g, Entered(b.nextId, pgid, name, pids), foreground, b)
    ensures sh.m.faults == old(sh.m.faults) + Fault(ok) && (ok ==> sh.m.openings != b.openings)
    ensures old(sh.m.w).tty.fg == sh.m.shellPgid ==> sh.m.w.tty == old(sh.m.w).tty
  {
    hide Held, Synced, WorldOk, Accounted, Homes, TableOk, Drifts, NewGroup, Apart;
    var m, mgr := sh.m, sh.mgr;
    ReadyToRelease(m.w, b.jobs, pids, g, pgid);
    RegisterSynced(m.w, b.jobs, b.nextId, pids, g, pgid, mgr.jobs[0]);
    TableLater(b.jobs, b.nextId);
    EnteredPids(b.nextId, pgid, name, pids);
    ok := Release(m, mgr, gateW, pids, g);
    CloseListed(m, gateW, mgr.jobs);
  }

  /** The rest of execute_single and execute_pipeline once every stage is forked. */
  method RunForked(sh: Shell, pids: seq<Pid>, pgid: Pid, gateW: int, name: string, background: bool,
                   ghost g: nat, ghost b: Before)
    returns (r: int, ghost final: Job)
    requires AllForked(sh, pids, pgid, gateW, g, b.fds) && Since(sh, b)
    modifies sh`running, sh`lostTerminal, sh.m`w, sh.m`fds, sh.m`log, sh.m`faults, sh.m`reports, sh.m`got
    modifies sh.m`openings, sh.m`readings, sh.mgr
    ensures sh.Settled() && sh.m.fds == b.fds
    ensures Ended(sh, r, final, Entered(b.nextId, pgid, name, pids), background, b)
    ensures Opens(sh.m.openings, g, Entered(b.nextId, pgid, name, pids), !background && sh.m.hasTty, b)
    ensures sh.m.openings == b.openings ==> r < 0 && sh.running
    ensures sh.m.faults >= old(sh.m.faults) && (r < 0 ==> sh.m.faults > old(sh.m.faults))
    ensures sh.lostTerminal ==> old(sh.lostTerminal) || sh.m.faults > old(sh.m.faults)
    ensures old(sh.TerminalOk()) && sh.running ==> sh.TerminalOk()
  {
    hide Held, Synced, Flows, HeldIn, WorldOk, Accounted, Homes, NeverReleased, TableOk, Drifts, NewGroup, Apart,
         Waited, Front, Opens;
    OpensNothing(sh.m.openings, g, Entered(b.nextId, pgid, name, pids), !background && sh.m.hasTty, b);
    var m, mgr := sh.m, sh.mgr;
    ghost var entered := Entered(b.nextId, pgid, name, pids);
    final := entered;
    r := ListAndFront(sh, pids, pgid, gateW, name, background, g, b.fds);
    if r < 0 { return; }
    var ok := ReleaseListed(sh, pids, pgid, gateW, name, !background && m.hasTty, g, b);
    assert mgr.jobs[1..] == b.jobs;
    if !ok {
      GiveUpRelease(sh, pgid, pids, !background && m.hasTty, b.jobs);
      return ERR_UNKNOWN, final;
    }
    if background {
      HeadNotDone(mgr.jobs, b.jobs);
      return OK, final;
    }
    FrontLast(m.log, pgid);
    r, final := WaitAndFinish(sh, pids, pgid, b);
  }

  lemma EnteredPids(nextId: int, pgid: Pid, name: string, pids: seq<Pid>)
    ensures PidsOf(Entered(nextId, pgid, name, pids)) == pids
  {
  }

  lemma FrontLast(log: seq<Call>, pgid: Pid)
    ensures log != [] && log[|log| - 1] == SetPgrp(pgid) ==> Front(log) == pgid
  {
  }

  lemma TableJob(jobs: seq<Job>, nextId: int, i: nat)
    requires TableOk(jobs, nextId) && i < |jobs|
    ensures JobOk(jobs[i])
  {
  }

  lemma HeadNotDone(all: seq<Job>, jobs: seq<Job>)
    requires all != [] && all[1..] == jobs && !all[0].status.JobDone? && NoneDone(jobs)
    ensures NoneDone(all)
  {
  }

  method Unlist(mgr: JobManager, pgid: Pid, ghost jobs: seq<Job>)
    requires pgid > 0 && mgr.jobs != [] && mgr.jobs[0].pgid == pgid && mgr.jobs[1..] == jobs
    modifies mgr`jobs
    ensures mgr.jobs == jobs
  {
    ghost var before := mgr.jobs;
    mgr.Remove(pgid);
    assert FirstWith(before, pgid, 0);
    assert before[..0] + before[1..] == jobs;
  }

  method CloseListed(m: Machine, fd: int, ghost jobs: seq<Job>)
    requires m.Valid() && Synced(m.w, jobs, multiset{})
    requires fd in m.fds && fd > 2 && fd != m.eventR && fd != m.eventW
    modifies m`w, m`fds
    ensures m.Valid() && Synced(m.w, jobs, multiset{}) && m.fds == old(m.fds) - {fd}
    ensures old(m.w).tty.fg == m.shellPgid ==> m.w.tty == old(m.w).tty
  {
    hide Synced, WorldOk, Accounted, Homes, Drifts;
    ghost var w0, d := m.w, m.fds[fd].desc;
    m.Close(fd);
    ghost var mid := CloseEffect(w0, d);
    SameChildrenSynced(w0, mid, jobs, multiset{});
    SyncedStable(mid, m.w, jobs, multiset{});
    SameChildrenHomes(w0, mid, m.shellPgid);
    if w0.tty.fg == m.shellPgid { TtyKept(mid, m.w, m.shellPgid); }
  }

  /** job_wait_foreground and what follows it. */
  method WaitAndFinish(sh: Shell, pids: seq<Pid>, pgid: Pid, ghost b: Before) returns (r: int, ghost final: Job)
    requires sh.m.Valid() && sh.running && pgid > 0
    requires sh.mgr.jobs != [] && sh.mgr.jobs[0].pgid == pgid && sh.mgr.jobs[1..] == b.jobs
    requires Synced(sh.m.w, sh.mgr.jobs, multiset{}) && TableOk(sh.mgr.jobs, sh.mgr.nextId)
    requires TableOk(b.jobs, sh.mgr.nextId) && NoneDone(b.jobs) && Apart(pids, b.jobs)
    requires sh.mgr.jobs[0].procs == Registered(pids)
    requires sh.m.hasTty ==> Front(sh.m.log) == pgid
    requires sh.m.readings == b.readings && |sh.m.got| == b.heard && sh.m.faults >= b.faults
    modifies sh`running, sh`lostTerminal, sh.m`w, sh.m`log, sh.m`faults, sh.m`reports, sh.m`got, sh.m`readings, sh.mgr
    ensures sh.Settled()
    ensures Ended(sh, r, final, old(sh.mgr.jobs)[0], false, b)
    ensures sh.m.faults >= old(sh.m.faults) && (r < 0 ==> sh.m.faults > old(sh.m.faults))
    ensures sh.lostTerminal ==> old(sh.lostTerminal) || sh.m.faults > old(sh.m.faults)
    ensures sh.running ==> sh.TerminalOk()
  {
    hide Synced, Flows, WorldOk, Accounted, Homes, TableOk, Drifts, Apart, SameJob, Mine, ExitStatus, JobOk, Registered,
         Heard, Front, Waited;
    var m, mgr := sh.m, sh.mgr;
    ghost var before := mgr.jobs;
    var ok := mgr.WaitForeground(m, 0);
    ghost var waited := mgr.jobs;
    assert waited[1..] == b.jobs by { assert waited == before[0 := waited[0]]; }
    StagesKept(before[0], waited[0], pids);
    final := waited[0];
    if !ok {
      GiveUpWait(sh, pgid, pids, b.jobs);
      return ERR_UNKNOWN, final;
    }
    assert forall k :: 0 < k < |waited| ==> waited[k] == b.jobs[k - 1];
    TableJob(waited, mgr.nextId, 0);
    ghost var modes := m.w.tty.modes;
    r := FinishForeground(sh, 0, m.hasTty);
    if r >= 0 {
      FinishedWait(waited, mgr.jobs, r, before[0], b.jobs, m.got[b.heard..], m.readings[|b.readings|..],
                   m.hasTty, modes, m.faults > b.faults);
    }
  }

  /** What the steps after the wait make of the table. */
  lemma FinishedWait(waited: seq<Job>, now: seq<Job>, r: int, entered: Job, jobs: seq<Job>, told: seq<Told>,
                     read: seq<Reading>, hasTty: bool, modes: int, failed: bool)
    requires waited != [] && waited[1..] == jobs && JobOk(waited[0]) && !waited[0].status.JobRunning?
    requires waited[0] == Heard(entered, told) && SameJob(entered, waited[0])
    requires waited[0].status.JobDone? ==>
      now == waited[..0] + waited[0 + 1..] && r == ExitStatus(waited[0]) <= 255 && read == []
    requires waited[0].status.JobStopped? ==> r == OK && exists f ::
      && now == waited[0 := Saved(waited[0], hasTty, hasTty, modes, f)] && (f ==> failed)
      && read == if hasTty && !f then [Reading(entered.pgid, modes)] else []
    ensures Waited(now, r, waited[0], jobs, entered, told, read, hasTty, failed)
  {
    hide Heard, SameJob, JobOk, ExitStatus;
    assert waited == [waited[0]] + jobs;
  }

  lemma StagesKept(a: Job, b: Job, pids: seq<Pid>)
    requires SameJob(a, b) && a.procs == Registered(pids)
    ensures b.pgid == a.pgid && |b.procs| == |pids| && PidsOf(b) == pids
    ensures forall k :: 0 <= k < |pids| ==> b.procs[k].pid == pids[k]
  {
  }

  /** The exit after job_wait_foreground failed. */
  method GiveUpWait(sh: Shell, pgid: Pid, pids: seq<Pid>, ghost jobs: seq<Job>)
    requires sh.m.Valid() && pgid > 0 && sh.mgr.jobs != [] && sh.mgr.jobs[0].pgid == pgid && sh.mgr.jobs[1..] == jobs
    requires Synced(sh.m.w, sh.mgr.jobs, multiset{}) && Apart(pids, jobs)
    requires |sh.mgr.jobs[0].procs| == |pids|
    requires forall k :: 0 <= k < |pids| ==> sh.mgr.jobs[0].procs[k].pid == pids[k]
    modifies sh`lostTerminal, sh.m`w, sh.m`log, sh.m`faults, sh.mgr`jobs
    ensures sh.m.Valid() && sh.mgr.jobs == jobs && Synced(sh.m.w, jobs, multiset{}) && sh.m.faults >= old(sh.m.faults)
    ensures sh.TerminalOk()
  {
    hide Synced, Flows, WorldOk, Accounted, Homes, Drifts, Apart;
    GiveUpLate(sh, pgid, pids, jobs);
    if sh.m.hasTty { sh.RestoreUnchecked(jobs); }
    Unlist(sh.mgr, pgid, jobs);
  }
}
