/**
 src/executor.c: execute_single, execute_pipeline and execute_command, start to end.
 */
module Execute {
  import opened Kernel
  import opened Machines
  import opened Jobs
  import opened LaunchState
  import opened Wiring
  import opened Launch
  import opened Executor
  import opened Spawn

  /** What every launch leaves behind, however it ends: the shell's descriptors are as before, its
      children are those of the listed jobs, and the terminal is the shell's unless the last restore
      failed and was ignored, or the shell is about to stop. */
  twostate predicate Clean(sh: Shell)
    reads sh, sh.m, sh.mgr
  {
    && sh.Settled()
    && sh.m.fds == old(sh.m.fds)
    && (sh.m.peak <= old(sh.m.peak) || sh.m.peak <= |old(sh.m.fds)| + 5)
    && (sh.lostTerminal ==> old(sh.lostTerminal) || sh.m.faults > old(sh.m.faults))
    && (old(sh.TerminalOk()) && sh.running ==> sh.TerminalOk())
  }

  /** How a launch of `chain` may end.  If it opened no gate, no pipe it made was ever released or
      can be, so none of its children ever gets to exec; whatever it opened is its own gate, opened
      as Opens says; and it leaves no pipe open. */
  ghost predicate LaunchResult(sh: Shell, chain: seq<Cmd>, background: bool, r: int, f: Option<Forking>, final: Job,
                               b: Before)
    reads sh`running, sh.m, sh.mgr
  {
    && (f.None? ==> sh.m.openings == b.openings)
    && (sh.m.openings == b.openings ==> r < 0 && sh.running)
    && GatesShut(sh.m, b)
    && (r < 0 && sh.running ==> sh.mgr.jobs == b.jobs && sh.m.readings == b.readings)
    && (f.Some? ==>
          && WellForked(f.value, chain, b.fds, b.jobs)
          && var entered := Entered(b.nextId, f.value.pgid, chain[0].name, f.value.pids);
          && Opens(sh.m.openings, f.value.g, entered, !background && sh.m.hasTty, b)
          && Ended(sh, r, final, entered, background, b))
  }

  /** The pipes made since are closed, and if none was opened nobody passes any, now or later. */
  ghost predicate GatesShut(m: Machine, b: Before)
    reads m
  {
    forall g :: g in m.w.gates && g !in b.gates ==>
      !m.w.gates[g].open && (m.openings == b.openings ==> NeverReleased(m.w, g))
  }

  /** What is known of the pipes and openings that were there before. */
  ghost predicate OldGates(b: Before) {
    && (forall fd :: fd in b.fds && b.fds[fd].desc.PipeEnd? ==> b.fds[fd].desc.id in b.gates)
    && (forall o :: o in b.openings ==> o.gate in b.gates)
  }

  lemma SnapshotGates(sh: Shell)
    requires sh.m.Valid()
    ensures OldGates(Snapshot(sh))
  {
  }

  lemma LaunchOver(sh: Shell, chain: seq<Cmd>, background: bool, r: int, f: Option<Forking>, final: Job, b: Before)
    requires sh.m.Valid() && sh.m.fds == b.fds && OldGates(b) && chain != []
    requires f.None? ==> sh.m.openings == b.openings && sh.mgr.jobs == b.jobs && sh.m.readings == b.readings
    requires sh.m.openings == b.openings ==> r < 0 && sh.running
    requires f.Some? ==>
      var entered := Entered(b.nextId, f.value.pgid, chain[0].name, f.value.pids);
      && WellForked(f.value, chain, b.fds, b.jobs)
      && Opens(sh.m.openings, f.value.g, entered, !background && sh.m.hasTty, b)
      && Ended(sh, r, final, entered, background, b)
    ensures LaunchResult(sh, chain, background, r, f, final, b)
  {
    hide WellForked, Opens, Accounted, Waited, GatesShut;
    AllGatesShut(sh.m, b);
  }

  lemma AllGatesShut(m: Machine, b: Before)
    requires m.Valid() && m.fds == b.fds && OldGates(b)
    ensures GatesShut(m, b)
  {
    hide Accounted;
    forall g | g in m.w.gates && g !in b.gates
      ensures !m.w.gates[g].open && (m.openings == b.openings ==> NeverReleased(m.w, g))
    {
      NewGates(m, b.gates, b.fds, b.openings, g);
    }
  }

  /** execute_pipeline */
  method ExecutePipeline(sh: Shell, chain: seq<Cmd>, background: bool)
    returns (r: int, ghost f: Option<Forking>, ghost final: Job)
    requires sh.Ready() && sh.running && chain != []
    modifies sh`running, sh`lostTerminal, sh.m, sh.mgr
    ensures Clean(sh)
    ensures LaunchResult(sh, chain, background, r, f, final, old(Snapshot(sh)))
    ensures sh.m.faults >= old(sh.m.faults) && (r < 0 ==> sh.m.faults > old(sh.m.faults) || |chain| > 64)
  {
    hide AllForked, WellForked, Ended, Opens, Synced, TableOk, NoneDone, WorldOk, Accounted, Homes, LaunchResult,
         OldGates;
    ghost var b := Snapshot(sh);
    SnapshotGates(sh);
    f, final := None, Entered(0, 0, "", []);
    var pids, pgid, gateW;
    ghost var g, ids;
    r, pids, pgid, gateW, g, ids := ForkChain(sh, chain);
    if r == OK {
      f := Some(Forking(sh.m.w, g, pids, pgid, ids));
      r, final := RunForked(sh, pids, pgid, gateW, chain[0].name, background, g, b);
    }
    LaunchOver(sh, chain, background, r, f, final, b);
  }

  /** execute_pipeline up to the closing of the gate's read end. */
  method ForkChain(sh: Shell, chain: seq<Cmd>)
    returns (r: int, pids: seq<Pid>, pgid: Pid, gateW: int, ghost g: nat, ghost ids: seq<nat>)
    requires sh.Ready() && sh.running && chain != []
    modifies sh.m`w, sh.m`fds, sh.m`log, sh.m`peak, sh.m`faults
    ensures r == OK ==>
      && AllForked(sh, pids, pgid, gateW, g, old(sh.m.fds))
      && WellForked(Forking(sh.m.w, g, pids, pgid, ids), chain, old(sh.m.fds), sh.mgr.jobs)
    ensures r != OK ==> r < 0 && sh.Settled() && sh.m.fds == old(sh.m.fds) && GatesShut(sh.m, old(Snapshot(sh)))
    ensures r != OK ==> sh.m.faults > old(sh.m.faults) || |chain| > MAX_PIPELINE
    ensures sh.m.faults >= old(sh.m.faults)
    ensures Kept(old(sh.m.w), sh.m.w, sh.m.shellPgid)
    ensures sh.m.peak <= old(sh.m.peak) || sh.m.peak <= |old(sh.m.fds)| + 5
  {
    hide Synced, Work, WorldOk, Accounted, Homes, TableOk, NoneDone, WellForked, NeverReleased, Held, GroupOk, NewGroup,
         Gated, Spawning, Undone, GatesShut, OldGates;
    ghost var b := Snapshot(sh);
    SnapshotGates(sh);
    var m, mgr := sh.m, sh.mgr;
    ghost var base, jobs, nextId := m.fds, mgr.jobs, mgr.nextId;
    pids, pgid, ids := [], 0, [];
    PromptFacts(m.w, jobs, nextId);
    var ok, gateR;
    ok, gateR, gateW, g := CreateGate(sh);
    if !ok {
      AllGatesShut(m, b);
      r := ERR_PIPE;
      return;
    }
    WorkStart(m.w, jobs, g, base, Redirects(chain));
    StartSpawning(sh, chain, gateR, gateW, g, base);
    r, pids, pgid, ids := SpawnAll(sh, chain, gateR, gateW, g, base);
    if r != OK {
      UndoneFacts(sh, g, base);
      AllGatesShut(m, b);
      return;
    }
    ReadyToRun(sh, chain, gateR, gateW, pids, pgid, g, base, ids);
    DropEnd(sh, gateR, pids, |pids|, pgid, Redirects(chain), g, base, ids);
    WorkForked(m.w, jobs, pids, g, pgid, base, chain, ids);
  }

  lemma PromptFacts(w: World, jobs: seq<Job>, nextId: int)
    requires AtPrompt(w, jobs, nextId)
    ensures Synced(w, jobs, multiset{}) && TableOk(jobs, nextId) && NoneDone(jobs)
  {
  }

  lemma UndoneFacts(sh: Shell, g: nat, base: FdTable)
    requires Undone(sh, g, base)
    ensures sh.m.Valid() && sh.m.fds == base && Synced(sh.m.w, sh.mgr.jobs, multiset{})
  {
  }

  lemma StartSpawning(sh: Shell, chain: seq<Cmd>, gateR: int, gateW: int, g: nat, base: FdTable)
    requires sh.m.Valid() && sh.running && chain != [] && TableOk(sh.mgr.jobs, sh.mgr.nextId) && NoneDone(sh.mgr.jobs)
    requires Work(sh.m.w, sh.mgr.jobs, [], 0, g, 0, base, Redirects(chain), []) && Gated(sh.m, base, gateR, gateW, g)
    requires {0, 1, 2, sh.m.eventR, sh.m.eventW} <= base.Keys && -1 !in base
    ensures Spawning(sh, chain, gateR, gateW, -1, [], 0, g, base, [])
  {
    ParentCount(sh.m, base, gateR, gateW, g, -1, None);
    assert [gateR, gateW] + [] == [gateR, gateW];
  }

  /** At the end of the fork loop only the gate is left open. */
  lemma ReadyToRun(sh: Shell, chain: seq<Cmd>, gateR: int, gateW: int, pids: seq<Pid>, pgid: Pid, g: nat,
                   base: FdTable, ids: seq<nat>)
    requires Spawning(sh, chain, gateR, gateW, -1, pids, pgid, g, base, ids) && |pids| == |chain| && chain != []
    ensures sh.m.Valid() && sh.running && TableOk(sh.mgr.jobs, sh.mgr.nextId) && NoneDone(sh.mgr.jobs)
    ensures Work(sh.m.w, sh.mgr.jobs, pids, |pids|, g, pgid, base, Redirects(chain), ids)
    ensures pgid == pids[0] > 0 && pgid != sh.m.shellPgid && NewGroup(sh.mgr.jobs, pgid) && |ids| + 1 == |chain|
    ensures Own(sh.m, gateR) && Own(sh.m, gateW) && gateR >= 0 && gateW >= 0 && gateR != gateW
    ensures sh.m.fds[gateW].desc == PipeEnd(g, true)
    ensures sh.m.fds - {gateR} - {gateW} == base
  {
    var fds := [gateR, gateW] + [];
    assert fds[0] == gateR && fds[1] == gateW;
    assert (sh.m.fds - {gateR} - {gateW}).Keys == base.Keys;
  }

  /** execute_single: the same launch with one stage, in the source's own order of calls. */
  method ExecuteSingle(sh: Shell, cmd: Cmd, background: bool)
    returns (r: int, ghost f: Option<Forking>, ghost final: Job)
    requires sh.Ready() && sh.running
    modifies sh`running, sh`lostTerminal, sh.m, sh.mgr
    ensures Clean(sh)
    ensures LaunchResult(sh, [cmd], background, r, f, final, old(Snapshot(sh)))
    ensures sh.m.faults >= old(sh.m.faults) && (r < 0 ==> sh.m.faults > old(sh.m.faults))
  {
    hide AllForked, WellForked, Ended, Opens, Synced, TableOk, NoneDone, WorldOk, Accounted, Homes, LaunchResult,
         OldGates;
    ghost var b := Snapshot(sh);
    SnapshotGates(sh);
    f, final := None, Entered(0, 0, "", []);
    var pid, gateW;
    ghost var g;
    r, pid, gateW, g := ForkAlone(sh, cmd);
    if r == OK {
      f := Some(Forking(sh.m.w, g, [pid], pid, []));
      r, final := RunForked(sh, [pid], pid, gateW, cmd.name, background, g, b);
    }
    LaunchOver(sh, [cmd], background, r, f, final, b);
  }

  /** execute_single up to setpgid_parent. */
  method ForkAlone(sh: Shell, cmd: Cmd) returns (r: int, pid: Pid, gateW: int, ghost g: nat)
    requires sh.Ready() && sh.running
    modifies sh.m`w, sh.m`fds, sh.m`log, sh.m`peak, sh.m`faults
    ensures r == OK ==>
      && AllForked(sh, [pid], pid, gateW, g, old(sh.m.fds))
      && WellForked(Forking(sh.m.w, g, [pid], pid, []), [cmd], old(sh.m.fds), sh.mgr.jobs)
    ensures r != OK ==> r < 0 && sh.Settled() && sh.m.fds == old(sh.m.fds) && GatesShut(sh.m, old(Snapshot(sh)))
    ensures r != OK ==> sh.m.faults > old(sh.m.faults)
    ensures sh.m.faults >= old(sh.m.faults) && Kept(old(sh.m.w), sh.m.w, sh.m.shellPgid)
    ensures sh.m.peak <= old(sh.m.peak) || sh.m.peak <= |old(sh.m.fds)| + 5
  {
    hide Synced, Work, WorldOk, Accounted, Homes, TableOk, NoneDone, WellForked, NeverReleased, Gated, Spawning,
         Undone, AllForked, GatesShut, OldGates;
    ghost var b := Snapshot(sh);
    SnapshotGates(sh);
    var m, mgr := sh.m, sh.mgr;
    ghost var base, jobs, chain := m.fds, mgr.jobs, [cmd];
    PromptFacts(m.w, jobs, mgr.nextId);
    var ok, gateR;
    ok, gateR, gateW, g := CreateGate(sh);
    if !ok {
      AllGatesShut(m, b);
      return ERR_PIPE, 0, gateW, g;
    }
    WorkStart(m.w, jobs, g, base, Redirects(chain));
    StartSpawning(sh, chain, gateR, gateW, g, base);
    r, pid := ForkSingle(sh, cmd, gateR, gateW, g, base);
    if r != OK {
      UndoneFacts(sh, g, base);
      AllGatesShut(m, b);
      return;
    }
    WorkForked(m.w, jobs, [pid], g, pid, base, chain, []);
  }

  /** fork, close of the gate's read end and setpgid_parent of execute_single. */
  method ForkSingle(sh: Shell, cmd: Cmd, gateR: int, gateW: int, ghost g: nat, ghost base: FdTable)
    returns (r: int, pid: Pid)
    requires Spawning(sh, [cmd], gateR, gateW, -1, [], 0, g, base, [])
    modifies sh.m`w, sh.m`fds, sh.m`log, sh.m`faults
    ensures Kept(old(sh.m.w), sh.m.w, sh.m.shellPgid)
    ensures r != OK ==> r < 0 && Undone(sh, g, base) && sh.m.faults > old(sh.m.faults)
    ensures sh.m.faults >= old(sh.m.faults)
    ensures r == OK ==>
      && AllForked(sh, [pid], pid, gateW, g, base)
      && Work(sh.m.w, sh.mgr.jobs, [pid], 1, g, pid, base, Redirects([cmd]), [])
  {
    hide Work, WorldOk, Accounted, Homes, Drifts, TableOk, NoneDone, Synced, NeverReleased, LaidPlan, Flows, HeldIn,
         Held, NewGroup, Undone, GroupOk;
    var m, mgr := sh.m, sh.mgr;
    ghost var redirects := Redirects([cmd]);
    r, pid := ForkFirst(sh, cmd, gateR, gateW, g, base);
    if r != OK { return; }
    FirstGroup(mgr.jobs, pid, m.shellPgid);
    ghost var table, plan := m.fds, Plan(gateR, gateW, -1, false, -1, -1, cmd.redirect);
    LaidOwn(m, base, g, plan, None, None);
    DropEnd(sh, gateR, [pid], 0, pid, redirects, g, base, []);
    assert m.fds - {gateW} == base by { assert m.fds - {gateW} == table - {-1, gateR, gateW}; }
    ghost var w1 := m.w;
    WorkHeld(w1, mgr.jobs, [pid], 0, g, pid, base, redirects, []);
    var ok := m.SetPgid(pid, pid);
    GroupStep(w1, m.w, pid, [pid], pid, ok, mgr.jobs, g, base, redirects, [], m.shellPgid);
    WorkHeld(m.w, mgr.jobs, [pid], if ok then 1 else 0, g, pid, base, redirects, []);
    if !ok {
      ghost var w2 := m.w;
      Abandon(m, gateW, pid, [pid], g, mgr.jobs, multiset([pid]));
      FlowsMine(w2, m.w, m.shellPgid);
      MakeUndone(sh, g, base);
      return ERR_UNKNOWN, pid;
    }
  }

  lemma MakeUndone(sh: Shell, g: nat, base: FdTable)
    requires sh.m.Valid() && sh.m.fds == base && Synced(sh.m.w, sh.mgr.jobs, multiset{}) && NeverReleased(sh.m.w, g)
    ensures Undone(sh, g, base)
  {
  }

  lemma FirstGroup(jobs: seq<Job>, pid: Pid, shell: Pid)
    requires GroupOk(jobs, [pid], pid, shell)
    ensures pid > 0 && pid != shell && NewGroup(jobs, pid)
  {
  }

  /** The fork of execute_single. */
  method ForkFirst(sh: Shell, cmd: Cmd, gateR: int, gateW: int, ghost g: nat, ghost base: FdTable)
    returns (r: int, pid: Pid)
    requires Spawning(sh, [cmd], gateR, gateW, -1, [], 0, g, base, [])
    modifies sh.m`w, sh.m`fds, sh.m`log, sh.m`faults
    ensures Kept(old(sh.m.w), sh.m.w, sh.m.shellPgid)
    ensures r != OK ==> r < 0 && Undone(sh, g, base) && sh.m.faults > old(sh.m.faults)
    ensures sh.m.faults >= old(sh.m.faults)
    ensures r == OK ==>
      && sh.m.fds == old(sh.m.fds) && Grounded(sh, [cmd], [pid], pid, base)
      && Work(sh.m.w, sh.mgr.jobs, [pid], 0, g, pid, base, Redirects([cmd]), [])
      && LaidPlan(base, g, Plan(gateR, gateW, -1, false, -1, -1, cmd.redirect), sh.m.fds, None, None)
  {
    hide Work, WorldOk, Accounted, Homes, Drifts, TableOk, NoneDone, Synced, NewFds, ParentFds, LaidPlan, HeldIn,
         Held, GroupOk, Undone;
    var m, mgr := sh.m, sh.mgr;
    ghost var w0, jobs, chain := m.w, mgr.jobs, [cmd];
    ghost var redirects := Redirects(chain);
    var plan := Plan(gateR, gateW, -1, false, -1, -1, cmd.redirect);
    assert [gateR, gateW] + [] == [gateR, gateW];
    NoPipeLaid(base, g, gateR, gateW, -1, cmd.redirect, None);
    LaidOwn(m, base, g, plan, None, None);
    WorkHeld(w0, jobs, [], 0, g, 0, base, redirects, []);
    pid := m.Fork(0, plan);
    if pid <= 0 {
      WorkStable(w0, m.w, jobs, [], 0, g, 0, base, redirects, []);
      KeptCall(w0, m.w, m.shellPgid);
      Undo(sh, chain, plan, 0, [], 0, g, base, [], None, None);
      return ERR_FORK, pid;
    }
    ghost var c := NewChild(pid, m.shellPgid, 0, g, plan, m.fds);
    NewPidGroup(w0, jobs, mgr.nextId, [], 0, pid, m.shellPgid);
    assert [] + [pid] == [pid];
    WorkFork(w0, pid, c, jobs, [], g, 0, base, redirects, []);
    ForkHomes(w0, pid, c, m.shellPgid);
    KeptCall(ForkEffect(w0, pid, c), m.w, m.shellPgid);
    WorkStable(ForkEffect(w0, pid, c), m.w, jobs, [pid], 0, g, pid, base, redirects, []);
    r := OK;
  }
}
