/**
 src/executor.c: the fork loop of execute_pipeline, execute_single and execute_command.
 */
module Spawn {
  import opened Kernel
  import opened Machines
  import opened Jobs
  import opened LaunchState
  import opened Rollbacks
  import opened Wiring
  import opened Launch
  import opened Executor

  /** The world half of the fork loop's invariant. */
  ghost predicate Work(w: World, jobs: seq<Job>, pids: seq<Pid>, joined: nat, g: nat, pgid: Pid,
                       base: FdTable, redirects: seq<Redirect>, ids: seq<nat>) {
    && Held(w, jobs, pids, joined, g, pgid)
    && LaidOut(w, base, g, redirects, pids, ids)
    && FreshPipes(base, ids)
    && (forall i :: 0 <= i < |ids| ==> ids[i] in w.gates)
    && g !in ids
  }

  lemma WorkStable(a: World, b: World, jobs: seq<Job>, pids: seq<Pid>, joined: nat, g: nat, pgid: Pid,
                   base: FdTable, redirects: seq<Redirect>, ids: seq<nat>)
    requires Work(a, jobs, pids, joined, g, pgid, base, redirects, ids) && Drifts(a, b)
    ensures Work(b, jobs, pids, joined, g, pgid, base, redirects, ids)
  {
    HeldStable(a, b, jobs, pids, joined, g, pgid);
    LaidOutStable(a, b, base, g, redirects, pids, ids);
  }

  lemma WorkSameChildren(a: World, b: World, jobs: seq<Job>, pids: seq<Pid>, joined: nat, g: nat, pgid: Pid,
                         base: FdTable, redirects: seq<Redirect>, ids: seq<nat>)
    requires Work(a, jobs, pids, joined, g, pgid, base, redirects, ids)
    requires b.children == a.children && a.gates.Keys <= b.gates.Keys
    requires b.gates[g] == a.gates[g].(open := b.gates[g].open)
    ensures Work(b, jobs, pids, joined, g, pgid, base, redirects, ids)
  {
    SameChildrenSynced(a, b, jobs, multiset(pids));
    forall k | 0 <= k < |pids| ensures Stage(b, pids[k], g, pgid) { assert Stage(a, pids[k], g, pgid); }
    forall k | 0 <= k < joined ensures Joined(b, pids[k], pgid) { assert Joined(a, pids[k], pgid); }
    forall k | 0 <= k < |pids| ensures LaidStage(b, base, g, redirects, pids, ids, k) {
      assert LaidStage(a, base, g, redirects, pids, ids, k);
    }
  }

  /** A new pipe towards the next stage. */
  lemma WorkNewPipe(a: World, id: nat, jobs: seq<Job>, pids: seq<Pid>, g: nat, pgid: Pid,
                    base: FdTable, redirects: seq<Redirect>, ids: seq<nat>)
    requires Work(a, jobs, pids, |pids|, g, pgid, base, redirects, ids) && id !in a.gates
    requires |ids| == |pids| && |pids| + 1 < |redirects|
    requires forall fd :: fd in base && base[fd].desc.PipeEnd? ==> base[fd].desc.id in a.gates
    ensures Work(WithGate(a, id, NEW_GATE), jobs, pids, |pids|, g, pgid, base, redirects, ids + [id])
  {
    var b := WithGate(a, id, NEW_GATE);
    WorkSameChildren(a, b, jobs, pids, |pids|, g, pgid, base, redirects, ids);
    forall k | 0 <= k < |pids| ensures LaidStage(b, base, g, redirects, pids, ids + [id], k) {
      assert LaidStage(b, base, g, redirects, pids, ids, k);
    }
  }

  /** The newly forked stage inherits exactly the shell's table of that moment. */
  lemma WorkFork(w: World, pid: Pid, c: Child, jobs: seq<Job>, pids: seq<Pid>, g: nat, pgid: Pid,
                 base: FdTable, redirects: seq<Redirect>, ids: seq<nat>)
    requires Work(w, jobs, pids, |pids|, g, pgid, base, redirects, ids) && FreshPid(w, pid)
    requires c.gate == g && c.phase.Forked? && !Uncollected(c) && !c.stopped
    requires c.target == (if pids == [] then pid else pgid)
    requires |pids| < |redirects| && c.plan.redirect == redirects[|pids|]
    requires Laid(base, g, c, PipeInto(ids, |pids|), PipeOutOf(ids, |pids|, |redirects|))
    ensures Work(ForkEffect(w, pid, c), jobs, pids + [pid], |pids|, g, c.target, base, redirects, ids)
  {
    var w' := ForkEffect(w, pid, c);
    ForkHeld(w, jobs, pids, g, pgid, pid, c);
    forall k | 0 <= k < |pids| + 1 ensures LaidStage(w', base, g, redirects, pids + [pid], ids, k) {
      if k < |pids| {
        assert LaidStage(w, base, g, redirects, pids, ids, k);
        assert pids[k] in w.children && pids[k] != pid;
      }
    }
  }

  lemma WorkRegroup(w: World, jobs: seq<Job>, pids: seq<Pid>, g: nat, pgid: Pid,
                    base: FdTable, redirects: seq<Redirect>, ids: seq<nat>)
    requires pids != [] && Work(w, jobs, pids, |pids| - 1, g, pgid, base, redirects, ids)
    ensures var p := pids[|pids| - 1];
      p in w.children && Work(SetChild(w, p, w.children[p].(pgid := pgid)), jobs, pids, |pids|, g, pgid, base,
                              redirects, ids)
  {
    RegroupHeld(w, jobs, pids, g, pgid);
    var p := pids[|pids| - 1];
    var w' := SetChild(w, p, w.children[p].(pgid := pgid));
    forall k | 0 <= k < |pids| ensures LaidStage(w', base, g, redirects, pids, ids, k) {
      assert LaidStage(w, base, g, redirects, pids, ids, k);
    }
  }

  lemma WorkHeld(w: World, jobs: seq<Job>, pids: seq<Pid>, joined: nat, g: nat, pgid: Pid,
                 base: FdTable, redirects: seq<Redirect>, ids: seq<nat>)
    requires Work(w, jobs, pids, joined, g, pgid, base, redirects, ids)
    ensures Held(w, jobs, pids, joined, g, pgid) && Synced(w, jobs, multiset(pids)) && HeldIn(w, multiset(pids), pids)
    ensures g in w.gates && w.gates[g].written == 0 && w.gates[g].stamp.None? && w.gates[g].members <= w.children.Keys
    ensures pids != [] ==> pids[|pids| - 1] in w.children && w.children[pids[|pids| - 1]].target == pgid
  {
  }

  // ---------------------------------------------------------------- descriptors of the shell

  /** The shell's table at the head of the fork loop. */
  function ParentFds(base: FdTable, gateR: int, gateW: int, g: nat, pipeIn: int, prev: Option<nat>): FdTable {
    var gated := base[gateR := Entry(PipeEnd(g, false), true)][gateW := Entry(PipeEnd(g, true), true)];
    if prev.Some? then gated[pipeIn := Entry(PipeEnd(prev.value, false), false)] else gated
  }

  /** A descriptor opened by the launch, or none. */
  predicate Own(m: Machine, fd: int)
    reads m
  {
    if fd >= 0 then fd in m.fds && fd > 2 && fd != m.eventR && fd != m.eventW else fd !in m.fds
  }

  predicate Apart2(a: int, b: int) { a >= 0 ==> a != b }

  /** The failure exits of the fork loop: close whatever is open, then roll back. */
  method AbortSpawn(m: Machine, nextR: int, nextW: int, pipeIn: int, gateR: int, gateW: int, pgid: Pid, pids: seq<Pid>,
                    ghost g: nat, ghost jobs: seq<Job>, ghost base: FdTable)
    requires Rolling(m, jobs, multiset(pids), pids) && g in m.w.gates && m.w.gates[g].written == 0
    requires Own(m, nextR) && Own(m, nextW) && Own(m, pipeIn) && Own(m, gateR) && Own(m, gateW)
    requires Apart2(nextR, nextW) && Apart2(nextR, pipeIn) && Apart2(nextR, gateR) && Apart2(nextR, gateW)
    requires Apart2(nextW, pipeIn) && Apart2(nextW, gateR) && Apart2(nextW, gateW)
    requires Apart2(pipeIn, gateR) && Apart2(pipeIn, gateW) && gateR != gateW && gateW >= 0
    requires m.fds[gateW].desc == PipeEnd(g, true)
    requires m.fds - {nextR, nextW, pipeIn, gateR, gateW} == base
    modifies m`w, m`fds, m`log, m`faults
    ensures m.Valid() && m.fds == base && Synced(m.w, jobs, multiset{}) && NeverReleased(m.w, g)
    ensures Flows(old(m.w), m.w, m.shellPgid) && m.faults >= old(m.faults)
  {
    hide Rolling, Flows, NeverReleased, Synced;
    ghost var w0, open := m.w, m.fds;
    CloseTwo(m, nextR, nextW, jobs, pids);
    ghost var w1 := m.w;
    CloseTwo(m, pipeIn, gateR, jobs, pids);
    FlowsTransitive(w0, w1, m.w, m.shellPgid);
    ghost var w2 := m.w;
    FlowsWritten(w0, w2, m.shellPgid, g);
    Abandon(m, gateW, pgid, pids, g, jobs, multiset(pids));
    FlowsTransitive(w0, w2, m.w, m.shellPgid);
    FiveGone(open, nextR, nextW, pipeIn, gateR, gateW);
  }

  lemma FiveGone(open: FdTable, a: int, b: int, c: int, d: int, e: int)
    ensures open - {a, b} - {c, d} - {e} == open - {a, b, c, d, e}
  {
  }

  method CloseTwo(m: Machine, a: int, b: int, ghost jobs: seq<Job>, ghost pids: seq<Pid>)
    requires Rolling(m, jobs, multiset(pids), pids) && Own(m, a) && Own(m, b) && Apart2(a, b)
    modifies m`w, m`fds
    ensures Rolling(m, jobs, multiset(pids), pids) && m.fds == old(m.fds) - {a, b} && Flows(old(m.w), m.w, m.shellPgid)
  {
    hide Rolling, Flows;
    ghost var w0 := m.w;
    CloseIf(m, a, jobs, multiset(pids), pids);
    ghost var w1 := m.w;
    CloseIf(m, b, jobs, multiset(pids), pids);
    FlowsTransitive(w0, w1, m.w, m.shellPgid);
  }

  // ---------------------------------------------------------------- one turn of the fork loop

  ghost predicate GroupOk(jobs: seq<Job>, pids: seq<Pid>, pgid: Pid, shell: Pid) {
    if pids == [] then pgid == 0 else pgid == pids[0] && pgid > 0 && pgid != shell && NewGroup(jobs, pgid)
  }

  ghost predicate Kept(a: World, b: World, shell: Pid) {
    a.tty.fg == shell ==> b.tty == a.tty
  }

  lemma KeptCall(mid: World, b: World, shell: Pid)
    requires Homes(mid, shell) && Rely(mid, b)
    ensures Kept(mid, b, shell)
  {
  }

  function PlanOf(chain: seq<Cmd>, k: nat, gateR: int, gateW: int, pipeIn: int, nextR: int, nextW: int): Plan
    requires k < |chain|
  {
    Plan(gateR, gateW, pipeIn, k + 1 < |chain|, nextR, nextW, chain[k].redirect)
  }

  /** What does not change during the loop. */
  ghost predicate Grounded(sh: Shell, chain: seq<Cmd>, pids: seq<Pid>, pgid: Pid, base: FdTable)
    reads sh, sh.m, sh.mgr
  {
    && sh.m.Valid() && sh.running
    && TableOk(sh.mgr.jobs, sh.mgr.nextId) && NoneDone(sh.mgr.jobs)
    && |pids| <= |chain|
    && GroupOk(sh.mgr.jobs, pids, pgid, sh.m.shellPgid)
    && {0, 1, 2, sh.m.eventR, sh.m.eventW} <= base.Keys
    && -1 !in base
  }

  /** The head of the loop. */
  ghost predicate Spawning(sh: Shell, chain: seq<Cmd>, gateR: int, gateW: int, pipeIn: int, pids: seq<Pid>, pgid: Pid,
                           g: nat, base: FdTable, ids: seq<nat>)
    reads sh, sh.m, sh.mgr
  {
    && Grounded(sh, chain, pids, pgid, base)
    && Work(sh.m.w, sh.mgr.jobs, pids, |pids|, g, pgid, base, Redirects(chain), ids)
    && |ids| == (if |pids| < |chain| then |pids| else |chain| - 1)
    && (pipeIn >= 0 <==> 0 < |pids| < |chain|) && (pipeIn < 0 ==> pipeIn == -1)
    && NewFds(base, [gateR, gateW] + (if pipeIn >= 0 then [pipeIn] else []))
    && sh.m.fds == ParentFds(base, gateR, gateW, g, pipeIn, if pipeIn >= 0 then Some(ids[|pids| - 1]) else None)
    && |sh.m.fds| <= |base| + 3
  }

  /** After the pipe call: the shell's table is what the next child will inherit. */
  ghost predicate Piped(sh: Shell, chain: seq<Cmd>, plan: Plan, pids: seq<Pid>, pgid: Pid, g: nat, base: FdTable,
                        ids: seq<nat>)
    reads sh, sh.m, sh.mgr
  {
    && Grounded(sh, chain, pids, pgid, base) && |pids| < |chain|
    && Work(sh.m.w, sh.mgr.jobs, pids, |pids|, g, pgid, base, Redirects(chain), ids)
    && |ids| == (if |pids| + 1 < |chain| then |pids| + 1 else |chain| - 1)
    && plan.redirect == chain[|pids|].redirect
    && LaidPlan(base, g, plan, sh.m.fds, PipeInto(ids, |pids|), PipeOutOf(ids, |pids|, |chain|))
    && |sh.m.fds| <= |base| + 5
  }

  lemma NoPipeLaid(base: FdTable, g: nat, gateR: int, gateW: int, pipeIn: int, redirect: Redirect, prev: Option<nat>)
    requires NewFds(base, [gateR, gateW] + (if pipeIn >= 0 then [pipeIn] else []))
    requires (prev.Some? <==> pipeIn >= 0) && (pipeIn < 0 ==> pipeIn == -1)
    ensures LaidPlan(base, g, Plan(gateR, gateW, pipeIn, false, -1, -1, redirect),
                     ParentFds(base, gateR, gateW, g, pipeIn, prev), prev, None)
  {
  }

  lemma PipeLaid(base: FdTable, g: nat, gateR: int, gateW: int, pipeIn: int, redirect: Redirect, prev: Option<nat>,
                 nextR: int, nextW: int, id: nat)
    requires NewFds(base, [gateR, gateW] + (if pipeIn >= 0 then [pipeIn] else []))
    requires (prev.Some? <==> pipeIn >= 0) && (pipeIn < 0 ==> pipeIn == -1)
    requires nextR > 2 && nextW > 2 && nextR != nextW
    requires var t := ParentFds(base, gateR, gateW, g, pipeIn, prev); nextR !in t && nextW !in t
    ensures LaidPlan(base, g, Plan(gateR, gateW, pipeIn, true, nextR, nextW, redirect),
                     ParentFds(base, gateR, gateW, g, pipeIn, prev)
                       [nextR := Entry(PipeEnd(id, false), false)][nextW := Entry(PipeEnd(id, true), false)],
                     prev, Some(id))
  {
    var plan := Plan(gateR, gateW, pipeIn, true, nextR, nextW, redirect);
    var old' := [gateR, gateW] + (if pipeIn >= 0 then [pipeIn] else []);
    assert PlanFds(plan) == old' + [nextR, nextW];
    var t := ParentFds(base, gateR, gateW, g, pipeIn, prev);
    forall i | 0 <= i < |old'| ensures old'[i] in t { }
    assert forall fd :: fd in base ==> fd in t;
  }

  /** What AbortSpawn needs, from the layout. */
  lemma LaidOwn(m: Machine, base: FdTable, g: nat, plan: Plan, prev: Option<nat>, next: Option<nat>)
    requires LaidPlan(base, g, plan, m.fds, prev, next) && {m.eventR, m.eventW} <= base.Keys && -1 !in base
    ensures Own(m, plan.nextR) && Own(m, plan.nextW) && Own(m, plan.pipeIn) && Own(m, plan.gateR) && Own(m, plan.gateW)
    ensures Apart2(plan.nextR, plan.nextW) && Apart2(plan.nextR, plan.pipeIn) && Apart2(plan.nextR, plan.gateR)
    ensures Apart2(plan.nextR, plan.gateW)
    ensures Apart2(plan.nextW, plan.pipeIn) && Apart2(plan.nextW, plan.gateR) && Apart2(plan.nextW, plan.gateW)
    ensures Apart2(plan.pipeIn, plan.gateR) && Apart2(plan.pipeIn, plan.gateW) && plan.gateR != plan.gateW
    ensures plan.gateW >= 0
    ensures m.fds[plan.gateW].desc == PipeEnd(g, true) && plan.gateR >= 0 && m.fds[plan.gateR].desc == PipeEnd(g, false)
    ensures m.fds - {plan.nextR, plan.nextW, plan.pipeIn, plan.gateR, plan.gateW} == base
  {
    PlanFdsNew(base, plan);
    hide NewFds, PlanFds;
    assert (m.fds - {plan.nextR, plan.nextW, plan.pipeIn, plan.gateR, plan.gateW}).Keys == base.Keys;
  }

  /** Once a stage is forked the shell drops the previous pipe and the new write end. */
  lemma NextParentFds(base: FdTable, g: nat, plan: Plan, table: FdTable, prev: Option<nat>, next: Option<nat>)
    requires LaidPlan(base, g, plan, table, prev, next) && -1 !in base
    ensures table - {plan.pipeIn} - {plan.nextW} == ParentFds(base, plan.gateR, plan.gateW, g, plan.nextR, next)
    ensures NewFds(base, [plan.gateR, plan.gateW] + (if plan.nextR >= 0 then [plan.nextR] else []))
  {
    PlanFdsNew(base, plan);
    hide NewFds, PlanFds;
    assert (table - {plan.pipeIn} - {plan.nextW}).Keys
        == ParentFds(base, plan.gateR, plan.gateW, g, plan.nextR, next).Keys;
    ShortNewFds(base, plan);
  }

  lemma ShortNewFds(base: FdTable, plan: Plan)
    requires NewFds(base, PlanFds(plan)) && (plan.nextR >= 0 ==> plan.next)
    ensures NewFds(base, [plan.gateR, plan.gateW] + (if plan.nextR >= 0 then [plan.nextR] else []))
  {
    PlanFdsNew(base, plan);
  }

  /** A failed turn of the loop has undone the whole launch. */
  ghost predicate Undone(sh: Shell, g: nat, base: FdTable)
    reads sh, sh.m, sh.mgr
  {
    && sh.m.Valid() && sh.m.fds == base
    && Synced(sh.m.w, sh.mgr.jobs, multiset{}) && NeverReleased(sh.m.w, g)
  }

  method Undo(sh: Shell, ghost chain: seq<Cmd>, plan: Plan, pgid: Pid, pids: seq<Pid>, ghost joined: nat,
              ghost g: nat, ghost base: FdTable, ghost ids: seq<nat>, ghost prev: Option<nat>, ghost next: Option<nat>)
    requires sh.m.Valid() && Work(sh.m.w, sh.mgr.jobs, pids, joined, g, pgid, base, Redirects(chain), ids)
    requires LaidPlan(base, g, plan, sh.m.fds, prev, next) && {sh.m.eventR, sh.m.eventW} <= base.Keys && -1 !in base
    modifies sh.m`w, sh.m`fds, sh.m`log, sh.m`faults
    ensures Undone(sh, g, base) && Kept(old(sh.m.w), sh.m.w, sh.m.shellPgid) && sh.m.faults >= old(sh.m.faults)
  {
    hide Work, Synced, LaidPlan, NeverReleased, Flows;
    WorkHeld(sh.m.w, sh.mgr.jobs, pids, joined, g, pgid, base, Redirects(chain), ids);
    LaidOwn(sh.m, base, g, plan, prev, next);
    ghost var w0 := sh.m.w;
    AbortSpawn(sh.m, plan.nextR, plan.nextW, plan.pipeIn, plan.gateR, plan.gateW, pgid, pids, g, sh.mgr.jobs, base);
    FlowsMine(w0, sh.m.w, sh.m.shellPgid);
  }

  /** The pipe to the next stage, if there is a next stage. */
  method MakePipe(sh: Shell, chain: seq<Cmd>, gateR: int, gateW: int, pipeIn: int, pids: seq<Pid>, pgid: Pid,
                  ghost g: nat, ghost base: FdTable, ghost ids: seq<nat>)
    returns (r: int, plan: Plan, ghost ids': seq<nat>)
    requires Spawning(sh, chain, gateR, gateW, pipeIn, pids, pgid, g, base, ids) && |pids| < |chain|
    modifies sh.m`w, sh.m`fds, sh.m`log, sh.m`faults, sh.m`peak
    ensures (r == OK && Piped(sh, chain, plan, pids, pgid, g, base, ids')) || (r == ERR_PIPE && Undone(sh, g, base))
    ensures plan.gateR == gateR && plan.gateW == gateW
    ensures sh.m.faults >= old(sh.m.faults) && (r != OK ==> sh.m.faults > old(sh.m.faults))
    ensures Kept(old(sh.m.w), sh.m.w, sh.m.shellPgid)
    ensures sh.m.peak <= old(sh.m.peak) || sh.m.peak <= |base| + 5
  {
    hide Work, WorldOk, Accounted, Homes, Drifts, NewFds, LaidPlan, TableOk, NoneDone, GroupOk, Inheritance;
    var m := sh.m;
    var k := |pids|;
    ghost var w0, jobs, redirects := m.w, sh.mgr.jobs, Redirects(chain);
    ghost var prev := if pipeIn >= 0 then Some(ids[k - 1]) else None;
    assert prev == PipeInto(ids, k);
    plan, ids' := PlanOf(chain, k, gateR, gateW, pipeIn, -1, -1), ids;
    if k + 1 < |chain| {
      var table := m.fds;
      var ok, nextR, nextW, id := m.Pipe();
      if !ok {
        WorkStable(w0, m.w, jobs, pids, k, g, pgid, base, redirects, ids);
        KeptCall(w0, m.w, m.shellPgid);
        ghost var w1 := m.w;
        NoPipeLaid(base, g, gateR, gateW, pipeIn, chain[k].redirect, prev);
        plan := plan.(next := false);
        Undo(sh, chain, plan, pgid, pids, k, g, base, ids, prev, None);
        return ERR_PIPE, plan, ids;
      }
      BasePipes(m, w0, table, base, gateR, gateW, g, pipeIn, prev);
      WorkNewPipe(w0, id, jobs, pids, g, pgid, base, redirects, ids);
      WorkStable(WithGate(w0, id, NEW_GATE), m.w, jobs, pids, k, g, pgid, base, redirects, ids + [id]);
      SameChildrenHomes(w0, WithGate(w0, id, NEW_GATE), m.shellPgid);
      KeptCall(WithGate(w0, id, NEW_GATE), m.w, m.shellPgid);
      PipeLaid(base, g, gateR, gateW, pipeIn, chain[k].redirect, prev, nextR, nextW, id);
      plan, ids' := PlanOf(chain, k, gateR, gateW, pipeIn, nextR, nextW), ids + [id];
      assert PipeInto(ids', k) == prev && PipeOutOf(ids', k, |chain|) == Some(id);
    } else {
      NoPipeLaid(base, g, gateR, gateW, pipeIn, chain[k].redirect, prev);
    }
    r := OK;
  }

  /** A pipe the shell knew before the launch is a pipe the kernel knows. */
  lemma BasePipes(m: Machine, w: World, table: FdTable, base: FdTable, gateR: int, gateW: int, g: nat, pipeIn: int,
                  prev: Option<nat>)
    requires table == ParentFds(base, gateR, gateW, g, pipeIn, prev) && (prev.Some? ==> pipeIn >= 0)
    requires NewFds(base, [gateR, gateW] + (if pipeIn >= 0 then [pipeIn] else []))
    requires forall fd :: fd in table && table[fd].desc.PipeEnd? ==> table[fd].desc.id in w.gates
    ensures forall fd :: fd in base && base[fd].desc.PipeEnd? ==> base[fd].desc.id in w.gates
  {
    var fds := [gateR, gateW] + (if pipeIn >= 0 then [pipeIn] else []);
    assert fds[0] == gateR && fds[1] == gateW && (pipeIn >= 0 ==> fds[2] == pipeIn);
    forall fd | fd in base && base[fd].desc.PipeEnd? ensures base[fd].desc.id in w.gates {
      assert table[fd] == base[fd];
    }
  }

  /** fork and setpgid_parent for one stage. */
  method ForkStage(sh: Shell, chain: seq<Cmd>, plan: Plan, pids: seq<Pid>, pgid: Pid,
                   ghost g: nat, ghost base: FdTable, ghost ids: seq<nat>)
    returns (r: int, pids': seq<Pid>, pgid': Pid)
    requires Piped(sh, chain, plan, pids, pgid, g, base, ids)
    modifies sh.m`w, sh.m`fds, sh.m`log, sh.m`faults
    ensures Kept(old(sh.m.w), sh.m.w, sh.m.shellPgid)
    ensures sh.m.faults >= old(sh.m.faults) && (r != OK ==> sh.m.faults > old(sh.m.faults))
    ensures ((r == ERR_FORK || r == ERR_UNKNOWN) && Undone(sh, g, base)) ||
      (r == OK && |pids'| == |pids| + 1 && sh.m.fds == old(sh.m.fds) && Grounded(sh, chain, pids', pgid', base)
        && Work(sh.m.w, sh.mgr.jobs, pids', |pids'|, g, pgid', base, Redirects(chain), ids))
  {
    hide Work, WorldOk, Accounted, Homes, Drifts, LaidPlan, TableOk, NoneDone, Redirects, Synced, Held, HeldIn,
         GroupOk, NeverReleased;
    GroupTarget(sh.mgr.jobs, pids, pgid, sh.m.shellPgid);
    var m := sh.m;
    var k := |pids|;
    ghost var w0, jobs, redirects := m.w, sh.mgr.jobs, Redirects(chain);
    ghost var prev, next := PipeInto(ids, k), PipeOutOf(ids, k, |chain|);
    pids', pgid' := pids, pgid;
    WorkHeld(m.w, jobs, pids, k, g, pgid, base, redirects, ids);
    LaidOwn(m, base, g, plan, prev, next);
    var pid := m.Fork(pgid, plan);
    if pid <= 0 {
      WorkStable(w0, m.w, jobs, pids, k, g, pgid, base, redirects, ids);
      KeptCall(w0, m.w, m.shellPgid);
      Undo(sh, chain, plan, pgid, pids, k, g, base, ids, prev, next);
      return ERR_FORK, pids, pgid;
    }
    ghost var c := NewChild(pid, m.shellPgid, pgid, g, plan, m.fds);
    NewPidGroup(w0, jobs, sh.mgr.nextId, pids, pgid, pid, m.shellPgid);
    RedirectsAt(chain, k);
    WorkFork(w0, pid, c, jobs, pids, g, pgid, base, redirects, ids);
    pids' := pids + [pid];
    pgid' := if pgid == 0 then pid else pgid;
    ForkHomes(w0, pid, c, m.shellPgid);
    KeptCall(ForkEffect(w0, pid, c), m.w, m.shellPgid);
    WorkStable(ForkEffect(w0, pid, c), m.w, jobs, pids', k, g, pgid', base, redirects, ids);
    ghost var w1 := m.w;
    WorkHeld(w1, jobs, pids', k, g, pgid', base, redirects, ids);
    var ok := m.SetPgid(pid, pgid');
    GroupStep(w1, m.w, pid, pids', pgid', ok, jobs, g, base, redirects, ids, m.shellPgid);
    if !ok {
      Undo(sh, chain, plan, pgid', pids', k, g, base, ids, prev, next);
      return ERR_UNKNOWN, pids', pgid';
    }
    r := OK;
  }

  lemma GroupTarget(jobs: seq<Job>, pids: seq<Pid>, pgid: Pid, shell: Pid)
    requires GroupOk(jobs, pids, pgid, shell) && shell > 0
    ensures pgid >= 0 && pgid != shell && (pgid == 0 <==> pids == [])
  {
  }

  lemma RedirectsAt(chain: seq<Cmd>, k: nat)
    requires k < |chain|
    ensures |Redirects(chain)| == |chain| && Redirects(chain)[k] == chain[k].redirect
  {
  }

  lemma NewPidGroup(w: World, jobs: seq<Job>, nextId: int, pids: seq<Pid>, pgid: Pid, pid: Pid, shell: Pid)
    requires Synced(w, jobs, multiset(pids)) && TableOk(jobs, nextId) && NoneDone(jobs) && FreshPid(w, pid)
    requires pid != shell
    requires GroupOk(jobs, pids, pgid, shell)
    ensures GroupOk(jobs, pids + [pid], if pgid == 0 then pid else pgid, shell)
  {
  }

  lemma ForkHomes(w: World, pid: Pid, c: Child, shell: Pid)
    requires Homes(w, shell) && c.gate in w.gates && c.target != shell && c.pgid == shell
    ensures Homes(ForkEffect(w, pid, c), shell)
  {
  }

  /** The world after setpgid_parent, whatever it returned. */
  lemma GroupStep(w1: World, w2: World, pid: Pid, pids: seq<Pid>, pgid: Pid, ok: bool, jobs: seq<Job>, g: nat,
                  base: FdTable, redirects: seq<Redirect>, ids: seq<nat>, shell: Pid)
    requires pids != [] && pids[|pids| - 1] == pid && pid in w1.children && w1.children[pid].target == pgid
    requires WorldOk(w1) && Homes(w1, shell)
    requires Work(w1, jobs, pids, |pids| - 1, g, pgid, base, redirects, ids)
    requires ok ==>
      || (w1.children[pid].death.Some? && Rely(w1, w2))
      || (w1.children[pid].phase.Passed? && Rely(w1, w2))
      || Rely(SetChild(w1, pid, w1.children[pid].(pgid := pgid)), w2)
    requires !ok ==> Rely(w1, w2)
    ensures Work(w2, jobs, pids, if ok then |pids| else |pids| - 1, g, pgid, base, redirects, ids)
    ensures Kept(w1, w2, shell)
  {
    hide Work, Drifts, Homes, WorldOk;
    var moved := SetChild(w1, pid, w1.children[pid].(pgid := pgid));
    WorkRegroup(w1, jobs, pids, g, pgid, base, redirects, ids);
    RegroupHomes(w1, pid, pgid, shell);
    if !ok {
      WorkStable(w1, w2, jobs, pids, |pids| - 1, g, pgid, base, redirects, ids);
      KeptCall(w1, w2, shell);
    } else if Rely(moved, w2) {
      WorkStable(moved, w2, jobs, pids, |pids|, g, pgid, base, redirects, ids);
      KeptCall(moved, w2, shell);
    } else {
      WorkJoined(w1, jobs, pids, g, pgid, base, redirects, ids);
      WorkStable(w1, w2, jobs, pids, |pids|, g, pgid, base, redirects, ids);
      KeptCall(w1, w2, shell);
    }
  }

  lemma WorkJoined(w: World, jobs: seq<Job>, pids: seq<Pid>, g: nat, pgid: Pid,
                   base: FdTable, redirects: seq<Redirect>, ids: seq<nat>)
    requires pids != [] && WorldOk(w) && Work(w, jobs, pids, |pids| - 1, g, pgid, base, redirects, ids)
    requires var p := pids[|pids| - 1]; p in w.children && (w.children[p].death.Some? || w.children[p].phase.Passed?)
    ensures Work(w, jobs, pids, |pids|, g, pgid, base, redirects, ids)
  {
  }

  lemma RegroupHomes(w: World, pid: Pid, pgid: Pid, shell: Pid)
    requires Homes(w, shell) && pid in w.children && w.children[pid].target == pgid
    ensures Homes(SetChild(w, pid, w.children[pid].(pgid := pgid)), shell)
  {
  }

  /** The closes at the end of a turn. */
  method DropEnd(sh: Shell, fd: int, pids: seq<Pid>, ghost joined: nat, pgid: Pid, ghost redirects: seq<Redirect>,
                 ghost g: nat, ghost base: FdTable, ghost ids: seq<nat>)
    requires sh.m.Valid() && Work(sh.m.w, sh.mgr.jobs, pids, joined, g, pgid, base, redirects, ids) && Own(sh.m, fd)
    modifies sh.m`w, sh.m`fds
    ensures sh.m.Valid() && Work(sh.m.w, sh.mgr.jobs, pids, joined, g, pgid, base, redirects, ids)
    ensures sh.m.fds == old(sh.m.fds) - {fd} && |sh.m.fds| == |old(sh.m.fds)| - if fd >= 0 then 1 else 0
    ensures Kept(old(sh.m.w), sh.m.w, sh.m.shellPgid)
  {
    hide Work, Drifts, WorldOk, Accounted, Homes;
    if fd >= 0 {
      ghost var w0, d := sh.m.w, sh.m.fds[fd].desc;
      WorkHeld(w0, sh.mgr.jobs, pids, joined, g, pgid, base, redirects, ids);
      sh.m.Close(fd);
      ghost var mid := CloseEffect(w0, d);
      WorkSameChildren(w0, mid, sh.mgr.jobs, pids, joined, g, pgid, base, redirects, ids);
      WorkStable(mid, sh.m.w, sh.mgr.jobs, pids, joined, g, pgid, base, redirects, ids);
      SameChildrenHomes(w0, mid, sh.m.shellPgid);
      KeptCall(mid, sh.m.w, sh.m.shellPgid);
    }
  }

  /** The exit for a chain longer than the array of pids. */
  method TooLong(sh: Shell, chain: seq<Cmd>, gateR: int, gateW: int, pipeIn: int, pids: seq<Pid>, pgid: Pid,
                 ghost g: nat, ghost base: FdTable, ghost ids: seq<nat>)
    requires Spawning(sh, chain, gateR, gateW, pipeIn, pids, pgid, g, base, ids) && |pids| < |chain|
    modifies sh.m`w, sh.m`fds, sh.m`log, sh.m`faults
    ensures Undone(sh, g, base) && Kept(old(sh.m.w), sh.m.w, sh.m.shellPgid) && sh.m.faults >= old(sh.m.faults)
  {
    hide Work, WorldOk, Accounted, Homes, Drifts, NewFds, LaidPlan, TableOk, NoneDone, GroupOk, ParentFds, Undone,
         Redirects;
    ghost var prev := if pipeIn >= 0 then Some(ids[|pids| - 1]) else None;
    NoPipeLaid(base, g, gateR, gateW, pipeIn, chain[|pids|].redirect, prev);
    var plan := Plan(gateR, gateW, pipeIn, false, -1, -1, chain[|pids|].redirect);
    Undo(sh, chain, plan, pgid, pids, |pids|, g, base, ids, prev, None);
  }

  /** The closes after a successful fork. */
  method EndTurn(sh: Shell, chain: seq<Cmd>, plan: Plan, pids: seq<Pid>, pgid: Pid,
                 ghost g: nat, ghost base: FdTable, ghost ids: seq<nat>)
    requires pids != [] && Grounded(sh, chain, pids, pgid, base)
    requires Work(sh.m.w, sh.mgr.jobs, pids, |pids|, g, pgid, base, Redirects(chain), ids)
    requires |ids| == (if |pids| < |chain| then |pids| else |chain| - 1)
    requires LaidPlan(base, g, plan, sh.m.fds, PipeInto(ids, |pids| - 1), PipeOutOf(ids, |pids| - 1, |chain|))
    modifies sh.m`w, sh.m`fds
    ensures Spawning(sh, chain, plan.gateR, plan.gateW, plan.nextR, pids, pgid, g, base, ids)
    ensures Kept(old(sh.m.w), sh.m.w, sh.m.shellPgid)
  {
    hide Work, WorldOk, Accounted, Homes, Drifts, NewFds, LaidPlan, TableOk, NoneDone, GroupOk, ParentFds, Redirects;
    ghost var table := sh.m.fds;
    ghost var prev, next := PipeInto(ids, |pids| - 1), PipeOutOf(ids, |pids| - 1, |chain|);
    LaidOwn(sh.m, base, g, plan, prev, next);
    NextParentFds(base, g, plan, table, prev, next);
    LaidEnds(base, g, plan, table, prev, next);
    DropEnd(sh, plan.pipeIn, pids, |pids|, pgid, Redirects(chain), g, base, ids);
    DropEnd(sh, plan.nextW, pids, |pids|, pgid, Redirects(chain), g, base, ids);
    ParentCount(sh.m, base, plan.gateR, plan.gateW, g, plan.nextR, next);
  }

  /** One turn of the loop. */
  method SpawnStage(sh: Shell, chain: seq<Cmd>, gateR: int, gateW: int, pipeIn: int, pids: seq<Pid>, pgid: Pid,
                    ghost g: nat, ghost base: FdTable, ghost ids: seq<nat>)
    returns (r: int, pids': seq<Pid>, pgid': Pid, pipeIn': int, ghost ids': seq<nat>)
    requires Spawning(sh, chain, gateR, gateW, pipeIn, pids, pgid, g, base, ids) && |pids| < |chain|
    modifies sh.m`w, sh.m`fds, sh.m`log, sh.m`faults, sh.m`peak
    ensures r == OK ==> |pids'| == |pids| + 1 <= MAX_PIPELINE
    ensures r == OK ==> Spawning(sh, chain, gateR, gateW, pipeIn', pids', pgid', g, base, ids')
    ensures r != OK ==> r < 0 && Undone(sh, g, base) && (sh.m.faults > old(sh.m.faults) || |chain| > MAX_PIPELINE)
    ensures sh.m.faults >= old(sh.m.faults)
    ensures Kept(old(sh.m.w), sh.m.w, sh.m.shellPgid)
    ensures sh.m.peak <= old(sh.m.peak) || sh.m.peak <= |base| + 5
  {
    hide Work, WorldOk, Accounted, Homes, Drifts, NewFds, LaidPlan, TableOk, NoneDone, GroupOk, Inheritance,
         ParentFds, Synced, NeverReleased, Undone, Redirects;
    var m := sh.m;
    var plan;
    pids', pgid', pipeIn', ids' := pids, pgid, pipeIn, ids;
    if |pids| >= MAX_PIPELINE {
      TooLong(sh, chain, gateR, gateW, pipeIn, pids, pgid, g, base, ids);
      r := ERR_UNKNOWN;
      return;
    }
    r, plan, ids' := MakePipe(sh, chain, gateR, gateW, pipeIn, pids, pgid, g, base, ids);
    if r != OK { return; }
    r, pids', pgid' := ForkStage(sh, chain, plan, pids, pgid, g, base, ids');
    if r != OK { return; }
    EndTurn(sh, chain, plan, pids', pgid', g, base, ids');
    pipeIn' := plan.nextR;
  }

  lemma LaidEnds(base: FdTable, g: nat, plan: Plan, table: FdTable, prev: Option<nat>, next: Option<nat>)
    requires LaidPlan(base, g, plan, table, prev, next)
    ensures (plan.nextR >= 0 <==> next.Some?) && (plan.nextR < 0 ==> plan.nextR == -1)
    ensures next.Some? ==> plan.nextW > 2
  {
    PlanFdsNew(base, plan);
  }

  lemma ParentCount(m: Machine, base: FdTable, gateR: int, gateW: int, g: nat, pipeIn: int, prev: Option<nat>)
    requires m.fds == ParentFds(base, gateR, gateW, g, pipeIn, prev)
    ensures |m.fds| <= |base| + 3
  {
  }

  // ---------------------------------------------------------------- the gate

  /** The shell's table with a fresh gate on top. */
  ghost predicate Gated(m: Machine, base: FdTable, gateR: int, gateW: int, g: nat)
    reads m
  {
    && NewFds(base, [gateR, gateW])
    && m.fds == ParentFds(base, gateR, gateW, g, -1, None)
  }

  /** startup_gate_create */
  method CreateGate(sh: Shell) returns (ok: bool, gateR: int, gateW: int, ghost g: nat)
    requires sh.m.Valid() && Synced(sh.m.w, sh.mgr.jobs, multiset{})
    modifies sh.m`w, sh.m`fds, sh.m`peak, sh.m`faults
    ensures sh.m.Valid() && Synced(sh.m.w, sh.mgr.jobs, multiset{}) && Kept(old(sh.m.w), sh.m.w, sh.m.shellPgid)
    ensures ok ==> Gated(sh.m, old(sh.m.fds), gateR, gateW, g)
    ensures ok ==> g in sh.m.w.gates && sh.m.w.gates[g] == NEW_GATE
    ensures ok ==> forall fd :: fd in old(sh.m.fds) && old(sh.m.fds)[fd].desc.PipeEnd? ==>
      old(sh.m.fds)[fd].desc.id != g
    ensures !ok ==> sh.m.fds == old(sh.m.fds)
    ensures sh.m.faults == old(sh.m.faults) + Fault(ok)
    ensures sh.m.peak <= old(sh.m.peak) || sh.m.peak <= |old(sh.m.fds)| + 5
  {
    hide Synced, WorldOk, Accounted, Homes, Drifts;
    var m := sh.m;
    ghost var w0, base, jobs := m.w, m.fds, sh.mgr.jobs;
    ok, gateR, gateW, g := m.Pipe();
    if !ok {
      SyncedStable(w0, m.w, jobs, multiset{});
      KeptCall(w0, m.w, m.shellPgid);
      return;
    }
    ghost var mid := WithGate(w0, g, NEW_GATE);
    SameChildrenSynced(w0, mid, jobs, multiset{});
    SyncedStable(mid, m.w, jobs, multiset{});
    SameChildrenHomes(w0, mid, m.shellPgid);
    KeptCall(mid, m.w, m.shellPgid);
    UntouchedGate(mid, m.w, g);
    ok := SealGate(m, gateR, gateW, g, base, jobs);
  }

  /** set_cloexec on both ends, or the gate is closed again. */
  method SealGate(m: Machine, gateR: int, gateW: int, ghost g: nat, ghost base: FdTable, ghost jobs: seq<Job>)
    returns (ok: bool)
    requires m.Valid() && Synced(m.w, jobs, multiset{}) && g in m.w.gates && m.w.gates[g] == NEW_GATE
    requires gateR > 2 && gateW > 2 && gateR != gateW && gateR !in base && gateW !in base
    requires {m.eventR, m.eventW} <= base.Keys
    requires m.fds == Pair(base, gateR, gateW, g, false, false)
    modifies m`w, m`fds, m`faults
    ensures m.Valid() && Synced(m.w, jobs, multiset{}) && Kept(old(m.w), m.w, m.shellPgid)
    ensures m.faults == old(m.faults) + Fault(ok)
    ensures ok ==> Gated(m, base, gateR, gateW, g) && m.w == old(m.w)
    ensures !ok ==> m.fds == base
  {
    hide Synced, WorldOk, Accounted, Homes;
    ok := m.SetCloexec(gateR);
    ghost var c := ok;
    PairSealed(base, gateR, gateW, g, c);
    if ok { ok := m.SetCloexec(gateW); }
    if !ok {
      GateGone(base, gateR, gateW, g, c);
      CloseGate(m, gateR, gateW, jobs);
    }
  }

  function Pair(base: FdTable, gateR: int, gateW: int, g: nat, c: bool, c': bool): FdTable {
    base[gateR := Entry(PipeEnd(g, false), c)][gateW := Entry(PipeEnd(g, true), c')]
  }

  method CloseGate(m: Machine, gateR: int, gateW: int, ghost jobs: seq<Job>)
    requires m.Valid() && Synced(m.w, jobs, multiset{})
    requires Own(m, gateR) && Own(m, gateW) && gateR > 2 && gateW > 2 && gateR != gateW
    modifies m`w, m`fds
    ensures m.Valid() && Synced(m.w, jobs, multiset{}) && Kept(old(m.w), m.w, m.shellPgid)
    ensures m.fds == old(m.fds) - {gateR} - {gateW}
  {
    hide Synced, WorldOk, Accounted, Homes;
    CloseListed(m, gateR, jobs);
    CloseListed(m, gateW, jobs);
  }

  lemma PairSealed(base: FdTable, gateR: int, gateW: int, g: nat, c: bool)
    requires gateR != gateW
    ensures Pair(base, gateR, gateW, g, false, false)[gateR := Entry(PipeEnd(g, false), true)] ==
      Pair(base, gateR, gateW, g, true, false)
    ensures Pair(base, gateR, gateW, g, c, false)[gateW := Entry(PipeEnd(g, true), true)] ==
      Pair(base, gateR, gateW, g, c, true)
    ensures Pair(base, gateR, gateW, g, false, false)[gateR] == Entry(PipeEnd(g, false), false)
    ensures Pair(base, gateR, gateW, g, c, false)[gateW] == Entry(PipeEnd(g, true), false)
  {
  }

  lemma GateGone(base: FdTable, gateR: int, gateW: int, g: nat, c: bool)
    requires gateR !in base && gateW !in base
    ensures Pair(base, gateR, gateW, g, c, false) - {gateR} - {gateW} == base
  {
  }

  lemma UntouchedGate(a: World, b: World, g: nat)
    requires Drifts(a, b) && g in a.gates && a.gates[g] == NEW_GATE
    ensures g in b.gates && b.gates[g] == NEW_GATE
  {
  }

  lemma WorkStart(w: World, jobs: seq<Job>, g: nat, base: FdTable, redirects: seq<Redirect>)
    requires Synced(w, jobs, multiset{}) && g in w.gates && w.gates[g] == NEW_GATE
    ensures Work(w, jobs, [], 0, g, 0, base, redirects, [])
  {
  }

  // ---------------------------------------------------------------- whole launches

  /** A launch as it stood when its last stage had been forked. */
  datatype Forking = Forking(w: World, g: nat, pids: seq<Pid>, pgid: Pid, ids: seq<nat>)

  /** Every stage of the chain is a child in the launch's group, in chain order, with its share of
      the pipes, and none of them is past the gate. */
  ghost predicate WellForked(f: Forking, chain: seq<Cmd>, base: FdTable, jobs: seq<Job>) {
    && 0 < |f.pids| == |chain| <= MAX_PIPELINE
    && Held(f.w, jobs, f.pids, |f.pids|, f.g, f.pgid)
    && f.pgid == f.pids[0]
    && LaidOut(f.w, base, f.g, Redirects(chain), f.pids, f.ids)
    && FreshPipes(base, [f.g] + f.ids) && |f.ids| + 1 == |chain|
  }

  lemma WorkForked(w: World, jobs: seq<Job>, pids: seq<Pid>, g: nat, pgid: Pid, base: FdTable, chain: seq<Cmd>,
                   ids: seq<nat>)
    requires Work(w, jobs, pids, |pids|, g, pgid, base, Redirects(chain), ids)
    requires |pids| == |chain| <= MAX_PIPELINE && chain != [] && pgid == pids[0] && |ids| + 1 == |chain|
    requires forall fd :: fd in base && base[fd].desc.PipeEnd? ==> base[fd].desc.id != g
    ensures WellForked(Forking(w, g, pids, pgid, ids), chain, base, jobs)
    ensures Held(w, jobs, pids, |pids|, g, pgid)
  {
  }

  /** The descriptors of stage k at exec, if its redirections and moves succeed. */
  function StageTable(chain: seq<Cmd>, base: FdTable, ids: seq<nat>, k: nat, eventR: int, eventW: int): FdTable
    requires k < |chain| && 0 in base && 1 in base
  {
    AfterExec(Promised(base, chain[k].redirect, PipeInto(ids, k), PipeOutOf(ids, k, |chain|), eventR, eventW))
  }

  predicate Holds(chain: seq<Cmd>, base: FdTable, ids: seq<nat>, k: int, eventR: int, eventW: int, fd: int, d: Desc)
    requires 0 in base && 1 in base
  {
    && 0 <= k < |chain|
    && fd in StageTable(chain, base, ids, k, eventR, eventW)
    && StageTable(chain, base, ids, k, eventR, eventW)[fd].desc == d
  }

  /** The wiring of a launch as a whole.  Each stage has what ChildFds.Prepare asks for, so what it
      makes of its descriptors is its StageTable; over all those tables each end of each pipe is held
      by at most one descriptor of one stage, and no end of the gate by any. */
  lemma PipelineWired(f: Forking, chain: seq<Cmd>, base: FdTable, jobs: seq<Job>, eventR: int, eventW: int)
    requires WellForked(f, chain, base, jobs) && 0 in base && 1 in base
    ensures forall k :: 0 <= k < |chain| ==>
      && f.pids[k] in f.w.children
      && f.w.children[f.pids[k]].plan.redirect == chain[k].redirect
      && Laid(base, f.g, f.w.children[f.pids[k]], PipeInto(f.ids, k), PipeOutOf(f.ids, k, |chain|))
    ensures forall i, write, k, fd, k', fd' ::
      (&& 0 <= i < |f.ids|
       && Holds(chain, base, f.ids, k, eventR, eventW, fd, PipeEnd(f.ids[i], write))
       && Holds(chain, base, f.ids, k', eventR, eventW, fd', PipeEnd(f.ids[i], write))) ==> k == k' && fd == fd'
    ensures forall write, k, fd :: !Holds(chain, base, f.ids, k, eventR, eventW, fd, PipeEnd(f.g, write))
  {
    hide Held;
    var redirects := Redirects(chain);
    forall k | 0 <= k < |chain|
      ensures f.pids[k] in f.w.children && f.w.children[f.pids[k]].plan.redirect == chain[k].redirect
      ensures Laid(base, f.g, f.w.children[f.pids[k]], PipeInto(f.ids, k), PipeOutOf(f.ids, k, |chain|))
    {
      assert LaidStage(f.w, base, f.g, redirects, f.pids, f.ids, k);
    }
    TailFresh(base, f.g, f.ids);
    hide Laid, LaidStage, LaidOut;
    forall i, write, k, fd | 0 <= i < |f.ids|
                             && Holds(chain, base, f.ids, k, eventR, eventW, fd, PipeEnd(f.ids[i], write))
      ensures (k, fd) == if write then (i, 1) else (i + 1, 0)
    {
      OneReaderOneWriter(base, redirects, f.ids, eventR, eventW, k, fd, i);
    }
    forall write, k, fd ensures !Holds(chain, base, f.ids, k, eventR, eventW, fd, PipeEnd(f.g, write)) {
      if 0 <= k < |chain| { NoGateEnd(chain, base, f.g, f.ids, k, eventR, eventW, fd, write); }
    }
  }

  /** What stage k of n has on its descriptors at exec, said outright.  A file named by the command
      is opened at exactly that path, for writing on 1 and for reading on 0, and appended to exactly
      when the command says so; otherwise 0 and 1 are the pipes to the neighbours, or at the ends of
      the pipeline what the shell has there.  Everything else is the shell's, without its event pipe
      and whatever closes on exec. */
  lemma StageFiles(chain: seq<Cmd>, base: FdTable, ids: seq<nat>, k: nat, eventR: int, eventW: int)
    requires k < |chain| && |ids| + 1 == |chain| && 0 in base && 1 in base && eventR > 2 && eventW > 2
    ensures
      var t, redirect := StageTable(chain, base, ids, k, eventR, eventW), chain[k].redirect;
      && (redirect.output.Some? ==>
            1 in t && t[1].desc == Opened(redirect.output.value, true, redirect.append))
      && (redirect.output.None? && k + 1 < |chain| ==> 1 in t && t[1].desc == PipeEnd(ids[k], true))
      && (redirect.output.None? && k + 1 == |chain| ==>
            if base[1].cloexec then 1 !in t else 1 in t && t[1] == base[1])
      && (redirect.input.Some? ==> 0 in t && t[0].desc == Opened(redirect.input.value, false, false))
      && (redirect.input.None? && k > 0 ==> 0 in t && t[0].desc == PipeEnd(ids[k - 1], false))
      && (redirect.input.None? && k == 0 ==>
            if base[0].cloexec then 0 !in t else 0 in t && t[0] == base[0])
      && (forall fd :: fd != 0 && fd != 1 ==>
            (fd in t <==> fd in base && fd != eventR && fd != eventW && !base[fd].cloexec))
      && (forall fd :: fd != 0 && fd != 1 && fd in t ==> t[fd] == base[fd])
  {
  }

  lemma TailFresh(base: FdTable, g: nat, ids: seq<nat>)
    requires FreshPipes(base, [g] + ids)
    ensures FreshPipes(base, ids) && g !in ids
    ensures forall fd :: fd in base && base[fd].desc.PipeEnd? ==> base[fd].desc.id != g
  {
    var all := [g] + ids;
    assert forall i :: 0 <= i < |ids| ==> all[i + 1] == ids[i];
    assert all[0] == g;
  }

  lemma NoGateEnd(chain: seq<Cmd>, base: FdTable, g: nat, ids: seq<nat>, k: nat, eventR: int, eventW: int, fd: int,
                  write: bool)
    requires k < |chain| && 0 in base && 1 in base && g !in ids
    requires forall fd :: fd in base && base[fd].desc.PipeEnd? ==> base[fd].desc.id != g
    ensures !Holds(chain, base, ids, k, eventR, eventW, fd, PipeEnd(g, write))
  {
    var prev, next := PipeInto(ids, k), PipeOutOf(ids, k, |chain|);
    assert prev.Some? ==> prev.value in ids;
    assert next.Some? ==> next.value in ids;
    assert base[0].desc.PipeEnd? ==> base[0].desc.id != g;
    assert base[1].desc.PipeEnd? ==> base[1].desc.id != g;
  }

  /** The whole fork loop. */
  method SpawnAll(sh: Shell, chain: seq<Cmd>, gateR: int, gateW: int, ghost g: nat, ghost base: FdTable)
    returns (r: int, pids: seq<Pid>, pgid: Pid, ghost ids: seq<nat>)
    requires Spawning(sh, chain, gateR, gateW, -1, [], 0, g, base, []) && chain != []
    modifies sh.m`w, sh.m`fds, sh.m`log, sh.m`faults, sh.m`peak
    ensures r == OK ==>
      |pids| == |chain| <= MAX_PIPELINE && Spawning(sh, chain, gateR, gateW, -1, pids, pgid, g, base, ids)
    ensures r != OK ==> r < 0 && Undone(sh, g, base) && (sh.m.faults > old(sh.m.faults) || |chain| > MAX_PIPELINE)
    ensures sh.m.faults >= old(sh.m.faults)
    ensures Kept(old(sh.m.w), sh.m.w, sh.m.shellPgid)
    ensures sh.m.peak <= old(sh.m.peak) || sh.m.peak <= |base| + 5
  {
    hide Spawning, Undone;
    var pipeIn := -1;
    r, pids, pgid, ids := OK, [], 0, [];
    while |pids| < |chain|
      invariant r == OK && |pids| <= |chain| && |pids| <= MAX_PIPELINE
      invariant Spawning(sh, chain, gateR, gateW, pipeIn, pids, pgid, g, base, ids)
      invariant Kept(old(sh.m.w), sh.m.w, sh.m.shellPgid) && sh.m.faults >= old(sh.m.faults)
      invariant sh.m.peak <= old(sh.m.peak) || sh.m.peak <= |base| + 5
    {
      r, pids, pgid, pipeIn, ids := SpawnStage(sh, chain, gateR, gateW, pipeIn, pids, pgid, g, base, ids);
      if r != OK { return; }
    }
    NoPipeLeft(sh, chain, gateR, gateW, pipeIn, pids, pgid, g, base, ids);
  }

  lemma NoPipeLeft(sh: Shell, chain: seq<Cmd>, gateR: int, gateW: int, pipeIn: int, pids: seq<Pid>, pgid: Pid,
                   g: nat, base: FdTable, ids: seq<nat>)
    requires Spawning(sh, chain, gateR, gateW, pipeIn, pids, pgid, g, base, ids) && |pids| == |chain|
    ensures pipeIn == -1
  {
  }
}
