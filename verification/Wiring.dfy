/**
 The descriptors of a pipeline stage: what it inherits from the shell at fork, what it does with
 them after the gate (redirect_fd, setredirect), and what is left at exec.
 */
module Wiring {
  import opened Kernel

  /** The shell's table at the fork of a stage: the gate, the pipe from the previous stage and the
      pipe to the next one, on top of what was open before the launch. */
  function Inheritance(base: FdTable, plan: Plan, g: nat, prev: Option<nat>, next: Option<nat>): FdTable {
    var gated := base[plan.gateR := Entry(PipeEnd(g, false), true)][plan.gateW := Entry(PipeEnd(g, true), true)];
    var fed := if prev.Some? then gated[plan.pipeIn := Entry(PipeEnd(prev.value, false), false)] else gated;
    if next.Some?
    then fed[plan.nextR := Entry(PipeEnd(next.value, false), false)]
            [plan.nextW := Entry(PipeEnd(next.value, true), false)]
    else fed
  }

  ghost predicate NewFds(base: FdTable, fds: seq<int>) {
    && (forall i :: 0 <= i < |fds| ==> fds[i] > 2 && fds[i] !in base)
    && (forall i, j :: 0 <= i < j < |fds| ==> fds[i] != fds[j])
  }

  function PlanFds(plan: Plan): seq<int> {
    [plan.gateR, plan.gateW]
    + (if plan.pipeIn >= 0 then [plan.pipeIn] else [])
    + (if plan.next then [plan.nextR, plan.nextW] else [])
  }

  ghost predicate LaidPlan(base: FdTable, g: nat, plan: Plan, table: FdTable, prev: Option<nat>, next: Option<nat>) {
    && (prev.Some? <==> plan.pipeIn >= 0)
    && (prev.None? ==> plan.pipeIn == -1)
    && (next.Some? <==> plan.next)
    && (next.None? ==> plan.nextR == -1 && plan.nextW == -1)
    && NewFds(base, PlanFds(plan))
    && table == Inheritance(base, plan, g, prev, next)
  }

  ghost predicate Laid(base: FdTable, g: nat, c: Child, prev: Option<nat>, next: Option<nat>) {
    LaidPlan(base, g, c.plan, c.table, prev, next)
  }

  /** The pipe into and out of stage k of n, when pipe k joins stage k to stage k + 1. */
  function PipeInto(ids: seq<nat>, k: nat): Option<nat> {
    if 0 < k <= |ids| then Some(ids[k - 1]) else None
  }

  function PipeOutOf(ids: seq<nat>, k: nat, n: nat): Option<nat> {
    if k + 1 < n && k < |ids| then Some(ids[k]) else None
  }

  /** Every stage forked so far got the right end of each pipe. */
  ghost predicate LaidOut(w: World, base: FdTable, g: nat, redirects: seq<Redirect>, pids: seq<Pid>, ids: seq<nat>) {
    && |pids| <= |redirects|
    && forall k :: 0 <= k < |pids| ==> LaidStage(w, base, g, redirects, pids, ids, k)
  }

  ghost predicate LaidStage(w: World, base: FdTable, g: nat, redirects: seq<Redirect>, pids: seq<Pid>, ids: seq<nat>,
                            k: nat)
    requires k < |pids| <= |redirects|
  {
    && pids[k] in w.children
    && w.children[pids[k]].plan.redirect == redirects[k]
    && Laid(base, g, w.children[pids[k]], PipeInto(ids, k), PipeOutOf(ids, k, |redirects|))
  }

  lemma LaidOutStable(a: World, b: World, base: FdTable, g: nat, redirects: seq<Redirect>, pids: seq<Pid>,
                      ids: seq<nat>)
    requires LaidOut(a, base, g, redirects, pids, ids) && Drifts(a, b)
    ensures LaidOut(b, base, g, redirects, pids, ids)
  {
    forall k | 0 <= k < |pids| ensures LaidStage(b, base, g, redirects, pids, ids, k) {
      assert LaidStage(a, base, g, redirects, pids, ids, k);
      var p := pids[k];
      assert p in a.children;
      assert Evolves(a.children[p], b.children[p]);
    }
  }

  // ---------------------------------------------------------------- after the gate

  /** What exec keeps of a table. */
  function AfterExec(t: FdTable): FdTable {
    map fd | fd in t && !t[fd].cloexec :: t[fd]
  }

  function Source(base: FdTable, redirect: Redirect, prev: Option<nat>): Entry
    requires 0 in base
  {
    if redirect.input.Some? then Entry(Opened(redirect.input.value, false, false), false)
    else if prev.Some? then Entry(PipeEnd(prev.value, false), false)
    else base[0]
  }

  function Sink(base: FdTable, redirect: Redirect, next: Option<nat>): Entry
    requires 1 in base
  {
    if redirect.output.Some? then Entry(Opened(redirect.output.value, true, redirect.append), false)
    else if next.Some? then Entry(PipeEnd(next.value, true), false)
    else base[1]
  }

  /** The table the design promises a stage just before exec: what the shell had before the launch
      without its event pipe, with fds 0 and 1 replaced. */
  function Promised(base: FdTable, redirect: Redirect, prev: Option<nat>, next: Option<nat>, eventR: int,
                    eventW: int): FdTable
    requires 0 in base && 1 in base
  {
    (base - {eventR, eventW})[0 := Source(base, redirect, prev)][1 := Sink(base, redirect, next)]
  }

  /** One child process on its own descriptors. */
  class ChildFds {
    var t: FdTable
    var faults: nat            // how many calls have failed so far

    constructor (table: FdTable)
      ensures t == table && faults == 0
    {
      t, faults := table, 0;
    }

    method Close(fd: int)
      modifies this`t
      ensures t == old(t) - {fd}
    {
      t := t - {fd};
    }

    /** redirect_fd: dup2 then close; dup2 clears close-on-exec on the copy. */
    method RedirectFd(fd: int, target: int) returns (ok: bool)
      requires fd in t
      modifies this
      ensures faults == old(faults) + if ok then 0 else 1
      ensures fd == target ==> ok && t == old(t)
      ensures fd != target && ok ==> t == old(t)[target := old(t)[fd].(cloexec := false)] - {fd}
      ensures !ok ==> t == old(t)
    {
      if fd == target { return true; }
      ok := *;
      if ok {
        t := t[target := t[fd].(cloexec := false)] - {fd};
      } else {
        faults := faults + 1;
      }
    }

    method Open(path: string, output: bool, append: bool) returns (fd: int)
      modifies this
      ensures faults == old(faults) + if fd >= 0 then 0 else 1
      ensures fd < 0 ==> t == old(t)
      ensures fd >= 0 ==> fd !in old(t) && t == old(t)[fd := Entry(Opened(path, output, append), false)]
    {
      fd := *;
      if fd < 0 || fd in t {
        fd, faults := -1, faults + 1;
      } else {
        t := t[fd := Entry(Opened(path, output, append), false)];
      }
    }

    /** setredirect */
    method SetRedirect(redirect: Redirect) returns (ok: bool)
      requires 0 in t && 1 in t
      modifies this
      ensures faults >= old(faults) && (ok <==> faults == old(faults))
      ensures ok ==> t == Redirected(old(t), redirect)
    {
      if redirect.output.Some? {
        ghost var before := t;
        var fd := Open(redirect.output.value, true, redirect.append);
        if fd < 0 { return false; }
        ok := RedirectFd(fd, 1);
        if !ok {
          Close(fd);
          return;
        }
        assert t == before[1 := Entry(Opened(redirect.output.value, true, redirect.append), false)];
      }
      if redirect.input.Some? {
        ghost var before := t;
        var fd := Open(redirect.input.value, false, false);
        if fd < 0 { return false; }
        ok := RedirectFd(fd, 0);
        if !ok {
          Close(fd);
          return;
        }
        assert t == before[0 := Entry(Opened(redirect.input.value, false, false), false)];
      }
      ok := true;
    }

    /** The child's side of a launch: child_prepare_before_gate and the wiring before run_process. */
    method Prepare(plan: Plan, eventR: int, eventW: int, ghost base: FdTable, ghost g: nat,
                   ghost prev: Option<nat>, ghost next: Option<nat>, ghost c: Child)
      returns (ok: bool)
      requires {0, 1, 2, eventR, eventW} <= base.Keys && 2 < eventR && 2 < eventW
      requires c.plan == plan && c.table == t && Laid(base, g, c, prev, next)
      modifies this
      ensures faults >= old(faults) && (ok <==> faults == old(faults))
      ensures ok ==> t == Promised(base, plan.redirect, prev, next, eventR, eventW)
    {
      hide NewFds, PlanFds, Inheritance, Redirected, Feed, Rest, Promised;
      Close(plan.gateW);
      Close(eventW);
      Close(eventR);
      Close(plan.gateR);
      ghost var bare := base - {eventR, eventW};
      PlanFdsNew(base, c.plan);
      ClearedTable(base, c, g, prev, next, eventR, eventW);
      ok := Connect(plan, bare, prev, next);
      if !ok { return; }
      ok := SetRedirect(plan.redirect);
      PromisedTable(base, plan.redirect, prev, next, eventR, eventW);
    }

    /** The pipe ends move to fds 0 and 1. */
    method Connect(plan: Plan, ghost bare: FdTable, ghost prev: Option<nat>, ghost next: Option<nat>) returns (ok: bool)
      requires 0 in bare && 1 in bare && t == bare + Feed(plan, prev) + Rest(plan, next)
      requires prev.Some? <==> plan.pipeIn >= 0
      requires next.Some? <==> plan.next
      requires prev.Some? ==> plan.pipeIn > 2 && plan.pipeIn !in bare
      requires next.Some? ==> plan.nextR > 2 && plan.nextW > 2 && plan.nextR !in bare && plan.nextW !in bare
      requires next.Some? ==> plan.nextR != plan.nextW && plan.nextR != plan.pipeIn && plan.nextW != plan.pipeIn
      requires next.None? ==> plan.nextR == -1
      modifies this
      ensures faults >= old(faults) && (ok <==> faults == old(faults))
      ensures ok ==> t == Wired(bare, prev, next)
    {
      ghost var fed := Wired(bare, prev, None);
      if plan.pipeIn >= 0 {
        ok := RedirectFd(plan.pipeIn, 0);
        if !ok { return; }
      }
      assert t == fed + Rest(plan, next);
      if plan.next {
        ok := RedirectFd(plan.nextW, 1);
        if !ok { return; }
      }
      if plan.nextR >= 0 {
        Close(plan.nextR);
      }
      assert t == Wired(bare, prev, next);
      ok := true;
    }
  }

  function Redirected(t: FdTable, redirect: Redirect): FdTable {
    var t1 :=
      if redirect.output.Some?
      then t[1 := Entry(Opened(redirect.output.value, true, redirect.append), false)]
      else t;
    if redirect.input.Some? then t1[0 := Entry(Opened(redirect.input.value, false, false), false)] else t1
  }

  lemma PromisedTable(base: FdTable, redirect: Redirect, prev: Option<nat>, next: Option<nat>, eventR: int, eventW: int)
    requires 0 in base && 1 in base && eventR > 2 && eventW > 2
    ensures Redirected(Wired(base - {eventR, eventW}, prev, next), redirect)
         == Promised(base, redirect, prev, next, eventR, eventW)
  {
  }

  function Wired(bare: FdTable, prev: Option<nat>, next: Option<nat>): FdTable {
    var fed := if prev.Some? then bare[0 := Entry(PipeEnd(prev.value, false), false)] else bare;
    if next.Some? then fed[1 := Entry(PipeEnd(next.value, true), false)] else fed
  }

  function Feed(plan: Plan, prev: Option<nat>): FdTable {
    if prev.Some? then map[plan.pipeIn := Entry(PipeEnd(prev.value, false), false)] else map[]
  }

  function Rest(plan: Plan, next: Option<nat>): FdTable {
    if next.Some?
    then map[plan.nextR := Entry(PipeEnd(next.value, false), false),
             plan.nextW := Entry(PipeEnd(next.value, true), false)]
    else map[]
  }

  /** The descriptors named by a stage's plan, one by one. */
  lemma PlanFdsNew(base: FdTable, p: Plan)
    requires NewFds(base, PlanFds(p))
    ensures
      && p.gateR > 2 && p.gateW > 2 && p.gateR !in base && p.gateW !in base && p.gateR != p.gateW
      && (p.pipeIn >= 0 ==> p.pipeIn > 2 && p.pipeIn !in base && p.pipeIn != p.gateR && p.pipeIn != p.gateW)
      && (p.next ==>
            && p.nextR > 2 && p.nextW > 2 && p.nextR !in base && p.nextW !in base && p.nextR != p.nextW
            && p.nextR != p.gateR && p.nextR != p.gateW && p.nextW != p.gateR && p.nextW != p.gateW
            && (p.pipeIn >= 0 ==> p.nextR != p.pipeIn && p.nextW != p.pipeIn))
  {
    var fds := PlanFds(p);
    assert fds[0] == p.gateR && fds[1] == p.gateW;
    assert p.pipeIn >= 0 ==> fds[2] == p.pipeIn;
    assert p.next ==> fds[|fds| - 2] == p.nextR && fds[|fds| - 1] == p.nextW;
  }

  lemma ClearedTable(base: FdTable, c: Child, g: nat, prev: Option<nat>, next: Option<nat>, eventR: int, eventW: int)
    requires eventR in base && eventW in base && Laid(base, g, c, prev, next)
    ensures c.table - {c.plan.gateW} - {eventW} - {eventR} - {c.plan.gateR}
         == (base - {eventR, eventW}) + Feed(c.plan, prev) + Rest(c.plan, next)
  {
    PlanFdsNew(base, c.plan);
    hide NewFds, PlanFds;
    assert (c.table - {c.plan.gateW} - {eventW} - {eventR} - {c.plan.gateR}).Keys
        == ((base - {eventR, eventW}) + Feed(c.plan, prev) + Rest(c.plan, next)).Keys;
  }

  // ---------------------------------------------------------------- one reader, one writer

  ghost predicate FreshPipes(base: FdTable, ids: seq<nat>) {
    && (forall i, j :: 0 <= i < j < |ids| ==> ids[i] != ids[j])
    && (forall fd :: fd in base && base[fd].desc.PipeEnd? ==> base[fd].desc.id !in ids)
  }

  /** Over all the stages of a pipeline, the only descriptor on an end of pipe i that is left at
      exec is fd 1 of stage i for the write end and fd 0 of stage i + 1 for the read end; a
      redirection of that stage removes even that one. */
  lemma OneReaderOneWriter(base: FdTable, redirects: seq<Redirect>, ids: seq<nat>, eventR: int, eventW: int,
                           k: nat, fd: int, i: nat)
    requires 0 in base && 1 in base && FreshPipes(base, ids) && |ids| + 1 == |redirects|
    requires k < |redirects| && i < |ids|
    ensures
      var t := AfterExec(Promised(base, redirects[k], PipeInto(ids, k), PipeOutOf(ids, k, |redirects|), eventR,
                                  eventW));
      && (fd in t && t[fd].desc == PipeEnd(ids[i], true) <==> fd == 1 && k == i && redirects[k].output.None?)
      && (fd in t && t[fd].desc == PipeEnd(ids[i], false) <==> fd == 0 && k == i + 1 && redirects[k].input.None?)
  {
  }
}
