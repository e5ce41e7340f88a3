/**
 The shell process against the kernel: its descriptor table and the system calls it makes.
 Every call first has its own effect and then lets the children take any number of steps, so
 between any two calls of the shell every interleaving is covered.  A call that may fail in the
 source fails here by free choice.
 */
module Machines {
  import opened Kernel

  /** Calls worth remembering in order. */
  datatype Call =
    | SetPgrp(pgid: Pid)
    | SetAttr(modes: int)
    | KillGroup(pgid: Pid, sig: int)
    | BlockingWait(pid: Pid)
    | Sleep

  /** The group the shell put in front last. */
  function Front(log: seq<Call>): Pid {
    if log == [] then 0
    else if log[|log| - 1].SetPgrp? then log[|log| - 1].pgid
    else Front(log[..|log| - 1])
  }

  /** Terminal modes read while the group `front` had been put in front. */
  datatype Reading = Reading(front: Pid, modes: int)

  const SIGKILL := 9
  const SIGTERM := 15
  const SIGCONT := 18

  /** The statuses waitpid hands out. */
  type Change = s: WaitStatus | s.StoppedBy? || s.Resumed? || IsDeath(s) witness Resumed

  /** One report about one child. */
  datatype Told = Told(pid: Pid, status: Change)

  datatype WaitResult = Got(pid: Pid, status: WaitStatus) | Nothing | NoChild | WaitError

  function ReportOf(c: Child): WaitStatus
    requires Uncollected(c)
  {
    if c.death.Some? then c.death.value else c.change.value
  }

  function Collect(w: World, p: Pid): World
    requires p in w.children
  {
    if w.children[p].death.Some? then w.(children := w.children - {p})
    else SetChild(w, p, w.children[p].(change := None))
  }

  lemma CollectKeepsWorldOk(w: World, p: Pid)
    requires WorldOk(w) && p in w.children
    ensures WorldOk(Collect(w, p))
  {
  }

  // ---------------------------------------------------------------- effects of calls

  function WithGate(w: World, id: nat, g: Gate): World {
    w.(gates := w.gates[id := g])
  }

  function NewChild(pid: Pid, shell: Pid, target: Pid, gate: nat, plan: Plan, table: FdTable): Child {
    Child(shell, if target == 0 then pid else target, gate, Forked, false, None, None, false, plan, table)
  }

  function ForkEffect(w: World, pid: Pid, c: Child): World
    requires c.gate in w.gates
  {
    var g := w.gates[c.gate];
    World(w.children[pid := c], w.gates[c.gate := g.(members := g.members + {pid})], w.tty)
  }

  /** fork never returns a pid that is in use as a pid or as a process group. */
  predicate FreshPid(w: World, pid: Pid) {
    && pid > 0 && pid !in w.children
    && forall q :: q in w.children ==> w.children[q].pgid != pid && w.children[q].target != pid
  }

  function CloseEffect(w: World, d: Desc): World {
    if d.PipeEnd? && d.write && d.id in w.gates then WithGate(w, d.id, w.gates[d.id].(open := false)) else w
  }

  function WriteEffect(w: World, id: nat, listed: seq<Listing>): World
    requires id in w.gates
  {
    var g := w.gates[id];
    var stamp := if g.stamp.Some? then g.stamp else Some(Stamp(listed, w.tty.fg));
    WithGate(w, id, g.(written := g.written + 1, stamp := stamp))
  }

  function Doom(c: Child): Child { c.(doomed := true) }

  function Awaken(c: Child): Child {
    if Alive(c) && c.stopped then c.(stopped := false, change := Some(Resumed)) else c
  }

  /** What a signal sent to group `pgid` does to one child at once. */
  function Signalled(c: Child, pgid: Pid, sig: int): Child {
    if c.pgid != pgid then c
    else if sig == SIGKILL then Doom(c)
    else if sig == SIGCONT then Awaken(c)
    else c
  }

  function KillEffect(w: World, pgid: Pid, sig: int): World {
    w.(children := map p | p in w.children :: Signalled(w.children[p], pgid, sig))
  }

  lemma KillKeepsWorldOk(w: World, pgid: Pid, sig: int)
    requires WorldOk(w)
    ensures WorldOk(KillEffect(w, pgid, sig))
  {
    forall q | q in KillEffect(w, pgid, sig).children
      ensures Placed(KillEffect(w, pgid, sig), q)
    {
      assert Placed(w, q);
    }
  }

  /** A child is in the shell's group or in the one it was told to join, and that is never the
      shell's, so nobody but the shell can touch the terminal while the shell is in front. */
  ghost predicate Homes(w: World, shell: Pid) {
    forall p :: p in w.children ==>
      w.children[p].target != shell && (w.children[p].pgid == w.children[p].target || w.children[p].pgid == shell)
  }

  lemma HomesStable(a: World, b: World, shell: Pid)
    requires Drifts(a, b) && Homes(a, shell)
    ensures Homes(b, shell)
  {
  }

  lemma TtyKept(a: World, b: World, fg: Pid)
    requires Rely(a, b) && a.tty.fg == fg
    requires Homes(a, fg)
    ensures b.tty == a.tty
  {
  }

  lemma Pick<T>(s: set<T>) returns (x: T)
    requires s != {}
    ensures x in s
  {
    x :| x in s;
  }

  lemma Unused(s: set<int>) returns (n: nat)
    ensures n > 0 && forall x :: x in s ==> x < n
  {
    n := 1;
    var rest := s;
    while rest != {}
      invariant n > 0 && forall x :: x in s ==> x < n || x in rest
    {
      var x := Pick(rest);
      rest := rest - {x};
      if x >= n { n := x + 1; }
    }
  }

  class Machine {
    var fds: FdTable
    var w: World
    var log: seq<Call>
    var peak: nat              // the most descriptors open at any time so far
    var reports: nat           // how many reports foreground waits will still get: any number
    var got: seq<Told>         // what foreground waits have been told, in order
    var faults: nat            // how many calls have failed so far
    var openings: seq<Opening>   // the first byte written to each gate, in order
    var readings: seq<Reading>    // the terminal modes read so far
    const hasTty: bool         // terminal_is_initialized()
    const shellPgid: Pid
    const shellModes: int
    const eventR: int
    const eventW: int

    /** A shell that has just started: standard descriptors and event pipe open, no children. */
    constructor (hasTty: bool, shellPgid: Pid, shellModes: int, reports: nat)
      requires shellPgid > 0
      ensures Valid() && w.children == map[] && w.tty == Tty(shellPgid, shellModes) && log == [] && faults == 0
      ensures fds.Keys == {0, 1, 2, 3, 4} && peak == |fds| && openings == [] && readings == []
      ensures this.hasTty == hasTty && this.shellPgid == shellPgid && this.shellModes == shellModes
    {
      this.hasTty, this.shellPgid, this.shellModes, this.reports := hasTty, shellPgid, shellModes, reports;
      eventR, eventW := 3, 4;
      var table := map fd | 0 <= fd < 5 :: Entry(Inherited(fd), fd > 2);
      fds := table;
      w := World(map[], map[], Tty(shellPgid, shellModes));
      log, got, faults := [], [], 0;
      openings, readings := [], [];
      peak := |table|;
      assert table.Keys == {0, 1, 2, 3, 4};
    }

    ghost predicate Valid()
      reads this
    {
      && WorldOk(w)
      && Homes(w, shellPgid)
      && shellPgid > 0
      && {0, 1, 2, eventR, eventW} <= fds.Keys
      && 2 < eventR && 2 < eventW && eventR != eventW
      && |fds| <= peak
      && (forall fd :: fd in fds ==> fd >= 0)
      && (forall fd :: fd in fds && fds[fd].desc.PipeEnd? ==> fds[fd].desc.id in w.gates)
      && Accounted(w.gates, fds, openings)
    }

    /** One child takes one step. */
    method Step(p: Pid, a: Act)
      requires Valid() && Enabled(w, p, a)
      modifies this`w
      ensures Valid() && w == Apply(old(w), p, a) && Rely(old(w), w)
    {
      StepRelies(w, p, a);
      HomesStable(w, Apply(w, p, a), shellPgid);
      AccountedDrift(w, Apply(w, p, a), fds, openings);
      hide Accounted;
      w := Apply(w, p, a);
    }

    /** The children take any number of steps. */
    method Interfere()
      requires Valid()
      modifies this`w
      ensures Valid() && Rely(old(w), w)
    {
      hide Accounted;
      var steps: nat := *;
      RelyReflexive(w);
      while steps > 0
        invariant Valid() && Rely(old(w), w)
      {
        var p: Pid, a: Act := *, *;
        if Enabled(w, p, a) {
          ghost var before := w;
          Step(p, a);
          RelyTransitive(old(w), before, w);
        }
        steps := steps - 1;
      }
    }

    method NewDescriptor(taken: set<int>) returns (fd: int)
      ensures fd > 2 && fd !in taken
    {
      ghost var bound := Unused(taken);
      assert bound + 2 !in taken;
      fd :| fd > 2 && fd !in taken;
    }

    method NewPipe() returns (id: nat)
      ensures id !in w.gates
    {
      ghost var ids: set<int> := set g | g in w.gates :: g;
      ghost var top := Unused(ids);
      assert forall g :: g in w.gates ==> g in ids;
      assert top !in w.gates;
      id :| id !in w.gates;
    }

    method Pipe() returns (ok: bool, r: int, wr: int, id: nat)
      requires Valid()
      modifies this`w, this`fds, this`peak, this`faults
      ensures Valid() && faults == old(faults) + Fault(ok)
      ensures !ok ==> r == -1 && wr == -1 && fds == old(fds) && peak == old(peak) && Rely(old(w), w)
      ensures ok ==> r > 2 && wr > 2 && r != wr && r !in old(fds) && wr !in old(fds) && id !in old(w).gates
      ensures ok ==> fds == old(fds)[r := Entry(PipeEnd(id, false), false)][wr := Entry(PipeEnd(id, true), false)]
      ensures ok ==> |fds| == |old(fds)| + 2 && peak == if |fds| > old(peak) then |fds| else old(peak)
      ensures ok ==> Rely(WithGate(old(w), id, NEW_GATE), w)
    {
      hide WorldOk, Accounted;
      ok, r, wr, id := *, -1, -1, 0;
      if ok {
        r := NewDescriptor(fds.Keys);
        wr := NewDescriptor(fds.Keys + {r});
        id := NewPipe();
        AccountedPipe(w.gates, fds, openings, id, r, wr);
        fds := fds[r := Entry(PipeEnd(id, false), false)][wr := Entry(PipeEnd(id, true), false)];
        peak := if |fds| > peak then |fds| else peak;
        NewGateKeepsWorldOk(w, id);
        w := WithGate(w, id, NEW_GATE);
      }
      faults := faults + Fault(ok);
      Interfere();
    }

    method SetCloexec(fd: int) returns (ok: bool)
      requires Valid() && fd in fds
      modifies this`fds, this`faults
      ensures Valid() && faults == old(faults) + Fault(ok)
      ensures fds == if ok then old(fds)[fd := old(fds)[fd].(cloexec := true)] else old(fds)
      ensures |fds| == |old(fds)|
    {
      hide WorldOk, Homes, Accounted;
      ok := *;
      faults := faults + Fault(ok);
      if ok {
        ghost var before := fds.Keys;
        AccountedSeal(w.gates, fds, openings, fd);
        fds := fds[fd := fds[fd].(cloexec := true)];
        assert fds.Keys == before;
      }
    }

    /** close: the descriptor must be open, so no descriptor is ever closed twice. */
    method Close(fd: int)
      requires Valid() && fd in fds && fd > 2 && fd != eventR && fd != eventW
      modifies this`w, this`fds
      ensures Valid()
      ensures fds == old(fds) - {fd} && |fds| == |old(fds)| - 1
      ensures Rely(CloseEffect(old(w), old(fds)[fd].desc), w)
    {
      hide WorldOk, Accounted;
      var d := fds[fd].desc;
      AccountedClose(w, fds, openings, fd);
      assert fds.Keys == (fds.Keys - {fd}) + {fd};
      fds := fds - {fd};
      CloseKeepsWorldOk(w, d);
      w := CloseEffect(w, d);
      Interfere();
    }

    method Fork(target: Pid, plan: Plan) returns (pid: Pid)
      requires Valid()
      requires plan.gateR in fds && fds[plan.gateR].desc.PipeEnd?
      requires var gate := fds[plan.gateR].desc.id;
        w.gates[gate].stamp.None? && w.gates[gate].members <= w.children.Keys
      requires target >= 0 && target != shellPgid
      modifies this`w, this`faults
      ensures Valid() && faults == old(faults) + Fault(pid > 0)
      ensures pid <= 0 ==> Rely(old(w), w)
      ensures pid > 0 ==> FreshPid(old(w), pid) && pid != shellPgid
      ensures pid > 0 ==>
        Rely(ForkEffect(old(w), pid, NewChild(pid, shellPgid, target, fds[plan.gateR].desc.id, plan, fds)), w)
    {
      hide WorldOk, Accounted;
      var ok: bool := *;
      pid := -1;
      if ok {
        ghost var inUse := w.children.Keys + (set p | p in w.children :: w.children[p].pgid)
                           + (set p | p in w.children :: w.children[p].target) + {shellPgid};
        ghost var top := Unused(inUse);
        assert top !in inUse;
        assert FreshPid(w, top) by {
          forall q | q in w.children ensures w.children[q].pgid != top && w.children[q].target != top {
            assert w.children[q].pgid in inUse && w.children[q].target in inUse;
          }
        }
        pid :| pid > 0 && pid != shellPgid && pid !in w.children && FreshPid(w, pid);
        var c := NewChild(pid, shellPgid, target, fds[plan.gateR].desc.id, plan, fds);
        ForkKeepsWorldOk(w, pid, c);
        AccountedFork(w, pid, c, fds, openings);
        w := ForkEffect(w, pid, c);
      }
      faults := faults + Fault(ok);
      Interfere();
    }

    /** setpgid_parent: EACCES (the child has already run exec) and ESRCH (it is gone) count as
        success; any other error does not. */
    method SetPgid(pid: Pid, pgid: Pid) returns (ok: bool)
      requires Valid() && pid in w.children && pgid == w.children[pid].target
      modifies this`w, this`faults
      ensures Valid() && faults == old(faults) + Fault(ok)
      ensures ok ==>
        || (old(w).children[pid].death.Some? && Rely(old(w), w))
        || (old(w).children[pid].phase.Passed? && Rely(old(w), w))
        || Rely(SetChild(old(w), pid, old(w).children[pid].(pgid := pgid)), w)
      ensures !ok ==> Rely(old(w), w)
    {
      hide WorldOk, Accounted;
      ok := *;
      faults := faults + Fault(ok);
      if ok && !w.children[pid].death.Some? && !w.children[pid].phase.Passed? {
        RegroupKeepsWorldOk(w, pid, pgid);
        w := SetChild(w, pid, w.children[pid].(pgid := pgid));
      }
      Interfere();
    }

    /** kill(-pgid, sig); it fails with ESRCH when the group has no member left. */
    method Kill(pgid: Pid, sig: int) returns (ok: bool)
      requires Valid()
      modifies this`w, this`log, this`faults
      ensures Valid() && log == old(log) + [KillGroup(pgid, sig)] && faults == old(faults) + Fault(ok)
      ensures sig == SIGKILL ==> Rely(KillEffect(old(w), pgid, sig), w)
      ensures sig != SIGKILL && ok ==> Rely(KillEffect(old(w), pgid, sig), w)
      ensures !ok && sig != SIGKILL ==> Rely(old(w), w)
    {
      hide WorldOk, Accounted;
      ok := *;
      faults := faults + Fault(ok);
      log := log + [KillGroup(pgid, sig)];
      if ok || sig == SIGKILL {
        KillKeepsWorldOk(w, pgid, sig);
        w := KillEffect(w, pgid, sig);
      }
      Interfere();
    }

    /** kill(pid, SIGKILL) */
    method KillOne(pid: Pid)
      requires Valid()
      modifies this`w
      ensures Valid()
      ensures Rely(if pid in old(w).children then SetChild(old(w), pid, Doom(old(w).children[pid])) else old(w), w)
    {
      hide WorldOk, Accounted;
      if pid in w.children {
        DoomKeepsWorldOk(w, pid);
        w := SetChild(w, pid, Doom(w.children[pid]));
      }
      Interfere();
    }

    /** waitpid(pid, _, 0), called only for a child that is dead or has been killed, so it returns. */
    method WaitDeath(pid: Pid) returns (r: WaitResult, ghost mid: World)
      requires Valid()
      requires pid in w.children ==> w.children[pid].doomed || w.children[pid].death.Some?
      modifies this`w, this`log
      ensures Valid() && log == old(log) + [BlockingWait(pid)]
      ensures Rely(old(w), mid)
      ensures pid !in mid.children ==> r == NoChild && Rely(mid, w)
      ensures pid in mid.children ==> mid.children[pid].death.Some? && r == Got(pid, mid.children[pid].death.value)
      ensures pid in mid.children ==> Rely(Collect(mid, pid), w)
    {
      hide WorldOk, Accounted;
      Interfere();
      mid := w;
      r := NoChild;
      log := log + [BlockingWait(pid)];
      if pid in w.children {
        ghost var before := w;
        AwaitDeath(pid);
        RelyTransitive(old(w), before, w);
        mid := w;
        r := Got(pid, w.children[pid].death.value);
        CollectKeepsWorldOk(w, pid);
        w := Collect(w, pid);
      }
      Interfere();
    }

    method AwaitDeath(pid: Pid)
      requires Valid() && pid in w.children
      modifies this`w
      ensures Valid() && Rely(old(w), w) && w.children[pid].death.Some?
    {
      hide Accounted;
      RelyReflexive(w);
      if Alive(w.children[pid]) {
        assert Placed(w, pid);
        Step(pid, Die(Signaled(SIGKILL)));
      }
    }

    /** Sleep until child `p` has died or stopped. */
    method BlockOn(p: Pid)
      requires Valid() && p in w.children
      modifies this`w
      ensures Valid() && Rely(old(w), w)
      ensures w.children[p].pgid == old(w).children[p].pgid && Uncollected(w.children[p])
      ensures ReportOf(w.children[p]).StoppedBy? || IsDeath(ReportOf(w.children[p]))
    {
      hide Accounted;
      assert Placed(w, p);
      RelyReflexive(w);
      if Alive(w.children[p]) && (w.children[p].change.None? || w.children[p].change.value.Resumed?) {
        var stops: bool, sig: int, exits: bool, code: int := *, *, *, *;
        var a := Die(Signaled(SIGKILL));
        if stops && !w.children[p].stopped {
          a := Stop(sig);
        } else if exits && !w.children[p].stopped && w.children[p].phase.Passed? && 0 <= code <= 255 {
          a := Die(Exited(code));
        }
        Step(p, a);
      }
    }

    method ReportOn(p: Pid) returns (r: WaitResult, ghost mid: World)
      requires Valid() && p in w.children
      modifies this`w, this`got
      ensures Valid() && Rely(old(w), mid)
      ensures p in mid.children && mid.children[p].pgid == old(w).children[p].pgid && Uncollected(mid.children[p])
      ensures r == Got(p, ReportOf(mid.children[p])) && (r.status.StoppedBy? || IsDeath(r.status))
      ensures Rely(Collect(mid, p), w) && got == old(got) + [Told(p, r.status)]
    {
      hide WorldOk, Accounted;
      BlockOn(p);
      mid := w;
      r := Got(p, ReportOf(w.children[p]));
      got := got + [Told(p, r.status)];
      CollectKeepsWorldOk(w, p);
      w := Collect(w, p);
      Interfere();
    }

    /** waitpid(-pgid, _, WUNTRACED): blocks until a child of the group has died or stopped. */
    method WaitGroup(pgid: Pid) returns (r: WaitResult, ghost mid: World)
      requires Valid()
      modifies this`w, this`reports, this`got, this`faults
      ensures Valid() && Rely(old(w), mid) && faults == old(faults) + Fault(r.Got?)
      ensures r.Got? || r.NoChild? || r.WaitError?
      ensures r.Got? ==> reports < old(reports)
      ensures r.NoChild? ==> forall q :: q in mid.children ==> mid.children[q].pgid != pgid
      ensures !r.Got? ==> Rely(mid, w)
      ensures r.Got? ==>
        && r.pid in mid.children && mid.children[r.pid].pgid == pgid
        && Uncollected(mid.children[r.pid]) && r.status == ReportOf(mid.children[r.pid])
        && (r.status.StoppedBy? || IsDeath(r.status))
        && Rely(Collect(mid, r.pid), w)
      ensures got == if r.Got? then old(got) + [Told(r.pid, r.status)] else old(got)
    {
      hide WorldOk, Homes, Collect, Drifts, Unseizable, Accounted;
      Interfere();
      mid := w;
      var broken: bool := *;
      var found, p := AnyOf(pgid);
      faults := faults + Fault(found && !broken && reports > 0);
      if broken || reports == 0 {
        r := WaitError;
        Interfere();
      } else if !found {
        r := NoChild;
        Interfere();
      } else {
        reports := reports - 1;
        ghost var before := w;
        r, mid := ReportOn(p);
        RelyTransitive(old(w), before, mid);
      }
    }

    method AnyOf(pgid: Pid) returns (found: bool, p: Pid)
      ensures found ==> p in w.children && w.children[p].pgid == pgid
      ensures !found ==> forall q :: q in w.children ==> w.children[q].pgid != pgid
    {
      found, p := exists q :: q in w.children && w.children[q].pgid == pgid, 0;
      if found {
        p :| p in w.children && w.children[p].pgid == pgid;
      }
    }

    /** waitpid(pid, _, WNOHANG), with or without WUNTRACED | WCONTINUED. */
    method WaitNow(pid: Pid, changes: bool) returns (r: WaitResult)
      requires Valid()
      modifies this`w
      ensures Valid()
      ensures r == WaitNowResult(old(w), pid, changes)
      ensures Rely(if r.Got? then Collect(old(w), pid) else old(w), w)
    {
      hide WorldOk, Accounted;
      r := WaitNowResult(w, pid, changes);
      if r.Got? {
        CollectKeepsWorldOk(w, pid);
        w := Collect(w, pid);
      }
      Interfere();
    }

    /** malloc: only whether it succeeds matters. */
    method Malloc() returns (ok: bool)
      modifies this`faults
      ensures faults == old(faults) + Fault(ok)
    {
      ok := *;
      faults := faults + Fault(ok);
    }

    /** nanosleep */
    method Nap()
      requires Valid()
      modifies this`w, this`log
      ensures Valid() && Rely(old(w), w) && log == old(log) + [Sleep]
    {
      hide WorldOk, Accounted;
      log := log + [Sleep];
      Interfere();
    }

    method TcSetPgrp(pgid: Pid) returns (ok: bool)
      requires Valid()
      modifies this`w, this`log, this`faults
      ensures Valid() && faults == old(faults) + Fault(ok)
      ensures ok ==> log == old(log) + [SetPgrp(pgid)] && Rely(old(w).(tty := old(w).tty.(fg := pgid)), w)
      ensures !ok ==> log == old(log) && Rely(old(w), w)
    {
      hide WorldOk, Accounted;
      ok := *;
      faults := faults + Fault(ok);
      if ok {
        log := log + [SetPgrp(pgid)];
        TtyKeepsWorldOk(w, w.tty.(fg := pgid));
        w := w.(tty := w.tty.(fg := pgid));
      }
      Interfere();
    }

    method TcSetAttr(modes: int) returns (ok: bool)
      requires Valid()
      modifies this`w, this`log, this`faults
      ensures Valid() && faults == old(faults) + Fault(ok)
      ensures ok ==> log == old(log) + [SetAttr(modes)] && Rely(old(w).(tty := old(w).tty.(modes := modes)), w)
      ensures !ok ==> log == old(log) && Rely(old(w), w)
    {
      hide WorldOk, Accounted;
      ok := *;
      faults := faults + Fault(ok);
      if ok {
        log := log + [SetAttr(modes)];
        TtyKeepsWorldOk(w, w.tty.(modes := modes));
        w := w.(tty := w.tty.(modes := modes));
      }
      Interfere();
    }

    method TcGetAttr() returns (ok: bool, modes: int)
      requires Valid()
      modifies this`w, this`faults, this`readings
      ensures Valid() && Rely(old(w), w) && faults == old(faults) + Fault(ok)
      ensures ok ==> modes == old(w).tty.modes
      ensures readings == old(readings) + if ok then [Reading(Front(log), old(w).tty.modes)] else []
    {
      hide WorldOk, Accounted;
      ok, modes := *, w.tty.modes;
      if ok { readings := readings + [Reading(Front(log), modes)]; }
      faults := faults + Fault(ok);
      Interfere();
    }
  }

  /** What one call adds to the count of failed calls. */
  function Fault(ok: bool): nat { if ok then 0 else 1 }

  function WaitNowResult(w: World, pid: Pid, changes: bool): WaitResult {
    if pid !in w.children then NoChild
    else if w.children[pid].death.Some? || (changes && Uncollected(w.children[pid]))
    then Got(pid, ReportOf(w.children[pid]))
    else Nothing
  }

  // ---------------------------------------------------------------- the gates' books

  ghost predicate Writable(fds: FdTable, g: nat) {
    exists fd :: fd in fds && fds[fd].desc == PipeEnd(g, true)
  }

  /** The stamped gates are exactly the recorded openings, and a gate counts as open only while the
      shell has a descriptor on its write end. */
  ghost predicate Accounted(gates: map<nat, Gate>, fds: FdTable, openings: seq<Opening>) {
    && (forall g :: g in gates && gates[g].stamp.Some? ==> Opening(g, gates[g].stamp.value) in openings)
    && (forall o :: o in openings ==> o.gate in gates && gates[o.gate].stamp == Some(o.stamp))
    && (forall g :: g in gates && gates[g].open ==> Writable(fds, g))
  }

  lemma AccountedDrift(a: World, b: World, fds: FdTable, openings: seq<Opening>)
    requires Accounted(a.gates, fds, openings) && Drifts(a, b)
    ensures Accounted(b.gates, fds, openings)
  {
    hide WorldOk;
    forall g | g in a.gates ensures b.gates[g].stamp == a.gates[g].stamp && b.gates[g].open == a.gates[g].open {
      assert GateEvolves(a.gates[g], b.gates[g]);
    }
  }

  lemma AccountedPipe(gates: map<nat, Gate>, fds: FdTable, openings: seq<Opening>, id: nat, r: int, wr: int)
    requires Accounted(gates, fds, openings) && id !in gates && r !in fds && wr !in fds && r != wr
    ensures Accounted(gates[id := NEW_GATE],
                      fds[r := Entry(PipeEnd(id, false), false)][wr := Entry(PipeEnd(id, true), false)], openings)
  {
    var fds' := fds[r := Entry(PipeEnd(id, false), false)][wr := Entry(PipeEnd(id, true), false)];
    assert fds'[wr].desc == PipeEnd(id, true);
    forall g | g in gates && gates[g].open ensures Writable(fds', g) {
      var fd :| fd in fds && fds[fd].desc == PipeEnd(g, true);
      assert fds'[fd].desc == PipeEnd(g, true);
    }
  }

  lemma AccountedSeal(gates: map<nat, Gate>, fds: FdTable, openings: seq<Opening>, fd: int)
    requires Accounted(gates, fds, openings) && fd in fds
    ensures Accounted(gates, fds[fd := fds[fd].(cloexec := true)], openings)
  {
    var fds' := fds[fd := fds[fd].(cloexec := true)];
    forall g | g in gates && gates[g].open ensures Writable(fds', g) {
      var e :| e in fds && fds[e].desc == PipeEnd(g, true);
      assert fds'[e].desc == PipeEnd(g, true);
    }
  }

  lemma AccountedClose(w: World, fds: FdTable, openings: seq<Opening>, fd: int)
    requires Accounted(w.gates, fds, openings) && fd in fds
    ensures Accounted(CloseEffect(w, fds[fd].desc).gates, fds - {fd}, openings)
  {
    var gates, fds' := CloseEffect(w, fds[fd].desc).gates, fds - {fd};
    forall g | g in gates && gates[g].open ensures Writable(fds', g) {
      var e :| e in fds && fds[e].desc == PipeEnd(g, true);
      assert fds'[e].desc == PipeEnd(g, true);
    }
  }

  lemma AccountedFork(w: World, pid: Pid, c: Child, fds: FdTable, openings: seq<Opening>)
    requires Accounted(w.gates, fds, openings) && c.gate in w.gates
    ensures Accounted(ForkEffect(w, pid, c).gates, fds, openings)
  {
  }

  lemma AccountedWrite(w: World, fds: FdTable, openings: seq<Opening>, id: nat, listed: seq<Listing>)
    requires Accounted(w.gates, fds, openings) && id in w.gates
    ensures w.gates[id].stamp.None? ==>
      Accounted(WriteEffect(w, id, listed).gates, fds, openings + [Opening(id, Stamp(listed, w.tty.fg))])
    ensures w.gates[id].stamp.Some? ==> Accounted(WriteEffect(w, id, listed).gates, fds, openings)
  {
  }

  predicate OpeningOf(w: World, p: Pid, o: Opening)
    requires p in w.children
  {
    && o.gate == w.children[p].gate && o.stamp.listed != []
    && p in o.stamp.listed[0].pids && w.children[p].pgid == o.stamp.listed[0].pgid
  }

  /** Gate safety at every moment of every run: a child past its gate belongs to an opening on
      record, is a process of the job that headed the list then, and is in that job's group. */
  lemma PassedWasOpened(m: Machine, p: Pid)
    requires m.Valid() && p in m.w.children && m.w.children[p].phase.Passed?
    ensures exists o :: o in m.openings && OpeningOf(m.w, p, o)
  {
    GateSafety(m.w, p);
    var g := m.w.children[p].gate;
    assert OpeningOf(m.w, p, Opening(g, m.w.gates[g].stamp.value));
  }

  /** Pipes made since `before` that the shell has given back: closed for good, and if no opening
      was recorded meanwhile nobody has passed one or ever will. */
  lemma NewGates(m: Machine, before: set<nat>, fds: FdTable, openings: seq<Opening>, g: nat)
    requires m.Valid() && m.fds == fds && g in m.w.gates && g !in before
    requires forall fd :: fd in fds && fds[fd].desc.PipeEnd? ==> fds[fd].desc.id in before
    requires forall o :: o in openings ==> o.gate in before
    ensures !m.w.gates[g].open
    ensures m.openings == openings ==> m.w.gates[g].written == 0 && m.w.gates[g].consumed == {}
  {
    assert GateOk(m.w.gates[g]);
  }

  // ---------------------------------------------------------------- effects keep WorldOk

  lemma NewGateKeepsWorldOk(w: World, id: nat)
    requires WorldOk(w) && id !in w.gates
    ensures WorldOk(WithGate(w, id, NEW_GATE))
  {
  }

  lemma CloseKeepsWorldOk(w: World, d: Desc)
    requires WorldOk(w)
    ensures WorldOk(CloseEffect(w, d))
  {
  }

  lemma ForkKeepsWorldOk(w: World, pid: Pid, c: Child)
    requires WorldOk(w) && pid !in w.children
    requires c.gate in w.gates && w.gates[c.gate].stamp.None? && w.gates[c.gate].members <= w.children.Keys
    requires c.phase.Forked? && c.death.None? && c.change.None?
    ensures WorldOk(ForkEffect(w, pid, c))
  {
  }

  lemma RegroupKeepsWorldOk(w: World, pid: Pid, pgid: Pid)
    requires WorldOk(w) && pid in w.children && pgid == w.children[pid].target
    ensures WorldOk(SetChild(w, pid, w.children[pid].(pgid := pgid)))
  {
  }

  lemma DoomKeepsWorldOk(w: World, pid: Pid)
    requires WorldOk(w) && pid in w.children
    ensures WorldOk(SetChild(w, pid, Doom(w.children[pid])))
  {
  }

  lemma WriteKeepsWorldOk(w: World, id: nat, listed: seq<Listing>)
    requires WorldOk(w) && id in w.gates
    requires w.gates[id].stamp.None? ==>
      && listed != [] && w.gates[id].members == (set p | p in listed[0].pids)
      && (forall p :: p in w.children && w.children[p].gate == id ==> w.children[p].target == listed[0].pgid)
    ensures WorldOk(WriteEffect(w, id, listed))
  {
  }

  lemma TtyKeepsWorldOk(w: World, t: Tty)
    requires WorldOk(w)
    ensures WorldOk(w.(tty := t))
  {
  }
}
