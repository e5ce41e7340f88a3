/**
 The operating system as the shell sees it: the shell's children, the pipes it made, and the
 terminal's foreground group and modes, together with every step a child may take by itself.

 A child that has not yet passed the startup gate runs the shell's own code
 (child_prepare_before_gate), so its steps are spelled out one by one.  A child that has passed
 is an arbitrary program: it may run, stop, continue, die or reconfigure a terminal it owns.
 */
module Kernel {

  datatype Option<+T> = None | Some(value: T)

  type Pid = int

  /** What waitpid reports about a child. */
  datatype WaitStatus =
    | Exited(code: int)
    | Signaled(sig: int)
    | StoppedBy(sig: int)
    | Resumed

  predicate IsDeath(s: WaitStatus) {
    || (s.Exited? && 0 <= s.code <= 255)
    || (s.Signaled? && 1 <= s.sig <= 126)
  }

  /** How far a child got in child_prepare_before_gate: still holding its copy of the gate's
      write end, write end closed, in its process group and reading the gate, past the gate. */
  datatype Phase = Forked | Sealed | Waiting | Passed

  function Rank(p: Phase): nat {
    match p case Forked => 0 case Sealed => 1 case Waiting => 2 case Passed => 3
  }

  datatype Desc =
    | Inherited(n: int)                  // anything open before the launch
    | PipeEnd(id: nat, write: bool)
    | Opened(path: string, output: bool, append: bool)

  datatype Entry = Entry(desc: Desc, cloexec: bool)

  type FdTable = map<int, Entry>

  datatype Redirect = Redirect(input: Option<string>, output: Option<string>, append: bool)

  /** The local variables of the parent that the forked child goes on to use. */
  datatype Plan = Plan(gateR: int, gateW: int, pipeIn: int, next: bool, nextR: int, nextW: int, redirect: Redirect)

  datatype Child = Child(
    pgid: Pid,                    // the group it is in now
    target: Pid,                  // the group it was told to join
    gate: nat,                    // the pipe it waits on
    phase: Phase,
    stopped: bool,
    change: Option<WaitStatus>,   // a stop or continue nobody has waited for
    death: Option<WaitStatus>,    // a zombie's status
    doomed: bool,                 // SIGKILL has been sent to it
    plan: Plan,
    table: FdTable)               // the descriptors it inherited at fork

  predicate Uncollected(c: Child) { c.death.Some? || c.change.Some? }

  predicate Alive(c: Child) { c.death.None? }

  ghost predicate ChildOk(c: Child) {
    && (c.phase.Waiting? || c.phase.Passed? ==> c.pgid == c.target)
    && (c.change.Some? && c.death.None? ==>
          || (c.change.value.StoppedBy? && c.stopped)
          || (c.change.value.Resumed? && !c.stopped))
    && (c.death.Some? ==> IsDeath(c.death.value))
  }

  /** One entry of the job list: its group and the pids of its processes, in command order. */
  datatype Listing = Listing(pgid: Pid, pids: seq<Pid>)

  /** How things stood when the first byte was written to a gate: the job list, its head being the
      job whose stages the gate holds, and the group the terminal belonged to. */
  datatype Stamp = Stamp(listed: seq<Listing>, fg: Pid)

  /** The first byte written to a gate. */
  datatype Opening = Opening(gate: nat, stamp: Stamp)

  /** A pipe: `open` says the shell still holds the write end; `members` were forked with it as
      their gate; `written` counts the bytes put in and `consumed` names who took one out. */
  datatype Gate = Gate(open: bool, members: set<Pid>, written: nat, consumed: set<Pid>, stamp: Option<Stamp>)

  const NEW_GATE := Gate(true, {}, 0, {}, None)

  datatype Tty = Tty(fg: Pid, modes: int)

  datatype World = World(children: map<Pid, Child>, gates: map<nat, Gate>, tty: Tty)

  /** Byte accounting of one gate, and the readiness condition its first byte was written under:
      the members are exactly the processes of the job at the head of the list. */
  ghost predicate GateOk(g: Gate) {
    && g.consumed <= g.members
    && |g.consumed| <= g.written
    && (g.written > 0 ==> g.stamp.Some?)
    && (g.stamp.Some? ==>
          && g.stamp.value.listed != []
          && g.members == (set p | p in g.stamp.value.listed[0].pids))
  }

  ghost predicate Placed(w: World, p: Pid)
    requires p in w.children
  {
    var c := w.children[p];
    && ChildOk(c)
    && c.gate in w.gates
    && p in w.gates[c.gate].members
    && (c.phase.Passed? <==> p in w.gates[c.gate].consumed)
    && (w.gates[c.gate].stamp.Some? ==>
          w.gates[c.gate].stamp.value.listed != [] && c.target == w.gates[c.gate].stamp.value.listed[0].pgid)
  }

  ghost predicate WorldOk(w: World) {
    && (forall g :: g in w.gates ==> GateOk(w.gates[g]))
    && (forall p :: p in w.children ==> Placed(w, p))
  }

  /** Gate safety, for one child: once it is past its gate it is a process of the job that headed
      the list when the gate's first byte was written, and is in that job's group. */
  ghost predicate SafelyPassed(w: World, p: Pid)
    requires p in w.children && w.children[p].gate in w.gates
  {
    var c := w.children[p];
    var stamp := w.gates[c.gate].stamp;
    c.phase.Passed? ==>
      && stamp.Some? && stamp.value.listed != []
      && p in stamp.value.listed[0].pids
      && c.pgid == stamp.value.listed[0].pgid
  }

  lemma GateSafety(w: World, p: Pid)
    requires WorldOk(w) && p in w.children
    ensures w.children[p].gate in w.gates && SafelyPassed(w, p)
  {
  }

  // ---------------------------------------------------------------- steps children take

  datatype Act =
    | Seal                     // close(gate_write)
    | Join                     // setpgid(0, target) succeeds
    | JoinFail                 // it fails and the child exits with 1
    | ReadGo                   // one byte read from the gate
    | ReadEof                  // end of file on the gate: exit with 1
    | ReadErr                  // any other read error: exit with 1
    | Die(status: WaitStatus)
    | Stop(sig: int)
    | Cont
    | Seize(tty: Tty)          // a program in the foreground group changes the terminal

  predicate GateHeld(w: World, g: nat) {
    exists q :: q in w.children && w.children[q].gate == g && w.children[q].phase.Forked? && Alive(w.children[q])
  }

  /** What a step asks of the child itself. */
  predicate Ready(c: Child, a: Act) {
    && Alive(c)
    && match a
       case Seal => !c.stopped && c.phase.Forked?
       case Join => !c.stopped && c.phase.Sealed?
       case JoinFail => !c.stopped && c.phase.Sealed?
       case ReadGo => !c.stopped && c.phase.Waiting?
       case ReadEof => !c.stopped && c.phase.Waiting?
       case ReadErr => !c.stopped && c.phase.Waiting?
       case Die(s) => IsDeath(s) && (s.Exited? ==> !c.stopped && c.phase.Passed?)
       case Stop(_) => !c.stopped
       case Cont => c.stopped
       case Seize(_) => !c.stopped && c.phase.Passed?
  }

  predicate Enabled(w: World, p: Pid, a: Act) {
    && p in w.children
    && w.children[p].gate in w.gates
    && Ready(w.children[p], a)
    && var g := w.gates[w.children[p].gate];
       match a
       case ReadGo => |g.consumed| < g.written
       case ReadEof => |g.consumed| == g.written && !g.open && !GateHeld(w, w.children[p].gate)
       case Seize(_) => w.children[p].pgid == w.tty.fg
       case _ => true
  }

  function ChildAfter(c: Child, a: Act): Child {
    match a
    case Seal => c.(phase := Sealed)
    case Join => c.(phase := Waiting, pgid := c.target)
    case JoinFail => c.(death := Some(Exited(1)))
    case ReadGo => c.(phase := Passed)
    case ReadEof => c.(death := Some(Exited(1)))
    case ReadErr => c.(death := Some(Exited(1)))
    case Die(s) => c.(death := Some(s))
    case Stop(s) => c.(stopped := true, change := Some(StoppedBy(s)))
    case Cont => c.(stopped := false, change := Some(Resumed))
    case Seize(_) => c
  }

  function GateAfter(g: Gate, p: Pid, a: Act): Gate {
    if a.ReadGo? then g.(consumed := g.consumed + {p}) else g
  }

  function SetChild(w: World, p: Pid, c: Child): World {
    w.(children := w.children[p := c])
  }

  function Apply(w: World, p: Pid, a: Act): World
    requires Enabled(w, p, a)
  {
    var c := w.children[p];
    World(w.children[p := ChildAfter(c, a)],
          w.gates[c.gate := GateAfter(w.gates[c.gate], p, a)],
          if a.Seize? then a.tty else w.tty)
  }

  lemma GateAfterOk(g: Gate, p: Pid, a: Act)
    requires GateOk(g) && p in g.members && (a.ReadGo? ==> |g.consumed| < g.written)
    ensures GateOk(GateAfter(g, p, a)) && GateEvolves(g, GateAfter(g, p, a))
  {
  }

  lemma ChildAfterOk(c: Child, a: Act)
    requires ChildOk(c) && Ready(c, a)
    ensures ChildOk(ChildAfter(c, a)) && Evolves(c, ChildAfter(c, a))
    ensures ChildAfter(c, a).phase.Passed? <==> c.phase.Passed? || a.ReadGo?
  {
  }

  lemma ApplyKeepsWorldOk(w: World, p: Pid, a: Act)
    requires WorldOk(w) && Enabled(w, p, a)
    ensures WorldOk(Apply(w, p, a))
  {
    var c := w.children[p];
    var w' := Apply(w, p, a);
    assert Placed(w, p);
    GateAfterOk(w.gates[c.gate], p, a);
    ChildAfterOk(c, a);
    forall q | q in w'.children
      ensures Placed(w', q)
    {
      assert Placed(w, q);
    }
  }

  // ---------------------------------------------------------------- any number of steps

  /** What is left of a child's past after any number of its own steps. */
  ghost predicate Evolves(a: Child, b: Child) {
    && b.target == a.target && b.gate == a.gate && b.plan == a.plan && b.table == a.table && b.doomed == a.doomed
    && Rank(a.phase) <= Rank(b.phase)
    && (b.pgid == a.pgid || b.pgid == a.target)
    && (a.phase.Passed? ==> b.pgid == a.pgid)
    && (a.death.Some? ==> b == a)
    && (Uncollected(a) ==> Uncollected(b))
    && (!Uncollected(b) ==> b.stopped == a.stopped)
  }

  ghost predicate GateEvolves(a: Gate, b: Gate) {
    b == a.(consumed := b.consumed) && a.consumed <= b.consumed
  }

  /** No program in the foreground group exists that could touch the terminal. */
  ghost predicate Unseizable(w: World, fg: Pid) {
    forall p :: p in w.children && w.children[p].phase.Passed? ==> w.children[p].pgid != fg
  }

  /** The children and the gates of `b` are what steps of the children make of those of `a`. */
  ghost predicate Drifts(a: World, b: World) {
    && WorldOk(b)
    && b.children.Keys == a.children.Keys
    && (forall p :: p in a.children ==> Evolves(a.children[p], b.children[p]))
    && b.gates.Keys == a.gates.Keys
    && (forall g :: g in a.gates ==> GateEvolves(a.gates[g], b.gates[g]))
  }

  /** `b` is reachable from `a` by steps of the children alone, as far as the shell may rely on. */
  ghost predicate Rely(a: World, b: World) {
    Drifts(a, b) && (Unseizable(b, a.tty.fg) ==> b.tty == a.tty)
  }

  lemma StepRelies(w: World, p: Pid, a: Act)
    requires WorldOk(w) && Enabled(w, p, a)
    ensures Rely(w, Apply(w, p, a))
  {
    var w' := Apply(w, p, a);
    var c := w.children[p];
    ApplyKeepsWorldOk(w, p, a);
    assert Placed(w, p);
    ChildAfterOk(c, a);
    GateAfterOk(w.gates[c.gate], p, a);
    assert w'.children.Keys == w.children.Keys;
    assert w'.gates.Keys == w.gates.Keys;
    if a.Seize? {
      assert w'.children[p].phase.Passed?;
    }
  }

  lemma DriftsTransitive(a: World, b: World, c: World)
    requires Drifts(a, b) && Drifts(b, c)
    ensures Drifts(a, c)
  {
    forall p | p in a.children
      ensures Evolves(a.children[p], c.children[p])
    {
      assert Evolves(a.children[p], b.children[p]);
      assert Evolves(b.children[p], c.children[p]);
    }
    forall g | g in a.gates
      ensures GateEvolves(a.gates[g], c.gates[g])
    {
      assert GateEvolves(a.gates[g], b.gates[g]);
      assert GateEvolves(b.gates[g], c.gates[g]);
    }
  }

  lemma RelyTransitive(a: World, b: World, c: World)
    requires Rely(a, b) && Rely(b, c)
    ensures Rely(a, c)
  {
    DriftsTransitive(a, b, c);
    if Unseizable(c, a.tty.fg) {
      forall p | p in b.children && b.children[p].phase.Passed?
        ensures b.children[p].pgid != a.tty.fg
      {
        assert Evolves(b.children[p], c.children[p]);
      }
    }
  }

  lemma RelyReflexive(w: World)
    requires WorldOk(w)
    ensures Rely(w, w)
  {
  }

  // ---------------------------------------------------------------- nobody waits for ever

  /** The steps of child_prepare_before_gate; a child that can take one of the owed ones will not
      be left waiting for the shell. */
  predicate GateAct(a: Act) { Owed(a) || a.JoinFail? || a.ReadErr? }

  predicate Owed(a: Act) { a.Seal? || a.Join? || a.ReadGo? || a.ReadEof? }

  /** Steps a child still has to take before it is past the gate or dead. */
  function Pending(w: World, p: Pid): nat {
    if p !in w.children || w.children[p].death.Some? then 0 else 3 - Rank(w.children[p].phase)
  }

  function TotalPending(w: World, ps: seq<Pid>): nat {
    if ps == [] then 0 else Pending(w, ps[0]) + TotalPending(w, ps[1..])
  }

  /** After the shell has closed its write end, a gate whose members have run out of steps has no
      member left in front of it: each has read a byte or seen end of file. */
  lemma ClosedGateStrandsNobody(w: World, g: nat)
    requires WorldOk(w) && g in w.gates && !w.gates[g].open
    requires forall p :: p in w.children && w.children[p].gate == g ==>
      !w.children[p].stopped || w.children[p].death.Some?
    requires forall p, a :: p in w.children && w.children[p].gate == g && Owed(a) ==> !Enabled(w, p, a)
    ensures forall p :: p in w.children && w.children[p].gate == g ==> Pending(w, p) == 0
  {
    forall p | p in w.children && w.children[p].gate == g
      ensures Pending(w, p) == 0
    {
      assert Placed(w, p);
      assert GateOk(w.gates[g]);
      assert !Enabled(w, p, Seal) && !Enabled(w, p, Join) && !Enabled(w, p, ReadGo) && !Enabled(w, p, ReadEof);
      if GateHeld(w, g) {
        var q :| q in w.children && w.children[q].gate == g && w.children[q].phase.Forked? && Alive(w.children[q]);
        assert !Enabled(w, q, Seal);
      }
    }
  }

  lemma {:induction false} PendingElsewhere(w: World, p: Pid, a: Act, ps: seq<Pid>)
    requires Enabled(w, p, a) && p !in ps
    ensures TotalPending(Apply(w, p, a), ps) == TotalPending(w, ps)
  {
    if ps != [] {
      PendingElsewhere(w, p, a, ps[1..]);
    }
  }

  /** Every gate step brings its members strictly closer to the end, so after at most three steps
      for each of them they have run out of steps. */
  lemma {:induction false} GateStepsRunOut(w: World, p: Pid, a: Act, ps: seq<Pid>)
    requires WorldOk(w) && Enabled(w, p, a) && GateAct(a) && p in ps
    requires forall i, j :: 0 <= i < j < |ps| ==> ps[i] != ps[j]
    ensures TotalPending(Apply(w, p, a), ps) < TotalPending(w, ps)
  {
    if ps[0] == p {
      PendingElsewhere(w, p, a, ps[1..]);
    } else {
      GateStepsRunOut(w, p, a, ps[1..]);
    }
  }

  /** Once a byte for each member has been written, a member that has not passed finds a byte. */
  lemma ReleasedMemberFindsByte(w: World, p: Pid)
    requires WorldOk(w) && p in w.children && !w.children[p].phase.Passed?
    requires w.gates[w.children[p].gate].written >= |w.gates[w.children[p].gate].members|
    ensures |w.gates[w.children[p].gate].consumed| < w.gates[w.children[p].gate].written
  {
    assert Placed(w, p);
    var g := w.gates[w.children[p].gate];
    assert GateOk(g);
    ProperSubsetSmaller(g.consumed, g.members, p);
  }

  lemma ProperSubsetSmaller<T>(a: set<T>, b: set<T>, x: T)
    requires a <= b && x in b && x !in a
    ensures |a| < |b|
  {
    SubsetSize(a, b - {x});
  }

  lemma {:induction false} SubsetSize<T>(a: set<T>, b: set<T>)
    requires a <= b
    ensures |a| <= |b|
  {
    if a != {} {
      var x :| x in a;
      SubsetSize(a - {x}, b - {x});
    }
  }
}
