/**
 What holds while a launch is under way: the children it has forked are held at the gate, in one
 group, and the rest of the shell's children stay exactly those of the listed jobs.
 */
module LaunchState {
  import opened Kernel
  import opened Machines
  import opened Jobs
  import opened JobTables

  ghost predicate Distinct(pids: seq<Pid>) {
    forall i, j :: 0 <= i < j < |pids| ==> pids[i] != pids[j]
  }

  ghost predicate Stage(w: World, p: Pid, g: nat, pgid: Pid) {
    && p > 0 && p in w.children
    && w.children[p].gate == g && w.children[p].target == pgid
    && (!Uncollected(w.children[p]) ==> !w.children[p].stopped)
  }

  ghost predicate Joined(w: World, p: Pid, pgid: Pid) {
    p in w.children && (Alive(w.children[p]) ==> w.children[p].pgid == pgid)
  }

  /** The stages forked so far stand at gate `g`, nothing has been written to it, and the first
      `joined` of them are in group `pgid`. */
  ghost predicate Held(w: World, jobs: seq<Job>, pids: seq<Pid>, joined: nat, g: nat, pgid: Pid) {
    && Synced(w, jobs, multiset(pids))
    && Distinct(pids) && joined <= |pids|
    && g in w.gates && w.gates[g].members == (set p | p in pids)
    && w.gates[g].written == 0 && w.gates[g].stamp.None?
    && (forall k :: 0 <= k < |pids| ==> Stage(w, pids[k], g, pgid))
    && (forall k :: 0 <= k < joined ==> Joined(w, pids[k], pgid))
  }

  ghost predicate NewGroup(jobs: seq<Job>, pgid: Pid) {
    forall i :: 0 <= i < |jobs| ==> jobs[i].pgid != pgid
  }

  lemma HeldStable(a: World, b: World, jobs: seq<Job>, pids: seq<Pid>, joined: nat, g: nat, pgid: Pid)
    requires Held(a, jobs, pids, joined, g, pgid) && Drifts(a, b)
    ensures Held(b, jobs, pids, joined, g, pgid)
  {
    SyncedStable(a, b, jobs, multiset(pids));
    assert GateEvolves(a.gates[g], b.gates[g]);
    forall k | 0 <= k < |pids| ensures Stage(b, pids[k], g, pgid) {
      assert Stage(a, pids[k], g, pgid);
      assert Evolves(a.children[pids[k]], b.children[pids[k]]);
    }
    forall k | 0 <= k < joined ensures Joined(b, pids[k], pgid) {
      assert Joined(a, pids[k], pgid) && Stage(a, pids[k], g, pgid);
      assert Evolves(a.children[pids[k]], b.children[pids[k]]);
    }
  }

  /** What a launch says about everything outside its own stages: gates only lose bytes to their
      members, and a terminal that is the shell's stays so. */
  ghost predicate Flows(a: World, b: World, shell: Pid) {
    && a.gates.Keys <= b.gates.Keys
    && (forall g :: g in a.gates ==> GateEvolves(a.gates[g].(open := false), b.gates[g].(open := false)))
    && (forall g :: g in a.gates && !a.gates[g].open ==> !b.gates[g].open)
    && (a.tty.fg == shell ==> b.tty == a.tty)
  }

  lemma FlowsTransitive(a: World, b: World, c: World, shell: Pid)
    requires Flows(a, b, shell) && Flows(b, c, shell)
    ensures Flows(a, c, shell)
  {
  }

  /** A call whose effect leaves gates and terminal alone, followed by any steps of the children. */
  lemma CallFlows(a: World, mid: World, b: World, shell: Pid)
    requires mid.gates == a.gates && mid.tty == a.tty && Homes(mid, shell) && Rely(mid, b)
    ensures Flows(a, b, shell)
  {
  }

  // ---------------------------------------------------------------- rolling back

  /** Everything the launch holds and that still exists is among `pids`. */
  ghost predicate HeldIn(w: World, held: multiset<Pid>, pids: seq<Pid>) {
    && (forall p :: p in held ==> p in pids)
    && (forall p :: p in pids && p in w.children ==> p in held)
  }

  ghost predicate DoomedAll(w: World, pids: seq<Pid>) {
    forall k :: 0 <= k < |pids| ==> DoomedPid(w, pids[k])
  }

  ghost predicate DoomedPid(w: World, p: Pid) {
    p in w.children ==> w.children[p].doomed || w.children[p].death.Some?
  }

  lemma DoomedAllStable(a: World, b: World, pids: seq<Pid>)
    requires DoomedAll(a, pids) && Drifts(a, b)
    ensures DoomedAll(b, pids)
  {
  }

  lemma HeldInStable(a: World, b: World, held: multiset<Pid>, pids: seq<Pid>)
    requires HeldIn(a, held, pids) && Drifts(a, b)
    ensures HeldIn(b, held, pids)
  {
  }

  /** SIGKILL changes nothing the table knows about. */
  ghost predicate OnlyDoomed(a: World, b: World) {
    && b.children.Keys == a.children.Keys && b.gates == a.gates && b.tty == a.tty
    && (forall p :: p in a.children ==> b.children[p] == a.children[p] || b.children[p] == Doom(a.children[p]))
  }

  lemma OnlyDoomedSynced(a: World, b: World, jobs: seq<Job>, held: multiset<Pid>)
    requires OnlyDoomed(a, b) && Synced(a, jobs, held)
    ensures Synced(b, jobs, held)
  {
    forall i | 0 <= i < |jobs| ensures OwnsJob(b, jobs[i]) && AgreesJob(b, jobs[i]) {
      assert OwnsJob(a, jobs[i]) && AgreesJob(a, jobs[i]);
      forall j | 0 <= j < |jobs[i].procs|
        ensures Owns(b, jobs[i].pgid, jobs[i].procs[j]) && Agrees(b, jobs[i].procs[j])
      {
        assert Owns(a, jobs[i].pgid, jobs[i].procs[j]) && Agrees(a, jobs[i].procs[j]);
      }
    }
  }

  /** Reaping a child the launch holds takes it out of the launch's hands and out of nothing else. */
  lemma ReapHeld(w: World, jobs: seq<Job>, held: multiset<Pid>, p: Pid)
    requires Synced(w, jobs, held) && p in held && p in w.children && w.children[p].death.Some?
    ensures Synced(Collect(w, p), jobs, held - multiset{p})
  {
    var w' := Collect(w, p);
    assert w'.children.Keys == w.children.Keys - {p};
    assert multiset(w'.children.Keys) + multiset{p} == multiset(w.children.Keys);
    assert LiveJobs(jobs) + held == (LiveJobs(jobs) + (held - multiset{p})) + multiset{p};
    CancelSum(multiset(w'.children.Keys), LiveJobs(jobs) + (held - multiset{p}), multiset{p});
    assert (LiveJobs(jobs) + held)[p] <= 1;
    forall i | 0 <= i < |jobs| ensures OwnsJob(w', jobs[i]) && AgreesJob(w', jobs[i]) {
      assert OwnsJob(w, jobs[i]) && AgreesJob(w, jobs[i]);
      forall j | 0 <= j < |jobs[i].procs|
        ensures Owns(w', jobs[i].pgid, jobs[i].procs[j]) && Agrees(w', jobs[i].procs[j])
      {
        assert Owns(w, jobs[i].pgid, jobs[i].procs[j]) && Agrees(w, jobs[i].procs[j]);
        if !jobs[i].procs[j].status.ProcessDone? {
          LiveJobsMember(jobs, i, j);
        }
      }
    }
  }

  lemma CollectHomes(w: World, p: Pid, shell: Pid)
    requires Homes(w, shell) && p in w.children
    ensures Homes(Collect(w, p), shell)
  {
  }

  // ---------------------------------------------------------------- forking a stage

  lemma ForkHeld(w: World, jobs: seq<Job>, pids: seq<Pid>, g: nat, pgid: Pid, pid: Pid, c: Child)
    requires Held(w, jobs, pids, |pids|, g, pgid) && FreshPid(w, pid)
    requires c.gate == g && c.phase.Forked? && !Uncollected(c) && !c.stopped
    requires c.target == (if pids == [] then pid else pgid)
    ensures Held(ForkEffect(w, pid, c), jobs, pids + [pid], |pids|, g, c.target)
  {
    var w' := ForkEffect(w, pid, c);
    var pids' := pids + [pid];
    ForkSynced(w, jobs, multiset(pids), pid, c);
    assert multiset(pids') == multiset(pids) + multiset{pid};
    hide Synced, FreshPid;
    forall k | 0 <= k < |pids| ensures Stage(w', pids'[k], g, c.target)
      ensures Joined(w', pids'[k], c.target) && pids[k] != pid
    {
      assert Stage(w, pids[k], g, pgid) && Joined(w, pids[k], pgid);
    }
    assert w'.gates[g].members == (set p | p in pids');
  }

  lemma ForkSynced(w: World, jobs: seq<Job>, held: multiset<Pid>, pid: Pid, c: Child)
    requires Synced(w, jobs, held) && pid !in w.children && c.gate in w.gates
    ensures Synced(ForkEffect(w, pid, c), jobs, held + multiset{pid})
  {
    var w' := ForkEffect(w, pid, c);
    assert w'.children.Keys == w.children.Keys + {pid};
    assert multiset(w'.children.Keys) == multiset(w.children.Keys) + multiset{pid};
    assert LiveJobs(jobs) + (held + multiset{pid}) == (LiveJobs(jobs) + held) + multiset{pid};
    forall i | 0 <= i < |jobs| ensures OwnsJob(w', jobs[i]) && AgreesJob(w', jobs[i]) {
      assert OwnsJob(w, jobs[i]) && AgreesJob(w, jobs[i]);
      forall j | 0 <= j < |jobs[i].procs|
        ensures Owns(w', jobs[i].pgid, jobs[i].procs[j]) && Agrees(w', jobs[i].procs[j])
      {
        assert Owns(w, jobs[i].pgid, jobs[i].procs[j]) && Agrees(w, jobs[i].procs[j]);
      }
    }
  }

  /** After setpgid_parent succeeded the newest stage is in the group too, or already dead. */
  lemma RegroupHeld(w: World, jobs: seq<Job>, pids: seq<Pid>, g: nat, pgid: Pid)
    requires pids != [] && Held(w, jobs, pids, |pids| - 1, g, pgid)
    ensures var p := pids[|pids| - 1];
      p in w.children && Held(SetChild(w, p, w.children[p].(pgid := pgid)), jobs, pids, |pids|, g, pgid)
  {
    var p := pids[|pids| - 1];
    assert Stage(w, p, g, pgid);
    var w' := SetChild(w, p, w.children[p].(pgid := pgid));
    assert w'.children.Keys == w.children.Keys;
    forall k | 0 <= k < |pids| ensures Stage(w', pids[k], g, pgid) && Joined(w', pids[k], pgid) {
      assert Stage(w, pids[k], g, pgid);
      if k < |pids| - 1 { assert Joined(w, pids[k], pgid); }
    }
    HeldNotOwned(w, jobs, multiset(pids), p);
    forall i | 0 <= i < |jobs| ensures OwnsJob(w', jobs[i]) && AgreesJob(w', jobs[i]) {
      assert OwnsJob(w, jobs[i]) && AgreesJob(w, jobs[i]);
      forall j | 0 <= j < |jobs[i].procs|
        ensures Owns(w', jobs[i].pgid, jobs[i].procs[j]) && Agrees(w', jobs[i].procs[j])
      {
        assert Owns(w, jobs[i].pgid, jobs[i].procs[j]) && Agrees(w, jobs[i].procs[j]);
      }
    }
  }

  lemma HeldNotOwned(w: World, jobs: seq<Job>, held: multiset<Pid>, p: Pid)
    requires Conserved(w, jobs, held) && p in held
    ensures forall i, j :: 0 <= i < |jobs| && 0 <= j < |jobs[i].procs| && !jobs[i].procs[j].status.ProcessDone? ==>
      jobs[i].procs[j].pid != p
  {
    assert multiset(w.children.Keys)[p] <= 1;
    assert (LiveJobs(jobs) + held)[p] <= 1;
    forall i, j | 0 <= i < |jobs| && 0 <= j < |jobs[i].procs| && !jobs[i].procs[j].status.ProcessDone?
      ensures jobs[i].procs[j].pid != p
    {
      LiveJobsMember(jobs, i, j);
    }
  }

  // ---------------------------------------------------------------- before anything is released

  lemma OwnedAim(w: World, jobs: seq<Job>, p: Pid) returns (i: nat)
    requires forall i :: 0 <= i < |jobs| ==> OwnsJob(w, jobs[i])
    requires p in LiveJobs(jobs)
    ensures i < |jobs| && p in w.children && w.children[p].target == jobs[i].pgid
  {
    var j;
    i, j := LiveJobsPosition(jobs, p);
    assert OwnsJob(w, jobs[i]);
    assert Owns(w, jobs[i].pgid, jobs[i].procs[j]);
  }

  /** Nobody in the new group is past the gate before the first byte. */
  lemma NobodyPassed(w: World, jobs: seq<Job>, pids: seq<Pid>, joined: nat, g: nat, pgid: Pid, shell: Pid)
    requires Held(w, jobs, pids, joined, g, pgid) && WorldOk(w) && Homes(w, shell) && pgid != shell
    requires NewGroup(jobs, pgid)
    ensures Unseizable(w, pgid)
    ensures forall p :: p in w.children && w.children[p].target == pgid ==> p in pids
  {
    forall p | p in w.children && w.children[p].target == pgid
      ensures p in pids && !w.children[p].phase.Passed?
    {
      if p in LiveJobs(jobs) { var i := OwnedAim(w, jobs, p); }
      assert p in multiset(w.children.Keys);
      assert p in LiveJobs(jobs) + multiset(pids);
      assert p in pids;
      var k :| 0 <= k < |pids| && pids[k] == p;
      assert Stage(w, pids[k], g, pgid);
      assert Placed(w, p) && GateOk(w.gates[g]);
      assert w.gates[g].consumed == {};
    }
  }

  // ---------------------------------------------------------------- registering the job

  function Registered(pids: seq<Pid>): seq<Process> {
    seq(|pids|, k requires 0 <= k < |pids| => Process(pids[k], ProcessRunning, None))
  }

  lemma {:induction false} RegisteredLive(pids: seq<Pid>)
    ensures Live(Registered(pids)) == multiset(pids)
  {
    if pids != [] {
      assert Registered(pids)[1..] == Registered(pids[1..]);
      RegisteredLive(pids[1..]);
      assert pids == [pids[0]] + pids[1..];
    }
  }

  function ListingOf(job: Job): Listing { Listing(job.pgid, PidsOf(job)) }

  /** The job list as the gate's stamp records it. */
  function Listings(jobs: seq<Job>): seq<Listing> {
    seq(|jobs|, i requires 0 <= i < |jobs| => ListingOf(jobs[i]))
  }

  /** Listing the held stages as a job hands them from the launch to the table. */
  lemma RegisterSynced(w: World, jobs: seq<Job>, nextId: int, pids: seq<Pid>, g: nat, pgid: Pid, job: Job)
    requires pids != [] && pgid > 0 && Held(w, jobs, pids, |pids|, g, pgid) && TableOk(jobs, nextId)
    requires NewGroup(jobs, pgid)
    requires job.procs == Registered(pids) && job.pgid == pgid && job.id == nextId && job.status == JobRunning
    ensures Synced(w, [job] + jobs, multiset{}) && TableOk([job] + jobs, nextId + 1)
  {
    var all := [job] + jobs;
    RegisteredLive(pids);
    assert all[1..] == jobs;
    assert Conserved(w, all, multiset{});
    HeldJobOk(w, jobs, pids, g, pgid, job);
    forall i | 0 <= i < |all| ensures JobOk(all[i]) && OwnsJob(w, all[i]) && AgreesJob(w, all[i]) {
      if i > 0 { assert all[i] == jobs[i - 1]; }
    }
    HeadIdsOk(job, jobs, nextId);
  }

  lemma HeadIdsOk(job: Job, jobs: seq<Job>, nextId: int)
    requires IdsOk(jobs, nextId) && job.id == nextId && forall i :: 0 <= i < |jobs| ==> jobs[i].pgid != job.pgid
    ensures IdsOk([job] + jobs, nextId + 1)
  {
  }

  lemma HeldJobOk(w: World, jobs: seq<Job>, pids: seq<Pid>, g: nat, pgid: Pid, job: Job)
    requires pids != [] && pgid > 0 && Held(w, jobs, pids, |pids|, g, pgid)
    requires job.procs == Registered(pids) && job.pgid == pgid && job.status == JobRunning
    ensures JobOk(job) && OwnsJob(w, job) && AgreesJob(w, job)
  {
    assert job.procs[0].status.ProcessRunning?;
    forall j | 0 <= j < |job.procs|
      ensures Owns(w, pgid, job.procs[j]) && Agrees(w, job.procs[j]) && ProcessOk(job.procs[j])
    {
      assert Stage(w, pids[j], g, pgid) && Joined(w, pids[j], pgid);
    }
  }

  function PidsOf(job: Job): seq<Pid> {
    seq(|job.procs|, k requires 0 <= k < |job.procs| => job.procs[k].pid)
  }

  /** No pid of the launch is the pid of a live process of another job. */
  ghost predicate Apart(pids: seq<Pid>, jobs: seq<Job>) {
    forall p :: p in pids ==> p !in LiveJobs(jobs)
  }

  lemma HeldApart(w: World, jobs: seq<Job>, pids: seq<Pid>)
    requires Conserved(w, jobs, multiset(pids))
    ensures Apart(pids, jobs)
  {
    forall p | p in pids ensures p !in LiveJobs(jobs) {
      assert multiset(w.children.Keys)[p] <= 1;
      assert (LiveJobs(jobs) + multiset(pids))[p] <= 1;
      assert p in multiset(pids);
    }
  }

  /** Seen from a launch that failed after listing its job, the job's live processes are held. */
  lemma UnlistHead(w: World, job: Job, jobs: seq<Job>)
    requires Synced(w, [job] + jobs, multiset{}) && Apart(PidsOf(job), jobs)
    ensures Synced(w, jobs, Live(job.procs))
    ensures HeldIn(w, Live(job.procs), PidsOf(job))
  {
    var all := [job] + jobs;
    assert all[1..] == jobs;
    assert LiveJobs(all) + multiset{} == LiveJobs(jobs) + Live(job.procs);
    forall i | 0 <= i < |jobs| ensures JobShape(jobs[i]) && OwnsJob(w, jobs[i]) && AgreesJob(w, jobs[i]) {
      assert all[i + 1] == jobs[i];
    }
    forall p | p in Live(job.procs) ensures p in PidsOf(job) {
      var j := LivePosition(job.procs, p);
      assert PidsOf(job)[j] == p;
    }
    forall p | p in PidsOf(job) && p in w.children ensures p in Live(job.procs) {
      assert p in multiset(w.children.Keys);
      assert p in LiveJobs(jobs) + Live(job.procs);
    }
  }
}
