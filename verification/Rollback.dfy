/**
 rollback_single and rollback_pipeline: kill whatever a failed launch has forked and reap it.
 */
module Rollbacks {
  import opened Kernel
  import opened Machines
  import opened Jobs
  import opened LaunchState

  ghost predicate Rolling(m: Machine, jobs: seq<Job>, held: multiset<Pid>, pids: seq<Pid>)
    reads m
  {
    m.Valid() && Synced(m.w, jobs, held) && HeldIn(m.w, held, pids)
  }

  lemma KillFlows(a: World, pgid: Pid, b: World, shell: Pid, jobs: seq<Job>, held: multiset<Pid>, pids: seq<Pid>)
    requires Rely(KillEffect(a, pgid, SIGKILL), b) && Homes(a, shell) && Synced(a, jobs, held) && HeldIn(a, held, pids)
    ensures Flows(a, b, shell) && Synced(b, jobs, held) && HeldIn(b, held, pids)
  {
    var mid := KillEffect(a, pgid, SIGKILL);
    assert mid.children.Keys == a.children.Keys;
    OnlyDoomedSynced(a, mid, jobs, held);
    SyncedStable(mid, b, jobs, held);
    HeldInStable(mid, b, held, pids);
    CallFlows(a, mid, b, shell);
  }

  method KillStage(m: Machine, pids: seq<Pid>, i: nat, ghost jobs: seq<Job>, ghost held: multiset<Pid>)
    requires Rolling(m, jobs, held, pids) && i < |pids| && DoomedAll(m.w, pids[..i])
    modifies m`w
    ensures Rolling(m, jobs, held, pids) && DoomedAll(m.w, pids[..i + 1]) && Flows(old(m.w), m.w, m.shellPgid)
  {
    ghost var w0 := m.w;
    var p := pids[i];
    m.KillOne(p);
    ghost var mid := if p in w0.children then SetChild(w0, p, Doom(w0.children[p])) else w0;
    assert mid.children.Keys == w0.children.Keys;
    OnlyDoomedSynced(w0, mid, jobs, held);
    SyncedStable(mid, m.w, jobs, held);
    HeldInStable(mid, m.w, held, pids);
    DoomOneMore(w0, mid, pids, i);
    DoomedAllStable(mid, m.w, pids[..i + 1]);
    CallFlows(w0, mid, m.w, m.shellPgid);
  }

  lemma DoomOneMore(a: World, b: World, pids: seq<Pid>, i: nat)
    requires i < |pids| && DoomedAll(a, pids[..i])
    requires b == if pids[i] in a.children then SetChild(a, pids[i], Doom(a.children[pids[i]])) else a
    ensures DoomedAll(b, pids[..i + 1])
  {
  }

  /** reap_pid: the pid is reaped if it is still there. */
  method ReapPid(m: Machine, pids: seq<Pid>, i: nat, ghost jobs: seq<Job>, ghost held: multiset<Pid>)
    returns (ghost held': multiset<Pid>)
    requires i < |pids| && Rolling(m, jobs, held, pids[i..]) && DoomedAll(m.w, pids)
    modifies m`w, m`log
    ensures Rolling(m, jobs, held', pids[i + 1..]) && DoomedAll(m.w, pids) && Flows(old(m.w), m.w, m.shellPgid)
  {
    hide Synced, WorldOk, Accounted, Drifts, Flows, Homes, HeldIn;
    ghost var w0 := m.w;
    var p := pids[i];
    assert DoomedPid(w0, p);
    hide DoomedAll;
    var r, mid := m.WaitDeath(p);
    SyncedStable(w0, mid, jobs, held);
    HeldInStable(w0, mid, held, pids[i..]);
    DoomedAllStable(w0, mid, pids);
    HomesStable(w0, mid, m.shellPgid);
    CallFlows(w0, w0, mid, m.shellPgid);
    ghost var after := if p in mid.children then Collect(mid, p) else mid;
    held' := held - multiset{p};
    TakeOut(mid, after, jobs, held, pids, i);
    if p in mid.children { CollectHomes(mid, p, m.shellPgid); }
    SyncedStable(after, m.w, jobs, held');
    HeldInStable(after, m.w, held', pids[i + 1..]);
    DoomedAllStable(after, m.w, pids);
    CallFlows(mid, after, m.w, m.shellPgid);
    FlowsTransitive(w0, mid, m.w, m.shellPgid);
  }

  lemma TakeOut(w: World, after: World, jobs: seq<Job>, held: multiset<Pid>, pids: seq<Pid>, i: nat)
    requires i < |pids| && Synced(w, jobs, held) && HeldIn(w, held, pids[i..]) && DoomedAll(w, pids)
    requires pids[i] in w.children ==> w.children[pids[i]].death.Some?
    requires after == if pids[i] in w.children then Collect(w, pids[i]) else w
    ensures Synced(after, jobs, held - multiset{pids[i]}) && HeldIn(after, held - multiset{pids[i]}, pids[i + 1..])
    ensures DoomedAll(after, pids) && after.gates == w.gates && after.tty == w.tty
  {
    var p := pids[i];
    assert multiset(w.children.Keys)[p] <= 1;
    assert (LiveJobs(jobs) + held)[p] <= 1;
    assert p in w.children <==> p in multiset(w.children.Keys);
    assert pids[i..] == [p] + pids[i + 1..];
    if p in w.children {
      assert p in pids[i..];
      ReapHeld(w, jobs, held, p);
    } else {
      assert p !in LiveJobs(jobs) + held;
      assert held - multiset{p} == held;
    }
    assert held[p] <= 1;
    forall q | q in held - multiset{p} ensures q in pids[i + 1..] {
      assert q in held && q != p;
    }
    forall k | 0 <= k < |pids| ensures DoomedPid(after, pids[k]) {
      assert DoomedPid(w, pids[k]);
    }
  }

  /** The loop that sends SIGKILL to every pid. */
  method KillStages(m: Machine, pids: seq<Pid>, ghost jobs: seq<Job>, ghost held: multiset<Pid>)
    requires Rolling(m, jobs, held, pids)
    modifies m`w
    ensures Rolling(m, jobs, held, pids) && DoomedAll(m.w, pids) && Flows(old(m.w), m.w, m.shellPgid)
  {
    SelfFlows(m.w, m.shellPgid);
    hide Rolling, Flows, DoomedPid;
    var i := 0;
    while i < |pids|
      invariant 0 <= i <= |pids| && Rolling(m, jobs, held, pids) && DoomedAll(m.w, pids[..i])
      invariant Flows(old(m.w), m.w, m.shellPgid)
    {
      ghost var before := m.w;
      KillStage(m, pids, i, jobs, held);
      FlowsTransitive(old(m.w), before, m.w, m.shellPgid);
      i := i + 1;
    }
    assert pids[..|pids|] == pids;
  }

  /** The loop of reap_pid calls. */
  method ReapStages(m: Machine, pids: seq<Pid>, ghost jobs: seq<Job>, ghost held0: multiset<Pid>)
    requires Rolling(m, jobs, held0, pids) && DoomedAll(m.w, pids)
    modifies m`w, m`log
    ensures m.Valid() && Synced(m.w, jobs, multiset{}) && Flows(old(m.w), m.w, m.shellPgid)
  {
    SelfFlows(m.w, m.shellPgid);
    hide Synced, Flows, HeldIn, DoomedAll, WorldOk, Accounted, Homes;
    ghost var held := held0;
    assert pids[0..] == pids;
    var i := 0;
    while i < |pids|
      invariant 0 <= i <= |pids| && Rolling(m, jobs, held, pids[i..]) && DoomedAll(m.w, pids)
      invariant Flows(old(m.w), m.w, m.shellPgid)
    {
      ghost var before := m.w;
      held := ReapPid(m, pids, i, jobs, held);
      FlowsTransitive(old(m.w), before, m.w, m.shellPgid);
      i := i + 1;
    }
    NothingHeld(m.w, held, pids[i..]);
  }

  /** rollback_single and rollback_pipeline: afterwards the shell's children are those of the
      listed jobs again. */
  method Rollback(m: Machine, pgid: Pid, pids: seq<Pid>, ghost jobs: seq<Job>, ghost held: multiset<Pid>)
    requires Rolling(m, jobs, held, pids)
    modifies m`w, m`log, m`faults
    ensures m.Valid() && Synced(m.w, jobs, multiset{}) && Flows(old(m.w), m.w, m.shellPgid)
    ensures m.faults >= old(m.faults)
  {
    hide Accounted;
    if pgid > 0 {
      var _ := m.Kill(pgid, SIGKILL);
      KillFlows(old(m.w), pgid, m.w, m.shellPgid, jobs, held, pids);
    } else {
      SelfFlows(m.w, m.shellPgid);
    }
    hide Synced, Flows, HeldIn, WorldOk, Accounted, Homes, DoomedAll;
    ghost var w1 := m.w;
    KillStages(m, pids, jobs, held);
    ghost var w2 := m.w;
    FlowsTransitive(old(m.w), w1, w2, m.shellPgid);
    ReapStages(m, pids, jobs, held);
    FlowsTransitive(old(m.w), w2, m.w, m.shellPgid);
  }

  lemma NothingHeld(w: World, held: multiset<Pid>, pids: seq<Pid>)
    requires HeldIn(w, held, pids) && pids == []
    ensures held == multiset{}
  {
    forall p ensures held[p] == 0 {
      assert p !in held;
    }
  }

  lemma SelfFlows(w: World, shell: Pid)
    ensures Flows(w, w, shell)
  {
  }
}
