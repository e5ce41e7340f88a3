/**
 The modes a job gets back with fg are those read when it last stopped in the foreground.
 */
module Modes {
  import opened Kernel
  import opened Machines
  import opened Jobs
  import opened JobTables
  import opened LaunchState
  import opened Wiring
  import opened Launch
  import opened Executor
  import opened Spawn
  import opened Execute

  /** The modes read last while group `pgid` had the terminal. */
  function LastRead(readings: seq<Reading>, pgid: Pid): Option<int> {
    if readings == [] then None
    else if readings[|readings| - 1].front == pgid then Some(readings[|readings| - 1].modes)
    else LastRead(readings[..|readings| - 1], pgid)
  }

  /** The modes a job remembers are the last ones read while it had the terminal. */
  ghost predicate Sound(readings: seq<Reading>, jobs: seq<Job>) {
    forall i :: 0 <= i < |jobs| && jobs[i].modes.Some? ==> jobs[i].modes == LastRead(readings, jobs[i].pgid)
  }

  predicate SameModes(a: Job, b: Job) { a.pgid == b.pgid && a.modes == b.modes }

  ghost predicate Among(jobs: seq<Job>, job: Job) {
    exists i :: 0 <= i < |jobs| && SameModes(jobs[i], job)
  }

  /** Every job of `now` was in `jobs`, with the same modes. */
  ghost predicate From(jobs: seq<Job>, now: seq<Job>) {
    forall k :: 0 <= k < |now| ==> Among(jobs, now[k])
  }

  lemma SoundFrom(readings: seq<Reading>, jobs: seq<Job>, now: seq<Job>)
    requires Sound(readings, jobs) && From(jobs, now)
    ensures Sound(readings, now)
  {
    forall k | 0 <= k < |now| && now[k].modes.Some? ensures now[k].modes == LastRead(readings, now[k].pgid) {
      assert Among(jobs, now[k]);
      var i :| 0 <= i < |jobs| && SameModes(jobs[i], now[k]);
    }
  }

  /** Same jobs, position by position. */
  lemma FromSame(jobs: seq<Job>, now: seq<Job>)
    requires |now| == |jobs| && forall k :: 0 <= k < |jobs| ==> SameModes(jobs[k], now[k])
    ensures From(jobs, now)
  {
    forall k | 0 <= k < |now| ensures Among(jobs, now[k]) {
      assert SameModes(jobs[k], now[k]);
    }
  }

  lemma FromDropped(jobs: seq<Job>, i: nat)
    requires i < |jobs|
    ensures From(jobs, jobs[..i] + jobs[i + 1..])
  {
    var now := jobs[..i] + jobs[i + 1..];
    forall k | 0 <= k < |now| ensures Among(jobs, now[k]) {
      assert SameModes(jobs[if k < i then k else k + 1], now[k]);
    }
  }

  lemma FromReaped(jobs: seq<Job>, reaped: seq<Job>)
    requires SameJobs(jobs, reaped)
    ensures From(jobs, NotDone(reaped))
  {
    forall k | 0 <= k < |NotDone(reaped)| ensures Among(jobs, NotDone(reaped)[k]) {
      var i := NotDoneFrom(reaped, k);
      assert SameJob(jobs[i], reaped[i]);
      assert SameModes(jobs[i], NotDone(reaped)[k]);
    }
  }

  /** A job that stops takes the modes read last; nobody else had the terminal meanwhile. */
  lemma SoundStopped(readings: seq<Reading>, read: seq<Reading>, jobs: seq<Job>, now: seq<Job>, nextId: int, i: nat,
                     failed: bool)
    requires Sound(readings, jobs) && TableOk(now, nextId)
    requires i < |jobs| == |now| && now == jobs[i := now[i]] && now[i].pgid == jobs[i].pgid
    requires ReadOnce(read, now[i].pgid, true, failed) && now[i].modes == KeptModes(jobs[i].modes, read)
    ensures Sound(readings + read, now)
  {
    if read != [] {
      assert (readings + read)[..|readings|] == readings;
      assert (readings + read)[|readings|] == read[0];
    } else {
      assert readings + read == readings;
    }
  }

  /** A launch keeps it. */
  lemma SoundLaunch(sh: Shell, chain: seq<Cmd>, background: bool, r: int, f: Option<Forking>, final: Job, b: Before)
    requires LaunchResult(sh, chain, background, r, f, final, b) && sh.Settled()
    requires sh.m.hasTty && sh.running && Sound(b.readings, b.jobs)
    ensures Sound(sh.m.readings, sh.mgr.jobs)
  {
    hide Held, FreshPipes, LaidOut, Opens, GatesShut, TableOk, Synced, NeverReleased, JobOk, Heard, ExitStatus;
    if r >= 0 {
      var entered := Entered(b.nextId, f.value.pgid, chain[0].name, f.value.pids);
      var jobs := [entered] + b.jobs;
      assert Sound(b.readings, jobs);
      if !background {
        var read := sh.m.readings[|b.readings|..];
        assert sh.m.readings == b.readings + read;
        if final.status.JobStopped? {
          assert sh.mgr.jobs == jobs[0 := sh.mgr.jobs[0]];
          SoundStopped(b.readings, read, jobs, sh.mgr.jobs, sh.mgr.nextId, 0, sh.m.faults > b.faults);
        } else {
          assert sh.m.readings == b.readings;
        }
      }
    }
  }
}
