/**
 src/dispatcher.c: choosing what runs a command, and redirecting a builtin inside the shell's own
 process, where descriptors 0 and 1 must be put back afterwards.
 */
module Dispatcher {
  import opened Kernel

  const OK := 0
  const ERR_UNKNOWN := -1
  const ERR_OPEN := -6
  const ERR_PARSE := -7
  const ERR_DUP2 := -9

  /** A file as it was opened: for writing or for reading, appended to or not. */
  datatype File = File(path: string, output: bool, append: bool)

  /** An open file description; every open makes a new one. */
  datatype Description = Description(id: nat, file: Option<File>)

  // ---------------------------------------------------------------- routing

  datatype Route = Refused | External | Builtin

  /** command_chain_has_builtin and the first half of dispatcher_command: a builtin runs only alone
      and in the foreground, and the executor gets exactly the chains without builtins. */
  method Choose(chain: seq<string>, background: bool, builtins: set<string>) returns (r: Route)
    ensures r.Builtin? <==> |chain| == 1 && chain[0] in builtins && !background
    ensures r.External? <==> chain != [] && forall i :: 0 <= i < |chain| ==> chain[i] !in builtins
  {
    if chain == [] { return Refused; }
    if |chain| > 1 {
      var i := 0;
      while i < |chain|
        invariant 0 <= i <= |chain| && forall k :: 0 <= k < i ==> chain[k] !in builtins
      {
        if chain[i] in builtins { return Refused; }
        i := i + 1;
      }
    }
    if chain[0] in builtins {
      r := if background then Refused else Builtin;
    } else {
      r := External;
    }
  }

  // ---------------------------------------------------------------- redirecting a builtin

  function Fault(ok: bool): nat { if ok then 0 else 1 }

  class Dispatch {
    var fds: map<int, Description>
    var nextDesc: nat
    var running: bool
    var faults: nat            // how many calls have failed so far

    ghost predicate Valid()
      reads this
    {
      0 in fds && 1 in fds && 2 in fds && forall fd :: fd in fds ==> fd >= 0 && fds[fd].id < nextDesc
    }

    constructor (fds: map<int, Description>, nextDesc: nat)
      requires 0 in fds && 1 in fds && 2 in fds && forall fd :: fd in fds ==> fd >= 0 && fds[fd].id < nextDesc
      ensures Valid() && this.fds == fds && running
    {
      this.fds, this.nextDesc, running, faults := fds, nextDesc, true, 0;
    }

    /** dup_cloexec: a copy on a descriptor from 3 up. */
    method Dup(fd: int) returns (copy: int)
      requires Valid() && fd in fds
      modifies this`fds, this`faults
      ensures Valid() && faults == old(faults) + Fault(copy >= 0)
      ensures copy < 0 ==> copy == -1 && fds == old(fds)
      ensures copy >= 0 ==> copy > 2 && copy !in old(fds) && fds == old(fds)[copy := old(fds)[fd]]
    {
      copy := *;
      if copy <= 2 || copy in fds {
        copy, faults := -1, faults + 1;
      } else {
        fds := fds[copy := fds[fd]];
      }
    }

    method Open(path: string, output: bool, append: bool) returns (fd: int)
      requires Valid()
      modifies this`fds, this`nextDesc, this`faults
      ensures Valid() && faults == old(faults) + Fault(fd >= 0)
      ensures fd < 0 ==> fds == old(fds) && nextDesc == old(nextDesc)
      ensures fd >= 0 ==>
        && fd > 2 && fd !in old(fds) && nextDesc > old(nextDesc)
        && fds == old(fds)[fd := Description(old(nextDesc), Some(File(path, output, append)))]
    {
      fd := *;
      if fd <= 2 || fd in fds {
        fd, faults := -1, faults + 1;
      } else {
        fds := fds[fd := Description(nextDesc, Some(File(path, output, append)))];
        nextDesc := nextDesc + 1;
      }
    }

    method Close(fd: int)
      requires Valid() && fd in fds && fd > 2
      modifies this`fds
      ensures Valid() && fds == old(fds) - {fd}
    {
      fds := fds - {fd};
    }

    /** dup2_retry */
    method Dup2(from: int, to: int) returns (ok: bool)
      requires Valid() && from in fds && to in fds
      modifies this`fds, this`faults
      ensures faults == old(faults) + Fault(ok)
      ensures Valid() && fds == if ok then old(fds)[to := old(fds)[from]] else old(fds)
    {
      ok := *;
      if ok { fds := fds[to := fds[from]]; } else { faults := faults + 1; }
    }

    /** One half of builtin_apply_redirect: back up `std`, open the file, put it on `std`.  The
        backup survives every failure after it, for builtin_restore_redirect to use. */
    method Replace(std: int, path: string, append: bool) returns (r: int, saved: int)
      requires Valid() && (std == 0 || std == 1)
      modifies this`fds, this`nextDesc, this`faults
      ensures faults == old(faults) + Fault(r == OK) && nextDesc >= old(nextDesc)
      ensures Valid() && (r == OK || r == ERR_DUP2 || r == ERR_OPEN) && (saved < 0 ==> saved == -1)
      ensures saved < 0 ==> r == ERR_DUP2 && fds == old(fds)
      ensures saved >= 0 ==> saved > 2 && saved !in old(fds)
      ensures saved >= 0 ==> fds == old(fds)[saved := old(fds)[std]][std := fds[std]]
      ensures r == OK ==> saved >= 0 && fds[std] == Description(old(nextDesc), Some(File(path, std == 1, append)))
    {
      saved := Dup(std);
      if saved < 0 { return ERR_DUP2, saved; }
      ghost var backed := fds;
      var fd := Open(path, std == 1, append);
      if fd < 0 { return ERR_OPEN, saved; }
      var ok := Dup2(fd, std);
      Close(fd);
      ghost var file := Description(old(nextDesc), Some(File(path, std == 1, append)));
      assert fds == if ok then backed[std := file] else backed;
      r := if ok then OK else ERR_DUP2;
    }

    /** builtin_apply_redirect; `flushed` is the result of flushing standard output first. */
    method Apply(redirect: Redirect, flushed: bool) returns (r: int, savedOut: int, savedIn: int)
      requires Valid()
      modifies this`fds, this`nextDesc, this`faults
      ensures Valid() && r <= OK && Backed(old(fds), savedOut, savedIn)
      ensures faults >= old(faults) && (r == OK <==> faults == old(faults) && (redirect.output.Some? ==> flushed))
      ensures r == OK ==> Redirected(old(fds), old(nextDesc), fds, redirect)
    {
      r, savedOut, savedIn := OK, -1, -1;
      if redirect.output.Some? {
        if !flushed { return ERR_UNKNOWN, -1, -1; }
        r, savedOut := Replace(1, redirect.output.value, redirect.append);
        if r != OK { return; }
      }
      if redirect.input.Some? {
        r, savedIn := Replace(0, redirect.input.value, false);
      }
    }

    /** The table is `before` with backups of 1 and 0, and perhaps something else on 1 and 0. */
    ghost predicate Backed(before: map<int, Description>, savedOut: int, savedIn: int)
      reads this
    {
      && 0 in before && 1 in before && 0 in fds && 1 in fds
      && (savedOut < 0 ==> savedOut == -1 && fds[1] == before[1])
      && (savedIn < 0 ==> savedIn == -1 && fds[0] == before[0])
      && (savedOut >= 0 ==> savedOut > 2 && savedOut !in before && savedOut in fds && fds[savedOut] == before[1])
      && (savedIn >= 0 ==> savedIn > 2 && savedIn !in before && savedIn in fds && fds[savedIn] == before[0])
      && (savedOut >= 0 ==> savedOut != savedIn)
      && fds.Keys - {savedOut, savedIn} == before.Keys
      && (forall fd :: fd in before && fd != 0 && fd != 1 ==> fds[fd] == before[fd])
    }

    /** One half of builtin_restore_redirect. */
    method PutBack(saved: int, std: int) returns (ok: bool)
      requires Valid() && (std == 0 || std == 1) && (saved >= 0 ==> saved in fds && saved > 2)
      modifies this`fds, this`faults
      ensures Valid() && faults == old(faults) + Fault(ok)
      ensures saved < 0 ==> ok && fds == old(fds)
      ensures saved >= 0 ==> fds == (if ok then old(fds)[std := old(fds)[saved]] else old(fds)) - {saved}
    {
      ok := true;
      if saved >= 0 {
        ok := Dup2(saved, std);
        Close(saved);
      }
    }

    /** builtin_restore_redirect: the set of open descriptors is always as before, and when it
        reports success so is every description. */
    method RestoreRedirect(savedOut: int, savedIn: int, ghost before: map<int, Description>) returns (r: int)
      requires Valid() && Backed(before, savedOut, savedIn)
      modifies this`fds, this`faults
      ensures faults >= old(faults) && (r == OK <==> faults == old(faults))
      ensures Valid() && fds.Keys == before.Keys && (r == OK || r == ERR_DUP2)
      ensures r == OK ==> fds == before
    {
      var ok := PutBack(savedOut, 1);
      var ok' := PutBack(savedIn, 0);
      r := if ok && ok' then OK else ERR_DUP2;
      assert fds.Keys == before.Keys;
      if r == OK {
        assert forall fd :: fd in before ==> fds[fd] == before[fd];
        assert fds == before;
      }
    }

    /** The builtin sees the files its command names, newly opened, on 1 and 0, appended to exactly
        when the command says so, and everything else as it was. */
    ghost predicate Redirected(before: map<int, Description>, next: nat, during: map<int, Description>,
                               redirect: Redirect)
    {
      && 0 in before && 1 in before && before.Keys <= during.Keys
      && (match redirect.output
          case Some(path) => during[1].id >= next && during[1].file == Some(File(path, true, redirect.append))
          case None => during[1] == before[1])
      && (match redirect.input
          case Some(path) => during[0].id >= next && during[0].file == Some(File(path, false, false))
          case None => during[0] == before[0])
      && forall fd :: fd in before && fd != 0 && fd != 1 ==> during[fd] == before[fd]
    }

    /** The second half of dispatcher_command.  The handler is any code that leaves the descriptor
        table alone: it is called with the table `during`, returns `ret` and may ask the shell to
        stop. */
    method RunBuiltin(redirect: Redirect, flushed: bool, ret: int, stops: bool, flushedAfter: bool)
      returns (r: int, ghost during: Option<map<int, Description>>)
      requires Valid()
      modifies this
      ensures Valid() && fds.Keys == old(fds).Keys
      ensures running ==> fds == old(fds)
      ensures during.Some? ==> Redirected(old(fds), old(nextDesc), during.value, redirect)
      ensures during.None? ==> r < 0 && (faults > old(faults) || (redirect.output.Some? && !flushed))
      ensures faults == old(faults) ==>
        && (during.Some? <==> (redirect.output.Some? ==> flushed))
        && fds == old(fds) && running == (old(running) && !(during.Some? && stops))
        && (during.Some? ==> r == if ret == OK && !flushedAfter then ERR_UNKNOWN else ret)
      ensures faults > old(faults) && during.Some? ==> !running && r == ERR_DUP2
      ensures !old(running) ==> !running
    {
      ghost var before := fds;
      var savedOut, savedIn;
      during := None;
      r, savedOut, savedIn := Apply(redirect, flushed);
      if r != OK {
        var restore := RestoreRedirect(savedOut, savedIn, before);
        if restore != OK { running := false; }
        return;
      }
      during := Some(fds);
      r := ret;
      if stops { running := false; }
      if !flushedAfter && r == OK { r := ERR_UNKNOWN; }
      var restore := RestoreRedirect(savedOut, savedIn, before);
      if restore != OK {
        running := false;
        r := restore;
      }
    }
  }
}
