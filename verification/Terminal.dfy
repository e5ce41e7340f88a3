/**
 src/terminal.c after terminal_init: handing the terminal to a job and taking it back.
 */
module Terminal {
  import opened Kernel
  import opened Machines

  /** The shell's group is in front and the shell's modes are set. */
  ghost predicate Mine(m: Machine)
    reads m
  {
    m.hasTty ==> m.w.tty == Tty(m.shellPgid, m.shellModes)
  }

  lemma TtyDrifts(a: World, t: Tty, b: World)
    requires Drifts(a.(tty := t), b)
    ensures Drifts(a, b)
  {
  }

  /** terminal_set_foreground */
  method SetForeground(m: Machine, pgid: Pid) returns (ok: bool)
    requires m.Valid()
    modifies m`w, m`log, m`faults
    ensures m.Valid()
    ensures m.faults >= old(m.faults) && (!ok ==> pgid <= 0 || m.faults > old(m.faults))
    ensures !m.hasTty ==> ok && m.w == old(m.w) && m.log == old(m.log)
    ensures m.hasTty && !ok ==> m.log == old(m.log) && (m.w == old(m.w) || Rely(old(m.w), m.w))
    ensures m.hasTty && ok ==> pgid > 0 && m.log == old(m.log) + [SetPgrp(pgid)]
    ensures m.hasTty && ok ==> Rely(old(m.w).(tty := old(m.w).tty.(fg := pgid)), m.w)
  {
    if !m.hasTty { return true; }
    if pgid <= 0 { return false; }
    ok := m.TcSetPgrp(pgid);
  }

  /** terminal_get_modes */
  method GetModes(m: Machine) returns (ok: bool, modes: int)
    requires m.Valid()
    modifies m`w, m`faults, m`readings
    ensures m.faults == old(m.faults) + Fault(ok)
    ensures m.readings == old(m.readings) + if m.hasTty && ok then [Reading(Front(m.log), modes)] else []
    ensures m.Valid() && (m.w == old(m.w) || Rely(old(m.w), m.w))
    ensures m.hasTty && ok ==> modes == old(m.w).tty.modes
    ensures !m.hasTty ==> ok && modes == 0 && m.w == old(m.w)
  {
    if !m.hasTty { return true, 0; }
    ok, modes := m.TcGetAttr();
  }

  /** terminal_set_modes */
  method SetModes(m: Machine, modes: int) returns (ok: bool)
    requires m.Valid()
    modifies m`w, m`log, m`faults
    ensures m.Valid()
    ensures m.faults == old(m.faults) + Fault(ok)
    ensures !m.hasTty ==> ok && m.w == old(m.w) && m.log == old(m.log)
    ensures m.hasTty && !ok ==> m.log == old(m.log) && Rely(old(m.w), m.w)
    ensures m.hasTty && ok ==> m.log == old(m.log) + [SetAttr(modes)]
    ensures m.hasTty && ok ==> Rely(old(m.w).(tty := old(m.w).tty.(modes := modes)), m.w)
  {
    if !m.hasTty { return true; }
    ok := m.TcSetAttr(modes);
  }

  /** terminal_restore: when it succeeds the terminal is the shell's again, and stays so, because
      nobody but the foreground group can change it. */
  method Restore(m: Machine) returns (ok: bool)
    requires m.Valid()
    modifies m`w, m`log, m`faults
    ensures m.Valid() && (m.w == old(m.w) || Drifts(old(m.w), m.w))
    ensures (ok ==> Mine(m)) && (!m.hasTty ==> ok)
    ensures m.faults == old(m.faults) + Fault(ok)
    ensures old(m.log) <= m.log
  {
    hide WorldOk, Accounted, Homes, Drifts;
    if !m.hasTty { return true; }
    ghost var w0 := m.w;
    ok := m.TcSetPgrp(m.shellPgid);
    ghost var w1 := m.w;
    if !ok { return; }
    TtyDrifts(w0, w0.tty.(fg := m.shellPgid), w1);
    HomesTty(w0, w0.tty.(fg := m.shellPgid), m.shellPgid);
    TtyKept(w0.(tty := w0.tty.(fg := m.shellPgid)), w1, m.shellPgid);
    ok := m.TcSetAttr(m.shellModes);
    if ok {
      TtyDrifts(w1, w1.tty.(modes := m.shellModes), m.w);
      HomesTty(w1, w1.tty.(modes := m.shellModes), m.shellPgid);
      TtyKept(w1.(tty := w1.tty.(modes := m.shellModes)), m.w, m.shellPgid);
    }
    DriftsTransitive(w0, w1, m.w);
  }

  lemma HomesTty(w: World, t: Tty, shell: Pid)
    requires Homes(w, shell)
    ensures Homes(w.(tty := t), shell)
  {
  }
}
