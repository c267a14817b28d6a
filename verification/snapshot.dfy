/** The VM snapshot: an independent copy of the full machine state, taken on
    demand and never used by execution. In this value model a later step
    cannot reach into a snapshot already taken, since nothing is shared. */
module Snapshot {
  import opened Machine

  datatype Option<T> = None | Some(value: T)

  /** A snapshot holds a full CPU record and the sixteen RAM cells, widened
      to `unsigned int` (here any natural number). */
  datatype Vm = Vm(cpu: Cpu, ram: seq<nat>)

  /** Copies every CPU field and every RAM cell into a new snapshot. Each of
      the two allocations (the snapshot, then its CPU record) may fail, which
      the caller supplies as `vmAllocated` and `cpuAllocated`; either failure
      yields no snapshot at all. */
  function GetVmState(s: State, vmAllocated: bool, cpuAllocated: bool): (r: Option<Vm>)
    ensures r.Some? <==> vmAllocated && cpuAllocated
    ensures r.Some? ==> r.value.cpu == s.cpu
    ensures r.Some? ==> |r.value.ram| == PROG
    ensures r.Some? ==> forall i :: 0 <= i < PROG ==> r.value.ram[i] == s.ram[i]
  {
    if !vmAllocated then None
    else if !cpuAllocated then None
    else
      var c := s.cpu;
      var copy := Cpu(m := c.m, p := c.p, a := c.a, b := c.b, o := c.o,
                      ir := InsReg(c.ir.ins, c.ir.opr),
                      flags := Flags(c.flags.cf, c.flags.zf),
                      bus := c.bus);
      Some(Vm(copy, seq(PROG, i requires 0 <= i < PROG => s.ram[i] as nat)))
  }

  /** A snapshot loses nothing: two states with equal snapshots are equal. */
  lemma SnapshotDeterminesState(s: State, t: State)
    requires GetVmState(s, true, true) == GetVmState(t, true, true)
    ensures s == t
  {
    var vs := GetVmState(s, true, true).value;
    assert forall i :: 0 <= i < PROG ==> s.ram[i] == vs.ram[i] == t.ram[i];
  }
}
