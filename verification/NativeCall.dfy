/** Calling machine code that a compiler emitted: the register file is passed in memory and
    the processor steps until the code returns. */
module NativeCall {
  import opened Words
  import opened Vm
  import opened Phases
  import opened Stack
  import M86 = X86Machine
  import C86 = X86Correct
  import M64 = A64Machine
  import C64 = A64Correct
  import X86Frame

  lemma PassedCallable86(s: M86.State, r: Regs)
    requires C86.Ready(s)
    ensures C86.Callable(s.(mem := WithRegs(s.mem, M86.Address(s.x[7]), r)), r)
  {
    hide M86.Address, WithRegs, RegsAt;
    WithRegsAt(s.mem, M86.Address(s.x[7]), r);
  }

  lemma PassedCallable64(s: M64.State, r: Regs)
    requires C64.Ready(s)
    ensures C64.Callable(s.(mem := WithRegs(s.mem, M64.Address(s.x[0]), r)), r)
  {
    hide M64.Address, WithRegs, RegsAt;
    WithRegsAt(s.mem, M64.Address(s.x[0]), r);
  }

  lemma RegsRead(mem: Memory, rp: int, r: Regs)
    requires RegsAt(mem, rp, r)
    ensures forall j :: 0 <= j < REG_SIZE ==> rp + 8 * j in mem && mem[rp + 8 * j] == r[j]
  {
  }

  /** Calls x86-64 code with a register file, which becomes the result of the programs. */
  method Call86(code: array<u8>, r: array<u64>, s: M86.State, ghost l: ProgramList)
    requires r.Length == REG_SIZE && C86.Ready(s) && AllWellFormed(l) && C86.Compiled(code[..], l)
    modifies r
    ensures r[..] == Execute(l, old(r[..]))
  {
    hide AllWellFormed, Execute, M86.Steps, M86.Step, M86.Address, C86.Compiled, C86.Callable, C86.StepCount, WithRegs,
         RegsAt, Owns, Slots, X86Frame.FrameRoom, X86Frame.Restored;
    var rp := M86.Address(s.x[7]);
    ghost var cs, before := code[..], r[..];
    var start := M86.Running(0, s.(mem := WithRegs(s.mem, rp, r[..])));
    PassedCallable86(s, before);
    ghost var t := C86.CallComputes(cs, l, start.s, before);
    ghost var limit := C86.StepCount(l, before);
    var c := start;
    ghost var n := 0;
    M86.StepsZero(cs, start);
    while !c.Returned?
      invariant n <= limit && c == M86.Steps(cs, start, n)
      decreases limit - n
    {
      M86.ReturnsOnce(cs, start, limit, t, n);
      M86.StepsSnoc(cs, start, n);
      c := M86.Step(code[..], c);
      n := n + 1;
    }
    M86.ReturnsOnce(cs, start, limit, t, n);
    RegsRead(c.s.mem, rp, Execute(l, before));
    for j := 0 to REG_SIZE
      invariant forall k :: 0 <= k < j ==> r[k] == Execute(l, before)[k]
    {
      r[j] := c.s.mem[rp + 8 * j];
    }
    assert r[..] == Execute(l, before);
  }

  /** Calls AArch64 code with a register file, which becomes the result of the programs. */
  method Call64(code: array<u32>, r: array<u64>, s: M64.State, ghost l: ProgramList)
    requires r.Length == REG_SIZE && C64.Ready(s) && AllWellFormed(l) && C64.Compiled(code[..], l)
    modifies r
    ensures r[..] == Execute(l, old(r[..]))
  {
    hide AllWellFormed, Execute, M64.Steps, M64.Step, M64.Address, C64.Compiled, C64.Callable, C64.StepCount, WithRegs,
         RegsAt, Owns, Slots;
    var rp := M64.Address(s.x[0]);
    ghost var cs, before := code[..], r[..];
    var start := M64.Running(0, s.(mem := WithRegs(s.mem, rp, r[..])));
    PassedCallable64(s, before);
    ghost var t := C64.CallComputes(cs, l, start.s, before);
    ghost var limit := C64.StepCount(l, before);
    var c := start;
    ghost var n := 0;
    M64.StepsZero(cs, start);
    while !c.Returned?
      invariant n <= limit && c == M64.Steps(cs, start, n)
      decreases limit - n
    {
      M64.ReturnsOnce(cs, start, limit, t, n);
      M64.StepsSnoc(cs, start, n);
      c := M64.Step(code[..], c);
      n := n + 1;
    }
    M64.ReturnsOnce(cs, start, limit, t, n);
    RegsRead(c.s.mem, rp, Execute(l, before));
    for j := 0 to REG_SIZE
      invariant forall k :: 0 <= k < j ==> r[k] == Execute(l, before)[k]
    {
      r[j] := c.s.mem[rp + 8 * j];
    }
    assert r[..] == Execute(l, before);
  }
}
