/** Where the native back ends keep the scratchpad and the register file: 2048 bytes of
    stack that are filled from the top, and the ten words that the caller passes. */
module Stack {
  import opened Words
  import opened Vm
  import opened Phases

  // ----- the scratchpad -----

  /** The scratchpad starts at the stack pointer. */
  predicate PadAt(mem: Memory, base: int, pad: Scratchpad) {
    forall k :: 0 <= k < MEM_SIZE ==> base + 8 * k in mem && mem[base + 8 * k] == pad[k]
  }

  /** The 2048 bytes at base belong to the function. */
  predicate Owns(mem: Memory, base: int) {
    forall k :: 0 <= k < MEM_SIZE ==> base + 8 * k in mem
  }

  /** Nothing outside the scratchpad has changed. */
  predicate Outside(m: Memory, m': Memory, base: int) {
    m'.Keys == m.Keys && forall a :: a in m && (a < base || base + 8 * MEM_SIZE <= a) ==> m'[a] == m[a]
  }

  /** The last cells hold what the scratchpad holds. */
  predicate Filled(mem: Memory, base: int, pad: Scratchpad, from: nat) {
    forall k :: from <= k < MEM_SIZE ==> base + 8 * k in mem && mem[base + 8 * k] == pad[k]
  }

  /** Room for the eight words below the old stack pointer. */
  predicate Room(mem: Memory, sp: int) {
    forall j :: 0 <= j < 8 ==> sp + 8 * j in mem
  }

  /** The block of one program: R0 at the top and R7 at the bottom. */
  predicate Spilled(mem: Memory, mem': Memory, sp: int, r: Regs) {
    && mem'.Keys == mem.Keys
    && (forall j :: 0 <= j < 8 ==> sp + 8 * j in mem' && mem'[sp + 8 * j] == r[7 - j])
    && (forall a :: a in mem && (a < sp || sp + 64 <= a) ==> mem'[a] == mem[a])
  }

  lemma NothingWritten(m: Memory, base: int, pad: Scratchpad)
    ensures Outside(m, m, base) && Filled(m, base, pad, MEM_SIZE)
  {
  }

  lemma RoomBelow(m0: Memory, mem: Memory, base: int, n: nat)
    requires n < NUM_PROGRAMS && Owns(m0, base) && Outside(m0, mem, base)
    ensures Room(mem, base + 64 * (NUM_PROGRAMS - 1 - n))
  {
    forall j | 0 <= j < 8 ensures base + 64 * (NUM_PROGRAMS - 1 - n) + 8 * j in mem {
      assert base + 8 * (MEM_SIZE - 8 * (n + 1) + j) in m0;
    }
  }

  /** Spilling the registers of program n extends the image of the scratchpad by one block. */
  lemma SpillFills(m0: Memory, mem: Memory, mem': Memory, base: int, pad: Scratchpad, n: nat, r: Regs)
    requires n < NUM_PROGRAMS && Outside(m0, mem, base) && Filled(mem, base, pad, MEM_SIZE - 8 * n)
    requires Spilled(mem, mem', base + 64 * (NUM_PROGRAMS - 1 - n), r)
    ensures Outside(m0, mem', base) && Filled(mem', base, Dump(pad, n, r), MEM_SIZE - 8 * (n + 1))
  {
    var sp := base + 64 * (NUM_PROGRAMS - 1 - n);
    var k0 := MEM_SIZE - 8 * (n + 1);
    forall k | k0 <= k < MEM_SIZE ensures base + 8 * k in mem' && mem'[base + 8 * k] == Dump(pad, n, r)[k] {
      if k < k0 + 8 {
        assert sp + 8 * (k - k0) in mem' && mem'[sp + 8 * (k - k0)] == r[7 - (k - k0)];
      }
    }
  }

  lemma FullPad(mem: Memory, base: int, pad: Scratchpad)
    requires Filled(mem, base, pad, 0)
    ensures PadAt(mem, base, pad)
  {
  }

  /** Memory after R0, ..., R(k-1) were stored downwards from sp. */
  function Pushed(mem: Memory, sp: int, r: Regs, k: nat): Memory
    requires k <= 8
  {
    if k == 0 then mem else Pushed(mem, sp, r, k - 1)[sp - 8 * k := r[k - 1]]
  }

  lemma {:induction false} PushedKeys(mem: Memory, sp: int, r: Regs, k: nat)
    requires k <= 8 && Room(mem, sp - 64)
    ensures Pushed(mem, sp, r, k).Keys == mem.Keys
    ensures k < 8 ==> sp - 8 * (k + 1) in mem
  {
    assert k < 8 ==> (sp - 64) + 8 * (7 - k) in mem;
    if k > 0 {
      PushedKeys(mem, sp, r, k - 1);
    }
  }

  lemma {:induction false} PushedCell(mem: Memory, sp: int, r: Regs, k: nat, i: nat)
    requires i < k <= 8 && Room(mem, sp - 64)
    ensures var m := Pushed(mem, sp, r, k); sp - 8 * (i + 1) in m && m[sp - 8 * (i + 1)] == r[i]
  {
    hide Room;
    if i < k - 1 {
      PushedCell(mem, sp, r, k - 1, i);
    }
  }

  lemma {:induction false} PushedElsewhere(mem: Memory, sp: int, r: Regs, k: nat, a: int)
    requires k <= 8 && a in mem && (a < sp - 64 || sp <= a)
    ensures var m := Pushed(mem, sp, r, k); a in m && m[a] == mem[a]
  {
    if k > 0 {
      PushedElsewhere(mem, sp, r, k - 1, a);
    }
  }

  lemma PushedSpills(mem: Memory, sp: int, r: Regs)
    requires Room(mem, sp - 64)
    ensures Spilled(mem, Pushed(mem, sp, r, 8), sp - 64, r)
  {
    hide Room, Pushed;
    PushedKeys(mem, sp, r, 8);
    var m := Pushed(mem, sp, r, 8);
    forall j | 0 <= j < 8 ensures sp - 64 + 8 * j in m && m[sp - 64 + 8 * j] == r[7 - j] {
      PushedCell(mem, sp, r, 8, 7 - j);
    }
    forall a | a in mem && (a < sp - 64 || sp <= a) ensures m[a] == mem[a] {
      PushedElsewhere(mem, sp, r, 8, a);
    }
  }

  // ----- the register file -----

  /** The register file in memory, as the caller passes it. */
  predicate RegsAt(mem: Memory, rp: int, r: Regs) {
    forall j :: 0 <= j < REG_SIZE ==> rp + 8 * j in mem && mem[rp + 8 * j] == r[j]
  }

  /** The ten words of a register file can be accessed. */
  predicate Slots(mem: Memory, rp: int) {
    forall i :: 0 <= i < REG_SIZE ==> rp + 8 * i in mem
  }

  lemma SlotsOf(mem: Memory, rp: int, r: Regs)
    requires RegsAt(mem, rp, r)
    ensures Slots(mem, rp)
  {
  }

  /** After both phases the register file in memory is still as the caller passed it. */
  lemma RegsKept(m: Memory, m': Memory, rp: int, base: int, r: Regs)
    requires RegsAt(m, rp, r) && Outside(m, m', base) && (base + 2048 <= rp || rp + 8 * REG_SIZE <= base)
    ensures RegsAt(m', rp, r)
  {
  }

  /** Memory after R0, ..., R(k-1) were stored into the register file. */
  function StoredBack(mem: Memory, rp: int, r: Regs, k: nat): Memory
    requires k <= REG_SIZE
  {
    if k == 0 then mem else StoredBack(mem, rp, r, k - 1)[rp + 8 * (k - 1) := r[k - 1]]
  }

  lemma {:induction false} StoredBackKeys(mem: Memory, rp: int, r: Regs, k: nat)
    requires k <= REG_SIZE && Slots(mem, rp)
    ensures StoredBack(mem, rp, r, k).Keys == mem.Keys
  {
    if k > 0 {
      StoredBackKeys(mem, rp, r, k - 1);
      assert rp + 8 * (k - 1) in mem;
    }
  }

  lemma {:induction false} StoredBackCell(mem: Memory, rp: int, r: Regs, k: nat, i: nat)
    requires i < k <= REG_SIZE
    ensures var m := StoredBack(mem, rp, r, k); rp + 8 * i in m && m[rp + 8 * i] == r[i]
  {
    if i < k - 1 {
      StoredBackCell(mem, rp, r, k - 1, i);
    }
  }

  lemma {:induction false} StoredBackElsewhere(mem: Memory, rp: int, r: Regs, k: nat, a: int)
    requires k <= REG_SIZE && a in mem && !(rp <= a < rp + 8 * k)
    ensures var m := StoredBack(mem, rp, r, k); a in m && m[a] == mem[a]
  {
    if k > 0 {
      StoredBackElsewhere(mem, rp, r, k - 1, a);
    }
  }

  /** Storing the result leaves a scratchpad apart from the register file alone. */
  lemma PadKept(mem: Memory, base: int, pad: Scratchpad, rp: int, r: Regs)
    requires PadAt(mem, base, pad) && (base + 8 * MEM_SIZE <= rp || rp + 8 * REG_SIZE <= base)
    ensures PadAt(StoredBack(mem, rp, r, 8), base, pad)
  {
    forall k | 0 <= k < MEM_SIZE
      ensures var m := StoredBack(mem, rp, r, 8); base + 8 * k in m && m[base + 8 * k] == pad[k]
    {
      StoredBackElsewhere(mem, rp, r, 8, base + 8 * k);
    }
  }

  // ----- passing a register file -----

  /** Memory in which the caller has put a register file. */
  function WithRegs(mem: Memory, rp: int, r: Regs): Memory {
    StoredBack(mem, rp, r, REG_SIZE)
  }

  lemma WithRegsAt(mem: Memory, rp: int, r: Regs)
    requires Slots(mem, rp)
    ensures RegsAt(WithRegs(mem, rp, r), rp, r) && WithRegs(mem, rp, r).Keys == mem.Keys
  {
    hide StoredBack;
    StoredBackKeys(mem, rp, r, REG_SIZE);
    var m := WithRegs(mem, rp, r);
    forall j | 0 <= j < REG_SIZE ensures rp + 8 * j in m && m[rp + 8 * j] == r[j] {
      StoredBackCell(mem, rp, r, REG_SIZE, j);
    }
  }

  /** Some memory of aligned words, with a register file at 4096 and zeros elsewhere. */
  function CallerMemory(r: Regs): Memory {
    map a: int | 0 <= a < 4352 && a % 8 == 0 :: if 4096 <= a < 4176 then r[(a - 4096) / 8] else 0
  }
}
