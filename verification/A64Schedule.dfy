/** Reordering straight-line AArch64 code. Two instructions that share no register, flag
    or memory cell commute, and so any order that keeps every dependent pair in place has
    the effect of the original order. */
module A64Schedule {
  import opened Words
  import opened A64Machine

  /** The instructions that may move. */
  predicate Movable(i: Isn) {
    || i.Alu? || i.AluImm? || i.Shift? || i.Mov? || i.Tst? || i.CincEq? || i.LdrSp? || i.StpSp?
  }

  predicate Writes(i: Isn, r: Reg) {
    match i
    case Alu(_, rd, _, _) => rd == r
    case AluImm(_, rd, _, _) => rd == r
    case Shift(_, rd, _, _) => rd == r
    case Mov(rd, _) => rd == r
    case CincEq(rd, _) => rd == r
    case LdrSp(rt, _) => rt == r
    case _ => false
  }

  predicate Reads(i: Isn, r: Reg) {
    match i
    case Alu(_, _, rn, rm) => rn == r || rm == r
    case AluImm(_, _, rn, _) => rn == r
    case Shift(_, _, rn, _) => rn == r
    case Mov(_, rm) => rm == r
    case Tst(rn, _) => rn == r
    case CincEq(_, rn) => rn == r
    case LdrSp(_, rm) => rm == r
    case StpSp(rt, rt2, _) => rt == r || rt2 == r
    case _ => false
  }

  /** The only register that an instruction may write. */
  function Target(i: Isn): int {
    match i
    case Alu(_, rd, _, _) => rd
    case AluImm(_, rd, _, _) => rd
    case Shift(_, rd, _, _) => rd
    case Mov(rd, _) => rd
    case CincEq(rd, _) => rd
    case LdrSp(rt, _) => rt
    case _ => -1
  }

  /** j neither reads nor writes the register that i writes. */
  predicate Clear(i: Isn, j: Isn) {
    var t := Target(i);
    t == -1 || (0 <= t < 31 && !Writes(j, t) && !Reads(j, t))
  }

  predicate Independent(i: Isn, j: Isn) {
    && Movable(i) && Movable(j)
    && Clear(i, j) && Clear(j, i)
    && !(i.Tst? && (j.Tst? || j.CincEq?)) && !(j.Tst? && i.CincEq?)
    && !(i.StpSp? && j.LdrSp?) && !(i.LdrSp? && j.StpSp?)
    && (i.StpSp? && j.StpSp? ==> i.off + 16 <= j.off || j.off + 16 <= i.off)
  }

  // ----- independent instructions commute -----

  /** An instruction that writes a register writes this value, unless it faults. */
  function Value(i: Isn, s: State): u64
    requires s.Live? && Target(i) != -1
  {
    match i
    case Alu(op, _, rn, rm) => AluValue(op, s.x[rn], s.x[rm])
    case AluImm(op, _, rn, imm) => ImmValue(op, s.x[rn], imm)
    case Shift(op, _, rn, count) => ShiftValue(op, s.x[rn], count)
    case Mov(_, rm) => s.x[rm]
    case CincEq(_, rn) => if s.zf then Add(s.x[rn], 1) else s.x[rn]
    case LdrSp(_, rm) => if Loaded(i, s) then s.mem[s.sp + Address(s.x[rm])] else 0
  }

  predicate Loaded(i: Isn, s: State)
    requires s.Live?
  {
    i.LdrSp? ==> s.sp + Address(s.x[i.rm]) in s.mem
  }

  lemma ExecWriter(i: Isn, s: State)
    requires s.Live? && Target(i) != -1
    ensures 0 <= Target(i) < 31
    ensures Exec(i, s) == if Loaded(i, s) then s.(x := s.x[Target(i) := Value(i, s)]) else Fault
  {
    hide AluValue, ImmValue, ShiftValue, Add, Address;
  }

  /** The value depends only on the registers that are read. */
  lemma ValueFrame(i: Isn, s: State, r: Reg, v: u64)
    requires s.Live? && Target(i) != -1 && !Reads(i, r)
    ensures var t := s.(x := s.x[r := v]); Loaded(i, t) == Loaded(i, s) && Value(i, t) == Value(i, s)
  {
    hide AluValue, ImmValue, ShiftValue, Add, Address;
  }

  lemma CommuteWriters(i: Isn, j: Isn, s: State)
    requires Independent(i, j) && s.Live? && Target(i) != -1 && Target(j) != -1
    ensures Exec(j, Exec(i, s)) == Exec(i, Exec(j, s))
  {
    hide Exec, Value, Loaded, Reads;
    ExecWriter(i, s);
    ExecWriter(j, s);
    var ti, tj := Target(i), Target(j);
    assert ti != tj && !Reads(j, ti) && !Reads(i, tj);
    ValueFrame(j, s, ti, Value(i, s));
    ValueFrame(i, s, tj, Value(j, s));
    if Loaded(i, s) {
      ExecWriter(j, Exec(i, s));
    }
    if Loaded(j, s) {
      ExecWriter(i, Exec(j, s));
    }
    ExecFault(i);
    ExecFault(j);
    assert s.x[ti := Value(i, s)][tj := Value(j, s)] == s.x[tj := Value(j, s)][ti := Value(i, s)];
  }

  lemma ExecFault(i: Isn)
    ensures Exec(i, Fault) == Fault
  {
  }

  lemma CommuteWriterTst(i: Isn, j: Isn, s: State)
    requires Independent(i, j) && s.Live? && Target(i) != -1 && j.Tst?
    ensures Exec(j, Exec(i, s)) == Exec(i, Exec(j, s))
  {
    hide AluValue, ImmValue, ShiftValue, Add, And, Address;
    assert 0 <= Target(i) < 31 && !Reads(j, Target(i));
  }

  lemma CommuteWriterStp(i: Isn, j: Isn, s: State)
    requires Independent(i, j) && s.Live? && Target(i) != -1 && j.StpSp?
    ensures Exec(j, Exec(i, s)) == Exec(i, Exec(j, s))
  {
    hide AluValue, ImmValue, ShiftValue, Add, Address;
    assert 0 <= Target(i) < 31 && !Reads(j, Target(i));
  }

  lemma PutKeys(mem: Memory, a: int, u: u64, v: u64)
    requires a in mem && a + 8 in mem
    ensures Put(mem, a, u, v).Keys == mem.Keys
  {
  }

  lemma PutsCommute(mem: Memory, a: int, u: u64, u': u64, b: int, v: u64, v': u64)
    requires a + 16 <= b || b + 16 <= a
    ensures Put(Put(mem, a, u, u'), b, v, v') == Put(Put(mem, b, v, v'), a, u, u')
  {
    assert mem[a := u][a + 8 := u'][b := v] == mem[b := v][a := u][a + 8 := u'];
    assert mem[b := v][a := u][a + 8 := u'][b + 8 := v'] == mem[b := v][b + 8 := v'][a := u][a + 8 := u'];
  }

  lemma StoreExec(i: Isn, s: State)
    requires s.Live? && i.StpSp?
    ensures var a := s.sp + i.off;
            Exec(i, s) == if a in s.mem && a + 8 in s.mem then s.(mem := Put(s.mem, a, s.x[i.rt], s.x[i.rt2])) else Fault
  {
  }

  lemma CommuteStores(i: Isn, j: Isn, s: State)
    requires s.Live? && i.StpSp? && j.StpSp? && (i.off + 16 <= j.off || j.off + 16 <= i.off)
    ensures Exec(j, Exec(i, s)) == Exec(i, Exec(j, s))
  {
    hide Exec, Put;
    var a, b := s.sp + i.off, s.sp + j.off;
    var u, u', v, v' := s.x[i.rt], s.x[i.rt2], s.x[j.rt], s.x[j.rt2];
    PutsCommute(s.mem, a, u, u', b, v, v');
    StoreExec(i, s);
    StoreExec(j, s);
    ExecFault(i);
    ExecFault(j);
    if Exec(i, s).Live? {
      PutKeys(s.mem, a, u, u');
      StoreExec(j, Exec(i, s));
    }
    if Exec(j, s).Live? {
      PutKeys(s.mem, b, v, v');
      StoreExec(i, Exec(j, s));
    }
  }

  lemma CommuteTstStp(i: Isn, j: Isn, s: State)
    requires s.Live? && i.Tst? && j.StpSp?
    ensures Exec(j, Exec(i, s)) == Exec(i, Exec(j, s))
  {
    hide And;
  }

  lemma Commute(i: Isn, j: Isn, s: State)
    requires Independent(i, j)
    ensures Exec(j, Exec(i, s)) == Exec(i, Exec(j, s))
  {
    hide Exec, Clear;
    if s.Fault? {
      ExecFault(i);
      ExecFault(j);
    } else if Target(i) != -1 && Target(j) != -1 {
      CommuteWriters(i, j, s);
    } else if Target(i) != -1 {
      if j.Tst? { CommuteWriterTst(i, j, s); } else { CommuteWriterStp(i, j, s); }
    } else if Target(j) != -1 {
      if i.Tst? { CommuteWriterTst(j, i, s); } else { CommuteWriterStp(j, i, s); }
    } else if i.StpSp? && j.StpSp? {
      CommuteStores(i, j, s);
    } else if i.Tst? {
      CommuteTstStp(i, j, s);
    } else {
      CommuteTstStp(j, i, s);
    }
  }

  // ----- schedules -----

  predicate IsPermutation(order: seq<nat>, n: nat) {
    && |order| == n
    && (forall k :: 0 <= k < n ==> order[k] < n)
    && (forall j, k :: 0 <= j < k < n ==> order[j] != order[k])
    && (forall q :: 0 <= q < n ==> q in order)
  }

  function Permute(a: seq<Isn>, order: seq<nat>): seq<Isn>
    requires IsPermutation(order, |a|)
  {
    seq(|a|, k requires 0 <= k < |a| => a[order[k]])
  }

  /** Every pair that the order inverts is independent. */
  predicate IsSchedule(a: seq<Isn>, order: seq<nat>) {
    && IsPermutation(order, |a|)
    && forall j, k :: 0 <= j < k < |a| && order[j] > order[k] ==> Independent(a[order[k]], a[order[j]])
  }

  lemma {:induction false} SwapAt(a: seq<Isn>, x: Isn, y: Isn, c: seq<Isn>, s: State)
    requires Independent(x, y)
    ensures Block(a + [x, y] + c, s) == Block(a + [y, x] + c, s)
  {
    hide Exec, Independent;
    BlockAppend(a + [x, y], c, s);
    BlockAppend(a + [y, x], c, s);
    BlockAppend(a, [x, y], s);
    BlockAppend(a, [y, x], s);
    Block2(x, y, Block(a, s));
    Block2(y, x, Block(a, s));
    Commute(x, y, Block(a, s));
  }

  /** An instruction independent of all its predecessors may come first. */
  lemma {:induction false} MoveFirst(a: seq<Isn>, p: nat, s: State)
    requires p < |a| && forall q :: 0 <= q < p ==> Independent(a[q], a[p])
    ensures Block(a, s) == Block([a[p]] + a[..p] + a[p + 1..], s)
    decreases p
  {
    hide Independent, Block;
    if p == 0 {
      assert a == [a[0]] + a[..0] + a[1..];
    } else {
      var x, y := a[p - 1], a[p];
      var b := a[..p - 1] + [y, x] + a[p + 1..];
      assert a == a[..p - 1] + [x, y] + a[p + 1..];
      SwapAt(a[..p - 1], x, y, a[p + 1..], s);
      MoveFirst(b, p - 1, s);
      assert [y] + b[..p - 1] + b[p..] == [y] + a[..p] + a[p + 1..];
    }
  }

  function Remove(a: seq<Isn>, p: nat): seq<Isn>
    requires p < |a|
  {
    a[..p] + a[p + 1..]
  }

  /** The order of the remaining instructions once position p is gone. */
  function RemoveIndex(order: seq<nat>, p: nat): seq<nat>
    requires forall k :: 0 <= k < |order| ==> order[k] != p
  {
    seq(|order|, k requires 0 <= k < |order| => if order[k] > p then order[k] - 1 else order[k])
  }

  /** What stands before the first of the order in the code is independent of it. */
  lemma FirstIndependent(a: seq<Isn>, order: seq<nat>)
    requires IsSchedule(a, order) && a != []
    ensures forall q :: 0 <= q < order[0] ==> Independent(a[q], a[order[0]])
  {
    hide Independent;
    forall q | 0 <= q < order[0] ensures Independent(a[q], a[order[0]]) {
      assert q in order;
      var k :| 0 <= k < |order| && order[k] == q;
      assert order[0] > order[k];
    }
  }

  lemma RestComplete(a: seq<Isn>, order: seq<nat>)
    requires IsSchedule(a, order) && a != []
    ensures forall q :: 0 <= q < |a| - 1 ==> q in RemoveIndex(order[1..], order[0])
  {
    hide Independent;
    var p := order[0];
    var rest := RemoveIndex(order[1..], p);
    forall q | 0 <= q < |a| - 1 ensures q in rest {
      var o := if q < p then q else q + 1;
      assert o in order;
      var k :| 0 <= k < |order| && order[k] == o;
      assert rest[k - 1] == q;
    }
  }

  lemma RestIsSchedule(a: seq<Isn>, order: seq<nat>)
    requires IsSchedule(a, order) && a != []
    ensures var p := order[0]; var b := Remove(a, p); var rest := RemoveIndex(order[1..], p);
            && IsSchedule(b, rest)
            && Permute(a, order) == [a[p]] + Permute(b, rest)
            && (forall q :: 0 <= q < p ==> Independent(a[q], a[p]))
  {
    hide Independent;
    var p := order[0];
    var b := Remove(a, p);
    var rest := RemoveIndex(order[1..], p);
    forall k | 0 <= k < |rest| ensures rest[k] < |b| && b[rest[k]] == a[order[k + 1]] {
      assert order[1..][k] == order[k + 1] != p;
    }
    forall j, k | 0 <= j < k < |rest| ensures rest[j] != rest[k] {
      assert order[j + 1] != order[k + 1];
    }
    RestComplete(a, order);
    forall j, k | 0 <= j < k < |b| && rest[j] > rest[k] ensures Independent(b[rest[k]], b[rest[j]]) {
      assert order[j + 1] > order[k + 1];
    }
    FirstIndependent(a, order);
  }

  /** Any order that inverts only independent pairs preserves the meaning of the code. */
  lemma {:induction false} ScheduleSound(a: seq<Isn>, order: seq<nat>, s: State)
    requires IsSchedule(a, order)
    ensures Block(Permute(a, order), s) == Block(a, s)
    decreases |a|
  {
    hide Exec, Independent;
    if a != [] {
      RestIsSchedule(a, order);
      var p := order[0];
      var b := Remove(a, p);
      var rest := RemoveIndex(order[1..], p);
      MoveFirst(a, p, s);
      assert [a[p]] + a[..p] + a[p + 1..] == [a[p]] + b;
      assert ([a[p]] + b)[1..] == b && ([a[p]] + Permute(b, rest))[1..] == Permute(b, rest);
      ScheduleSound(b, rest, Exec(a[p], s));
    }
  }

  // ----- footprints -----

  /** The register that an instruction writes, or -1, and up to three that it reads. */
  datatype Footprint = Footprint(target: int, u: int, v: int, w: int)
  {
    predicate Covers(i: Isn) {
      && Movable(i) && !i.StpSp? && Target(i) == target
      && forall r: Reg :: Reads(i, r) ==> r == u || r == v || r == w
    }

    predicate Reading(r: int) { r == u || r == v || r == w }
  }

  /** Neither writes what the other touches. */
  predicate Apart(f: Footprint, g: Footprint) {
    f.target != g.target && !f.Reading(g.target) && !g.Reading(f.target)
  }

  lemma ApartIndependent(i: Isn, j: Isn, f: Footprint, g: Footprint)
    requires f.Covers(i) && g.Covers(j) && Apart(f, g) && !i.Tst? && !i.CincEq?
    ensures Independent(i, j)
  {
    assert -1 <= Target(i) < 31 && -1 <= Target(j) < 31;
  }
}
