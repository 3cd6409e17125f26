/** Evaluating the emitted WebAssembly loop of a program is running the program. */
module WasmProgram {
  import opened Words
  import opened Vm
  import opened Budget
  import opened Stack
  import opened WasmMachine
  import opened WasmEmitted
  import opened WasmSimulation

  // ----- the branch -----

  lemma ConstExec(v: int, w: u64, s: State)
    requires s.Live? && WordOf(v) == w
    ensures Exec(Const64(v), s) == s.(stack := Push(I64(w), s.stack))
  {
    hide WordOf;
  }

  lemma OrExec(s: State, a: u64, b: u64, below: OpStack)
    requires s.Live? && s.stack == Push(I64(b), Push(I64(a), below))
    ensures Exec(Bin(OR), s) == s.(stack := Push(I64(Or(a, b)), below))
  {
    hide Or;
  }

  lemma AddExec(s: State, a: u64, b: u64, below: OpStack)
    requires s.Live? && s.stack == Push(I64(b), Push(I64(a), below))
    ensures Exec(Bin(ADD), s) == s.(stack := Push(I64(Add(a, b)), below))
  {
    hide Add;
  }

  lemma EqzExec(s: State, a: u64, below: OpStack)
    requires s.Live? && s.stack == Push(I64(a), below)
    ensures Exec(Un(EQZ), s) == s.(stack := Push(I32(if a == 0 then 1 else 0), below))
  {
  }

  lemma OrderOfOr(a: u64, b: u64)
    ensures Or(a, b) == Or(b, a)
  {
  }

  /** The test leaves 1 exactly where the interpreter takes the branch. */
  lemma TestRun(s: State, bc: nat, f: u64)
    requires s.Live? && |s.locals| == LOCALS && bc <= BRANCH_LIMIT
    requires s.locals[BC] == I64(Counter(bc)) && s.locals[BF] == I64(f)
    ensures ExecAll(TestOps(), s) == s.(stack := Push(I32(if bc != 0 && And(f, 32) == 0 then 1 else 0), s.stack))
  {
    hide ExecAll, Exec, And, Or, Counter, WordOf;
    var c := Counter(bc);
    ConstWords();
    BudgetTest(bc, f);
    OrderOfOr(c, f);
    var a, b := [Get(BC), Get(BF), Bin(OR)], [Const64(32), Bin(AND), Un(EQZ)];
    ExecAppend(a, b, s);
    Exec3(Get(BC), Get(BF), Bin(OR), s);
    GetExec(BC, s);
    GetExec(BF, s.(stack := Push(I64(c), s.stack)));
    OrExec(s.(stack := Push(I64(f), Push(I64(c), s.stack))), c, f, s.stack);
    var t := s.(stack := Push(I64(Or(c, f)), s.stack));
    Exec3(Const64(32), Bin(AND), Un(EQZ), t);
    ConstExec(32, 32, t);
    AndExec(t.(stack := Push(I64(32), t.stack)), Or(c, f), 32, s.stack);
    EqzExec(s.(stack := Push(I64(And(Or(c, f), 32)), s.stack)), And(Or(c, f), 32), s.stack);
  }

  lemma OrderOfAdd(a: u64, b: u64)
    ensures Add(a, b) == Add(b, a)
  {
  }

  lemma CountRun(s: State, bc: nat)
    requires s.Live? && |s.locals| == LOCALS && 0 < bc <= BRANCH_LIMIT && s.locals[BC] == I64(Counter(bc))
    ensures ExecAll(CountOps(), s) == s.(locals := s.locals[BC := I64(Counter(bc - 1))])
  {
    hide ExecAll, Exec, Add, Counter, WordOf;
    var c := Counter(bc);
    ConstWords();
    CounterUp(bc);
    OrderOfAdd(1, c);
    Exec4(Const64(1), Get(BC), Bin(ADD), Set(BC), s);
    ConstExec(1, 1, s);
    GetExec(BC, s.(stack := Push(I64(1), s.stack)));
    AddExec(s.(stack := Push(I64(c), Push(I64(1), s.stack))), 1, c, s.stack);
    SetExec(BC, s.(stack := Push(I64(Counter(bc - 1)), s.stack)), I64(Counter(bc - 1)), s.stack);
  }

  /** A taken branch leaves the if and targets the loop; another falls through. */
  lemma BranchSim(next: Code, s: State, bc: nat, f: u64, fuel: nat)
    requires s.Live? && |s.locals| == LOCALS && bc <= BRANCH_LIMIT
    requires s.locals[BC] == I64(Counter(bc)) && s.locals[BF] == I64(f)
    ensures var e := Eval(Line(TestOps(), If(Line(CountOps(), Br(1, End)), next)), s, fuel);
            if bc != 0 && And(f, 32) == 0 then e == Jump(0, Live(Empty, s.locals[BC := I64(Counter(bc - 1))], s.mem))
            else e == Eval(next, s, fuel)
  {
    hide ExecAll, Exec, And, Counter, TestOps, CountOps, Line;
    TestRun(s, bc, f);
    var block := If(Line(CountOps(), Br(1, End)), next);
    EvalLine(TestOps(), block, s, fuel);
    if bc != 0 && And(f, 32) == 0 {
      var u := s.(stack := Empty);
      CountRun(u, bc);
      EvalLine(CountOps(), Br(1, End), u, fuel);
      var v := Live(Empty, s.locals[BC := I64(Counter(bc - 1))], s.mem);
      assert Eval(Br(1, End), v, fuel) == Jump(1, v);
      assert Leave(s.stack, Jump(1, v)) == Jump(0, v);
    }
  }

  // ----- the instructions before the branch -----

  function UpTo(p: Program, n: nat, mode: Mode, r: Regs): Regs
    requires n <= 7
  {
    if n == 0 then r else Arith(p[n - 1], mode, UpTo(p, n - 1, mode, r))
  }

  lemma UpToBody(p: Program, mode: Mode, r: Regs)
    ensures UpTo(p, 7, mode, r) == Body(p, mode, r)
    ensures UpTo(p, 1, mode, r) == Arith(p[0], mode, r)
  {
    hide Arith;
    assert UpTo(p, 0, mode, r) == r;
    assert UpTo(p, 1, mode, r) == Arith(p[0], mode, r);
    assert UpTo(p, 2, mode, r) == Arith(p[1], mode, Arith(p[0], mode, r));
    assert UpTo(p, 4, mode, r) == Arith(p[3], mode, Arith(p[2], mode, UpTo(p, 2, mode, r)));
    assert UpTo(p, 6, mode, r) == Arith(p[5], mode, Arith(p[4], mode, UpTo(p, 4, mode, r)));
  }

  lemma Kinds(p: Program, n: nat)
    requires Layout(p) && n < 7
    ensures var op := p[n].opcode; (op.RMCG? || op.IsMul() || op.IsXas()) && (op.RMCG? <==> n == 0)
  {
  }

  /** The state that the code of the two phases relies on. */
  predicate Ready(mem: bool, s: State, r: Regs, mp: nat, pad: Scratchpad) {
    s.Live? && Agrees(s.locals, r) && (mem ==> PadReady(s, mp, pad))
  }

  lemma {:induction false} PiecesSim(mem: bool, p: Program, n: nat, next: Code, s: State, r: Regs, mp: nat, pad: Scratchpad,
                                     fuel: nat) returns (t: State)
    requires Layout(p) && n <= 7 && Ready(mem, s, r, mp, pad)
    ensures && Same(s, t) && Ready(mem, t, UpTo(p, n, ModeOf(mem, pad), r), mp, pad)
            && (n > 0 ==> t.locals[BF] == I64(UpTo(p, 1, ModeOf(mem, pad), r)[p[0].dst]))
            && Eval(Pieces(mem, p, n, next), s, fuel) == Eval(next, t, fuel)
    decreases n
  {
    hide Eval, ExecAll, Arith, Agrees, Ops, Line, PadAt;
    if n == 0 {
      t := s;
      ReadyLength(mem, s, r, mp, pad);
    } else {
      var i, mode := p[n - 1], ModeOf(mem, pad);
      var u := PiecesSim(mem, p, n - 1, IsnCode(mem, i, next), s, r, mp, pad, fuel);
      Kinds(p, n - 1);
      hide Layout;
      var q := UpTo(p, n - 1, mode, r);
      ArithSim(mem, i, u, q, mp, pad);
      t := ExecAll(Ops(mem, i), u);
      EvalLine(Ops(mem, i), next, u, fuel);
      assert UpTo(p, n, mode, r) == Arith(i, mode, q);
    }
  }

  lemma ReadyLength(mem: bool, s: State, r: Regs, mp: nat, pad: Scratchpad)
    requires Ready(mem, s, r, mp, pad)
    ensures s.Live? && |s.locals| == LOCALS
  {
  }

  // ----- one pass -----

  lemma LastPieces(mem: bool, p: Program)
    requires Layout(p)
    ensures Pieces(mem, p, PROGRAM_SIZE, End)
            == Pieces(mem, p, 7, Line(TestOps(), If(Line(CountOps(), Br(1, End)), Line(Ops(mem, p[8]), End))))
  {
    hide Line, Ops, TestOps, CountOps;
    var a := IsnCode(mem, p[9], End);
    assert a == End;
    var b := IsnCode(mem, p[8], a);
    assert b == Line(Ops(mem, p[8]), End);
    assert Pieces(mem, p, 10, End) == Pieces(mem, p, 9, a) == Pieces(mem, p, 8, b);
  }

  /** The end of a pass over the loop body. */
  predicate Passed(mem: bool, s: State, e: Ending, p: Program, mode: Mode, b: Regs, bc: nat, mp: nat, pad: Scratchpad)
    requires bc <= BRANCH_LIMIT
  {
    && s.Live? && e.s.Live? && e.s.mem == s.mem && |s.locals| == |e.s.locals| == LOCALS
    && e.s.locals[0] == s.locals[0] && e.s.locals[1] == s.locals[1] && e.s.stack == Empty
    && if Taken(p, b, bc) then
         e.Jump? && e.depth == 0 && Ready(mem, e.s, b, mp, pad) && e.s.locals[BC] == I64(Counter(bc - 1))
       else
         e.Next? && Ready(mem, e.s, Arith(p[8], mode, b), mp, pad) && e.s.locals[BC] == I64(Counter(bc))
  }

  lemma PassSim(mem: bool, p: Program, s: State, r: Regs, bc: nat, mp: nat, pad: Scratchpad, fuel: nat)
    requires WellFormed(p) && Ready(mem, s, r, mp, pad) && s.stack == Empty && bc <= BRANCH_LIMIT
    requires |s.locals| == LOCALS && s.locals[BC] == I64(Counter(bc))
    ensures var mode := ModeOf(mem, pad);
            Passed(mem, s, Eval(Pieces(mem, p, PROGRAM_SIZE, End), s, fuel), p, mode, Body(p, mode, r), bc, mp, pad)
  {
    hide Eval, ExecAll, Arith, Agrees, Ops, Line, PadAt, Counter, And, Pieces, UpTo, Body, TestOps, CountOps;
    hide OperandsOk, HazardFree;
    assert OperandsOk(p) && Layout(p);
    var mode := ModeOf(mem, pad);
    var b := Body(p, mode, r);
    var last := Line(Ops(mem, p[8]), End);
    LastPieces(mem, p);
    var t := PiecesSim(mem, p, 7, Line(TestOps(), If(Line(CountOps(), Br(1, End)), last)), s, r, mp, pad, fuel);
    UpToBody(p, mode, r);
    BodyKeepsFlag(p, mode, r);
    BranchSim(last, t, bc, b[p[0].dst], fuel);
    if Taken(p, b, bc) {
      AgreesTemp(t.locals, b, BC, I64(Counter(bc - 1)));
    } else {
      ArithSim(mem, p[8], t, b, mp, pad);
      EvalLine(Ops(mem, p[8]), End, t, fuel);
      EvalEnd(ExecAll(Ops(mem, p[8]), t), fuel);
    }
  }

  lemma EvalEnd(s: State, fuel: nat)
    ensures Eval(End, s, fuel) == Next(s)
  {
  }

  // ----- the loop -----

  lemma IterateStep(body: Code, s: State, fuel: nat)
    ensures var e := Eval(body, s, fuel);
            && (e.Next? ==> Iterate(body, s, fuel) == e)
            && (e.Jump? && e.depth == 0 && e.s.Live? && fuel > 0 ==>
                  Iterate(body, s, fuel) == Iterate(body, e.s.(stack := Empty), fuel - 1))
  {
    hide Eval;
  }

  /** A loop repeats once for every branch the interpreter takes, so fuel for the branch
      budget is enough, and it leaves the operand stack balanced. */
  lemma {:induction false} LoopSim(mem: bool, p: Program, s: State, r: Regs, bc: nat, mp: nat, pad: Scratchpad, fuel: nat)
    returns (t: State)
    requires WellFormed(p) && Ready(mem, s, r, mp, pad) && s.stack == Empty && bc <= BRANCH_LIMIT && bc <= fuel
    requires |s.locals| == LOCALS && s.locals[BC] == I64(Counter(bc))
    ensures var o := Passes(p, ModeOf(mem, pad), r, bc);
            && t.Live? && t.stack == Empty && t.mem == s.mem && |t.locals| == LOCALS
            && t.locals[0] == s.locals[0] && t.locals[1] == s.locals[1]
            && Ready(mem, t, o.r, mp, pad) && t.locals[BC] == I64(Counter(o.bc))
            && Iterate(Pieces(mem, p, PROGRAM_SIZE, End), s, fuel) == Next(t)
    decreases bc
  {
    hide Eval, Iterate, Ready, Counter, And, Pieces, Body, WellFormed, Arith;
    var mode := ModeOf(mem, pad);
    var body := Pieces(mem, p, PROGRAM_SIZE, End);
    PassSim(mem, p, s, r, bc, mp, pad, fuel);
    IterateStep(body, s, fuel);
    var b, e := Body(p, mode, r), Eval(body, s, fuel);
    if Taken(p, b, bc) {
      t := LoopSim(mem, p, e.s, b, bc - 1, mp, pad, fuel - 1);
    } else {
      t := e.s;
    }
  }

  lemma EvalLoop(body: Code, next: Code, s: State, t: State, fuel: nat)
    requires s.Live? && t.Live? && t.stack == Empty && Iterate(body, s.(stack := Empty), fuel) == Next(t)
    ensures Eval(Loop(body, next), s, fuel) == Eval(next, t.(stack := s.stack), fuel)
  {
    hide Iterate;
  }
}
