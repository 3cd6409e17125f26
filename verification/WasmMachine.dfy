/** The WebAssembly instructions that the back end emits: structured code, and its meaning
    on an operand stack. An operand of the wrong type, an access outside memory, a block that
    leaves something on its operand stack and a loop that is repeated more often than the
    fuel allows are all Stuck: a run that ends well did none of these. */
module WasmMachine {
  import opened Wrappers
  import opened Words

  const TWO_32: nat := 0x1_0000_0000

  /** An i32; its arithmetic wraps modulo 2^32. */
  type Word32 = n: int | 0 <= n < TWO_32

  datatype Val = I32(n: Word32) | I64(u: u64)

  datatype OpStack = Empty | Push(top: Val, below: OpStack)

  datatype BinOp = ADD | SUB | MUL | AND | OR | XOR | SHRS | SHRU | ROTR | ADD32 | SUB32

  datatype UnOp = EQZ | WRAP

  datatype Isn =
    | Get(x: nat)
    | Set(x: nat)
    | Tee(x: nat)
    | Const32(v: int)
    | Const64(v: int)
    | Load(align: nat, off: nat)
    | Store(align: nat, off: nat)
    | Bin(bop: BinOp)
    | Un(uop: UnOp)

  /** An expression: its first instruction and what follows it. */
  datatype Code =
    | End
    | Do(isn: Isn, next: Code)
    | Loop(body: Code, next: Code)
    | If(body: Code, next: Code)
    | Br(depth: nat, next: Code)

  datatype State =
    | Live(stack: OpStack, locals: seq<Val>, mem: Memory)
    | Stuck

  // ----- straight-line instructions -----

  function WordOf(v: int): u64 {
    Word(v % TWO_64)
  }

  /** Shift and rotation counts are taken modulo 64. */
  function CountOf(b: u64): (n: u32)
    ensures n < 64
  {
    (b & 63) as u32
  }

  function WrapValue(a: u64): Word32 {
    Low32(a) as nat
  }

  function BinValue(op: BinOp, a: u64, b: u64): u64 {
    match op
    case ADD => Add(a, b)
    case SUB => Sub(a, b)
    case MUL => Mul(a, b)
    case AND => And(a, b)
    case OR => Or(a, b)
    case XOR => Xor(a, b)
    case SHRS => Asr(a, CountOf(b))
    case SHRU => Lsr(a, CountOf(b))
    case ROTR => Rotr(a, CountOf(b))
    case ADD32 => a
    case SUB32 => a
  }

  function BinApply(op: BinOp, a: Val, b: Val): Option<Val> {
    match (a, b)
    case (I64(x), I64(y)) => if op.ADD32? || op.SUB32? then None else Some(I64(BinValue(op, x, y)))
    case (I32(x), I32(y)) =>
      if op.ADD32? then Some(I32((x + y) % TWO_32))
      else if op.SUB32? then Some(I32((x - y) % TWO_32))
      else None
    case _ => None
  }

  function UnApply(op: UnOp, a: Val): Option<Val> {
    match a
    case I64(x) => if op.EQZ? then Some(I32(if x == 0 then 1 else 0)) else Some(I32(WrapValue(x)))
    case I32(_) => None
  }

  function Put(s: State, v: Option<Val>, below: OpStack): State
    requires s.Live?
  {
    match v
    case None => Stuck
    case Some(w) => s.(stack := Push(w, below))
  }

  function Exec(i: Isn, s: State): State {
    if s.Stuck? then s
    else
      match i
      case Get(x) => if x < |s.locals| then s.(stack := Push(s.locals[x], s.stack)) else Stuck
      case Set(x) =>
        if x < |s.locals| && s.stack.Push? then Live(s.stack.below, s.locals[x := s.stack.top], s.mem) else Stuck
      case Tee(x) =>
        if x < |s.locals| && s.stack.Push? then s.(locals := s.locals[x := s.stack.top]) else Stuck
      case Const32(v) => s.(stack := Push(I32(v % TWO_32), s.stack))
      case Const64(v) => s.(stack := Push(I64(WordOf(v)), s.stack))
      case Load(_, off) =>
        if s.stack.Push? && s.stack.top.I32? && s.stack.top.n + off in s.mem then
          s.(stack := Push(I64(s.mem[s.stack.top.n + off]), s.stack.below))
        else Stuck
      case Store(_, off) =>
        if s.stack.Push? && s.stack.below.Push? && s.stack.top.I64? && s.stack.below.top.I32?
           && s.stack.below.top.n + off in s.mem then
          s.(stack := s.stack.below.below, mem := s.mem[s.stack.below.top.n + off := s.stack.top.u])
        else Stuck
      case Bin(op) =>
        if s.stack.Push? && s.stack.below.Push? then
          Put(s, BinApply(op, s.stack.below.top, s.stack.top), s.stack.below.below)
        else Stuck
      case Un(op) => if s.stack.Push? then Put(s, UnApply(op, s.stack.top), s.stack.below) else Stuck
  }

  // ----- structured control -----

  /** How an expression ends: it falls through, or branches to an enclosing label. */
  datatype Ending = Next(s: State) | Jump(depth: nat, s: State)

  /** Blocks start with an empty operand stack of their own and get the old one back. */
  function Leave(stack: OpStack, e: Ending): Ending {
    match e
    case Next(t) => if t.Live? && t.stack == Empty then Next(t.(stack := stack)) else Next(Stuck)
    case Jump(0, t) => if t.Live? then Next(t.(stack := stack)) else Next(Stuck)
    case Jump(k, t) => Jump(k - 1, t)
  }

  function Eval(c: Code, s: State, fuel: nat): Ending
    decreases fuel, c, 0
  {
    if s.Stuck? then Next(s)
    else
      match c
      case End => Next(s)
      case Do(i, next) => Eval(next, Exec(i, s), fuel)
      case Br(k, _) => Jump(k, s)
      case Loop(body, next) => Continue(Leave(s.stack, Iterate(body, s.(stack := Empty), fuel)), next, fuel)
      case If(body, next) =>
        if s.stack.Empty? || s.stack.top.I64? then Next(Stuck)
        else if s.stack.top.n == 0 then Eval(next, s.(stack := s.stack.below), fuel)
        else Continue(Leave(s.stack.below, Eval(body, s.(stack := Empty), fuel)), next, fuel)
  }

  function Continue(e: Ending, next: Code, fuel: nat): Ending
    decreases fuel, next, 1
  {
    match e
    case Next(t) => Eval(next, t, fuel)
    case Jump(_, _) => e
  }

  /** A branch to the label of a loop repeats its body. */
  function Iterate(body: Code, s: State, fuel: nat): Ending
    decreases fuel, body, 1
  {
    var e := Eval(body, s, fuel);
    if e.Jump? && e.depth == 0 && e.s.Live? then
      if fuel == 0 then Next(Stuck) else Iterate(body, e.s.(stack := Empty), fuel - 1)
    else e
  }

  // ----- straight-line code -----

  /** Instructions in front of an expression. */
  function Line(ops: seq<Isn>, next: Code): Code {
    if ops == [] then next else Do(ops[0], Line(ops[1..], next))
  }

  function ExecAll(ops: seq<Isn>, s: State): State {
    if ops == [] then s else ExecAll(ops[1..], Exec(ops[0], s))
  }

  lemma {:induction false} EvalLine(ops: seq<Isn>, next: Code, s: State, fuel: nat)
    requires ExecAll(ops, s).Live?
    ensures Eval(Line(ops, next), s, fuel) == Eval(next, ExecAll(ops, s), fuel)
    decreases |ops|
  {
    hide Exec;
    if ops != [] {
      StuckStays(ops, s);
      EvalLine(ops[1..], next, Exec(ops[0], s), fuel);
    }
  }

  lemma {:induction false} StuckStays(ops: seq<Isn>, s: State)
    ensures s.Stuck? ==> ExecAll(ops, s).Stuck?
  {
    if ops != [] {
      StuckStays(ops[1..], Exec(ops[0], s));
    }
  }

  lemma {:induction false} LineAppend(a: seq<Isn>, b: seq<Isn>, next: Code)
    ensures Line(a + b, next) == Line(a, Line(b, next))
  {
    if a == [] {
      assert a + b == b;
    } else {
      assert (a + b)[0] == a[0] && (a + b)[1..] == a[1..] + b;
      LineAppend(a[1..], b, next);
    }
  }

  lemma {:induction false} ExecAppend(a: seq<Isn>, b: seq<Isn>, s: State)
    ensures ExecAll(a + b, s) == ExecAll(b, ExecAll(a, s))
  {
    hide Exec;
    if a == [] {
      assert a + b == b;
    } else {
      assert (a + b)[0] == a[0] && (a + b)[1..] == a[1..] + b;
      ExecAppend(a[1..], b, Exec(a[0], s));
    }
  }

  lemma Exec2(i: Isn, j: Isn, s: State)
    ensures ExecAll([i, j], s) == Exec(j, Exec(i, s))
  {
    hide Exec;
    var e: seq<Isn> := [];
    assert [i, j][1..] == [j] && [j][1..] == e;
    assert ExecAll(e, Exec(j, Exec(i, s))) == ExecAll([j], Exec(i, s)) == ExecAll([i, j], s);
  }

  lemma Exec3(i: Isn, j: Isn, k: Isn, s: State)
    ensures ExecAll([i, j, k], s) == Exec(k, Exec(j, Exec(i, s)))
  {
    hide Exec;
    assert [i, j, k][1..] == [j, k];
    Exec2(j, k, Exec(i, s));
  }

  lemma Exec4(i: Isn, j: Isn, k: Isn, l: Isn, s: State)
    ensures ExecAll([i, j, k, l], s) == Exec(l, Exec(k, Exec(j, Exec(i, s))))
  {
    hide Exec;
    assert [i, j, k, l][1..] == [j, k, l];
    Exec3(j, k, l, Exec(i, s));
  }
}
