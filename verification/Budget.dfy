/** The compilers count branches up instead of down: the counter is 32 minus the branch
    budget, and bit 5 of "counter or flag" decides the branch. */
module Budget {
  import opened Words
  import opened Vm

  function Counter(bc: nat): u64
    requires bc <= BRANCH_LIMIT
  {
    (BRANCH_LIMIT - bc) as u8 as u64
  }

  lemma CounterRange(bc: nat)
    requires bc <= BRANCH_LIMIT
    ensures Counter(bc) <= 32
    ensures Counter(bc) == 32 <==> bc == 0
  {
    match bc
    case 0 => case 1 => case 2 => case 3 => case 4 => case 5 => case 6 => case 7 => case 8 => case 9 => case 10 =>
    case 11 => case 12 => case 13 => case 14 => case 15 => case 16 => case 17 => case 18 => case 19 => case 20 =>
    case 21 => case 22 => case 23 => case 24 => case 25 => case 26 => case 27 => case 28 => case 29 => case 30 =>
    case 31 => case 32 =>
  }

  lemma CounterStart()
    ensures Counter(BRANCH_LIMIT) == 0
  {
  }

  lemma CounterUp(bc: nat)
    requires 0 < bc <= BRANCH_LIMIT
    ensures Counter(bc - 1) == Add(Counter(bc), 1)
  {
    hide Counter, Add;
    if bc <= 16 { CounterUpLow(bc); } else { CounterUpHigh(bc); }
  }

  lemma CounterUpLow(bc: nat)
    requires 0 < bc <= 16
    ensures Counter(bc - 1) == Add(Counter(bc), 1)
  {
    match bc
    case 1 => case 2 => case 3 => case 4 => case 5 => case 6 => case 7 => case 8 => case 9 => case 10 => case 11 =>
    case 12 => case 13 => case 14 => case 15 => case 16 =>
  }

  lemma CounterUpHigh(bc: nat)
    requires 16 < bc <= BRANCH_LIMIT
    ensures Counter(bc - 1) == Add(Counter(bc), 1)
  {
    match bc
    case 17 => case 18 => case 19 => case 20 => case 21 => case 22 => case 23 => case 24 => case 25 => case 26 =>
    case 27 => case 28 => case 29 => case 30 => case 31 => case 32 =>
  }

  lemma Bit5(c: u64, flag: u64)
    requires c <= 32
    ensures And(Or(flag, c), 32) == 0 <==> c != 32 && And(flag, 32) == 0
  {
  }

  /** The test made by the compiled code agrees with the interpreter's two tests. */
  lemma BudgetTest(bc: nat, flag: u64)
    requires bc <= BRANCH_LIMIT
    ensures And(Or(flag, Counter(bc)), 32) == 0 <==> bc != 0 && And(flag, 32) == 0
  {
    hide Counter, And, Or;
    CounterRange(bc);
    Bit5(Counter(bc), flag);
  }
}
