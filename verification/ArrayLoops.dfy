/**
 The loops that construct and destroy the elements of an array: their emission block by block, and the
 run of what was emitted.

 Registers hold addresses, which wrap around at 64 bits, or the bits of a length in a type of its own.
 */
module ArrayLoops {
  import opened Options
  import Numeric

  const SPACE: nat := 0x1_0000_0000_0000_0000

  datatype Inst =
    | First(dst: nat, base: nat)
    | Gep(dst: nat, base: nat, index: nat, width: nat)
    | Next(dst: nat, base: nat)
    | Phi(dst: nat, incoming: map<nat, nat>)
    | CmpEq(dst: nat, a: nat, b: nat)
    | Call(arg: nat)

  datatype Terminator = Open | Br(to: nat) | CondBr(cond: nat, yes: nat, no: nat)

  datatype Block = Block(insts: seq<Inst>, term: Terminator)

  type Code = map<nat, Block>

  // ---------------------------------------------------------------- runs

  /** Registers, and the elements that were called on so far. */
  datatype Machine = Machine(regs: map<nat, int>, trace: seq<int>)

  function Reg(m: Machine, r: nat): int {
    if r in m.regs then m.regs[r] else 0
  }

  /** An index is extended to the width of an address by its sign, whatever its type says. */
  function Signed(width: nat, raw: int): int {
    if raw < Numeric.Pow(width) / 2 then raw else raw - Numeric.Pow(width)
  }

  function Exec(inst: Inst, from: nat, size: nat, m: Machine): Machine {
    match inst
    case First(dst, base) => m.(regs := m.regs[dst := Reg(m, base)])
    case Gep(dst, base, index, width) =>
      m.(regs := m.regs[dst := (Reg(m, base) + Signed(width, Reg(m, index)) * size) % SPACE])
    case Next(dst, base) => m.(regs := m.regs[dst := (Reg(m, base) + size) % SPACE])
    case Phi(dst, incoming) => m.(regs := m.regs[dst := if from in incoming then Reg(m, incoming[from]) else 0])
    case CmpEq(dst, a, b) => m.(regs := m.regs[dst := if Reg(m, a) == Reg(m, b) then 1 else 0])
    case Call(arg) => m.(trace := m.trace + [Reg(m, arg)])
  }

  function ExecAll(insts: seq<Inst>, from: nat, size: nat, m: Machine): Machine {
    if insts == [] then m else ExecAll(insts[1..], from, size, Exec(insts[0], from, size, m))
  }

  /** The machine at the end of the first block without a terminator; None when the fuel runs out. */
  function Run(code: Code, at: nat, from: nat, size: nat, m: Machine, fuel: nat): Option<Machine>
    decreases fuel
  {
    if at !in code then None
    else
      var after := ExecAll(code[at].insts, from, size, m);
      match code[at].term
      case Open => Some(after)
      case Br(to) => if fuel == 0 then None else Run(code, to, at, size, after, fuel - 1)
      case CondBr(cond, yes, no) =>
        if fuel == 0 then None else Run(code, if Reg(after, cond) != 0 then yes else no, at, size, after, fuel - 1)
  }

  // ---------------------------------------------------------------- emission

  class Emitter {
    var code: Code
    var currBlock: nat
    var nextBlock: nat
    var nextReg: nat

    ghost predicate Valid()
      reads this
    {
      currBlock in code && code[currBlock].term == Open && forall b <- code :: b < nextBlock
    }

    constructor (regs: nat)
      ensures Valid() && currBlock == 0 && code == map[0 := Block([], Open)] && nextReg == regs && nextBlock == 1
    {
      code, currBlock, nextBlock, nextReg := map[0 := Block([], Open)], 0, 1, regs;
    }

    method CreateBlock() returns (b: nat)
      requires Valid()
      modifies this
      ensures Valid() && b == old(nextBlock) && nextBlock == b + 1 && code == old(code)[b := Block([], Open)]
      ensures currBlock == old(currBlock) && nextReg == old(nextReg)
    {
      b := nextBlock;
      nextBlock := nextBlock + 1;
      code := code[b := Block([], Open)];
    }

    method PushBlock(b: nat)
      requires b in code
      modifies this`currBlock
      ensures currBlock == b
    {
      currBlock := b;
    }

    method NewReg() returns (r: nat)
      modifies this`nextReg
      ensures r == old(nextReg) && nextReg == r + 1
    {
      r := nextReg;
      nextReg := nextReg + 1;
    }

    method Emit(inst: Inst)
      requires currBlock in code
      modifies this`code
      ensures code == old(code)[currBlock := old(code)[currBlock].(insts := old(code)[currBlock].insts + [inst])]
    {
      code := code[currBlock := code[currBlock].(insts := code[currBlock].insts + [inst])];
    }

    method Terminate(term: Terminator)
      requires currBlock in code
      modifies this`code
      ensures code == old(code)[currBlock := old(code)[currBlock].(term := term)]
    {
      code := code[currBlock := code[currBlock].(term := term)];
    }

    /** Adds to the phi that begins the block. */
    method AddIncoming(block: nat, from: nat, value: nat)
      requires block in code && code[block].insts != [] && code[block].insts[0].Phi?
      modifies this`code
      ensures var phi := old(code)[block].insts[0];
        code == old(code)[block := old(code)[block].(insts := [phi.(incoming := phi.incoming[from := value])]
                                                     + old(code)[block].insts[1..])]
    {
      var phi := code[block].insts[0];
      code := code[block := code[block].(insts := [phi.(incoming := phi.incoming[from := value])]
                                         + code[block].insts[1..])];
    }

    /** The addresses of the first element and of the end of the array. */
    method Bounds(array_: nat, count: nat, width: nat) returns (startPtr: nat, endPtr: nat)
      requires currBlock in code
      modifies this`code, this`nextReg
      ensures (startPtr, endPtr) == (old(nextReg), old(nextReg) + 1) && nextReg == old(nextReg) + 2
      ensures var b := old(code)[currBlock];
        code == old(code)[currBlock := b.(insts := b.insts
                                          + [First(startPtr, array_), Gep(endPtr, startPtr, count, width)])]
    {
      startPtr := NewReg();
      Emit(First(startPtr, array_));
      endPtr := NewReg();
      Emit(Gep(endPtr, startPtr, count, width));
      assert code[currBlock].insts == old(code)[currBlock].insts
          + [First(startPtr, array_), Gep(endPtr, startPtr, count, width)];
    }

    /** The block of the constructor's loop, but for its terminator. */
    method ConstructorBlock(block: nat, startBlock: nat, startPtr: nat, endPtr: nat) returns (cmp: nat)
      requires currBlock == block && block in code && code[block] == Block([], Open) && startBlock != block
      modifies this`code, this`nextReg
      ensures nextReg == old(nextReg) + 3 && cmp == old(nextReg) + 2
      ensures code == old(code)[block := Block(ConstructorInsts(block, startBlock, startPtr, endPtr, old(nextReg)),
                                               Open)]
    {
      var phi := NewReg();
      Emit(Phi(phi, map[]));
      var nextPtr := NewReg();
      Emit(Next(nextPtr, phi));
      assert code[block].insts == [Phi(phi, map[]), Next(nextPtr, phi)];
      AddIncoming(block, startBlock, startPtr);
      assert code[block].insts == [Phi(phi, map[startBlock := startPtr]), Next(nextPtr, phi)];
      AddIncoming(block, block, nextPtr);
      assert map[startBlock := startPtr][block := nextPtr] == map[startBlock := startPtr, block := nextPtr];
      assert code[block].insts == [Phi(phi, map[startBlock := startPtr, block := nextPtr]), Next(nextPtr, phi)];
      Emit(Call(phi));
      cmp := NewReg();
      Emit(CmpEq(cmp, nextPtr, endPtr));
      assert code[block].insts == ConstructorInsts(block, startBlock, startPtr, endPtr, phi);
    }

    /** The loop of the constructor, which tests after the first element. */
    method CallConstructor(array_: nat, count: nat, width: nat)
      requires Valid()
      modifies this
      ensures Valid() && currBlock == old(nextBlock) + 1
      ensures code == WithConstructorLoop(old(code), old(currBlock), old(nextBlock), old(nextReg), array_, count, width)
    {
      hide ConstructorInsts;
      var startBlock := currBlock;
      var startPtr, endPtr := Bounds(array_, count, width);
      var block := CreateBlock();
      Terminate(Br(block));
      PushBlock(block);
      var cmp := ConstructorBlock(block, startBlock, startPtr, endPtr);
      var exit := CreateBlock();
      Terminate(CondBr(cmp, exit, currBlock));
      PushBlock(exit);
    }

    /** The block of the destructor's loop, but for its terminator. */
    method DestructorBlock(block: nat, startBlock: nat, startPtr: nat, endPtr: nat) returns (cmp: nat)
      requires currBlock == block && block in code && code[block] == Block([], Open) && startBlock != block
      modifies this`code, this`nextReg
      ensures nextReg == old(nextReg) + 3 && cmp == old(nextReg) + 2
      ensures code == old(code)[block := Block(DestructorInsts(block, startBlock, startPtr, endPtr, old(nextReg)),
                                               Open)]
    {
      var phi := NewReg();
      Emit(Phi(phi, map[]));
      AddIncoming(block, startBlock, startPtr);
      Emit(Call(phi));
      var nextPtr := NewReg();
      Emit(Next(nextPtr, phi));
      AddIncoming(block, block, nextPtr);
      assert code[block].insts[0].incoming == map[startBlock := startPtr, block := nextPtr];
      assert code[block].insts == [Phi(phi, map[startBlock := startPtr, block := nextPtr]), Call(phi),
          Next(nextPtr, phi)];
      cmp := NewReg();
      Emit(CmpEq(cmp, nextPtr, endPtr));
      assert code[block].insts == DestructorInsts(block, startBlock, startPtr, endPtr, phi);
    }

    /** The loop of the destructor, which tests before the first element. */
    method CallDestructor(array_: nat, count: nat, width: nat)
      requires Valid()
      modifies this
      ensures Valid() && currBlock == old(nextBlock) + 1
      ensures code == WithDestructorLoop(old(code), old(currBlock), old(nextBlock), old(nextReg), array_, count, width)
    {
      hide DestructorInsts;
      var startBlock := currBlock;
      var loopBlock := CreateBlock();
      var endBlock := CreateBlock();
      var startPtr, endPtr := Bounds(array_, count, width);
      var cmp := NewReg();
      Emit(CmpEq(cmp, startPtr, endPtr));
      assert code[startBlock].insts == old(code[currBlock]).insts
          + [First(startPtr, array_), Gep(endPtr, startPtr, count, width), CmpEq(cmp, startPtr, endPtr)];
      Terminate(CondBr(cmp, endBlock, loopBlock));
      PushBlock(loopBlock);
      cmp := DestructorBlock(loopBlock, startBlock, startPtr, endPtr);
      Terminate(CondBr(cmp, endBlock, loopBlock));
      PushBlock(endBlock);
    }
  }

  function ConstructorInsts(block: nat, start: nat, startPtr: nat, endPtr: nat, reg: nat): seq<Inst> {
    [Phi(reg, map[start := startPtr, block := reg + 1]), Next(reg + 1, reg), Call(reg), CmpEq(reg + 2, reg + 1, endPtr)]
  }

  function DestructorInsts(block: nat, start: nat, startPtr: nat, endPtr: nat, reg: nat): seq<Inst> {
    [Phi(reg, map[start := startPtr, block := reg + 1]), Call(reg), Next(reg + 1, reg), CmpEq(reg + 2, reg + 1, endPtr)]
  }

  function WithConstructorLoop(code: Code, start: nat, block: nat, reg: nat, array_: nat, count: nat, width: nat): Code
    requires start in code
  {
    code[start := Block(code[start].insts + [First(reg, array_), Gep(reg + 1, reg, count, width)], Br(block))]
      [block := Block(ConstructorInsts(block, start, reg, reg + 1, reg + 2), CondBr(reg + 4, block + 1, block))]
      [block + 1 := Block([], Open)]
  }

  function WithDestructorLoop(code: Code, start: nat, block: nat, reg: nat, array_: nat, count: nat, width: nat): Code
    requires start in code
  {
    var bounds := [First(reg, array_), Gep(reg + 1, reg, count, width), CmpEq(reg + 2, reg, reg + 1)];
    code[start := Block(code[start].insts + bounds, CondBr(reg + 2, block + 1, block))]
      [block := Block(DestructorInsts(block, start, reg, reg + 1, reg + 3), CondBr(reg + 5, block + 1, block))]
      [block + 1 := Block([], Open)]
  }

  // ---------------------------------------------------------------- what the loops do

  /** The addresses of the elements `k` up to `n`. */
  function Elements(base: int, size: nat, k: nat, n: nat): (es: seq<int>)
    requires k <= n
    ensures |es| == n - k
    ensures forall i | 0 <= i < n - k :: es[i] == Address(base, size, k + i)
    decreases n - k
  {
    if k == n then [] else [Address(base, size, k)] + Elements(base, size, k + 1, n)
  }

  function Address(base: int, size: nat, k: nat): int {
    (base + k * size) % SPACE
  }

  lemma NextAddress(base: int, size: nat, k: nat)
    ensures (Address(base, size, k) + size) % SPACE == Address(base, size, k + 1)
  {
    assert (k + 1) * size == k * size + size;
  }

  lemma ExecFirst(a: Inst, rest: seq<Inst>, from: nat, size: nat, m: Machine)
    ensures ExecAll([a] + rest, from, size, m) == ExecAll(rest, from, size, Exec(a, from, size, m))
  {
    assert ([a] + rest)[1..] == rest;
  }

  lemma Both(a: Inst, b: Inst, from: nat, size: nat, m: Machine)
    ensures ExecAll([a, b], from, size, m) == Exec(b, from, size, Exec(a, from, size, m))
  {
    assert [a, b] == [a] + ([b] + []);
    ExecFirst(a, [b] + [], from, size, m);
    ExecFirst(b, [], from, size, Exec(a, from, size, m));
  }

  lemma Four(a: Inst, b: Inst, c: Inst, d: Inst, from: nat, size: nat, m: Machine)
    ensures ExecAll([a, b, c, d], from, size, m)
      == Exec(d, from, size, Exec(c, from, size, Exec(b, from, size, Exec(a, from, size, m))))
  {
    assert [a, b, c, d] == [a] + ([b] + [c, d]);
    ExecFirst(a, [b] + [c, d], from, size, m);
    ExecFirst(b, [c, d], from, size, Exec(a, from, size, m));
    Both(c, d, from, size, Exec(b, from, size, Exec(a, from, size, m)));
  }

  lemma {:induction false} ExecAppended(a: seq<Inst>, b: seq<Inst>, from: nat, size: nat, m: Machine)
    ensures ExecAll(a + b, from, size, m) == ExecAll(b, from, size, ExecAll(a, from, size, m))
    decreases |a|
  {
    if a == [] {
      assert a + b == b;
    } else {
      assert (a + b)[1..] == a[1..] + b;
      ExecAppended(a[1..], b, from, size, Exec(a[0], from, size, m));
    }
  }

  /** The registers of a loop. */
  datatype Loop = Loop(start: nat, block: nat, first: nat, end: nat, phi: nat, next: nat, cmp: nat)

  /** The block of the loop of a constructor or of a destructor. */
  predicate IsLoop(code: Code, l: Loop) {
    && l.start != l.block && l.block in code && l.block + 1 in code && code[l.block + 1] == Block([], Open)
    && code[l.block].term == CondBr(l.cmp, l.block + 1, l.block)
    && l.phi !in {l.first, l.end, l.next, l.cmp} && l.next !in {l.first, l.end, l.cmp} && l.cmp !in {l.first, l.end}
    && (code[l.block].insts == LoopInsts(l, false) || code[l.block].insts == LoopInsts(l, true))
  }

  function LoopInsts(l: Loop, callFirst: bool): seq<Inst> {
    var phi := Phi(l.phi, map[l.start := l.first, l.block := l.next]);
    if callFirst then [phi, Call(l.phi), Next(l.next, l.phi), CmpEq(l.cmp, l.next, l.end)]
    else [phi, Next(l.next, l.phi), Call(l.phi), CmpEq(l.cmp, l.next, l.end)]
  }

  /** The loop block is entered for the element at `address`. */
  predicate Enters(l: Loop, from: nat, m: Machine, address: int, end: int) {
    && ((from == l.start && Reg(m, l.first) == address) || (from == l.block && Reg(m, l.next) == address))
    && Reg(m, l.end) == end
  }

  /** One pass through the loop block. */
  lemma OnePass(code: Code, l: Loop, from: nat, size: nat, m: Machine, address: int, end: int)
    requires IsLoop(code, l) && Enters(l, from, m, address, end)
    ensures var after := ExecAll(code[l.block].insts, from, size, m);
      && after.trace == m.trace + [address] && Reg(after, l.next) == (address + size) % SPACE
          && Reg(after, l.end) == end
      && (Reg(after, l.cmp) != 0 <==> (address + size) % SPACE == end)
  {
    var insts := code[l.block].insts;
    Four(insts[0], insts[1], insts[2], insts[3], from, size, m);
    assert insts == [insts[0], insts[1], insts[2], insts[3]];
  }

  /**
   From the element `k` on, the loop calls once on every element, in order, up to the first one at the address of
   the end.
   */
  lemma {:induction false} LoopRunsTo(code: Code, l: Loop, from: nat, size: nat, m: Machine, base: int, k: nat,
                                      last: nat, end: int)
    requires IsLoop(code, l) && k < last && Enters(l, from, m, Address(base, size, k), end)
    requires Address(base, size, last) == end && forall j | k < j < last :: Address(base, size, j) != end
    ensures var r := Run(code, l.block, from, size, m, last - k);
      r.Some? && r.value.trace == m.trace + Elements(base, size, k, last)
    decreases last - k
  {
    hide ExecAll, Address;
    OnePass(code, l, from, size, m, Address(base, size, k), end);
    var after := ExecAll(code[l.block].insts, from, size, m);
    NextAddress(base, size, k);
    if k + 1 == last {
      assert Elements(base, size, k, k + 1) == [Address(base, size, k)] + Elements(base, size, k + 1, k + 1);
      Halts(code, l.block + 1, l.block, size, after, last - k - 1);
    } else {
      LoopRunsTo(code, l, l.block, size, after, base, k + 1, last, end);
      assert m.trace + [Address(base, size, k)] + Elements(base, size, k + 1, last)
          == m.trace + Elements(base, size, k, last);
    }
  }

  lemma Halts(code: Code, at: nat, from: nat, size: nat, m: Machine, fuel: nat)
    requires at in code && code[at] == Block([], Open)
    ensures Run(code, at, from, size, m, fuel) == Some(m)
  {
  }

  // ---------------------------------------------------------------- where the loops end

  /** Element `k` has the address of the element `index`, which may be negative. */
  predicate Hits(size: nat, index: int, k: int) {
    ((k - index) * size) % SPACE == 0
  }

  /** The first element behind the array's start that has this address. */
  predicate FirstHit(size: nat, index: int, k: nat) {
    1 <= k <= SPACE && Hits(size, index, k) && forall j | 0 < j < k :: !Hits(size, index, j)
  }

  function EndOf(base: int, size: nat, index: int): int {
    (base + index * size) % SPACE
  }

  lemma SameAddress(base: int, size: nat, index: int, k: nat)
    ensures Address(base, size, k) == EndOf(base, size, index) <==> Hits(size, index, k)
  {
    var a, b := base + k * size, base + index * size;
    assert (k - index) * size == k * size - index * size;
    if Hits(size, index, k) {
      Numeric.ModOfDifference(a, b, (a - b) / SPACE, SPACE);
    } else if a % SPACE == b % SPACE {
      Numeric.ModIs(a - b, a / SPACE - b / SPACE, 0, SPACE);
    }
  }

  lemma Multiple(q: int, size: nat)
    ensures (q * SPACE * size) % SPACE == 0
  {
    assert q * SPACE * size == (q * size) * SPACE;
    Numeric.ModIs(q * SPACE * size, q * size, 0, SPACE);
  }

  /** There is such an element, as indices repeat with the addresses. */
  lemma FindHit(size: nat, index: int) returns (k: nat)
    ensures FirstHit(size, index, k)
  {
    var last := if index % SPACE == 0 then SPACE else index % SPACE;
    var q := if index % SPACE == 0 then 1 - index / SPACE else -(index / SPACE);
    assert last - index == q * SPACE;
    Multiple(q, size);
    k := 1;
    while !Hits(size, index, k)
      invariant 1 <= k <= last
      invariant forall j | 0 < j < k :: !Hits(size, index, j)
      decreases last - k
    {
      k := k + 1;
    }
  }

  // ---------------------------------------------------------------- which lengths are reached

  function Two(m: nat): (p: nat)
    ensures p >= 1
  {
    if m == 0 then 1 else 2 * Two(m - 1)
  }

  lemma PowIsTwo(width: nat)
    requires Numeric.IsInt(Numeric.IntType(width, true))
    ensures Numeric.Pow(width) == Two(width) && width >= 1
    ensures SPACE == Two(64)
  {
    hide Two;
    Powers();
  }

  lemma Powers()
    ensures Two(1) == 2 && Two(8) == 0x100 && Two(16) == 0x1_0000 && Two(32) == 0x1_0000_0000 && Two(64) == SPACE
  {
    hide Two;
    SmallPowers();
    Doubles(8, 8);
    Doubles(16, 16);
    Doubles(32, 32);
  }

  lemma SmallPowers()
    ensures Two(1) == 2 && Two(8) == 0x100
  {
    assert Two(4) == 16;
  }

  lemma {:induction false} Doubles(a: nat, b: nat)
    ensures Two(a + b) == Two(a) * Two(b)
  {
    if b > 0 { Doubles(a, b - 1); }
  }

  /** What divides a power of two is one. */
  lemma {:induction false} DividesPower(c: nat, d: nat, m: nat) returns (i: nat)
    requires c * d == Two(m)
    ensures c == Two(i)
    decreases m
  {
    hide Two;
    HalfOfPower(m);
    if c % 2 == 0 {
      HalfOfProduct(c, d);
      i := DividesPower(c / 2, d, m - 1);
      HalfOfPower(i + 1);
      i := i + 1;
    } else if d % 2 == 0 {
      HalfOfProduct(d, c);
      i := DividesPower(c, d / 2, m - 1);
    } else {
      Odd(c, d);
      NoOtherFactor(c, d);
      i := 0;
    }
  }

  lemma HalfOfPower(m: nat)
    ensures if m == 0 then Two(m) == 1 else Two(m) == 2 * Two(m - 1)
    ensures Two(0) == 1
  {
  }

  lemma HalfOfProduct(a: nat, b: nat)
    requires a % 2 == 0
    ensures a * b == 2 * (a / 2 * b) && b * a == 2 * (b * (a / 2))
  {
    var c := a / 2;
    assert a == 2 * c;
  }

  lemma NoOtherFactor(c: nat, d: nat)
    requires c * d == 1
    ensures c == 1
  {
    if c > 1 {
      if d >= 1 { Numeric.AtLeast(d, c); }
    }
  }

  lemma Odd(c: nat, d: nat)
    requires c % 2 == 1
    ensures d % 2 == 1 ==> (c * d) % 2 == 1
  {
    var a, b := c / 2, d / 2;
    if d % 2 == 1 {
      assert c * d == c * (2 * b + 1) == 2 * (c * b) + c;
      assert c * d == 2 * (c * b + a) + 1;
    }
  }

  lemma {:induction false} TwoRises(a: nat, b: nat)
    requires a <= b
    ensures Two(a) <= Two(b)
    decreases b
  {
    if a < b { TwoRises(a, b - 1); }
  }

  /** A length is reached if it is its own signed reading, or if that reading is off by a multiple of memory. */
  predicate Reaches(t: Numeric.NumType, raw: int, size: nat) {
    t.IntType? && t.unsigned ==>
      raw < Numeric.Pow(t.width) / 2 || (Numeric.Pow(t.width) * size) % SPACE == 0
  }

  /** Two elements of an array that fits into memory do not have one address. */
  lemma HitsOnce(size: nat, index: int, k: nat, n: nat)
    requires size > 0 && k < n && n * size < SPACE
    ensures !Hits(size, index, k) || !Hits(size, index, n)
  {
    var a, b := (n - index) * size, (k - index) * size;
    assert a - b == (n - k) * size && (n - k) * size <= n * size;
    Numeric.AtLeast(n - k, size);
    BothMultiples(a, b);
  }

  lemma BothMultiples(a: int, b: int)
    ensures a % SPACE == 0 && b % SPACE == 0 ==> (a - b) % SPACE == 0
  {
    if a % SPACE == 0 && b % SPACE == 0 { Numeric.ModIs(a - b, a / SPACE - b / SPACE, 0, SPACE); }
  }

  /** A length that is read as negative does not send the loop to an element before its end. */
  lemma NoHitBefore(t: Numeric.NumType, raw: int, size: nat, k: nat)
    requires Numeric.IsRaw(t, raw) && t.unsigned && raw >= Numeric.Pow(t.width) / 2
    requires size > 0 && k < raw && raw * size < SPACE
    ensures !Hits(size, Signed(t.width, raw), k)
  {
    hide Two;
    var all := Numeric.Pow(t.width);
    var c := all - (raw - k);
    assert k - Signed(t.width, raw) == c;
    LessThanTwice(all, raw, k, size);
    if Hits(size, Signed(t.width, raw), k) {
      OnceAround(c * size);
      if c <= raw { Rises(c, raw, size); }
      PowIsTwo(t.width);
      var i := DividesPower(c, size, 64);
      NoPowerBetween(t.width, i);
    }
  }

  lemma LessThanTwice(all: nat, raw: nat, k: nat, size: nat)
    requires size > 0 && k < raw < all && raw >= all / 2 && all % 2 == 0 && raw * size < SPACE
    ensures 0 < (all - (raw - k)) * size < 2 * SPACE
  {
    var c := all - (raw - k);
    Positive(c, size);
    Rises(c, 2 * raw, size);
    assert (2 * raw) * size == 2 * (raw * size);
  }

  lemma Rises(a: nat, b: nat, size: nat)
    requires a <= b
    ensures a * size <= b * size
  {
  }

  lemma NoPowerBetween(width: nat, i: nat)
    requires width >= 1
    ensures !(Two(width) < 2 * Two(i) && Two(i) < Two(width))
  {
    if i <= width - 1 { TwoRises(i, width - 1); } else { TwoRises(width, i); }
  }

  lemma Positive(c: nat, size: nat)
    requires c > 0 && size > 0
    ensures c * size > 0
  {
  }

  lemma OnceAround(x: nat)
    requires 0 < x < 2 * SPACE && x % SPACE == 0
    ensures x == SPACE
  {
  }

  /** The loop stops at the end of the array exactly if its length is reached; else it stops behind it. */
  lemma ExactHit(t: Numeric.NumType, raw: int, size: nat, n: nat, k: nat)
    requires Numeric.IsRaw(t, raw) && n == Numeric.Value(t, raw) && n >= 1 && n * size < SPACE
    requires FirstHit(size, Signed(t.width, raw), k)
    ensures k == n <==> (size > 0 || n == 1) && Reaches(t, raw, size)
    ensures size > 0 ==> k >= n
  {
    var index := Signed(t.width, raw);
    assert n - index == if t.unsigned && raw >= Numeric.Pow(t.width) / 2 then Numeric.Pow(t.width) else 0;
    assert Hits(size, index, n) <==> Reaches(t, raw, size);
    if size == 0 {
      assert Hits(size, index, 1);
    } else {
      Numeric.AtLeast(size, n);
      if Reaches(t, raw, size) {
        if k < n { HitsOnce(size, index, k, n); }
      } else if k < n {
        NoHitBefore(t, raw, size, k);
      }
    }
  }

  // ---------------------------------------------------------------- whole loops

  /** The block that the constructor loop was emitted into, up to the loop. */
  lemma ConstructorStarts(code: Code, start: nat, block: nat, reg: nat, array_: nat, count: nat, width: nat, from: nat,
                          size: nat, before: Machine, m: Machine)
    returns (after: Machine)
    requires start in code && m == ExecAll(code[start].insts, from, size, before) && start < block
    requires array_ < reg && count < reg && 0 <= Reg(m, array_) < SPACE
    ensures
      var base, l := Reg(m, array_), Loop(start, block, reg, reg + 1, reg + 2, reg + 3, reg + 4);
      && IsLoop(WithConstructorLoop(code, start, block, reg, array_, count, width), l)
      && Enters(l, start, after, Address(base, size, 0), EndOf(base, size, Signed(width, Reg(m, count))))
      && after.trace == m.trace
    ensures
      var whole := WithConstructorLoop(code, start, block, reg, array_, count, width);
      forall fuel: nat :: Run(whole, start, from, size, before, fuel + 1) == Run(whole, block, start, size, after, fuel)
  {
    hide ExecAll, Signed;
    var whole := WithConstructorLoop(code, start, block, reg, array_, count, width);
    var insts := [First(reg, array_), Gep(reg + 1, reg, count, width)];
    ExecAppended(code[start].insts, insts, from, size, before);
    Both(insts[0], insts[1], from, size, m);
    after := ExecAll(whole[start].insts, from, size, before);
  }

  /** From an element on, the loop calls on every element once, in order, up to the first one at the end's address. */
  lemma LoopHits(code: Code, l: Loop, from: nat, size: nat, m: Machine, base: int, index: int, k: nat)
    requires IsLoop(code, l) && FirstHit(size, index, k)
    requires Enters(l, from, m, Address(base, size, 0), EndOf(base, size, index))
    ensures var r := Run(code, l.block, from, size, m, k);
      r.Some? && r.value.trace == m.trace + Elements(base, size, 0, k)
  {
    hide Run, IsLoop, Enters, Address, EndOf, Hits, Elements;
    forall j: nat | 0 < j <= k ensures Address(base, size, j) == EndOf(base, size, index) <==> j == k {
      SameAddress(base, size, index, j);
    }
    LoopRunsTo(code, l, from, size, m, base, 0, k, EndOf(base, size, index));
  }

  /** The emitted constructor loop, whatever the length: there is no test before the first element. */
  lemma ConstructorHits(code: Code, start: nat, block: nat, reg: nat, array_: nat, count: nat, width: nat, from: nat,
                        size: nat, before: Machine, m: Machine)
    returns (k: nat)
    requires start in code && m == ExecAll(code[start].insts, from, size, before) && start < block
    requires array_ < reg && count < reg && 0 <= Reg(m, array_) < SPACE
    ensures FirstHit(size, Signed(width, Reg(m, count)), k)
    ensures
      var r := Run(WithConstructorLoop(code, start, block, reg, array_, count, width), start, from, size, before,
                   k + 1);
      r.Some? && r.value.trace == m.trace + Elements(Reg(m, array_), size, 0, k)
  {
    hide ExecAll, Address, LoopInsts, Elements, Signed, EndOf, FirstHit, IsLoop, Enters;
    var whole := WithConstructorLoop(code, start, block, reg, array_, count, width);
    var index := Signed(width, Reg(m, count));
    var after := ConstructorStarts(code, start, block, reg, array_, count, width, from, size, before, m);
    k := FindHit(size, index);
    LoopHits(whole, Loop(start, block, reg, reg + 1, reg + 2, reg + 3, reg + 4), start, size, after, Reg(m, array_),
             index, k);
  }

  /**
   The emitted constructor loop constructs exactly the `n` elements of the array, once each and in order, if and only
   if there is one or they have a size, and the length is reached; otherwise, if they have a size, it goes on behind
   the array.
   */
  lemma ConstructorRuns(code: Code, start: nat, block: nat, reg: nat, array_: nat, count: nat, t: Numeric.NumType,
                        from: nat, size: nat, before: Machine, m: Machine, n: nat)
    returns (k: nat)
    requires start in code && m == ExecAll(code[start].insts, from, size, before) && start < block
    requires array_ < reg && count < reg && 0 <= Reg(m, array_) < SPACE
    requires Numeric.IsRaw(t, Reg(m, count)) && n == Numeric.Value(t, Reg(m, count)) && n >= 1 && n * size < SPACE
    ensures
      var whole := WithConstructorLoop(code, start, block, reg, array_, count, t.width);
      var r := Run(whole, start, from, size, before, k + 1);
      && r.Some? && r.value.trace == m.trace + Elements(Reg(m, array_), size, 0, k)
      && (r.value.trace == m.trace + Elements(Reg(m, array_), size, 0, n)
          <==> (size > 0 || n == 1) && Reaches(t, Reg(m, count), size))
    ensures size > 0 ==> k >= n
    ensures k == n <==> (size > 0 || n == 1) && Reaches(t, Reg(m, count), size)
  {
    hide ExecAll, Run, Signed, FirstHit, Reaches;
    k := ConstructorHits(code, start, block, reg, array_, count, t.width, from, size, before, m);
    ExactHit(t, Reg(m, count), size, n, k);
    SameLength(m.trace, Elements(Reg(m, array_), size, 0, k), Elements(Reg(m, array_), size, 0, n));
  }

  lemma SameLength(trace: seq<int>, a: seq<int>, b: seq<int>)
    ensures |a| != |b| ==> trace + a != trace + b
  {
    assert |trace + a| == |trace| + |a| && |trace + b| == |trace| + |b|;
  }

  /** The emitted destructor loop, whatever the length: none if the end has the address of the start. */
  lemma DestructorHits(code: Code, start: nat, block: nat, reg: nat, array_: nat, count: nat, width: nat, from: nat,
                       size: nat, before: Machine, m: Machine)
    returns (k: nat)
    requires start in code && m == ExecAll(code[start].insts, from, size, before) && start < block
    requires array_ < reg && count < reg && 0 <= Reg(m, array_) < SPACE
    ensures
      var index := Signed(width, Reg(m, count));
      if Hits(size, index, 0) then k == 0 else FirstHit(size, index, k)
    ensures
      var r := Run(WithDestructorLoop(code, start, block, reg, array_, count, width), start, from, size, before, k + 1);
      r.Some? && r.value.trace == m.trace + Elements(Reg(m, array_), size, 0, k)
  {
    hide ExecAll, Signed, Hits, FirstHit, Address, EndOf;
    var whole := WithDestructorLoop(code, start, block, reg, array_, count, width);
    var base, index := Reg(m, array_), Signed(width, Reg(m, count));
    var after, next := DestructorStarts(code, start, block, reg, array_, count, width, from, size, before, m);
    SameAddress(base, size, index, 0);
    if Hits(size, index, 0) {
      k := 0;
      Halts(whole, block + 1, start, size, after, 0);
      assert m.trace + [] == m.trace;
    } else {
      k := FindHit(size, index);
      LoopHits(whole, Loop(start, block, reg, reg + 1, reg + 3, reg + 4, reg + 5), start, size, after, base, index, k);
    }
  }

  lemma DestructorStarts(code: Code, start: nat, block: nat, reg: nat, array_: nat, count: nat, width: nat, from: nat,
                         size: nat, before: Machine, m: Machine)
    returns (after: Machine, next: nat)
    requires start in code && m == ExecAll(code[start].insts, from, size, before) && start < block
    requires array_ < reg && count < reg && 0 <= Reg(m, array_) < SPACE
    ensures
      var base, l := Reg(m, array_), Loop(start, block, reg, reg + 1, reg + 3, reg + 4, reg + 5);
      && IsLoop(WithDestructorLoop(code, start, block, reg, array_, count, width), l)
      && Enters(l, start, after, Address(base, size, 0), EndOf(base, size, Signed(width, Reg(m, count))))
      && after.trace == m.trace
    ensures
      var base := Reg(m, array_);
      next == if Address(base, size, 0) == EndOf(base, size, Signed(width, Reg(m, count))) then block + 1 else block
    ensures
      var whole := WithDestructorLoop(code, start, block, reg, array_, count, width);
      forall fuel: nat :: Run(whole, start, from, size, before, fuel + 1) == Run(whole, next, start, size, after, fuel)
  {
    hide ExecAll, Signed;
    var whole := WithDestructorLoop(code, start, block, reg, array_, count, width);
    var insts := [First(reg, array_), Gep(reg + 1, reg, count, width), CmpEq(reg + 2, reg, reg + 1)];
    ExecAppended(code[start].insts, insts, from, size, before);
    assert insts == [insts[0]] + [insts[1], insts[2]];
    ExecFirst(insts[0], [insts[1], insts[2]], from, size, m);
    Both(insts[1], insts[2], from, size, Exec(insts[0], from, size, m));
    after := ExecAll(whole[start].insts, from, size, before);
    next := if Reg(after, reg + 2) != 0 then block + 1 else block;
  }

  /**
   The emitted destructor loop destroys exactly the `n` elements of the array, none if there are none, if and only if
   there are none or they have a size, and the length is reached; otherwise, if they have a size, it goes on behind
   the array.
   */
  lemma DestructorRuns(code: Code, start: nat, block: nat, reg: nat, array_: nat, count: nat, t: Numeric.NumType,
                       from: nat, size: nat, before: Machine, m: Machine, n: nat)
    returns (k: nat)
    requires start in code && m == ExecAll(code[start].insts, from, size, before) && start < block
    requires array_ < reg && count < reg && 0 <= Reg(m, array_) < SPACE
    requires Numeric.IsRaw(t, Reg(m, count)) && n == Numeric.Value(t, Reg(m, count)) && n * size < SPACE
    ensures
      var whole := WithDestructorLoop(code, start, block, reg, array_, count, t.width);
      var r := Run(whole, start, from, size, before, k + 1);
      && r.Some? && r.value.trace == m.trace + Elements(Reg(m, array_), size, 0, k)
      && (r.value.trace == m.trace + Elements(Reg(m, array_), size, 0, n)
          <==> (size > 0 || n == 0) && Reaches(t, Reg(m, count), size))
    ensures size > 0 ==> k >= n
    ensures k == n <==> (size > 0 || n == 0) && Reaches(t, Reg(m, count), size)
  {
    hide ExecAll, Run;
    k := DestructorHits(code, start, block, reg, array_, count, t.width, from, size, before, m);
    ExactDestructions(t, Reg(m, count), size, n, k);
    SameLength(m.trace, Elements(Reg(m, array_), size, 0, k), Elements(Reg(m, array_), size, 0, n));
  }

  lemma ExactDestructions(t: Numeric.NumType, raw: int, size: nat, n: nat, k: nat)
    requires Numeric.IsRaw(t, raw) && n == Numeric.Value(t, raw) && n * size < SPACE
    requires
      var index := Signed(t.width, raw);
      if Hits(size, index, 0) then k == 0 else FirstHit(size, index, k)
    ensures k == n <==> (size > 0 || n == 0) && Reaches(t, raw, size)
    ensures size > 0 ==> k >= n
  {
    var index := Signed(t.width, raw);
    if n == 0 {
      assert Hits(size, index, 0);
    } else if size == 0 {
      assert Hits(size, index, 0);
    } else if Hits(size, index, 0) {
      if Reaches(t, raw, size) {
        assert n - index == if t.unsigned && raw >= Numeric.Pow(t.width) / 2 then Numeric.Pow(t.width) else 0;
        assert Hits(size, index, n);
        HitsOnce(size, index, 0, n);
      } else {
        NoHitBefore(t, raw, size, 0);
      }
    } else {
      ExactHit(t, raw, size, n, k);
    }
  }

  /**
   There is no test before the first element: on an array of length 0 the constructor runs on element
   after element until an address is back at the start, after the whole of memory unless elements have no size.
   */
  lemma ConstructsWithoutElements(code: Code, start: nat, block: nat, reg: nat, array_: nat, count: nat, width: nat,
                                  from: nat, size: nat, before: Machine, m: Machine)
    returns (k: nat)
    requires start in code && m == ExecAll(code[start].insts, from, size, before) && start < block
    requires array_ < reg && count < reg && Reg(m, count) == 0 && 0 <= Reg(m, array_) < SPACE
    ensures 1 <= k <= SPACE && (k * size) % SPACE == 0 && forall j | 0 < j < k :: (j * size) % SPACE != 0
    ensures
      var r := Run(WithConstructorLoop(code, start, block, reg, array_, count, width), start, from, size, before,
                   k + 1);
      r.Some? && r.value.trace == m.trace + Elements(Reg(m, array_), size, 0, k)
    ensures size > 0 ==> k * size >= SPACE
  {
    hide ExecAll, Run, Elements;
    k := ConstructorHits(code, start, block, reg, array_, count, width, from, size, before, m);
    forall j | 0 < j < k ensures (j * size) % SPACE != 0 { assert !Hits(size, 0, j); }
    if size > 0 {
      Positive(k, size);
      PositiveMultiple(k * size);
    }
  }

  lemma PositiveMultiple(x: nat)
    requires x % SPACE == 0 && x > 0
    ensures x >= SPACE
  {
  }
}
