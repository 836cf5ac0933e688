/**
 The control-flow graph that the code generator fills in, and what it does when it runs.

 A function is a sequence of basic blocks.  Blocks hold instructions and at most one
 terminator.  The machine is deterministic: memory, callees and arithmetic are given by a
 `World` that answers every question as a function of the whole history of visible events,
 so one fixed world stands for one fixed program environment.
 */
module Cfg {
  import opened Options

  type Symbol = nat
  type BlockId = nat

  /** The two static types that matter to lowering: a condition is `i1`, all else is not. */
  datatype Ty = TBool | TInt

  /** A local as the program text declares it: `decl` tells the declarations of one name apart. */
  datatype Local = Local(x: Symbol, decl: nat, dtor: bool)

  datatype Event =
    | Called(f: Symbol, args: seq<int>, result: int)
    | Stored(x: Symbol, v: int)
    | Constructed(l: Local, v: int)
    | Destroyed(l: Local)

  type Trace = seq<Event>

  datatype World = World(
    read: (Trace, Symbol) -> int,
    call: (Trace, Symbol, seq<int>) -> int,
    prim: (Symbol, int, int) -> int,
    cmp: (Symbol, int, int) -> bool)

  /** The value an `i1` or a wider integer holds after a cast to type `ty`. */
  function Norm(ty: Ty, v: int): int {
    if ty == TBool then (if v != 0 then 1 else 0) else v
  }

  function Bit(b: bool): int {
    if b then 1 else 0
  }

  datatype Operand = Imm(v: int) | Reg(r: nat)

  /** A local variable and the stack slot that holds it. */
  datatype Var = Var(x: Symbol, decl: nat, slot: nat, dtor: bool)

  function LocalOf(v: Var): Local {
    Local(v.x, v.decl, v.dtor)
  }

  datatype Instr =
    | Load(dst: nat, x: Symbol, ty: Ty)
    | Store(x: Symbol, v: Operand)
    | Call(dst: nat, f: Symbol, args: seq<Operand>, ty: Ty)
    | Prim(dst: nat, op: Symbol, ty: Ty, l: Operand, r: Operand)
    | Cmp(dst: nat, op: Symbol, l: Operand, r: Operand)
    | Cast(dst: nat, v: Operand, ty: Ty)
    | Select(dst: nat, c: Operand, yes: Operand, no: Operand)
    | Phi(dst: nat, incoming: seq<(Operand, BlockId)>)
    | Construct(local: Var, v: Operand)
    | Destroy(local: Var)

  datatype Terminator =
    | Br(to: BlockId)
    | CondBr(c: Operand, yes: BlockId, no: BlockId)
    | SwitchTo(v: Operand, table: seq<(int, BlockId)>, other: BlockId)
    | Ret(value: Option<Operand>)

  datatype Block = Block(instrs: seq<Instr>, term: Option<Terminator>)

  type Graph = seq<Block>

  datatype Config =
    | At(b: BlockId, i: nat, prev: BlockId, regs: map<nat, int>, h: Trace)
    | Halted(v: Option<int>, h: Trace)
    | Stuck(h: Trace)

  function Value(o: Operand, regs: map<nat, int>): int {
    match o
    case Imm(v) => v
    case Reg(r) => if r in regs then regs[r] else 0
  }

  function Values(os: seq<Operand>, regs: map<nat, int>): (vs: seq<int>)
    ensures |vs| == |os|
  {
    if os == [] then [] else Values(os[..|os| - 1], regs) + [Value(os[|os| - 1], regs)]
  }

  /** The operand a phi takes when control came from block `prev`. */
  function Incoming(inc: seq<(Operand, BlockId)>, prev: BlockId): Option<Operand> {
    if inc == [] then None
    else if inc[0].1 == prev then Some(inc[0].0)
    else Incoming(inc[1..], prev)
  }

  function SwitchTarget(table: seq<(int, BlockId)>, other: BlockId, v: int): BlockId {
    if table == [] then other
    else if table[0].0 == v then table[0].1
    else SwitchTarget(table[1..], other, v)
  }

  function Set(c: Config, dst: nat, v: int): Config
    requires c.At?
  {
    c.(i := c.i + 1, regs := c.regs[dst := v])
  }

  function Emit(c: Config, e: Event): Config
    requires c.At?
  {
    c.(i := c.i + 1, h := c.h + [e])
  }

  function Execute(w: World, ins: Instr, c: Config): Config
    requires c.At?
  {
    match ins
    case Load(dst, x, ty) => Set(c, dst, Norm(ty, w.read(c.h, x)))
    case Store(x, v) => Emit(c, Stored(x, Value(v, c.regs)))
    case Call(dst, f, args, ty) =>
      var vs := Values(args, c.regs);
      var r := Norm(ty, w.call(c.h, f, vs));
      Emit(c, Called(f, vs, r)).(regs := c.regs[dst := r])
    case Prim(dst, op, ty, l, r) => Set(c, dst, Norm(ty, w.prim(op, Value(l, c.regs), Value(r, c.regs))))
    case Cmp(dst, op, l, r) => Set(c, dst, Bit(w.cmp(op, Value(l, c.regs), Value(r, c.regs))))
    case Cast(dst, v, ty) => Set(c, dst, Norm(ty, Value(v, c.regs)))
    case Select(dst, p, t, f) =>
      Set(c, dst, if Value(p, c.regs) != 0 then Value(t, c.regs) else Value(f, c.regs))
    case Phi(dst, inc) =>
      (match Incoming(inc, c.prev)
       case None => Stuck(c.h)
       case Some(o) => Set(c, dst, Value(o, c.regs)))
    case Construct(l, v) => Emit(c, Constructed(LocalOf(l), Value(v, c.regs)))
    case Destroy(l) => Emit(c, Destroyed(LocalOf(l)))
  }

  function Goto(c: Config, to: BlockId): Config
    requires c.At?
  {
    At(to, 0, c.b, c.regs, c.h)
  }

  function Leave(t: Terminator, c: Config): Config
    requires c.At?
  {
    match t
    case Br(to) => Goto(c, to)
    case CondBr(p, yes, no) => Goto(c, if Value(p, c.regs) != 0 then yes else no)
    case SwitchTo(v, table, other) => Goto(c, SwitchTarget(table, other, Value(v, c.regs)))
    case Ret(v) => Halted(if v.Some? then Some(Value(v.value, c.regs)) else None, c.h)
  }

  function Step(g: Graph, w: World, c: Config): Config {
    if !c.At? then c
    else if c.b >= |g| then Stuck(c.h)
    else if c.i < |g[c.b].instrs| then Execute(w, g[c.b].instrs[c.i], c)
    else if c.i == |g[c.b].instrs| && g[c.b].term.Some? then Leave(g[c.b].term.value, c)
    else Stuck(c.h)
  }

  function Steps(g: Graph, w: World, c: Config, n: nat): Config
    decreases n
  {
    if n == 0 then c else Steps(g, w, Step(g, w, c), n - 1)
  }

  function Start(): Config {
    At(0, 0, 0, map[], [])
  }

  /** The run from the entry stops in `c`. */
  ghost predicate Stops(g: Graph, w: World, c: Config) {
    exists n: nat :: Steps(g, w, Start(), n) == c
  }

  /** The blocks a terminator can transfer control to. */
  function Successors(t: Terminator): set<BlockId> {
    match t
    case Br(to) => {to}
    case CondBr(_, yes, no) => {yes, no}
    case SwitchTo(_, table, other) => (set e | e in table :: e.1) + {other}
    case Ret(_) => {}
  }

  lemma {:induction false} StepsAdd(g: Graph, w: World, c: Config, m: nat, n: nat)
    ensures Steps(g, w, c, m + n) == Steps(g, w, Steps(g, w, c, m), n)
    decreases m
  {
    if m > 0 {
      StepsAdd(g, w, Step(g, w, c), m - 1, n);
    }
  }

  lemma {:induction false} StaysStopped(g: Graph, w: World, c: Config, n: nat)
    requires !c.At?
    ensures Steps(g, w, c, n) == c
  {
    if n > 0 {
      StaysStopped(g, w, c, n - 1);
    }
  }

  /** The machine is deterministic: it can stop in one configuration only. */
  lemma StopsOnce(g: Graph, w: World, c: Config, m: nat, n: nat)
    requires !Steps(g, w, c, m).At? && !Steps(g, w, c, n).At?
    ensures Steps(g, w, c, m) == Steps(g, w, c, n)
  {
    if m <= n {
      StepsAdd(g, w, c, m, n - m);
      StaysStopped(g, w, Steps(g, w, c, m), n - m);
    } else {
      StepsAdd(g, w, c, n, m - n);
      StaysStopped(g, w, Steps(g, w, c, n), m - n);
    }
  }
}
