/**
 Where the code of a construct lies in a graph.

 Each `...Code` function follows, in a finished graph, the code of one construct from the
 point where it starts, and gives the point where it ends.  It gives `None` when the graph
 holds something else there.  Blocks, registers and stack slots are numbered in the order they
 are handed out, so the counters `Ctr` at the start determine all the numbers.
 */
module Layout {
  import opened Options
  import opened Cfg
  import opened Source

  datatype Point = Point(b: BlockId, i: nat)

  /** The next unused block, register and stack slot. */
  datatype Ctr = Ctr(block: nat, reg: nat, slot: nat)

  datatype RValue = RValue(op: Operand, ty: Ty)

  /** A block that jumps may go to, with the number of scopes that stay open there. */
  datatype Target = Target(b: BlockId, level: nat)

  datatype Env = Env(brk: seq<Target>, cont: seq<Target>, redo: seq<Target>, result: Returns)

  datatype ExpEnd = ExpEnd(p: Point, rv: RValue, c: Ctr)
  datatype ArgsEnd = ArgsEnd(p: Point, ops: seq<Operand>, c: Ctr)
  datatype StmtEnd = StmtEnd(p: Point, scopes: seq<seq<Var>>, c: Ctr)
  datatype CasesEnd = CasesEnd(starts: seq<BlockId>, next: BlockId, c: Ctr)

  function RulesOf(env: Env): Rules {
    Rules(Depth(|env.brk|, |env.cont|, |env.redo|), env.result, AsEmitted)
  }

  function TargetsOf(env: Env, k: Jump): (ts: seq<Target>)
    ensures |ts| == DepthOf(RulesOf(env).depth, k)
  {
    match k
    case Break => env.brk
    case Continue => env.cont
    case Redo => env.redo
  }

  /** All targets lie among the `depth` outermost scopes. */
  ghost predicate EnvOk(env: Env, depth: nat) {
    && (forall t: Target | t in env.brk :: t.level <= depth)
    && (forall t: Target | t in env.cont :: t.level <= depth)
    && (forall t: Target | t in env.redo :: t.level <= depth)
  }

  predicate InstrAt(g: Graph, p: Point, ins: Instr) {
    p.b < |g| && p.i < |g[p.b].instrs| && g[p.b].instrs[p.i] == ins
  }

  predicate TermAt(g: Graph, p: Point, t: Terminator) {
    p.b < |g| && p.i == |g[p.b].instrs| && g[p.b].term == Some(t)
  }

  function Then(g: Graph, p: Point, ins: Instr): Option<Point> {
    if InstrAt(g, p, ins) then Some(Point(p.b, p.i + 1)) else None
  }

  function Ends(g: Graph, p: Point, t: Terminator): Option<Terminator> {
    if TermAt(g, p, t) then Some(t) else None
  }

  /** `p`, with counters `d`, is where code can end that started at `a` with counters `c`. */
  predicate Within(a: Point, c: Ctr, p: Point, d: Ctr) {
    && c.block <= d.block
    && c.reg <= d.reg
    && c.slot <= d.slot
    && ((p.b == a.b && a.i <= p.i) || c.block <= p.b < d.block)
  }

  predicate Below(o: Operand, reg: nat) {
    o.Reg? ==> o.r < reg
  }

  // ---------------------------------------------------------------- expressions

  function CastCode(g: Graph, rv: RValue, ty: Ty, a: Point, c: Ctr): (r: Option<ExpEnd>)
    requires a.b < c.block
    requires Below(rv.op, c.reg)
    ensures r.Some? ==> Within(a, c, r.value.p, r.value.c) && r.value.rv.ty == ty && Below(r.value.rv.op, r.value.c.reg)
    ensures r.Some? ==> r.value.p.b == a.b
  {
    if rv.ty == ty then Some(ExpEnd(a, rv, c))
    else
      var p :- Then(g, a, Instr.Cast(c.reg, rv.op, ty));
      Some(ExpEnd(p, RValue(Reg(c.reg), ty), c.(reg := c.reg + 1)))
  }

  /** Two operands brought to their common type, then `l op r`. */
  function PrimCode(g: Graph, op: Symbol, l: RValue, r: RValue, a: Point, c: Ctr): (res: Option<ExpEnd>)
    requires a.b < c.block
    requires Below(l.op, c.reg) && Below(r.op, c.reg)
    ensures res.Some? ==> Within(a, c, res.value.p, res.value.c) && Below(res.value.rv.op, res.value.c.reg)
    ensures res.Some? ==> res.value.rv.ty == Common(l.ty, r.ty)
    ensures res.Some? ==> res.value.p.b == a.b
  {
    var ty := Common(l.ty, r.ty);
    var l1 :- CastCode(g, l, ty, a, c);
    var r1 :- CastCode(g, r, ty, l1.p, l1.c);
    var p :- Then(g, r1.p, Instr.Prim(r1.c.reg, op, ty, l1.rv.op, r1.rv.op));
    Some(ExpEnd(p, RValue(Reg(r1.c.reg), ty), r1.c.(reg := r1.c.reg + 1)))
  }

  function CmpCode(g: Graph, op: Symbol, l: RValue, r: RValue, a: Point, c: Ctr): (res: Option<ExpEnd>)
    requires a.b < c.block
    requires Below(l.op, c.reg) && Below(r.op, c.reg)
    ensures res.Some? ==> Within(a, c, res.value.p, res.value.c) && Below(res.value.rv.op, res.value.c.reg)
    ensures res.Some? ==> res.value.rv.ty == TBool
    ensures res.Some? ==> res.value.p.b == a.b
  {
    var ty := Common(l.ty, r.ty);
    var l1 :- CastCode(g, l, ty, a, c);
    var r1 :- CastCode(g, r, ty, l1.p, l1.c);
    var p :- Then(g, r1.p, Instr.Cmp(r1.c.reg, op, l1.rv.op, r1.rv.op));
    Some(ExpEnd(p, RValue(Reg(r1.c.reg), TBool), r1.c.(reg := r1.c.reg + 1)))
  }

  function LoadCode(g: Graph, x: Symbol, ty: Ty, a: Point, c: Ctr): (res: Option<ExpEnd>)
    requires a.b < c.block
    ensures res.Some? ==> Within(a, c, res.value.p, res.value.c) && Below(res.value.rv.op, res.value.c.reg)
    ensures res.Some? ==> res.value.rv.ty == ty
    ensures res.Some? ==> res.value.p.b == a.b
  {
    var p :- Then(g, a, Load(c.reg, x, ty));
    Some(ExpEnd(p, RValue(Reg(c.reg), ty), c.(reg := c.reg + 1)))
  }

  function ExpCode(g: Graph, e: Exp, a: Point, c: Ctr): (res: Option<ExpEnd>)
    requires a.b < c.block
    ensures res.Some? ==> Within(a, c, res.value.p, res.value.c)
    ensures res.Some? ==> Below(res.value.rv.op, res.value.c.reg) && res.value.rv.ty == TypeOf(e)
    decreases e, 2
  {
    match e
    case Const(v, ty) => Some(ExpEnd(a, RValue(Imm(Norm(ty, v)), ty), c))
    case Read(x, ty) => LoadCode(g, x, ty, a, c)
    case Invoke(_, _, _) => InvokeCode(g, e, a, c)
    case Binary(_, _, _) => BinaryCode(g, e, a, c)
    case Compare(_, _, _) => CompareCode(g, e, a, c)
    case And(_, _) => LogicalCode(g, e, a, c)
    case Or(_, _) => LogicalCode(g, e, a, c)
    case Cond(_, yes, no) =>
      if TypeOf(yes) != TypeOf(no) then None
      else if Complex(yes) || Complex(no) then BranchingCode(g, e, a, c)
      else SelectCode(g, e, a, c)
    case Coalesce(_, _) => CoalesceCode(g, e, a, c)
    case Assign(_, _, _, _) => AssignCode(g, e, a, c)
  }

  function InvokeCode(g: Graph, e: Exp, a: Point, c: Ctr): (res: Option<ExpEnd>)
    requires e.Invoke?
    requires a.b < c.block
    ensures res.Some? ==> Within(a, c, res.value.p, res.value.c)
    ensures res.Some? ==> Below(res.value.rv.op, res.value.c.reg) && res.value.rv.ty == e.ty
    decreases e, 0
  {
    var m :- ArgsCode(g, e.args, a, c);
    var p :- Then(g, m.p, Instr.Call(m.c.reg, e.f, m.ops, e.ty));
    Some(ExpEnd(p, RValue(Reg(m.c.reg), e.ty), m.c.(reg := m.c.reg + 1)))
  }

  function BinaryCode(g: Graph, e: Exp, a: Point, c: Ctr): (res: Option<ExpEnd>)
    requires e.Binary?
    requires a.b < c.block
    ensures res.Some? ==> Within(a, c, res.value.p, res.value.c)
    ensures res.Some? ==> Below(res.value.rv.op, res.value.c.reg) && res.value.rv.ty == TypeOf(e)
    decreases e, 0
  {
    var m :- ExpCode(g, e.l, a, c);
    var n :- ExpCode(g, e.r, m.p, m.c);
    PrimCode(g, e.op, m.rv, n.rv, n.p, n.c)
  }

  function CompareCode(g: Graph, e: Exp, a: Point, c: Ctr): (res: Option<ExpEnd>)
    requires e.Compare?
    requires a.b < c.block
    ensures res.Some? ==> Within(a, c, res.value.p, res.value.c)
    ensures res.Some? ==> Below(res.value.rv.op, res.value.c.reg) && res.value.rv.ty == TBool
    decreases e, 0
  {
    var m :- ExpCode(g, e.l, a, c);
    var n :- ExpCode(g, e.r, m.p, m.c);
    CmpCode(g, e.op, m.rv, n.rv, n.p, n.c)
  }

  function AssignCode(g: Graph, e: Exp, a: Point, c: Ctr): (res: Option<ExpEnd>)
    requires e.Assign?
    requires a.b < c.block
    ensures res.Some? ==> Within(a, c, res.value.p, res.value.c)
    ensures res.Some? ==> Below(res.value.rv.op, res.value.c.reg) && res.value.rv.ty == e.ty
    decreases e, 0
  {
    var m :- ExpCode(g, e.rhs, a, c);
    match e.update
    case None => StoreCode(g, e.x, e.ty, m)
    case Some(op) =>
      var u :- UpdateCode(g, e.x, e.ty, op, m);
      StoreCode(g, e.x, e.ty, u)
  }

  /** Casts a value to the variable's type and stores it. */
  function StoreCode(g: Graph, x: Symbol, ty: Ty, m: ExpEnd): (res: Option<ExpEnd>)
    requires m.p.b < m.c.block && Below(m.rv.op, m.c.reg)
    ensures res.Some? ==> Within(m.p, m.c, res.value.p, res.value.c)
    ensures res.Some? ==> Below(res.value.rv.op, res.value.c.reg) && res.value.rv.ty == ty
    ensures res.Some? ==> res.value.p.b == m.p.b
  {
    var n :- CastCode(g, m.rv, ty, m.p, m.c);
    var p :- Then(g, n.p, Store(x, n.rv.op));
    Some(ExpEnd(p, n.rv, n.c))
  }

  /** `x op rhs`, where the variable is loaded after the right-hand side has been evaluated. */
  function UpdateCode(g: Graph, x: Symbol, ty: Ty, op: Symbol, m: ExpEnd): (res: Option<ExpEnd>)
    requires m.p.b < m.c.block && Below(m.rv.op, m.c.reg)
    ensures res.Some? ==> Within(m.p, m.c, res.value.p, res.value.c) && Below(res.value.rv.op, res.value.c.reg)
    ensures res.Some? ==> res.value.p.b == m.p.b
    ensures res.Some? ==> res.value.rv.ty == Common(ty, m.rv.ty)
  {
    var l :- LoadCode(g, x, ty, m.p, m.c);
    PrimCode(g, op, l.rv, m.rv, l.p, l.c)
  }

  function ArgsCode(g: Graph, es: seq<Exp>, a: Point, c: Ctr): (res: Option<ArgsEnd>)
    requires a.b < c.block
    ensures res.Some? ==> Within(a, c, res.value.p, res.value.c)
    ensures res.Some? ==> |res.value.ops| == |es| && forall o | o in res.value.ops :: Below(o, res.value.c.reg)
    decreases es, 0
  {
    if es == [] then Some(ArgsEnd(a, [], c))
    else
      var n := |es| - 1;
      var m :- ArgsCode(g, es[..n], a, c);
      var l :- ExpCode(g, es[n], m.p, m.c);
      Some(ArgsEnd(l.p, m.ops + [l.rv.op], l.c))
  }

  /** An expression tested as `i1`. */
  function BoolCode(g: Graph, e: Exp, a: Point, c: Ctr): (res: Option<ExpEnd>)
    requires a.b < c.block
    ensures res.Some? ==> Within(a, c, res.value.p, res.value.c)
    ensures res.Some? ==> Below(res.value.rv.op, res.value.c.reg) && res.value.rv.ty == TBool
    decreases e, 3
  {
    var m :- ExpCode(g, e, a, c);
    CastCode(g, m.rv, TBool, m.p, m.c)
  }

  /** A test that goes to block `yes` or block `no`. */
  function BranchCode(g: Graph, e: Exp, yes: BlockId, no: BlockId, a: Point, c: Ctr): (res: Option<ExpEnd>)
    requires a.b < c.block
    ensures res.Some? ==> Within(a, c, res.value.p, res.value.c)
    ensures res.Some? ==> Below(res.value.rv.op, res.value.c.reg) && res.value.rv.ty == TBool
    decreases e, 4
  {
    var m :- BoolCode(g, e, a, c);
    var _ :- Ends(g, m.p, CondBr(m.rv.op, yes, no));
    Some(m)
  }

  /** An expression in a block of its own, `start`, followed by a branch to `end`. */
  function ArmCode(g: Graph, e: Exp, start: BlockId, end: BlockId, c: Ctr): (res: Option<ExpEnd>)
    requires start < c.block
    ensures res.Some? ==> Within(Point(start, 0), c, res.value.p, res.value.c)
    ensures res.Some? ==> Below(res.value.rv.op, res.value.c.reg) && res.value.rv.ty == TypeOf(e)
    decreases e, 4
  {
    var m :- ExpCode(g, e, Point(start, 0), c);
    var _ :- Ends(g, m.p, Br(end));
    Some(m)
  }

  function BoolArmCode(g: Graph, e: Exp, start: BlockId, end: BlockId, c: Ctr): (res: Option<ExpEnd>)
    requires start < c.block
    ensures res.Some? ==> Within(Point(start, 0), c, res.value.p, res.value.c)
    ensures res.Some? ==> Below(res.value.rv.op, res.value.c.reg) && res.value.rv.ty == TBool
    decreases e, 4
  {
    var m :- BoolCode(g, e, Point(start, 0), c);
    var _ :- Ends(g, m.p, Br(end));
    Some(m)
  }

  /** The phi at the start of block `end` that joins two values, each with the block it comes from. */
  function PhiCode(g: Graph, end: BlockId, l: Operand, lb: BlockId, r: Operand, rb: BlockId, ty: Ty,
                   c: Ctr): (res: Option<ExpEnd>)
    ensures res.Some? ==> res.value.p == Point(end, 1) && res.value.c == c.(reg := c.reg + 1)
    ensures res.Some? ==> res.value.rv == RValue(Reg(c.reg), ty)
  {
    var p :- Then(g, Point(end, 0), Phi(c.reg, [(l, lb), (r, rb)]));
    Some(ExpEnd(p, RValue(Reg(c.reg), ty), c.(reg := c.reg + 1)))
  }

  function PickCode(g: Graph, t: Operand, y: RValue, n: Operand, a: Point, c: Ctr): (res: Option<ExpEnd>)
    ensures res.Some? ==> res.value.p == Point(a.b, a.i + 1) && res.value.c == c.(reg := c.reg + 1)
    ensures res.Some? ==> res.value.rv == RValue(Reg(c.reg), y.ty)
  {
    var p :- Then(g, a, Instr.Select(c.reg, t, y.op, n));
    Some(ExpEnd(p, RValue(Reg(c.reg), y.ty), c.(reg := c.reg + 1)))
  }

  /** `&&` and `||`: the right operand has a block of its own, and a phi joins the two results. */
  function LogicalCode(g: Graph, e: Exp, a: Point, c: Ctr): (res: Option<ExpEnd>)
    requires e.And? || e.Or?
    requires a.b < c.block
    ensures res.Some? ==> Within(a, c, res.value.p, res.value.c)
    ensures res.Some? ==> Below(res.value.rv.op, res.value.c.reg) && res.value.rv.ty == TBool
    decreases e, 0
  {
    var first, second := c.block, c.block + 1;
    var yes, no := if e.And? then first else second, if e.And? then second else first;
    var l :- BranchCode(g, e.l, yes, no, a, c.(block := c.block + 2));
    var r :- BoolArmCode(g, e.r, first, second, l.c);
    PhiCode(g, second, l.rv.op, l.p.b, r.rv.op, r.p.b, TBool, r.c)
  }

  function BranchingCode(g: Graph, e: Exp, a: Point, c: Ctr): (res: Option<ExpEnd>)
    requires e.Cond? && TypeOf(e.yes) == TypeOf(e.no)
    requires a.b < c.block
    ensures res.Some? ==> Within(a, c, res.value.p, res.value.c)
    ensures res.Some? ==> Below(res.value.rv.op, res.value.c.reg) && res.value.rv.ty == TypeOf(e)
    decreases e, 1
  {
    var t :- BoolCode(g, e.c, a, c);
    var yes, no, end := t.c.block, t.c.block + 1, t.c.block + 2;
    var _ :- Ends(g, t.p, CondBr(t.rv.op, yes, no));
    ArmsCode(g, e, yes, no, end, t.c.(block := t.c.block + 3))
  }

  /** The two arms of `?:`, each in a block of its own, joined by a phi. */
  function ArmsCode(g: Graph, e: Exp, yes: BlockId, no: BlockId, end: BlockId, c: Ctr): (res: Option<ExpEnd>)
    requires e.Cond? && TypeOf(e.yes) == TypeOf(e.no)
    requires yes < c.block && no < c.block
    ensures res.Some? ==> res.value.p == Point(end, 1) && c.block <= res.value.c.block
    ensures res.Some? ==> c.reg <= res.value.c.reg && c.slot <= res.value.c.slot
    ensures res.Some? ==> Below(res.value.rv.op, res.value.c.reg) && res.value.rv.ty == TypeOf(e)
    decreases e, 0
  {
    var y :- ArmCode(g, e.yes, yes, end, c);
    var n :- ArmCode(g, e.no, no, end, y.c);
    PhiCode(g, end, y.rv.op, y.p.b, n.rv.op, n.p.b, y.rv.ty, n.c)
  }

  function SelectCode(g: Graph, e: Exp, a: Point, c: Ctr): (res: Option<ExpEnd>)
    requires e.Cond? && TypeOf(e.yes) == TypeOf(e.no)
    requires a.b < c.block
    ensures res.Some? ==> Within(a, c, res.value.p, res.value.c)
    ensures res.Some? ==> Below(res.value.rv.op, res.value.c.reg) && res.value.rv.ty == TypeOf(e)
    decreases e, 0
  {
    var t :- BoolCode(g, e.c, a, c);
    var y :- ExpCode(g, e.yes, t.p, t.c);
    var n :- ExpCode(g, e.no, y.p, y.c);
    PickCode(g, t.rv.op, y.rv, n.rv.op, n.p, n.c)
  }

  function CoalesceCode(g: Graph, e: Exp, a: Point, c: Ctr): (res: Option<ExpEnd>)
    requires e.Coalesce?
    requires a.b < c.block
    ensures res.Some? ==> Within(a, c, res.value.p, res.value.c)
    ensures res.Some? ==> Below(res.value.rv.op, res.value.c.reg) && res.value.rv.ty == TypeOf(e)
    decreases e, 1
  {
    if TypeOf(e.l) != TypeOf(e.r) then None
    else
      var l :- ExpCode(g, e.l, a, c);
      var t :- CastCode(g, l.rv, TBool, l.p, l.c);
      if Complex(e.r) then FallbackCode(g, e, l, t)
      else
        var r :- ExpCode(g, e.r, t.p, t.c);
        PickCode(g, t.rv.op, l.rv, r.rv.op, r.p, r.c)
  }

  /** The complex right operand of `??`, evaluated only when the left one, `l`, tests false. */
  function FallbackCode(g: Graph, e: Exp, l: ExpEnd, t: ExpEnd): (res: Option<ExpEnd>)
    requires e.Coalesce? && TypeOf(e.r) == l.rv.ty
    requires t.p.b < t.c.block && Below(l.rv.op, t.c.reg)
    ensures res.Some? ==> Within(t.p, t.c, res.value.p, res.value.c)
    ensures res.Some? ==> Below(res.value.rv.op, res.value.c.reg) && res.value.rv.ty == l.rv.ty
    decreases e, 0
  {
    var no, end := t.c.block, t.c.block + 1;
    var _ :- Ends(g, t.p, CondBr(t.rv.op, end, no));
    var r :- ArmCode(g, e.r, no, end, t.c.(block := t.c.block + 2));
    PhiCode(g, end, l.rv.op, t.p.b, r.rv.op, r.p.b, l.rv.ty, r.c)
  }

  /** A condition, tested as `i1`, that goes to `yes` or `no`; a missing one is the constant true. */
  function CondCode(g: Graph, e: Option<Exp>, yes: BlockId, no: BlockId, a: Point, c: Ctr): (res: Option<ExpEnd>)
    requires a.b < c.block
    ensures res.Some? ==> Within(a, c, res.value.p, res.value.c)
    ensures res.Some? ==> Below(res.value.rv.op, res.value.c.reg) && res.value.rv.ty == TBool
  {
    match e
    case None =>
      var _ :- Ends(g, a, CondBr(Imm(1), yes, no));
      Some(ExpEnd(a, RValue(Imm(1), TBool), c))
    case Some(test) => BranchCode(g, test, yes, no, a, c)
  }

  // ---------------------------------------------------------------- scopes

  function Flat(scopes: seq<seq<Var>>): seq<Var> {
    if scopes == [] then [] else Flat(scopes[..|scopes| - 1]) + scopes[|scopes| - 1]
  }

  /** Destructor calls for `vars`, last first, leaving out the one in stack slot `keep`. */
  function DtorsCode(g: Graph, vars: seq<Var>, keep: Option<nat>, a: Point): (res: Option<Point>)
    ensures res.Some? ==> res.value.b == a.b && a.i <= res.value.i
  {
    if vars == [] then Some(a)
    else
      var p :- DtorsCode(g, vars[1..], keep, a);
      if vars[0].dtor && Some(vars[0].slot) != keep then Then(g, p, Destroy(vars[0])) else Some(p)
  }

  function SlotIn(scope: seq<Var>, x: Symbol): Option<nat> {
    if scope == [] then None
    else if scope[|scope| - 1].x == x then Some(scope[|scope| - 1].slot)
    else SlotIn(scope[..|scope| - 1], x)
  }

  /** The stack slot of the innermost local named `x`. */
  function SlotOf(scopes: seq<seq<Var>>, x: Symbol): Option<nat> {
    if scopes == [] then None
    else
      var n := |scopes| - 1;
      var s := SlotIn(scopes[n], x);
      if s.Some? then s else SlotOf(scopes[..n], x)
  }

  function Names(scope: seq<Var>): set<Symbol> {
    set v | v in scope :: v.x
  }

  function Top(scopes: seq<seq<Var>>): seq<Var>
    requires scopes != []
  {
    scopes[|scopes| - 1]
  }

  function Pop(scopes: seq<seq<Var>>): seq<seq<Var>>
    requires scopes != []
  {
    scopes[..|scopes| - 1]
  }

  // ---------------------------------------------------------------- statements

  /** What holds of the end of a statement's code: only the innermost scope may have grown. */
  predicate StmtWithin(a: Point, c: Ctr, scopes: seq<seq<Var>>, m: StmtEnd) {
    && Within(a, c, m.p, m.c)
    && scopes != []
    && |m.scopes| == |scopes|
    && Pop(m.scopes) == Pop(scopes)
    && Top(scopes) <= Top(m.scopes)
  }

  /** `x ??= rhs`: the right-hand side is evaluated and stored only when `x` tests false. */
  function CoalesceToCode(g: Graph, p: Plain, scopes: seq<seq<Var>>, a: Point, c: Ctr): (res: Option<StmtEnd>)
    requires p.CoalesceTo?
    requires a.b < c.block && scopes != []
    ensures res.Some? ==> StmtWithin(a, c, scopes, res.value) && res.value.scopes == scopes
  {
    var t :- BoolCode(g, Read(p.x, p.ty), a, c);
    var no, end := t.c.block, t.c.block + 1;
    var _ :- Ends(g, t.p, CondBr(t.rv.op, end, no));
    var m :- ArmCode(g, Assign(p.x, p.ty, None, p.rhs), no, end, t.c.(block := t.c.block + 2));
    Some(StmtEnd(Point(end, 0), scopes, m.c))
  }

  function PlainCode(g: Graph, p: Plain, scopes: seq<seq<Var>>, a: Point, c: Ctr): (res: Option<StmtEnd>)
    requires a.b < c.block && scopes != []
    ensures res.Some? ==> StmtWithin(a, c, scopes, res.value)
    decreases p, 1
  {
    match p
    case Do(e) =>
      var m :- ExpCode(g, e, a, c);
      Some(StmtEnd(m.p, scopes, m.c))
    case CoalesceTo(_, _, _) => CoalesceToCode(g, p, scopes, a, c)
    case Declare(x, decl, dtor, init) =>
      if x in Names(Top(scopes)) then None
      else
        var m :- ExpCode(g, init, a, c);
        var v := Var(x, decl, m.c.slot, dtor);
        var q :- Then(g, m.p, Construct(v, m.rv.op));
        var scopes1 := Pop(scopes) + [Top(scopes) + [v]];
        Some(StmtEnd(q, scopes1, m.c.(slot := m.c.slot + 1)))
    case Group(ps) => PlainsCode(g, ps, scopes, a, c)
  }

  function PlainsCode(g: Graph, ps: seq<Plain>, scopes: seq<seq<Var>>, a: Point, c: Ctr): (res: Option<StmtEnd>)
    requires a.b < c.block && scopes != []
    ensures res.Some? ==> StmtWithin(a, c, scopes, res.value)
    decreases ps, 0
  {
    if ps == [] then Some(StmtEnd(a, scopes, c))
    else
      var n := |ps| - 1;
      var m :- PlainsCode(g, ps[..n], scopes, a, c);
      PlainCode(g, ps[n], m.scopes, m.p, m.c)
  }

  function ReturnCode(g: Graph, v: RetVal, env: Env, scopes: seq<seq<Var>>, a: Point, c: Ctr): (res: Option<StmtEnd>)
    requires a.b < c.block && scopes != []
    ensures res.Some? ==> StmtWithin(a, c, scopes, res.value)
    ensures res.Some? ==> res.value.scopes == scopes && res.value.p.i == 0
  {
    if !ReturnFits(v, env.result) then None
    else
      match v
      case NoValue => ReturnTail(g, None, None, scopes, a, c)
      case Scalar(e) =>
        var m :- ExpCode(g, e, a, c);
        var n :- CastCode(g, m.rv, env.result.ty, m.p, m.c);
        ReturnTail(g, Some(n.rv.op), None, scopes, n.p, n.c)
      case Object(x, _, _) =>
        var m :- LoadCode(g, x, TInt, a, c);
        ReturnTail(g, Some(m.rv.op), SlotOf(scopes, x), scopes, m.p, m.c)
  }

  function ReturnTail(g: Graph, v: Option<Operand>, keep: Option<nat>, scopes: seq<seq<Var>>, a: Point,
                      c: Ctr): (res: Option<StmtEnd>)
    requires a.b < c.block && scopes != []
    ensures res.Some? ==> StmtWithin(a, c, scopes, res.value)
    ensures res.Some? ==> res.value.scopes == scopes && res.value.p.i == 0
  {
    var p :- DtorsCode(g, Flat(scopes), keep, a);
    var _ :- Ends(g, p, Ret(v));
    Some(StmtEnd(Point(c.block, 0), scopes, c.(block := c.block + 1)))
  }

  function JumpCode(g: Graph, t: Target, scopes: seq<seq<Var>>, a: Point, c: Ctr): (res: Option<StmtEnd>)
    requires a.b < c.block && scopes != []
    ensures res.Some? ==> StmtWithin(a, c, scopes, res.value)
    ensures res.Some? ==> res.value.scopes == scopes && res.value.p.i == 0
  {
    if t.level > |scopes| then None
    else
      var p :- DtorsCode(g, Flat(scopes[t.level..]), None, a);
      var _ :- Ends(g, p, Br(t.b));
      Some(StmtEnd(Point(c.block, 0), scopes, c.(block := c.block + 1)))
  }

  predicate EndsInJump(body: seq<Stmt>) {
    body != [] && (body[|body| - 1].Return? || body[|body| - 1].Branch?)
  }

  function LoopEnv(env: Env, scopes: nat, c: Ctr): Env {
    env.(cont := env.cont + [Target(c.block, scopes)], brk := env.brk + [Target(c.block + 1, scopes)])
  }

  function WhileEnv(env: Env, scopes: nat, c: Ctr): Env {
    env.(cont := env.cont + [Target(c.block, scopes)],
         redo := env.redo + [Target(c.block + 1, scopes)],
         brk := env.brk + [Target(c.block + 2, scopes)])
  }

  function ForEnv(env: Env, scopes: nat, c: Ctr): Env {
    env.(redo := env.redo + [Target(c.block + 1, scopes)],
         cont := env.cont + [Target(c.block + 2, scopes)],
         brk := env.brk + [Target(c.block + 3, scopes)])
  }

  function SwitchEnv(env: Env, scopes: nat, end: BlockId): Env {
    env.(brk := env.brk + [Target(end, scopes)])
  }

  function StmtCode(g: Graph, s: Stmt, env: Env, scopes: seq<seq<Var>>, a: Point, c: Ctr): (res: Option<StmtEnd>)
    requires a.b < c.block && scopes != []
    ensures res.Some? ==> StmtWithin(a, c, scopes, res.value)
    ensures res.Some? && !s.Basic? ==> res.value.scopes == scopes
    ensures res.Some? && (s.Return? || s.Branch?) ==> res.value.p.i == 0
    decreases s, 2
  {
    match s
    case Basic(p) => PlainCode(g, p, scopes, a, c)
    case Return(v) => ReturnCode(g, v, env, scopes, a, c)
    case Branch(k, level) =>
      var n :- Resolve(DepthOf(RulesOf(env).depth, k), level);
      var ts := TargetsOf(env, k);
      JumpCode(g, ts[|ts| - n], scopes, a, c)
    case Loop(_) => LoopCode(g, s, env, scopes, a, c)
    case While(_, _, _, _) => WhileCode(g, s, env, scopes, a, c)
    case Switch(_, _) => SwitchCode(g, s, env, scopes, a, c)
    case For(_, _, _, _) => ForCode(g, s, env, scopes, a, c)
    case If(_, _, _) => IfCode(g, s, env, scopes, a, c)
  }

  function ListCode(g: Graph, ss: seq<Stmt>, env: Env, scopes: seq<seq<Var>>, a: Point, c: Ctr): (res: Option<StmtEnd>)
    requires a.b < c.block && scopes != []
    ensures res.Some? ==> StmtWithin(a, c, scopes, res.value)
    ensures res.Some? && EndsInJump(ss) ==> res.value.p.i == 0
    decreases ss, 0
  {
    if ss == [] then Some(StmtEnd(a, scopes, c))
    else
      var n := |ss| - 1;
      var m :- ListCode(g, ss[..n], env, scopes, a, c);
      StmtCode(g, ss[n], env, m.scopes, m.p, m.c)
  }

  /** A statement list in a scope of its own, destroyed at the end. */
  function BodyCode(g: Graph, ss: seq<Stmt>, env: Env, scopes: seq<seq<Var>>, a: Point, c: Ctr): (res: Option<StmtEnd>)
    requires a.b < c.block && scopes != []
    ensures res.Some? ==> StmtWithin(a, c, scopes, res.value) && res.value.scopes == scopes
    decreases ss, 1
  {
    var l :- ListCode(g, ss, env, scopes + [[]], a, c);
    var p :- DtorsCode(g, Top(l.scopes), None, l.p);
    assert Pop(scopes + [[]]) == scopes;
    Some(StmtEnd(p, scopes, l.c))
  }

  /** A body followed by a branch to block `to`. */
  function BodyTo(g: Graph, ss: seq<Stmt>, env: Env, scopes: seq<seq<Var>>, start: BlockId, to: BlockId,
                  c: Ctr): (res: Option<Ctr>)
    requires start < c.block && scopes != []
    ensures res.Some? ==> c.block <= res.value.block && c.reg <= res.value.reg && c.slot <= res.value.slot
    decreases ss, 2
  {
    var m :- BodyCode(g, ss, env, scopes, Point(start, 0), c);
    var _ :- Ends(g, m.p, Br(to));
    Some(m.c)
  }

  function LoopCode(g: Graph, s: Stmt, env: Env, scopes: seq<seq<Var>>, a: Point, c: Ctr): (res: Option<StmtEnd>)
    requires s.Loop?
    requires a.b < c.block && scopes != []
    ensures res.Some? ==> StmtWithin(a, c, scopes, res.value) && res.value.scopes == scopes
    decreases s, 0
  {
    var body, end := c.block, c.block + 1;
    var _ :- Ends(g, a, Br(body));
    var d :- BodyTo(g, s.body, LoopEnv(env, |scopes|, c), scopes, body, body, c.(block := c.block + 2));
    Some(StmtEnd(Point(end, 0), scopes, d))
  }

  function WhileCode(g: Graph, s: Stmt, env: Env, scopes: seq<seq<Var>>, a: Point, c: Ctr): (res: Option<StmtEnd>)
    requires s.While?
    requires a.b < c.block && scopes != []
    ensures res.Some? ==> StmtWithin(a, c, scopes, res.value) && res.value.scopes == scopes
    decreases s, 0
  {
    var cond, body, end := c.block, c.block + 1, c.block + 2;
    var yes, no := if s.until then end else body, if s.until then body else end;
    var _ :- Ends(g, a, Br(if s.doWhile then body else cond));
    var t :- CondCode(g, s.cond, yes, no, Point(cond, 0), c.(block := c.block + 3));
    var d :- BodyTo(g, s.body, WhileEnv(env, |scopes|, c), scopes, body, cond, t.c);
    Some(StmtEnd(Point(end, 0), scopes, d))
  }

  /** Header and body share one scope, which is destroyed after the post expressions. */
  function ForCode(g: Graph, s: Stmt, env: Env, scopes: seq<seq<Var>>, a: Point, c: Ctr): (res: Option<StmtEnd>)
    requires s.For?
    requires a.b < c.block && scopes != []
    ensures res.Some? ==> StmtWithin(a, c, scopes, res.value) && res.value.scopes == scopes
    decreases s, 1
  {
    var cond, end := c.block, c.block + 3;
    var h :- PlainsCode(g, s.pre, scopes + [[]], a, c.(block := c.block + 4));
    var _ :- Ends(g, h.p, Br(cond));
    var d :- RoundCode(g, s, ForEnv(env, |scopes|, c), h.scopes, c, h.c);
    Some(StmtEnd(Point(end, 0), scopes, d))
  }

  /** One round of a `for`: condition, body, post expressions, in the blocks numbered from `c` on. */
  function RoundCode(g: Graph, s: Stmt, env: Env, scopes: seq<seq<Var>>, c: Ctr, d: Ctr): (res: Option<Ctr>)
    requires s.For?
    requires c.block + 4 <= d.block && scopes != []
    ensures res.Some? ==> d.block <= res.value.block && d.reg <= res.value.reg && d.slot <= res.value.slot
    decreases s, 0
  {
    var cond, body, post, end := c.block, c.block + 1, c.block + 2, c.block + 3;
    var t :- CondCode(g, s.cond, body, end, Point(cond, 0), d);
    var m :- ListCode(g, s.body, env, scopes, Point(body, 0), t.c);
    var _ :- Ends(g, m.p, Br(post));
    PostCode(g, s.post, Top(m.scopes), post, cond, m.c)
  }

  /** The post expressions, then the end of the loop's scope, then back to the condition. */
  function PostCode(g: Graph, post: seq<Exp>, vars: seq<Var>, start: BlockId, cond: BlockId, c: Ctr): (res: Option<Ctr>)
    requires start < c.block
    ensures res.Some? ==> c.block <= res.value.block && c.reg <= res.value.reg && c.slot <= res.value.slot
  {
    var n :- ArgsCode(g, post, Point(start, 0), c);
    var p :- DtorsCode(g, vars, None, n.p);
    var _ :- Ends(g, p, Br(cond));
    Some(n.c)
  }

  function IfCode(g: Graph, s: Stmt, env: Env, scopes: seq<seq<Var>>, a: Point, c: Ctr): (res: Option<StmtEnd>)
    requires s.If?
    requires a.b < c.block && scopes != []
    ensures res.Some? ==> StmtWithin(a, c, scopes, res.value) && res.value.scopes == scopes
    decreases s, 0
  {
    var thn, els := c.block, c.block + 1;
    var end := if s.els.Else? then c.block + 2 else els;
    var t :- BranchCode(g, s.test, thn, els, a, c.(block := end + 1));
    var d :- BodyTo(g, s.thn, env, scopes, thn, end, t.c);
    if s.els.NoElse? then Some(StmtEnd(Point(end, 0), scopes, d))
    else
      var f :- BodyTo(g, s.els.stmts, env, scopes, els, end, d);
      Some(StmtEnd(Point(end, 0), scopes, f))
  }

  function SwitchCode(g: Graph, s: Stmt, env: Env, scopes: seq<seq<Var>>, a: Point, c: Ctr): (res: Option<StmtEnd>)
    requires s.Switch?
    requires a.b < c.block && scopes != []
    ensures res.Some? ==> StmtWithin(a, c, scopes, res.value) && res.value.scopes == scopes
    decreases s, 1
  {
    var v :- ExpCode(g, s.on, a, c);
    DispatchCode(g, s, env, scopes, v)
  }

  /** The switch instruction on the value `v`, the cases, and the dangling block's branch to the end. */
  function DispatchCode(g: Graph, s: Stmt, env: Env, scopes: seq<seq<Var>>, v: ExpEnd): (res: Option<StmtEnd>)
    requires s.Switch?
    requires scopes != []
    ensures res.Some? ==> res.value.p == Point(v.c.block + 1, 0) && v.c.block + 2 <= res.value.c.block
    ensures res.Some? ==> v.c.reg <= res.value.c.reg && v.c.slot <= res.value.c.slot && res.value.scopes == scopes
    decreases s, 0
  {
    var first, end := v.c.block, v.c.block + 1;
    var m :- CasesCode(g, s.cases, SwitchEnv(env, |scopes|, end), scopes, first, v.c.(block := v.c.block + 2));
    var _ :- Ends(g, v.p, SwitchTo(v.rv.op, Table(s.cases, m.starts), Other(s.cases, m.starts, end)));
    var _ :- Ends(g, Point(m.next, 0), Br(end));
    Some(StmtEnd(Point(end, 0), scopes, m.c))
  }

  /** The value cases with the blocks they start in. */
  function Table(cases: seq<Case>, starts: seq<BlockId>): seq<(int, BlockId)>
    requires |starts| == |cases|
  {
    if cases == [] then []
    else
      var n := |cases| - 1;
      Table(cases[..n], starts[..n]) + (if cases[n].value.Some? then [(cases[n].value.value, starts[n])] else [])
  }

  /** The block of the default case, or `end` when there is none. */
  function Other(cases: seq<Case>, starts: seq<BlockId>, end: BlockId): BlockId
    requires |starts| == |cases|
  {
    if cases == [] then end
    else
      var n := |cases| - 1;
      if cases[n].value.None? then starts[n] else Other(cases[..n], starts[..n], end)
  }

  /** The cases from block `first` on.  A body that ends in a jump leaves its dangling block to the next case. */
  function CasesCode(g: Graph, cases: seq<Case>, env: Env, scopes: seq<seq<Var>>, first: BlockId,
                     c: Ctr): (res: Option<CasesEnd>)
    requires first < c.block && scopes != []
    ensures res.Some? ==> |res.value.starts| == |cases|
    ensures res.Some? ==> Within(Point(first, 0), c, Point(res.value.next, 0), res.value.c)
    decreases cases, 0
  {
    if cases == [] then Some(CasesEnd([], first, c))
    else
      var n := |cases| - 1;
      var m :- CasesCode(g, cases[..n], env, scopes, first, c);
      if cases[n].value in CaseValues(cases[..n]) then None
      else
        var last :- CaseCode(g, cases[n].body, env, scopes, m.next, m.c);
        Some(CasesEnd(m.starts + [m.next], last.p.b, last.c))
  }

  function CaseCode(g: Graph, body: seq<Stmt>, env: Env, scopes: seq<seq<Var>>, start: BlockId,
                    c: Ctr): (res: Option<StmtEnd>)
    requires start < c.block && scopes != []
    ensures res.Some? ==> Within(Point(start, 0), c, res.value.p, res.value.c) && res.value.p.i == 0
    decreases body, 2
  {
    if EndsInJump(body) then
      var l :- ListCode(g, body, env, scopes + [[]], Point(start, 0), c);
      Some(StmtEnd(l.p, scopes, l.c))
    else
      var m :- BodyCode(g, body, env, scopes, Point(start, 0), c);
      var _ :- Ends(g, m.p, Br(m.c.block));
      Some(StmtEnd(Point(m.c.block, 0), scopes, m.c.(block := m.c.block + 1)))
  }
}
