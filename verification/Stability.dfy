/** Code that has been laid out stays laid out while the graph grows elsewhere. */
module Stability {
  import opened Options
  import opened Cfg
  import opened Source
  import opened Layout

  /** `y` is `x`, or `x` was still open and `y` continues it. */
  predicate Extends(x: Block, y: Block) {
    x.instrs <= y.instrs && (x.term.Some? ==> x == y)
  }

  ghost predicate Kept(g: Graph, g1: Graph, i: nat) {
    i < |g| ==> i < |g1| && Extends(g[i], g1[i])
  }

  /** Block `b` and the blocks from `lo` to `hi` are kept or continued. */
  ghost predicate Agree(g: Graph, g1: Graph, b: BlockId, lo: nat, hi: nat) {
    forall i: nat | i == b || lo <= i < hi :: Kept(g, g1, i)
  }

  lemma ThenStable(g: Graph, g1: Graph, p: Point, ins: Instr)
    requires Then(g, p, ins).Some? && Kept(g, g1, p.b)
    ensures Then(g1, p, ins) == Then(g, p, ins)
  {
  }

  lemma EndsStable(g: Graph, g1: Graph, p: Point, t: Terminator)
    requires Ends(g, p, t).Some? && Kept(g, g1, p.b)
    ensures Ends(g1, p, t) == Ends(g, p, t)
  {
  }

  lemma CastStable(g: Graph, g1: Graph, rv: RValue, ty: Ty, a: Point, c: Ctr)
    requires a.b < c.block && Below(rv.op, c.reg)
    requires CastCode(g, rv, ty, a, c).Some? && Kept(g, g1, a.b)
    ensures CastCode(g1, rv, ty, a, c) == CastCode(g, rv, ty, a, c)
  {
  }

  lemma LoadStable(g: Graph, g1: Graph, x: Symbol, ty: Ty, a: Point, c: Ctr)
    requires a.b < c.block
    requires LoadCode(g, x, ty, a, c).Some? && Kept(g, g1, a.b)
    ensures LoadCode(g1, x, ty, a, c) == LoadCode(g, x, ty, a, c)
  {
  }

  lemma PrimStable(g: Graph, g1: Graph, op: Symbol, l: RValue, r: RValue, a: Point, c: Ctr)
    requires a.b < c.block && Below(l.op, c.reg) && Below(r.op, c.reg)
    requires PrimCode(g, op, l, r, a, c).Some? && Kept(g, g1, a.b)
    ensures PrimCode(g1, op, l, r, a, c) == PrimCode(g, op, l, r, a, c)
  {
  }

  lemma CmpStable(g: Graph, g1: Graph, op: Symbol, l: RValue, r: RValue, a: Point, c: Ctr)
    requires a.b < c.block && Below(l.op, c.reg) && Below(r.op, c.reg)
    requires CmpCode(g, op, l, r, a, c).Some? && Kept(g, g1, a.b)
    ensures CmpCode(g1, op, l, r, a, c) == CmpCode(g, op, l, r, a, c)
  {
  }

  lemma StoreStable(g: Graph, g1: Graph, x: Symbol, ty: Ty, m: ExpEnd)
    requires m.p.b < m.c.block && Below(m.rv.op, m.c.reg)
    requires StoreCode(g, x, ty, m).Some? && Kept(g, g1, m.p.b)
    ensures StoreCode(g1, x, ty, m) == StoreCode(g, x, ty, m)
  {
  }

  lemma UpdateStable(g: Graph, g1: Graph, x: Symbol, ty: Ty, op: Symbol, m: ExpEnd)
    requires m.p.b < m.c.block && Below(m.rv.op, m.c.reg)
    requires UpdateCode(g, x, ty, op, m).Some? && Kept(g, g1, m.p.b)
    ensures UpdateCode(g1, x, ty, op, m) == UpdateCode(g, x, ty, op, m)
  {
    var l := LoadCode(g, x, ty, m.p, m.c).value;
    PrimStable(g, g1, op, l.rv, m.rv, l.p, l.c);
  }

  lemma {:induction false} ExpStable(g: Graph, g1: Graph, e: Exp, a: Point, c: Ctr)
    requires a.b < c.block
    requires ExpCode(g, e, a, c).Some?
    requires Agree(g, g1, a.b, c.block, ExpCode(g, e, a, c).value.c.block)
    ensures ExpCode(g1, e, a, c) == ExpCode(g, e, a, c)
    decreases e, 2
  {
    assert Kept(g, g1, a.b);
    match e
    case Const(_, _) =>
    case Read(x, ty) => LoadStable(g, g1, x, ty, a, c);
    case Invoke(_, _, _) => InvokeStable(g, g1, e, a, c);
    case Binary(_, _, _) => BinaryStable(g, g1, e, a, c);
    case Compare(_, _, _) => CompareStable(g, g1, e, a, c);
    case And(_, _) => LogicalStable(g, g1, e, a, c);
    case Or(_, _) => LogicalStable(g, g1, e, a, c);
    case Cond(_, yes, no) =>
      if Complex(yes) || Complex(no) {
        BranchingStable(g, g1, e, a, c);
      } else {
        SelectStable(g, g1, e, a, c);
      }
    case Coalesce(_, _) => CoalesceStable(g, g1, e, a, c);
    case Assign(_, _, _, _) => AssignStable(g, g1, e, a, c);
  }

  lemma {:induction false} InvokeStable(g: Graph, g1: Graph, e: Exp, a: Point, c: Ctr)
    requires e.Invoke?
    requires a.b < c.block
    requires InvokeCode(g, e, a, c).Some?
    requires Agree(g, g1, a.b, c.block, InvokeCode(g, e, a, c).value.c.block)
    ensures InvokeCode(g1, e, a, c) == InvokeCode(g, e, a, c)
    decreases e, 1
  {
    var m := ArgsCode(g, e.args, a, c).value;
    ArgsStable(g, g1, e.args, a, c);
    ThenStable(g, g1, m.p, Instr.Call(m.c.reg, e.f, m.ops, e.ty));
  }

  lemma {:induction false} BinaryStable(g: Graph, g1: Graph, e: Exp, a: Point, c: Ctr)
    requires e.Binary?
    requires a.b < c.block
    requires BinaryCode(g, e, a, c).Some?
    requires Agree(g, g1, a.b, c.block, BinaryCode(g, e, a, c).value.c.block)
    ensures BinaryCode(g1, e, a, c) == BinaryCode(g, e, a, c)
    decreases e, 1
  {
    var m := ExpCode(g, e.l, a, c).value;
    var n := ExpCode(g, e.r, m.p, m.c).value;
    PairStable(g, g1, e, e.l, e.r, a, c);
    PrimStable(g, g1, e.op, m.rv, n.rv, n.p, n.c);
  }

  lemma {:induction false} CompareStable(g: Graph, g1: Graph, e: Exp, a: Point, c: Ctr)
    requires e.Compare?
    requires a.b < c.block
    requires CompareCode(g, e, a, c).Some?
    requires Agree(g, g1, a.b, c.block, CompareCode(g, e, a, c).value.c.block)
    ensures CompareCode(g1, e, a, c) == CompareCode(g, e, a, c)
    decreases e, 1
  {
    var m := ExpCode(g, e.l, a, c).value;
    var n := ExpCode(g, e.r, m.p, m.c).value;
    PairStable(g, g1, e, e.l, e.r, a, c);
    CmpStable(g, g1, e.op, m.rv, n.rv, n.p, n.c);
  }

  lemma {:induction false} AssignStable(g: Graph, g1: Graph, e: Exp, a: Point, c: Ctr)
    requires e.Assign?
    requires a.b < c.block
    requires AssignCode(g, e, a, c).Some?
    requires Agree(g, g1, a.b, c.block, AssignCode(g, e, a, c).value.c.block)
    ensures AssignCode(g1, e, a, c) == AssignCode(g, e, a, c)
    decreases e, 1
  {
    var m := ExpCode(g, e.rhs, a, c).value;
    ExpStable(g, g1, e.rhs, a, c);
    assert Kept(g, g1, m.p.b);
    match e.update
    case None => StoreStable(g, g1, e.x, e.ty, m);
    case Some(op) =>
      UpdateStable(g, g1, e.x, e.ty, op, m);
      StoreStable(g, g1, e.x, e.ty, UpdateCode(g, e.x, e.ty, op, m).value);
  }

  lemma {:induction false} SelectStable(g: Graph, g1: Graph, e: Exp, a: Point, c: Ctr)
    requires e.Cond? && TypeOf(e.yes) == TypeOf(e.no)
    requires a.b < c.block
    requires SelectCode(g, e, a, c).Some?
    requires Agree(g, g1, a.b, c.block, SelectCode(g, e, a, c).value.c.block)
    ensures SelectCode(g1, e, a, c) == SelectCode(g, e, a, c)
    decreases e, 0
  {
    var t := BoolCode(g, e.c, a, c).value;
    var y := ExpCode(g, e.yes, t.p, t.c).value;
    var n := ExpCode(g, e.no, y.p, y.c).value;
    BoolStable(g, g1, e.c, a, c);
    ExpStable(g, g1, e.yes, t.p, t.c);
    ExpStable(g, g1, e.no, y.p, y.c);
    assert Kept(g, g1, n.p.b);
  }

  lemma {:induction false} PairStable(g: Graph, g1: Graph, e: Exp, l: Exp, r: Exp, a: Point, c: Ctr)
    requires a.b < c.block
    requires l < e && r < e
    requires ExpCode(g, l, a, c).Some?
    requires
      var m := ExpCode(g, l, a, c).value;
      ExpCode(g, r, m.p, m.c).Some? && Agree(g, g1, a.b, c.block, ExpCode(g, r, m.p, m.c).value.c.block)
    ensures ExpCode(g1, l, a, c) == ExpCode(g, l, a, c)
    ensures
      var m := ExpCode(g, l, a, c).value;
      ExpCode(g1, r, m.p, m.c) == ExpCode(g, r, m.p, m.c) && Kept(g, g1, ExpCode(g, r, m.p, m.c).value.p.b)
    decreases e, 0
  {
    var m := ExpCode(g, l, a, c).value;
    ExpStable(g, g1, l, a, c);
    ExpStable(g, g1, r, m.p, m.c);
    assert Kept(g, g1, m.p.b);
    assert Kept(g, g1, ExpCode(g, r, m.p, m.c).value.p.b);
  }

  lemma {:induction false} ArgsStable(g: Graph, g1: Graph, es: seq<Exp>, a: Point, c: Ctr)
    requires a.b < c.block
    requires ArgsCode(g, es, a, c).Some?
    requires Agree(g, g1, a.b, c.block, ArgsCode(g, es, a, c).value.c.block)
    ensures ArgsCode(g1, es, a, c) == ArgsCode(g, es, a, c)
    decreases es, 0
  {
    if es != [] {
      var n := |es| - 1;
      var m := ArgsCode(g, es[..n], a, c).value;
      ArgsStable(g, g1, es[..n], a, c);
      ExpStable(g, g1, es[n], m.p, m.c);
    }
  }

  lemma {:induction false} BoolStable(g: Graph, g1: Graph, e: Exp, a: Point, c: Ctr)
    requires a.b < c.block
    requires BoolCode(g, e, a, c).Some?
    requires Agree(g, g1, a.b, c.block, BoolCode(g, e, a, c).value.c.block)
    ensures BoolCode(g1, e, a, c) == BoolCode(g, e, a, c)
    decreases e, 3
  {
    var m := ExpCode(g, e, a, c).value;
    ExpStable(g, g1, e, a, c);
    assert Kept(g, g1, m.p.b);
    CastStable(g, g1, m.rv, TBool, m.p, m.c);
  }

  lemma {:induction false} BranchStable(g: Graph, g1: Graph, e: Exp, yes: BlockId, no: BlockId, a: Point, c: Ctr)
    requires a.b < c.block
    requires BranchCode(g, e, yes, no, a, c).Some?
    requires Agree(g, g1, a.b, c.block, BranchCode(g, e, yes, no, a, c).value.c.block)
    ensures BranchCode(g1, e, yes, no, a, c) == BranchCode(g, e, yes, no, a, c)
    decreases e, 4
  {
    var m := BoolCode(g, e, a, c).value;
    BoolStable(g, g1, e, a, c);
    EndsStable(g, g1, m.p, CondBr(m.rv.op, yes, no));
  }

  lemma {:induction false} ArmStable(g: Graph, g1: Graph, e: Exp, start: BlockId, end: BlockId, c: Ctr)
    requires start < c.block
    requires ArmCode(g, e, start, end, c).Some?
    requires Agree(g, g1, start, c.block, ArmCode(g, e, start, end, c).value.c.block)
    ensures ArmCode(g1, e, start, end, c) == ArmCode(g, e, start, end, c)
    decreases e, 3
  {
    ExpStable(g, g1, e, Point(start, 0), c);
    EndsStable(g, g1, ExpCode(g, e, Point(start, 0), c).value.p, Br(end));
  }

  lemma {:induction false} BoolArmStable(g: Graph, g1: Graph, e: Exp, start: BlockId, end: BlockId, c: Ctr)
    requires start < c.block
    requires BoolArmCode(g, e, start, end, c).Some?
    requires Agree(g, g1, start, c.block, BoolArmCode(g, e, start, end, c).value.c.block)
    ensures BoolArmCode(g1, e, start, end, c) == BoolArmCode(g, e, start, end, c)
    decreases e, 4
  {
    BoolStable(g, g1, e, Point(start, 0), c);
    EndsStable(g, g1, BoolCode(g, e, Point(start, 0), c).value.p, Br(end));
  }

  lemma PhiStable(g: Graph, g1: Graph, end: BlockId, l: Operand, lb: BlockId, r: Operand, rb: BlockId, ty: Ty, c: Ctr)
    requires PhiCode(g, end, l, lb, r, rb, ty, c).Some? && Kept(g, g1, end)
    ensures PhiCode(g1, end, l, lb, r, rb, ty, c) == PhiCode(g, end, l, lb, r, rb, ty, c)
  {
  }

  lemma {:induction false} LogicalStable(g: Graph, g1: Graph, e: Exp, a: Point, c: Ctr)
    requires e.And? || e.Or?
    requires a.b < c.block
    requires LogicalCode(g, e, a, c).Some?
    requires Agree(g, g1, a.b, c.block, LogicalCode(g, e, a, c).value.c.block)
    ensures LogicalCode(g1, e, a, c) == LogicalCode(g, e, a, c)
    decreases e, 0
  {
    var first, second := c.block, c.block + 1;
    var yes, no := if e.And? then first else second, if e.And? then second else first;
    var c1 := c.(block := c.block + 2);
    var l := BranchCode(g, e.l, yes, no, a, c1).value;
    assert Agree(g, g1, a.b, c1.block, l.c.block);
    BranchStable(g, g1, e.l, yes, no, a, c1);
    var r := BoolArmCode(g, e.r, first, second, l.c).value;
    assert Agree(g, g1, first, l.c.block, r.c.block);
    BoolArmStable(g, g1, e.r, first, second, l.c);
    PhiStable(g, g1, second, l.rv.op, l.p.b, r.rv.op, r.p.b, TBool, r.c);
  }

  lemma {:induction false} BranchingStable(g: Graph, g1: Graph, e: Exp, a: Point, c: Ctr)
    requires e.Cond? && TypeOf(e.yes) == TypeOf(e.no)
    requires a.b < c.block
    requires BranchingCode(g, e, a, c).Some?
    requires Agree(g, g1, a.b, c.block, BranchingCode(g, e, a, c).value.c.block)
    ensures BranchingCode(g1, e, a, c) == BranchingCode(g, e, a, c)
    decreases e, 1
  {
    var t := BoolCode(g, e.c, a, c).value;
    BoolStable(g, g1, e.c, a, c);
    var yes, no, end := t.c.block, t.c.block + 1, t.c.block + 2;
    EndsStable(g, g1, t.p, CondBr(t.rv.op, yes, no));
    ArmsStable(g, g1, e, yes, no, end, t.c.(block := t.c.block + 3));
  }

  lemma {:induction false} ArmsStable(g: Graph, g1: Graph, e: Exp, yes: BlockId, no: BlockId, end: BlockId, c: Ctr)
    requires e.Cond? && TypeOf(e.yes) == TypeOf(e.no)
    requires yes < c.block && no < c.block
    requires ArmsCode(g, e, yes, no, end, c).Some?
    requires Kept(g, g1, no) && Kept(g, g1, end)
    requires Agree(g, g1, yes, c.block, ArmsCode(g, e, yes, no, end, c).value.c.block)
    ensures ArmsCode(g1, e, yes, no, end, c) == ArmsCode(g, e, yes, no, end, c)
    decreases e, 0
  {
    var y := ArmCode(g, e.yes, yes, end, c).value;
    ArmStable(g, g1, e.yes, yes, end, c);
    var n := ArmCode(g, e.no, no, end, y.c).value;
    assert Agree(g, g1, no, y.c.block, n.c.block);
    ArmStable(g, g1, e.no, no, end, y.c);
    PhiStable(g, g1, end, y.rv.op, y.p.b, n.rv.op, n.p.b, y.rv.ty, n.c);
  }

  lemma {:induction false} CoalesceStable(g: Graph, g1: Graph, e: Exp, a: Point, c: Ctr)
    requires e.Coalesce?
    requires a.b < c.block
    requires CoalesceCode(g, e, a, c).Some?
    requires Agree(g, g1, a.b, c.block, CoalesceCode(g, e, a, c).value.c.block)
    ensures CoalesceCode(g1, e, a, c) == CoalesceCode(g, e, a, c)
    decreases e, 1
  {
    var l := ExpCode(g, e.l, a, c).value;
    ExpStable(g, g1, e.l, a, c);
    assert Kept(g, g1, l.p.b);
    CastStable(g, g1, l.rv, TBool, l.p, l.c);
    var t := CastCode(g, l.rv, TBool, l.p, l.c).value;
    if Complex(e.r) {
      FallbackStable(g, g1, e, l, t);
    } else {
      var r := ExpCode(g, e.r, t.p, t.c).value;
      ExpStable(g, g1, e.r, t.p, t.c);
      assert Kept(g, g1, r.p.b);
    }
  }

  lemma {:induction false} FallbackStable(g: Graph, g1: Graph, e: Exp, l: ExpEnd, t: ExpEnd)
    requires e.Coalesce? && TypeOf(e.r) == l.rv.ty
    requires t.p.b < t.c.block && Below(l.rv.op, t.c.reg)
    requires FallbackCode(g, e, l, t).Some?
    requires Agree(g, g1, t.p.b, t.c.block, FallbackCode(g, e, l, t).value.c.block)
    ensures FallbackCode(g1, e, l, t) == FallbackCode(g, e, l, t)
    decreases e, 0
  {
    var no, end := t.c.block, t.c.block + 1;
    var c1 := t.c.(block := t.c.block + 2);
    EndsStable(g, g1, t.p, CondBr(t.rv.op, end, no));
    var r := ArmCode(g, e.r, no, end, c1).value;
    ArmStable(g, g1, e.r, no, end, c1);
    PhiStable(g, g1, end, l.rv.op, t.p.b, r.rv.op, r.p.b, l.rv.ty, r.c);
  }

  lemma CondStable(g: Graph, g1: Graph, e: Option<Exp>, yes: BlockId, no: BlockId, a: Point, c: Ctr)
    requires a.b < c.block
    requires CondCode(g, e, yes, no, a, c).Some?
    requires Agree(g, g1, a.b, c.block, CondCode(g, e, yes, no, a, c).value.c.block)
    ensures CondCode(g1, e, yes, no, a, c) == CondCode(g, e, yes, no, a, c)
  {
    match e
    case None => EndsStable(g, g1, a, CondBr(Imm(1), yes, no));
    case Some(test) => BranchStable(g, g1, test, yes, no, a, c);
  }

  lemma {:induction false} DtorsStable(g: Graph, g1: Graph, vars: seq<Var>, keep: Option<nat>, a: Point)
    requires DtorsCode(g, vars, keep, a).Some?
    requires Kept(g, g1, a.b)
    ensures DtorsCode(g1, vars, keep, a) == DtorsCode(g, vars, keep, a)
  {
    if vars != [] {
      DtorsStable(g, g1, vars[1..], keep, a);
      var p := DtorsCode(g, vars[1..], keep, a).value;
      assert Kept(g, g1, p.b);
    }
  }

  lemma CoalesceToStable(g: Graph, g1: Graph, p: Plain, scopes: seq<seq<Var>>, a: Point, c: Ctr)
    requires p.CoalesceTo?
    requires a.b < c.block && scopes != []
    requires CoalesceToCode(g, p, scopes, a, c).Some?
    requires Agree(g, g1, a.b, c.block, CoalesceToCode(g, p, scopes, a, c).value.c.block)
    ensures CoalesceToCode(g1, p, scopes, a, c) == CoalesceToCode(g, p, scopes, a, c)
  {
    var e := Read(p.x, p.ty);
    var t := BoolCode(g, e, a, c).value;
    BoolStable(g, g1, e, a, c);
    var no, end := t.c.block, t.c.block + 1;
    EndsStable(g, g1, t.p, CondBr(t.rv.op, end, no));
    ArmStable(g, g1, Assign(p.x, p.ty, None, p.rhs), no, end, t.c.(block := t.c.block + 2));
  }

  lemma {:induction false} PlainStable(g: Graph, g1: Graph, p: Plain, scopes: seq<seq<Var>>, a: Point, c: Ctr)
    requires a.b < c.block && scopes != []
    requires PlainCode(g, p, scopes, a, c).Some?
    requires Agree(g, g1, a.b, c.block, PlainCode(g, p, scopes, a, c).value.c.block)
    ensures PlainCode(g1, p, scopes, a, c) == PlainCode(g, p, scopes, a, c)
    decreases p, 1
  {
    match p
    case Do(e) => ExpStable(g, g1, e, a, c);
    case CoalesceTo(_, _, _) => CoalesceToStable(g, g1, p, scopes, a, c);
    case Declare(x, decl, dtor, init) =>
      var m := ExpCode(g, init, a, c).value;
      ExpStable(g, g1, init, a, c);
      ThenStable(g, g1, m.p, Construct(Var(x, decl, m.c.slot, dtor), m.rv.op));
    case Group(ps) => PlainsStable(g, g1, ps, scopes, a, c);
  }

  lemma {:induction false} PlainsStable(g: Graph, g1: Graph, ps: seq<Plain>, scopes: seq<seq<Var>>, a: Point, c: Ctr)
    requires a.b < c.block && scopes != []
    requires PlainsCode(g, ps, scopes, a, c).Some?
    requires Agree(g, g1, a.b, c.block, PlainsCode(g, ps, scopes, a, c).value.c.block)
    ensures PlainsCode(g1, ps, scopes, a, c) == PlainsCode(g, ps, scopes, a, c)
    decreases ps, 0
  {
    if ps != [] {
      var n := |ps| - 1;
      var m := PlainsCode(g, ps[..n], scopes, a, c).value;
      PlainsStable(g, g1, ps[..n], scopes, a, c);
      PlainStable(g, g1, ps[n], m.scopes, m.p, m.c);
    }
  }

  lemma TailStable(g: Graph, g1: Graph, v: Option<Operand>, keep: Option<nat>, scopes: seq<seq<Var>>, a: Point, c: Ctr)
    requires a.b < c.block && scopes != []
    requires ReturnTail(g, v, keep, scopes, a, c).Some? && Kept(g, g1, a.b)
    ensures ReturnTail(g1, v, keep, scopes, a, c) == ReturnTail(g, v, keep, scopes, a, c)
  {
    DtorsStable(g, g1, Flat(scopes), keep, a);
    EndsStable(g, g1, DtorsCode(g, Flat(scopes), keep, a).value, Ret(v));
  }

  lemma ReturnStable(g: Graph, g1: Graph, v: RetVal, env: Env, scopes: seq<seq<Var>>, a: Point, c: Ctr)
    requires a.b < c.block && scopes != []
    requires ReturnCode(g, v, env, scopes, a, c).Some?
    requires Agree(g, g1, a.b, c.block, ReturnCode(g, v, env, scopes, a, c).value.c.block)
    ensures ReturnCode(g1, v, env, scopes, a, c) == ReturnCode(g, v, env, scopes, a, c)
  {
    assert Kept(g, g1, a.b);
    match v
    case NoValue => TailStable(g, g1, None, None, scopes, a, c);
    case Scalar(e) =>
      var m := ExpCode(g, e, a, c).value;
      ExpStable(g, g1, e, a, c);
      assert Kept(g, g1, m.p.b);
      var n := CastCode(g, m.rv, env.result.ty, m.p, m.c).value;
      TailStable(g, g1, Some(n.rv.op), None, scopes, n.p, n.c);
    case Object(x, _, _) =>
      var m := LoadCode(g, x, TInt, a, c).value;
      TailStable(g, g1, Some(m.rv.op), SlotOf(scopes, x), scopes, m.p, m.c);
  }

  lemma {:induction false} StmtStable(g: Graph, g1: Graph, s: Stmt, env: Env, scopes: seq<seq<Var>>, a: Point, c: Ctr)
    requires a.b < c.block && scopes != []
    requires StmtCode(g, s, env, scopes, a, c).Some?
    requires Agree(g, g1, a.b, c.block, StmtCode(g, s, env, scopes, a, c).value.c.block)
    ensures StmtCode(g1, s, env, scopes, a, c) == StmtCode(g, s, env, scopes, a, c)
    decreases s, 2
  {
    hide PlainCode, ReturnCode, JumpCode, LoopCode, WhileCode, SwitchCode, ForCode, IfCode, Kept;
    match s
    case Basic(p) => PlainStable(g, g1, p, scopes, a, c);
    case Return(v) => ReturnStable(g, g1, v, env, scopes, a, c);
    case Branch(k, level) =>
      var ts := TargetsOf(env, k);
      JumpStable(g, g1, ts[|ts| - Resolve(DepthOf(RulesOf(env).depth, k), level).value], scopes, a, c);
    case Loop(_) => LoopStable(g, g1, s, env, scopes, a, c);
    case While(_, _, _, _) => WhileStable(g, g1, s, env, scopes, a, c);
    case Switch(_, _) => SwitchStable(g, g1, s, env, scopes, a, c);
    case For(_, _, _, _) => ForStable(g, g1, s, env, scopes, a, c);
    case If(_, _, _) => IfStable(g, g1, s, env, scopes, a, c);
  }

  lemma JumpStable(g: Graph, g1: Graph, t: Target, scopes: seq<seq<Var>>, a: Point, c: Ctr)
    requires a.b < c.block && scopes != [] && JumpCode(g, t, scopes, a, c).Some? && Kept(g, g1, a.b)
    ensures JumpCode(g1, t, scopes, a, c) == JumpCode(g, t, scopes, a, c)
  {
    hide DtorsCode;
    DtorsStable(g, g1, Flat(scopes[t.level..]), None, a);
    EndsStable(g, g1, DtorsCode(g, Flat(scopes[t.level..]), None, a).value, Br(t.b));
  }

  lemma {:induction false} ListStable(g: Graph, g1: Graph, ss: seq<Stmt>, env: Env, scopes: seq<seq<Var>>, a: Point,
                                      c: Ctr)
    requires a.b < c.block && scopes != []
    requires ListCode(g, ss, env, scopes, a, c).Some?
    requires Agree(g, g1, a.b, c.block, ListCode(g, ss, env, scopes, a, c).value.c.block)
    ensures ListCode(g1, ss, env, scopes, a, c) == ListCode(g, ss, env, scopes, a, c)
    decreases ss, 0
  {
    if ss != [] {
      var n := |ss| - 1;
      var m := ListCode(g, ss[..n], env, scopes, a, c).value;
      ListStable(g, g1, ss[..n], env, scopes, a, c);
      StmtStable(g, g1, ss[n], env, m.scopes, m.p, m.c);
    }
  }

  lemma {:induction false} BodyStable(g: Graph, g1: Graph, ss: seq<Stmt>, env: Env, scopes: seq<seq<Var>>, a: Point,
                                      c: Ctr)
    requires a.b < c.block && scopes != []
    requires BodyCode(g, ss, env, scopes, a, c).Some?
    requires Agree(g, g1, a.b, c.block, BodyCode(g, ss, env, scopes, a, c).value.c.block)
    ensures BodyCode(g1, ss, env, scopes, a, c) == BodyCode(g, ss, env, scopes, a, c)
    decreases ss, 1
  {
    var l := ListCode(g, ss, env, scopes + [[]], a, c).value;
    ListStable(g, g1, ss, env, scopes + [[]], a, c);
    assert Kept(g, g1, l.p.b);
    DtorsStable(g, g1, Top(l.scopes), None, l.p);
  }

  lemma {:induction false} BodyToStable(g: Graph, g1: Graph, ss: seq<Stmt>, env: Env, scopes: seq<seq<Var>>,
                                        start: BlockId, to: BlockId, c: Ctr)
    requires start < c.block && scopes != []
    requires BodyTo(g, ss, env, scopes, start, to, c).Some?
    requires Agree(g, g1, start, c.block, BodyTo(g, ss, env, scopes, start, to, c).value.block)
    ensures BodyTo(g1, ss, env, scopes, start, to, c) == BodyTo(g, ss, env, scopes, start, to, c)
    decreases ss, 2
  {
    BodyStable(g, g1, ss, env, scopes, Point(start, 0), c);
    EndsStable(g, g1, BodyCode(g, ss, env, scopes, Point(start, 0), c).value.p, Br(to));
  }

  lemma {:induction false} LoopStable(g: Graph, g1: Graph, s: Stmt, env: Env, scopes: seq<seq<Var>>, a: Point, c: Ctr)
    requires s.Loop?
    requires a.b < c.block && scopes != []
    requires LoopCode(g, s, env, scopes, a, c).Some?
    requires Agree(g, g1, a.b, c.block, LoopCode(g, s, env, scopes, a, c).value.c.block)
    ensures LoopCode(g1, s, env, scopes, a, c) == LoopCode(g, s, env, scopes, a, c)
    decreases s, 0
  {
    EndsStable(g, g1, a, Br(c.block));
    BodyToStable(g, g1, s.body, LoopEnv(env, |scopes|, c), scopes, c.block, c.block, c.(block := c.block + 2));
  }

  lemma {:induction false} WhileStable(g: Graph, g1: Graph, s: Stmt, env: Env, scopes: seq<seq<Var>>, a: Point, c: Ctr)
    requires s.While?
    requires a.b < c.block && scopes != []
    requires WhileCode(g, s, env, scopes, a, c).Some?
    requires Agree(g, g1, a.b, c.block, WhileCode(g, s, env, scopes, a, c).value.c.block)
    ensures WhileCode(g1, s, env, scopes, a, c) == WhileCode(g, s, env, scopes, a, c)
    decreases s, 0
  {
    var cond, body, end := c.block, c.block + 1, c.block + 2;
    var yes, no := if s.until then end else body, if s.until then body else end;
    var c1 := c.(block := c.block + 3);
    EndsStable(g, g1, a, Br(if s.doWhile then body else cond));
    var t := CondCode(g, s.cond, yes, no, Point(cond, 0), c1).value;
    assert Agree(g, g1, cond, c1.block, t.c.block);
    CondStable(g, g1, s.cond, yes, no, Point(cond, 0), c1);
    var env1 := WhileEnv(env, |scopes|, c);
    var d := BodyTo(g, s.body, env1, scopes, body, cond, t.c).value;
    assert Agree(g, g1, body, t.c.block, d.block);
    BodyToStable(g, g1, s.body, env1, scopes, body, cond, t.c);
  }

  lemma {:induction false} ForStable(g: Graph, g1: Graph, s: Stmt, env: Env, scopes: seq<seq<Var>>, a: Point, c: Ctr)
    requires s.For?
    requires a.b < c.block && scopes != []
    requires ForCode(g, s, env, scopes, a, c).Some?
    requires Agree(g, g1, a.b, c.block, ForCode(g, s, env, scopes, a, c).value.c.block)
    ensures ForCode(g1, s, env, scopes, a, c) == ForCode(g, s, env, scopes, a, c)
    decreases s, 1
  {
    hide CondCode, PlainsCode, RoundCode;
    var env1, c1 := ForEnv(env, |scopes|, c), c.(block := c.block + 4);
    var h := PlainsCode(g, s.pre, scopes + [[]], a, c1).value;
    assert Agree(g, g1, a.b, c1.block, h.c.block);
    PlainsStable(g, g1, s.pre, scopes + [[]], a, c1);
    EndsStable(g, g1, h.p, Br(c.block));
    RoundStable(g, g1, s, env1, h.scopes, c, h.c);
  }

  lemma {:induction false} RoundStable(g: Graph, g1: Graph, s: Stmt, env: Env, scopes: seq<seq<Var>>, c: Ctr, d: Ctr)
    requires s.For?
    requires c.block + 4 <= d.block && scopes != []
    requires RoundCode(g, s, env, scopes, c, d).Some?
    requires Agree(g, g1, c.block, c.block, RoundCode(g, s, env, scopes, c, d).value.block)
    ensures RoundCode(g1, s, env, scopes, c, d) == RoundCode(g, s, env, scopes, c, d)
    decreases s, 0
  {
    hide CondCode;
    var cond, body, post, end := c.block, c.block + 1, c.block + 2, c.block + 3;
    var t := CondCode(g, s.cond, body, end, Point(cond, 0), d).value;
    assert Agree(g, g1, cond, d.block, t.c.block);
    CondStable(g, g1, s.cond, body, end, Point(cond, 0), d);
    var m := ListCode(g, s.body, env, scopes, Point(body, 0), t.c).value;
    assert Agree(g, g1, body, t.c.block, m.c.block);
    ListStable(g, g1, s.body, env, scopes, Point(body, 0), t.c);
    EndsStable(g, g1, m.p, Br(post));
    var e := PostCode(g, s.post, Top(m.scopes), post, cond, m.c).value;
    assert Agree(g, g1, post, m.c.block, e.block);
    PostStable(g, g1, s.post, Top(m.scopes), post, cond, m.c);
  }

  lemma PostStable(g: Graph, g1: Graph, post: seq<Exp>, vars: seq<Var>, start: BlockId, cond: BlockId, c: Ctr)
    requires start < c.block
    requires PostCode(g, post, vars, start, cond, c).Some?
    requires Agree(g, g1, start, c.block, PostCode(g, post, vars, start, cond, c).value.block)
    ensures PostCode(g1, post, vars, start, cond, c) == PostCode(g, post, vars, start, cond, c)
  {
    var n := ArgsCode(g, post, Point(start, 0), c).value;
    ArgsStable(g, g1, post, Point(start, 0), c);
    assert Kept(g, g1, n.p.b);
    DtorsStable(g, g1, vars, None, n.p);
    EndsStable(g, g1, DtorsCode(g, vars, None, n.p).value, Br(cond));
  }

  lemma {:induction false} IfStable(g: Graph, g1: Graph, s: Stmt, env: Env, scopes: seq<seq<Var>>, a: Point, c: Ctr)
    requires s.If?
    requires a.b < c.block && scopes != []
    requires IfCode(g, s, env, scopes, a, c).Some?
    requires Agree(g, g1, a.b, c.block, IfCode(g, s, env, scopes, a, c).value.c.block)
    ensures IfCode(g1, s, env, scopes, a, c) == IfCode(g, s, env, scopes, a, c)
    decreases s, 0
  {
    hide BodyTo;
    var thn, els := c.block, c.block + 1;
    var end := if s.els.Else? then c.block + 2 else els;
    var c1 := c.(block := end + 1);
    var t := BranchCode(g, s.test, thn, els, a, c1).value;
    assert Agree(g, g1, a.b, c1.block, t.c.block);
    BranchStable(g, g1, s.test, thn, els, a, c1);
    var d := BodyTo(g, s.thn, env, scopes, thn, end, t.c).value;
    assert Agree(g, g1, thn, t.c.block, d.block);
    BodyToStable(g, g1, s.thn, env, scopes, thn, end, t.c);
    if s.els.Else? {
      BodyToStable(g, g1, s.els.stmts, env, scopes, els, end, d);
    }
  }

  lemma {:induction false} SwitchStable(g: Graph, g1: Graph, s: Stmt, env: Env, scopes: seq<seq<Var>>, a: Point, c: Ctr)
    requires s.Switch?
    requires a.b < c.block && scopes != []
    requires SwitchCode(g, s, env, scopes, a, c).Some?
    requires Agree(g, g1, a.b, c.block, SwitchCode(g, s, env, scopes, a, c).value.c.block)
    ensures SwitchCode(g1, s, env, scopes, a, c) == SwitchCode(g, s, env, scopes, a, c)
    decreases s, 1
  {
    var v := ExpCode(g, s.on, a, c).value;
    ExpStable(g, g1, s.on, a, c);
    DispatchStable(g, g1, s, env, scopes, v);
  }

  lemma {:induction false} DispatchStable(g: Graph, g1: Graph, s: Stmt, env: Env, scopes: seq<seq<Var>>, v: ExpEnd)
    requires s.Switch? && scopes != []
    requires DispatchCode(g, s, env, scopes, v).Some?
    requires Kept(g, g1, v.p.b)
    requires Agree(g, g1, v.c.block, v.c.block, DispatchCode(g, s, env, scopes, v).value.c.block)
    ensures DispatchCode(g1, s, env, scopes, v) == DispatchCode(g, s, env, scopes, v)
    decreases s, 0
  {
    var first, end := v.c.block, v.c.block + 1;
    var env1, c1 := SwitchEnv(env, |scopes|, end), v.c.(block := v.c.block + 2);
    var m := CasesCode(g, s.cases, env1, scopes, first, c1).value;
    assert Agree(g, g1, first, c1.block, m.c.block);
    CasesStable(g, g1, s.cases, env1, scopes, first, c1);
    EndsStable(g, g1, v.p, SwitchTo(v.rv.op, Table(s.cases, m.starts), Other(s.cases, m.starts, end)));
    EndsStable(g, g1, Point(m.next, 0), Br(end));
  }

  lemma {:induction false} CasesStable(g: Graph, g1: Graph, cases: seq<Case>, env: Env, scopes: seq<seq<Var>>,
                                       first: BlockId, c: Ctr)
    requires first < c.block && scopes != []
    requires CasesCode(g, cases, env, scopes, first, c).Some?
    requires Agree(g, g1, first, c.block, CasesCode(g, cases, env, scopes, first, c).value.c.block)
    ensures CasesCode(g1, cases, env, scopes, first, c) == CasesCode(g, cases, env, scopes, first, c)
    decreases cases, 0
  {
    if cases != [] {
      var n := |cases| - 1;
      var m := CasesCode(g, cases[..n], env, scopes, first, c).value;
      CasesStable(g, g1, cases[..n], env, scopes, first, c);
      CaseStable(g, g1, cases[n].body, env, scopes, m.next, m.c);
    }
  }

  lemma {:induction false} CaseStable(g: Graph, g1: Graph, body: seq<Stmt>, env: Env, scopes: seq<seq<Var>>,
                                      start: BlockId, c: Ctr)
    requires start < c.block && scopes != []
    requires CaseCode(g, body, env, scopes, start, c).Some?
    requires Agree(g, g1, start, c.block, CaseCode(g, body, env, scopes, start, c).value.c.block)
    ensures CaseCode(g1, body, env, scopes, start, c) == CaseCode(g, body, env, scopes, start, c)
    decreases body, 2
  {
    if EndsInJump(body) {
      ListStable(g, g1, body, env, scopes + [[]], Point(start, 0), c);
    } else {
      var m := BodyCode(g, body, env, scopes, Point(start, 0), c).value;
      BodyStable(g, g1, body, env, scopes, Point(start, 0), c);
      EndsStable(g, g1, m.p, Br(m.c.block));
    }
  }
}
