/**
 What the evaluation of an expression does, whatever its operands are.

 Values are of the type of their expression, operands act from left to right, the casts of the lowering
 are those of the numeric types, and only the operands that may be passed over get blocks of their own.
 */
module Evaluation {
  import opened Options
  import opened Cfg
  import opened Source
  import opened Layout
  import Numeric

  /** Values have the type that their expression has: a condition is 0 or 1. */
  lemma {:induction false} ValuesAreTyped(w: World, e: Exp, h: Trace)
    requires WellTyped(e) && TypeOf(e) == TBool
    ensures Eval(w, e, h).0 == 0 || Eval(w, e, h).0 == 1
    decreases e
  {
    match e
    case Cond(c, yes, no) =>
      var h1 := Eval(w, c, h).1;
      ValuesAreTyped(w, yes, h1);
      ValuesAreTyped(w, no, h1);
    case Coalesce(l, r) =>
      ValuesAreTyped(w, l, h);
      ValuesAreTyped(w, r, Eval(w, l, h).1);
    case _ =>
  }

  // ---------------------------------------------------------------- the order of evaluation

  /** The operands of an expression, from left to right; those behind the first may be passed over. */
  function Operands(e: Exp): seq<Exp> {
    match e
    case Const(_, _) => []
    case Read(_, _) => []
    case Invoke(_, args, _) => args
    case Binary(_, l, r) => [l, r]
    case Compare(_, l, r) => [l, r]
    case And(l, r) => [l, r]
    case Or(l, r) => [l, r]
    case Cond(c, yes, no) => [c, yes, no]
    case Coalesce(l, r) => [l, r]
    case Assign(_, _, _, rhs) => [rhs]
  }

  lemma {:induction false} EventsGrow(w: World, e: Exp, h: Trace)
    ensures h <= Eval(w, e, h).1
    decreases e, 1
  {
    match e
    case Const(_, _) =>
    case Read(_, _) =>
    case Invoke(_, args, _) => ArgumentsInOrder(w, args, 0, h);
    case Binary(_, l, r) => EventsGrow(w, l, h); EventsGrow(w, r, Eval(w, l, h).1);
    case Compare(_, l, r) => EventsGrow(w, l, h); EventsGrow(w, r, Eval(w, l, h).1);
    case And(l, r) => EventsGrow(w, l, h); EventsGrow(w, r, Eval(w, l, h).1);
    case Or(l, r) => EventsGrow(w, l, h); EventsGrow(w, r, Eval(w, l, h).1);
    case Coalesce(l, r) => EventsGrow(w, l, h); EventsGrow(w, r, Eval(w, l, h).1);
    case Cond(c, yes, no) =>
      EventsGrow(w, c, h);
      EventsGrow(w, yes, Eval(w, c, h).1);
      EventsGrow(w, no, Eval(w, c, h).1);
    case Assign(_, _, _, rhs) => EventsGrow(w, rhs, h);
  }

  /** The arguments of a call act one after the other. */
  lemma {:induction false} ArgumentsInOrder(w: World, es: seq<Exp>, k: nat, h: Trace)
    requires k <= |es|
    ensures h <= EvalAll(w, es[..k], h).1 <= EvalAll(w, es, h).1
    decreases es, 0
  {
    if es != [] {
      var n := |es| - 1;
      EventsGrow(w, es[n], EvalAll(w, es[..n], h).1);
      if k <= n {
        ArgumentsInOrder(w, es[..n], k, h);
        assert es[..n][..k] == es[..k];
      } else {
        ArgumentsInOrder(w, es[..n], 0, h);
        assert es[..k] == es;
      }
    }
  }

  /** The first operand acts first, before any other operand and the operation itself. */
  lemma FirstOperandFirst(w: World, e: Exp, h: Trace)
    requires Operands(e) != []
    ensures Eval(w, Operands(e)[0], h).1 <= Eval(w, e, h).1
  {
    match e
    case Invoke(_, args, _) =>
      ArgumentsInOrder(w, args, 1, h);
      assert args[..1] == [args[0]] && args[..1][..0] == [];
    case Binary(_, l, r) => EventsGrow(w, r, Eval(w, l, h).1);
    case Compare(_, l, r) => EventsGrow(w, r, Eval(w, l, h).1);
    case And(l, r) => EventsGrow(w, r, Eval(w, l, h).1);
    case Or(l, r) => EventsGrow(w, r, Eval(w, l, h).1);
    case Coalesce(l, r) => EventsGrow(w, r, Eval(w, l, h).1);
    case Cond(c, yes, no) =>
      EventsGrow(w, yes, Eval(w, c, h).1);
      EventsGrow(w, no, Eval(w, c, h).1);
    case Assign(_, _, _, _) =>
  }

  // ---------------------------------------------------------------- the casts are those of the numeric types

  function NumTypeOf(ty: Ty): Numeric.NumType {
    if ty == TBool then Numeric.BoolType else Numeric.Int32
  }

  /** Casts keep and test values as those of the numeric types do, and two operands are cast to the type these have. */
  lemma CastsAreNumeric(from: Ty, to: Ty, raw: int)
    requires Numeric.IsRaw(NumTypeOf(from), raw)
    ensures
      var cast := Numeric.CastTo(NumTypeOf(from), NumTypeOf(to), raw);
      && Numeric.IsRaw(NumTypeOf(to), cast)
      && Numeric.Value(NumTypeOf(to), cast) == Norm(to, Numeric.Value(NumTypeOf(from), raw))
    ensures NumTypeOf(Common(from, to)) == Numeric.OperationType(NumTypeOf(from), NumTypeOf(to))
  {
    Numeric.CastKeepsValue(NumTypeOf(from), NumTypeOf(to), raw);
  }

  // ---------------------------------------------------------------- the number of blocks

  /**
   The blocks that an expression needs: two for `&&` and `||`, three for a ternary and two for `??`, unless
   what they choose from is constants and variables.
   */
  function Blocks(e: Exp): nat
    decreases e, 1
  {
    match e
    case Const(_, _) => 0
    case Read(_, _) => 0
    case Invoke(_, args, _) => AllBlocks(args)
    case Binary(_, l, r) => Blocks(l) + Blocks(r)
    case Compare(_, l, r) => Blocks(l) + Blocks(r)
    case And(l, r) => 2 + Blocks(l) + Blocks(r)
    case Or(l, r) => 2 + Blocks(l) + Blocks(r)
    case Cond(c, yes, no) =>
      Blocks(c) + if (yes.Const? || yes.Read?) && (no.Const? || no.Read?) then 0 else 3 + Blocks(yes) + Blocks(no)
    case Coalesce(l, r) => Blocks(l) + if r.Const? || r.Read? then 0 else 2 + Blocks(r)
    case Assign(_, _, _, rhs) => Blocks(rhs)
  }

  function AllBlocks(es: seq<Exp>): nat
    decreases es, 0
  {
    if es == [] then 0 else AllBlocks(es[..|es| - 1]) + Blocks(es[|es| - 1])
  }

  /** The code of an expression has exactly these blocks. */
  lemma {:induction false} BlocksCounted(g: Graph, e: Exp, a: Point, c: Ctr)
    requires a.b < c.block && ExpCode(g, e, a, c).Some?
    ensures ExpCode(g, e, a, c).value.c.block == c.block + Blocks(e)
    decreases e, 1
  {
    hide InvokeCode, BinaryCode, CompareCode, LogicalCode, BranchingCode, SelectCode, CoalesceCode, AssignCode;
    match e
    case Const(_, _) =>
    case Read(_, _) =>
    case Invoke(_, _, _) => PlainBlocksCounted(g, e, a, c);
    case Binary(_, _, _) => PlainBlocksCounted(g, e, a, c);
    case Compare(_, _, _) => PlainBlocksCounted(g, e, a, c);
    case And(_, _) => LogicalBlocksCounted(g, e, a, c);
    case Or(_, _) => LogicalBlocksCounted(g, e, a, c);
    case Cond(_, yes, no) =>
      if Complex(yes) || Complex(no) { BranchingBlocksCounted(g, e, a, c); } else { SelectBlocksCounted(g, e, a, c); }
    case Coalesce(_, _) => CoalescingBlocksCounted(g, e, a, c);
    case Assign(_, _, _, _) => AssignBlocksCounted(g, e, a, c);
  }

  lemma {:induction false} PlainBlocksCounted(g: Graph, e: Exp, a: Point, c: Ctr)
    requires a.b < c.block
    requires
      || (e.Invoke? && InvokeCode(g, e, a, c).Some?)
      || (e.Binary? && BinaryCode(g, e, a, c).Some?)
      || (e.Compare? && CompareCode(g, e, a, c).Some?)
    ensures e.Invoke? ==> InvokeCode(g, e, a, c).value.c.block == c.block + Blocks(e)
    ensures e.Binary? ==> BinaryCode(g, e, a, c).value.c.block == c.block + Blocks(e)
    ensures e.Compare? ==> CompareCode(g, e, a, c).value.c.block == c.block + Blocks(e)
    decreases e, 0
  {
    hide ExpCode, ArgsCode;
    if e.Invoke? {
      ArgumentBlocksCounted(g, e.args, a, c);
    } else {
      var m := ExpCode(g, e.l, a, c).value;
      BlocksCounted(g, e.l, a, c);
      BlocksCounted(g, e.r, m.p, m.c);
    }
  }

  lemma {:induction false} AssignBlocksCounted(g: Graph, e: Exp, a: Point, c: Ctr)
    requires e.Assign? && a.b < c.block && AssignCode(g, e, a, c).Some?
    ensures AssignCode(g, e, a, c).value.c.block == c.block + Blocks(e)
    decreases e, 0
  {
    hide ExpCode;
    BlocksCounted(g, e.rhs, a, c);
  }

  lemma {:induction false} ArgumentBlocksCounted(g: Graph, es: seq<Exp>, a: Point, c: Ctr)
    requires a.b < c.block && ArgsCode(g, es, a, c).Some?
    ensures ArgsCode(g, es, a, c).value.c.block == c.block + AllBlocks(es)
    decreases es, 0
  {
    if es != [] {
      var n := |es| - 1;
      var m := ArgsCode(g, es[..n], a, c).value;
      ArgumentBlocksCounted(g, es[..n], a, c);
      BlocksCounted(g, es[n], m.p, m.c);
    }
  }

  /** Tests, branches and blocks of their own are made of the code of the expression. */
  lemma BoolHasExp(g: Graph, e: Exp, a: Point, c: Ctr)
    requires a.b < c.block && BoolCode(g, e, a, c).Some?
    ensures ExpCode(g, e, a, c).Some?
    ensures BoolCode(g, e, a, c).value.c.block == ExpCode(g, e, a, c).value.c.block
  {
    hide ExpCode;
  }

  lemma BranchHasExp(g: Graph, e: Exp, yes: BlockId, no: BlockId, a: Point, c: Ctr)
    requires a.b < c.block && BranchCode(g, e, yes, no, a, c).Some?
    ensures ExpCode(g, e, a, c).Some?
    ensures BranchCode(g, e, yes, no, a, c).value.c.block == ExpCode(g, e, a, c).value.c.block
  {
    hide ExpCode, BoolCode;
    BoolHasExp(g, e, a, c);
  }

  lemma ArmHasExp(g: Graph, e: Exp, start: BlockId, end: BlockId, c: Ctr)
    requires start < c.block
    ensures ArmCode(g, e, start, end, c).Some? ==>
      && ExpCode(g, e, Point(start, 0), c).Some?
      && ArmCode(g, e, start, end, c).value.c.block == ExpCode(g, e, Point(start, 0), c).value.c.block
    ensures BoolArmCode(g, e, start, end, c).Some? ==>
      && ExpCode(g, e, Point(start, 0), c).Some?
      && BoolArmCode(g, e, start, end, c).value.c.block == ExpCode(g, e, Point(start, 0), c).value.c.block
  {
    hide ExpCode, BoolCode;
    if BoolArmCode(g, e, start, end, c).Some? { BoolHasExp(g, e, Point(start, 0), c); }
  }

  lemma {:induction false} LogicalBlocksCounted(g: Graph, e: Exp, a: Point, c: Ctr)
    requires (e.And? || e.Or?) && a.b < c.block && LogicalCode(g, e, a, c).Some?
    ensures LogicalCode(g, e, a, c).value.c.block == c.block + 2 + Blocks(e.l) + Blocks(e.r)
    decreases e, 0
  {
    hide ExpCode, BranchCode, BoolArmCode, BoolCode;
    var first, second := c.block, c.block + 1;
    var yes, no := if e.And? then first else second, if e.And? then second else first;
    var c1 := c.(block := c.block + 2);
    var l := BranchCode(g, e.l, yes, no, a, c1).value;
    BranchHasExp(g, e.l, yes, no, a, c1);
    BlocksCounted(g, e.l, a, c1);
    ArmHasExp(g, e.r, first, second, l.c);
    BlocksCounted(g, e.r, Point(first, 0), l.c);
  }

  lemma {:induction false} BranchingBlocksCounted(g: Graph, e: Exp, a: Point, c: Ctr)
    requires e.Cond? && TypeOf(e.yes) == TypeOf(e.no) && a.b < c.block && BranchingCode(g, e, a, c).Some?
    ensures BranchingCode(g, e, a, c).value.c.block == c.block + Blocks(e.c) + 3 + Blocks(e.yes) + Blocks(e.no)
    decreases e, 0
  {
    hide ExpCode, BoolCode, ArmCode;
    var t := BoolCode(g, e.c, a, c).value;
    BoolHasExp(g, e.c, a, c);
    BlocksCounted(g, e.c, a, c);
    var yes, no, end, c1 := t.c.block, t.c.block + 1, t.c.block + 2, t.c.(block := t.c.block + 3);
    ArmsHaveCode(g, e, yes, no, end, c1);
    var y := ArmCode(g, e.yes, yes, end, c1).value;
    ArmHasExp(g, e.yes, yes, end, c1);
    BlocksCounted(g, e.yes, Point(yes, 0), c1);
    ArmHasExp(g, e.no, no, end, y.c);
    BlocksCounted(g, e.no, Point(no, 0), y.c);
  }

  lemma ArmsHaveCode(g: Graph, e: Exp, yes: BlockId, no: BlockId, end: BlockId, c: Ctr)
    requires e.Cond? && TypeOf(e.yes) == TypeOf(e.no) && yes < c.block && no < c.block
    requires ArmsCode(g, e, yes, no, end, c).Some?
    ensures
      var y := ArmCode(g, e.yes, yes, end, c);
      y.Some? && no < y.value.c.block
      && var n := ArmCode(g, e.no, no, end, y.value.c);
        n.Some? && ArmsCode(g, e, yes, no, end, c).value.c.block == n.value.c.block
  {
    hide ArmCode;
  }

  lemma {:induction false} SelectBlocksCounted(g: Graph, e: Exp, a: Point, c: Ctr)
    requires e.Cond? && TypeOf(e.yes) == TypeOf(e.no) && a.b < c.block && SelectCode(g, e, a, c).Some?
    requires !Complex(e.yes) && !Complex(e.no)
    ensures SelectCode(g, e, a, c).value.c.block == c.block + Blocks(e.c)
    decreases e, 0
  {
    hide ExpCode, BoolCode;
    var t := BoolCode(g, e.c, a, c).value;
    BoolHasExp(g, e.c, a, c);
    BlocksCounted(g, e.c, a, c);
    var y := ExpCode(g, e.yes, t.p, t.c).value;
    BlocksCounted(g, e.yes, t.p, t.c);
    BlocksCounted(g, e.no, y.p, y.c);
  }

  lemma {:induction false} CoalescingBlocksCounted(g: Graph, e: Exp, a: Point, c: Ctr)
    requires e.Coalesce? && a.b < c.block && CoalesceCode(g, e, a, c).Some?
    ensures CoalesceCode(g, e, a, c).value.c.block == c.block + Blocks(e)
    decreases e, 0
  {
    hide ExpCode, FallbackCode;
    var l := ExpCode(g, e.l, a, c).value;
    var t := CastCode(g, l.rv, TBool, l.p, l.c).value;
    BlocksCounted(g, e.l, a, c);
    if Complex(e.r) {
      FallbackHasArm(g, e, l, t);
      var c1 := t.c.(block := t.c.block + 2);
      ArmHasExp(g, e.r, t.c.block, t.c.block + 1, c1);
      BlocksCounted(g, e.r, Point(t.c.block, 0), c1);
    } else {
      BlocksCounted(g, e.r, t.p, t.c);
    }
  }

  lemma FallbackHasArm(g: Graph, e: Exp, l: ExpEnd, t: ExpEnd)
    requires e.Coalesce? && TypeOf(e.r) == l.rv.ty && t.p.b < t.c.block && Below(l.rv.op, t.c.reg)
    requires FallbackCode(g, e, l, t).Some?
    ensures
      var r := ArmCode(g, e.r, t.c.block, t.c.block + 1, t.c.(block := t.c.block + 2));
      r.Some? && FallbackCode(g, e, l, t).value.c.block == r.value.c.block
  {
    hide ArmCode;
  }
}
