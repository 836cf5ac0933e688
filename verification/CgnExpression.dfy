/**
 The visitors that lower expressions.  They emit into the code context they are given; a
 missing result stands for the null value that a failed visit hands on.
 */
module CgnExpressions {
  import opened Options
  import opened Cfg
  import opened Source
  import opened Layout
  import opened Stability
  import opened Emission
  import opened CodeContexts
  import opened Laying
  import opened Evaluation

  /** What a null operand leaves in an instruction. */
  function OpOf(rv: Option<RValue>): Operand {
    if rv.Some? then rv.value.op else Imm(0)
  }

  ghost predicate Known(rv: Option<RValue>, reg: nat) {
    rv.Some? ==> Below(rv.value.op, reg)
  }

  method CastTo(context: CodeContext, rv: Option<RValue>, ty: Ty) returns (r: Option<RValue>)
    requires Sound(context.State()) && Known(rv, context.State().reg)
    modifies context
    ensures Evaluated(old(context.State()), context.State()) && AllPlaced(old(context.State()), context.State())
    ensures context.errors == old(context.errors)
    ensures r.Some? == rv.Some? && Known(r, context.State().reg)
    ensures rv.Some? ==>
      var s0, s1 := old(context.State()), context.State();
      CastCode(s1.g, rv.value, ty, Now(s0), CtrOf(s0)) == Some(ExpEnd(Now(s1), r.value, CtrOf(s1)))
  {
    hide Evaluated;
    if rv.None? || rv.value.ty == ty {
      EvaluatedRefl(context.State());
      return rv;
    }
    ghost var s0 := context.State();
    var dst := context.NextReg();
    context.Emit(Cast(dst, rv.value.op, ty));
    r := Some(RValue(Reg(dst), ty));
    ComputedSound(s0, Cast(dst, rv.value.op, ty));
  }

  method Load(context: CodeContext, x: Symbol, ty: Ty) returns (r: RValue)
    requires Sound(context.State())
    modifies context
    ensures Evaluated(old(context.State()), context.State()) && AllPlaced(old(context.State()), context.State())
    ensures context.errors == old(context.errors)
    ensures Below(r.op, context.State().reg)
    ensures
      var s0, s1 := old(context.State()), context.State();
      LoadCode(s1.g, x, ty, Now(s0), CtrOf(s0)) == Some(ExpEnd(Now(s1), r, CtrOf(s1)))
  {
    ghost var s0 := context.State();
    var dst := context.NextReg();
    context.Emit(Instr.Load(dst, x, ty));
    r := RValue(Reg(dst), ty);
    ComputedSound(s0, Instr.Load(dst, x, ty));
  }

  /** Brings two operands to their common type; a null operand stops it. */
  method CastMatch(context: CodeContext, lhs: Option<RValue>, rhs: Option<RValue>)
    returns (l: Option<RValue>, r: Option<RValue>)
    requires Sound(context.State()) && Known(lhs, context.State().reg) && Known(rhs, context.State().reg)
    modifies context
    ensures Evaluated(old(context.State()), context.State()) && AllPlaced(old(context.State()), context.State())
    ensures context.errors == old(context.errors)
    ensures (l.Some? <==> lhs.Some? && rhs.Some?) && l.Some? == r.Some?
    ensures Known(l, context.State().reg) && Known(r, context.State().reg)
    ensures lhs.Some? && rhs.Some? ==>
      var s0, s1 := old(context.State()), context.State();
      var ty := Common(lhs.value.ty, rhs.value.ty);
      var m := CastCode(s1.g, lhs.value, ty, Now(s0), CtrOf(s0));
      && m.Some? && m.value.rv == l.value
      && CastCode(s1.g, rhs.value, ty, m.value.p, m.value.c) == Some(ExpEnd(Now(s1), r.value, CtrOf(s1)))
  {
    hide Sound, Grows;
    ghost var s0 := context.State();
    Basics(s0);
    if lhs.None? || rhs.None? {
      EvaluatedRefl(s0);
      return None, None;
    }
    var ty := Common(lhs.value.ty, rhs.value.ty);
    l := CastTo(context, lhs, ty);
    ghost var s1 := context.State();
    Basics(s1);
    GrowsBasics(s0, s1);
    r := CastTo(context, rhs, ty);
    ghost var s2 := context.State();
    Basics(s2);
    GrowsBasics(s1, s2);
    EvaluatedThen(s0, s1, s2);
    CastStable(s1.g, s2.g, lhs.value, ty, Now(s0), CtrOf(s0));
  }

  method BinaryOp(context: CodeContext, op: Symbol, lhs: Option<RValue>, rhs: Option<RValue>)
    returns (rv: Option<RValue>)
    requires Sound(context.State()) && Known(lhs, context.State().reg) && Known(rhs, context.State().reg)
    modifies context
    ensures Evaluated(old(context.State()), context.State()) && AllPlaced(old(context.State()), context.State())
    ensures context.errors == old(context.errors)
    ensures (rv.Some? <==> lhs.Some? && rhs.Some?) && Known(rv, context.State().reg)
    ensures lhs.Some? && rhs.Some? ==>
      var s0, s1 := old(context.State()), context.State();
      PrimCode(s1.g, op, lhs.value, rhs.value, Now(s0), CtrOf(s0)) == Some(ExpEnd(Now(s1), rv.value, CtrOf(s1)))
  {
    hide Sound, Grows, Extends, Extended, CastCode, TargetBlocks, Preds;
    ghost var s0 := context.State();
    var l, r := CastMatch(context, lhs, rhs);
    if l.None? {
      return None;
    }
    ghost var s1 := context.State();
    Basics(s0);
    Basics(s1);
    GrowsBasics(s0, s1);
    var dst := context.NextReg();
    var ty := Common(lhs.value.ty, rhs.value.ty);
    var ins := Prim(dst, op, ty, l.value.op, r.value.op);
    context.Emit(ins);
    rv := Some(RValue(Reg(dst), ty));
    ghost var s2 := context.State();
    ComputedSound(s1, ins);
    EvaluatedThen(s0, s1, s2);
    MatchStays(s0, s1, s2, lhs.value, rhs.value, ty);
  }

  method Compare(context: CodeContext, op: Symbol, lhs: Option<RValue>, rhs: Option<RValue>)
    returns (rv: Option<RValue>)
    requires Sound(context.State()) && Known(lhs, context.State().reg) && Known(rhs, context.State().reg)
    modifies context
    ensures Evaluated(old(context.State()), context.State()) && AllPlaced(old(context.State()), context.State())
    ensures context.errors == old(context.errors)
    ensures (rv.Some? <==> lhs.Some? && rhs.Some?) && Known(rv, context.State().reg)
    ensures lhs.Some? && rhs.Some? ==>
      var s0, s1 := old(context.State()), context.State();
      CmpCode(s1.g, op, lhs.value, rhs.value, Now(s0), CtrOf(s0)) == Some(ExpEnd(Now(s1), rv.value, CtrOf(s1)))
  {
    hide Sound, Grows, Extends, Extended, CastCode, TargetBlocks, Preds;
    ghost var s0 := context.State();
    var l, r := CastMatch(context, lhs, rhs);
    if l.None? {
      return None;
    }
    ghost var s1 := context.State();
    Basics(s0);
    Basics(s1);
    GrowsBasics(s0, s1);
    var dst := context.NextReg();
    var ins := Cmp(dst, op, l.value.op, r.value.op);
    context.Emit(ins);
    rv := Some(RValue(Reg(dst), TBool));
    ghost var s2 := context.State();
    ComputedSound(s1, ins);
    EvaluatedThen(s0, s1, s2);
    MatchStays(s0, s1, s2, lhs.value, rhs.value, Common(lhs.value.ty, rhs.value.ty));
  }

  /** Two casts stay laid out while more code is added. */
  lemma MatchStays(s0: Snap, s1: Snap, s2: Snap, l: RValue, r: RValue, ty: Ty)
    requires Placed(s0) && Placed(s1) && Extended(s1.g, s2.g)
    requires Below(l.op, s0.reg) && Below(r.op, s0.reg)
    requires
      var m := CastCode(s1.g, l, ty, Now(s0), CtrOf(s0));
      m.Some? && CastCode(s1.g, r, ty, m.value.p, m.value.c).Some?
    ensures
      var m := CastCode(s1.g, l, ty, Now(s0), CtrOf(s0));
      && CastCode(s2.g, l, ty, Now(s0), CtrOf(s0)) == m
      && CastCode(s2.g, r, ty, m.value.p, m.value.c) == CastCode(s1.g, r, ty, m.value.p, m.value.c)
  {
    var m := CastCode(s1.g, l, ty, Now(s0), CtrOf(s0)).value;
    CastStable(s1.g, s2.g, l, ty, Now(s0), CtrOf(s0));
    CastStable(s1.g, s2.g, r, ty, m.p, m.c);
  }

  // ---------------------------------------------------------------- visitors

  /**
   A visit of `e` took the state from `s0` to `s1`.  An error is reported exactly when `e` is not
   well typed; otherwise the code of `e` lies between the two states and `rv` is its result.
   */
  ghost predicate Lowered(s0: Snap, errors0: nat, e: Exp, s1: Snap, errors1: nat, rv: Option<RValue>) {
    && Evaluated(s0, s1) && AllPlaced(s0, s1)
    && errors1 >= errors0
    && (errors1 == errors0 <==> WellTyped(e))
    && Known(rv, s1.reg)
    && (errors1 == errors0 ==> rv.Some? && ExpIs(s0, e, s1, rv.value))
  }

  method Visit(context: CodeContext, e: Exp) returns (rv: Option<RValue>)
    requires Sound(context.State())
    modifies context
    ensures Lowered(old(context.State()), old(context.errors), e, context.State(), context.errors, rv)
    ensures context.errors == old(context.errors) ==> |context.State().g| == |old(context.State()).g| + Blocks(e)
    decreases e, 2
  {
    hide Sound, Grows, Blocks;
    ghost var s0, errors0 := context.State(), context.errors;
    Basics(s0);
    match e {
    case Const(v, ty) =>
      rv := Some(RValue(Imm(Norm(ty, v)), ty));
      EvaluatedRefl(s0);
    case Read(x, ty) =>
      var r := Load(context, x, ty);
      rv := Some(r);
      Basics(context.State());
    case Invoke(_, _, _) => rv := VisitInvoke(context, e);
    case Binary(_, _, _) => rv := VisitBinary(context, e);
    case Compare(_, _, _) => rv := VisitCompare(context, e);
    case And(_, _) => rv := VisitLogical(context, e);
    case Or(_, _) => rv := VisitLogical(context, e);
    case Cond(_, _, _) => rv := VisitTernary(context, e);
    case Coalesce(_, _) => rv := VisitNullCoalescing(context, e);
    case Assign(_, _, _, _) => rv := VisitAssignment(context, e);
    }
    if context.errors == errors0 { BlocksLaid(s0, errors0, e, context.State(), rv); }
  }

  lemma BlocksLaid(s0: Snap, errors: nat, e: Exp, s1: Snap, rv: Option<RValue>)
    requires Sound(s0) && Lowered(s0, errors, e, s1, errors, rv)
    ensures |s1.g| == |s0.g| + Blocks(e)
  {
    hide Sound, Grows, ExpCode, Blocks;
    Basics(s0);
    BlocksCounted(s1.g, e, Now(s0), CtrOf(s0));
  }

  method VisitBinary(context: CodeContext, e: Exp) returns (rv: Option<RValue>)
    requires e.Binary? && Sound(context.State())
    modifies context
    ensures Lowered(old(context.State()), old(context.errors), e, context.State(), context.errors, rv)
    decreases e, 1
  {
    hide Sound, Grows;
    ghost var s0 := context.State();
    var l := Visit(context, e.l);
    ghost var s1 := context.State();
    var r := Visit(context, e.r);
    ghost var s2 := context.State();
    GrowsBasics(s1, s2);
    rv := BinaryOp(context, e.op, l, r);
    ghost var s3 := context.State();
    PairStays(s0, s1, s2, s3);
    if WellTyped(e) {
      ExpStays(s0, e.l, s1, l.value, s3.g);
      ExpStays(s1, e.r, s2, r.value, s3.g);
      assert BinaryCode(s3.g, e, Now(s0), CtrOf(s0)) == Some(ExpEnd(Now(s3), rv.value, CtrOf(s3)));
    }
  }

  method VisitCompare(context: CodeContext, e: Exp) returns (rv: Option<RValue>)
    requires e.Compare? && Sound(context.State())
    modifies context
    ensures Lowered(old(context.State()), old(context.errors), e, context.State(), context.errors, rv)
    decreases e, 1
  {
    hide Sound, Grows;
    ghost var s0 := context.State();
    var l := Visit(context, e.l);
    ghost var s1 := context.State();
    var r := Visit(context, e.r);
    ghost var s2 := context.State();
    GrowsBasics(s1, s2);
    rv := Compare(context, e.op, l, r);
    ghost var s3 := context.State();
    PairStays(s0, s1, s2, s3);
    if WellTyped(e) {
      ExpStays(s0, e.l, s1, l.value, s3.g);
      ExpStays(s1, e.r, s2, r.value, s3.g);
      assert CompareCode(s3.g, e, Now(s0), CtrOf(s0)) == Some(ExpEnd(Now(s3), rv.value, CtrOf(s3)));
    }
  }

  /** Three visits in a row. */
  lemma PairStays(s0: Snap, s1: Snap, s2: Snap, s3: Snap)
    requires Evaluated(s0, s1) && Evaluated(s1, s2) && Evaluated(s2, s3)
    requires AllPlaced(s0, s1) && AllPlaced(s1, s2) && AllPlaced(s2, s3)
    ensures Evaluated(s0, s3) && AllPlaced(s0, s3)
    ensures Extended(s1.g, s3.g) && Extended(s2.g, s3.g)
    ensures Placed(s0) && Placed(s1) && Placed(s2) && Placed(s3)
  {
    hide Sound, Grows;
    EvaluatedThen(s0, s1, s2);
    EvaluatedThen(s1, s2, s3);
    EvaluatedThen(s0, s2, s3);
    Basics(s0);
    Basics(s1);
    Basics(s2);
    Basics(s3);
  }

  method VisitInvoke(context: CodeContext, e: Exp) returns (rv: Option<RValue>)
    requires e.Invoke? && Sound(context.State())
    modifies context
    ensures Lowered(old(context.State()), old(context.errors), e, context.State(), context.errors, rv)
    decreases e, 1
  {
    hide Sound, Grows;
    ghost var s0 := context.State();
    var ops := Collect(context, e.args);
    ghost var s1 := context.State();
    Basics(s0);
    Basics(s1);
    var dst := context.NextReg();
    var ins := Call(dst, e.f, ops, e.ty);
    context.Emit(ins);
    rv := Some(RValue(Reg(dst), e.ty));
    ghost var s2 := context.State();
    ComputedSound(s1, ins);
    EvaluatedThen(s0, s1, s2);
    if WellTyped(e) {
      ArgsStable(s1.g, s2.g, e.args, Now(s0), CtrOf(s0));
      assert InvokeCode(s2.g, e, Now(s0), CtrOf(s0)) == Some(ExpEnd(Now(s2), rv.value, CtrOf(s2)));
    }
  }

  /** Visits the arguments of a call, left to right. */
  method Collect(context: CodeContext, es: seq<Exp>) returns (ops: seq<Operand>)
    requires Sound(context.State())
    modifies context
    ensures Evaluated(old(context.State()), context.State()) && AllPlaced(old(context.State()), context.State())
    ensures context.errors >= old(context.errors)
    ensures context.errors == old(context.errors) <==> AllWellTyped(es)
    ensures
      var s0, s1 := old(context.State()), context.State();
      context.errors == old(context.errors) ==>
        && Placed(s0) && Placed(s1)
        && ArgsCode(s1.g, es, Now(s0), CtrOf(s0)) == Some(ArgsEnd(Now(s1), ops, CtrOf(s1)))
    decreases es
  {
    hide Sound, Grows;
    ghost var s0, errors0 := context.State(), context.errors;
    ops := [];
    var i := 0;
    EvaluatedRefl(s0);
    Basics(s0);
    while i < |es|
      invariant 0 <= i <= |es|
      invariant Evaluated(s0, context.State()) && AllPlaced(s0, context.State())
      invariant context.errors >= errors0
      invariant context.errors == errors0 <==> AllWellTyped(es[..i])
      invariant Placed(context.State())
      invariant
        var s1 := context.State();
        context.errors == errors0 ==>
            ArgsCode(s1.g, es[..i], Now(s0), CtrOf(s0))
            == Some(ArgsEnd(Now(s1), ops, CtrOf(s1)))
    {
      ghost var s1, errors1 := context.State(), context.errors;
      var rv := Visit(context, es[i]);
      ghost var s2 := context.State();
      EvaluatedThen(s0, s1, s2);
      Basics(s2);
      assert es[..i + 1][..i] == es[..i] && es[..i + 1][i] == es[i];
      if context.errors == errors0 {
        ArgsStable(s1.g, s2.g, es[..i], Now(s0), CtrOf(s0));
      }
      ops := ops + [OpOf(rv)];
      i := i + 1;
    }
    assert es[..i] == es;
  }

  ghost predicate Tested(s0: Snap, errors0: nat, e: Exp, s1: Snap, errors1: nat, rv: Option<RValue>) {
    && Evaluated(s0, s1) && AllPlaced(s0, s1)
    && errors1 >= errors0
    && (errors1 == errors0 <==> WellTyped(e))
    && Known(rv, s1.reg)
    && (errors1 == errors0 ==> rv.Some? && rv.value.ty == TBool && BoolIs(s0, e, s1, rv.value))
  }

  /** Visits an expression and casts it to `bool`. */
  method VisitBool(context: CodeContext, e: Exp) returns (rv: Option<RValue>)
    requires Sound(context.State())
    modifies context
    ensures Tested(old(context.State()), old(context.errors), e, context.State(), context.errors, rv)
    decreases e, 3
  {
    hide Sound, Grows;
    ghost var s0 := context.State();
    var v := Visit(context, e);
    ghost var s1 := context.State();
    rv := CastTo(context, v, TBool);
    ghost var s2 := context.State();
    EvaluatedThen(s0, s1, s2);
    Basics(s0);
    Basics(s1);
    Basics(s2);
    if WellTyped(e) {
      ExpStays(s0, e, s1, v.value, s2.g);
    }
  }

  /** Tests an expression and branches on the result; `mid` is the state in which the branch is taken. */
  method Branch(context: CodeContext, trueBlock: BlockId, falseBlock: BlockId, e: Exp)
    returns (rv: Option<RValue>, ghost mid: Snap)
    requires Sound(context.State())
    modifies context
    ensures Tested(old(context.State()), old(context.errors), e, mid, context.errors, rv)
    ensures Placed(mid) && mid.g[Cur(mid)].term.None?
    ensures context.State() == Ended(mid, CondBr(OpOf(rv), trueBlock, falseBlock))
    decreases e, 4
  {
    hide Sound, Grows;
    rv := VisitBool(context, e);
    mid := context.State();
    Basics(mid);
    context.Terminate(CondBr(OpOf(rv), trueBlock, falseBlock));
  }

  /** Visits an operand in a block of its own, which goes on at `end`; `m` is the state that the operand leaves. */
  method VisitArm(context: CodeContext, block: BlockId, e: Exp, end: BlockId)
    returns (rv: Option<RValue>, blk: BlockId, ghost m: Snap)
    requires Sound(Pushed(context.State(), block))
    modifies context
    ensures Lowered(Pushed(old(context.State()), block), old(context.errors), e, m, context.errors, rv)
    ensures Placed(m) && m.g[Cur(m)].term.None? && blk == Cur(m)
    ensures context.State() == Ended(m, Br(end))
    decreases e, 4
  {
    hide Sound, Grows, WellTyped, ExpIs;
    context.PushBlock(block);
    rv := Visit(context, e);
    m := context.State();
    Basics(m);
    blk := context.CurrBlock();
    context.Terminate(Br(end));
  }

  method VisitLogical(context: CodeContext, e: Exp) returns (rv: Option<RValue>)
    requires (e.And? || e.Or?) && Sound(context.State())
    modifies context
    ensures Lowered(old(context.State()), old(context.errors), e, context.State(), context.errors, rv)
    decreases e, 1
  {
    hide EnvOk, To, Sources, Within, Now, CodeContext.CurrBlock, Extended, AllPlaced, CtrOf, BoolIs, PhisAgree;
    hide ArgsCode, Sound, Grows, Waiting, Preds, TargetBlocks, ExpCode, BoolCode, CodeContext.State, HasPhi, Below;
    ghost var s0 := context.State();
    Basics(s0);
    var firstBlock := context.CreateBlock();
    var secondBlock := context.CreateBlock();
    TwoCreated(s0);
    ghost var s2 := context.State();
    var trueBlock, falseBlock := if e.And? then firstBlock else secondBlock, if e.And? then secondBlock else firstBlock;
    var l, m1 := Branch(context, trueBlock, falseBlock, e.l);
    var lBlk := context.CurrBlock();

    context.PushBlock(firstBlock);
    ghost var s3, errors1 := context.State(), context.errors;
    JoinFirst(s0, m1, CondBr(OpOf(l), trueBlock, falseBlock));
    var r := VisitBool(context, e.r);
    ghost var m2 := context.State();
    Basics(m2);
    var rBlk := context.CurrBlock();
    context.Terminate(Br(secondBlock));

    context.PushBlock(secondBlock);
    ghost var s4 := context.State();
    var dst := context.NextReg();
    JoinSecond(s0, s3, m2, Cur(m1));
    Basics(s4);
    context.Emit(Phi(dst, [(OpOf(l), lBlk), (OpOf(r), rBlk)]));
    rv := Some(RValue(Reg(dst), TBool));
    LogicalLowered(s0, old(context.errors), e, m1, errors1, l, s3, m2, context.errors, r, s4);
  }

  lemma LogicalLowered(s0: Snap, errors0: nat, e: Exp, m1: Snap, errors1: nat, l: Option<RValue>, s3: Snap, m2: Snap,
                       errors2: nat, r: Option<RValue>, s4: Snap)
    requires e.And? || e.Or?
    requires Sound(s0) && Tested(Created(Created(s0)), errors0, e.l, m1, errors1, l)
    requires Placed(m1) && Placed(m2)
    requires s3 == Moved(m1, if e.And? then CondBr(OpOf(l), |s0.g|, |s0.g| + 1)
                         else CondBr(OpOf(l), |s0.g| + 1, |s0.g|), |s0.g|)
    requires Tested(s3, errors1, e.r, m2, errors2, r)
    requires s4 == Moved(m2, Br(|s0.g| + 1), |s0.g| + 1) && Placed(s4)
    ensures
      var s5 := Computed(s4, Phi(s4.reg, [(OpOf(l), Cur(m1)), (OpOf(r), Cur(m2))]));
      Lowered(s0, errors0, e, s5, errors2, Some(RValue(Reg(s4.reg), TBool)))
  {
    hide Sound, Grows, Waiting, Preds, TargetBlocks, ExpCode, BoolCode;
    var t := if e.And? then CondBr(OpOf(l), |s0.g|, |s0.g| + 1) else CondBr(OpOf(l), |s0.g| + 1, |s0.g|);
    var s2, s5 := Created(Created(s0)), Computed(s4, Phi(s4.reg, [(OpOf(l), Cur(m1)), (OpOf(r), Cur(m2))]));
    Basics(s0);
    Basics(m1);
    TwoCreated(s0);
    JoinSound(s0, m1, t, OpOf(l), s3, m2, OpOf(r), s4);
    Basics(s3);
    Basics(s5);
    if errors2 == errors0 {
      LogicalLaid(s0, e, s2, m1, l.value.op, s3, m2, r.value.op, s5);
    }
  }

  lemma LogicalLaid(s0: Snap, e: Exp, s2: Snap, m1: Snap, l: Operand, s3: Snap, m2: Snap, r: Operand, s5: Snap)
    requires e.And? || e.Or?
    requires Placed(s0) && Placed(s2) && Placed(m1) && Placed(s3) && Placed(m2) && Placed(s5)
    requires Now(s2) == Now(s0) && CtrOf(s2) == CtrOf(s0).(block := |s0.g| + 2)
    requires BoolIs(s2, e.l, m1, RValue(l, TBool)) && Extended(m1.g, s5.g)
    requires Ends(s5.g, Now(m1), if e.And? then CondBr(l, |s0.g|, |s0.g| + 1) else CondBr(l, |s0.g| + 1, |s0.g|)).Some?
    requires Now(s3) == Point(|s0.g|, 0) && CtrOf(s3) == CtrOf(m1)
    requires BoolIs(s3, e.r, m2, RValue(r, TBool)) && Extended(m2.g, s5.g)
    requires Ends(s5.g, Now(m2), Br(|s0.g| + 1)).Some?
    requires Then(s5.g, Point(|s0.g| + 1, 0), Phi(m2.reg, [(l, Cur(m1)), (r, Cur(m2))])) == Some(Now(s5))
    requires CtrOf(s5) == CtrOf(m2).(reg := m2.reg + 1)
    ensures ExpIs(s0, e, s5, RValue(Reg(m2.reg), TBool))
  {
    hide BoolCode, Extends;
    BoolStays(s2, e.l, m1, RValue(l, TBool), s5.g);
    BoolStays(s3, e.r, m2, RValue(r, TBool), s5.g);
    assert LogicalCode(s5.g, e, Now(s0), CtrOf(s0)) == Some(ExpEnd(Now(s5), RValue(Reg(m2.reg), TBool), CtrOf(s5)));
  }

  method VisitTernary(context: CodeContext, e: Exp) returns (rv: Option<RValue>)
    requires e.Cond? && Sound(context.State())
    modifies context
    ensures Lowered(old(context.State()), old(context.errors), e, context.State(), context.errors, rv)
    decreases e, 1
  {
    hide Sound, Grows, Waiting, Preds, TargetBlocks, ExpCode, BoolCode, CodeContext.State;
    ghost var s0, errors0 := context.State(), context.errors;
    Basics(s0);
    var condExp := VisitBool(context, e.c);
    ghost var s1, errors1 := context.State(), context.errors;
    Basics(s1);
    if Complex(e.yes) || Complex(e.no) {
      rv := BranchTernary(context, e, condExp, s0, errors0);
    } else {
      var trueExp := Visit(context, e.yes);
      ghost var s2, errors2 := context.State(), context.errors;
      var falseExp := Visit(context, e.no);
      ghost var s3, errors3 := context.State(), context.errors;
      Basics(s3);
      PairStays(s0, s1, s2, s3);
      if trueExp.Some? && falseExp.Some? && trueExp.value.ty == falseExp.value.ty {
        var dst := context.NextReg();
        context.Emit(Select(dst, OpOf(condExp), trueExp.value.op, falseExp.value.op));
        rv := Some(RValue(Reg(dst), trueExp.value.ty));
        SelectLowered(s0, errors0, e, s1, errors1, condExp, s2, errors2, trueExp, s3, errors3, falseExp);
      } else {
        context.AddError();
        rv := None;
        EvaluatedFailed(s0, s3);
        TypesKnown(s1, errors1, e.yes, s2, errors2, trueExp);
        TypesKnown(s2, errors2, e.no, s3, errors3, falseExp);
      }
    }
  }

  /** What every visit leaves behind. */
  lemma AfterVisit(s0: Snap, errors0: nat, e: Exp, s1: Snap, errors1: nat, rv: Option<RValue>)
    requires Lowered(s0, errors0, e, s1, errors1, rv)
    ensures Evaluated(s0, s1) && Sound(s1) && errors1 >= errors0
    ensures Placed(s1) && s1.placed != [] && s1.g[Cur(s1)].term.None? && s1.env == s0.env
  {
    hide Sound, Grows, WellTyped, ExpIs;
    Basics(s1);
  }

  lemma AfterTest(s0: Snap, errors0: nat, e: Exp, s1: Snap, errors1: nat, rv: Option<RValue>)
    requires Tested(s0, errors0, e, s1, errors1, rv)
    ensures Evaluated(s0, s1) && Sound(s1) && errors1 >= errors0
    ensures Placed(s1) && s1.placed != [] && s1.g[Cur(s1)].term.None? && s1.env == s0.env
  {
    hide Sound, Grows, WellTyped, BoolIs;
    Basics(s1);
  }

  /** The type of a visited expression is its static type. */
  lemma TypesKnown(s0: Snap, errors0: nat, e: Exp, s1: Snap, errors1: nat, rv: Option<RValue>)
    requires Lowered(s0, errors0, e, s1, errors1, rv) && errors1 == errors0
    ensures rv.Some? && rv.value.ty == TypeOf(e)
  {
  }

  lemma SelectLowered(s0: Snap, errors0: nat, e: Exp, s1: Snap, errors1: nat, t: Option<RValue>, s2: Snap, errors2: nat,
                      y: Option<RValue>, s3: Snap, errors3: nat, n: Option<RValue>)
    requires e.Cond? && !Complex(e.yes) && !Complex(e.no)
    requires Tested(s0, errors0, e.c, s1, errors1, t)
    requires Lowered(s1, errors1, e.yes, s2, errors2, y) && Lowered(s2, errors2, e.no, s3, errors3, n)
    requires y.Some? && n.Some? && y.value.ty == n.value.ty
    requires Placed(s3)
    ensures Lowered(s0, errors0, e, Computed(s3, Select(s3.reg, OpOf(t), y.value.op, n.value.op)), errors3,
                    Some(RValue(Reg(s3.reg), y.value.ty)))
  {
    hide Sound, Grows, ExpCode, BoolCode, Extended, TargetBlocks;
    var ins := Instr.Select(s3.reg, OpOf(t), y.value.op, n.value.op);
    var s4 := Computed(s3, ins);
    PairStays(s0, s1, s2, s3);
    ComputedSound(s3, ins);
    EvaluatedThen(s0, s3, s4);
    Basics(s4);
    if errors3 == errors0 {
      ExtendedThen(s1.g, s3.g, s4.g);
      ExtendedThen(s2.g, s3.g, s4.g);
      BoolStays(s0, e.c, s1, t.value, s4.g);
      ExpStays(s1, e.yes, s2, y.value, s4.g);
      ExpStays(s2, e.no, s3, n.value, s4.g);
      assert SelectCode(s4.g, e, Now(s0), CtrOf(s0)) == Some(ExpEnd(Now(s4), RValue(Reg(s3.reg), y.value.ty),
                                                                    CtrOf(s4)));
      TypesKnown(s1, errors1, e.yes, s2, errors2, y);
      TypesKnown(s2, errors2, e.no, s3, errors3, n);
      SelectIs(s0, e, s4, RValue(Reg(s3.reg), y.value.ty));
    }
  }

  lemma SelectIs(s0: Snap, e: Exp, s1: Snap, rv: RValue)
    requires e.Cond? && !Complex(e.yes) && !Complex(e.no) && TypeOf(e.yes) == TypeOf(e.no) && Placed(s0) && Placed(s1)
    requires SelectCode(s1.g, e, Now(s0), CtrOf(s0)) == Some(ExpEnd(Now(s1), rv, CtrOf(s1)))
    ensures ExpIs(s0, e, s1, rv)
  {
    hide SelectCode;
  }

  lemma CoalesceIs(s0: Snap, e: Exp, s1: Snap, rv: RValue)
    requires e.Coalesce? && Placed(s0) && Placed(s1)
    requires CoalesceCode(s1.g, e, Now(s0), CtrOf(s0)) == Some(ExpEnd(Now(s1), rv, CtrOf(s1)))
    ensures ExpIs(s0, e, s1, rv)
  {
    hide CoalesceCode;
  }

  /** `?:` with an operand that may act: each operand gets a block, and a phi joins them. */
  method BranchTernary(context: CodeContext, e: Exp, condExp: Option<RValue>, ghost s0: Snap, ghost errors0: nat)
    returns (rv: Option<RValue>)
    requires e.Cond? && (Complex(e.yes) || Complex(e.no))
    requires Tested(s0, errors0, e.c, context.State(), context.errors, condExp)
    modifies context
    ensures Lowered(s0, errors0, e, context.State(), context.errors, rv)
    decreases e, 0, 1
  {
    hide CodeContext.State, Lowered, Tested;
    var trueExp, tBlk, falseExp, fBlk := TernaryArms(context, e, condExp, s0, errors0);
    if trueExp.None? || falseExp.None? {
      return None;
    }
    if trueExp.value.ty != falseExp.value.ty {
      context.AddError();
      return None;
    }
    var dst := context.NextReg();
    context.Emit(Phi(dst, [(trueExp.value.op, tBlk), (falseExp.value.op, fBlk)]));
    rv := Some(RValue(Reg(dst), trueExp.value.ty));
  }

  /** The blocks of the two operands, and the block where they meet; the blocks from which that one is reached. */
  method TernaryArms(context: CodeContext, e: Exp, condExp: Option<RValue>, ghost s0: Snap, ghost errors0: nat)
    returns (trueExp: Option<RValue>, tBlk: BlockId, falseExp: Option<RValue>, fBlk: BlockId)
    requires e.Cond? && (Complex(e.yes) || Complex(e.no))
    requires Tested(s0, errors0, e.c, context.State(), context.errors, condExp)
    modifies context
    ensures Placed(context.State())
    ensures trueExp.None? || falseExp.None? ==> Lowered(s0, errors0, e, context.State(), context.errors, None)
    ensures trueExp.Some? && falseExp.Some? && trueExp.value.ty != falseExp.value.ty ==>
      Lowered(s0, errors0, e, Failed(context.State()), context.errors + 1, None)
    ensures trueExp.Some? && falseExp.Some? && trueExp.value.ty == falseExp.value.ty ==>
      var s := context.State();
      var phi := Phi(s.reg, [(trueExp.value.op, tBlk), (falseExp.value.op, fBlk)]);
      Lowered(s0, errors0, e, Computed(s, phi), context.errors, Some(RValue(Reg(s.reg), trueExp.value.ty)))
    decreases e, 0, 0
  {
    hide Common, Sound, Grows, Waiting, Preds, TargetBlocks, CodeContext.State, Lowered, Tested, Evaluated, AllPlaced;
    hide WellTyped, Complex, Known, To, PhisAgree, Below;
    ghost var s1, errors1 := context.State(), context.errors;
    AfterTest(s0, errors0, e.c, s1, errors1, condExp);
    var trueBlock := context.CreateBlock();
    var falseBlock := context.CreateBlock();
    var endBlock := context.CreateBlock();
    ghost var t := CondBr(OpOf(condExp), trueBlock, falseBlock);
    ArmsFirst(s1, t);
    context.Terminate(CondBr(OpOf(condExp), trueBlock, falseBlock));

    ghost var s2, m1, m2 := Pushed(context.State(), trueBlock), s1, s1;
    trueExp, tBlk, m1 := VisitArm(context, trueBlock, e.yes, endBlock);
    ghost var errors2 := context.errors;
    AfterVisit(s2, errors1, e.yes, m1, errors2, trueExp);
    ArmsSecond(s1, s2, m1);

    ghost var s3 := Pushed(context.State(), falseBlock);
    falseExp, fBlk, m2 := VisitArm(context, falseBlock, e.no, endBlock);
    ghost var errors3 := context.errors;
    AfterVisit(s3, errors2, e.no, m2, errors3, falseExp);
    ArmsThird(s1, s3, m2, Cur(m1));

    context.PushBlock(endBlock);
    ghost var s4 := context.State();
    Basics(s4);
    ArmsLowered(s0, errors0, e, s1, errors1, condExp, s2, m1, errors2, trueExp, s3, m2, errors3, falseExp, s4);
  }

  lemma ArmsLowered(s0: Snap, errors0: nat, e: Exp, s1: Snap, errors1: nat, t: Option<RValue>, s2: Snap, m1: Snap,
                    errors2: nat, y: Option<RValue>, s3: Snap, m2: Snap, errors3: nat, n: Option<RValue>, s4: Snap)
    requires e.Cond? && (Complex(e.yes) || Complex(e.no))
    requires Tested(s0, errors0, e.c, s1, errors1, t)
    requires Placed(s1) && Placed(m1) && Placed(m2) && Placed(s4)
    requires s2 == Moved(Created(Created(Created(s1))), CondBr(OpOf(t), |s1.g|, |s1.g| + 1), |s1.g|)
    requires Lowered(s2, errors1, e.yes, m1, errors2, y)
    requires s3 == Moved(m1, Br(|s1.g| + 2), |s1.g| + 1)
    requires Lowered(s3, errors2, e.no, m2, errors3, n)
    requires s4 == Moved(m2, Br(|s1.g| + 2), |s1.g| + 2)
    ensures Evaluated(s0, s4) && AllPlaced(s0, s4)
    ensures y.None? || n.None? ==> Lowered(s0, errors0, e, s4, errors3, None)
    ensures y.Some? && n.Some? && y.value.ty != n.value.ty ==> Lowered(s0, errors0, e, Failed(s4), errors3 + 1, None)
    ensures y.Some? && n.Some? && y.value.ty == n.value.ty ==>
      Lowered(s0, errors0, e, Computed(s4, Phi(s4.reg, [(y.value.op, Cur(m1)), (n.value.op, Cur(m2))])), errors3,
              Some(RValue(Reg(s4.reg), y.value.ty)))
  {
    hide Extended, Sound, Grows, Waiting, Preds, TargetBlocks, ExpCode, BoolCode;
    var l, r := OpOf(y), OpOf(n);
    var c := CondBr(OpOf(t), |s1.g|, |s1.g| + 1);
    var s5 := Computed(s4, Phi(s4.reg, [(l, Cur(m1)), (r, Cur(m2))]));
    ArmsSound(s1, c, l, s2, m1, s3, r, m2, s4);
    EvaluatedThen(s0, s1, s4);
    EvaluatedThen(s0, s1, s5);
    EvaluatedFailed(s0, s4);
    Basics(s0);
    Basics(s5);
    if errors3 == errors0 {
      GrowsBasics(s2, m1);
      GrowsBasics(s3, m2);
      Basics(s2);
      Basics(s3);
      ArmsExtend(s1, c, s2, m1, s3, m2, s4, s5.g);
      TypesKnown(s2, errors1, e.yes, m1, errors2, y);
      TypesKnown(s3, errors2, e.no, m2, errors3, n);
      if TypeOf(e.yes) == TypeOf(e.no) {
        BranchingLaid(s0, e, s1, t.value.op, s2, m1, y.value, s3, m2, n.value, s5);
      }
    }
  }

  lemma BranchingLaid(s0: Snap, e: Exp, s1: Snap, t: Operand, s2: Snap, m1: Snap, y: RValue, s3: Snap, m2: Snap,
                      n: RValue, s5: Snap)
    requires e.Cond? && TypeOf(e.yes) == TypeOf(e.no) && (Complex(e.yes) || Complex(e.no))
    requires Placed(s0) && Placed(s1) && Placed(s2) && Placed(m1) && Placed(s3) && Placed(m2) && Placed(s5)
    requires BoolIs(s0, e.c, s1, RValue(t, TBool)) && Extended(s1.g, s5.g)
    requires Ends(s5.g, Now(s1), CondBr(t, |s1.g|, |s1.g| + 1)).Some?
    requires Now(s2) == Point(|s1.g|, 0) && CtrOf(s2) == CtrOf(s1).(block := |s1.g| + 3)
    requires ExpIs(s2, e.yes, m1, y) && Extended(m1.g, s5.g) && Ends(s5.g, Now(m1), Br(|s1.g| + 2)).Some?
    requires Now(s3) == Point(|s1.g| + 1, 0) && CtrOf(s3) == CtrOf(m1)
    requires ExpIs(s3, e.no, m2, n) && Extended(m2.g, s5.g) && Ends(s5.g, Now(m2), Br(|s1.g| + 2)).Some?
    requires Then(s5.g, Point(|s1.g| + 2, 0), Phi(m2.reg, [(y.op, Cur(m1)), (n.op, Cur(m2))])) == Some(Now(s5))
    requires CtrOf(s5) == CtrOf(m2).(reg := m2.reg + 1)
    ensures ExpIs(s0, e, s5, RValue(Reg(m2.reg), y.ty))
  {
    hide SelectCode, Extends, BoolCode, TypeOf, Below;
    BoolStays(s0, e.c, s1, RValue(t, TBool), s5.g);
    ExpStays(s2, e.yes, m1, y, s5.g);
    ExpStays(s3, e.no, m2, n, s5.g);
    var yes, no, end := |s1.g|, |s1.g| + 1, |s1.g| + 2;
    assert ArmsCode(s5.g, e, yes, no, end, CtrOf(s2)) == Some(ExpEnd(Now(s5), RValue(Reg(m2.reg), y.ty), CtrOf(s5)));
    assert BranchingCode(s5.g, e, Now(s0), CtrOf(s0)) == Some(ExpEnd(Now(s5), RValue(Reg(m2.reg), y.ty), CtrOf(s5)));
  }

  method VisitNullCoalescing(context: CodeContext, e: Exp) returns (rv: Option<RValue>)
    requires e.Coalesce? && Sound(context.State())
    modifies context
    ensures Lowered(old(context.State()), old(context.errors), e, context.State(), context.errors, rv)
    decreases e, 1
  {
    hide Sound, Grows, Waiting, Preds, TargetBlocks, ExpCode, BoolCode, CodeContext.State;
    ghost var s0, errors0 := context.State(), context.errors;
    Basics(s0);
    var lhsExp := Visit(context, e.l);
    ghost var s1, errors1 := context.State(), context.errors;
    Basics(s1);
    GrowsBasics(s0, s1);
    var condition := CastTo(context, lhsExp, TBool);
    ghost var s2 := context.State();
    if Complex(e.r) {
      rv := BranchCoalescing(context, e, lhsExp, condition, s0, errors0, s1);
    } else {
      var rhsExp := Visit(context, e.r);
      ghost var s3, errors3 := context.State(), context.errors;
      Basics(s3);
      PairStays(s0, s1, s2, s3);
      if lhsExp.Some? && rhsExp.Some? && lhsExp.value.ty == rhsExp.value.ty {
        var dst := context.NextReg();
        context.Emit(Select(dst, OpOf(condition), lhsExp.value.op, rhsExp.value.op));
        rv := Some(RValue(Reg(dst), lhsExp.value.ty));
        PickLowered(s0, errors0, e, s1, errors1, lhsExp.value, s2, condition.value, s3, errors3, rhsExp.value);
      } else {
        context.AddError();
        rv := None;
        EvaluatedFailed(s0, s3);
        if errors3 == errors0 {
          TypesKnown(s0, errors0, e.l, s1, errors1, lhsExp);
          TypesKnown(s2, errors1, e.r, s3, errors3, rhsExp);
        }
      }
    }
  }

  lemma PickLowered(s0: Snap, errors0: nat, e: Exp, s1: Snap, errors1: nat, l: RValue, s2: Snap, t: RValue, s3: Snap,
                    errors3: nat, r: RValue)
    requires e.Coalesce? && !Complex(e.r) && l.ty == r.ty
    requires Lowered(s0, errors0, e.l, s1, errors1, Some(l))
    requires Evaluated(s1, s2) && AllPlaced(s1, s2) && Placed(s1) && Placed(s2) && Below(l.op, s1.reg)
    requires CastCode(s2.g, l, TBool, Now(s1), CtrOf(s1)) == Some(ExpEnd(Now(s2), t, CtrOf(s2)))
    requires Lowered(s2, errors1, e.r, s3, errors3, Some(r)) && Placed(s3)
    ensures Lowered(s0, errors0, e, Computed(s3, Select(s3.reg, t.op, l.op, r.op)), errors3,
                    Some(RValue(Reg(s3.reg), l.ty)))
  {
    hide Sound, Grows, ExpCode, Extended, TargetBlocks, CastCode;
    var s4 := Computed(s3, Instr.Select(s3.reg, t.op, l.op, r.op));
    PairStays(s0, s1, s2, s3);
    ComputedSound(s3, Instr.Select(s3.reg, t.op, l.op, r.op));
    EvaluatedThen(s0, s3, s4);
    Basics(s4);
    if errors3 == errors0 {
      ExtendedThen(s1.g, s3.g, s4.g);
      ExtendedThen(s2.g, s3.g, s4.g);
      ExpStays(s0, e.l, s1, l, s4.g);
      CastStable(s2.g, s4.g, l, TBool, Now(s1), CtrOf(s1));
      ExpStays(s2, e.r, s3, r, s4.g);
      assert CoalesceCode(s4.g, e, Now(s0), CtrOf(s0)) == Some(ExpEnd(Now(s4), RValue(Reg(s3.reg), l.ty), CtrOf(s4)));
      CoalesceIs(s0, e, s4, RValue(Reg(s3.reg), l.ty));
    }
  }

  /** `??` with a right operand that may act: it gets a block that runs only when the left one tests false. */
  method BranchCoalescing(context: CodeContext, e: Exp, lhsExp: Option<RValue>, condition: Option<RValue>,
                          ghost s0: Snap, ghost errors0: nat, ghost s1: Snap)
    returns (rv: Option<RValue>)
    requires e.Coalesce? && Complex(e.r)
    requires Lowered(s0, errors0, e.l, s1, context.errors, lhsExp)
    requires CastDone(lhsExp, s1, context.State(), condition)
    modifies context
    ensures Lowered(s0, errors0, e, context.State(), context.errors, rv)
    decreases e, 0
  {
    hide Now, Sound, Grows, Waiting, Preds, TargetBlocks, CodeContext.State, Lowered, CastDone, Evaluated, AllPlaced;
    hide WellTyped, Complex, Known, To, PhisAgree, Below, Extended, CtrOf, EnvOk, CodeContext.CurrBlock, HasPhi;
    hide Sources;
    ghost var s2, errors1 := context.State(), context.errors;
    AfterCast(lhsExp, s1, s2, condition);
    var falseBlock := context.CreateBlock();
    var endBlock := context.CreateBlock();
    TwoCreated(s2);
    ghost var m1 := context.State();
    EvaluatedRefl(m1);
    var lBlk := context.CurrBlock();
    context.Terminate(CondBr(OpOf(condition), endBlock, falseBlock));

    ghost var s3 := Pushed(context.State(), falseBlock);
    JoinFirst(s2, m1, CondBr(OpOf(condition), endBlock, falseBlock));
    var rhsExp, rBlk, m2 := VisitArm(context, falseBlock, e.r, endBlock);
    ghost var errors2 := context.errors;
    AfterVisit(s3, errors1, e.r, m2, errors2, rhsExp);
    JoinSecond(s2, s3, m2, Cur(m1));

    context.PushBlock(endBlock);
    ghost var s4 := context.State();
    Basics(s4);
    var dst := context.NextReg();
    context.Emit(Phi(dst, [(OpOf(lhsExp), lBlk), (OpOf(rhsExp), rBlk)]));
    rv := Some(RValue(Reg(dst), if lhsExp.Some? then lhsExp.value.ty else TInt));
    FallbackLowered(s0, errors0, e, s1, errors1, lhsExp, s2, condition, s3, m2, errors2, rhsExp, s4);
    if lhsExp.None? || rhsExp.None? || lhsExp.value.ty != rhsExp.value.ty {
      context.AddError();
    }
  }

  lemma AfterCast(rv: Option<RValue>, s0: Snap, s1: Snap, t: Option<RValue>)
    requires CastDone(rv, s0, s1, t)
    ensures Evaluated(s0, s1) && Sound(s1)
    ensures Placed(s1) && s1.placed != [] && s1.g[Cur(s1)].term.None? && s1.env == s0.env
  {
    hide Sound, Grows, CastCode;
    Basics(s1);
  }

  /** `CastTo(rv, bool)` took the state from `s0` to `s1`. */
  ghost predicate CastDone(rv: Option<RValue>, s0: Snap, s1: Snap, t: Option<RValue>) {
    && Evaluated(s0, s1) && AllPlaced(s0, s1)
    && t.Some? == rv.Some? && Known(rv, s0.reg) && Known(t, s1.reg)
    && (rv.Some? ==> CastCode(s1.g, rv.value, TBool, Now(s0), CtrOf(s0)) == Some(ExpEnd(Now(s1), t.value, CtrOf(s1))))
  }

  lemma FallbackEvaluated(s0: Snap, errors0: nat, e: Exp, s1: Snap, errors1: nat, l: Option<RValue>, s2: Snap,
                          t: Option<RValue>, s3: Snap, m2: Snap, errors2: nat, r: Option<RValue>, s4: Snap)
    requires e.Coalesce? && Complex(e.r)
    requires Lowered(s0, errors0, e.l, s1, errors1, l) && CastDone(l, s1, s2, t)
    requires Placed(s2) && Placed(m2) && Placed(s4)
    requires s3 == Moved(Created(Created(s2)), CondBr(OpOf(t), |s2.g| + 1, |s2.g|), |s2.g|)
    requires Lowered(s3, errors1, e.r, m2, errors2, r)
    requires s4 == Moved(m2, Br(|s2.g| + 1), |s2.g| + 1)
    ensures
      var s5 := Computed(s4, Phi(s4.reg, [(OpOf(l), Cur(s2)), (OpOf(r), Cur(m2))]));
      && Evaluated(s0, s5) && AllPlaced(s0, s5)
      && (errors2 == errors0 ==> l.Some? && r.Some? && l.value.ty == TypeOf(e.l) && r.value.ty == TypeOf(e.r))
      && (errors2 == errors0 && l.value.ty == r.value.ty ==> ExpIs(s0, e, s5, RValue(Reg(s4.reg), l.value.ty)))
  {
    hide Sound, Grows, Waiting, Preds, TargetBlocks, ExpCode, BoolCode;
    var m1, c := Created(Created(s2)), CondBr(OpOf(t), |s2.g| + 1, |s2.g|);
    var s5 := Computed(s4, Phi(s4.reg, [(OpOf(l), Cur(s2)), (OpOf(r), Cur(m2))]));
    Basics(s1);
    Basics(s2);
    TwoCreated(s2);
    EvaluatedRefl(m1);
    JoinSound(s2, m1, c, OpOf(l), s3, m2, OpOf(r), s4);
    EvaluatedThen(s0, s1, s2);
    EvaluatedThen(s0, s2, s5);
    Basics(s0);
    Basics(s3);
    Basics(s5);
    if errors2 == errors0 {
      TypesKnown(s0, errors0, e.l, s1, errors1, l);
      TypesKnown(s3, errors1, e.r, m2, errors2, r);
      if l.value.ty == r.value.ty {
        ExtendedThen(s2.g, m1.g, s5.g);
        GrowsBasics(s1, s2);
        ExtendedThen(s1.g, s2.g, s5.g);
        FallbackLaid(s0, e, s1, l.value, s2, t.value, s3, m2, r.value, s5);
      }
    }
  }

  lemma FallbackLowered(s0: Snap, errors0: nat, e: Exp, s1: Snap, errors1: nat, l: Option<RValue>, s2: Snap,
                        t: Option<RValue>, s3: Snap, m2: Snap, errors2: nat, r: Option<RValue>, s4: Snap)
    requires e.Coalesce? && Complex(e.r)
    requires Lowered(s0, errors0, e.l, s1, errors1, l) && CastDone(l, s1, s2, t)
    requires Placed(s2) && Placed(m2) && Placed(s4)
    requires s3 == Moved(Created(Created(s2)), CondBr(OpOf(t), |s2.g| + 1, |s2.g|), |s2.g|)
    requires Lowered(s3, errors1, e.r, m2, errors2, r)
    requires s4 == Moved(m2, Br(|s2.g| + 1), |s2.g| + 1)
    ensures
      var s5 := Computed(s4, Phi(s4.reg, [(OpOf(l), Cur(s2)), (OpOf(r), Cur(m2))]));
      var rv := Some(RValue(Reg(s4.reg), if l.Some? then l.value.ty else TInt));
      if l.None? || r.None? || l.value.ty != r.value.ty then Lowered(s0, errors0, e, Failed(s5), errors2 + 1, rv)
      else Lowered(s0, errors0, e, s5, errors2, rv)
  {
    hide Sound, Grows, Waiting, Preds, TargetBlocks, ExpIs, Evaluated, CastDone, AllPlaced;
    var s5 := Computed(s4, Phi(s4.reg, [(OpOf(l), Cur(s2)), (OpOf(r), Cur(m2))]));
    FallbackEvaluated(s0, errors0, e, s1, errors1, l, s2, t, s3, m2, errors2, r, s4);
    EvaluatedFailed(s0, s5);
  }

  lemma FallbackLaid(s0: Snap, e: Exp, s1: Snap, l: RValue, s2: Snap, t: RValue, s3: Snap, m2: Snap, r: RValue,
                     s5: Snap)
    requires e.Coalesce? && Complex(e.r) && l.ty == r.ty && TypeOf(e.l) == TypeOf(e.r)
    requires Placed(s0) && Placed(s1) && Placed(s2) && Placed(s3) && Placed(m2) && Placed(s5)
    requires ExpIs(s0, e.l, s1, l) && Extended(s1.g, s5.g)
    requires Below(l.op, s1.reg) && CastCode(s2.g, l, TBool, Now(s1), CtrOf(s1)) == Some(ExpEnd(Now(s2), t, CtrOf(s2)))
    requires Extended(s2.g, s5.g) && Ends(s5.g, Now(s2), CondBr(t.op, |s2.g| + 1, |s2.g|)).Some?
    requires Now(s3) == Point(|s2.g|, 0) && CtrOf(s3) == CtrOf(s2).(block := |s2.g| + 2)
    requires ExpIs(s3, e.r, m2, r) && Extended(m2.g, s5.g) && Ends(s5.g, Now(m2), Br(|s2.g| + 1)).Some?
    requires Then(s5.g, Point(|s2.g| + 1, 0), Phi(m2.reg, [(l.op, Cur(s2)), (r.op, Cur(m2))])) == Some(Now(s5))
    requires CtrOf(s5) == CtrOf(m2).(reg := m2.reg + 1)
    ensures ExpIs(s0, e, s5, RValue(Reg(m2.reg), l.ty))
  {
    hide Ends, CastCode, Extends;
    ExpStays(s0, e.l, s1, l, s5.g);
    CastStable(s2.g, s5.g, l, TBool, Now(s1), CtrOf(s1));
    ExpStays(s3, e.r, m2, r, s5.g);
    var a, b := ExpEnd(Now(s1), l, CtrOf(s1)), ExpEnd(Now(s2), t, CtrOf(s2));
    assert FallbackCode(s5.g, e, a, b) == Some(ExpEnd(Now(s5), RValue(Reg(m2.reg), l.ty), CtrOf(s5)));
    assert CoalesceCode(s5.g, e, Now(s0), CtrOf(s0)) == Some(ExpEnd(Now(s5), RValue(Reg(m2.reg), l.ty), CtrOf(s5)));
  }

  method VisitAssignment(context: CodeContext, e: Exp) returns (rv: Option<RValue>)
    requires e.Assign? && Sound(context.State())
    modifies context
    ensures Lowered(old(context.State()), old(context.errors), e, context.State(), context.errors, rv)
    decreases e, 1
  {
    hide Sound, Grows, ExpCode;
    ghost var s0 := context.State();
    Basics(s0);
    var rhsExp := Visit(context, e.rhs);
    ghost var s1 := context.State();
    Basics(s1);
    if rhsExp.None? {
      return None;
    }
    var v := rhsExp;
    if e.update.Some? {
      var lhsLocal := Load(context, e.x, e.ty);
      ghost var s2 := context.State();
      Basics(s2);
      GrowsBasics(s1, s2);
      v := BinaryOp(context, e.update.value, Some(lhsLocal), rhsExp);
      ghost var s3 := context.State();
      EvaluatedThen(s1, s2, s3);
      Basics(s3);
      UpdateLaid(s1, e.x, e.ty, e.update.value, rhsExp.value, s2, lhsLocal, s3, v.value);
    } else {
      EvaluatedRefl(s1);
    }
    ghost var s3 := context.State();
    GrowsBasics(s1, s3);
    rv := CastTo(context, v, e.ty);
    ghost var s4 := context.State();
    Basics(s4);
    context.Emit(Store(e.x, rv.value.op));
    ghost var s5 := context.State();
    EmittedSound(s4, Store(e.x, rv.value.op));
    PairStays(s1, s3, s4, s5);
    EvaluatedThen(s0, s1, s5);
    if WellTyped(e) {
      AssignLaid(s0, e, s1, rhsExp.value, s3, v.value, s4, rv.value, s5);
    }
  }

  lemma UpdateLaid(s1: Snap, x: Symbol, ty: Ty, op: Symbol, r: RValue, s2: Snap, l: RValue, s3: Snap, v: RValue)
    requires Placed(s1) && Placed(s2) && Placed(s3) && Extended(s2.g, s3.g)
    requires Below(r.op, s1.reg) && Below(r.op, s2.reg) && Below(l.op, s2.reg)
    requires LoadCode(s2.g, x, ty, Now(s1), CtrOf(s1)) == Some(ExpEnd(Now(s2), l, CtrOf(s2)))
    requires PrimCode(s3.g, op, l, r, Now(s2), CtrOf(s2)) == Some(ExpEnd(Now(s3), v, CtrOf(s3)))
    ensures UpdateCode(s3.g, x, ty, op, ExpEnd(Now(s1), r, CtrOf(s1))) == Some(ExpEnd(Now(s3), v, CtrOf(s3)))
  {
    LoadStable(s2.g, s3.g, x, ty, Now(s1), CtrOf(s1));
  }

  lemma AssignLaid(s0: Snap, e: Exp, s1: Snap, r: RValue, s3: Snap, v: RValue, s4: Snap, rv: RValue, s5: Snap)
    requires e.Assign?
    requires Placed(s0) && Placed(s1) && Placed(s3) && Placed(s4) && Placed(s5)
    requires ExpIs(s0, e.rhs, s1, r) && Extended(s1.g, s5.g) && Below(r.op, s1.reg)
    requires
      match e.update
      case None => s3 == s1 && v == r
      case Some(op) =>
          UpdateCode(s3.g, e.x, e.ty, op, ExpEnd(Now(s1), r, CtrOf(s1)))
          == Some(ExpEnd(Now(s3), v, CtrOf(s3)))
    requires Extended(s3.g, s5.g) && Extended(s4.g, s5.g) && Below(v.op, s3.reg)
    requires CastCode(s4.g, v, e.ty, Now(s3), CtrOf(s3)) == Some(ExpEnd(Now(s4), rv, CtrOf(s4)))
    requires Then(s5.g, Now(s4), Store(e.x, rv.op)) == Some(Now(s5)) && CtrOf(s5) == CtrOf(s4)
    ensures ExpIs(s0, e, s5, rv)
  {
    ExpStays(s0, e.rhs, s1, r, s5.g);
    if e.update.Some? {
      UpdateStable(s3.g, s5.g, e.x, e.ty, e.update.value, ExpEnd(Now(s1), r, CtrOf(s1)));
    }
    CastStable(s4.g, s5.g, v, e.ty, Now(s3), CtrOf(s3));
    assert AssignCode(s5.g, e, Now(s0), CtrOf(s0)) == Some(ExpEnd(Now(s5), rv, CtrOf(s5)));
  }
}
