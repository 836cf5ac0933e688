/** The visitors that lower statements. */
module CgnStatements {
  import opened Options
  import opened Cfg
  import opened Source
  import opened Layout
  import opened Stability
  import opened Emission
  import opened CodeContexts
  import opened Laying
  import opened LayingStatements
  import CgnExpressions

  // ---------------------------------------------------------------- plain statements

  method VisitPlain(context: CodeContext, p: Plain)
    requires Sound(context.State())
    modifies context
    ensures PlainLowered(old(context.State()), old(context.errors), p, context.State(), context.errors)
    decreases p, 2
  {
    hide Sound, Grows, CodeContext.State;
    Basics(context.State());
    match p
    case Do(e) =>
      ghost var s0 := context.State();
      var rv := CgnExpressions.Visit(context, e);
      Basics(context.State());
    case CoalesceTo(_, _, _) => VisitCoalesceTo(context, p);
    case Declare(_, _, _, _) => VisitVariableDecl(context, p);
    case Group(ps) => VisitPlains(context, ps);
  }

  method VisitPlains(context: CodeContext, ps: seq<Plain>)
    requires Sound(context.State())
    modifies context
    ensures PlainsLowered(old(context.State()), old(context.errors), ps, context.State(), context.errors)
    decreases ps
  {
    hide Sound, Grows, CodeContext.State;
    ghost var s0, errors0 := context.State(), context.errors;
    Basics(s0);
    VisitedRefl(s0);
    var i := 0;
    while i < |ps|
      invariant 0 <= i <= |ps|
      invariant PlainsLowered(s0, errors0, ps[..i], context.State(), context.errors)
    {
      ghost var s1, errors1 := context.State(), context.errors;
      VisitPlain(context, ps[i]);
      PlainsThen(s0, errors0, ps, i, s1, errors1, context.State(), context.errors);
      i := i + 1;
    }
    assert ps[..i] == ps;
  }

  lemma VisitedRefl(s: Snap)
    requires Sound(s)
    ensures Visited(s, s) && AllPlaced(s, s)
  {
    hide Sound, Grows;
    Basics(s);
    GrowsRefl(s);
  }

  lemma PlainsThen(s0: Snap, errors0: nat, ps: seq<Plain>, i: nat, s1: Snap, errors1: nat, s2: Snap, errors2: nat)
    requires i < |ps|
    requires PlainsLowered(s0, errors0, ps[..i], s1, errors1)
    requires PlainLowered(s1, errors1, ps[i], s2, errors2)
    ensures PlainsLowered(s0, errors0, ps[..i + 1], s2, errors2)
  {
    hide Sound, Grows;
    VisitedThen(s0, s1, s2);
    assert ps[..i + 1][..i] == ps[..i] && ps[..i + 1][i] == ps[i];
    Basics(s0);
    Basics(s1);
    Basics(s2);
    if errors1 == errors0 {
      PlainsStay(s0, ps[..i], s1, s2.g);
    }
  }

  method VisitVariableDecl(context: CodeContext, p: Plain)
    requires p.Declare? && Sound(context.State())
    modifies context
    ensures PlainLowered(old(context.State()), old(context.errors), p, context.State(), context.errors)
    decreases p, 1
  {
    hide Sound, Grows, CodeContext.State;
    ghost var s0, errors0 := context.State(), context.errors;
    var init := CgnExpressions.Visit(context, p.init);
    ghost var s1, errors1 := context.State(), context.errors;
    Basics(s1);
    var found := context.DeclaredHere(p.x);
    if found {
      context.AddError();
      EvaluatedFailed(s0, s1);
      return;
    }
    var slot := context.NextSlot();
    var v := Var(p.x, p.decl, slot, p.dtor);
    context.StoreLocalSymbol(v);
    context.Emit(Construct(v, CgnExpressions.OpOf(init)));
    DeclareLowered(s0, errors0, p, s1, errors1, init, v);
  }

  lemma DeclareLowered(s0: Snap, errors0: nat, p: Plain, s1: Snap, errors1: nat, init: Option<RValue>, v: Var)
    requires p.Declare? && CgnExpressions.Lowered(s0, errors0, p.init, s1, errors1, init)
    requires Placed(s1) && s1.scopes != []
    requires v == Var(p.x, p.decl, s1.slot, p.dtor) && p.x !in Names(Top(s1.scopes))
    ensures
      var s2 := s1.(slot := s1.slot + 1, scopes := Pop(s1.scopes) + [Top(s1.scopes) + [v]]);
      PlainLowered(s0, errors0, p, Emitted(s2, Construct(v, CgnExpressions.OpOf(init))), errors1)
  {
    hide Sound, Grows, ExpCode;
    var scopes := Pop(s1.scopes) + [Top(s1.scopes) + [v]];
    var s2, ins := s1.(slot := s1.slot + 1, scopes := scopes), Construct(v, CgnExpressions.OpOf(init));
    var s3 := Emitted(s2, ins);
    Basics(s0);
    BuildStart(s0);
    BuildVisit(s0, s0, s1, {});
    SoundLevels(s1);
    Reframe(s0, s1, scopes, s1.env, s1.slot + 1, {});
    EmittedSound(s2, ins);
    BuildVisit(s0, s2, s3, {});
    Basics(s3);
    assert Names(Top(scopes)) == Names(Top(s1.scopes)) + {p.x};
    assert Extended(s1.g, s3.g);
    if errors1 == errors0 {
      ExpStays(s0, p.init, s1, init.value, s3.g);
      assert PlainIs(s0, p, s3);
    }
  }

  /** `x ??= rhs`: a test of `x`, and a block for the assignment that runs when it is false. */
  method VisitCoalesceTo(context: CodeContext, p: Plain)
    requires p.CoalesceTo? && Sound(context.State())
    modifies context
    ensures PlainLowered(old(context.State()), old(context.errors), p, context.State(), context.errors)
    decreases p, 1
  {
    hide Sound, Grows, Waiting, Preds, TargetBlocks, ExpCode, BoolCode, CodeContext.State;
    ghost var s0, errors0 := context.State(), context.errors;
    var condExp := CgnExpressions.VisitBool(context, Read(p.x, p.ty));
    ghost var s1 := context.State();
    Basics(s1);
    var trueBlock := context.CreateBlock();
    var endBlock := context.CreateBlock();
    TwoCreated(s1);
    context.Terminate(CondBr(CgnExpressions.OpOf(condExp), endBlock, trueBlock));

    context.PushBlock(trueBlock);
    ghost var s3 := context.State();
    JoinMiddle(s1, CondBr(CgnExpressions.OpOf(condExp), endBlock, trueBlock));
    var rhsExp := CgnExpressions.VisitAssignment(context, Assign(p.x, p.ty, None, p.rhs));
    ghost var m, errors1 := context.State(), context.errors;
    Basics(m);
    CoalesceToLowered(s0, errors0, p, s1, condExp, s3, m, errors1, rhsExp);
    if rhsExp.None? {
      return;
    }
    context.Terminate(Br(endBlock));
    context.PushBlock(endBlock);
  }

  /** From the test straight into the first of two new blocks. */
  lemma JoinMiddle(s: Snap, t: Terminator)
    requires Sound(s) && Successors(t) == {|s.g|, |s.g| + 1}
    ensures Sound(Moved(Created(Created(s)), t, |s.g|)) && Placed(Created(Created(s)))
    ensures Created(Created(s)).g[Cur(s)].term.None?
  {
    hide Sound, Grows, Waiting, Preds, TargetBlocks;
    TwoCreated(s);
    EvaluatedRefl(Created(Created(s)));
    JoinFirst(s, Created(Created(s)), t);
    Basics(Created(Created(s)));
  }

  lemma CoalesceToLowered(s0: Snap, errors0: nat, p: Plain, s1: Snap, t: Option<RValue>, s3: Snap, m: Snap,
                          errors1: nat, r: Option<RValue>)
    requires p.CoalesceTo?
    requires CgnExpressions.Tested(s0, errors0, Read(p.x, p.ty), s1, errors0, t)
    requires Placed(s1) && Placed(m)
    requires s3 == Moved(Created(Created(s1)), CondBr(CgnExpressions.OpOf(t), |s1.g| + 1, |s1.g|), |s1.g|)
    requires CgnExpressions.Lowered(s3, errors0, Assign(p.x, p.ty, None, p.rhs), m, errors1, r)
    ensures errors1 >= errors0 && (errors1 == errors0 <==> WellTyped(p.rhs))
    ensures errors1 == errors0 ==> r.Some?
    ensures errors1 > errors0 ==> Visited(s0, m)
    ensures PlainLowered(s0, errors0, p, Moved(m, Br(|s1.g| + 1), |s1.g| + 1), errors1)
  {
    hide CtrOf, Within, Joinable, Preds, CoalesceToCode, Common, EnvOk, ArmCode, ValidPlains, Extended, ArgsCode;
    hide ArmsCode, Sound, Grows, TargetBlocks, ExpCode, BoolCode;
    var first, second := |s1.g|, |s1.g| + 1;
    var c := CondBr(CgnExpressions.OpOf(t), second, first);
    var s2, s4 := Created(Created(s1)), Moved(m, Br(second), second);
    Basics(s0);
    Basics(s1);
    BuildStart(s0);
    BuildVisit(s0, s0, s1, {});
    BuildCreate(s0, s1, {});
    BuildCreate(s0, Created(s1), {first});
    assert {} + {first} == {first};
    GrowsBasics(s0, s1);
    BuildMove(s0, s2, c, first, {first} + {second});
    assert {first} + {second} - {first} == {second};
    BuildVisit(s0, s3, m, {second});
    BuildMove(s0, m, Br(second), second, {second});
    Basics(m);
    Basics(s4);
    if errors1 == errors0 {
      assert {second} - {second} == {};
      assert AllPlaced(s0, s4);
      GrowsBasics(s3, m);
      CoalesceToLaid(s0, p, s1, t.value, s2, s3, m, r.value, s4);
    }
  }

  lemma CoalesceToLaid(s0: Snap, p: Plain, s1: Snap, t: RValue, s2: Snap, s3: Snap, m: Snap, r: RValue, s4: Snap)
    requires p.CoalesceTo? && s0.scopes != []
    requires Placed(s0) && Placed(s1) && Placed(s2) && Placed(s3) && Placed(m) && Placed(s4)
    requires BoolIs(s0, Read(p.x, p.ty), s1, t)
    requires s2 == Created(Created(s1)) && Now(s2) == Now(s1) && s2.g[Cur(s2)].term.None? && m.g[Cur(m)].term.None?
    requires s3 == Moved(s2, CondBr(t.op, |s1.g| + 1, |s1.g|), |s1.g|) && Now(s3) == Point(|s1.g|, 0)
    requires ExpIs(s3, Assign(p.x, p.ty, None, p.rhs), m, r) && Extended(s3.g, m.g)
    requires s4 == Moved(m, Br(|s1.g| + 1), |s1.g| + 1) && Now(s4) == Point(|s1.g| + 1, 0) && s4.scopes == s0.scopes
    ensures PlainIs(s0, p, s4)
  {
    hide ExpCode;
    var c, b := CondBr(t.op, |s1.g| + 1, |s1.g|), Br(|s1.g| + 1);
    MovedExtends(s2, c, |s1.g|);
    MovedExtends(m, b, |s1.g| + 1);
    ExtendedThen(s3.g, m.g, s4.g);
    ExtendedThen(s2.g, s3.g, s4.g);
    assert Extended(s1.g, s2.g);
    ExtendedThen(s1.g, s2.g, s4.g);
    BoolStays(s0, Read(p.x, p.ty), s1, t, s4.g);
    EndStays(s2, c, |s1.g|, s4.g);
    ExpStays(s3, Assign(p.x, p.ty, None, p.rhs), m, r, s4.g);
    EndStays(m, b, |s1.g| + 1, s4.g);
    assert CoalesceToCode(s4.g, p, s0.scopes, Now(s0), CtrOf(s0)) == Some(StmtEnd(Now(s4), s0.scopes, CtrOf(s4)));
  }

  // ---------------------------------------------------------------- jumps and returns

  method VisitReturn(context: CodeContext, v: RetVal)
    requires Sound(context.State())
    modifies context
    ensures StmtLowered(old(context.State()), old(context.errors), Return(v), context.State(), context.errors)
    ensures context.errors >= old(context.errors)
    ensures context.errors == old(context.errors) <==>
      match v
      case NoValue => old(context.State()).env.result.Void?
      case Scalar(e) => old(context.State()).env.result.Number? && WellTyped(e)
      case Object(_, moved, dtor) => old(context.State()).env.result.Class? && (dtor ==> moved)
  {
    hide Sound, Grows, TargetBlocks, ValueIs, ValidReturn, Evaluated, StmtLowered, Flat, Destructed;
    hide CodeContext.State;
    ghost var s0, errors0 := context.State(), context.errors;
    Basics(s0);
    ReturnRight(v, s0.env.result);
    var goesOn, returnVal, retAlloc := ReturnValue(context, v);
    if !goesOn {
      return;
    }
    ghost var s1 := context.State();
    StillOpen(s0, s1);
    context.CallDestructables(retAlloc, 0);
    context.Terminate(Ret(returnVal));
    CreateAfterEnd(Destructed(s1, Flat(s1.scopes[0..]), retAlloc), Ret(returnVal));
    var next := context.CreateBlock();
    context.PushBlock(next);
    assert s1.scopes[0..] == s1.scopes;
    ReturnLowered(s0, errors0, v, s1, returnVal, retAlloc, context.errors);
  }

  lemma ReturnRight(v: RetVal, result: Returns)
    ensures ValidReturn(v, result) <==>
      match v
      case NoValue => result.Void?
      case Scalar(e) => result.Number? && WellTyped(e)
      case Object(_, moved, dtor) => result.Class? && (dtor ==> moved)
  {}

  lemma StillOpen(s0: Snap, s1: Snap)
    requires Evaluated(s0, s1)
    ensures Sound(s1) && Placed(s1) && s1.g[Cur(s1)].term.None? && s1.scopes == s0.scopes && s1.scopes != []
  {
    hide Sound, Grows;
    Basics(s1);
  }

  /** The value to return, and the local to spare; some errors end the visit. */
  method ReturnValue(context: CodeContext, v: RetVal)
    returns (goesOn: bool, returnVal: Option<Operand>, retAlloc: Option<nat>)
    requires Sound(context.State())
    modifies context
    ensures Evaluated(old(context.State()), context.State()) && AllPlaced(old(context.State()), context.State())
    ensures !goesOn ==> StmtLowered(old(context.State()), old(context.errors), Return(v), context.State(),
                                    context.errors)
    ensures context.errors >= old(context.errors)
    ensures context.errors == old(context.errors) <==> ValidReturn(v, old(context.State()).env.result)
    ensures goesOn && context.errors == old(context.errors)
        ==> ValueIs(old(context.State()), v, context.State(), returnVal, retAlloc)
  {
    hide Sound, Grows, TargetBlocks, ExpCode, Flat, Destructed, CodeContext.State;
    ghost var s0, errors0 := context.State(), context.errors;
    Basics(s0);
    VisitedRefl(s0);
    EvaluatedRefl(s0);
    var returnTy := context.ReturnTy();
    goesOn, returnVal, retAlloc := true, None, None;
    if returnTy.Void? != v.NoValue? {
      context.AddError();
      EvaluatedFailed(s0, s0);
      return false, None, None;
    }
    match v {
      case NoValue =>
      case Scalar(e) =>
        var rv := CgnExpressions.Visit(context, e);
        ghost var m, errors1 := context.State(), context.errors;
        Basics(m);
        if returnTy.Number? {
          var r := CgnExpressions.CastTo(context, rv, returnTy.ty);
          ScalarLaid(s0, errors0, e, m, errors1, rv, returnTy.ty, context.State(), r);
          returnVal := Some(CgnExpressions.OpOf(r));
        } else {
          context.AddError();
          EvaluatedFailed(s0, m);
          returnVal := Some(CgnExpressions.OpOf(rv));
        }
      case Object(x, moved, dtor) =>
        var rv := CgnExpressions.Load(context, x, TInt);
        returnVal := Some(rv.op);
        Basics(context.State());
        retAlloc := context.LoadSymbolLocal(x);
        if returnTy.Number? {
          EvaluatedFailed(s0, context.State());
          context.AddError();
        }
        if dtor && !moved {
          EvaluatedFailed(s0, context.State());
          context.AddError();
          return false, returnVal, retAlloc;
        }
    }
  }

  /** The value and the spared stack slot of a `return`, evaluated between `s0` and `s1`. */
  ghost predicate ValueIs(s0: Snap, v: RetVal, s1: Snap, op: Option<Operand>, keep: Option<nat>) {
    && Placed(s0) && Placed(s1)
    && (match v
    case NoValue => s1 == s0 && op == None && keep == None
    case Scalar(e) =>
      s0.env.result.Number? && keep == None &&
      var m := ExpCode(s1.g, e, Now(s0), CtrOf(s0));
      m.Some? &&
      var r := CastCode(s1.g, m.value.rv, s0.env.result.ty, m.value.p, m.value.c);
      r.Some? && r.value.p == Now(s1) && r.value.c == CtrOf(s1) && op == Some(r.value.rv.op)
    case Object(x, _, _) =>
      keep == SlotOf(s0.scopes, x) &&
      var r := LoadCode(s1.g, x, TInt, Now(s0), CtrOf(s0));
      r.Some? && r.value.p == Now(s1) && r.value.c == CtrOf(s1) && op == Some(r.value.rv.op))
  }

  lemma ScalarLaid(s0: Snap, errors0: nat, e: Exp, m: Snap, errors1: nat, rv: Option<RValue>, ty: Ty, s1: Snap,
                   r: Option<RValue>)
    requires Placed(s0) && Placed(m) && CgnExpressions.Lowered(s0, errors0, e, m, errors1, rv)
    requires Evaluated(m, s1) && AllPlaced(m, s1) && r.Some? == rv.Some?
    requires rv.Some? ==> CastCode(s1.g, rv.value, ty, Now(m), CtrOf(m)) == Some(ExpEnd(Now(s1), r.value, CtrOf(s1)))
    ensures Evaluated(s0, s1) && AllPlaced(s0, s1) && Placed(s1)
    ensures errors1 == errors0 && s0.env.result == Number(ty)
        ==> ValueIs(s0, Scalar(e), s1, Some(CgnExpressions.OpOf(r)), None)
  {
    hide Sound, Grows;
    EvaluatedThen(s0, m, s1);
    Basics(s1);
    if errors1 == errors0 {
      ExpStays(s0, e, m, rv.value, s1.g);
    }
  }

  lemma ReturnLowered(s0: Snap, errors0: nat, v: RetVal, s1: Snap, op: Option<Operand>, keep: Option<nat>, errors1: nat)
    requires Evaluated(s0, s1) && AllPlaced(s0, s1) && Placed(s0) && Placed(s1)
    requires errors1 >= errors0 && (errors1 == errors0 <==> ValidReturn(v, s0.env.result))
    requires errors1 == errors0 ==> ValueIs(s0, v, s1, op, keep)
    ensures StmtLowered(s0, errors0, Return(v), Left(s1, Flat(s1.scopes), keep, Ret(op)), errors1)
  {
    hide Sound, Grows, ExpCode;
    var s2 := Left(s1, Flat(s1.scopes), keep, Ret(op));
    LeftSound(s1, Flat(s1.scopes), keep, Ret(op));
    EvaluatedThen(s0, s1, s2);
    Basics(s0);
    Basics(s2);
    if errors1 == errors0 {
      ValueStays(s0, v, s1, op, keep, s2.g);
      assert ReturnTail(s2.g, op, keep, s0.scopes, Now(s1), CtrOf(s1)) == Some(StmtEnd(Now(s2), s2.scopes, CtrOf(s2)));
      assert ReturnCode(s2.g, v, s0.env, s0.scopes, Now(s0), CtrOf(s0)) == Some(StmtEnd(Now(s2), s2.scopes, CtrOf(s2)));
    }
  }

  lemma ValueStays(s0: Snap, v: RetVal, s1: Snap, op: Option<Operand>, keep: Option<nat>, g: Graph)
    requires Placed(s0) && Placed(s1) && ValueIs(s0, v, s1, op, keep) && Extended(s1.g, g)
    ensures v.Object? ==> LoadCode(g, v.x, TInt, Now(s0), CtrOf(s0)) == LoadCode(s1.g, v.x, TInt, Now(s0), CtrOf(s0))
    ensures v.Scalar? ==>
      var m := ExpCode(s1.g, v.e, Now(s0), CtrOf(s0));
      && ExpCode(g, v.e, Now(s0), CtrOf(s0)) == m
      && CastCode(g, m.value.rv, s0.env.result.ty, m.value.p, m.value.c)
          == CastCode(s1.g, m.value.rv, s0.env.result.ty, m.value.p, m.value.c)
  {
    match v
    case NoValue =>
    case Scalar(e) =>
      var m := ExpCode(s1.g, e, Now(s0), CtrOf(s0)).value;
      ExpStable(s1.g, g, e, Now(s0), CtrOf(s0));
      CastStable(s1.g, g, m.rv, s0.env.result.ty, m.p, m.c);
    case Object(x, _, _) => LoadStable(s1.g, g, x, TInt, Now(s0), CtrOf(s0));
  }

  method VisitLoopBranch(context: CodeContext, k: Jump, level: Option<int>)
    requires Sound(context.State())
    modifies context
    ensures StmtLowered(old(context.State()), old(context.errors), Branch(k, level), context.State(), context.errors)
  {
    hide Sound, Grows, TargetBlocks, CodeContext.State, StmtIs, Destructed, Dangling, AllPlaced, Names, Joinable;
    hide Placed, DtorsCode, CodeContext.CurrBlock, Extended, EnvOk, Preds, HasPhi;
    ghost var s0, errors0 := context.State(), context.errors;
    Basics(s0);
    VisitedRefl(s0);
    var brLevel := if level.Some? then AsInt32(level.value) else 1;
    var block := match k
      case Continue => context.GetContinueBlock(brLevel)
      case Redo => context.GetRedoBlock(brLevel)
      case Break => context.GetBreakBlock(brLevel);
    LevelResolves(TargetsOf(s0.env, k), if level.Some? then level.value else 1);
    if block.None? {
      context.AddError();
      EvaluatedFailed(s0, s0);
      return;
    }
    TargetLevel(s0, k, block.value);
    context.CallDestructables(None, block.value.level);
    context.Terminate(Br(block.value.b));
    CreateAfterEnd(Destructed(s0, Flat(s0.scopes[block.value.level..]), None), Br(block.value.b));
    var next := context.CreateBlock();
    context.PushBlock(next);
    BranchLowered(s0, errors0, k, level, block.value);
  }

  lemma TargetLevel(s: Snap, k: Jump, t: Target)
    requires Sound(s) && t in TargetsOf(s.env, k)
    ensures t.level <= |s.scopes| && t.b in TargetBlocks(s.env)
  {
  }

  lemma BranchLowered(s0: Snap, errors0: nat, k: Jump, level: Option<int>, t: Target)
    requires Sound(s0) && Placed(s0)
    requires
      var ts := TargetsOf(s0.env, k);
      var q := Resolve(|ts|, level);
      q.Some? && t == ts[|ts| - q.value]
    ensures t.level <= |s0.scopes|
    ensures StmtLowered(s0, errors0, Branch(k, level), Left(s0, Flat(s0.scopes[t.level..]), None, Br(t.b)), errors0)
  {
    hide Sound, Grows, TargetBlocks, Resolve, Flat, Destructed, DtorsCode, LoopCode, WhileCode, SwitchCode, ForCode;
    hide IfCode, PlainCode;
    TargetLevel(s0, k, t);
    var vars := Flat(s0.scopes[t.level..]);
    LeftSound(s0, vars, None, Br(t.b));
    var s2 := Left(s0, vars, None, Br(t.b));
    Basics(s0);
    Basics(s2);
    assert JumpCode(s2.g, t, s0.scopes, Now(s0), CtrOf(s0)) == Some(StmtEnd(Now(s2), s2.scopes, CtrOf(s2)));
  }

  // ---------------------------------------------------------------- statements

  method VisitStmt(context: CodeContext, s: Stmt)
    requires Sound(context.State()) && Parsed(s)
    modifies context
    ensures StmtLowered(old(context.State()), old(context.errors), s, context.State(), context.errors)
    decreases s, 2
  {
    hide Sound, Grows, CodeContext.State, Parsed, Valid, StmtCode;
    match s
    case Basic(p) =>
      ghost var s0, errors0 := context.State(), context.errors;
      VisitPlain(context, p);
      BasicLowered(s0, errors0, p, context.State(), context.errors);
    case Return(v) => VisitReturn(context, v);
    case Branch(k, level) => VisitLoopBranch(context, k, level);
    case Loop(_) => VisitLoop(context, s);
    case While(_, _, _, _) => VisitWhile(context, s);
    case Switch(_, _) => VisitSwitch(context, s);
    case For(_, _, _, _) => VisitFor(context, s);
    case If(_, _, _) => VisitIf(context, s);
  }

  lemma BasicLowered(s0: Snap, errors0: nat, p: Plain, s1: Snap, errors1: nat)
    requires PlainLowered(s0, errors0, p, s1, errors1)
    ensures StmtLowered(s0, errors0, Basic(p), s1, errors1)
  {
    hide Sound, Grows, PlainCode;
  }

  method VisitList(context: CodeContext, ss: seq<Stmt>)
    requires Sound(context.State()) && ParsedList(ss)
    modifies context
    ensures ListLowered(old(context.State()), old(context.errors), ss, context.State(), context.errors)
    decreases ss, 0
  {
    hide Sound, Grows, CodeContext.State, Parsed, Valid;
    ghost var s0, errors0 := context.State(), context.errors;
    Basics(s0);
    VisitedRefl(s0);
    var i := 0;
    while i < |ss|
      invariant 0 <= i <= |ss|
      invariant ListLowered(s0, errors0, ss[..i], context.State(), context.errors)
    {
      ghost var s1, errors1 := context.State(), context.errors;
      VisitStmt(context, ss[i]);
      ListThen(s0, errors0, ss, i, s1, errors1, context.State(), context.errors);
      i := i + 1;
    }
    assert ss[..i] == ss;
  }

  lemma ListThen(s0: Snap, errors0: nat, ss: seq<Stmt>, i: nat, s1: Snap, errors1: nat, s2: Snap, errors2: nat)
    requires i < |ss|
    requires ListLowered(s0, errors0, ss[..i], s1, errors1)
    requires StmtLowered(s1, errors1, ss[i], s2, errors2)
    ensures ListLowered(s0, errors0, ss[..i + 1], s2, errors2)
  {
    hide Sound, Grows, Valid, StmtCode;
    VisitedThen(s0, s1, s2);
    assert ss[..i + 1][..i] == ss[..i] && ss[..i + 1][i] == ss[i];
    Basics(s0);
    Basics(s1);
    Basics(s2);
    if errors1 == errors0 {
      ListStays(s0, ss[..i], s1, s2.g);
    }
  }

  /** Tests a condition and branches; `mid` is the state in which the branch is taken. */
  method Condition(context: CodeContext, trueBlock: BlockId, falseBlock: BlockId, cond: Option<Exp>)
    returns (ghost mid: Snap, op: Operand)
    requires Sound(context.State())
    modifies context
    ensures CondVisited(old(context.State()), old(context.errors), cond, mid, context.errors, op)
    ensures Placed(mid) && mid.g[Cur(mid)].term.None?
    ensures context.State() == Ended(mid, CondBr(op, trueBlock, falseBlock))
  {
    hide Sound, Grows, BoolCode, CodeContext.State;
    ghost var s0 := context.State();
    Basics(s0);
    match cond {
      case None =>
        EvaluatedRefl(s0);
        mid, op := s0, Imm(1);
        context.Terminate(CondBr(op, trueBlock, falseBlock));
      case Some(e) =>
        var rv;
        rv, mid := CgnExpressions.Branch(context, trueBlock, falseBlock, e);
        op := CgnExpressions.OpOf(rv);
    }
  }

  method VisitLoop(context: CodeContext, s: Stmt)
    requires s.Loop? && Sound(context.State()) && Parsed(s)
    modifies context
    ensures StmtLowered(old(context.State()), old(context.errors), s, context.State(), context.errors)
    decreases s, 0
  {
    hide Sound, Grows, TargetBlocks, Building, PlacedBut, AllPlaced, Valid, ValidList, ListIs, Names, StmtLowered;
    hide ListLowered, Destructed, CodeContext.State;
    ghost var s0, errors0 := context.State(), context.errors;
    LoopStarts(s0);
    var bodyBlock := context.CreateContinueBlock();
    var endBlock := context.CreateBreakBlock();

    context.Terminate(Br(bodyBlock));
    context.PushBlock(bodyBlock);
    ghost var u := context.State();
    assert u == LoopHead(s0);

    context.PushLocalTable();
    BuildingScoped(s0, u, {endBlock});
    VisitList(context, s.body);
    ghost var m := context.State();
    LoopLowered(s0, errors0, s, u, m, context.errors);
    EnvStays(Scoped(u), errors0, s.body, m, context.errors);
    context.PopLocalTable();
    Basics(Closed(m));

    context.Terminate(Br(bodyBlock));
    context.PushBlock(endBlock);

    context.PopLoopBranchBlocks(true, true, false);
  }

  lemma BuildingScoped(s0: Snap, u: Snap, own: set<BlockId>)
    requires Building(s0, u, own)
    ensures Sound(u) && Sound(Scoped(u))
  {
    hide Sound, Grows;
    ScopedSound(u);
  }

  /** The blocks and targets of a `while`, and the branch into it. */
  method BeginWhile(context: CodeContext, doWhile: bool)
    returns (condBlock: BlockId, bodyBlock: BlockId, endBlock: BlockId)
    requires Sound(context.State()) && Placed(context.State())
    modifies context
    ensures (condBlock, bodyBlock, endBlock) == (|old(context.State()).g|, |old(context.State()).g| + 1,
                                                 |old(context.State()).g| + 2)
    ensures context.State() == WhileHead(old(context.State()), if doWhile then bodyBlock else condBlock)
    ensures context.errors == old(context.errors)
  {
    hide Sound, Grows, Building, CodeContext.State;
    WhileStarts(context.State(), |context.State().g|);
    condBlock := context.CreateContinueBlock();
    bodyBlock := context.CreateRedoBlock();
    endBlock := context.CreateBreakBlock();
    context.Terminate(Br(if doWhile then bodyBlock else condBlock));
    context.PushBlock(condBlock);
  }

  /** The test of the loop, in a scope of its own, up to the start of the body. */
  method TestWhile(context: CodeContext, s: Stmt, bodyBlock: BlockId, endBlock: BlockId, ghost s0: Snap)
    returns (ghost mid: Snap, op: Operand)
    requires s.While? && Sound(s0) && Placed(s0) && (bodyBlock, endBlock) == (|s0.g| + 1, |s0.g| + 2)
    requires context.State() == WhileHead(s0, if s.doWhile then bodyBlock else |s0.g|)
    modifies context
    ensures CondVisited(Scoped(old(context.State())), old(context.errors), s.cond, mid, context.errors, op)
        && Placed(mid)
    ensures context.State() == Scoped(WhileBodyStart(s0, mid, op, s.until))
  {
    hide Sound, Grows, TargetBlocks, Building, PlacedBut, AllPlaced, TestIs, Destructed, CodeContext.State;
    WhileStarts(s0, if s.doWhile then bodyBlock else |s0.g|);
    BuildingScoped(s0, context.State(), {bodyBlock, endBlock});
    context.PushLocalTable();
    mid, op := Condition(context, if s.until then endBlock else bodyBlock, if s.until then bodyBlock else endBlock,
                         s.cond);
    context.PushBlock(bodyBlock);
  }

  method VisitWhile(context: CodeContext, s: Stmt)
    requires s.While? && Sound(context.State()) && Parsed(s)
    modifies context
    ensures StmtLowered(old(context.State()), old(context.errors), s, context.State(), context.errors)
    decreases s, 0
  {
    hide Sound, Grows, TargetBlocks, Building, PlacedBut, AllPlaced, Evaluated, Valid, ValidList, ListIs, TestIs;
    hide Names, StmtLowered, ListLowered, CondVisited, Destructed, CodeContext.State;
    ghost var s0, errors0 := context.State(), context.errors;
    Basics(s0);
    var condBlock, bodyBlock, endBlock := BeginWhile(context, s.doWhile);
    ghost var h := context.State();
    ghost var mid: Snap;
    var op;
    mid, op := TestWhile(context, s, bodyBlock, endBlock, s0);
    ghost var errors1 := context.errors;
    ghost var u := WhileBodyStart(s0, mid, op, s.until);
    WhileBegins(s0, errors0, s, h, mid, errors1, op);
    VisitList(context, s.body);
    ghost var m := context.State();
    WhileLowered(s0, errors0, s, h, mid, errors1, op, u, m, context.errors);
    EnvStays(Scoped(u), errors1, s.body, m, context.errors);
    context.PopLocalTable();
    Basics(Closed(m));

    context.Terminate(Br(condBlock));
    context.PushBlock(endBlock);

    context.PopLoopBranchBlocks(true, true, true);
  }

  lemma EnvStays(s0: Snap, errors0: nat, ss: seq<Stmt>, s1: Snap, errors1: nat)
    requires ListLowered(s0, errors0, ss, s1, errors1)
    ensures s1.env == s0.env
  {
    hide Sound, Grows;
  }

  lemma WhileBegins(s0: Snap, errors0: nat, s: Stmt, h: Snap, mid: Snap, errors1: nat, op: Operand)
    requires s.While? && Sound(s0) && Placed(s0) && Placed(mid)
    requires h == WhileHead(s0, if s.doWhile then |s0.g| + 1 else |s0.g|)
    requires CondVisited(Scoped(h), errors0, s.cond, mid, errors1, op)
    ensures Sound(Scoped(WhileBodyStart(s0, mid, op, s.until)))
    ensures WhileBodyStart(s0, mid, op, s.until).env == WhileEnv(s0.env, |s0.scopes|, CtrOf(s0))
  {
    hide Sound, Grows, TargetBlocks, Building, PlacedBut, AllPlaced, TestIs, WhileEnv;
    var start := if s.doWhile then |s0.g| + 1 else |s0.g|;
    WhileTests(s0, start, mid, op, s.until);
    BuildingScoped(s0, WhileBodyStart(s0, mid, op, s.until), {|s0.g| + 2});
  }

  method VisitIf(context: CodeContext, s: Stmt)
    requires s.If? && Sound(context.State()) && Parsed(s)
    modifies context
    ensures StmtLowered(old(context.State()), old(context.errors), s, context.State(), context.errors)
    decreases s, 0, 1
  {
    hide Cur, ListLowered, Preds, Successors, Sound, Grows, TargetBlocks, Building, PlacedBut, AllPlaced, Valid;
    hide ValidList, WellTyped, ListIs, TestIs, Names, StmtLowered, ThenDone, Destructed, CodeContext.State, IfOwn;
    hide Evaluated;
    ghost var s0, errors0 := context.State(), context.errors;
    Basics(s0);
    IfStarts(s0, s.els.Else?);
    var ifBlock := context.CreateBlock();
    var elseBlock := context.CreateBlock();
    var endBlock := elseBlock;
    if s.els.Else? {
      endBlock := context.CreateBlock();
    }
    ghost var h := context.State();
    assert h == IfHead(s0, s.els.Else?);

    context.PushLocalTable();
    BuildingScoped(s0, h, {ifBlock} + IfOwn(s0, s.els.Else?));
    ghost var mid: Snap;
    var op;
    mid, op := Condition(context, ifBlock, elseBlock, Some(s.test));

    context.PushBlock(ifBlock);
    ThenStarts(s0, errors0, s, h, mid, context.errors, op);
    ghost var c := VisitThen(context, s, endBlock, s0, errors0, h, mid, op);

    context.PushBlock(elseBlock);
    if s.els.Else? {
      VisitElse(context, s, endBlock, s0, errors0, mid, op, c);
    } else {
      IfLowered(s0, errors0, s, mid, op, c, context.State(), context.errors);
    }
    context.PushBlock(endBlock);
  }

  /** The first body of an `if`, in its block. */
  method VisitThen(context: CodeContext, s: Stmt, endBlock: BlockId, ghost s0: Snap, ghost errors0: nat, ghost h: Snap,
                   ghost mid: Snap, ghost op: Operand)
    returns (ghost c: Snap)
    requires s.If? && Sound(s0) && Placed(mid) && ParsedList(s.thn) && endBlock == ThenEnd(s0, s)
    requires h == IfHead(s0, s.els.Else?) && CondVisited(Scoped(h), errors0, Some(s.test), mid, context.errors, op)
    requires context.State() == Scoped(ThenStart(s0, mid, op))
    modifies context
    ensures ThenDone(s0, errors0, s, mid, op, c, Pushed(context.State(), |s0.g| + 1), context.errors)
    decreases s, 0, 0
  {
    hide ListLowered, Preds, Successors, Sound, Grows, TargetBlocks, Building, PlacedBut, AllPlaced, ValidList;
    hide CondVisited, WellTyped, Names, ThenDone, Destructed, CodeContext.State, IfOwn, Evaluated;
    ghost var u, errors1 := ThenStart(s0, mid, op), context.errors;
    ThenStarts(s0, errors0, s, h, mid, errors1, op);
    VisitList(context, s.thn);
    ghost var m := context.State();
    ThenLowered(s0, errors0, s, h, mid, errors1, op, u, m, context.errors);
    c := Closed(m);
    context.PopLocalTable();
    Basics(c);
    context.Terminate(Br(endBlock));
  }

  lemma ThenStarts(s0: Snap, errors0: nat, s: Stmt, h: Snap, mid: Snap, errors1: nat, op: Operand)
    requires s.If? && Sound(s0) && Placed(mid)
    requires h == IfHead(s0, s.els.Else?) && CondVisited(Scoped(h), errors0, Some(s.test), mid, errors1, op)
    ensures var u := ThenStart(s0, mid, op); Sound(u) && Sound(Scoped(u)) && Scoped(u) == u.(scopes := mid.scopes)
  {
    hide Sound, Grows, TargetBlocks, Building, IfOwn, TestIs, AllPlaced;
    IfStarts(s0, s.els.Else?);
    IfTests(s0, s.els.Else?, mid, op);
    BuildingScoped(s0, ThenStart(s0, mid, op), IfOwn(s0, s.els.Else?));
  }

  /** The second body of an `if`, in its block. */
  method VisitElse(context: CodeContext, s: Stmt, endBlock: BlockId, ghost s0: Snap, ghost errors0: nat,
                   ghost mid: Snap, ghost op: Operand, ghost c: Snap)
    requires s.If? && s.els.Else? && Sound(s0) && ParsedList(s.els.stmts) && endBlock == |s0.g| + 2
    requires ThenDone(s0, errors0, s, mid, op, c, context.State(), context.errors)
    modifies context
    ensures StmtLowered(s0, errors0, s, Pushed(context.State(), endBlock), context.errors)
    decreases s, 0, 0
  {
    hide Preds, Successors, Sound, Grows, TargetBlocks, PlacedBut, AllPlaced, Valid, ValidList, WellTyped, ListIs;
    hide ThenIs, Names, StmtLowered, ListLowered, Destructed, CodeContext.State;
    ghost var u2, errors2 := context.State(), context.errors;
    BuildingScoped(s0, u2, {endBlock});
    Basics(u2);
    context.PushLocalTable();
    VisitList(context, s.els.stmts);
    ghost var m2 := context.State();
    IfElseLowered(s0, errors0, s, mid, op, c, u2, errors2, m2, context.errors);
    context.PopLocalTable();
    Basics(Closed(m2));
    context.Terminate(Br(endBlock));
  }

  /** The blocks and targets of a `for`. */
  method BeginFor(context: CodeContext)
    returns (condBlock: BlockId, bodyBlock: BlockId, postBlock: BlockId, endBlock: BlockId)
    modifies context
    ensures
      var b := |old(context.State()).g|;
      (condBlock, bodyBlock, postBlock, endBlock) == (b, b + 1, b + 2, b + 3)
    ensures context.State() == ForHead(old(context.State())) && context.errors == old(context.errors)
  {
    hide CodeContext.State;
    condBlock := context.CreateBlock();
    bodyBlock := context.CreateRedoBlock();
    postBlock := context.CreateContinueBlock();
    endBlock := context.CreateBreakBlock();
  }

  method VisitFor(context: CodeContext, s: Stmt)
    requires s.For? && Sound(context.State()) && Parsed(s)
    modifies context
    ensures StmtLowered(old(context.State()), old(context.errors), s, context.State(), context.errors)
    decreases s, 0
  {
    hide Placed, Now, Declares1, WellTyped, ParsedList, AllWellTyped, DeclaredPlain, Cur, ValidCond, Sound, Grows;
    hide TargetBlocks, Building, Joinable, PlacedBut, AllPlaced, Valid, ValidList, ValidPlains, ListIs, PlainsAre;
    hide TestIs, Names, ArgsCode, DtorsCode, StmtLowered, Destructed, CodeContext.State;
    ghost var s0, errors0 := context.State(), context.errors;
    Basics(s0);
    ForStarts(s0);
    var condBlock, bodyBlock, postBlock, endBlock := BeginFor(context);
    ghost var h := context.State();

    context.PushLocalTable();
    BuildingScoped(s0, h, {condBlock, bodyBlock, postBlock, endBlock});

    VisitPlains(context, s.pre);
    ghost var k, errors1 := context.State(), context.errors;
    ForHeader(s0, k);
    context.Terminate(Br(condBlock));

    context.PushBlock(condBlock);
    ghost var a1 := context.State();
    BuildingScoped(s0, a1, {bodyBlock, postBlock, endBlock});
    ghost var mid: Snap;
    var op;
    mid, op := Condition(context, bodyBlock, endBlock, s.cond);
    ghost var errors2 := context.errors;
    ForTests(s0, a1, mid, op);

    context.PushBlock(bodyBlock);
    ghost var a2 := context.State();
    BuildingScoped(s0, a2, {postBlock, endBlock});
    VisitList(context, s.body);
    ghost var m, errors3 := context.State(), context.errors;
    ForBodyEnds(s0, a2, m);
    context.Terminate(Br(postBlock));

    context.PushBlock(postBlock);
    ghost var a3 := context.State();
    BuildingScoped(s0, a3, {endBlock});
    var ops := CgnExpressions.Collect(context, s.post);
    ghost var n := context.State();
    ForLowered(s0, errors0, s, k, errors1, a1, mid, errors2, op, a2, m, errors3, a3, n, context.errors, ops);

    context.PopLocalTable();
    Basics(Closed(n));

    context.Terminate(Br(condBlock));
    context.PushBlock(endBlock);

    context.PopLoopBranchBlocks(true, true, true);
  }

  method VisitSwitch(context: CodeContext, s: Stmt)
    requires s.Switch? && Sound(context.State()) && Parsed(s)
    modifies context
    ensures StmtLowered(old(context.State()), old(context.errors), s, context.State(), context.errors)
    decreases s, 1
  {
    hide Sound, Grows, TargetBlocks, Building, Joinable, Valid, ValidList, ValidCases, ExpCode, StmtLowered, ListCode;
    hide CasesCode, Destructed, Switching, CasesLaid, Other, CodeContext.State;
    ghost var s0, errors0 := context.State(), context.errors;
    var switchValue := CgnExpressions.Visit(context, s.on);
    ghost var v, errors1 := context.State(), context.errors;
    if switchValue.None? {
      SwitchFails(s0, errors0, s, v, errors1);
      return;
    }
    var op := switchValue.value.op;
    SwitchStarts(s0, v, op);
    var switchInst := context.CurrBlock();
    var caseBlock := context.CreateBlock();
    var endBlock := context.CreateBreakBlock();
    context.Terminate(SwitchTo(op, [], endBlock));
    ghost var starts: seq<BlockId>;
    var defaultBlock;
    defaultBlock, starts := VisitCases(context, s, switchInst, caseBlock, endBlock, s0, v, op);
    ghost var p := context.State();
    SwitchingAt(s0, v, op, s.cases, starts, endBlock, p);
    context.SetDefaultDest(switchInst, defaultBlock);
    SwitchLowered(s0, errors0, s, v, errors1, switchValue.value, starts, p, context.errors);

    // The last case leaves a dangling block, which needs a terminator.
    context.Terminate(Br(endBlock));
    context.PopLoopBranchBlocks(true, false, false);
    context.PushBlock(endBlock);
  }

  /** The cases of a switch, one after the other, and the block that the default leads to. */
  method VisitCases(context: CodeContext, s: Stmt, switchInst: BlockId, firstBlock: BlockId, endBlock: BlockId,
                    ghost s0: Snap, ghost v: Snap, ghost op: Operand)
    returns (defaultBlock: BlockId, ghost starts: seq<BlockId>)
    requires s.Switch? && Parsed(s) && Sound(s0) && v.placed != [] && switchInst == Cur(v) && endBlock == |v.g| + 1
    requires
      var p := Pushed(context.State(), firstBlock);
      Switching(s0, v, op, [], [], endBlock, p) && CasesLaid(s0, v, [], [], p) && Joinable(p, Cur(p))
    modifies context
    ensures Switching(s0, v, op, s.cases, starts, endBlock, context.State())
    ensures context.errors >= old(context.errors) && |starts| == |s.cases|
        && defaultBlock == Other(s.cases, starts, endBlock)
    ensures context.errors == old(context.errors) <==> ValidCases(s.cases,
                                                                  RulesOf(SwitchEnv(s0.env, |s0.scopes|, endBlock)))
    ensures context.errors == old(context.errors) ==> CasesLaid(s0, v, s.cases, starts, context.State())
    decreases s, 0
  {
    hide Sound, Grows, TargetBlocks, Building, Joinable, Valid, ValidList, ValidCases, ListCode, CasesCode;
    hide Destructed, Switching, CasesLaid, CaseFits, Other, UniqueSoFar, CaseValues, CodeContext.State;
    ghost var errors1, rules := context.errors, RulesOf(SwitchEnv(s0.env, |s0.scopes|, endBlock));
    var caseBlock := firstBlock;
    var unique: set<int> := {};
    var hasDefault := false;
    defaultBlock, starts := endBlock, [];
    ghost var p := Pushed(context.State(), caseBlock);
    NoCaseYet(rules, endBlock);
    assert s.cases[..0] == [];
    var i := 0;
    while i < |s.cases|
      invariant 0 <= i <= |s.cases|
      invariant p == if i == 0 then Pushed(context.State(), caseBlock) else context.State()
      invariant p.placed != [] && Cur(p) == caseBlock
      invariant Switching(s0, v, op, s.cases[..i], starts, endBlock, p) && Joinable(p, Cur(p))
      invariant errors1 <= context.errors
      invariant context.errors == errors1 <==> ValidCases(s.cases[..i], rules)
      invariant context.errors == errors1 ==> CasesLaid(s0, v, s.cases[..i], starts, p)
      invariant UniqueSoFar(s.cases[..i], unique, hasDefault)
      invariant |starts| == i && defaultBlock == Other(s.cases[..i], starts, endBlock)
    {
      ghost var errors2, p1 := context.errors, p;
      unique, hasDefault, defaultBlock, p1 :=
        VisitCaseValue(context, s.cases[i], switchInst, caseBlock, unique, hasDefault, defaultBlock, s0, v, op,
                       s.cases[..i], starts, p, i == 0);
      ghost var more := s.cases[..i + 1];
      assert more == s.cases[..i] + [s.cases[i]];
      OneMoreCase(s0, v, s.cases, i, starts, caseBlock, p1, rules);
      caseBlock := VisitCaseBody(context, s.cases[i].body, caseBlock, s0, v, op, more, starts + [caseBlock], p1);
      starts := starts + [Cur(p1)];
      p := context.State();
      i := i + 1;
    }
    assert s.cases[..i] == s.cases;
  }

  lemma NoCaseYet(rules: Rules, end: BlockId)
    ensures ValidCases([], rules) && UniqueSoFar([], {}, false) && Other([], [], end) == end
  {
  }

  lemma OneMoreCase(s0: Snap, v: Snap, cases: seq<Case>, i: nat, starts: seq<BlockId>, block: BlockId, p: Snap,
                    rules: Rules)
    requires i < |cases| && |starts| == i
    ensures ValidCases(cases[..i + 1], rules)
      <==> ValidCases(cases[..i], rules) && cases[i].value !in CaseValues(cases[..i])
           && ValidList(cases[i].body, rules, {})
    ensures CasesLaid(s0, v, cases[..i], starts, p) && cases[i].value !in CaseValues(cases[..i])
      ==> CaseFits(s0, v, cases[..i + 1], starts + [block], p)
  {
    hide CasesLaid, ValidList;
    assert cases[..i + 1][..i] == cases[..i] && (starts + [block])[..i] == starts;
  }

  /** `unique` holds the values of the cases, and `hasDefault` says whether one is the default. */
  ghost predicate UniqueSoFar(cases: seq<Case>, unique: set<int>, hasDefault: bool) {
    && (forall val :: val in unique <==> Some(val) in CaseValues(cases))
    && (hasDefault <==> None in CaseValues(cases))
  }

  /** The label of a case: a value goes into the table, and the default is noted. */
  method VisitCaseValue(context: CodeContext, caseItem: Case, switchInst: BlockId, caseBlock: BlockId, unique: set<int>,
                        hasDefault: bool, defaultBlock: BlockId, ghost s0: Snap, ghost v: Snap, ghost op: Operand,
                        ghost cases: seq<Case>, ghost starts: seq<BlockId>, ghost p: Snap, ghost first: bool)
    returns (unique1: set<int>, hasDefault1: bool, defaultBlock1: BlockId, ghost p1: Snap)
    requires Sound(s0) && Switching(s0, v, op, cases, starts, |v.g| + 1, p) && Joinable(p, Cur(p))
    requires p == if first then Pushed(context.State(), caseBlock) else context.State()
    requires Cur(p) == caseBlock && switchInst == Cur(v)
    requires UniqueSoFar(cases, unique, hasDefault) && |starts| == |cases|
        && defaultBlock == Other(cases, starts, |v.g| + 1)
    modifies context
    ensures p1 == Pushed(context.State(), caseBlock)
    ensures Switching(s0, v, op, cases + [caseItem], starts + [caseBlock], |v.g| + 1, p1)
    ensures context.errors == if caseItem.value in CaseValues(cases) then old(context.errors) + 1
        else old(context.errors)
    ensures context.errors == old(context.errors) && CasesLaid(s0, v, cases, starts, p)
        ==> CasesLaid(s0, v, cases, starts, p1)
    ensures UniqueSoFar(cases + [caseItem], unique1, hasDefault1)
    ensures defaultBlock1 == Other(cases + [caseItem], starts + [caseBlock], |v.g| + 1)
  {
    hide Sound, Grows, TargetBlocks, Building, Joinable, CasesCode, Switching, CasesLaid, CodeContext.State;
    unique1, hasDefault1, defaultBlock1 := unique, hasDefault, defaultBlock;
    ghost var q := p;
    SwitchingAt(s0, v, op, cases, starts, |v.g| + 1, p);
    if (caseItem.value.Some? && caseItem.value.value in unique) || (caseItem.value.None? && hasDefault) {
      SwitchingFailed(s0, v, op, cases, starts, p);
      q := Failed(p);
      context.AddError();
    }
    SwitchingAt(s0, v, op, cases, starts, |v.g| + 1, q);
    CaseEnters(s0, v, op, cases, starts, caseItem, q);
    TableGrows(cases, starts, caseItem, caseBlock);
    if caseItem.value.Some? {
      unique1 := unique + {caseItem.value.value};
      context.AddCase(switchInst, caseItem.value.value, caseBlock);
    } else {
      hasDefault1 := true;
      defaultBlock1 := caseBlock;
      assert Table(cases, starts) + [] == Table(cases, starts);
      SameTerm(q, switchInst);
    }
    p1 := Retargeted(q, switchInst, SwitchTo(op, Table(cases + [caseItem], starts + [caseBlock]), |v.g| + 1));
    if !first {
      SwitchingAgain(s0, v, op, cases + [caseItem], starts + [caseBlock], p1);
      p1 := Pushed(p1, caseBlock);
    }
    UniqueGrows(cases, caseItem, unique, hasDefault);
    OtherGrows(cases, starts, caseItem, caseBlock, |v.g| + 1);
  }

  lemma TableGrows(cases: seq<Case>, starts: seq<BlockId>, item: Case, block: BlockId)
    requires |starts| == |cases|
    ensures
      Table(cases + [item], starts + [block])
        == Table(cases, starts) + (if item.value.Some? then [(item.value.value, block)] else [])
  {
    assert (cases + [item])[..|cases|] == cases && (starts + [block])[..|cases|] == starts;
  }

  lemma OtherGrows(cases: seq<Case>, starts: seq<BlockId>, item: Case, block: BlockId, end: BlockId)
    requires |starts| == |cases|
    ensures Other(cases + [item], starts + [block], end)
      == if item.value.None? then block else Other(cases, starts, end)
  {
    assert (cases + [item])[..|cases|] == cases && (starts + [block])[..|cases|] == starts;
  }

  lemma UniqueGrows(cases: seq<Case>, item: Case, unique: set<int>, hasDefault: bool)
    requires UniqueSoFar(cases, unique, hasDefault)
    ensures UniqueSoFar(cases + [item], if item.value.Some? then unique + {item.value.value} else unique,
                        hasDefault || item.value.None?)
  {
    assert CaseValues(cases + [item]) == CaseValues(cases) + {item.value};
  }

  lemma SameTerm(s: Snap, b: BlockId)
    requires b < |s.g| && s.g[b].term.Some?
    ensures Retargeted(s, b, s.g[b].term.value) == s
  {
    assert s.g[b := s.g[b].(term := Some(s.g[b].term.value))] == s.g;
  }

  /** The body of a case, and the block in which the next case goes on. */
  method VisitCaseBody(context: CodeContext, body: seq<Stmt>, caseBlock: BlockId, ghost s0: Snap, ghost v: Snap,
                       ghost op: Operand, ghost cases: seq<Case>, ghost starts: seq<BlockId>, ghost p1: Snap)
    returns (next: BlockId)
    requires ParsedList(body)
    requires p1 == Pushed(context.State(), caseBlock)
    requires Switching(s0, v, op, cases, starts, |v.g| + 1, p1)
    requires cases != [] && cases[|cases| - 1].body == body && starts[|cases| - 1] == caseBlock
    modifies context
    ensures context.State().placed != [] && next == Cur(context.State())
    ensures Switching(s0, v, op, cases, starts, |v.g| + 1, context.State())
        && Joinable(context.State(), Cur(context.State()))
    ensures context.errors >= old(context.errors)
    ensures context.errors == old(context.errors) <==> ValidList(body,
                                                                 RulesOf(SwitchEnv(s0.env, |s0.scopes|, |v.g| + 1)), {})
    ensures context.errors == old(context.errors) && CaseFits(s0, v, cases, starts, p1)
        ==> CasesLaid(s0, v, cases, starts, context.State())
    decreases body, 1
  {
    hide Sound, Grows, TargetBlocks, Building, Joinable, ListLowered, Switching, CasesLaid, CaseFits, ValidList;
    hide EndsInJump, SwitchEnv, Destructed, CodeContext.State;
    ghost var errors0 := context.errors;
    SwitchingAt(s0, v, op, cases, starts, |v.g| + 1, p1);
    ScopedSound(p1);
    context.PushLocalTable();
    context.PushBlock(caseBlock);
    assert context.State() == Scoped(p1);
    VisitList(context, body);
    ghost var m := context.State();
    context.CleanMeansNoErrors();
    CaseErrors(s0, v, op, cases, starts, p1, errors0, body, m, context.errors);
    if EndsInJump(body) {
      JumpCaseLeaves(s0, v, op, cases, starts, errors0, p1, m, context.errors);
      context.PopLocalTableRaw();
      next := context.CurrBlock();
    } else {
      next := LeaveCase(context, body, s0, v, op, cases, starts, p1, errors0);
    }
  }

  lemma CaseErrors(s0: Snap, v: Snap, op: Operand, cases: seq<Case>, starts: seq<BlockId>, p1: Snap, errors0: nat,
                   body: seq<Stmt>, m: Snap, errors1: nat)
    requires Switching(s0, v, op, cases, starts, |v.g| + 1, p1) && ListLowered(Scoped(p1), errors0, body, m, errors1)
    ensures errors1 >= errors0
    ensures errors1 == errors0 <==> ValidList(body, RulesOf(SwitchEnv(s0.env, |s0.scopes|, |v.g| + 1)), {})
  {
    hide Sound, Grows, SwitchEnv, ValidList, Building;
    assert Names([]) == {};
  }

  /** The end of a case that control falls out of: its scope, and the block of the next case. */
  method LeaveCase(context: CodeContext, ghost body: seq<Stmt>, ghost s0: Snap, ghost v: Snap, ghost op: Operand,
                   ghost cases: seq<Case>, ghost starts: seq<BlockId>, ghost p1: Snap, ghost errors0: nat)
    returns (next: BlockId)
    requires Switching(s0, v, op, cases, starts, |v.g| + 1, p1) && Sound(p1)
    requires cases != [] && cases[|cases| - 1].body == body && starts[|cases| - 1] == Cur(p1) && !EndsInJump(body)
    requires ListLowered(Scoped(p1), errors0, body, context.State(), context.errors)
    modifies context
    ensures context.errors == old(context.errors)
    ensures context.State().placed != [] && next == Cur(context.State())
    ensures Switching(s0, v, op, cases, starts, |v.g| + 1, context.State())
        && Joinable(context.State(), Cur(context.State()))
    ensures context.errors == errors0 && CaseFits(s0, v, cases, starts, p1)
        ==> CasesLaid(s0, v, cases, starts, context.State())
  {
    hide Sound, Grows, TargetBlocks, Building, Joinable, ListLowered, Switching, CasesLaid, CaseFits, EndsInJump;
    hide Destructed, CodeContext.State;
    ghost var m := context.State();
    BodyCloses(p1, errors0, body, m, context.errors);
    context.PopLocalTable();
    ghost var c := context.State();
    Basics(c);
    CreatedPlaced(c);
    next := context.CreateBlock();
    context.Terminate(Br(next));
    context.PushBlock(next);
    FallCaseLeaves(s0, v, op, cases, starts, errors0, p1, c, context.errors, context.State());
  }

  lemma CreatedPlaced(s: Snap)
    requires Placed(s) && s.g[Cur(s)].term.None?
    ensures Placed(Created(s)) && Created(s).g[Cur(s)].term.None?
  {
  }
}
