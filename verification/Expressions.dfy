/**
 The code of an expression computes its value.

 Started where the code of an expression begins, the machine reaches the point where it ends,
 after exactly the visible events of `Eval`, holding the value of `Eval`, and with every
 older register as it was.
 */
module Expressions {
  import opened Options
  import opened Cfg
  import opened Source
  import opened Layout

  function Here(p: Point, prev: BlockId, regs: map<nat, int>, h: Trace): Config {
    At(p.b, p.i, prev, regs, h)
  }

  /** Registers below `r` hold the same values. */
  ghost predicate Same(regs: map<nat, int>, regs1: map<nat, int>, r: nat) {
    forall k: nat | k < r :: Value(Reg(k), regs1) == Value(Reg(k), regs)
  }

  lemma Chain(g: Graph, w: World, c: Config, m: nat, c1: Config, n: nat, c2: Config)
    requires Steps(g, w, c, m) == c1 && Steps(g, w, c1, n) == c2
    ensures Steps(g, w, c, m + n) == c2
  {
    StepsAdd(g, w, c, m, n);
  }

  lemma RunThen(g: Graph, w: World, p: Point, ins: Instr, prev: BlockId, regs: map<nat, int>, h: Trace)
    requires Then(g, p, ins).Some?
    ensures Steps(g, w, Here(p, prev, regs, h), 1) == Execute(w, ins, Here(p, prev, regs, h))
  {
    var c := Here(p, prev, regs, h);
    assert Step(g, w, c) == Execute(w, ins, c);
    assert Steps(g, w, c, 1) == Steps(g, w, Step(g, w, c), 0);
  }

  lemma RunEnds(g: Graph, w: World, p: Point, t: Terminator, prev: BlockId, regs: map<nat, int>, h: Trace)
    requires Ends(g, p, t).Some?
    ensures Steps(g, w, Here(p, prev, regs, h), 1) == Leave(t, Here(p, prev, regs, h))
  {
    var c := Here(p, prev, regs, h);
    assert Step(g, w, c) == Leave(t, c);
    assert Steps(g, w, c, 1) == Steps(g, w, Step(g, w, c), 0);
  }

  /** A run that gets to a branch gets to the branch's target. */
  lemma ThenBr(g: Graph, w: World, c: Config, n: nat, p: Point, to: BlockId, prev: BlockId, regs: map<nat, int>,
               h: Trace)
    requires Steps(g, w, c, n) == Here(p, prev, regs, h)
    requires Ends(g, p, Br(to)).Some?
    ensures Steps(g, w, c, n + 1) == Here(Point(to, 0), p.b, regs, h)
  {
    RunEnds(g, w, p, Br(to), prev, regs, h);
    StepsAdd(g, w, c, n, 1);
  }

  /** A run that gets to a conditional branch takes the side its operand says. */
  lemma ThenCondBr(g: Graph, w: World, c: Config, n: nat, p: Point, o: Operand, yes: BlockId, no: BlockId,
                   prev: BlockId, regs: map<nat, int>, h: Trace)
    requires Steps(g, w, c, n) == Here(p, prev, regs, h)
    requires Ends(g, p, CondBr(o, yes, no)).Some?
    ensures Steps(g, w, c, n + 1) == Here(Point(if Value(o, regs) != 0 then yes else no, 0), p.b, regs, h)
  {
    RunEnds(g, w, p, CondBr(o, yes, no), prev, regs, h);
    StepsAdd(g, w, c, n, 1);
  }

  /** A run that gets to an instruction gets past it. */
  lemma ThenRun(g: Graph, w: World, c: Config, n: nat, p: Point, ins: Instr, prev: BlockId, regs: map<nat, int>,
                h: Trace)
    requires Steps(g, w, c, n) == Here(p, prev, regs, h)
    requires Then(g, p, ins).Some?
    ensures Steps(g, w, c, n + 1) == Execute(w, ins, Here(p, prev, regs, h))
  {
    RunThen(g, w, p, ins, prev, regs, h);
    StepsAdd(g, w, c, n, 1);
  }

  lemma CastRuns(g: Graph, w: World, rv: RValue, ty: Ty, a: Point, c: Ctr, prev: BlockId, regs: map<nat, int>, h: Trace)
    returns (n: nat, regs1: map<nat, int>)
    requires a.b < c.block && Below(rv.op, c.reg)
    requires CastCode(g, rv, ty, a, c).Some?
    requires Norm(rv.ty, Value(rv.op, regs)) == Value(rv.op, regs)
    ensures
      var m := CastCode(g, rv, ty, a, c).value;
      && Steps(g, w, Here(a, prev, regs, h), n) == Here(m.p, prev, regs1, h)
      && Value(m.rv.op, regs1) == Norm(ty, Value(rv.op, regs))
    ensures Same(regs, regs1, c.reg)
  {
    if rv.ty == ty {
      n, regs1 := 0, regs;
    } else {
      RunThen(g, w, a, Instr.Cast(c.reg, rv.op, ty), prev, regs, h);
      n, regs1 := 1, regs[c.reg := Norm(ty, Value(rv.op, regs))];
    }
  }

  lemma LoadRuns(g: Graph, w: World, x: Symbol, ty: Ty, a: Point, c: Ctr, prev: BlockId, regs: map<nat, int>, h: Trace)
    returns (n: nat, regs1: map<nat, int>)
    requires a.b < c.block
    requires LoadCode(g, x, ty, a, c).Some?
    ensures
      var m := LoadCode(g, x, ty, a, c).value;
      && Steps(g, w, Here(a, prev, regs, h), n) == Here(m.p, prev, regs1, h)
      && Value(m.rv.op, regs1) == Norm(ty, w.read(h, x))
    ensures Same(regs, regs1, c.reg)
  {
    RunThen(g, w, a, Load(c.reg, x, ty), prev, regs, h);
    n, regs1 := 1, regs[c.reg := Norm(ty, w.read(h, x))];
  }

  lemma PrimRuns(g: Graph, w: World, op: Symbol, l: RValue, r: RValue, a: Point, c: Ctr, prev: BlockId,
                 regs: map<nat, int>, h: Trace)
    returns (n: nat, regs1: map<nat, int>)
    requires a.b < c.block && Below(l.op, c.reg) && Below(r.op, c.reg)
    requires PrimCode(g, op, l, r, a, c).Some?
    requires Norm(l.ty, Value(l.op, regs)) == Value(l.op, regs)
    requires Norm(r.ty, Value(r.op, regs)) == Value(r.op, regs)
    ensures
      var m := PrimCode(g, op, l, r, a, c).value;
      && Steps(g, w, Here(a, prev, regs, h), n) == Here(m.p, prev, regs1, h)
      && Value(m.rv.op, regs1) == Norm(Common(l.ty, r.ty), w.prim(op, Value(l.op, regs), Value(r.op, regs)))
    ensures Same(regs, regs1, c.reg)
  {
    var ty := Common(l.ty, r.ty);
    var l1 := CastCode(g, l, ty, a, c).value;
    var n1, regs2 := CastRuns(g, w, l, ty, a, c, prev, regs, h);
    var r1 := CastCode(g, r, ty, l1.p, l1.c).value;
    var n2, regs3 := CastRuns(g, w, r, ty, l1.p, l1.c, prev, regs2, h);
    RunThen(g, w, r1.p, Instr.Prim(r1.c.reg, op, ty, l1.rv.op, r1.rv.op), prev, regs3, h);
    StepsAdd(g, w, Here(a, prev, regs, h), n1, n2);
    StepsAdd(g, w, Here(a, prev, regs, h), n1 + n2, 1);
    n := n1 + n2 + 1;
    regs1 := regs3[r1.c.reg := Norm(ty, w.prim(op, Value(l.op, regs), Value(r.op, regs)))];
  }

  lemma CmpRuns(g: Graph, w: World, op: Symbol, l: RValue, r: RValue, a: Point, c: Ctr, prev: BlockId,
                regs: map<nat, int>, h: Trace)
    returns (n: nat, regs1: map<nat, int>)
    requires a.b < c.block && Below(l.op, c.reg) && Below(r.op, c.reg)
    requires CmpCode(g, op, l, r, a, c).Some?
    requires Norm(l.ty, Value(l.op, regs)) == Value(l.op, regs)
    requires Norm(r.ty, Value(r.op, regs)) == Value(r.op, regs)
    ensures
      var m := CmpCode(g, op, l, r, a, c).value;
      && Steps(g, w, Here(a, prev, regs, h), n) == Here(m.p, prev, regs1, h)
      && Value(m.rv.op, regs1) == Bit(w.cmp(op, Value(l.op, regs), Value(r.op, regs)))
    ensures Same(regs, regs1, c.reg)
  {
    hide Steps, CastCode;
    var ty := Common(l.ty, r.ty);
    var l1 := CastCode(g, l, ty, a, c).value;
    var n1, regs2 := CastRuns(g, w, l, ty, a, c, prev, regs, h);
    var r1 := CastCode(g, r, ty, l1.p, l1.c).value;
    var n2, regs3 := CastRuns(g, w, r, ty, l1.p, l1.c, prev, regs2, h);
    RunThen(g, w, r1.p, Instr.Cmp(r1.c.reg, op, l1.rv.op, r1.rv.op), prev, regs3, h);
    StepsAdd(g, w, Here(a, prev, regs, h), n1, n2);
    StepsAdd(g, w, Here(a, prev, regs, h), n1 + n2, 1);
    n := n1 + n2 + 1;
    regs1 := regs3[r1.c.reg := Bit(w.cmp(op, Value(l.op, regs), Value(r.op, regs)))];
  }

  /** What it means that the machine, started at `a`, gets to `m` with the value and events of `e`. */
  ghost predicate Computes(g: Graph, w: World, e: Exp, a: Point, m: ExpEnd, reg: nat, prev: BlockId,
                           regs: map<nat, int>, h: Trace, n: nat, prev1: BlockId, regs1: map<nat, int>) {
    var (v, h1) := Eval(w, e, h);
    && Steps(g, w, Here(a, prev, regs, h), n) == Here(m.p, prev1, regs1, h1)
    && Value(m.rv.op, regs1) == v
    && Norm(TypeOf(e), v) == v
    && Same(regs, regs1, reg)
  }

  lemma {:induction false} ExpRuns(g: Graph, w: World, e: Exp, a: Point, c: Ctr, prev: BlockId, regs: map<nat, int>,
                                   h: Trace)
    returns (n: nat, prev1: BlockId, regs1: map<nat, int>)
    requires a.b < c.block
    requires ExpCode(g, e, a, c).Some?
    ensures Computes(g, w, e, a, ExpCode(g, e, a, c).value, c.reg, prev, regs, h, n, prev1, regs1)
    decreases e, 2
  {
    match e
    case Const(_, _) => n, prev1, regs1 := 0, prev, regs;
    case Read(x, ty) =>
      n, regs1 := LoadRuns(g, w, x, ty, a, c, prev, regs, h);
      prev1 := prev;
    case Invoke(_, _, _) => n, prev1, regs1 := InvokeRuns(g, w, e, a, c, prev, regs, h);
    case Binary(_, _, _) => n, prev1, regs1 := BinaryRuns(g, w, e, a, c, prev, regs, h);
    case Compare(_, _, _) => n, prev1, regs1 := CompareRuns(g, w, e, a, c, prev, regs, h);
    case And(_, _) => n, prev1, regs1 := LogicalRuns(g, w, e, a, c, prev, regs, h);
    case Or(_, _) => n, prev1, regs1 := LogicalRuns(g, w, e, a, c, prev, regs, h);
    case Cond(_, yes, no) =>
      if Complex(yes) || Complex(no) {
        n, prev1, regs1 := BranchingRuns(g, w, e, a, c, prev, regs, h);
      } else {
        n, prev1, regs1 := SelectRuns(g, w, e, a, c, prev, regs, h);
      }
    case Coalesce(_, _) => n, prev1, regs1 := CoalesceRuns(g, w, e, a, c, prev, regs, h);
    case Assign(_, _, _, _) => n, prev1, regs1 := AssignRuns(g, w, e, a, c, prev, regs, h);
  }

  lemma {:induction false} InvokeRuns(g: Graph, w: World, e: Exp, a: Point, c: Ctr, prev: BlockId, regs: map<nat, int>,
                                      h: Trace)
    returns (n: nat, prev1: BlockId, regs1: map<nat, int>)
    requires e.Invoke?
    requires a.b < c.block
    requires InvokeCode(g, e, a, c).Some?
    ensures Computes(g, w, e, a, InvokeCode(g, e, a, c).value, c.reg, prev, regs, h, n, prev1, regs1)
    decreases e, 1
  {
    var m := ArgsCode(g, e.args, a, c).value;
    var (vs, h1) := EvalAll(w, e.args, h);
    var n1, prev2, regs2 := ArgsRun(g, w, e.args, a, c, prev, regs, h);
    RunThen(g, w, m.p, Instr.Call(m.c.reg, e.f, m.ops, e.ty), prev2, regs2, h1);
    StepsAdd(g, w, Here(a, prev, regs, h), n1, 1);
    n, prev1, regs1 := n1 + 1, prev2, regs2[m.c.reg := Norm(e.ty, w.call(h1, e.f, vs))];
  }

  lemma {:induction false} BinaryRuns(g: Graph, w: World, e: Exp, a: Point, c: Ctr, prev: BlockId, regs: map<nat, int>,
                                      h: Trace)
    returns (n: nat, prev1: BlockId, regs1: map<nat, int>)
    requires e.Binary?
    requires a.b < c.block
    requires BinaryCode(g, e, a, c).Some?
    ensures Computes(g, w, e, a, BinaryCode(g, e, a, c).value, c.reg, prev, regs, h, n, prev1, regs1)
    decreases e, 1
  {
    var m := ExpCode(g, e.l, a, c).value;
    var k := ExpCode(g, e.r, m.p, m.c).value;
    var n1, prev2, regs2 := PairRuns(g, w, e, e.l, e.r, a, c, prev, regs, h);
    var h2 := Eval(w, e.r, Eval(w, e.l, h).1).1;
    var n2, regs3 := PrimRuns(g, w, e.op, m.rv, k.rv, k.p, k.c, prev2, regs2, h2);
    StepsAdd(g, w, Here(a, prev, regs, h), n1, n2);
    n, prev1, regs1 := n1 + n2, prev2, regs3;
  }

  lemma {:induction false} CompareRuns(g: Graph, w: World, e: Exp, a: Point, c: Ctr, prev: BlockId, regs: map<nat, int>,
                                       h: Trace)
    returns (n: nat, prev1: BlockId, regs1: map<nat, int>)
    requires e.Compare?
    requires a.b < c.block
    requires CompareCode(g, e, a, c).Some?
    ensures Computes(g, w, e, a, CompareCode(g, e, a, c).value, c.reg, prev, regs, h, n, prev1, regs1)
    decreases e, 1
  {
    hide Steps;
    var m := ExpCode(g, e.l, a, c).value;
    var k := ExpCode(g, e.r, m.p, m.c).value;
    var n1, prev2, regs2 := PairRuns(g, w, e, e.l, e.r, a, c, prev, regs, h);
    var h2 := Eval(w, e.r, Eval(w, e.l, h).1).1;
    var n2, regs3 := CmpRuns(g, w, e.op, m.rv, k.rv, k.p, k.c, prev2, regs2, h2);
    StepsAdd(g, w, Here(a, prev, regs, h), n1, n2);
    n, prev1, regs1 := n1 + n2, prev2, regs3;
  }

  lemma {:induction false} ArgsRun(g: Graph, w: World, es: seq<Exp>, a: Point, c: Ctr, prev: BlockId,
                                   regs: map<nat, int>, h: Trace)
    returns (n: nat, prev1: BlockId, regs1: map<nat, int>)
    requires a.b < c.block
    requires ArgsCode(g, es, a, c).Some?
    ensures
      var m := ArgsCode(g, es, a, c).value;
      var (vs, h1) := EvalAll(w, es, h);
      && Steps(g, w, Here(a, prev, regs, h), n) == Here(m.p, prev1, regs1, h1)
      && Values(m.ops, regs1) == vs
    ensures Same(regs, regs1, c.reg)
    decreases es, 0
  {
    if es == [] {
      n, prev1, regs1 := 0, prev, regs;
    } else {
      var k := |es| - 1;
      var m := ArgsCode(g, es[..k], a, c).value;
      var h1 := EvalAll(w, es[..k], h).1;
      var n1, prev2, regs2 := ArgsRun(g, w, es[..k], a, c, prev, regs, h);
      var n2, prev3, regs3 := ExpRuns(g, w, es[k], m.p, m.c, prev2, regs2, h1);
      StepsAdd(g, w, Here(a, prev, regs, h), n1, n2);
      ValuesSame(m.ops, regs2, regs3, m.c.reg);
      n, prev1, regs1 := n1 + n2, prev3, regs3;
      var l := ExpCode(g, es[k], m.p, m.c).value;
      assert (m.ops + [l.rv.op])[..k] == m.ops;
    }
  }

  lemma {:induction false} ValuesSame(os: seq<Operand>, regs: map<nat, int>, regs1: map<nat, int>, r: nat)
    requires Same(regs, regs1, r)
    requires forall o | o in os :: Below(o, r)
    ensures Values(os, regs1) == Values(os, regs)
  {
    if os != [] {
      ValuesSame(os[..|os| - 1], regs, regs1, r);
      assert os[|os| - 1] in os;
      ValueSame(os[|os| - 1], regs, regs1, r);
    }
  }

  lemma ValueSame(o: Operand, regs: map<nat, int>, regs1: map<nat, int>, r: nat)
    requires Same(regs, regs1, r) && Below(o, r)
    ensures Value(o, regs1) == Value(o, regs)
  {
    if o.Reg? {
      assert Value(Reg(o.r), regs1) == Value(Reg(o.r), regs);
    }
  }

  /** Two operands, left one first; the left value survives the evaluation of the right one. */
  lemma {:induction false} PairRuns(g: Graph, w: World, e: Exp, l: Exp, r: Exp, a: Point, c: Ctr, prev: BlockId,
                                    regs: map<nat, int>, h: Trace)
    returns (n: nat, prev1: BlockId, regs1: map<nat, int>)
    requires l < e && r < e
    requires a.b < c.block
    requires ExpCode(g, l, a, c).Some?
    requires
      var m := ExpCode(g, l, a, c).value;
      ExpCode(g, r, m.p, m.c).Some?
    ensures
      var m := ExpCode(g, l, a, c).value;
      var k := ExpCode(g, r, m.p, m.c).value;
      var (lv, h1) := Eval(w, l, h);
      var (rv, h2) := Eval(w, r, h1);
      && Steps(g, w, Here(a, prev, regs, h), n) == Here(k.p, prev1, regs1, h2)
      && Value(m.rv.op, regs1) == lv && Norm(TypeOf(l), lv) == lv
      && Value(k.rv.op, regs1) == rv && Norm(TypeOf(r), rv) == rv
    ensures Same(regs, regs1, c.reg)
    decreases e, 0
  {
    hide ExpCode, Eval, Steps, Norm;
    var m := ExpCode(g, l, a, c).value;
    var h1 := Eval(w, l, h).1;
    var n1, prev2, regs2 := ExpRuns(g, w, l, a, c, prev, regs, h);
    var n2, prev3, regs3 := ExpRuns(g, w, r, m.p, m.c, prev2, regs2, h1);
    StepsAdd(g, w, Here(a, prev, regs, h), n1, n2);
    ValueSame(m.rv.op, regs2, regs3, m.c.reg);
    n, prev1, regs1 := n1 + n2, prev3, regs3;
  }

  /** An expression tested as `i1`: the register holds 1 exactly when the value is not zero. */
  lemma {:induction false} BoolRuns(g: Graph, w: World, e: Exp, a: Point, c: Ctr, prev: BlockId, regs: map<nat, int>,
                                    h: Trace)
    returns (n: nat, prev1: BlockId, regs1: map<nat, int>)
    requires a.b < c.block
    requires BoolCode(g, e, a, c).Some?
    ensures
      var m := BoolCode(g, e, a, c).value;
      var (v, h1) := Eval(w, e, h);
      && Steps(g, w, Here(a, prev, regs, h), n) == Here(m.p, prev1, regs1, h1)
      && Value(m.rv.op, regs1) == Bit(v != 0)
    ensures Same(regs, regs1, c.reg)
    decreases e, 3
  {
    var m := ExpCode(g, e, a, c).value;
    var n1, prev2, regs2 := ExpRuns(g, w, e, a, c, prev, regs, h);
    var n2, regs3 := CastRuns(g, w, m.rv, TBool, m.p, m.c, prev2, regs2, Eval(w, e, h).1);
    StepsAdd(g, w, Here(a, prev, regs, h), n1, n2);
    n, prev1, regs1 := n1 + n2, prev2, regs3;
  }

  /** A test takes the branch that its value says, leaving from the block it ends in. */
  lemma {:induction false} BranchRuns(g: Graph, w: World, e: Exp, yes: BlockId, no: BlockId, a: Point, c: Ctr,
                                      prev: BlockId, regs: map<nat, int>, h: Trace)
    returns (n: nat, regs1: map<nat, int>)
    requires a.b < c.block
    requires BranchCode(g, e, yes, no, a, c).Some?
    ensures
      var m := BranchCode(g, e, yes, no, a, c).value;
      var (v, h1) := Eval(w, e, h);
      && Steps(g, w, Here(a, prev, regs, h), n) == Here(Point(if v != 0 then yes else no, 0), m.p.b, regs1, h1)
      && Value(m.rv.op, regs1) == Bit(v != 0)
    ensures Same(regs, regs1, c.reg) && n >= 1
    decreases e, 4
  {
    hide BoolCode, Steps;
    var m := BoolCode(g, e, a, c).value;
    var n1, prev2, regs2 := BoolRuns(g, w, e, a, c, prev, regs, h);
    ThenCondBr(g, w, Here(a, prev, regs, h), n1, m.p, m.rv.op, yes, no, prev2, regs2, Eval(w, e, h).1);
    n, regs1 := n1 + 1, regs2;
  }

  lemma {:induction false} ArmRuns(g: Graph, w: World, e: Exp, start: BlockId, end: BlockId, c: Ctr, prev: BlockId,
                                   regs: map<nat, int>, h: Trace)
    returns (n: nat, regs1: map<nat, int>)
    requires start < c.block
    requires ArmCode(g, e, start, end, c).Some?
    ensures
      var m := ArmCode(g, e, start, end, c).value;
      var (v, h1) := Eval(w, e, h);
      && Steps(g, w, Here(Point(start, 0), prev, regs, h), n) == Here(Point(end, 0), m.p.b, regs1, h1)
      && Value(m.rv.op, regs1) == v && Norm(m.rv.ty, v) == v
    ensures Same(regs, regs1, c.reg)
    decreases e, 4
  {
    hide ExpCode, Steps;
    var m := ExpCode(g, e, Point(start, 0), c).value;
    var n1, prev2, regs2 := ExpRuns(g, w, e, Point(start, 0), c, prev, regs, h);
    ThenBr(g, w, Here(Point(start, 0), prev, regs, h), n1, m.p, end, prev2, regs2, Eval(w, e, h).1);
    n, regs1 := n1 + 1, regs2;
  }

  lemma {:induction false} BoolArmRuns(g: Graph, w: World, e: Exp, start: BlockId, end: BlockId, c: Ctr, prev: BlockId,
                                       regs: map<nat, int>, h: Trace)
    returns (n: nat, regs1: map<nat, int>)
    requires start < c.block
    requires BoolArmCode(g, e, start, end, c).Some?
    ensures
      var m := BoolArmCode(g, e, start, end, c).value;
      var (v, h1) := Eval(w, e, h);
      && Steps(g, w, Here(Point(start, 0), prev, regs, h), n) == Here(Point(end, 0), m.p.b, regs1, h1)
      && Value(m.rv.op, regs1) == Bit(v != 0)
    ensures Same(regs, regs1, c.reg)
    decreases e, 4
  {
    var m := BoolCode(g, e, Point(start, 0), c).value;
    var n1, prev2, regs2 := BoolRuns(g, w, e, Point(start, 0), c, prev, regs, h);
    ThenBr(g, w, Here(Point(start, 0), prev, regs, h), n1, m.p, end, prev2, regs2, Eval(w, e, h).1);
    n, regs1 := n1 + 1, regs2;
  }

  /** A phi takes the operand that belongs to the block control came from. */
  lemma PhiRuns(g: Graph, w: World, end: BlockId, l: Operand, lb: BlockId, r: Operand, rb: BlockId, ty: Ty, c: Ctr,
                prev: BlockId, regs: map<nat, int>, h: Trace)
    returns (regs1: map<nat, int>)
    requires PhiCode(g, end, l, lb, r, rb, ty, c).Some?
    requires lb != rb && (prev == lb || prev == rb)
    ensures Steps(g, w, Here(Point(end, 0), prev, regs, h), 1) == Here(Point(end, 1), prev, regs1, h)
    ensures Value(Reg(c.reg), regs1) == (if prev == lb then Value(l, regs) else Value(r, regs))
    ensures Same(regs, regs1, c.reg)
  {
    var inc := [(l, lb), (r, rb)];
    RunThen(g, w, Point(end, 0), Phi(c.reg, inc), prev, regs, h);
    assert inc[1..] == [(r, rb)];
    assert Incoming(inc, prev) == Some(if prev == lb then l else r);
    regs1 := regs[c.reg := if prev == lb then Value(l, regs) else Value(r, regs)];
  }

  lemma {:induction false} LogicalRuns(g: Graph, w: World, e: Exp, a: Point, c: Ctr, prev: BlockId, regs: map<nat, int>,
                                       h: Trace)
    returns (n: nat, prev1: BlockId, regs1: map<nat, int>)
    requires e.And? || e.Or?
    requires a.b < c.block
    requires LogicalCode(g, e, a, c).Some?
    ensures Computes(g, w, e, a, LogicalCode(g, e, a, c).value, c.reg, prev, regs, h, n, prev1, regs1)
    decreases e, 0
  {
    hide Step, BoolArmCode, BranchCode;
    var first, second := c.block, c.block + 1;
    var yes, no := if e.And? then first else second, if e.And? then second else first;
    var c1 := c.(block := c.block + 2);
    var l := BranchCode(g, e.l, yes, no, a, c1).value;
    var r := BoolArmCode(g, e.r, first, second, l.c).value;
    var (lv, h1) := Eval(w, e.l, h);
    var n1, regs2 := BranchRuns(g, w, e.l, yes, no, a, c1, prev, regs, h);
    var n2, prev3, regs3, h2 := 0, l.p.b, regs2, h1;
    if (lv != 0) == e.And? {
      n2, regs3 := BoolArmRuns(g, w, e.r, first, second, l.c, l.p.b, regs2, h1);
      prev3, h2 := r.p.b, Eval(w, e.r, h1).1;
    }
    var join := Here(Point(second, 0), prev3, regs3, h2);
    Chain(g, w, Here(a, prev, regs, h), n1, Here(Point(if lv != 0 then yes else no, 0), l.p.b, regs2, h1), n2, join);
    regs1 := PhiRuns(g, w, second, l.rv.op, l.p.b, r.rv.op, r.p.b, TBool, r.c, prev3, regs3, h2);
    Chain(g, w, Here(a, prev, regs, h), n1 + n2, join, 1, Here(Point(second, 1), prev3, regs1, h2));
    n, prev1 := n1 + n2 + 1, prev3;
    ValueSame(l.rv.op, regs2, regs3, l.c.reg);
  }

  lemma {:induction false} BranchingRuns(g: Graph, w: World, e: Exp, a: Point, c: Ctr, prev: BlockId,
                                         regs: map<nat, int>, h: Trace)
    returns (n: nat, prev1: BlockId, regs1: map<nat, int>)
    requires e.Cond? && TypeOf(e.yes) == TypeOf(e.no)
    requires a.b < c.block
    requires BranchingCode(g, e, a, c).Some?
    ensures Computes(g, w, e, a, BranchingCode(g, e, a, c).value, c.reg, prev, regs, h, n, prev1, regs1)
    decreases e, 1
  {
    hide Steps;
    var t := BoolCode(g, e.c, a, c).value;
    var yes, no, end := t.c.block, t.c.block + 1, t.c.block + 2;
    var (v, h1) := Eval(w, e.c, h);
    var n1, prev2, regs2 := BoolRuns(g, w, e.c, a, c, prev, regs, h);
    ThenCondBr(g, w, Here(a, prev, regs, h), n1, t.p, t.rv.op, yes, no, prev2, regs2, h1);
    var n2;
    n2, prev1, regs1 := ArmsRun(g, w, e, yes, no, end, t.c.(block := t.c.block + 3), v != 0, t.p.b, regs2, h1);
    StepsAdd(g, w, Here(a, prev, regs, h), n1 + 1, n2);
    n := n1 + 1 + n2;
  }

  lemma {:induction false} ArmsRun(g: Graph, w: World, e: Exp, yes: BlockId, no: BlockId, end: BlockId, c: Ctr,
                                   taken: bool, prev: BlockId, regs: map<nat, int>, h: Trace)
    returns (n: nat, prev1: BlockId, regs1: map<nat, int>)
    requires e.Cond? && TypeOf(e.yes) == TypeOf(e.no)
    requires yes < c.block && no < c.block && yes != no
    requires ArmsCode(g, e, yes, no, end, c).Some?
    ensures
      var m := ArmsCode(g, e, yes, no, end, c).value;
      var (v, h1) := Eval(w, if taken then e.yes else e.no, h);
      && Steps(g, w, Here(Point(if taken then yes else no, 0), prev, regs, h), n) == Here(m.p, prev1, regs1, h1)
      && Value(m.rv.op, regs1) == v && Norm(TypeOf(e), v) == v
    ensures Same(regs, regs1, c.reg)
    decreases e, 0
  {
    var y := ArmCode(g, e.yes, yes, end, c).value;
    var k := ArmCode(g, e.no, no, end, y.c).value;
    var n1, regs2;
    var h1 := Eval(w, if taken then e.yes else e.no, h).1;
    if taken {
      n1, regs2 := ArmRuns(g, w, e.yes, yes, end, c, prev, regs, h);
      prev1 := y.p.b;
    } else {
      n1, regs2 := ArmRuns(g, w, e.no, no, end, y.c, prev, regs, h);
      prev1 := k.p.b;
    }
    regs1 := PhiRuns(g, w, end, y.rv.op, y.p.b, k.rv.op, k.p.b, y.rv.ty, k.c, prev1, regs2, h1);
    StepsAdd(g, w, Here(Point(if taken then yes else no, 0), prev, regs, h), n1, 1);
    n := n1 + 1;
  }

  /** The arms of a select are constants and variables, so evaluating both shows no event. */
  lemma {:induction false} SelectRuns(g: Graph, w: World, e: Exp, a: Point, c: Ctr, prev: BlockId, regs: map<nat, int>,
                                      h: Trace)
    returns (n: nat, prev1: BlockId, regs1: map<nat, int>)
    requires e.Cond? && TypeOf(e.yes) == TypeOf(e.no) && !Complex(e.yes) && !Complex(e.no)
    requires a.b < c.block
    requires SelectCode(g, e, a, c).Some?
    ensures Computes(g, w, e, a, SelectCode(g, e, a, c).value, c.reg, prev, regs, h, n, prev1, regs1)
    decreases e, 1
  {
    hide Steps;
    var t := BoolCode(g, e.c, a, c).value;
    var y := ExpCode(g, e.yes, t.p, t.c).value;
    var k := ExpCode(g, e.no, y.p, y.c).value;
    var h1 := Eval(w, e.c, h).1;
    var n1, prev2, regs2 := BoolRuns(g, w, e.c, a, c, prev, regs, h);
    var n2, prev3, regs3 := PairRuns(g, w, e, e.yes, e.no, t.p, t.c, prev2, regs2, h1);
    ValueSame(t.rv.op, regs2, regs3, t.c.reg);
    RunThen(g, w, k.p, Instr.Select(k.c.reg, t.rv.op, y.rv.op, k.rv.op), prev3, regs3, h1);
    StepsAdd(g, w, Here(a, prev, regs, h), n1, n2);
    StepsAdd(g, w, Here(a, prev, regs, h), n1 + n2, 1);
    n, prev1, regs1 := n1 + n2 + 1, prev3, regs3[k.c.reg := Eval(w, e, h).0];
  }

  /** Where both are possible, the select and the two arms with a phi give the same value and show the same events. */
  lemma SelectIsBranching(g1: Graph, g2: Graph, w: World, e: Exp, a: Point, c: Ctr, prev: BlockId, regs: map<nat, int>,
                          h: Trace)
    returns (n1: nat, n2: nat, end1: Config, end2: Config)
    requires e.Cond? && TypeOf(e.yes) == TypeOf(e.no) && !Complex(e.yes) && !Complex(e.no) && a.b < c.block
    requires SelectCode(g1, e, a, c).Some? && BranchingCode(g2, e, a, c).Some?
    ensures end1 == Steps(g1, w, Here(a, prev, regs, h), n1) && end2 == Steps(g2, w, Here(a, prev, regs, h), n2)
    ensures end1.At? && end2.At? && end1.h == end2.h
    ensures Value(SelectCode(g1, e, a, c).value.rv.op, end1.regs)
        == Value(BranchingCode(g2, e, a, c).value.rv.op, end2.regs)
  {
    hide SelectCode, BranchingCode, Steps, Eval;
    var m1, m2 := SelectCode(g1, e, a, c).value, BranchingCode(g2, e, a, c).value;
    var prev1, regs1, prev2, regs2;
    n1, prev1, regs1 := SelectRuns(g1, w, e, a, c, prev, regs, h);
    n2, prev2, regs2 := BranchingRuns(g2, w, e, a, c, prev, regs, h);
    end1, end2 := Here(m1.p, prev1, regs1, Eval(w, e, h).1), Here(m2.p, prev2, regs2, Eval(w, e, h).1);
  }

  lemma {:induction false} CoalesceRuns(g: Graph, w: World, e: Exp, a: Point, c: Ctr, prev: BlockId,
                                        regs: map<nat, int>, h: Trace)
    returns (n: nat, prev1: BlockId, regs1: map<nat, int>)
    requires e.Coalesce?
    requires a.b < c.block
    requires CoalesceCode(g, e, a, c).Some?
    ensures Computes(g, w, e, a, CoalesceCode(g, e, a, c).value, c.reg, prev, regs, h, n, prev1, regs1)
    decreases e, 1
  {
    hide Steps, ExpCode, CastCode, FallbackCode, PickCode;
    var l := ExpCode(g, e.l, a, c).value;
    var t := CastCode(g, l.rv, TBool, l.p, l.c).value;
    var (lv, h1) := Eval(w, e.l, h);
    var n1, prev2, regs2 := ExpRuns(g, w, e.l, a, c, prev, regs, h);
    var n2, regs3 := CastRuns(g, w, l.rv, TBool, l.p, l.c, prev2, regs2, h1);
    ValueSame(l.rv.op, regs2, regs3, l.c.reg);
    Chain(g, w, Here(a, prev, regs, h), n1, Here(l.p, prev2, regs2, h1), n2, Here(t.p, prev2, regs3, h1));
    var n3;
    if Complex(e.r) {
      n3, prev1, regs1 := FallbackRuns(g, w, e, l, t, lv, prev2, regs3, h1);
    } else {
      n3, prev1, regs1 := PickRuns(g, w, e, l, t, lv, prev2, regs3, h1);
    }
    StepsAdd(g, w, Here(a, prev, regs, h), n1 + n2, n3);
    n := n1 + n2 + n3;
  }

  /** A simple right operand of `??` is evaluated in any case; that shows no event. */
  lemma {:induction false} PickRuns(g: Graph, w: World, e: Exp, l: ExpEnd, t: ExpEnd, lv: int, prev: BlockId,
                                    regs: map<nat, int>, h: Trace)
    returns (n: nat, prev1: BlockId, regs1: map<nat, int>)
    requires e.Coalesce? && !Complex(e.r) && TypeOf(e.r) == l.rv.ty
    requires t.p.b < t.c.block && Below(l.rv.op, t.c.reg) && Below(t.rv.op, t.c.reg)
    requires ExpCode(g, e.r, t.p, t.c).Some?
    requires
      var r := ExpCode(g, e.r, t.p, t.c).value;
      PickCode(g, t.rv.op, l.rv, r.rv.op, r.p, r.c).Some?
    requires Value(l.rv.op, regs) == lv && Value(t.rv.op, regs) == Bit(lv != 0) && Norm(l.rv.ty, lv) == lv
    ensures
      var r := ExpCode(g, e.r, t.p, t.c).value;
      var m := PickCode(g, t.rv.op, l.rv, r.rv.op, r.p, r.c).value;
      var (v, h1) := if lv != 0 then (lv, h) else Eval(w, e.r, h);
      && Steps(g, w, Here(t.p, prev, regs, h), n) == Here(m.p, prev1, regs1, h1)
      && Value(m.rv.op, regs1) == v && Norm(l.rv.ty, v) == v
    ensures Same(regs, regs1, t.c.reg)
    decreases e, 0
  {
    hide Steps;
    var r := ExpCode(g, e.r, t.p, t.c).value;
    var n1, prev2, regs2 := ExpRuns(g, w, e.r, t.p, t.c, prev, regs, h);
    ValueSame(l.rv.op, regs, regs2, t.c.reg);
    ValueSame(t.rv.op, regs, regs2, t.c.reg);
    RunThen(g, w, r.p, Instr.Select(r.c.reg, t.rv.op, l.rv.op, r.rv.op), prev2, regs2, h);
    StepsAdd(g, w, Here(t.p, prev, regs, h), n1, 1);
    n, prev1 := n1 + 1, prev2;
    regs1 := regs2[r.c.reg := if lv != 0 then lv else Eval(w, e.r, h).0];
  }

  lemma {:induction false} FallbackRuns(g: Graph, w: World, e: Exp, l: ExpEnd, t: ExpEnd, lv: int, prev: BlockId,
                                        regs: map<nat, int>, h: Trace)
    returns (n: nat, prev1: BlockId, regs1: map<nat, int>)
    requires e.Coalesce? && TypeOf(e.r) == l.rv.ty
    requires t.p.b < t.c.block && Below(l.rv.op, t.c.reg)
    requires FallbackCode(g, e, l, t).Some?
    requires Value(l.rv.op, regs) == lv && Value(t.rv.op, regs) == Bit(lv != 0) && Norm(l.rv.ty, lv) == lv
    ensures
      var m := FallbackCode(g, e, l, t).value;
      var (v, h1) := if lv != 0 then (lv, h) else Eval(w, e.r, h);
      && Steps(g, w, Here(t.p, prev, regs, h), n) == Here(m.p, prev1, regs1, h1)
      && Value(m.rv.op, regs1) == v && Norm(l.rv.ty, v) == v
    ensures Same(regs, regs1, t.c.reg)
    decreases e, 0
  {
    hide ExpCode, Eval, Steps, Norm;
    var no, end := t.c.block, t.c.block + 1;
    var c1 := t.c.(block := t.c.block + 2);
    var r := ArmCode(g, e.r, no, end, c1).value;
    RunEnds(g, w, t.p, CondBr(t.rv.op, end, no), prev, regs, h);
    if lv != 0 {
      prev1 := t.p.b;
      regs1 := PhiRuns(g, w, end, l.rv.op, t.p.b, r.rv.op, r.p.b, l.rv.ty, r.c, prev1, regs, h);
      StepsAdd(g, w, Here(t.p, prev, regs, h), 1, 1);
      n := 2;
    } else {
      var n1, regs2 := ArmRuns(g, w, e.r, no, end, c1, t.p.b, regs, h);
      prev1 := r.p.b;
      regs1 := PhiRuns(g, w, end, l.rv.op, t.p.b, r.rv.op, r.p.b, l.rv.ty, r.c, prev1, regs2, Eval(w, e.r, h).1);
      StepsAdd(g, w, Here(t.p, prev, regs, h), 1, n1);
      StepsAdd(g, w, Here(t.p, prev, regs, h), 1 + n1, 1);
      n := 1 + n1 + 1;
    }
  }

  lemma {:induction false} AssignRuns(g: Graph, w: World, e: Exp, a: Point, c: Ctr, prev: BlockId, regs: map<nat, int>,
                                      h: Trace)
    returns (n: nat, prev1: BlockId, regs1: map<nat, int>)
    requires e.Assign?
    requires a.b < c.block
    requires AssignCode(g, e, a, c).Some?
    ensures Computes(g, w, e, a, AssignCode(g, e, a, c).value, c.reg, prev, regs, h, n, prev1, regs1)
    decreases e, 1
  {
    hide Steps, ExpCode;
    var m := ExpCode(g, e.rhs, a, c).value;
    var (rv, h1) := Eval(w, e.rhs, h);
    var n1, prev2, regs2 := ExpRuns(g, w, e.rhs, a, c, prev, regs, h);
    prev1 := prev2;
    match e.update
    case None =>
      var n2, regs3 := StoreRuns(g, w, e.x, e.ty, m, prev2, regs2, h1);
      StepsAdd(g, w, Here(a, prev, regs, h), n1, n2);
      n, regs1 := n1 + n2, regs3;
    case Some(op) =>
      var u := UpdateCode(g, e.x, e.ty, op, m).value;
      var v := Norm(Common(e.ty, TypeOf(e.rhs)), w.prim(op, Norm(e.ty, w.read(h1, e.x)), rv));
      var n2, regs3 := UpdateRuns(g, w, e.x, e.ty, op, m, prev2, regs2, h1);
      var n3, regs4 := StoreRuns(g, w, e.x, e.ty, u, prev2, regs3, h1);
      StepsAdd(g, w, Here(a, prev, regs, h), n1, n2);
      StepsAdd(g, w, Here(a, prev, regs, h), n1 + n2, n3);
      n, regs1 := n1 + n2 + n3, regs4;
  }

  lemma UpdateRuns(g: Graph, w: World, x: Symbol, ty: Ty, op: Symbol, m: ExpEnd, prev: BlockId, regs: map<nat, int>,
                   h: Trace)
    returns (n: nat, regs1: map<nat, int>)
    requires m.p.b < m.c.block && Below(m.rv.op, m.c.reg)
    requires UpdateCode(g, x, ty, op, m).Some?
    requires Norm(m.rv.ty, Value(m.rv.op, regs)) == Value(m.rv.op, regs)
    ensures
      var u := UpdateCode(g, x, ty, op, m).value;
      && Steps(g, w, Here(m.p, prev, regs, h), n) == Here(u.p, prev, regs1, h)
      && Value(u.rv.op, regs1) == Norm(Common(ty, m.rv.ty), w.prim(op, Norm(ty, w.read(h, x)), Value(m.rv.op, regs)))
    ensures Same(regs, regs1, m.c.reg)
  {
    hide Steps;
    var l := LoadCode(g, x, ty, m.p, m.c).value;
    var n1, regs2 := LoadRuns(g, w, x, ty, m.p, m.c, prev, regs, h);
    ValueSame(m.rv.op, regs, regs2, m.c.reg);
    var n2, regs3 := PrimRuns(g, w, op, l.rv, m.rv, l.p, l.c, prev, regs2, h);
    StepsAdd(g, w, Here(m.p, prev, regs, h), n1, n2);
    n, regs1 := n1 + n2, regs3;
  }

  lemma StoreRuns(g: Graph, w: World, x: Symbol, ty: Ty, m: ExpEnd, prev: BlockId, regs: map<nat, int>, h: Trace)
    returns (n: nat, regs1: map<nat, int>)
    requires m.p.b < m.c.block && Below(m.rv.op, m.c.reg)
    requires StoreCode(g, x, ty, m).Some?
    requires Norm(m.rv.ty, Value(m.rv.op, regs)) == Value(m.rv.op, regs)
    ensures
      var k := StoreCode(g, x, ty, m).value;
      var v := Norm(ty, Value(m.rv.op, regs));
      && Steps(g, w, Here(m.p, prev, regs, h), n) == Here(k.p, prev, regs1, h + [Stored(x, v)])
      && Value(k.rv.op, regs1) == v
    ensures Same(regs, regs1, m.c.reg)
  {
    var k := CastCode(g, m.rv, ty, m.p, m.c).value;
    var n1, regs2 := CastRuns(g, w, m.rv, ty, m.p, m.c, prev, regs, h);
    RunThen(g, w, k.p, Store(x, k.rv.op), prev, regs2, h);
    StepsAdd(g, w, Here(m.p, prev, regs, h), n1, 1);
    n, regs1 := n1 + 1, regs2;
  }

  /** A condition takes its branch; a missing one is always true. */
  lemma CondRuns(g: Graph, w: World, e: Option<Exp>, yes: BlockId, no: BlockId, a: Point, c: Ctr, prev: BlockId,
                 regs: map<nat, int>, h: Trace)
    returns (n: nat, prev1: BlockId, regs1: map<nat, int>)
    requires a.b < c.block
    requires CondCode(g, e, yes, no, a, c).Some?
    ensures
      var (v, h1) := EvalCond(w, e, h);
      Steps(g, w, Here(a, prev, regs, h), n) == Here(Point(if v then yes else no, 0), prev1, regs1, h1)
    ensures n >= 1
  {
    match e
    case None =>
      RunEnds(g, w, a, CondBr(Imm(1), yes, no), prev, regs, h);
      n, prev1, regs1 := 1, a.b, regs;
    case Some(test) =>
      n, regs1 := BranchRuns(g, w, test, yes, no, a, c, prev, regs, h);
      prev1 := BranchCode(g, test, yes, no, a, c).value.p.b;
  }
}
