/**
 The code of a statement does what the statement does.

 `Lands` says where a run of the graph is when the source run is over: past the statement's
 code after a normal end, at the start of the target block after a jump, stopped after a
 return.  A source run that is cut off after `fuel` rounds corresponds to at least that many
 steps, so the graph runs on exactly when the source does.
 */
module Statements {
  import opened Options
  import opened Cfg
  import opened Source
  import opened Layout
  import opened Expressions
  import opened Unwinding
  import opened ForScopes

  /** Where the machine has got to after `n` steps from `c`, when the source run is `r`. */
  ghost predicate Lands(g: Graph, w: World, c: Config, n: nat, r: Run, fuel: nat, env: Env, outer: seq<Scope>,
                        p: Point) {
    var d := Steps(g, w, c, n);
    match r
    case OutOfFuel(h) => d.At? && d.h == h && n >= fuel
    case Fin(h, live, out) =>
      match out
      case Normal => d.At? && d.b == p.b && d.i == p.i && d.h == h
      case Jumped(k, q) =>
        var ts := TargetsOf(env, k);
        && 1 <= q <= |ts|
        && ts[|ts| - q].level <= |outer| + 1
        && d.At? && d.b == ts[|ts| - q].b && d.i == 0
        && d.h == h + UnwindAll((outer + [live])[ts[|ts| - q].level..], None)
        && n >= 1
      case Returned(v, m, _) => d == Halted(v, h + UnwindAll(outer + [live], m))
      case Strayed => false
  }

  lemma LandsLater(g: Graph, w: World, c: Config, m: nat, n: nat, r: Run, fuel: nat, env: Env, outer: seq<Scope>,
                   p: Point)
    requires Lands(g, w, Steps(g, w, c, m), n, r, fuel, env, outer, p)
    ensures Lands(g, w, c, m + n, r, fuel, env, outer, p)
  {
    StepsAdd(g, w, c, m, n);
  }

  /** A round that takes at least one step pays for one unit of fuel. */
  lemma LandsAgain(g: Graph, w: World, c: Config, m: nat, n: nat, r: Run, fuel: nat, env: Env, outer: seq<Scope>,
                   p: Point)
    requires m > 0 && fuel > 0
    requires Lands(g, w, Steps(g, w, c, m), n, r, fuel - 1, env, outer, p)
    ensures Lands(g, w, c, m + n, r, fuel, env, outer, p)
  {
    StepsAdd(g, w, c, m, n);
  }

  /** A run that has ended normally is where its code ends. */
  lemma LandsHere(g: Graph, w: World, c: Config, n: nat, r: Run, fuel: nat, env: Env, outer: seq<Scope>, p: Point,
                  prev: BlockId, regs: map<nat, int>)
    requires r.Fin? && r.out.Normal? && Steps(g, w, c, n) == Here(p, prev, regs, r.h)
    ensures Lands(g, w, c, n, r, fuel, env, outer, p)
  {
  }

  lemma CutOff(g: Graph, w: World, c: Config, env: Env, outer: seq<Scope>, p: Point)
    requires c.At?
    ensures Lands(g, w, c, 0, OutOfFuel(c.h), 0, env, outer, p)
  {
  }

  /** A run that is cut off is where it has got to, whatever it is part of. */
  lemma StillRunning(g: Graph, w: World, c: Config, n: nat, r: Run, fuel: nat, env: Env, outer: seq<Scope>, p: Point,
                     env1: Env, outer1: seq<Scope>, p1: Point)
    requires r.OutOfFuel? && Lands(g, w, c, n, r, fuel, env, outer, p)
    ensures Lands(g, w, c, n, r, fuel, env1, outer1, p1)
  {
  }

  /** Only a normal end says where the code ends. */
  lemma LandsAnywhere(g: Graph, w: World, c: Config, n: nat, r: Run, fuel: nat, env: Env, outer: seq<Scope>, p: Point,
                      q: Point)
    requires Lands(g, w, c, n, r, fuel, env, outer, p)
    requires r.Fin? ==> !r.out.Normal?
    ensures Lands(g, w, c, n, r, fuel, env, outer, q)
  {
  }

  /** Leaving several scopes is leaving the innermost one, then the others. */
  lemma InnermostFirst(h: Trace, outer: seq<Scope>, inner: Scope, level: nat, m: Option<Symbol>)
    requires level <= |outer|
    ensures
      h + UnwindAll((outer + [inner])[level..], m)
        == h + Unwind(inner, m) + UnwindAll(outer[level..], if Declares(inner, m) then None else m)
  {
    var all := (outer + [inner])[level..];
    assert all == outer[level..] + [inner];
    assert all[..|all| - 1] == outer[level..];
  }

  /** The scope's end: what lands inside a scope lands outside it, once the scope is closed. */
  lemma LandsClosed(g: Graph, w: World, c: Config, n: nat, r: Run, fuel: nat, env: Env, outer: seq<Scope>, live: Scope,
                    p: Point, q: Point)
    requires Lands(g, w, c, n, r, fuel, env, outer + [live], p)
    requires EnvOk(env, |outer| + 1)
    requires r.Fin? ==> !r.out.Normal?
    ensures Lands(g, w, c, n, Close(r, live), fuel, env, outer, q)
  {
    if r.Fin? {
      match r.out
      case Jumped(k, j) =>
        var ts := TargetsOf(env, k);
        assert ts[|ts| - j] in ts;
        InnermostFirst(r.h, outer + [live], r.live, ts[|ts| - j].level, None);
        assert Close(r, live) == Fin(r.h + Unwind(r.live, None), live, r.out);
      case Returned(v, m, _) =>
        InnermostFirst(r.h, outer + [live], r.live, 0, m);
        assert (outer + [live] + [r.live])[0..] == outer + [live] + [r.live];
        assert (outer + [live])[0..] == outer + [live];
    }
  }

  // ---------------------------------------------------------------- plain statements

  /** A plain statement always ends normally. */
  lemma {:induction false} PlainRuns(g: Graph, w: World, p: Plain, scopes: seq<seq<Var>>, a: Point, c: Ctr,
                                     prev: BlockId, regs: map<nat, int>, h: Trace)
    returns (n: nat, prev1: BlockId, regs1: map<nat, int>)
    requires a.b < c.block && scopes != []
    requires PlainCode(g, p, scopes, a, c).Some?
    ensures
      var m := PlainCode(g, p, scopes, a, c).value;
      var (h1, live1) := ExecPlain(w, p, h, Strip(Top(scopes)));
      && Steps(g, w, Here(a, prev, regs, h), n) == Here(m.p, prev1, regs1, h1)
      && Strip(Top(m.scopes)) == live1
    decreases p, 1
  {
    match p
    case Do(e) => n, prev1, regs1 := ExpRuns(g, w, e, a, c, prev, regs, h);
    case CoalesceTo(_, _, _) => n, prev1, regs1 := CoalesceToRuns(g, w, p, scopes, a, c, prev, regs, h);
    case Declare(x, decl, dtor, init) =>
      var m := ExpCode(g, init, a, c).value;
      var h1 := Eval(w, init, h).1;
      var v := Var(x, decl, m.c.slot, dtor);
      n, prev1, regs1 := ExpRuns(g, w, init, a, c, prev, regs, h);
      ThenRun(g, w, Here(a, prev, regs, h), n, m.p, Construct(v, m.rv.op), prev1, regs1, h1);
      n := n + 1;
      assert Strip(Top(scopes) + [v]) == Strip(Top(scopes)) + [Local(x, decl, dtor)];
    case Group(ps) => n, prev1, regs1 := PlainsRun(g, w, ps, scopes, a, c, prev, regs, h);
  }

  lemma CoalesceToRuns(g: Graph, w: World, p: Plain, scopes: seq<seq<Var>>, a: Point, c: Ctr, prev: BlockId,
                       regs: map<nat, int>, h: Trace)
    returns (n: nat, prev1: BlockId, regs1: map<nat, int>)
    requires p.CoalesceTo?
    requires a.b < c.block && scopes != []
    requires CoalesceToCode(g, p, scopes, a, c).Some?
    ensures
      var m := CoalesceToCode(g, p, scopes, a, c).value;
      Steps(g, w, Here(a, prev, regs, h), n) == Here(m.p, prev1, regs1, ExecPlain(w, p, h, []).0)
  {
    hide Steps, BoolCode, ArmCode, ExpCode;
    var e := Read(p.x, p.ty);
    var t := BoolCode(g, e, a, c).value;
    var no, end := t.c.block, t.c.block + 1;
    var n1, prev2, regs2 := BoolRuns(g, w, e, a, c, prev, regs, h);
    ThenCondBr(g, w, Here(a, prev, regs, h), n1, t.p, t.rv.op, end, no, prev2, regs2, h);
    if Eval(w, e, h).0 != 0 {
      n, prev1, regs1 := n1 + 1, t.p.b, regs2;
    } else {
      var put := Assign(p.x, p.ty, None, p.rhs);
      var c1 := t.c.(block := t.c.block + 2);
      var n2, regs3 := ArmRuns(g, w, put, no, end, c1, t.p.b, regs2, h);
      StepsAdd(g, w, Here(a, prev, regs, h), n1 + 1, n2);
      n, prev1, regs1 := n1 + 1 + n2, ArmCode(g, put, no, end, c1).value.p.b, regs3;
    }
  }

  lemma {:induction false} PlainsRun(g: Graph, w: World, ps: seq<Plain>, scopes: seq<seq<Var>>, a: Point, c: Ctr,
                                     prev: BlockId, regs: map<nat, int>, h: Trace)
    returns (n: nat, prev1: BlockId, regs1: map<nat, int>)
    requires a.b < c.block && scopes != []
    requires PlainsCode(g, ps, scopes, a, c).Some?
    ensures
      var m := PlainsCode(g, ps, scopes, a, c).value;
      var (h1, live1) := ExecPlains(w, ps, h, Strip(Top(scopes)));
      && Steps(g, w, Here(a, prev, regs, h), n) == Here(m.p, prev1, regs1, h1)
      && Strip(Top(m.scopes)) == live1
    decreases ps, 0
  {
    if ps == [] {
      n, prev1, regs1 := 0, prev, regs;
    } else {
      var k := |ps| - 1;
      var m := PlainsCode(g, ps[..k], scopes, a, c).value;
      var h1 := ExecPlains(w, ps[..k], h, Strip(Top(scopes))).0;
      var n1, prev2, regs2 := PlainsRun(g, w, ps[..k], scopes, a, c, prev, regs, h);
      var n2, prev3, regs3 := PlainRuns(g, w, ps[k], m.scopes, m.p, m.c, prev2, regs2, h1);
      StepsAdd(g, w, Here(a, prev, regs, h), n1, n2);
      n, prev1, regs1 := n1 + n2, prev3, regs3;
    }
  }

  // ---------------------------------------------------------------- jumps and returns

  lemma JumpRuns(g: Graph, w: World, t: Target, scopes: seq<seq<Var>>, a: Point, c: Ctr, prev: BlockId,
                 regs: map<nat, int>, h: Trace)
    returns (n: nat)
    requires a.b < c.block && scopes != []
    requires JumpCode(g, t, scopes, a, c).Some?
    ensures t.level <= |scopes| && n >= 1
    ensures
      exists prev1 :: Steps(g, w, Here(a, prev, regs, h), n)
        == Here(Point(t.b, 0), prev1, regs, h + UnwindAll(StripAll(scopes)[t.level..], None))
  {
    var vars := Flat(scopes[t.level..]);
    n := DtorsRun(g, w, vars, None, a, prev, regs, h);
    AllUnwinds(scopes[t.level..]);
    assert StripAll(scopes[t.level..]) == StripAll(scopes)[t.level..];
    var p := DtorsCode(g, vars, None, a).value;
    ThenBr(g, w, Here(a, prev, regs, h), n, p, t.b, prev, regs, h + DtorTrace(vars, None));
    n := n + 1;
  }

  lemma TailRuns(g: Graph, w: World, v: Option<Operand>, keep: Option<nat>, scopes: seq<seq<Var>>, a: Point, c: Ctr,
                 prev: BlockId, regs: map<nat, int>, h: Trace)
    returns (n: nat)
    requires a.b < c.block && scopes != []
    requires ReturnTail(g, v, keep, scopes, a, c).Some?
    ensures
      Steps(g, w, Here(a, prev, regs, h), n)
        == Halted(if v.Some? then Some(Value(v.value, regs)) else None, h + DtorTrace(Flat(scopes), keep))
  {
    n := DtorsRun(g, w, Flat(scopes), keep, a, prev, regs, h);
    var p := DtorsCode(g, Flat(scopes), keep, a).value;
    RunEnds(g, w, p, Ret(v), prev, regs, h + DtorTrace(Flat(scopes), keep));
    StepsAdd(g, w, Here(a, prev, regs, h), n, 1);
    n := n + 1;
  }

  lemma ReturnRuns(g: Graph, w: World, v: RetVal, env: Env, scopes: seq<seq<Var>>, a: Point, c: Ctr, prev: BlockId,
                   regs: map<nat, int>, h: Trace)
    returns (n: nat)
    requires a.b < c.block && scopes != []
    requires ReturnCode(g, v, env, scopes, a, c).Some?
    requires ScopesOk(scopes, c.slot)
    ensures
      var (out, h1) := EvalReturn(w, v, env.result, h);
      && out.Returned?
      && Steps(g, w, Here(a, prev, regs, h), n) == Halted(out.v, h1 + UnwindAll(StripAll(scopes), out.moved))
  {
    hide ScopesOk, ExpCode, DtorsCode, UnwindAll, DtorTrace, Flat, Eval, Steps;
    match v
    case NoValue =>
      n := TailRuns(g, w, None, None, scopes, a, c, prev, regs, h);
      AllUnwinds(scopes);
    case Scalar(e) =>
      var m := ExpCode(g, e, a, c).value;
      var h1 := Eval(w, e, h).1;
      var n1, prev2, regs2 := ExpRuns(g, w, e, a, c, prev, regs, h);
      var k := CastCode(g, m.rv, env.result.ty, m.p, m.c).value;
      var n2, regs3 := CastRuns(g, w, m.rv, env.result.ty, m.p, m.c, prev2, regs2, h1);
      var n3 := TailRuns(g, w, Some(k.rv.op), None, scopes, k.p, k.c, prev2, regs3, h1);
      AllUnwinds(scopes);
      StepsAdd(g, w, Here(a, prev, regs, h), n1, n2);
      StepsAdd(g, w, Here(a, prev, regs, h), n1 + n2, n3);
      n := n1 + n2 + n3;
    case Object(x, _, _) =>
      var m := LoadCode(g, x, TInt, a, c).value;
      var n1, regs2 := LoadRuns(g, w, x, TInt, a, c, prev, regs, h);
      var n2 := TailRuns(g, w, Some(m.rv.op), SlotOf(scopes, x), scopes, m.p, m.c, prev, regs2, h);
      ReturnUnwinds(scopes, c.slot, x);
      StepsAdd(g, w, Here(a, prev, regs, h), n1, n2);
      n := n1 + n2;
  }

  // ---------------------------------------------------------------- statements

  lemma {:induction false} StmtRuns(g: Graph, w: World, s: Stmt, env: Env, scopes: seq<seq<Var>>, a: Point, c: Ctr,
                                    prev: BlockId, regs: map<nat, int>, h: Trace, fuel: nat)
    returns (n: nat)
    requires a.b < c.block && scopes != []
    requires StmtCode(g, s, env, scopes, a, c).Some?
    requires EnvOk(env, |scopes| - 1) && ScopesOk(scopes, c.slot)
    ensures
      var m := StmtCode(g, s, env, scopes, a, c).value;
      var r := Exec(w, s, RulesOf(env), h, Strip(Top(scopes)), fuel);
      && Lands(g, w, Here(a, prev, regs, h), n, r, fuel, env, StripAll(Pop(scopes)), m.p)
      && (r.Fin? && r.out.Normal? ==> r.live == Strip(Top(m.scopes)))
      && ScopesOk(m.scopes, m.c.slot)
    decreases fuel, s, 4
  {
    hide ScopesOk, EnvOk, ExecPlain, PlainCode, LoopCode, WhileCode, SwitchCode, ForCode, IfCode, DtorsCode, Steps;
    hide Eval, ExecList, ReturnTail, Unwind;
    var live := Strip(Top(scopes));
    assert StripAll(Pop(scopes)) + [live] == StripAll(scopes);
    var m := StmtCode(g, s, env, scopes, a, c).value;
    match s
    case Basic(p) =>
      var prev1, regs1;
      n, prev1, regs1 := PlainRuns(g, w, p, scopes, a, c, prev, regs, h);
      PlainScopesOk(g, p, scopes, a, c);
    case Return(v) =>
      n := ReturnRuns(g, w, v, env, scopes, a, c, prev, regs, h);
      MoreSlots(scopes, c.slot, m.c.slot);
    case Branch(k, level) =>
      var q := Resolve(DepthOf(RulesOf(env).depth, k), level).value;
      var ts := TargetsOf(env, k);
      n := JumpRuns(g, w, ts[|ts| - q], scopes, a, c, prev, regs, h);
      assert ts[|ts| - q] in ts;
    case _ =>
      n := BlockRuns(g, w, s, env, scopes, a, c, prev, regs, h, fuel);
      MoreSlots(scopes, c.slot, m.c.slot);
  }

  /** The statements with bodies: they leave the current scope as it was. */
  lemma {:induction false} BlockRuns(g: Graph, w: World, s: Stmt, env: Env, scopes: seq<seq<Var>>, a: Point, c: Ctr,
                                     prev: BlockId, regs: map<nat, int>, h: Trace, fuel: nat)
    returns (n: nat)
    requires s.Loop? || s.While? || s.Switch? || s.For? || s.If?
    requires a.b < c.block && scopes != []
    requires StmtCode(g, s, env, scopes, a, c).Some?
    requires EnvOk(env, |scopes| - 1) && ScopesOk(scopes, c.slot)
    ensures
      var m := StmtCode(g, s, env, scopes, a, c).value;
      var r := Exec(w, s, RulesOf(env), h, Strip(Top(scopes)), fuel);
      && Lands(g, w, Here(a, prev, regs, h), n, r, fuel, env, StripAll(Pop(scopes)), m.p)
      && (r.Fin? && r.out.Normal? ==> r.live == Strip(Top(scopes)))
    decreases fuel, s, 3
  {
    match s
    case Loop(_) => n := LoopRuns(g, w, s, env, scopes, a, c, prev, regs, h, fuel);
    case While(_, _, _, _) => n := WhileRuns(g, w, s, env, scopes, a, c, prev, regs, h, fuel);
    case Switch(_, _) => n := SwitchRuns(g, w, s, env, scopes, a, c, prev, regs, h, fuel);
    case For(_, _, _, _) => n := ForRuns(g, w, s, env, scopes, a, c, prev, regs, h, fuel);
    case If(_, _, _) => n := IfRuns(g, w, s, env, scopes, a, c, prev, regs, h, fuel);
  }

  lemma {:induction false} ListRuns(g: Graph, w: World, ss: seq<Stmt>, env: Env, scopes: seq<seq<Var>>, a: Point,
                                    c: Ctr, prev: BlockId, regs: map<nat, int>, h: Trace, fuel: nat)
    returns (n: nat)
    requires a.b < c.block && scopes != []
    requires ListCode(g, ss, env, scopes, a, c).Some?
    requires EnvOk(env, |scopes| - 1) && ScopesOk(scopes, c.slot)
    ensures
      var m := ListCode(g, ss, env, scopes, a, c).value;
      var r := ExecList(w, ss, RulesOf(env), h, Strip(Top(scopes)), fuel);
      && Lands(g, w, Here(a, prev, regs, h), n, r, fuel, env, StripAll(Pop(scopes)), m.p)
      && (r.Fin? && r.out.Normal? ==> r.live == Strip(Top(m.scopes)))
      && ScopesOk(m.scopes, m.c.slot)
    decreases fuel, ss, 0
  {
    if ss == [] {
      n := 0;
    } else {
      var k := |ss| - 1;
      var n1 := ListRuns(g, w, ss[..k], env, scopes, a, c, prev, regs, h, fuel);
      n := LastStmtRuns(g, w, ss, env, scopes, a, c, Here(a, prev, regs, h), n1, h, fuel);
    }
  }

  /** The last statement, where the ones before it end normally. */
  lemma {:induction false} LastStmtRuns(g: Graph, w: World, ss: seq<Stmt>, env: Env, scopes: seq<seq<Var>>, a: Point,
                                        c: Ctr, start: Config, n1: nat, h: Trace, fuel: nat)
    returns (n: nat)
    requires a.b < c.block && scopes != [] && ss != []
    requires ListCode(g, ss, env, scopes, a, c).Some?
    requires EnvOk(env, |scopes| - 1)
    requires
      var k := |ss| - 1;
      var m := ListCode(g, ss[..k], env, scopes, a, c).value;
      var first := ExecList(w, ss[..k], RulesOf(env), h, Strip(Top(scopes)), fuel);
      && Lands(g, w, start, n1, first, fuel, env, StripAll(Pop(scopes)), m.p)
      && (first.Fin? && first.out.Normal? ==> first.live == Strip(Top(m.scopes)))
      && ScopesOk(m.scopes, m.c.slot)
    ensures
      var m := ListCode(g, ss, env, scopes, a, c).value;
      var r := ExecList(w, ss, RulesOf(env), h, Strip(Top(scopes)), fuel);
      && Lands(g, w, start, n, r, fuel, env, StripAll(Pop(scopes)), m.p)
      && (r.Fin? && r.out.Normal? ==> r.live == Strip(Top(m.scopes)))
      && ScopesOk(m.scopes, m.c.slot)
    decreases fuel, ss[|ss| - 1], 5
  {
    hide ScopesOk, EnvOk, StmtCode, Exec;
    var k := |ss| - 1;
    var last := ss[k];
    var m := ListCode(g, ss[..k], env, scopes, a, c).value;
    var end := StmtCode(g, last, env, m.scopes, m.p, m.c).value.p;
    var first := ExecList(w, ss[..k], RulesOf(env), h, Strip(Top(scopes)), fuel);
    n := n1;
    if first.Fin? && first.out.Normal? {
      var d := Steps(g, w, start, n1);
      var n2 := StmtRuns(g, w, last, env, m.scopes, m.p, m.c, d.prev, d.regs, d.h, fuel);
      LandsLater(g, w, start, n1, n2, Exec(w, last, RulesOf(env), d.h, first.live, fuel), fuel, env,
                 StripAll(Pop(scopes)), end);
      n := n1 + n2;
    } else {
      StmtScopes(g, last, env, m.scopes, m.p, m.c);
      LandsAnywhere(g, w, start, n1, first, fuel, env, StripAll(Pop(scopes)), m.p, end);
    }
  }

  lemma StmtScopes(g: Graph, s: Stmt, env: Env, scopes: seq<seq<Var>>, a: Point, c: Ctr)
    requires a.b < c.block && scopes != []
    requires StmtCode(g, s, env, scopes, a, c).Some?
    requires ScopesOk(scopes, c.slot)
    ensures ScopesOk(StmtCode(g, s, env, scopes, a, c).value.scopes, StmtCode(g, s, env, scopes, a, c).value.c.slot)
  {
    if s.Basic? {
      PlainScopesOk(g, s.plain, scopes, a, c);
    } else {
      MoreSlots(scopes, c.slot, StmtCode(g, s, env, scopes, a, c).value.c.slot);
    }
  }

  /** A body in a scope of its own. */
  lemma {:induction false} BodyRuns(g: Graph, w: World, ss: seq<Stmt>, env: Env, scopes: seq<seq<Var>>, a: Point,
                                    c: Ctr, prev: BlockId, regs: map<nat, int>, h: Trace, fuel: nat)
    returns (n: nat)
    requires a.b < c.block && scopes != []
    requires BodyCode(g, ss, env, scopes, a, c).Some?
    requires EnvOk(env, |scopes|) && ScopesOk(scopes, c.slot)
    ensures
      var m := BodyCode(g, ss, env, scopes, a, c).value;
      var live := Strip(Top(scopes));
      var r := Close(ExecList(w, ss, RulesOf(env), h, [], fuel), live);
      && Lands(g, w, Here(a, prev, regs, h), n, r, fuel, env, StripAll(Pop(scopes)), m.p)
      && (r.Fin? ==> r.live == live)
    decreases fuel, ss, 1
  {
    var inner := scopes + [[]];
    assert Pop(inner) == scopes && Strip(Top(inner)) == [];
    OpenScopeOk(scopes, c.slot);
    var outer, live := StripAll(Pop(scopes)), Strip(Top(scopes));
    assert StripAll(scopes) == outer + [live];
    var l := ListCode(g, ss, env, inner, a, c).value;
    var r := ExecList(w, ss, RulesOf(env), h, [], fuel);
    n := ListRuns(g, w, ss, env, inner, a, c, prev, regs, h, fuel);
    var p := DtorsCode(g, Top(l.scopes), None, l.p).value;
    if r.Fin? && r.out.Normal? {
      var d := Steps(g, w, Here(a, prev, regs, h), n);
      var n2 := DtorsRun(g, w, Top(l.scopes), None, l.p, d.prev, d.regs, d.h);
      PlainUnwind(Top(l.scopes));
      StepsAdd(g, w, Here(a, prev, regs, h), n, n2);
      n := n + n2;
    } else {
      LandsClosed(g, w, Here(a, prev, regs, h), n, r, fuel, env, outer, live, l.p, p);
    }
  }

  /** A body followed by a branch: every way it ends takes at least one step. */
  lemma {:induction false} BodyToRuns(g: Graph, w: World, ss: seq<Stmt>, env: Env, scopes: seq<seq<Var>>,
                                      start: BlockId, to: BlockId, c: Ctr, prev: BlockId, regs: map<nat, int>, h: Trace,
                                      fuel: nat)
    returns (n: nat)
    requires start < c.block && scopes != []
    requires BodyTo(g, ss, env, scopes, start, to, c).Some?
    requires EnvOk(env, |scopes|) && ScopesOk(scopes, c.slot)
    ensures
      var live := Strip(Top(scopes));
      var r := Close(ExecList(w, ss, RulesOf(env), h, [], fuel), live);
      && Lands(g, w, Here(Point(start, 0), prev, regs, h), n, r, fuel, env, StripAll(Pop(scopes)), Point(to, 0))
      && (r.Fin? ==> r.live == live)
      && (r.Fin? && r.out.Normal? ==> n >= 1)
    decreases fuel, ss, 2
  {
    var a := Point(start, 0);
    var m := BodyCode(g, ss, env, scopes, a, c).value;
    var r := Close(ExecList(w, ss, RulesOf(env), h, [], fuel), Strip(Top(scopes)));
    n := BodyRuns(g, w, ss, env, scopes, a, c, prev, regs, h, fuel);
    if r.Fin? && r.out.Normal? {
      var d := Steps(g, w, Here(a, prev, regs, h), n);
      ThenBr(g, w, Here(a, prev, regs, h), n, m.p, to, d.prev, d.regs, d.h);
      n := n + 1;
    }
  }

  lemma {:induction false} IfRuns(g: Graph, w: World, s: Stmt, env: Env, scopes: seq<seq<Var>>, a: Point, c: Ctr,
                                  prev: BlockId, regs: map<nat, int>, h: Trace, fuel: nat)
    returns (n: nat)
    requires s.If?
    requires a.b < c.block && scopes != []
    requires IfCode(g, s, env, scopes, a, c).Some?
    requires EnvOk(env, |scopes| - 1) && ScopesOk(scopes, c.slot)
    ensures
      var m := IfCode(g, s, env, scopes, a, c).value;
      var r := Exec(w, s, RulesOf(env), h, Strip(Top(scopes)), fuel);
      && Lands(g, w, Here(a, prev, regs, h), n, r, fuel, env, StripAll(Pop(scopes)), m.p)
      && (r.Fin? && r.out.Normal? ==> r.live == Strip(Top(scopes)))
    decreases fuel, s, 2
  {
    hide ScopesOk, BodyTo, ExecList, Close, BranchCode, Steps;
    var thn, els := c.block, c.block + 1;
    var end := if s.els.Else? then c.block + 2 else els;
    var c1 := c.(block := end + 1);
    var t := BranchCode(g, s.test, thn, els, a, c1).value;
    var d1 := BodyTo(g, s.thn, env, scopes, thn, end, t.c).value;
    var outer := StripAll(Pop(scopes));
    var (v, h1) := Eval(w, s.test, h);
    var regs1;
    n, regs1 := BranchRuns(g, w, s.test, thn, els, a, c1, prev, regs, h);
    if v != 0 {
      MoreSlots(scopes, c.slot, t.c.slot);
      var n2 := BodyToRuns(g, w, s.thn, env, scopes, thn, end, t.c, t.p.b, regs1, h1, fuel);
      var r := Close(ExecList(w, s.thn, RulesOf(env), h1, [], fuel), Strip(Top(scopes)));
      LandsLater(g, w, Here(a, prev, regs, h), n, n2, r, fuel, env, outer, Point(end, 0));
      n := n + n2;
    } else if s.els.Else? {
      MoreSlots(scopes, c.slot, d1.slot);
      var n2 := BodyToRuns(g, w, s.els.stmts, env, scopes, els, end, d1, t.p.b, regs1, h1, fuel);
      var r := Close(ExecList(w, s.els.stmts, RulesOf(env), h1, [], fuel), Strip(Top(scopes)));
      LandsLater(g, w, Here(a, prev, regs, h), n, n2, r, fuel, env, outer, Point(end, 0));
      n := n + n2;
    }
  }

  // ---------------------------------------------------------------- loops

  /** `inner` are the targets inside one more loop. */
  ghost predicate OneLoopIn(env: Env, inner: Env) {
    && |inner.brk| == |env.brk| + 1 && inner.brk[..|env.brk|] == env.brk
    && |inner.cont| == |env.cont| + 1 && inner.cont[..|env.cont|] == env.cont
    && (inner.redo == env.redo || (|inner.redo| == |env.redo| + 1 && inner.redo[..|env.redo|] == env.redo))
  }

  lemma LoopsAreOneIn(env: Env, level: nat, c: Ctr)
    ensures OneLoopIn(env, LoopEnv(env, level, c)) && OneLoopIn(env, WhileEnv(env, level, c))
        && OneLoopIn(env, ForEnv(env, level, c))
  {
  }

  /** A jump that passes out of a construct names the same target, counted from outside. */
  lemma LandsOutside(g: Graph, w: World, c: Config, n: nat, r: Run, fuel: nat, env: Env, inner: Env, outer: seq<Scope>,
                     p: Point, q: Point)
    requires Lands(g, w, c, n, r, fuel, inner, outer, p)
    requires OneLoopIn(env, inner)
    requires r.Fin? && AfterBody(r.out, |inner.redo| > |env.redo|).Pass?
    ensures Lands(g, w, c, n, Fin(r.h, r.live, AfterBody(r.out, |inner.redo| > |env.redo|).out), fuel, env, outer, q)
  {
    match r.out
    case Jumped(k, j) =>
      var ts, us := TargetsOf(inner, k), TargetsOf(env, k);
      if |ts| > |us| {
        assert us[|us| - (j - 1)] == ts[|ts| - j];
      }
    case Returned(_, _, _) =>
  }

  lemma {:induction false} LoopRuns(g: Graph, w: World, s: Stmt, env: Env, scopes: seq<seq<Var>>, a: Point, c: Ctr,
                                    prev: BlockId, regs: map<nat, int>, h: Trace, fuel: nat)
    returns (n: nat)
    requires s.Loop?
    requires a.b < c.block && scopes != []
    requires LoopCode(g, s, env, scopes, a, c).Some?
    requires EnvOk(env, |scopes| - 1) && ScopesOk(scopes, c.slot)
    ensures
      var m := LoopCode(g, s, env, scopes, a, c).value;
      var r := Exec(w, s, RulesOf(env), h, Strip(Top(scopes)), fuel);
      && Lands(g, w, Here(a, prev, regs, h), n, r, fuel, env, StripAll(Pop(scopes)), m.p)
      && (r.Fin? && r.out.Normal? ==> r.live == Strip(Top(scopes)))
    decreases fuel, s, 2
  {
    ThenBr(g, w, Here(a, prev, regs, h), 0, a, c.block, prev, regs, h);
    var n1 := LoopRounds(g, w, s, env, scopes, c, a.b, regs, h, fuel);
    var r := Exec(w, s, RulesOf(env), h, Strip(Top(scopes)), fuel);
    LandsLater(g, w, Here(a, prev, regs, h), 1, n1, r, fuel, env, StripAll(Pop(scopes)), Point(c.block + 1, 0));
    n := 1 + n1;
  }

  lemma {:induction false} LoopRounds(g: Graph, w: World, s: Stmt, env: Env, scopes: seq<seq<Var>>, c: Ctr,
                                      prev: BlockId, regs: map<nat, int>, h: Trace, fuel: nat)
    returns (n: nat)
    requires s.Loop? && scopes != []
    requires BodyTo(g, s.body, LoopEnv(env, |scopes|, c), scopes, c.block, c.block, c.(block := c.block + 2)).Some?
    requires EnvOk(env, |scopes| - 1) && ScopesOk(scopes, c.slot)
    ensures
      var r := ExecLoop(w, s, RulesOf(env), h, Strip(Top(scopes)), fuel);
      && Lands(g, w, Here(Point(c.block, 0), prev, regs, h), n, r, fuel, env, StripAll(Pop(scopes)),
               Point(c.block + 1, 0))
      && (r.Fin? && r.out.Normal? ==> r.live == Strip(Top(scopes)))
    decreases fuel, s, 0
  {
    n := 0;
    if fuel > 0 {
      var n1 := BodyToRuns(g, w, s.body, LoopEnv(env, |scopes|, c), scopes, c.block, c.block, c.(block := c.block + 2),
                           prev, regs, h, fuel);
      n := AfterLoopBody(g, w, s, env, scopes, c, n1, prev, regs, h, fuel);
    }
  }

  lemma {:induction false} AfterLoopBody(g: Graph, w: World, s: Stmt, env: Env, scopes: seq<seq<Var>>, c: Ctr, n1: nat,
                                         prev: BlockId, regs: map<nat, int>, h: Trace, fuel: nat)
    returns (n: nat)
    requires s.Loop? && scopes != [] && fuel > 0
    requires BodyTo(g, s.body, LoopEnv(env, |scopes|, c), scopes, c.block, c.block, c.(block := c.block + 2)).Some?
    requires EnvOk(env, |scopes| - 1) && ScopesOk(scopes, c.slot)
    requires
      var inner := LoopEnv(env, |scopes|, c);
      var body := Close(ExecList(w, s.body, RulesOf(inner), h, [], fuel), Strip(Top(scopes)));
      && Lands(g, w, Here(Point(c.block, 0), prev, regs, h), n1, body, fuel, inner, StripAll(Pop(scopes)),
               Point(c.block, 0))
      && (body.Fin? ==> body.live == Strip(Top(scopes)))
      && (body.Fin? && body.out.Normal? ==> n1 >= 1)
    ensures
      var r := ExecLoop(w, s, RulesOf(env), h, Strip(Top(scopes)), fuel);
      && Lands(g, w, Here(Point(c.block, 0), prev, regs, h), n, r, fuel, env, StripAll(Pop(scopes)),
               Point(c.block + 1, 0))
      && (r.Fin? && r.out.Normal? ==> r.live == Strip(Top(scopes)))
    decreases fuel - 1, s, 1
  {
    hide Step, ScopesOk, EnvOk, BodyTo, ExecList, Close, Steps, LoopEnv;
    var live, outer := Strip(Top(scopes)), StripAll(Pop(scopes));
    var start := Here(Point(c.block, 0), prev, regs, h);
    var run := Close(ExecList(w, s.body, RulesOf(LoopEnv(env, |scopes|, c)), h, [], fuel), live);
    n := n1;
    RulesInLoop(env, |scopes|, c);
    var next := AfterLoop(g, w, start, n1, run, fuel, env, scopes, c);
    if run.Fin? && next.Again? {
      var d := Steps(g, w, start, n1);
      var n2 := LoopRounds(g, w, s, env, scopes, c, d.prev, d.regs, run.h, fuel - 1);
      LandsAgain(g, w, start, n1, n2, ExecLoop(w, s, RulesOf(env), run.h, live, fuel - 1), fuel, env, outer,
                 Point(c.block + 1, 0));
      n := n1 + n2;
    }
  }

  lemma RulesInLoop(env: Env, level: nat, c: Ctr)
    ensures RulesOf(LoopEnv(env, level, c)) == RulesOf(env).(depth := InLoop(RulesOf(env).depth))
  {
  }

  /** Where a `loop` is after its body: at the body again, or out of the loop. */
  lemma AfterLoop(g: Graph, w: World, start: Config, n: nat, run: Run, fuel: nat, env: Env, scopes: seq<seq<Var>>,
                  c: Ctr)
    returns (next: Next)
    requires scopes != [] && EnvOk(env, |scopes| - 1)
    requires Lands(g, w, start, n, run, fuel, LoopEnv(env, |scopes|, c), StripAll(Pop(scopes)), Point(c.block, 0))
    requires run.Fin? && run.out.Normal? ==> n >= 1
    ensures run.Fin? ==> next == AfterBody(run.out, false)
    ensures
      var d := Steps(g, w, start, n);
      var outer, end := StripAll(Pop(scopes)), Point(c.block + 1, 0);
      if run.OutOfFuel? then Lands(g, w, start, n, run, fuel, env, outer, end)
      else
        match next
        case Again => n >= 1 && d.At? && d == Here(Point(c.block, 0), d.prev, d.regs, run.h)
        case Retry => false
        case Stop => Lands(g, w, start, n, Fin(run.h, run.live, Normal), fuel, env, outer, end)
        case Pass(out) => Lands(g, w, start, n, Fin(run.h, run.live, out), fuel, env, outer, end)
  {
    next := if run.Fin? then AfterBody(run.out, false) else Stop;
    if run.Fin? {
      var inner, outer := LoopEnv(env, |scopes|, c), StripAll(Pop(scopes));
      if run.out.Jumped? && run.out.outward == 1 && !run.out.kind.Redo? {
        BackEdge(g, w, start, n, run, fuel, inner, outer, Point(c.block, 0), run.out.kind);
      }
      if next.Pass? {
        LoopsAreOneIn(env, |scopes|, c);
        LandsOutside(g, w, start, n, run, fuel, env, inner, outer, Point(c.block, 0), Point(c.block + 1, 0));
      }
    }
  }

  /** A jump to a construct's own target leaves no scope further out. */
  lemma BackEdge(g: Graph, w: World, c: Config, n: nat, r: Run, fuel: nat, env: Env, outer: seq<Scope>, p: Point,
                 k: Jump)
    requires Lands(g, w, c, n, r, fuel, env, outer, p)
    requires r.Fin? && r.out == Jumped(k, 1)
    requires var ts := TargetsOf(env, k); ts != [] && ts[|ts| - 1].level == |outer| + 1
    ensures
      var d, ts := Steps(g, w, c, n), TargetsOf(env, k);
      d.At? && d == Here(Point(ts[|ts| - 1].b, 0), d.prev, d.regs, r.h) && n >= 1
  {
    assert (outer + [r.live])[|outer| + 1..] == [];
    assert r.h + [] == r.h;
  }

  lemma {:induction false} WhileRuns(g: Graph, w: World, s: Stmt, env: Env, scopes: seq<seq<Var>>, a: Point, c: Ctr,
                                     prev: BlockId, regs: map<nat, int>, h: Trace, fuel: nat)
    returns (n: nat)
    requires s.While?
    requires a.b < c.block && scopes != []
    requires WhileCode(g, s, env, scopes, a, c).Some?
    requires EnvOk(env, |scopes| - 1) && ScopesOk(scopes, c.slot)
    ensures
      var m := WhileCode(g, s, env, scopes, a, c).value;
      var r := Exec(w, s, RulesOf(env), h, Strip(Top(scopes)), fuel);
      && Lands(g, w, Here(a, prev, regs, h), n, r, fuel, env, StripAll(Pop(scopes)), m.p)
      && (r.Fin? && r.out.Normal? ==> r.live == Strip(Top(scopes)))
    decreases fuel, s, 2
  {
    ThenBr(g, w, Here(a, prev, regs, h), 0, a, if s.doWhile then c.block + 1 else c.block, prev, regs, h);
    var n1 := WhileRounds(g, w, s, env, scopes, c, s.doWhile, a.b, regs, h, fuel);
    var r := Exec(w, s, RulesOf(env), h, Strip(Top(scopes)), fuel);
    LandsLater(g, w, Here(a, prev, regs, h), 1, n1, r, fuel, env, StripAll(Pop(scopes)), Point(c.block + 2, 0));
    n := 1 + n1;
  }

  /** The condition and the body of a `while` as laid out from counters `c` on. */
  predicate WhileAt(g: Graph, s: Stmt, env: Env, scopes: seq<seq<Var>>, c: Ctr)
    requires s.While? && scopes != []
  {
    var cond, body, end := c.block, c.block + 1, c.block + 2;
    var yes, no := if s.until then end else body, if s.until then body else end;
    var t := CondCode(g, s.cond, yes, no, Point(cond, 0), c.(block := c.block + 3));
    t.Some? && BodyTo(g, s.body, WhileEnv(env, |scopes|, c), scopes, body, cond, t.value.c).Some?
  }

  lemma {:induction false} WhileRounds(g: Graph, w: World, s: Stmt, env: Env, scopes: seq<seq<Var>>, c: Ctr,
                                       atBody: bool, prev: BlockId, regs: map<nat, int>, h: Trace, fuel: nat)
    returns (n: nat)
    requires s.While? && scopes != []
    requires WhileAt(g, s, env, scopes, c)
    requires EnvOk(env, |scopes| - 1) && ScopesOk(scopes, c.slot)
    ensures
      var r := ExecWhile(w, s, RulesOf(env), h, Strip(Top(scopes)), fuel, atBody);
      var start := Here(Point(if atBody then c.block + 1 else c.block, 0), prev, regs, h);
      && Lands(g, w, start, n, r, fuel, env, StripAll(Pop(scopes)), Point(c.block + 2, 0))
      && (r.Fin? && r.out.Normal? ==> r.live == Strip(Top(scopes)))
    decreases fuel, s, 1
  {
    hide Ends, ForRound, Flat, BodyTo, Step, Norm, Execute, LoopCode, BoolArmCode, ScopesOk, EnvOk, Lands, Steps;
    hide ExecList, Close;
    n := 0;
    if fuel == 0 {
      CutOff(g, w, Here(Point(if atBody then c.block + 1 else c.block, 0), prev, regs, h), env,
             StripAll(Pop(scopes)), Point(c.block + 2, 0));
    } else {
      var cond, body, end := c.block, c.block + 1, c.block + 2;
      var start := Here(Point(if atBody then body else cond, 0), prev, regs, h);
      var live, outer := Strip(Top(scopes)), StripAll(Pop(scopes));
      if atBody {
        n := WhileBody(g, w, s, env, scopes, c, prev, regs, h, fuel);
      } else {
        var yes, no := if s.until then end else body, if s.until then body else end;
        var prev1, regs1;
        n, prev1, regs1 := CondRuns(g, w, s.cond, yes, no, Point(cond, 0), c.(block := c.block + 3), prev, regs, h);
        var (v, h1) := EvalCond(w, s.cond, h);
        if v != s.until {
          var n1 := WhileBody(g, w, s, env, scopes, c, prev1, regs1, h1, fuel);
          var r := ExecWhile(w, s, RulesOf(env), h1, live, fuel, true);
          LandsLater(g, w, start, n, n1, r, fuel, env, outer, Point(end, 0));
          n := n + n1;
        } else {
          LandsHere(g, w, start, n, Fin(h1, live, Normal), fuel, env, outer, Point(end, 0), prev1, regs1);
        }
      }
    }
  }

  lemma {:induction false} WhileBody(g: Graph, w: World, s: Stmt, env: Env, scopes: seq<seq<Var>>, c: Ctr,
                                     prev: BlockId, regs: map<nat, int>, h: Trace, fuel: nat)
    returns (n: nat)
    requires s.While? && scopes != [] && fuel > 0
    requires WhileAt(g, s, env, scopes, c)
    requires EnvOk(env, |scopes| - 1) && ScopesOk(scopes, c.slot)
    ensures
      var r := ExecWhile(w, s, RulesOf(env), h, Strip(Top(scopes)), fuel, true);
      && Lands(g, w, Here(Point(c.block + 1, 0), prev, regs, h), n, r, fuel, env, StripAll(Pop(scopes)),
               Point(c.block + 2, 0))
      && (r.Fin? && r.out.Normal? ==> r.live == Strip(Top(scopes)))
    decreases fuel, s, 0
  {
    var cond, body, end := c.block, c.block + 1, c.block + 2;
    var yes, no := if s.until then end else body, if s.until then body else end;
    var t := CondCode(g, s.cond, yes, no, Point(cond, 0), c.(block := c.block + 3)).value;
    MoreSlots(scopes, c.slot, t.c.slot);
    var n1 := BodyToRuns(g, w, s.body, WhileEnv(env, |scopes|, c), scopes, body, cond, t.c, prev, regs, h, fuel);
    n := AfterWhileBody(g, w, s, env, scopes, c, n1, prev, regs, h, fuel);
  }

  lemma {:induction false} AfterWhileBody(g: Graph, w: World, s: Stmt, env: Env, scopes: seq<seq<Var>>, c: Ctr, n1: nat,
                                          prev: BlockId, regs: map<nat, int>, h: Trace, fuel: nat)
    returns (n: nat)
    requires s.While? && scopes != [] && fuel > 0
    requires WhileAt(g, s, env, scopes, c)
    requires EnvOk(env, |scopes| - 1) && ScopesOk(scopes, c.slot)
    requires
      var inner := WhileEnv(env, |scopes|, c);
      var run := Close(ExecList(w, s.body, RulesOf(inner), h, [], fuel), Strip(Top(scopes)));
      && Lands(g, w, Here(Point(c.block + 1, 0), prev, regs, h), n1, run, fuel, inner, StripAll(Pop(scopes)),
               Point(c.block, 0))
      && (run.Fin? ==> run.live == Strip(Top(scopes)))
      && (run.Fin? && run.out.Normal? ==> n1 >= 1)
    ensures
      var r := ExecWhile(w, s, RulesOf(env), h, Strip(Top(scopes)), fuel, true);
      && Lands(g, w, Here(Point(c.block + 1, 0), prev, regs, h), n, r, fuel, env, StripAll(Pop(scopes)),
               Point(c.block + 2, 0))
      && (r.Fin? && r.out.Normal? ==> r.live == Strip(Top(scopes)))
    decreases fuel - 1, s, 2
  {
    hide ScopesOk, EnvOk, WhileAt, ExecList, Close, Steps;
    var inner := WhileEnv(env, |scopes|, c);
    var live, outer := Strip(Top(scopes)), StripAll(Pop(scopes));
    var start := Here(Point(c.block + 1, 0), prev, regs, h);
    var run := Close(ExecList(w, s.body, RulesOf(inner), h, [], fuel), live);
    n := n1;
    var next := AfterWhile(g, w, start, n1, run, fuel, env, scopes, c);
    if run.Fin? && (next.Again? || next.Retry?) {
      var d := Steps(g, w, start, n1);
      var n2 := WhileRounds(g, w, s, env, scopes, c, next.Retry?, d.prev, d.regs, run.h, fuel - 1);
      LandsAgain(g, w, start, n1, n2, ExecWhile(w, s, RulesOf(env), run.h, live, fuel - 1, next.Retry?), fuel, env,
                 outer, Point(c.block + 2, 0));
      n := n1 + n2;
    }
  }

  /** Where a `while` is after its body: at the condition, at the body, or out of the loop. */
  lemma AfterWhile(g: Graph, w: World, start: Config, n: nat, run: Run, fuel: nat, env: Env, scopes: seq<seq<Var>>,
                   c: Ctr)
    returns (next: Next)
    requires scopes != [] && EnvOk(env, |scopes| - 1)
    requires Lands(g, w, start, n, run, fuel, WhileEnv(env, |scopes|, c), StripAll(Pop(scopes)), Point(c.block, 0))
    requires run.Fin? && run.out.Normal? ==> n >= 1
    ensures run.Fin? ==> next == AfterBody(run.out, true)
    ensures
      var d := Steps(g, w, start, n);
      var outer := StripAll(Pop(scopes));
      run.Fin? ==>
        match next
        case Again => n >= 1 && d.At? && d == Here(Point(c.block, 0), d.prev, d.regs, run.h)
        case Retry => n >= 1 && d.At? && d == Here(Point(c.block + 1, 0), d.prev, d.regs, run.h)
        case Stop => Lands(g, w, start, n, Fin(run.h, run.live, Normal), fuel, env, outer, Point(c.block + 2, 0))
        case Pass(out) => Lands(g, w, start, n, Fin(run.h, run.live, out), fuel, env, outer, Point(c.block + 2, 0))
  {
    next := if run.Fin? then AfterBody(run.out, true) else Stop;
    if run.Fin? {
      var inner, outer := WhileEnv(env, |scopes|, c), StripAll(Pop(scopes));
      if run.out.Jumped? && run.out.outward == 1 {
        BackEdge(g, w, start, n, run, fuel, inner, outer, Point(c.block, 0), run.out.kind);
      }
      if next.Pass? {
        LoopsAreOneIn(env, |scopes|, c);
        LandsOutside(g, w, start, n, run, fuel, env, inner, outer, Point(c.block, 0), Point(c.block + 2, 0));
      }
    }
  }

  // ---------------------------------------------------------------- switch

  lemma {:induction false} SwitchRuns(g: Graph, w: World, s: Stmt, env: Env, scopes: seq<seq<Var>>, a: Point, c: Ctr,
                                      prev: BlockId, regs: map<nat, int>, h: Trace, fuel: nat)
    returns (n: nat)
    requires s.Switch?
    requires a.b < c.block && scopes != []
    requires SwitchCode(g, s, env, scopes, a, c).Some?
    requires EnvOk(env, |scopes| - 1) && ScopesOk(scopes, c.slot)
    ensures
      var m := SwitchCode(g, s, env, scopes, a, c).value;
      var r := Exec(w, s, RulesOf(env), h, Strip(Top(scopes)), fuel);
      && Lands(g, w, Here(a, prev, regs, h), n, r, fuel, env, StripAll(Pop(scopes)), m.p)
      && (r.Fin? && r.out.Normal? ==> r.live == Strip(Top(scopes)))
    decreases fuel, s, 2
  {
    hide ScopesOk, EnvOk, Steps, ExpCode, CasesCode, ExecCases;
    var v := ExpCode(g, s.on, a, c).value;
    var x := Eval(w, s.on, h).0;
    var n1, prev1, regs1 := ExpRuns(g, w, s.on, a, c, prev, regs, h);
    MoreSlots(scopes, c.slot, v.c.slot);
    var n2, r := DispatchRuns(g, w, s, env, scopes, v, prev1, regs1, Eval(w, s.on, h).1, x, fuel);
    assert r == Exec(w, s, RulesOf(env), h, Strip(Top(scopes)), fuel);
    LandsLater(g, w, Here(a, prev, regs, h), n1, n2, r, fuel, env, StripAll(Pop(scopes)), Point(v.c.block + 1, 0));
    n := n1 + n2;
  }

  lemma {:induction false} DispatchRuns(g: Graph, w: World, s: Stmt, env: Env, scopes: seq<seq<Var>>, v: ExpEnd,
                                        prev: BlockId, regs: map<nat, int>, h: Trace, x: int, fuel: nat)
    returns (n: nat, r: Run)
    requires s.Switch? && scopes != []
    requires DispatchCode(g, s, env, scopes, v).Some?
    requires Value(v.rv.op, regs) == x
    requires EnvOk(env, |scopes| - 1) && ScopesOk(scopes, v.c.slot)
    ensures r == AfterSwitch(ExecCases(w, s.cases, Selected(s.cases, x),
                                       RulesOf(env).(depth := InSwitch(RulesOf(env).depth)), h, Strip(Top(scopes)),
                                       fuel))
    ensures Lands(g, w, Here(v.p, prev, regs, h), n, r, fuel, env, StripAll(Pop(scopes)), Point(v.c.block + 1, 0))
    ensures r.Fin? ==> r.live == Strip(Top(scopes))
    decreases fuel, s, 1
  {
    hide ScopesOk, CasesCode, Table, Other, Steps, ExecList, Close, CaseCode;
    var first, end := v.c.block, v.c.block + 1;
    var inner, c1 := SwitchEnv(env, |scopes|, end), v.c.(block := v.c.block + 2);
    var m := CasesCode(g, s.cases, inner, scopes, first, c1).value;
    var table, other := Table(s.cases, m.starts), Other(s.cases, m.starts, end);
    RunEnds(g, w, v.p, SwitchTo(v.rv.op, table, other), prev, regs, h);
    CasesDistinct(g, s.cases, inner, scopes, first, c1);
    SelectedTarget(s.cases, m.starts, end, x);
    n := 1;
    var j := Selected(s.cases, x);
    var run := ExecCases(w, s.cases, j, RulesOf(inner), h, Strip(Top(scopes)), fuel);
    r := AfterSwitch(run);
    if j < |s.cases| {
      var n2 := CasesRun(g, w, s.cases, j, inner, scopes, first, c1, v.p.b, regs, h, fuel);
      var n3 := SwitchEnds(g, w, Here(Point(m.starts[j], 0), v.p.b, regs, h), n2, run, fuel, env, scopes, m.next, end);
      LandsLater(g, w, Here(v.p, prev, regs, h), 1, n3, r, fuel, env, StripAll(Pop(scopes)), Point(end, 0));
      n := 1 + n3;
    }
  }

  /** After the last case the dangling block leads to the end; a `break` got there by itself. */
  lemma SwitchEnds(g: Graph, w: World, c: Config, n: nat, run: Run, fuel: nat, env: Env, scopes: seq<seq<Var>>,
                   next: BlockId, end: BlockId)
    returns (n1: nat)
    requires scopes != []
    requires Lands(g, w, c, n, run, fuel, SwitchEnv(env, |scopes|, end), StripAll(Pop(scopes)), Point(next, 0))
    requires Ends(g, Point(next, 0), Br(end)).Some?
    requires run.Fin? ==> run.live == Strip(Top(scopes))
    ensures Lands(g, w, c, n1, AfterSwitch(run), fuel, env, StripAll(Pop(scopes)), Point(end, 0))
  {
    n1 := n;
    if run.Fin? {
      var d := Steps(g, w, c, n);
      var inner := SwitchEnv(env, |scopes|, end);
      match run.out
      case Normal =>
        ThenBr(g, w, c, n, Point(next, 0), end, d.prev, d.regs, d.h);
        n1 := n + 1;
      case Jumped(k, q) =>
        if k.Break? {
          if q == 1 {
            BackEdge(g, w, c, n, run, fuel, inner, StripAll(Pop(scopes)), Point(next, 0), Break);
          } else {
            assert env.brk[|env.brk| - (q - 1)] == inner.brk[|inner.brk| - q];
          }
        }
      case Returned(_, _, _) =>
    }
  }

  lemma {:induction false} CasesDistinct(g: Graph, cases: seq<Case>, env: Env, scopes: seq<seq<Var>>, first: BlockId,
                                         c: Ctr)
    requires first < c.block && scopes != []
    requires CasesCode(g, cases, env, scopes, first, c).Some?
    ensures forall i, j | 0 <= i < j < |cases| :: cases[i].value != cases[j].value
    decreases cases
  {
    hide CaseCode, EnvOk, ScopesOk;
    if cases != [] {
      var n := |cases| - 1;
      CasesDistinct(g, cases[..n], env, scopes, first, c);
      forall i, j | 0 <= i < j < |cases| ensures cases[i].value != cases[j].value {
        assert cases[i] == cases[..n][i];
        if j < n {
          assert cases[j] == cases[..n][j];
        } else {
          assert cases[..n][i].value in CaseValues(cases[..n]);
        }
      }
    }
  }

  lemma {:induction false} TargetOfSnoc(t: seq<(int, BlockId)>, e: (int, BlockId), other: BlockId, v: int)
    ensures SwitchTarget(t + [e], other, v) == SwitchTarget(t, if e.0 == v then e.1 else other, v)
  {
    if t == [] {
      assert (t + [e])[1..] == [];
    } else {
      TargetOfSnoc(t[1..], e, other, v);
      assert (t + [e])[1..] == t[1..] + [e];
    }
  }

  /** The switch table leads to the case with the value, or else to `other`. */
  lemma {:induction false} TableTarget(cases: seq<Case>, starts: seq<BlockId>, other: BlockId, v: int)
    requires |starts| == |cases|
    requires forall i, j | 0 <= i < j < |cases| :: cases[i].value != cases[j].value
    ensures forall i | 0 <= i < |cases| && cases[i].value == Some(v) ::
        SwitchTarget(Table(cases, starts), other, v)
        == starts[i]
    ensures (forall i | 0 <= i < |cases| :: cases[i].value != Some(v))
        ==> SwitchTarget(Table(cases, starts), other, v) == other
  {
    if cases != [] {
      var n := |cases| - 1;
      var o := if cases[n].value == Some(v) then starts[n] else other;
      TableTarget(cases[..n], starts[..n], o, v);
      if cases[n].value.Some? {
        TargetOfSnoc(Table(cases[..n], starts[..n]), (cases[n].value.value, starts[n]), other, v);
      } else {
        assert Table(cases, starts) == Table(cases[..n], starts[..n]);
      }
      forall i | 0 <= i < |cases| && cases[i].value == Some(v) ensures SwitchTarget(Table(cases, starts), other, v)
          == starts[i] {
        if i < n {
          assert cases[..n][i].value == Some(v);
        } else {
          assert forall k | 0 <= k < n :: cases[..n][k].value != Some(v);
        }
      }
    }
  }

  lemma {:induction false} OtherTarget(cases: seq<Case>, starts: seq<BlockId>, end: BlockId)
    requires |starts| == |cases|
    requires forall i, j | 0 <= i < j < |cases| :: cases[i].value != cases[j].value
    ensures forall i | 0 <= i < |cases| && cases[i].value == None :: Other(cases, starts, end) == starts[i]
    ensures (forall i | 0 <= i < |cases| :: cases[i].value != None) ==> Other(cases, starts, end) == end
  {
    if cases != [] {
      var n := |cases| - 1;
      OtherTarget(cases[..n], starts[..n], end);
      forall i | 0 <= i < |cases| && cases[i].value == None ensures Other(cases, starts, end) == starts[i] {
        if i < n {
          assert cases[..n][i].value == None;
        }
      }
    }
  }

  /** The switch instruction goes where the source selects: a case, or the end. */
  lemma SelectedTarget(cases: seq<Case>, starts: seq<BlockId>, end: BlockId, v: int)
    requires |starts| == |cases|
    requires forall i, j | 0 <= i < j < |cases| :: cases[i].value != cases[j].value
    ensures
      var j := Selected(cases, v);
      SwitchTarget(Table(cases, starts), Other(cases, starts, end), v) == if j < |cases| then starts[j] else end
  {
    TableTarget(cases, starts, Other(cases, starts, end), v);
    OtherTarget(cases, starts, end);
    if Some(v) in CaseValues(cases) {
      var i := IndexOf(cases, Some(v));
      var x :| x in cases && x.value == Some(v);
      var k :| 0 <= k < |cases| && cases[k] == x;
      assert i < |cases|;
    } else {
      forall i | 0 <= i < |cases| ensures cases[i].value != Some(v) {
        assert cases[i] in cases;
      }
    }
  }

  /** From the start of case `j`, the graph falls through the cases as the source does. */
  lemma {:induction false} CasesRun(g: Graph, w: World, cases: seq<Case>, j: nat, env: Env, scopes: seq<seq<Var>>,
                                    first: BlockId, c: Ctr, prev: BlockId, regs: map<nat, int>, h: Trace, fuel: nat)
    returns (n: nat)
    requires first < c.block && scopes != [] && j <= |cases|
    requires CasesCode(g, cases, env, scopes, first, c).Some?
    requires EnvOk(env, |scopes|) && ScopesOk(scopes, c.slot)
    ensures
      var m := CasesCode(g, cases, env, scopes, first, c).value;
      var live := Strip(Top(scopes));
      var r := ExecCases(w, cases, j, RulesOf(env), h, live, fuel);
      var start := Here(Point(if j < |cases| then m.starts[j] else m.next, 0), prev, regs, h);
      && Lands(g, w, start, n, r, fuel, env, StripAll(Pop(scopes)), Point(m.next, 0))
      && (r.Fin? ==> r.live == live)
    decreases fuel, cases, 0
  {
    hide ScopesOk, EnvOk, CaseCode, ExecList, Close;
    n := 0;
    if j < |cases| {
      var k := |cases| - 1;
      var m := CasesCode(g, cases[..k], env, scopes, first, c).value;
      var all := CasesCode(g, cases, env, scopes, first, c).value;
      var start := Here(Point(all.starts[j], 0), prev, regs, h);
      assert all.starts[j] == (if j < k then m.starts[j] else m.next);
      var n1 := CasesRun(g, w, cases[..k], j, env, scopes, first, c, prev, regs, h, fuel);
      n := LastCaseRuns(g, w, cases, j, env, scopes, first, c, start, n1, h, fuel);
    }
  }

  /** The last case, where the ones before it end normally. */
  lemma {:induction false} LastCaseRuns(g: Graph, w: World, cases: seq<Case>, j: nat, env: Env, scopes: seq<seq<Var>>,
                                        first: BlockId, c: Ctr, start: Config, n1: nat, h: Trace, fuel: nat)
    returns (n: nat)
    requires first < c.block && scopes != [] && j < |cases|
    requires CasesCode(g, cases, env, scopes, first, c).Some?
    requires EnvOk(env, |scopes|) && ScopesOk(scopes, c.slot)
    requires
      var k := |cases| - 1;
      var m := CasesCode(g, cases[..k], env, scopes, first, c).value;
      var before := ExecCases(w, cases[..k], j, RulesOf(env), h, Strip(Top(scopes)), fuel);
      && Lands(g, w, start, n1, before, fuel, env, StripAll(Pop(scopes)), Point(m.next, 0))
      && (before.Fin? ==> before.live == Strip(Top(scopes)))
    ensures
      var live := Strip(Top(scopes));
      var r := ExecCases(w, cases, j, RulesOf(env), h, live, fuel);
      && Lands(g, w, start, n, r, fuel, env, StripAll(Pop(scopes)),
               Point(CasesCode(g, cases, env, scopes, first, c).value.next, 0))
      && (r.Fin? ==> r.live == live)
    decreases fuel, cases[|cases| - 1].body, 3
  {
    hide ScopesOk, EnvOk, CaseCode, ExecList, Close;
    var k := |cases| - 1;
    var body := cases[k].body;
    var m := CasesCode(g, cases[..k], env, scopes, first, c).value;
    var all := CasesCode(g, cases, env, scopes, first, c).value;
    var live, outer := Strip(Top(scopes)), StripAll(Pop(scopes));
    var before := ExecCases(w, cases[..k], j, RulesOf(env), h, live, fuel);
    if before.Fin? && before.out.Normal? {
      var d := Steps(g, w, start, n1);
      MoreSlots(scopes, c.slot, m.c.slot);
      var n2 := CaseRuns(g, w, body, env, scopes, m.next, m.c, d.prev, d.regs, d.h, fuel);
      LandsLater(g, w, start, n1, n2, Close(ExecList(w, body, RulesOf(env), d.h, [], fuel), live), fuel, env, outer,
                 Point(all.next, 0));
      n := n1 + n2;
    } else {
      LandsAnywhere(g, w, start, n1, before, fuel, env, outer, Point(m.next, 0), Point(all.next, 0));
      n := n1;
    }
  }

  lemma {:induction false} CaseRuns(g: Graph, w: World, body: seq<Stmt>, env: Env, scopes: seq<seq<Var>>,
                                    start: BlockId, c: Ctr, prev: BlockId, regs: map<nat, int>, h: Trace, fuel: nat)
    returns (n: nat)
    requires start < c.block && scopes != []
    requires CaseCode(g, body, env, scopes, start, c).Some?
    requires EnvOk(env, |scopes|) && ScopesOk(scopes, c.slot)
    ensures
      var live := Strip(Top(scopes));
      var r := Close(ExecList(w, body, RulesOf(env), h, [], fuel), live);
      && Lands(g, w, Here(Point(start, 0), prev, regs, h), n, r, fuel, env, StripAll(Pop(scopes)),
               CaseCode(g, body, env, scopes, start, c).value.p)
      && (r.Fin? ==> r.live == live)
    decreases fuel, body, 2
  {
    hide Steps, ListCode, BodyCode, ExecList, EnvOk, ScopesOk;
    var a := Point(start, 0);
    if EndsInJump(body) {
      var inner := scopes + [[]];
      assert Pop(inner) == scopes && Strip(Top(inner)) == [];
      OpenScopeOk(scopes, c.slot);
      var outer, live := StripAll(Pop(scopes)), Strip(Top(scopes));
      assert StripAll(scopes) == outer + [live];
      var l := ListCode(g, body, env, inner, a, c).value;
      var r := ExecList(w, body, RulesOf(env), h, [], fuel);
      n := ListRuns(g, w, body, env, inner, a, c, prev, regs, h, fuel);
      JumpsAway(g, w, body, env, inner, a, c, h, fuel);
      LandsClosed(g, w, Here(a, prev, regs, h), n, r, fuel, env, outer, live, l.p, l.p);
    } else {
      var m := BodyCode(g, body, env, scopes, a, c).value;
      var r := Close(ExecList(w, body, RulesOf(env), h, [], fuel), Strip(Top(scopes)));
      n := BodyRuns(g, w, body, env, scopes, a, c, prev, regs, h, fuel);
      if r.Fin? && r.out.Normal? {
        var d := Steps(g, w, Here(a, prev, regs, h), n);
        ThenBr(g, w, Here(a, prev, regs, h), n, m.p, m.c.block, d.prev, d.regs, d.h);
        n := n + 1;
      }
    }
  }

  /** A list that ends in a jump never ends normally. */
  lemma JumpsAway(g: Graph, w: World, body: seq<Stmt>, env: Env, scopes: seq<seq<Var>>, a: Point, c: Ctr, h: Trace,
                  fuel: nat)
    requires a.b < c.block && scopes != []
    requires EndsInJump(body)
    requires ListCode(g, body, env, scopes, a, c).Some?
    ensures
      var r := ExecList(w, body, RulesOf(env), h, [], fuel);
      r.Fin? ==> !r.out.Normal?
  {
    var n := |body| - 1;
    var m := ListCode(g, body[..n], env, scopes, a, c).value;
    assert StmtCode(g, body[n], env, m.scopes, m.p, m.c).Some?;
  }

  // ---------------------------------------------------------------- for

  lemma {:induction false} ForRuns(g: Graph, w: World, s: Stmt, env: Env, scopes: seq<seq<Var>>, a: Point, c: Ctr,
                                   prev: BlockId, regs: map<nat, int>, h: Trace, fuel: nat)
    returns (n: nat)
    requires s.For?
    requires a.b < c.block && scopes != []
    requires ForCode(g, s, env, scopes, a, c).Some?
    requires EnvOk(env, |scopes| - 1) && ScopesOk(scopes, c.slot)
    ensures
      var m := ForCode(g, s, env, scopes, a, c).value;
      var r := Exec(w, s, RulesOf(env), h, Strip(Top(scopes)), fuel);
      && Lands(g, w, Here(a, prev, regs, h), n, r, fuel, env, StripAll(Pop(scopes)), m.p)
      && (r.Fin? && r.out.Normal? ==> r.live == Strip(Top(scopes)))
    decreases fuel, s, 2
  {
    hide ScopesOk, EnvOk, Lands, PlainsCode, RoundCode, ExecFor, ExecPlains;
    var c1 := c.(block := c.block + 4);
    var inner := scopes + [[]];
    assert Pop(inner) == scopes && Strip(Top(inner)) == [];
    OpenScopeOk(scopes, c.slot);
    var k := PlainsCode(g, s.pre, inner, a, c1).value;
    PlainsScopesOk(g, s.pre, inner, a, c1);
    var (h1, header) := ExecPlains(w, s.pre, h, []);
    var n1, prev1, regs1 := PlainsRun(g, w, s.pre, inner, a, c1, prev, regs, h);
    ThenBr(g, w, Here(a, prev, regs, h), n1, k.p, c.block, prev1, regs1, h1);
    var n2 := ForRounds(g, w, s, env, scopes, k.scopes, c, k.c, false, k.p.b, regs1, h1, fuel);
    var r := ExecFor(w, s, RulesOf(env), h1, header, Strip(Top(scopes)), fuel, false);
    LandsLater(g, w, Here(a, prev, regs, h), n1 + 1, n2, r, fuel, env, StripAll(Pop(scopes)), Point(c.block + 3, 0));
    n := n1 + 1 + n2;
  }

  /** The loop's scope, opened on `scopes` and holding what the header declared. */
  ghost predicate HeaderOk(scopes: seq<seq<Var>>, inner: seq<seq<Var>>, slots: nat) {
    && scopes != []
    && |inner| == |scopes| + 1 && Pop(inner) == scopes
    && ScopesOk(inner, slots)
  }

  lemma {:induction false} ForRounds(g: Graph, w: World, s: Stmt, env: Env, scopes: seq<seq<Var>>, inner: seq<seq<Var>>,
                                     c: Ctr, d: Ctr, atBody: bool, prev: BlockId, regs: map<nat, int>, h: Trace,
                                     fuel: nat)
    returns (n: nat)
    requires s.For? && c.block + 4 <= d.block && HeaderOk(scopes, inner, d.slot)
    requires RoundCode(g, s, ForEnv(env, |scopes|, c), inner, c, d).Some?
    requires EnvOk(env, |scopes| - 1)
    ensures
      var r := ExecFor(w, s, RulesOf(env), h, Strip(Top(inner)), Strip(Top(scopes)), fuel, atBody);
      var start := Here(Point(if atBody then c.block + 1 else c.block, 0), prev, regs, h);
      && Lands(g, w, start, n, r, fuel, env, StripAll(Pop(scopes)), Point(c.block + 3, 0))
      && (r.Fin? && r.out.Normal? ==> r.live == Strip(Top(scopes)))
    decreases fuel, s, 1
  {
    hide PostCode, ArgsCode, Exec, BranchCode, EvalAll, Table, Bit, InstrAt, Within, Emit, ExecList, Norm;
    n := 0;
    if fuel > 0 {
      var cond, body, end := c.block, c.block + 1, c.block + 3;
      var start := Here(Point(if atBody then body else cond, 0), prev, regs, h);
      var header, live, outer := Strip(Top(inner)), Strip(Top(scopes)), StripAll(Pop(scopes));
      if atBody {
        n := ForBody(g, w, s, env, scopes, inner, c, d, prev, regs, h, fuel);
      } else {
        var prev1, regs1;
        n, prev1, regs1 := CondRuns(g, w, s.cond, body, end, Point(cond, 0), d, prev, regs, h);
        var (v, h1) := EvalCond(w, s.cond, h);
        if v {
          var n1 := ForBody(g, w, s, env, scopes, inner, c, d, prev1, regs1, h1, fuel);
          var r := ExecFor(w, s, RulesOf(env), h1, header, live, fuel, true);
          LandsLater(g, w, start, n, n1, r, fuel, env, outer, Point(end, 0));
          n := n + n1;
        }
      }
    }
  }

  lemma {:induction false} ForBody(g: Graph, w: World, s: Stmt, env: Env, scopes: seq<seq<Var>>, inner: seq<seq<Var>>,
                                   c: Ctr, d: Ctr, prev: BlockId, regs: map<nat, int>, h: Trace, fuel: nat)
    returns (n: nat)
    requires s.For? && c.block + 4 <= d.block && HeaderOk(scopes, inner, d.slot) && fuel > 0
    requires RoundCode(g, s, ForEnv(env, |scopes|, c), inner, c, d).Some?
    requires EnvOk(env, |scopes| - 1)
    ensures
      var r := ExecFor(w, s, RulesOf(env), h, Strip(Top(inner)), Strip(Top(scopes)), fuel, true);
      && Lands(g, w, Here(Point(c.block + 1, 0), prev, regs, h), n, r, fuel, env, StripAll(Pop(scopes)),
               Point(c.block + 3, 0))
      && (r.Fin? && r.out.Normal? ==> r.live == Strip(Top(scopes)))
    decreases fuel, s, 0
  {
    var env1 := ForEnv(env, |scopes|, c);
    var t := CondCode(g, s.cond, c.block + 1, c.block + 3, Point(c.block, 0), d).value;
    var header := Strip(Top(inner));
    MoreSlots(inner, d.slot, t.c.slot);
    var n1 := ListRuns(g, w, s.body, env1, inner, Point(c.block + 1, 0), t.c, prev, regs, h, fuel);
    n := AfterForBody(g, w, s, env, scopes, inner, c, d, n1, prev, regs, h, fuel);
  }

  lemma {:induction false} AfterForBody(g: Graph, w: World, s: Stmt, env: Env, scopes: seq<seq<Var>>,
                                        inner: seq<seq<Var>>, c: Ctr, d: Ctr, n1: nat, prev: BlockId,
                                        regs: map<nat, int>, h: Trace, fuel: nat)
    returns (n: nat)
    requires s.For? && c.block + 4 <= d.block && HeaderOk(scopes, inner, d.slot) && fuel > 0
    requires RoundCode(g, s, ForEnv(env, |scopes|, c), inner, c, d).Some?
    requires EnvOk(env, |scopes| - 1)
    requires
      var env1 := ForEnv(env, |scopes|, c);
      var run := ExecList(w, s.body, RulesOf(env1), h, Strip(Top(inner)), fuel);
      var m := RoundBody(g, s, env1, inner, c, d);
      && Lands(g, w, Here(Point(c.block + 1, 0), prev, regs, h), n1, run, fuel, env1, StripAll(scopes), m.p)
    ensures
      var r := ExecFor(w, s, RulesOf(env), h, Strip(Top(inner)), Strip(Top(scopes)), fuel, true);
      && Lands(g, w, Here(Point(c.block + 1, 0), prev, regs, h), n, r, fuel, env, StripAll(Pop(scopes)),
               Point(c.block + 3, 0))
      && (r.Fin? && r.out.Normal? ==> r.live == Strip(Top(scopes)))
    decreases fuel - 1, s, 2
  {
    hide ScopesOk, EnvOk, RoundCode, ExecList, EvalAll, Unwind, Lands, Steps;
    var env1 := ForEnv(env, |scopes|, c);
    var header, live, outer := Strip(Top(inner)), Strip(Top(scopes)), StripAll(Pop(scopes));
    var start, end := Here(Point(c.block + 1, 0), prev, regs, h), Point(c.block + 3, 0);
    var run := ExecList(w, s.body, RulesOf(env1), h, header, fuel);
    n := n1;
    if run.Fin? {
      var round := AfterRound(w, s, run, header, live, AsEmitted);
      if AfterBody(run.out, true).Again? {
        var n2, prev1, regs1 := PostRuns(g, w, s, env1, inner, c, d, n1, prev, regs, h, fuel);
        var n3 := ForRounds(g, w, s, env, scopes, inner, c, d, false, prev1, regs1, round.h, fuel - 1);
        LandsAgain(g, w, start, n2, n3, ExecFor(w, s, RulesOf(env), round.h, header, live, fuel - 1, false), fuel, env,
                   outer, end);
        n := n2 + n3;
      } else {
        ForLeaves(g, w, start, n1, run, fuel, env, scopes, c, RoundBody(g, s, env1, inner, c, d).p);
        if AfterBody(run.out, true).Retry? {
          var e := Steps(g, w, start, n1);
          var n2 := ForRounds(g, w, s, env, scopes, inner, c, d, true, e.prev, e.regs, round.h, fuel - 1);
          LandsAgain(g, w, start, n1, n2, ExecFor(w, s, RulesOf(env), round.h, header, live, fuel - 1, true), fuel, env,
                     outer, end);
          n := n1 + n2;
        }
      }
    } else {
      StillRunning(g, w, start, n, run, fuel, env1, StripAll(scopes), RoundBody(g, s, env1, inner, c, d).p, env, outer,
                   end);
    }
  }

  /** Where a `for` is after a jump or return in its body that is not a `continue`: at the body, or out of the loop. */
  lemma ForLeaves(g: Graph, w: World, start: Config, n: nat, run: Run, fuel: nat, env: Env, scopes: seq<seq<Var>>,
                  c: Ctr, p: Point)
    requires scopes != [] && EnvOk(env, |scopes| - 1)
    requires run.Fin? && !AfterBody(run.out, true).Again?
    requires Lands(g, w, start, n, run, fuel, ForEnv(env, |scopes|, c), StripAll(scopes), p)
    ensures
      var d, closed := Steps(g, w, start, n), Close(run, Strip(Top(scopes)));
      var outer, end := StripAll(Pop(scopes)), Point(c.block + 3, 0);
      match AfterBody(run.out, true)
      case Again => true
      case Retry => n >= 1 && d.At? && d == Here(Point(c.block + 1, 0), d.prev, d.regs, run.h + Unwind(run.live, None))
      case Stop => Lands(g, w, start, n, closed.(out := Normal), fuel, env, outer, end)
      case Pass(_) => Lands(g, w, start, n, closed.(out := Outward(closed.out)), fuel, env, outer, end)
  {
    if AfterBody(run.out, true).Pass? {
      ForPasses(g, w, start, n, run, fuel, env, scopes, c, p);
    } else {
      OwnTarget(run, StripAll(scopes), |scopes|);
    }
  }

  /** A jump or return out of a `for` closes the loop's scope on its way. */
  lemma ForPasses(g: Graph, w: World, start: Config, n: nat, run: Run, fuel: nat, env: Env, scopes: seq<seq<Var>>,
                  c: Ctr, p: Point)
    requires scopes != [] && EnvOk(env, |scopes| - 1)
    requires run.Fin? && AfterBody(run.out, true).Pass?
    requires Lands(g, w, start, n, run, fuel, ForEnv(env, |scopes|, c), StripAll(scopes), p)
    ensures
      var closed := Close(run, Strip(Top(scopes)));
      Lands(g, w, start, n, closed.(out := Outward(closed.out)), fuel, env, StripAll(Pop(scopes)),
            Point(c.block + 3, 0))
  {
    hide Steps;
    var env1 := ForEnv(env, |scopes|, c);
    var live, outer := Strip(Top(scopes)), StripAll(Pop(scopes));
    assert StripAll(scopes) == outer + [live];
    var closed := Close(run, live);
    LandsClosed(g, w, start, n, run, fuel, env1, outer, live, p, p);
    LoopsAreOneIn(env, |scopes|, c);
    LandsOutside(g, w, start, n, closed, fuel, env, env1, outer, p, Point(c.block + 3, 0));
    assert AfterBody(closed.out, true).out == Outward(closed.out);
  }

  /** A jump to the loop itself leaves exactly the loop's scope. */
  lemma OwnTarget(r: Run, outer: seq<Scope>, level: nat)
    requires r.Fin? && level == |outer|
    ensures UnwindAll((outer + [r.live])[level..], None) == Unwind(r.live, None)
  {
    var own := (outer + [r.live])[level..];
    assert own == [r.live];
    assert own[..0] == [];
    assert UnwindAll(own, None) == Unwind(r.live, None) + UnwindAll([], if Declares(r.live, None) then None else None);
  }

  /** What has happened when the post expressions of a `for` begin: a `continue` has destroyed the loop's scope. */
  function AtPost(run: Run): Trace
    requires run.Fin?
  {
    if run.out.Normal? then run.h else run.h + Unwind(run.live, None)
  }

  /** After the body, or a `continue`: the post expressions, the end of the scope, and back to the condition. */
  lemma PostRuns(g: Graph, w: World, s: Stmt, env: Env, inner: seq<seq<Var>>, c: Ctr, d: Ctr, n: nat, prev: BlockId,
                 regs: map<nat, int>, h: Trace, fuel: nat)
    returns (n1: nat, prev1: BlockId, regs1: map<nat, int>)
    requires s.For? && c.block + 4 <= d.block && inner != []
    requires RoundCode(g, s, env, inner, c, d).Some?
    requires BodyIsOver(g, w, s, env, inner, c, d, n, prev, regs, h, fuel)
    ensures
      var header := Strip(Top(inner));
      var run := ExecList(w, s.body, RulesOf(env), h, header, fuel);
      Steps(g, w, Here(Point(c.block + 1, 0), prev, regs, h), n1)
        == Here(Point(c.block, 0), prev1, regs1, EvalAll(w, s.post, AtPost(run)).1
                + Unwind(header + OwnLocals(s.body), None))
    ensures n1 >= 1
  {
    hide Steps, ExecList, EvalAll, Unwind, OwnLocals, ScopesOk, CondCode;
    var start := Here(Point(c.block + 1, 0), prev, regs, h);
    var m := RoundBody(g, s, env, inner, c, d);
    var run := ExecList(w, s.body, RulesOf(env), h, Strip(Top(inner)), fuel);
    var n2, prev2, regs2 := ReachesPost(g, w, s, env, inner, c, d, n, prev, regs, h, fuel);
    var n3;
    n3, prev1, regs1 := PostCodeRuns(g, w, s.post, Top(m.scopes), c.block + 2, c.block, m.c, prev2, regs2, AtPost(run));
    StepsAdd(g, w, start, n2, n3);
    n1 := n2 + n3;
  }

  /** Where the body of a `for` ends, in a graph that holds one round of it. */
  function RoundBody(g: Graph, s: Stmt, env: Env, inner: seq<seq<Var>>, c: Ctr, d: Ctr): StmtEnd
    requires s.For? && c.block + 4 <= d.block && inner != []
    requires RoundCode(g, s, env, inner, c, d).Some?
  {
    var t := CondCode(g, s.cond, c.block + 1, c.block + 3, Point(c.block, 0), d).value;
    ListCode(g, s.body, env, inner, Point(c.block + 1, 0), t.c).value
  }

  /** `n` steps from the start of the body, it has ended normally or continued this loop. */
  ghost predicate BodyIsOver(g: Graph, w: World, s: Stmt, env: Env, inner: seq<seq<Var>>, c: Ctr, d: Ctr, n: nat,
                             prev: BlockId, regs: map<nat, int>, h: Trace, fuel: nat)
    requires s.For? && c.block + 4 <= d.block && inner != []
    requires RoundCode(g, s, env, inner, c, d).Some?
  {
    var header := Strip(Top(inner));
    var run := ExecList(w, s.body, RulesOf(env), h, header, fuel);
    var m := RoundBody(g, s, env, inner, c, d);
    && env.cont != [] && env.cont[|env.cont| - 1] == Target(c.block + 2, |inner| - 1)
    && run.Fin? && AfterBody(run.out, true).Again?
    && Lands(g, w, Here(Point(c.block + 1, 0), prev, regs, h), n, run, fuel, env, StripAll(Pop(inner)), m.p)
  }

  /** What the post code destroys: the locals of the header and all that the body declares in the loop's scope. */
  lemma PostDestroys(g: Graph, s: Stmt, env: Env, inner: seq<seq<Var>>, c: Ctr, d: Ctr)
    requires s.For? && c.block + 4 <= d.block && inner != []
    requires RoundCode(g, s, env, inner, c, d).Some?
    ensures
      DtorTrace(Top(RoundBody(g, s, env, inner, c, d).scopes), None)
      == Unwind(Strip(Top(inner)) + OwnLocals(s.body), None)
  {
    hide PostCode, ListCode, CondCode, Unwind, DtorTrace;
    var m := RoundBody(g, s, env, inner, c, d);
    var t := CondCode(g, s.cond, c.block + 1, c.block + 3, Point(c.block, 0), d).value;
    PlainUnwind(Top(m.scopes));
    StaticLocals(g, s.body, env, inner, Point(c.block + 1, 0), t.c);
  }

  lemma ReachesPost(g: Graph, w: World, s: Stmt, env: Env, inner: seq<seq<Var>>, c: Ctr, d: Ctr, n: nat, prev: BlockId,
                    regs: map<nat, int>, h: Trace, fuel: nat)
    returns (n1: nat, prev1: BlockId, regs1: map<nat, int>)
    requires s.For? && c.block + 4 <= d.block && inner != []
    requires RoundCode(g, s, env, inner, c, d).Some?
    requires BodyIsOver(g, w, s, env, inner, c, d, n, prev, regs, h, fuel)
    ensures
      var header := Strip(Top(inner));
      var run := ExecList(w, s.body, RulesOf(env), h, header, fuel);
      && Steps(g, w, Here(Point(c.block + 1, 0), prev, regs, h), n1)
          == Here(Point(c.block + 2, 0), prev1, regs1, AtPost(run))
      && DtorTrace(Top(RoundBody(g, s, env, inner, c, d).scopes), None) == Unwind(header + OwnLocals(s.body), None)
  {
    hide PostCode, ListCode, ExecList, CondCode, Steps, EvalAll, Unwind, DtorTrace, OwnLocals;
    var start := Here(Point(c.block + 1, 0), prev, regs, h);
    var m := RoundBody(g, s, env, inner, c, d);
    var run := ExecList(w, s.body, RulesOf(env), h, Strip(Top(inner)), fuel);
    var e := Steps(g, w, start, n);
    n1, prev1, regs1 := n, e.prev, e.regs;
    PostDestroys(g, s, env, inner, c, d);
    if run.out.Normal? {
      ThenBr(g, w, start, n, m.p, c.block + 2, e.prev, e.regs, e.h);
      n1, prev1 := n + 1, m.p.b;
    } else {
      OwnTarget(run, StripAll(Pop(inner)), |inner| - 1);
    }
  }

  lemma PostCodeRuns(g: Graph, w: World, post: seq<Exp>, vars: seq<Var>, start: BlockId, cond: BlockId, c: Ctr,
                     prev: BlockId, regs: map<nat, int>, h: Trace)
    returns (n: nat, prev1: BlockId, regs1: map<nat, int>)
    requires start < c.block
    requires PostCode(g, post, vars, start, cond, c).Some?
    ensures
      Steps(g, w, Here(Point(start, 0), prev, regs, h), n)
        == Here(Point(cond, 0), prev1, regs1, EvalAll(w, post, h).1 + DtorTrace(vars, None))
    ensures n >= 1
  {
    var a := Here(Point(start, 0), prev, regs, h);
    var k := ArgsCode(g, post, Point(start, 0), c).value;
    var h1 := EvalAll(w, post, h).1;
    var n1, prev2, regs2 := ArgsRun(g, w, post, Point(start, 0), c, prev, regs, h);
    var n2 := DtorsRun(g, w, vars, None, k.p, prev2, regs2, h1);
    StepsAdd(g, w, a, n1, n2);
    var q := DtorsCode(g, vars, None, k.p).value;
    ThenBr(g, w, a, n1 + n2, q, cond, prev2, regs2, h1 + DtorTrace(vars, None));
    n, prev1, regs1 := n1 + n2 + 1, q.b, regs2;
  }

  /** The scope that the code generator has at the end of a list: all that the list declares. */
  lemma {:induction false} StaticLocals(g: Graph, ss: seq<Stmt>, env: Env, scopes: seq<seq<Var>>, a: Point, c: Ctr)
    requires a.b < c.block && scopes != []
    requires ListCode(g, ss, env, scopes, a, c).Some?
    ensures Strip(Top(ListCode(g, ss, env, scopes, a, c).value.scopes)) == Strip(Top(scopes)) + OwnLocals(ss)
    decreases ss
  {
    hide StmtCode, PlainCode, OwnPlain;
    if ss != [] {
      var n := |ss| - 1;
      var m := ListCode(g, ss[..n], env, scopes, a, c).value;
      StaticLocals(g, ss[..n], env, scopes, a, c);
      if ss[n].Basic? {
        BasicCode(g, ss[n], env, m.scopes, m.p, m.c);
        StaticPlain(g, ss[n].plain, m.scopes, m.p, m.c);
      }
    }
  }

  lemma BasicCode(g: Graph, s: Stmt, env: Env, scopes: seq<seq<Var>>, a: Point, c: Ctr)
    requires s.Basic? && a.b < c.block && scopes != []
    ensures StmtCode(g, s, env, scopes, a, c) == PlainCode(g, s.plain, scopes, a, c)
  {
  }

  lemma {:induction false} StaticPlain(g: Graph, p: Plain, scopes: seq<seq<Var>>, a: Point, c: Ctr)
    requires a.b < c.block && scopes != []
    requires PlainCode(g, p, scopes, a, c).Some?
    ensures Strip(Top(PlainCode(g, p, scopes, a, c).value.scopes)) == Strip(Top(scopes)) + OwnPlain(p)
    decreases p, 1
  {
    match p
    case Group(ps) => StaticPlains(g, ps, scopes, a, c);
    case Declare(x, decl, dtor, _) =>
      var v := Var(x, decl, ExpCode(g, p.init, a, c).value.c.slot, dtor);
      assert Strip(Top(scopes) + [v]) == Strip(Top(scopes)) + [Local(x, decl, dtor)];
    case _ =>
  }

  lemma {:induction false} StaticPlains(g: Graph, ps: seq<Plain>, scopes: seq<seq<Var>>, a: Point, c: Ctr)
    requires a.b < c.block && scopes != []
    requires PlainsCode(g, ps, scopes, a, c).Some?
    ensures Strip(Top(PlainsCode(g, ps, scopes, a, c).value.scopes)) == Strip(Top(scopes)) + OwnPlains(ps)
    decreases ps, 0
  {
    if ps != [] {
      var n := |ps| - 1;
      var m := PlainsCode(g, ps[..n], scopes, a, c).value;
      StaticPlains(g, ps[..n], scopes, a, c);
      StaticPlain(g, ps[n], m.scopes, m.p, m.c);
    }
  }
}
