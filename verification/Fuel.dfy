/** A run that has ended stays as it is, however much further it is followed. */
module Fuel {
  import opened Options
  import opened Cfg
  import opened Source

  /** The run `b` was followed further than `a`. */
  ghost predicate Extends(a: Run, b: Run) {
    a.Fin? ==> b == a
  }

  lemma {:induction false} StmtFurther(w: World, s: Stmt, r: Rules, h: Trace, live: Scope, fuel: nat)
    ensures Extends(Exec(w, s, r, h, live, fuel), Exec(w, s, r, h, live, fuel + 1))
    decreases fuel, s, 2
  {
    match s
    case Loop(_) => LoopFurther(w, s, r, h, live, fuel);
    case While(_, _, doWhile, _) => WhileFurther(w, s, r, h, live, fuel, doWhile);
    case Switch(on, cases) =>
      var (v, h1) := Eval(w, on, h);
      CasesFurther(w, cases, Selected(cases, v), r.(depth := InSwitch(r.depth)), h1, live, fuel);
    case For(pre, _, _, _) =>
      var (h1, header) := ExecPlains(w, pre, h, []);
      ForFurther(w, s, r, h1, header, live, fuel, false);
    case If(c, thn, els) =>
      var h1 := Eval(w, c, h).1;
      ListFurther(w, thn, r, h1, [], fuel);
      if els.Else? { ListFurther(w, els.stmts, r, h1, [], fuel); }
    case _ =>
  }

  lemma {:induction false} ListFurther(w: World, ss: seq<Stmt>, r: Rules, h: Trace, live: Scope, fuel: nat)
    ensures Extends(ExecList(w, ss, r, h, live, fuel), ExecList(w, ss, r, h, live, fuel + 1))
    decreases fuel, ss, 0
  {
    hide Exec;
    if ss != [] {
      var n := |ss| - 1;
      var first := ExecList(w, ss[..n], r, h, live, fuel);
      ListFurther(w, ss[..n], r, h, live, fuel);
      if first.Fin? { StmtFurther(w, ss[n], r, first.h, first.live, fuel); }
    }
  }

  lemma {:induction false} LoopFurther(w: World, s: Stmt, r: Rules, h: Trace, live: Scope, fuel: nat)
    requires s.Loop?
    ensures Extends(ExecLoop(w, s, r, h, live, fuel), ExecLoop(w, s, r, h, live, fuel + 1))
    decreases fuel, s, 1
  {
    hide ExecList;
    if fuel > 0 {
      var inner := r.(depth := InLoop(r.depth));
      ListFurther(w, s.body, inner, h, [], fuel);
      LoopFurther(w, s, r, Close(ExecList(w, s.body, inner, h, [], fuel), live).h, live, fuel - 1);
    }
  }

  lemma {:induction false} WhileFurther(w: World, s: Stmt, r: Rules, h: Trace, live: Scope, fuel: nat, atBody: bool)
    requires s.While?
    ensures Extends(ExecWhile(w, s, r, h, live, fuel, atBody), ExecWhile(w, s, r, h, live, fuel + 1, atBody))
    decreases fuel, s, 1
  {
    hide ExecList, EvalCond;
    if fuel > 0 {
      var inner := r.(depth := InWhile(r.depth));
      var h1 := if atBody then h else EvalCond(w, s.cond, h).1;
      ListFurther(w, s.body, inner, h1, [], fuel);
      var h2 := Close(ExecList(w, s.body, inner, h1, [], fuel), live).h;
      WhileFurther(w, s, r, h2, live, fuel - 1, false);
      WhileFurther(w, s, r, h2, live, fuel - 1, true);
    }
  }

  lemma {:induction false} CasesFurther(w: World, cases: seq<Case>, j: nat, r: Rules, h: Trace, live: Scope, fuel: nat)
    requires j <= |cases|
    ensures Extends(ExecCases(w, cases, j, r, h, live, fuel), ExecCases(w, cases, j, r, h, live, fuel + 1))
    decreases fuel, cases, 1
  {
    hide ExecList;
    if j < |cases| {
      var n := |cases| - 1;
      CasesFurther(w, cases[..n], j, r, h, live, fuel);
      ListFurther(w, cases[n].body, r, ExecCases(w, cases[..n], j, r, h, live, fuel).h, [], fuel);
    }
  }

  /** A round that is not cut off. */
  ghost predicate RoundExtends(a: Round, b: Round) {
    a.Goes? || a.run.Fin? ==> b == a
  }

  lemma {:induction false} RoundFurther(w: World, s: Stmt, r: Rules, h: Trace, header: Scope, live: Scope, fuel: nat,
                                        atBody: bool)
    requires s.For?
    ensures RoundExtends(ForRound(w, s, r, h, header, live, fuel, atBody),
                         ForRound(w, s, r, h, header, live, fuel + 1, atBody))
    decreases fuel, s, 0
  {
    hide ExecList, EvalCond, KeepsScope;
    var h1 := if atBody then h else EvalCond(w, s.cond, h).1;
    ListFurther(w, s.body, r.(depth := InWhile(r.depth)), h1, header, fuel);
  }

  lemma {:induction false} ForFurther(w: World, s: Stmt, r: Rules, h: Trace, header: Scope, live: Scope, fuel: nat,
                                      atBody: bool)
    requires s.For?
    ensures Extends(ExecFor(w, s, r, h, header, live, fuel, atBody),
                    ExecFor(w, s, r, h, header, live, fuel + 1, atBody))
    decreases fuel, s, 1
  {
    hide ForRound;
    if fuel > 0 {
      var round := ForRound(w, s, r, h, header, live, fuel, atBody);
      RoundFurther(w, s, r, h, header, live, fuel, atBody);
      if round.Goes? { ForFurther(w, s, r, round.h, header, live, fuel - 1, round.atBody); }
    }
  }

  /** However much further: a run has at most one end. */
  lemma {:induction false} OneEnd(w: World, ss: seq<Stmt>, r: Rules, h: Trace, live: Scope, fuel: nat, more: nat)
    requires fuel <= more
    ensures Extends(ExecList(w, ss, r, h, live, fuel), ExecList(w, ss, r, h, live, more))
    decreases more
  {
    hide ExecList;
    if fuel < more {
      OneEnd(w, ss, r, h, live, fuel, more - 1);
      ListFurther(w, ss, r, h, live, more - 1);
    }
  }
}
