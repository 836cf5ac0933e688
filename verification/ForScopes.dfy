/**
 Which `for` loops keep to their scope, and what the source semantics makes of them.

 A `for` loop's header and body share one scope that the code generator ends once per round,
 and a `continue` ends it on the way to the post expressions as well.
 */
module ForScopes {
  import opened Options
  import opened Cfg
  import opened Source

  /** Whether some `continue` in the list continues the construct that is `q`-th outside the list. */
  predicate Continues(ss: seq<Stmt>, r: Rules, q: nat)
    decreases ss, 0
  {
    ss != [] && (Continues(ss[..|ss| - 1], r, q) || ContinuesOne(ss[|ss| - 1], r, q))
  }

  predicate ContinuesOne(s: Stmt, r: Rules, q: nat)
    decreases s, 1
  {
    match s
    case Basic(_) => false
    case Return(_) => false
    case Branch(k, level) => k.Continue? && Resolve(r.depth.cont, level) == Some(q)
    case Loop(body) => Continues(body, r.(depth := InLoop(r.depth)), q + 1)
    case While(_, body, _, _) => Continues(body, r.(depth := InWhile(r.depth)), q + 1)
    case For(_, _, _, body) => Continues(body, r.(depth := InWhile(r.depth)), q + 1)
    case Switch(_, cases) => ContinuesCases(cases, r.(depth := InSwitch(r.depth)), q)
    case If(_, thn, els) => Continues(thn, r, q) || (els.Else? && Continues(els.stmts, r, q))
  }

  predicate ContinuesCases(cases: seq<Case>, r: Rules, q: nat)
    decreases cases, 0
  {
    cases != [] && (ContinuesCases(cases[..|cases| - 1], r, q) || Continues(cases[|cases| - 1].body, r, q))
  }

  /**
   The bodies in which every `for` keeps to the scopes: its header declares nothing with a
   destructor, and where something continues it, neither does its body's own scope.
   */
  predicate ForSafe(s: Stmt, r: Rules)
    decreases s, 1
  {
    match s
    case Basic(_) => true
    case Return(_) => true
    case Branch(_, _) => true
    case Loop(body) => AllForSafe(body, r.(depth := InLoop(r.depth)))
    case While(_, body, _, _) => AllForSafe(body, r.(depth := InWhile(r.depth)))
    case For(pre, _, _, body) =>
      var inner := r.(depth := InWhile(r.depth));
      Quiet(OwnPlains(pre)) && AllForSafe(body, inner) && (Continues(body, inner, 1) ==> Quiet(OwnLocals(body)))
    case Switch(_, cases) => CasesForSafe(cases, r.(depth := InSwitch(r.depth)))
    case If(_, thn, els) => AllForSafe(thn, r) && (els.Else? ==> AllForSafe(els.stmts, r))
  }

  predicate AllForSafe(ss: seq<Stmt>, r: Rules)
    decreases ss, 0
  {
    ss == [] || (AllForSafe(ss[..|ss| - 1], r) && ForSafe(ss[|ss| - 1], r))
  }

  predicate CasesForSafe(cases: seq<Case>, r: Rules)
    decreases cases, 0
  {
    cases == [] || (CasesForSafe(cases[..|cases| - 1], r) && AllForSafe(cases[|cases| - 1].body, r))
  }

  // ---------------------------------------------------------------- scopes without destructors

  lemma {:induction false} QuietUnwind(scope: Scope, moved: Option<Symbol>)
    requires Quiet(scope)
    ensures Unwind(scope, moved) == []
  {
    if scope != [] {
      QuietUnwind(scope[1..], moved);
    }
  }

  lemma {:induction false} UnwindAppend(a: Scope, b: Scope, moved: Option<Symbol>)
    ensures Unwind(a + b, moved) == Unwind(b, moved) + Unwind(a, moved)
  {
    if a == [] {
      assert a + b == b;
    } else {
      UnwindAppend(a[1..], b, moved);
      assert (a + b)[1..] == a[1..] + b;
    }
  }

  lemma {:induction false} PlainGrows(w: World, p: Plain, h: Trace, live: Scope)
    ensures ExecPlain(w, p, h, live).1 == live + OwnPlain(p)
    decreases p, 1
  {
    match p
    case Group(ps) => PlainsGrow(w, ps, h, live);
    case _ =>
  }

  lemma {:induction false} PlainsGrow(w: World, ps: seq<Plain>, h: Trace, live: Scope)
    ensures ExecPlains(w, ps, h, live).1 == live + OwnPlains(ps)
    decreases ps, 0
  {
    if ps != [] {
      var n := |ps| - 1;
      var (h1, live1) := ExecPlains(w, ps[..n], h, live);
      PlainsGrow(w, ps[..n], h, live);
      PlainGrows(w, ps[n], h1, live1);
    }
  }

  // ---------------------------------------------------------------- the current scope

  /** A statement with a body, and a jump, leave the scope they stand in as it was. */
  lemma {:induction false} SameScope(w: World, s: Stmt, r: Rules, h: Trace, live: Scope, fuel: nat)
    requires !s.Basic?
    ensures
      var run := Exec(w, s, r, h, live, fuel);
      run.Fin? ==> run.live == live
  {
    match s
    case Loop(_) => LoopScope(w, s, r, h, live, fuel);
    case While(_, _, doWhile, _) => WhileScope(w, s, r, h, live, fuel, doWhile);
    case Switch(on, cases) =>
      var (v, h1) := Eval(w, on, h);
      CasesScope(w, cases, Selected(cases, v), r.(depth := InSwitch(r.depth)), h1, live, fuel);
    case For(pre, _, _, _) =>
      var (h1, header) := ExecPlains(w, pre, h, []);
      ForScope(w, s, r, h1, header, live, fuel, false);
    case _ =>
  }

  lemma {:induction false} LoopScope(w: World, s: Stmt, r: Rules, h: Trace, live: Scope, fuel: nat)
    requires s.Loop?
    ensures
      var run := ExecLoop(w, s, r, h, live, fuel);
      run.Fin? ==> run.live == live
    decreases fuel
  {
    if fuel > 0 {
      var run := Close(ExecList(w, s.body, r.(depth := InLoop(r.depth)), h, [], fuel), live);
      if run.Fin? {
        LoopScope(w, s, r, run.h, live, fuel - 1);
      }
    }
  }

  lemma {:induction false} WhileScope(w: World, s: Stmt, r: Rules, h: Trace, live: Scope, fuel: nat, atBody: bool)
    requires s.While?
    ensures
      var run := ExecWhile(w, s, r, h, live, fuel, atBody);
      run.Fin? ==> run.live == live
    decreases fuel
  {
    if fuel > 0 {
      var (c, h1) := if atBody then (!s.until, h) else EvalCond(w, s.cond, h);
      var run := Close(ExecList(w, s.body, r.(depth := InWhile(r.depth)), h1, [], fuel), live);
      if run.Fin? {
        WhileScope(w, s, r, run.h, live, fuel - 1, false);
        WhileScope(w, s, r, run.h, live, fuel - 1, true);
      }
    }
  }

  lemma {:induction false} ForScope(w: World, s: Stmt, r: Rules, h: Trace, header: Scope, live: Scope, fuel: nat,
                                    atBody: bool)
    requires s.For?
    ensures
      var run := ExecFor(w, s, r, h, header, live, fuel, atBody);
      run.Fin? ==> run.live == live
    decreases fuel
  {
    if fuel > 0 {
      var round := ForRound(w, s, r, h, header, live, fuel, atBody);
      if round.Goes? {
        ForScope(w, s, r, round.h, header, live, fuel - 1, round.atBody);
      }
    }
  }

  lemma {:induction false} CasesScope(w: World, cases: seq<Case>, j: nat, r: Rules, h: Trace, live: Scope, fuel: nat)
    requires j <= |cases|
    ensures
      var run := ExecCases(w, cases, j, r, h, live, fuel);
      run.Fin? ==> run.live == live
  {
    if j < |cases| {
      CasesScope(w, cases[..|cases| - 1], j, r, h, live, fuel);
    }
  }

  /** The current scope grows by what the list declares, in order. */
  lemma {:induction false} ListGrows(w: World, ss: seq<Stmt>, r: Rules, h: Trace, live: Scope, fuel: nat)
    ensures
      var run := ExecList(w, ss, r, h, live, fuel);
      && (run.Fin? ==> live <= run.live <= live + OwnLocals(ss))
      && (run.Fin? && run.out.Normal? ==> run.live == live + OwnLocals(ss))
    decreases ss
  {
    hide Exec, ExecPlain, OwnPlain;
    if ss != [] {
      var n := |ss| - 1;
      var first := ExecList(w, ss[..n], r, h, live, fuel);
      ListGrows(w, ss[..n], r, h, live, fuel);
      if first.Fin? && first.out.Normal? {
        if ss[n].Basic? {
          PlainGrows(w, ss[n].plain, first.h, first.live);
          BasicRuns(w, ss[n], r, first.h, first.live, fuel);
        } else {
          SameScope(w, ss[n], r, first.h, first.live, fuel);
        }
      }
    }
  }

  lemma BasicRuns(w: World, s: Stmt, r: Rules, h: Trace, live: Scope, fuel: nat)
    requires s.Basic?
    ensures Exec(w, s, r, h, live, fuel) == Fin(ExecPlain(w, s.plain, h, live).0, ExecPlain(w, s.plain, h, live).1,
                                                Normal)
  {
  }

  // ---------------------------------------------------------------- a `continue` that is taken is written down

  ghost predicate IsContinue(run: Run, q: nat) {
    run.Fin? && run.out == Jumped(Continue, q) && q > 0
  }

  lemma {:induction false} StmtContinues(w: World, s: Stmt, r: Rules, h: Trace, live: Scope, fuel: nat, q: nat)
    requires IsContinue(Exec(w, s, r, h, live, fuel), q)
    ensures ContinuesOne(s, r, q)
    decreases fuel, s, 2
  {
    match s
    case Loop(_) => LoopContinues(w, s, r, h, live, fuel, q);
    case While(_, _, doWhile, _) => WhileContinues(w, s, r, h, live, fuel, doWhile, q);
    case Switch(on, cases) =>
      var (v, h1) := Eval(w, on, h);
      CasesContinue(w, cases, Selected(cases, v), r.(depth := InSwitch(r.depth)), h1, live, fuel, q);
    case For(pre, _, _, _) =>
      var (h1, header) := ExecPlains(w, pre, h, []);
      ForContinues(w, s, r, h1, header, live, fuel, false, q);
    case If(c, thn, els) =>
      var (v, h1) := Eval(w, c, h);
      if v != 0 {
        ListContinues(w, thn, r, h1, [], fuel, q);
      } else {
        ListContinues(w, els.stmts, r, h1, [], fuel, q);
      }
    case _ =>
  }

  lemma {:induction false} ListContinues(w: World, ss: seq<Stmt>, r: Rules, h: Trace, live: Scope, fuel: nat, q: nat)
    requires IsContinue(ExecList(w, ss, r, h, live, fuel), q)
    ensures Continues(ss, r, q)
    decreases fuel, ss, 0
  {
    var n := |ss| - 1;
    var first := ExecList(w, ss[..n], r, h, live, fuel);
    if first.Fin? && first.out.Normal? {
      StmtContinues(w, ss[n], r, first.h, first.live, fuel, q);
    } else {
      ListContinues(w, ss[..n], r, h, live, fuel, q);
    }
  }

  lemma {:induction false} LoopContinues(w: World, s: Stmt, r: Rules, h: Trace, live: Scope, fuel: nat, q: nat)
    requires s.Loop? && IsContinue(ExecLoop(w, s, r, h, live, fuel), q)
    ensures Continues(s.body, r.(depth := InLoop(r.depth)), q + 1)
    decreases fuel, s, 0
  {
    var inner := r.(depth := InLoop(r.depth));
    var run := ExecList(w, s.body, inner, h, [], fuel);
    if AfterBody(run.out, false).Again? {
      LoopContinues(w, s, r, Close(run, live).h, live, fuel - 1, q);
    } else {
      ListContinues(w, s.body, inner, h, [], fuel, q + 1);
    }
  }

  lemma {:induction false} WhileContinues(w: World, s: Stmt, r: Rules, h: Trace, live: Scope, fuel: nat, atBody: bool,
                                          q: nat)
    requires s.While? && IsContinue(ExecWhile(w, s, r, h, live, fuel, atBody), q)
    ensures Continues(s.body, r.(depth := InWhile(r.depth)), q + 1)
    decreases fuel, s, 0
  {
    var inner := r.(depth := InWhile(r.depth));
    var h1 := if atBody then h else EvalCond(w, s.cond, h).1;
    var run := ExecList(w, s.body, inner, h1, [], fuel);
    match AfterBody(run.out, true)
    case Again => WhileContinues(w, s, r, Close(run, live).h, live, fuel - 1, false, q);
    case Retry => WhileContinues(w, s, r, Close(run, live).h, live, fuel - 1, true, q);
    case Stop =>
    case Pass(_) => ListContinues(w, s.body, inner, h1, [], fuel, q + 1);
  }

  lemma {:induction false} ForContinues(w: World, s: Stmt, r: Rules, h: Trace, header: Scope, live: Scope, fuel: nat,
                                        atBody: bool, q: nat)
    requires s.For? && IsContinue(ExecFor(w, s, r, h, header, live, fuel, atBody), q)
    ensures Continues(s.body, r.(depth := InWhile(r.depth)), q + 1)
    decreases fuel, s, 0
  {
    var round := ForRound(w, s, r, h, header, live, fuel, atBody);
    if round.Goes? {
      ForContinues(w, s, r, round.h, header, live, fuel - 1, round.atBody, q);
    } else {
      var inner := r.(depth := InWhile(r.depth));
      var h1 := if atBody then h else EvalCond(w, s.cond, h).1;
      ListContinues(w, s.body, inner, h1, header, fuel, q + 1);
    }
  }

  lemma {:induction false} CasesContinue(w: World, cases: seq<Case>, j: nat, r: Rules, h: Trace, live: Scope, fuel: nat,
                                         q: nat)
    requires j <= |cases| && IsContinue(ExecCases(w, cases, j, r, h, live, fuel), q)
    ensures ContinuesCases(cases, r, q)
    decreases fuel, cases, 0
  {
    var n := |cases| - 1;
    var first := ExecCases(w, cases[..n], j, r, h, live, fuel);
    if first.Fin? && first.out.Normal? {
      ListContinues(w, cases[n].body, r, first.h, [], fuel, q);
    } else {
      CasesContinue(w, cases[..n], j, r, h, live, fuel, q);
    }
  }
}
