/** Laws between the loops, and of switch: what one kind of statement does, others do. */
module LoopLaws {
  import opened Options
  import opened Cfg
  import opened Source

  /** The condition that is 1 where `c` tests false, and else 0. */
  function Not(c: Exp): Exp {
    Cond(c, Const(0, TBool), Const(1, TBool))
  }

  lemma NotTests(w: World, c: Exp, h: Trace)
    ensures
      var (v, h1) := Eval(w, c, h);
      EvalCond(w, Some(Not(c)), h) == (v == 0, h1)
  {
    var h1 := Eval(w, c, h).1;
    assert Eval(w, Const(0, TBool), h1) == (0, h1) && Eval(w, Const(1, TBool), h1) == (1, h1);
  }

  /** `until` goes on as long as its condition tests false: it is `while` with the condition turned round. */
  lemma UntilIsWhileNot(w: World, c: Exp, body: seq<Stmt>, doWhile: bool, r: Rules, h: Trace, live: Scope, fuel: nat)
    ensures Exec(w, While(Some(c), body, doWhile, true), r, h, live, fuel)
      == Exec(w, While(Some(Not(c)), body, doWhile, false), r, h, live, fuel)
  {
    UntilRounds(w, c, body, doWhile, r, h, live, fuel, doWhile);
  }

  lemma {:induction false} UntilRounds(w: World, c: Exp, body: seq<Stmt>, doWhile: bool, r: Rules, h: Trace,
                                       live: Scope, fuel: nat, atBody: bool)
    ensures ExecWhile(w, While(Some(c), body, doWhile, true), r, h, live, fuel, atBody)
      == ExecWhile(w, While(Some(Not(c)), body, doWhile, false), r, h, live, fuel, atBody)
    decreases fuel
  {
    hide ExecList, Eval, Close;
    if fuel > 0 {
      NotTests(w, c, h);
      var h1 := if atBody then h else EvalCond(w, Some(c), h).1;
      var run := Close(ExecList(w, body, r.(depth := InWhile(r.depth)), h1, [], fuel), live);
      if run.Fin? {
        UntilRounds(w, c, body, doWhile, r, run.h, live, fuel - 1, false);
        UntilRounds(w, c, body, doWhile, r, run.h, live, fuel - 1, true);
      }
    }
  }

  /** `do` runs its body first, and is from then on the same loop without it. */
  lemma DoIsBodyFirst(w: World, c: Option<Exp>, body: seq<Stmt>, until: bool, r: Rules, h: Trace, live: Scope,
                      fuel: nat)
    requires fuel > 0
    ensures
      var first := Close(ExecList(w, body, r.(depth := InWhile(r.depth)), h, [], fuel), live);
      first.Fin? && first.out.Normal? ==>
        Exec(w, While(c, body, true, until), r, h, live, fuel)
        == Exec(w, While(c, body, false, until), r, first.h, live, fuel - 1)
  {
    var first := Close(ExecList(w, body, r.(depth := InWhile(r.depth)), h, [], fuel), live);
    if first.Fin? && first.out.Normal? { SameRounds(w, c, body, until, r, first.h, live, fuel - 1, false); }
  }

  /** Past its start, a loop does not depend on whether its body stood first. */
  lemma {:induction false} SameRounds(w: World, c: Option<Exp>, body: seq<Stmt>, until: bool, r: Rules, h: Trace,
                                      live: Scope, fuel: nat, atBody: bool)
    ensures ExecWhile(w, While(c, body, true, until), r, h, live, fuel, atBody)
      == ExecWhile(w, While(c, body, false, until), r, h, live, fuel, atBody)
    decreases fuel
  {
    hide ExecList, Eval, Close;
    if fuel > 0 {
      var h1 := if atBody then h else EvalCond(w, c, h).1;
      var run := Close(ExecList(w, body, r.(depth := InWhile(r.depth)), h1, [], fuel), live);
      if run.Fin? {
        SameRounds(w, c, body, until, r, run.h, live, fuel - 1, false);
        SameRounds(w, c, body, until, r, run.h, live, fuel - 1, true);
      }
    }
  }

  /** As it is meant, a `for` with nothing before and after its rounds is a `while`. */
  lemma ForIsWhile(w: World, c: Option<Exp>, body: seq<Stmt>, r: Rules, h: Trace, live: Scope, fuel: nat)
    requires r.mode == AsMeant
    ensures Exec(w, For([], c, [], body), r, h, live, fuel) == Exec(w, While(c, body, false, false), r, h, live, fuel)
  {
    ForRounds(w, c, body, r, h, live, fuel, false);
  }

  lemma {:induction false} ForRounds(w: World, c: Option<Exp>, body: seq<Stmt>, r: Rules, h: Trace, live: Scope,
                                     fuel: nat, atBody: bool)
    requires r.mode == AsMeant
    ensures ExecFor(w, For([], c, [], body), r, h, [], live, fuel, atBody)
      == ExecWhile(w, While(c, body, false, false), r, h, live, fuel, atBody)
    decreases fuel
  {
    hide ExecList, Eval;
    if fuel > 0 {
      var (goes, h1) := if atBody then (true, h) else EvalCond(w, c, h);
      if goes {
        var run := ExecList(w, body, r.(depth := InWhile(r.depth)), h1, [], fuel);
        RoundAlike(w, For([], c, [], body), run, live);
        if run.Fin? {
          var closed := Close(run, live);
          ForRounds(w, c, body, r, closed.h, live, fuel - 1, false);
          ForRounds(w, c, body, r, closed.h, live, fuel - 1, true);
        }
      }
    }
  }

  /** What follows the body of such a `for` is what follows the body of a `while`. */
  lemma RoundAlike(w: World, s: Stmt, run: Run, live: Scope)
    requires s.For? && s.post == []
    ensures
      var round, closed := AfterRound(w, s, run, [], live, AsMeant), Close(run, live);
      if run.OutOfFuel? then round == Leaves(run)
      else
        match AfterBody(closed.out, true)
        case Again => round == Goes(closed.h, false)
        case Retry => round == Goes(closed.h, true)
        case Stop => round == Leaves(Fin(closed.h, live, Normal))
        case Pass(out) => round == Leaves(Fin(closed.h, live, out))
  {
    if run.Fin? {
      assert Beyond(run.live, []) == run.live;
    }
  }

  // ---------------------------------------------------------------- switch

  /** The bodies of the cases as statements, each in a scope of its own. */
  function Blocks(cases: seq<Case>): seq<Stmt> {
    seq(|cases|, i requires 0 <= i < |cases| => If(Const(1, TBool), cases[i].body, NoElse))
  }

  /** Control falls through the cases from number `j` on as through a list of blocks. */
  lemma {:induction false} CasesAreBlocks(w: World, cases: seq<Case>, j: nat, r: Rules, h: Trace, live: Scope,
                                          fuel: nat)
    requires j <= |cases|
    ensures ExecCases(w, cases, j, r, h, live, fuel) == ExecList(w, Blocks(cases[j..]), r, h, live, fuel)
    ensures var run := ExecCases(w, cases, j, r, h, live, fuel); run.Fin? ==> run.live == live
    decreases |cases|
  {
    hide Close, Exec, ExecList, ExecCases, Blocks;
    LastCase(w, cases, j, r, h, live, fuel);
    if j < |cases| {
      var n := |cases| - 1;
      CasesAreBlocks(w, cases[..n], j, r, h, live, fuel);
      BlocksGrow(cases, j);
      LastBlock(w, Blocks(cases[..n][j..]), cases[n].body, r, h, live, fuel);
      var first := ExecCases(w, cases[..n], j, r, h, live, fuel);
      ClosedIn(ExecList(w, cases[n].body, r, first.h, [], fuel), live);
    } else {
      NoBlocks(w, cases[j..], r, h, live, fuel);
    }
  }

  lemma ClosedIn(run: Run, live: Scope)
    ensures Close(run, live).Fin? ==> Close(run, live).live == live
  {
  }

  lemma BlocksGrow(cases: seq<Case>, j: nat)
    requires j < |cases|
    ensures
      var n := |cases| - 1;
      Blocks(cases[j..]) == Blocks(cases[..n][j..]) + [If(Const(1, TBool), cases[n].body, NoElse)]
  {
  }

  lemma NoBlocks(w: World, cases: seq<Case>, r: Rules, h: Trace, live: Scope, fuel: nat)
    requires cases == []
    ensures ExecList(w, Blocks(cases), r, h, live, fuel) == Fin(h, live, Normal)
  {
  }

  lemma LastCase(w: World, cases: seq<Case>, j: nat, r: Rules, h: Trace, live: Scope, fuel: nat)
    requires j <= |cases|
    ensures
      var n := |cases| - 1;
      ExecCases(w, cases, j, r, h, live, fuel)
      == if j == |cases| then Fin(h, live, Normal)
         else
           var first := ExecCases(w, cases[..n], j, r, h, live, fuel);
           if first.Fin? && first.out.Normal? then Close(ExecList(w, cases[n].body, r, first.h, [], fuel), live)
           else first
  {
    hide Close, ExecList;
  }

  lemma LastBlock(w: World, ss: seq<Stmt>, body: seq<Stmt>, r: Rules, h: Trace, live: Scope, fuel: nat)
    ensures
      var first := ExecList(w, ss, r, h, live, fuel);
      ExecList(w, ss + [If(Const(1, TBool), body, NoElse)], r, h, live, fuel)
      == if first.Fin? && first.out.Normal? then Close(ExecList(w, body, r, first.h, [], fuel), first.live) else first
  {
    hide Close;
    var all, block := ss + [If(Const(1, TBool), body, NoElse)], If(Const(1, TBool), body, NoElse);
    assert all[..|all| - 1] == ss && all[|all| - 1] == block;
    var first := ExecList(w, ss, r, h, live, fuel);
    if first.Fin? { assert Eval(w, Const(1, TBool), first.h) == (1, first.h); }
  }

  /** Where a value goes: the first case with it, or the first default, or past the cases. */
  ghost predicate Leads(cases: seq<Case>, v: int, j: nat) {
    && j <= |cases|
    && (j < |cases| ==>
      && (cases[j].value == Some(v) || (cases[j].value == None && forall c | c in cases :: c.value != Some(v)))
      && forall i | 0 <= i < j :: cases[i].value != cases[j].value)
    && (j == |cases| ==> forall c | c in cases :: c.value != Some(v) && c.value != None)
  }

  /** A switch runs the blocks from the case that its value leads to; a `break` ends it, or has one level less to go. */
  lemma SwitchIsItsBlocks(w: World, on: Exp, cases: seq<Case>, r: Rules, h: Trace, live: Scope, fuel: nat, j: nat)
    requires Leads(cases, Eval(w, on, h).0, j)
    ensures
      var inner := r.(depth := r.depth.(brk := r.depth.brk + 1));
      var run := ExecList(w, Blocks(cases[j..]), inner, Eval(w, on, h).1, live, fuel);
      var all := Exec(w, Switch(on, cases), r, h, live, fuel);
      && (run.OutOfFuel? || !run.out.Jumped? || run.out.kind != Break ==> all == run)
      && (run.Fin? && run.out == Jumped(Break, 1) ==> all == run.(out := Normal))
      && (run.Fin? && run.out.Jumped? && run.out.kind == Break && run.out.outward > 1 ==>
        all == run.(out := Jumped(Break, run.out.outward - 1)))
  {
    hide Eval, ExecList;
    var (v, h1) := Eval(w, on, h);
    LeadsToSelected(cases, v, j);
    CasesAreBlocks(w, cases, j, r.(depth := InSwitch(r.depth)), h1, live, fuel);
  }

  lemma LeadsToSelected(cases: seq<Case>, v: int, j: nat)
    requires Leads(cases, v, j)
    ensures j == Selected(cases, v)
  {
  }
}
