/**
 Where the emitted code of a `for` does what the loop means.

 A round of the loop has a guard.  The emitted round is the meant one exactly when its guard holds; as
 long as all guards hold, a whole body is emitted as it is meant.
 */
module ForMeaning {
  import opened Options
  import opened Cfg
  import opened Source
  import opened ForScopes

  function In(r: Rules, mode: Mode): Rules {
    r.(mode := mode)
  }

  ghost predicate Strays(run: Run) {
    run.Fin? && run.out.Strayed?
  }

  // ---------------------------------------------------------------- counting destructions

  function Destructions(h: Trace): nat {
    if h == [] then 0 else Destructions(h[..|h| - 1]) + (if h[|h| - 1].Destroyed? then 1 else 0)
  }

  lemma {:induction false} DestructionsThen(a: Trace, b: Trace)
    ensures Destructions(a + b) == Destructions(a) + Destructions(b)
  {
    if b == [] {
      assert a + b == a;
    } else {
      DestructionsThen(a, b[..|b| - 1]);
      assert (a + b)[..|a + b| - 1] == a + b[..|b| - 1];
    }
  }

  lemma {:induction false} NoDestruction(w: World, e: Exp, h: Trace)
    ensures Destructions(Eval(w, e, h).1) == Destructions(h)
    decreases e, 1
  {
    match e
    case Const(_, _) =>
    case Read(_, _) =>
    case Invoke(f, args, ty) =>
      NoDestructions(w, args, h);
      var h1 := EvalAll(w, args, h).1;
      DestructionsThen(h1, [Called(f, EvalAll(w, args, h).0, Eval(w, e, h).0)]);
    case Assign(x, _, _, rhs) =>
      NoDestruction(w, rhs, h);
      DestructionsThen(Eval(w, rhs, h).1, [Stored(x, Eval(w, e, h).0)]);
    case Cond(c, yes, no) =>
      NoDestruction(w, c, h);
      NoDestruction(w, yes, Eval(w, c, h).1);
      NoDestruction(w, no, Eval(w, c, h).1);
    case _ =>
      NoDestruction(w, e.l, h);
      NoDestruction(w, e.r, Eval(w, e.l, h).1);
  }

  lemma {:induction false} NoDestructions(w: World, es: seq<Exp>, h: Trace)
    ensures Destructions(EvalAll(w, es, h).1) == Destructions(h)
    decreases es, 0
  {
    if es != [] {
      var n := |es| - 1;
      NoDestructions(w, es[..n], h);
      NoDestruction(w, es[n], EvalAll(w, es[..n], h).1);
    }
  }

  lemma {:induction false} UnwindCounts(scope: Scope)
    ensures Destructions(Unwind(scope, None)) == |Unwind(scope, None)|
    ensures Unwind(scope, None) == [] <==> Quiet(scope)
  {
    if scope != [] {
      UnwindCounts(scope[1..]);
      var last: Trace := if scope[0].dtor then [Destroyed(scope[0])] else [];
      assert last != [] ==> last[..|last| - 1] == [];
      DestructionsThen(Unwind(scope[1..], None), last);
      assert Unwind(scope, None) == Unwind(scope[1..], None) + last;
      assert Destructions([]) == 0;
    }
  }

  // ---------------------------------------------------------------- one round

  /** What a run of the body leaves of the loop's scope. */
  ghost predicate InLoopScope(run: Run, header: Scope, body: seq<Stmt>) {
    run.Fin? ==>
      && header <= run.live <= header + OwnLocals(body)
      && (run.out.Normal? ==> run.live == header + OwnLocals(body))
  }

  /**
   When the condition is false, the emitted code does as it should exactly if the header leaves nothing to destroy.
   */
  lemma LeavesExactly(h: Trace, header: Scope, live: Scope)
    ensures LeaveFor(h, header, live, AsEmitted) == LeaveFor(h, header, live, AsMeant) <==> Quiet(header)
    ensures Quiet(header) ==> LeaveFor(h, header, live, AsChecked) == LeaveFor(h, header, live, AsMeant)
  {
    UnwindCounts(header);
    assert |h + Unwind(header, None)| == |h| + |Unwind(header, None)|;
    if Quiet(header) { assert h + Unwind(header, None) == h; }
  }

  /** After the body, the emitted code does as it should exactly if the guard of the round holds. */
  lemma GuardIsExact(w: World, s: Stmt, run: Run, header: Scope, live: Scope)
    requires s.For? && InLoopScope(run, header, s.body)
    ensures AfterRound(w, s, run, header, live, AsEmitted) == AfterRound(w, s, run, header, live, AsMeant)
      <==> KeepsScope(run, header, s.body)
    ensures KeepsScope(run, header, s.body)
      ==> AfterRound(w, s, run, header, live, AsChecked) == AfterRound(w, s, run, header, live, AsMeant)
  {
    hide EvalAll, Close, Unwind;
    if run.Fin? && (AfterBody(run.out, true).Again? || AfterBody(run.out, true).Retry?) {
      var own, all := Beyond(run.live, header), header + OwnLocals(s.body);
      assert run.live == header + own;
      UnwindAppend(header, own, None);
      UnwindCounts(header);
      if AfterBody(run.out, true).Retry? || run.out.Normal? {
        ExtraDestructions(w, s.post, run.h, Unwind(own, None), Unwind(header, None));
      } else {
        ContinueIsExact(w, s.post, run.h, run.live, header, all);
      }
    }
  }

  /** Destroying the header as well makes a difference exactly if there is something to destroy. */
  lemma ExtraDestructions(w: World, post: seq<Exp>, h: Trace, own: Trace, more: Trace)
    ensures h + (own + more) == h + own <==> more == []
    ensures EvalAll(w, post, h).1 + (own + more) == EvalAll(w, post, h).1 + own <==> more == []
  {
    var h1 := EvalAll(w, post, h).1;
    assert |h + (own + more)| == |h + own| + |more| && |h1 + (own + more)| == |h1 + own| + |more|;
    if more == [] { assert own + more == own; }
  }

  /** A jump that has destroyed the locals already is harmless exactly if there are none to destroy. */
  lemma ContinueIsExact(w: World, post: seq<Exp>, h: Trace, live: Scope, header: Scope, all: Scope)
    requires header <= live <= all
    ensures EvalAll(w, post, h + Unwind(live, None)).1 + Unwind(all, None)
        == EvalAll(w, post, h).1 + Unwind(Beyond(live, header), None)
      <==> Quiet(all)
  {
    var own := Beyond(live, header);
    var left := EvalAll(w, post, h + Unwind(live, None)).1;
    var right := EvalAll(w, post, h).1;
    assert live == header + own;
    UnwindAppend(header, own, None);
    UnwindCounts(live);
    UnwindCounts(own);
    UnwindCounts(all);
    NoDestructions(w, post, h + Unwind(live, None));
    NoDestructions(w, post, h);
    DestructionsThen(h, Unwind(live, None));
    DestructionsThen(left, Unwind(all, None));
    DestructionsThen(right, Unwind(own, None));
    assert |Unwind(live, None)| >= |Unwind(own, None)|;
    if Quiet(all) {
      assert Quiet(live) && Quiet(own);
      assert h + [] == h && left + [] == left && right + [] == right;
    }
  }

  /** The guard of a whole round: of its condition, and of what follows the body. */
  ghost predicate RoundKeeps(w: World, s: Stmt, r: Rules, h: Trace, header: Scope, fuel: nat, atBody: bool)
    requires s.For?
  {
    var (c, h1) := if atBody then (true, h) else EvalCond(w, s.cond, h);
    if !c then Quiet(header)
    else KeepsScope(ExecList(w, s.body, In(r.(depth := InWhile(r.depth)), AsMeant), h1, header, fuel), header, s.body)
  }

  /** The body of the loop is emitted as it is meant. */
  ghost predicate BodyAgrees(w: World, s: Stmt, r: Rules, header: Scope)
    requires s.For?
  {
    var inner := r.(depth := InWhile(r.depth));
    forall h: Trace, fuel: nat ::
      ExecList(w, s.body, In(inner, AsEmitted), h, header, fuel)
          == ExecList(w, s.body, In(inner, AsMeant), h, header, fuel)
  }

  /** One round of a loop is emitted as it is meant if and only if its guard holds. */
  lemma RoundAgreesExactly(w: World, s: Stmt, r: Rules, h: Trace, header: Scope, live: Scope, fuel: nat, atBody: bool)
    requires s.For? && BodyAgrees(w, s, r, header)
    ensures ForRound(w, s, In(r, AsEmitted), h, header, live, fuel, atBody)
        == ForRound(w, s, In(r, AsMeant), h, header, live, fuel, atBody)
      <==> RoundKeeps(w, s, r, h, header, fuel, atBody)
  {
    hide ExecList, AfterRound, LeaveFor, KeepsScope;
    var (c, h1) := if atBody then (true, h) else EvalCond(w, s.cond, h);
    if !c {
      LeavesExactly(h1, header, live);
    } else {
      var inner := In(r.(depth := InWhile(r.depth)), AsMeant);
      var run := ExecList(w, s.body, inner, h1, header, fuel);
      ListGrows(w, s.body, inner, h1, header, fuel);
      GuardIsExact(w, s, run, header, live);
      assert run == ExecList(w, s.body, In(inner, AsEmitted), h1, header, fuel);
    }
  }

  /** AsEmitted and meant loop go along: they test and start the body at the same times, and leave alike. */
  ghost predicate InStep(w: World, s: Stmt, r: Rules, h: Trace, header: Scope, live: Scope, fuel: nat, atBody: bool)
    requires s.For?
    decreases fuel
  {
    var round := ForRound(w, s, In(r, AsMeant), h, header, live, fuel, atBody);
    fuel > 0 ==>
      && ForRound(w, s, In(r, AsEmitted), h, header, live, fuel, atBody) == round
      && (round.Goes? ==> InStep(w, s, r, round.h, header, live, fuel - 1, round.atBody))
  }

  /** The guards of all rounds that the loop makes hold. */
  ghost predicate LoopKeeps(w: World, s: Stmt, r: Rules, h: Trace, header: Scope, live: Scope, fuel: nat, atBody: bool)
    requires s.For?
    decreases fuel
  {
    var round := ForRound(w, s, In(r, AsMeant), h, header, live, fuel, atBody);
    fuel > 0 ==>
      && RoundKeeps(w, s, r, h, header, fuel, atBody)
      && (round.Goes? ==> LoopKeeps(w, s, r, round.h, header, live, fuel - 1, round.atBody))
  }

  /**
   A loop is emitted as it is meant, round by round, if and only if the guards of its rounds hold; and
   then it ends as it should.
   */
  lemma {:induction false} LoopAgreesExactly(w: World, s: Stmt, r: Rules, h: Trace, header: Scope, live: Scope,
                                             fuel: nat, atBody: bool)
    requires s.For? && BodyAgrees(w, s, r, header)
    ensures InStep(w, s, r, h, header, live, fuel, atBody) <==> LoopKeeps(w, s, r, h, header, live, fuel, atBody)
    ensures LoopKeeps(w, s, r, h, header, live, fuel, atBody)
      ==> ExecFor(w, s, In(r, AsEmitted), h, header, live, fuel, atBody)
          == ExecFor(w, s, In(r, AsMeant), h, header, live, fuel, atBody)
    decreases fuel
  {
    hide ForRound, RoundKeeps, BodyAgrees;
    if fuel > 0 {
      RoundAgreesExactly(w, s, r, h, header, live, fuel, atBody);
      var round := ForRound(w, s, In(r, AsMeant), h, header, live, fuel, atBody);
      if round.Goes? {
        LoopAgreesExactly(w, s, r, round.h, header, live, fuel - 1, round.atBody);
      }
    }
  }

  // ---------------------------------------------------------------- whole bodies

  lemma {:induction false} StmtAgrees(w: World, s: Stmt, r: Rules, mode: Mode, h: Trace, live: Scope, fuel: nat)
    requires !Strays(Exec(w, s, In(r, AsChecked), h, live, fuel))
    ensures Exec(w, s, In(r, mode), h, live, fuel) == Exec(w, s, In(r, AsChecked), h, live, fuel)
    decreases fuel, s, 2
  {
    match s
    case Loop(_) => LoopAgrees(w, s, r, mode, h, live, fuel);
    case While(_, _, doWhile, _) => WhileAgrees(w, s, r, mode, h, live, fuel, doWhile);
    case Switch(on, cases) =>
      var (v, h1) := Eval(w, on, h);
      CasesAgree(w, cases, Selected(cases, v), r.(depth := InSwitch(r.depth)), mode, h1, live, fuel);
    case For(pre, _, _, _) =>
      var (h1, header) := ExecPlains(w, pre, h, []);
      ForAgrees(w, s, r, mode, h1, header, live, fuel, false);
    case If(c, thn, els) =>
      var (v, h1) := Eval(w, c, h);
      if v != 0 {
        ListAgrees(w, thn, r, mode, h1, [], fuel);
      } else if els.Else? {
        ListAgrees(w, els.stmts, r, mode, h1, [], fuel);
      }
    case _ =>
  }

  lemma {:induction false} ListAgrees(w: World, ss: seq<Stmt>, r: Rules, mode: Mode, h: Trace, live: Scope, fuel: nat)
    requires !Strays(ExecList(w, ss, In(r, AsChecked), h, live, fuel))
    ensures ExecList(w, ss, In(r, mode), h, live, fuel) == ExecList(w, ss, In(r, AsChecked), h, live, fuel)
    decreases fuel, ss, 0
  {
    hide Exec;
    if ss != [] {
      var n := |ss| - 1;
      var first := ExecList(w, ss[..n], In(r, AsChecked), h, live, fuel);
      ListAgrees(w, ss[..n], r, mode, h, live, fuel);
      if first.Fin? && first.out.Normal? {
        StmtAgrees(w, ss[n], r, mode, first.h, first.live, fuel);
      }
    }
  }

  lemma {:induction false} LoopAgrees(w: World, s: Stmt, r: Rules, mode: Mode, h: Trace, live: Scope, fuel: nat)
    requires s.Loop? && !Strays(ExecLoop(w, s, In(r, AsChecked), h, live, fuel))
    ensures ExecLoop(w, s, In(r, mode), h, live, fuel) == ExecLoop(w, s, In(r, AsChecked), h, live, fuel)
    decreases fuel, s, 0
  {
    hide ExecList;
    if fuel > 0 {
      var inner := r.(depth := InLoop(r.depth));
      var run := ExecList(w, s.body, In(inner, AsChecked), h, [], fuel);
      ListAgrees(w, s.body, inner, mode, h, [], fuel);
      if run.Fin? && AfterBody(run.out, false).Again? {
        LoopAgrees(w, s, r, mode, Close(run, live).h, live, fuel - 1);
      }
    }
  }

  lemma {:induction false} WhileAgrees(w: World, s: Stmt, r: Rules, mode: Mode, h: Trace, live: Scope, fuel: nat,
                                       atBody: bool)
    requires s.While? && !Strays(ExecWhile(w, s, In(r, AsChecked), h, live, fuel, atBody))
    ensures ExecWhile(w, s, In(r, mode), h, live, fuel, atBody)
        == ExecWhile(w, s, In(r, AsChecked), h, live, fuel, atBody)
    decreases fuel, s, 0
  {
    hide ExecList, EvalCond;
    if fuel > 0 {
      var (c, h1) := if atBody then (!s.until, h) else EvalCond(w, s.cond, h);
      if c != s.until {
        var inner := r.(depth := InWhile(r.depth));
        var run := ExecList(w, s.body, In(inner, AsChecked), h1, [], fuel);
        ListAgrees(w, s.body, inner, mode, h1, [], fuel);
        if run.Fin? && (AfterBody(run.out, true).Again? || AfterBody(run.out, true).Retry?) {
          WhileAgrees(w, s, r, mode, Close(run, live).h, live, fuel - 1, AfterBody(run.out, true).Retry?);
        }
      }
    }
  }

  lemma {:induction false} ForAgrees(w: World, s: Stmt, r: Rules, mode: Mode, h: Trace, header: Scope, live: Scope,
                                     fuel: nat, atBody: bool)
    requires s.For? && !Strays(ExecFor(w, s, In(r, AsChecked), h, header, live, fuel, atBody))
    ensures ExecFor(w, s, In(r, mode), h, header, live, fuel, atBody)
        == ExecFor(w, s, In(r, AsChecked), h, header, live, fuel, atBody)
    decreases fuel, s, 1
  {
    hide ForRound;
    if fuel > 0 {
      var round := ForRound(w, s, In(r, AsChecked), h, header, live, fuel, atBody);
      RoundAgrees(w, s, r, mode, h, header, live, fuel, atBody);
      if round.Goes? {
        ForAgrees(w, s, r, mode, round.h, header, live, fuel - 1, round.atBody);
      }
    }
  }

  lemma {:induction false} RoundAgrees(w: World, s: Stmt, r: Rules, mode: Mode, h: Trace, header: Scope, live: Scope,
                                       fuel: nat, atBody: bool)
    requires s.For?
    requires
      var round := ForRound(w, s, In(r, AsChecked), h, header, live, fuel, atBody);
      round.Leaves? ==> !Strays(round.run)
    ensures ForRound(w, s, In(r, mode), h, header, live, fuel, atBody)
        == ForRound(w, s, In(r, AsChecked), h, header, live, fuel, atBody)
    decreases fuel, s, 0
  {
    hide ExecList, AfterRound, LeaveFor, EvalCond;
    var (c, h1) := if atBody then (true, h) else EvalCond(w, s.cond, h);
    if !c {
      CheckedLeaves(h1, header, live);
      LeavesExactly(h1, header, live);
    } else {
      var inner := r.(depth := InWhile(r.depth));
      var run := ExecList(w, s.body, In(inner, AsChecked), h1, header, fuel);
      CheckedKeeps(w, s, run, header, live);
      ListAgrees(w, s.body, inner, mode, h1, header, fuel);
      ListGrows(w, s.body, In(inner, AsChecked), h1, header, fuel);
      GuardIsExact(w, s, run, header, live);
    }
  }

  lemma CheckedLeaves(h: Trace, header: Scope, live: Scope)
    ensures !Strays(LeaveFor(h, header, live, AsChecked)) <==> Quiet(header)
  {
  }

  lemma CheckedKeeps(w: World, s: Stmt, run: Run, header: Scope, live: Scope)
    requires s.For?
    requires
      var round := AfterRound(w, s, run, header, live, AsChecked);
      round.Leaves? ==> !Strays(round.run)
    ensures KeepsScope(run, header, s.body) && !Strays(run)
  {
  }

  /** The checked reading of a loop stops exactly where a guard fails. */
  lemma {:induction false} StraysExactly(w: World, s: Stmt, r: Rules, h: Trace, header: Scope, live: Scope, fuel: nat,
                                         atBody: bool)
    requires s.For?
    requires forall h1: Trace, f: nat :: !Strays(ExecList(w, s.body, In(r.(depth := InWhile(r.depth)), AsChecked), h1,
                                                          header, f))
    ensures Strays(ExecFor(w, s, In(r, AsChecked), h, header, live, fuel, atBody))
        <==> !LoopKeeps(w, s, r, h, header, live, fuel, atBody)
    decreases fuel
  {
    hide ExecList, EvalCond, AfterRound, KeepsScope;
    if fuel > 0 {
      var (c, h1) := if atBody then (true, h) else EvalCond(w, s.cond, h);
      if !c {
        CheckedLeaves(h1, header, live);
        LeavesExactly(h1, header, live);
      } else {
        var inner := r.(depth := InWhile(r.depth));
        var run := ExecList(w, s.body, In(inner, AsChecked), h1, header, fuel);
        ListAgrees(w, s.body, inner, AsMeant, h1, header, fuel);
        ListGrows(w, s.body, In(inner, AsChecked), h1, header, fuel);
        GuardIsExact(w, s, run, header, live);
        CheckedExactly(w, s, run, header, live);
        var round := AfterRound(w, s, run, header, live, AsMeant);
        if round.Goes? && KeepsScope(run, header, s.body) {
          StraysExactly(w, s, r, round.h, header, live, fuel - 1, round.atBody);
        }
      }
    }
  }

  lemma CheckedExactly(w: World, s: Stmt, run: Run, header: Scope, live: Scope)
    requires s.For? && !Strays(run)
    ensures
      var round := AfterRound(w, s, run, header, live, AsChecked);
      (round.Leaves? && Strays(round.run)) <==> !KeepsScope(run, header, s.body)
  {
  }

  lemma {:induction false} CasesAgree(w: World, cases: seq<Case>, j: nat, r: Rules, mode: Mode, h: Trace, live: Scope,
                                      fuel: nat)
    requires j <= |cases| && !Strays(ExecCases(w, cases, j, In(r, AsChecked), h, live, fuel))
    ensures ExecCases(w, cases, j, In(r, mode), h, live, fuel)
        == ExecCases(w, cases, j, In(r, AsChecked), h, live, fuel)
    decreases fuel, cases, 0
  {
    hide ExecList;
    if j < |cases| {
      var n := |cases| - 1;
      var first := ExecCases(w, cases[..n], j, In(r, AsChecked), h, live, fuel);
      CasesAgree(w, cases[..n], j, r, mode, h, live, fuel);
      if first.Fin? && first.out.Normal? {
        ListAgrees(w, cases[n].body, r, mode, first.h, [], fuel);
      }
    }
  }

  // ---------------------------------------------------------------- bodies that never stray

  lemma {:induction false} StmtStays(w: World, s: Stmt, r: Rules, h: Trace, live: Scope, fuel: nat)
    requires r.mode.AsChecked? && ForSafe(s, r)
    ensures !Strays(Exec(w, s, r, h, live, fuel))
    decreases fuel, s, 2
  {
    match s
    case Loop(_) => LoopStays(w, s, r, h, live, fuel);
    case While(_, _, doWhile, _) => WhileStays(w, s, r, h, live, fuel, doWhile);
    case Switch(on, cases) =>
      var (v, h1) := Eval(w, on, h);
      CasesStay(w, cases, Selected(cases, v), r.(depth := InSwitch(r.depth)), h1, live, fuel);
    case For(pre, _, _, _) =>
      var (h1, header) := ExecPlains(w, pre, h, []);
      PlainsGrow(w, pre, h, []);
      assert header == OwnPlains(pre);
      ForStays(w, s, r, h1, header, live, fuel, false);
    case If(c, thn, els) =>
      var (v, h1) := Eval(w, c, h);
      if v != 0 {
        ListStays(w, thn, r, h1, [], fuel);
      } else if els.Else? {
        ListStays(w, els.stmts, r, h1, [], fuel);
      }
    case _ =>
  }

  lemma {:induction false} ListStays(w: World, ss: seq<Stmt>, r: Rules, h: Trace, live: Scope, fuel: nat)
    requires r.mode.AsChecked? && AllForSafe(ss, r)
    ensures !Strays(ExecList(w, ss, r, h, live, fuel))
    decreases fuel, ss, 0
  {
    hide Exec, ForSafe;
    if ss != [] {
      var n := |ss| - 1;
      var first := ExecList(w, ss[..n], r, h, live, fuel);
      ListStays(w, ss[..n], r, h, live, fuel);
      if first.Fin? && first.out.Normal? {
        StmtStays(w, ss[n], r, first.h, first.live, fuel);
      }
    }
  }

  lemma {:induction false} LoopStays(w: World, s: Stmt, r: Rules, h: Trace, live: Scope, fuel: nat)
    requires s.Loop? && r.mode.AsChecked? && AllForSafe(s.body, r.(depth := InLoop(r.depth)))
    ensures !Strays(ExecLoop(w, s, r, h, live, fuel))
    decreases fuel, s, 0
  {
    hide ExecList, AllForSafe;
    if fuel > 0 {
      var inner := r.(depth := InLoop(r.depth));
      var run := ExecList(w, s.body, inner, h, [], fuel);
      ListStays(w, s.body, inner, h, [], fuel);
      if run.Fin? && AfterBody(run.out, false).Again? {
        LoopStays(w, s, r, Close(run, live).h, live, fuel - 1);
      }
    }
  }

  lemma {:induction false} WhileStays(w: World, s: Stmt, r: Rules, h: Trace, live: Scope, fuel: nat, atBody: bool)
    requires s.While? && r.mode.AsChecked? && AllForSafe(s.body, r.(depth := InWhile(r.depth)))
    ensures !Strays(ExecWhile(w, s, r, h, live, fuel, atBody))
    decreases fuel, s, 0
  {
    hide ExecList, AllForSafe, EvalCond;
    if fuel > 0 {
      var (c, h1) := if atBody then (!s.until, h) else EvalCond(w, s.cond, h);
      if c != s.until {
        var inner := r.(depth := InWhile(r.depth));
        var run := ExecList(w, s.body, inner, h1, [], fuel);
        ListStays(w, s.body, inner, h1, [], fuel);
        if run.Fin? && (AfterBody(run.out, true).Again? || AfterBody(run.out, true).Retry?) {
          WhileStays(w, s, r, Close(run, live).h, live, fuel - 1, AfterBody(run.out, true).Retry?);
        }
      }
    }
  }

  lemma {:induction false} ForStays(w: World, s: Stmt, r: Rules, h: Trace, header: Scope, live: Scope, fuel: nat,
                                    atBody: bool)
    requires s.For? && r.mode.AsChecked? && ForSafe(s, r) && Quiet(header)
    ensures !Strays(ExecFor(w, s, r, h, header, live, fuel, atBody))
    decreases fuel, s, 1
  {
    hide ExecList, AfterRound, EvalCond;
    if fuel > 0 {
      var round := ForRound(w, s, r, h, header, live, fuel, atBody);
      var (c, h1) := if atBody then (true, h) else EvalCond(w, s.cond, h);
      if c {
        var inner := r.(depth := InWhile(r.depth));
        var run := ExecList(w, s.body, inner, h1, header, fuel);
        ListStays(w, s.body, inner, h1, header, fuel);
        if IsContinue(run, 1) { ListContinues(w, s.body, inner, h1, header, fuel, 1); }
        GuardHolds(w, s, run, header, live);
      }
      if round.Goes? {
        ForStays(w, s, r, round.h, header, live, fuel - 1, round.atBody);
      }
    }
  }

  lemma GuardHolds(w: World, s: Stmt, run: Run, header: Scope, live: Scope)
    requires s.For? && Quiet(header) && !Strays(run) && (IsContinue(run, 1) ==> Quiet(OwnLocals(s.body)))
    ensures
      var round := AfterRound(w, s, run, header, live, AsChecked);
      round.Leaves? ==> !Strays(round.run)
  {
    hide EvalAll, Unwind;
  }

  lemma {:induction false} CasesStay(w: World, cases: seq<Case>, j: nat, r: Rules, h: Trace, live: Scope, fuel: nat)
    requires j <= |cases| && r.mode.AsChecked? && CasesForSafe(cases, r)
    ensures !Strays(ExecCases(w, cases, j, r, h, live, fuel))
    decreases fuel, cases, 0
  {
    hide ExecList, AllForSafe;
    if j < |cases| {
      var n := |cases| - 1;
      var first := ExecCases(w, cases[..n], j, r, h, live, fuel);
      CasesStay(w, cases[..n], j, r, h, live, fuel);
      if first.Fin? && first.out.Normal? {
        ListStays(w, cases[n].body, r, first.h, [], fuel);
      }
    }
  }
}
