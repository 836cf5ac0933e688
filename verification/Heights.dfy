/**
 How many destructable locals are alive along a run, as it is meant.

 Statements never destroy what was there before them, and a loop's header is destroyed with the very
 last events of the loop.
 */
module Heights {
  import opened Options
  import opened Cfg
  import opened Source
  import opened ForScopes

  // ---------------------------------------------------------------- heights

  function Change(e: Event): int {
    match e
    case Constructed(l, _) => if l.dtor then 1 else 0
    case Destroyed(_) => -1
    case _ => 0
  }

  /** The constructions of destructable locals in a trace, less the destructions. */
  function Height(h: Trace): int {
    if h == [] then 0 else Height(h[..|h| - 1]) + Change(h[|h| - 1])
  }

  /** From trace `a` on to trace `b`, the height is never below `low`. */
  ghost predicate Above(a: Trace, b: Trace, low: int) {
    a <= b && forall k | |a| <= k <= |b| :: Height(b[..k]) >= low
  }

  /** From trace `a` on to trace `b`, the height is above `low`, until `b` is reached. */
  ghost predicate AboveUntil(a: Trace, b: Trace, low: int) {
    a <= b && forall k | |a| <= k < |b| :: Height(b[..k]) > low
  }

  lemma AboveSelf(a: Trace, low: int)
    requires Height(a) >= low
    ensures Above(a, a, low)
  {
    assert a[..|a|] == a;
  }

  lemma AboveThen(a: Trace, b: Trace, c: Trace, low: int)
    requires Above(a, b, low) && Above(b, c, low)
    ensures Above(a, c, low)
  {
    forall k | |a| <= k <= |c| ensures Height(c[..k]) >= low {
      if k <= |b| { assert c[..k] == b[..k]; }
    }
  }

  lemma AboveUntilThen(a: Trace, b: Trace, c: Trace, low: int)
    requires Above(a, b, low + 1) && AboveUntil(b, c, low)
    ensures AboveUntil(a, c, low)
  {
    forall k | |a| <= k < |c| ensures Height(c[..k]) > low {
      if k < |b| { assert c[..k] == b[..k]; }
    }
  }

  lemma AboveLess(a: Trace, b: Trace, low: int, lower: int)
    requires Above(a, b, low) && lower <= low
    ensures Above(a, b, lower) && a <= b && Height(b) >= lower
  {
    assert b[..|b|] == b;
  }

  lemma AboveOne(h: Trace, e: Event, low: int)
    requires Height(h) >= low && Height(h) + Change(e) >= low
    ensures Above(h, h + [e], low) && Height(h + [e]) == Height(h) + Change(e)
  {
    assert (h + [e])[..|h + [e]| - 1] == h && (h + [e])[..|h + [e]|] == h + [e];
  }

  // ---------------------------------------------------------------- scopes

  function Dtors(scope: Scope): nat {
    if scope == [] then 0 else Dtors(scope[1..]) + (if scope[0].dtor then 1 else 0)
  }

  lemma {:induction false} DtorsThen(a: Scope, b: Scope)
    ensures Dtors(a + b) == Dtors(a) + Dtors(b)
  {
    if a == [] {
      assert a + b == b;
    } else {
      DtorsThen(a[1..], b);
      assert (a + b)[1..] == a[1..] + b;
    }
  }

  lemma {:induction false} QuietHasNone(scope: Scope)
    ensures Quiet(scope) <==> Dtors(scope) == 0
  {
    if scope != [] {
      QuietHasNone(scope[1..]);
      assert Quiet(scope) <==> !scope[0].dtor && Quiet(scope[1..]) by {
        if !scope[0].dtor && Quiet(scope[1..]) {
          forall i | 0 <= i < |scope| ensures !scope[i].dtor { if i > 0 { assert scope[1..][i - 1] == scope[i]; } }
        }
        if Quiet(scope) { forall i | 0 <= i < |scope| - 1 ensures !scope[1..][i].dtor { assert scope[i + 1]
            == scope[1..][i]; } }
      }
    }
  }

  function SparedBy(scope: Scope, moved: Option<Symbol>): nat {
    var l := Named(scope, moved);
    if l.Some? && l.value.dtor then 1 else 0
  }

  lemma {:induction false} UnwindLength(scope: Scope, moved: Option<Symbol>)
    ensures moved.None? ==> |Unwind(scope, moved)| == Dtors(scope)
    ensures |Unwind(scope, moved)| <= Dtors(scope)
    ensures (exists l | l in scope :: l.dtor && Some(l.x) == moved) ==> |Unwind(scope, moved)| < Dtors(scope)
    ensures forall e | e in Unwind(scope, moved) :: e.Destroyed?
  {
    if scope != [] {
      UnwindLength(scope[1..], moved);
      if l :| l in scope && l.dtor && Some(l.x) == moved {
        assert l == scope[0] || l in scope[1..];
      }
    }
  }

  lemma {:induction false} FallsBy(h: Trace, t: Trace)
    requires forall e | e in t :: e.Destroyed?
    ensures Above(h, h + t, Height(h) - |t|) && Height(h + t) == Height(h) - |t|
    ensures AboveUntil(h, h + t, Height(h) - |t|)
  {
    if t == [] {
      assert h + t == h;
      AboveSelf(h, Height(h));
    } else {
      var n := |t| - 1;
      assert t[n] in t;
      FallsBy(h, t[..n]);
      assert h + t == (h + t[..n]) + [t[n]];
      AboveOne(h + t[..n], t[n], Height(h) - |t|);
      AboveLess(h, h + t[..n], Height(h) - n, Height(h) - |t|);
      AboveThen(h, h + t[..n], h + t, Height(h) - |t|);
      AboveUntilThen(h, h + t[..n], h + t, Height(h) - |t|);
    }
  }

  /** Closing a scope takes away what it has, but for the local that is moved out. */
  lemma UnwindFalls(h: Trace, scope: Scope, moved: Option<Symbol>)
    ensures
      var h1 := h + Unwind(scope, moved);
      && Above(h, h1, Height(h) - Dtors(scope))
      && Height(h1) >= Height(h) - Dtors(scope) + SparedBy(scope, moved)
      && (moved.None? ==> Height(h1) == Height(h) - Dtors(scope))
      && AboveUntil(h, h1, Height(h) - Dtors(scope))
  {
    var t := Unwind(scope, moved);
    UnwindLength(scope, moved);
    FallsBy(h, t);
    AboveLess(h, h + t, Height(h) - |t|, Height(h) - Dtors(scope));
    var l := Named(scope, moved);
    if l.Some? && l.value.dtor { assert l.value in scope; }
  }

  // ---------------------------------------------------------------- expressions and plain statements

  lemma {:induction false} EvalKeeps(w: World, e: Exp, h: Trace)
    ensures Above(h, Eval(w, e, h).1, Height(h)) && Height(Eval(w, e, h).1) == Height(h)
    decreases e, 1
  {
    match e
    case Const(_, _) => AboveSelf(h, Height(h));
    case Read(_, _) => AboveSelf(h, Height(h));
    case Invoke(f, args, ty) =>
      EvalAllKeeps(w, args, h);
      var (vs, h1) := EvalAll(w, args, h);
      AboveOne(h1, Called(f, vs, Eval(w, e, h).0), Height(h));
      AboveThen(h, h1, Eval(w, e, h).1, Height(h));
    case Assign(x, _, _, rhs) =>
      EvalKeeps(w, rhs, h);
      var h1 := Eval(w, rhs, h).1;
      AboveOne(h1, Stored(x, Eval(w, e, h).0), Height(h));
      AboveThen(h, h1, Eval(w, e, h).1, Height(h));
    case Cond(c, yes, no) =>
      EvalKeeps(w, c, h);
      var h1 := Eval(w, c, h).1;
      EvalKeeps(w, yes, h1);
      EvalKeeps(w, no, h1);
      AboveThen(h, h1, Eval(w, e, h).1, Height(h));
    case _ =>
      EvalKeeps(w, e.l, h);
      var h1 := Eval(w, e.l, h).1;
      EvalKeeps(w, e.r, h1);
      AboveThen(h, h1, Eval(w, e.r, h1).1, Height(h));
  }

  lemma {:induction false} EvalAllKeeps(w: World, es: seq<Exp>, h: Trace)
    ensures Above(h, EvalAll(w, es, h).1, Height(h)) && Height(EvalAll(w, es, h).1) == Height(h)
    decreases es, 0
  {
    if es == [] {
      AboveSelf(h, Height(h));
    } else {
      var n := |es| - 1;
      EvalAllKeeps(w, es[..n], h);
      var h1 := EvalAll(w, es[..n], h).1;
      EvalKeeps(w, es[n], h1);
      AboveThen(h, h1, EvalAll(w, es, h).1, Height(h));
    }
  }

  lemma CondKeeps(w: World, c: Option<Exp>, h: Trace)
    ensures Above(h, EvalCond(w, c, h).1, Height(h)) && Height(EvalCond(w, c, h).1) == Height(h)
  {
    AboveSelf(h, Height(h));
    if c.Some? { EvalKeeps(w, c.value, h); }
  }

  ghost predicate PlainKept(h: Trace, live: Scope, h1: Trace, live1: Scope) {
    Above(h, h1, Height(h)) && Height(h1) == Height(h) + Dtors(live1) - Dtors(live)
  }

  lemma {:induction false} PlainKeeps(w: World, p: Plain, h: Trace, live: Scope)
    ensures var (h1, live1) := ExecPlain(w, p, h, live); PlainKept(h, live, h1, live1)
    decreases p, 1
  {
    match p
    case Do(e) => EvalKeeps(w, e, h);
    case CoalesceTo(x, ty, rhs) =>
      AboveSelf(h, Height(h));
      EvalKeeps(w, Assign(x, ty, None, rhs), h);
    case Declare(x, decl, dtor, init) =>
      EvalKeeps(w, init, h);
      var (v, h1) := Eval(w, init, h);
      var l := Local(x, decl, dtor);
      AboveOne(h1, Constructed(l, v), Height(h));
      AboveThen(h, h1, h1 + [Constructed(l, v)], Height(h));
      DtorsThen(live, [l]);
      assert Dtors([l]) == if dtor then 1 else 0;
    case Group(ps) => PlainsKeep(w, ps, h, live);
  }

  lemma {:induction false} PlainsKeep(w: World, ps: seq<Plain>, h: Trace, live: Scope)
    ensures var (h1, live1) := ExecPlains(w, ps, h, live); PlainKept(h, live, h1, live1)
    decreases ps, 0
  {
    if ps == [] {
      AboveSelf(h, Height(h));
    } else {
      var n := |ps| - 1;
      PlainsKeep(w, ps[..n], h, live);
      var (h1, live1) := ExecPlains(w, ps[..n], h, live);
      PlainKeeps(w, ps[n], h1, live1);
      var (h2, live2) := ExecPlain(w, ps[n], h1, live1);
      AboveLess(h, h1, Height(h), Height(h));
      AboveLess(h1, h2, Height(h1), Height(h));
      AboveThen(h, h1, h2, Height(h));
    }
  }

  // ---------------------------------------------------------------- statements

  function Spared(out: Outcome): nat {
    if out.Returned? && out.spared.Some? then 1 else 0
  }

  /** The run destroys nothing that was there before it; `live` is the scope it starts in. */
  ghost predicate Kept(r: Run, h: Trace, live: Scope) {
    && Above(h, r.h, Height(h))
    && (r.Fin? ==>
      && Height(r.h) >= Height(h) + Dtors(r.live) - Dtors(live) + Spared(r.out)
      && (r.out.Normal? || r.out.Jumped? ==> Height(r.h) == Height(h) + Dtors(r.live) - Dtors(live)))
  }

  lemma KeptThen(r: Run, h0: Trace, live0: Scope, h: Trace, live: Scope)
    requires Above(h0, h, Height(h0)) && Height(h) == Height(h0) + Dtors(live) - Dtors(live0) && Kept(r, h, live)
    requires Height(h) >= Height(h0)
    ensures Kept(r, h0, live0)
  {
    AboveLess(h, r.h, Height(h), Height(h0));
    AboveThen(h0, h, r.h, Height(h0));
  }

  /** A scope of its own, once it is closed. */
  lemma CloseKeeps(r: Run, h: Trace, live: Scope)
    requires Kept(r, h, [])
    ensures Kept(Close(r, live), h, live)
  {
    if r.Fin? {
      var moved := if r.out.Returned? then r.out.moved else None;
      UnwindFalls(r.h, r.live, moved);
      var h1 := r.h + Unwind(r.live, moved);
      AboveLess(r.h, h1, Height(r.h) - Dtors(r.live), Height(h));
      AboveThen(h, r.h, h1, Height(h));
    }
  }

  lemma {:induction false} StmtKeeps(w: World, s: Stmt, r: Rules, h: Trace, live: Scope, fuel: nat)
    requires r.mode.AsMeant?
    ensures Kept(Exec(w, s, r, h, live, fuel), h, live)
    decreases fuel, s, 2
  {
    hide Height, Dtors, Above, Eval, EvalAll, ExecPlain;
    match s
    case Basic(p) => PlainKeeps(w, p, h, live);
    case Return(v) =>
      AboveSelf(h, Height(h));
      if v.Scalar? { EvalKeeps(w, v.e, h); }
    case Branch(_, _) => AboveSelf(h, Height(h));
    case Loop(_) => LoopKeepsBelow(w, s, r, h, live, fuel);
    case While(_, _, doWhile, _) => WhileKeepsBelow(w, s, r, h, live, fuel, doWhile);
    case Switch(on, cases) =>
      var (v, h1) := Eval(w, on, h);
      EvalKeeps(w, on, h);
      var run := ExecCases(w, cases, Selected(cases, v), r.(depth := InSwitch(r.depth)), h1, live, fuel);
      CasesKeepBelow(w, cases, Selected(cases, v), r.(depth := InSwitch(r.depth)), h1, live, fuel);
      KeptThen(run, h, live, h1, live);
    case For(pre, _, _, _) =>
      var (h1, header) := ExecPlains(w, pre, h, []);
      PlainsKeep(w, pre, h, []);
      ForKeepsBelow(w, s, r, h1, header, live, fuel, false);
      ClosesHeader(ExecFor(w, s, r, h1, header, live, fuel, false), h, h1, header, live);
    case If(c, thn, els) =>
      var (v, h1) := Eval(w, c, h);
      EvalKeeps(w, c, h);
      if v != 0 {
        ListKeeps(w, thn, r, h1, [], fuel);
        CloseKeeps(ExecList(w, thn, r, h1, [], fuel), h1, live);
        KeptThen(Close(ExecList(w, thn, r, h1, [], fuel), live), h, live, h1, live);
      } else if els.Else? {
        ListKeeps(w, els.stmts, r, h1, [], fuel);
        CloseKeeps(ExecList(w, els.stmts, r, h1, [], fuel), h1, live);
        KeptThen(Close(ExecList(w, els.stmts, r, h1, [], fuel), live), h, live, h1, live);
      }
  }

  lemma ClosesHeader(run: Run, h: Trace, h1: Trace, header: Scope, live: Scope)
    requires PlainKept(h, [], h1, header) && LoopKept(run, h1, header, live)
    ensures Kept(run, h, live)
  {
    AboveThen(h, h1, run.h, Height(h));
  }

  lemma {:induction false} ListKeeps(w: World, ss: seq<Stmt>, r: Rules, h: Trace, live: Scope, fuel: nat)
    requires r.mode.AsMeant?
    ensures Kept(ExecList(w, ss, r, h, live, fuel), h, live)
    decreases fuel, ss, 0
  {
    hide Exec, Height, Dtors, Above;
    if ss == [] {
      AboveSelf(h, Height(h));
    } else {
      var n := |ss| - 1;
      var first := ExecList(w, ss[..n], r, h, live, fuel);
      ListKeeps(w, ss[..n], r, h, live, fuel);
      if first.Fin? && first.out.Normal? {
        StmtKeeps(w, ss[n], r, first.h, first.live, fuel);
        AboveLess(h, first.h, Height(h), Height(h));
        KeptThen(Exec(w, ss[n], r, first.h, first.live, fuel), h, live, first.h, first.live);
      }
    }
  }

  lemma {:induction false} LoopKeepsBelow(w: World, s: Stmt, r: Rules, h: Trace, live: Scope, fuel: nat)
    requires s.Loop? && r.mode.AsMeant?
    ensures Kept(ExecLoop(w, s, r, h, live, fuel), h, live)
    decreases fuel, s, 1
  {
    hide ExecList, Height, Dtors, Above, Close;
    if fuel == 0 {
      AboveSelf(h, Height(h));
    } else {
      var inner := r.(depth := InLoop(r.depth));
      var body := ExecList(w, s.body, inner, h, [], fuel);
      ListKeeps(w, s.body, inner, h, [], fuel);
      CloseKeeps(body, h, live);
      ClosedScope(body, live);
      var run := Close(body, live);
      if run.Fin? && AfterBody(run.out, false).Again? {
        LoopKeepsBelow(w, s, r, run.h, live, fuel - 1);
        KeptThen(ExecLoop(w, s, r, run.h, live, fuel - 1), h, live, run.h, live);
      }
    }
  }

  lemma ClosedScope(r: Run, live: Scope)
    ensures Close(r, live).Fin? <==> r.Fin?
    ensures r.Fin? ==> Close(r, live).live == live
    ensures r.Fin? ==> (Close(r, live).out.Returned? <==> r.out.Returned?)
    ensures r.Fin? && !r.out.Returned? ==> Close(r, live).out == r.out
  {
  }

  lemma {:induction false} WhileKeepsBelow(w: World, s: Stmt, r: Rules, h: Trace, live: Scope, fuel: nat, atBody: bool)
    requires s.While? && r.mode.AsMeant?
    ensures Kept(ExecWhile(w, s, r, h, live, fuel, atBody), h, live)
    decreases fuel, s, 1
  {
    hide ExecList, Height, Dtors, Above, Close, EvalCond;
    AboveSelf(h, Height(h));
    if fuel > 0 {
      CondKeeps(w, s.cond, h);
      var (c, h1) := if atBody then (!s.until, h) else EvalCond(w, s.cond, h);
      if c != s.until {
        var inner := r.(depth := InWhile(r.depth));
        var body := ExecList(w, s.body, inner, h1, [], fuel);
        ListKeeps(w, s.body, inner, h1, [], fuel);
        CloseKeeps(body, h1, live);
        ClosedScope(body, live);
        var run := Close(body, live);
        KeptThen(run, h, live, h1, live);
        if run.Fin? && (AfterBody(run.out, true).Again? || AfterBody(run.out, true).Retry?) {
          var atBody1 := AfterBody(run.out, true).Retry?;
          WhileKeepsBelow(w, s, r, run.h, live, fuel - 1, atBody1);
          KeptThen(ExecWhile(w, s, r, run.h, live, fuel - 1, atBody1), h, live, run.h, live);
        }
      }
    }
  }

  lemma {:induction false} CasesKeepBelow(w: World, cases: seq<Case>, j: nat, r: Rules, h: Trace, live: Scope,
                                          fuel: nat)
    requires j <= |cases| && r.mode.AsMeant?
    ensures Kept(ExecCases(w, cases, j, r, h, live, fuel), h, live)
    ensures var run := ExecCases(w, cases, j, r, h, live, fuel); run.Fin? && run.out.Normal? ==> run.live == live
    decreases fuel, cases, 1
  {
    hide ExecList, Height, Dtors, Above, Close;
    if j == |cases| {
      AboveSelf(h, Height(h));
    } else {
      var n := |cases| - 1;
      var first := ExecCases(w, cases[..n], j, r, h, live, fuel);
      CasesKeepBelow(w, cases[..n], j, r, h, live, fuel);
      if first.Fin? && first.out.Normal? {
        var body := ExecList(w, cases[n].body, r, first.h, [], fuel);
        ListKeeps(w, cases[n].body, r, first.h, [], fuel);
        CloseKeeps(body, first.h, live);
        ClosedScope(body, live);
        KeptThen(Close(body, live), h, live, first.h, live);
      }
    }
  }

  // ---------------------------------------------------------------- the rounds of a `for`

  /** The loop destroys its header, with its last events, and nothing below it. */
  ghost predicate LoopKept(run: Run, h: Trace, header: Scope, live: Scope) {
    var low := Height(h) - Dtors(header);
    && Above(h, run.h, low)
    && (Dtors(header) > 0 ==> AboveUntil(h, run.h, low))
    && (run.Fin? ==>
      && run.live == live && Height(run.h) >= low + Spared(run.out)
      && (run.out.Normal? || run.out.Jumped? ==> Height(run.h) == low))
  }

  ghost predicate RoundKept(round: Round, h: Trace, header: Scope, live: Scope) {
    match round
    case Leaves(run) => LoopKept(run, h, header, live)
    case Goes(h1, _) => Above(h, h1, Height(h)) && Height(h1) == Height(h)
  }

  lemma LoopKeptThen(run: Run, h0: Trace, h: Trace, header: Scope, live: Scope)
    requires Above(h0, h, Height(h0)) && Height(h) == Height(h0) && LoopKept(run, h, header, live)
    ensures LoopKept(run, h0, header, live)
  {
    var low := Height(h) - Dtors(header);
    AboveLess(h0, h, Height(h0), low);
    AboveThen(h0, h, run.h, low);
    if Dtors(header) > 0 {
      AboveLess(h0, h, Height(h0), low + 1);
      AboveUntilThen(h0, h, run.h, low);
    }
  }

  /** The loop is left: everything in its scope is destroyed. */
  lemma LeavingKeeps(h: Trace, h1: Trace, scope: Scope, header: Scope, live: Scope, moved: Option<Symbol>, out: Outcome)
    requires Above(h, h1, Height(h)) && header <= scope
    requires Height(h1) >= Height(h) + Dtors(scope) - Dtors(header)
    ensures
      var h2 := h1 + Unwind(scope, moved);
      var low := Height(h) - Dtors(header);
      && Above(h, h2, low) && (Dtors(header) > 0 ==> AboveUntil(h, h2, low))
      && Height(h2) - low >= Height(h1) - (Height(h) + Dtors(scope) - Dtors(header)) + SparedBy(scope, moved)
      && (moved.None? ==> Height(h2) - low == Height(h1) - (Height(h) + Dtors(scope) - Dtors(header)))
  {
    var low := Height(h) - Dtors(header);
    var h2 := h1 + Unwind(scope, moved);
    UnwindFalls(h1, scope, moved);
    AboveLess(h, h1, Height(h), low);
    AboveLess(h1, h2, Height(h1) - Dtors(scope), low);
    AboveThen(h, h1, h2, low);
    if Dtors(header) > 0 {
      AboveLess(h, h1, Height(h), low + 1);
      assert AboveUntil(h1, h2, low);
      AboveUntilThen(h, h1, h2, low);
    }
  }

  lemma {:induction false} RoundKeepsBelow(w: World, s: Stmt, r: Rules, h: Trace, header: Scope, live: Scope, fuel: nat,
                                           atBody: bool)
    requires s.For? && r.mode.AsMeant?
    ensures RoundKept(ForRound(w, s, r, h, header, live, fuel, atBody), h, header, live)
    decreases fuel, s, 0
  {
    hide ExecList, Height, Dtors, Above, AboveUntil, EvalCond, AfterRound;
    CondKeeps(w, s.cond, h);
    AboveSelf(h, Height(h));
    var (c, h1) := if atBody then (true, h) else EvalCond(w, s.cond, h);
    if !c {
      LeavingKeeps(h, h1, header, header, live, None, Normal);
    } else {
      var inner := r.(depth := InWhile(r.depth));
      var run := ExecList(w, s.body, inner, h1, header, fuel);
      ListKeeps(w, s.body, inner, h1, header, fuel);
      ListGrows(w, s.body, inner, h1, header, fuel);
      KeptThen(run, h, header, h1, header);
      AfterBodyKeeps(w, s, run, h, header, live);
    }
  }

  lemma AfterBodyKeeps(w: World, s: Stmt, run: Run, h: Trace, header: Scope, live: Scope)
    requires s.For? && Kept(run, h, header) && (run.Fin? ==> header <= run.live)
    ensures RoundKept(AfterRound(w, s, run, header, live, AsMeant), h, header, live)
  {
    hide Height, Dtors, Above, AboveUntil, EvalAll, Unwind;
    if run.OutOfFuel? {
      CutOffKeeps(run, h, header, live);
    } else {
      var own := Beyond(run.live, header);
      assert run.live == header + own;
      DtorsThen(header, own);
      match AfterBody(run.out, true)
      case Again =>
        var h1 := EvalAll(w, s.post, run.h).1;
        EvalAllKeeps(w, s.post, run.h);
        AboveLess(h, run.h, Height(h), Height(h));
        AboveLess(run.h, h1, Height(run.h), Height(h));
        AboveThen(h, run.h, h1, Height(h));
        UnwindFalls(h1, own, None);
        AboveLess(h1, h1 + Unwind(own, None), Height(h1) - Dtors(own), Height(h));
        AboveThen(h, h1, h1 + Unwind(own, None), Height(h));
      case Retry =>
        UnwindFalls(run.h, own, None);
        AboveLess(run.h, run.h + Unwind(own, None), Height(run.h) - Dtors(own), Height(h));
        AboveThen(h, run.h, run.h + Unwind(own, None), Height(h));
      case Stop => LeavingKeeps(h, run.h, run.live, header, live, None, Normal);
      case Pass(_) =>
        LeavingKeeps(h, run.h, run.live, header, live, if run.out.Returned? then run.out.moved else None, run.out);
    }
  }

  lemma CutOffKeeps(run: Run, h: Trace, header: Scope, live: Scope)
    requires run.OutOfFuel? && Kept(run, h, header)
    ensures LoopKept(run, h, header, live)
  {
  }

  lemma {:induction false} ForKeepsBelow(w: World, s: Stmt, r: Rules, h: Trace, header: Scope, live: Scope, fuel: nat,
                                         atBody: bool)
    requires s.For? && r.mode.AsMeant?
    ensures LoopKept(ExecFor(w, s, r, h, header, live, fuel, atBody), h, header, live)
    decreases fuel, s, 1
  {
    hide ForRound, Height, Dtors, Above, AboveUntil;
    if fuel == 0 {
      AboveSelf(h, Height(h));
      CutOffKeeps(OutOfFuel(h), h, header, live);
    } else {
      var round := ForRound(w, s, r, h, header, live, fuel, atBody);
      RoundKeepsBelow(w, s, r, h, header, live, fuel, atBody);
      if round.Goes? {
        ForKeepsBelow(w, s, r, round.h, header, live, fuel - 1, round.atBody);
        LoopKeptThen(ExecFor(w, s, r, round.h, header, live, fuel - 1, round.atBody), h, round.h, header, live);
      }
    }
  }
}
