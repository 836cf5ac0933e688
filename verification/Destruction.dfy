/**
 Every destructable local that a run constructs is destroyed exactly once, last constructed
 first; only the local that a `return` moves out is spared.
 */
module Destruction {
  import opened Options
  import opened Cfg
  import opened Source
  import opened ForScopes

  // ---------------------------------------------------------------- what a trace leaves alive

  /**
   The destructable locals that are alive after one more event; none, if something is destroyed that is not the
   last one constructed.
   */
  function After(alive: seq<Local>, e: Event): Option<seq<Local>> {
    match e
    case Constructed(l, _) => Some(if l.dtor then alive + [l] else alive)
    case Destroyed(l) =>
      if alive != [] && alive[|alive| - 1] == l then Some(alive[..|alive| - 1]) else None
    case _ => Some(alive)
  }

  /** The destructable locals alive after a trace, in the order of their construction. */
  function Nest(alive: seq<Local>, h: Trace): Option<seq<Local>> {
    if h == [] then Some(alive)
    else
      var before :- Nest(alive, h[..|h| - 1]);
      After(before, h[|h| - 1])
  }

  lemma {:induction false} NestThen(alive: seq<Local>, a: Trace, b: Trace)
    requires Nest(alive, a).Some?
    ensures Nest(alive, a + b) == Nest(Nest(alive, a).value, b)
  {
    if b == [] {
      assert a + b == a;
    } else {
      var n := |b| - 1;
      NestThen(alive, a, b[..n]);
      assert (a + b)[..|a + b| - 1] == a + b[..n];
    }
  }

  lemma NestOne(alive: seq<Local>, h: Trace, e: Event)
    requires Nest(alive, h).Some?
    ensures Nest(alive, h + [e]) == After(Nest(alive, h).value, e)
  {
    assert (h + [e])[..|h + [e]| - 1] == h;
  }

  function Alive(scope: Scope): seq<Local> {
    if scope == [] then []
    else Alive(scope[..|scope| - 1]) + (if scope[|scope| - 1].dtor then [scope[|scope| - 1]] else [])
  }

  function AliveAll(scopes: seq<Scope>): seq<Local> {
    if scopes == [] then [] else AliveAll(scopes[..|scopes| - 1]) + Alive(scopes[|scopes| - 1])
  }

  lemma {:induction false} AliveAppend(a: Scope, b: Scope)
    ensures Alive(a + b) == Alive(a) + Alive(b)
  {
    if b == [] {
      assert a + b == a;
    } else {
      AliveAppend(a, b[..|b| - 1]);
      assert (a + b)[..|a + b| - 1] == a + b[..|b| - 1];
    }
  }

  lemma {:induction false} AliveAllCons(scope: Scope, scopes: seq<Scope>)
    ensures AliveAll([scope] + scopes) == Alive(scope) + AliveAll(scopes)
  {
    var all := [scope] + scopes;
    if scopes == [] {
      assert all[..0] == [];
    } else {
      AliveAllCons(scope, scopes[..|scopes| - 1]);
      assert all[..|all| - 1] == [scope] + scopes[..|scopes| - 1];
    }
  }

  /** Unwinding a scope destroys exactly its destructables, last first. */
  lemma {:induction false} UnwindNests(below: seq<Local>, scope: Scope)
    ensures Nest(below + Alive(scope), Unwind(scope, None)) == Some(below)
    decreases scope
  {
    if scope == [] {
      assert below + [] == below;
    } else {
      var first := Alive(scope[..1]);
      assert scope == scope[..1] + scope[1..];
      AliveAppend(scope[..1], scope[1..]);
      assert scope[..1][..0] == [];
      UnwindNests(below + first, scope[1..]);
      assert below + Alive(scope) == below + first + Alive(scope[1..]);
      var h := Unwind(scope[1..], None);
      if scope[0].dtor {
        NestOne(below + Alive(scope), h, Destroyed(scope[0]));
        assert (below + first)[..|below|] == below;
      } else {
        assert h + [] == h && below + first == below;
      }
    }
  }

  lemma Destroys(h: Trace, below: seq<Local>, scope: Scope)
    requires Nest([], h) == Some(below + Alive(scope))
    ensures Nest([], h + Unwind(scope, None)) == Some(below)
  {
    UnwindNests(below, scope);
    NestThen([], h, Unwind(scope, None));
  }

  // ---------------------------------------------------------------- expressions construct and destroy nothing

  lemma {:induction false} EvalNests(w: World, e: Exp, h: Trace)
    requires Nest([], h).Some?
    ensures Nest([], Eval(w, e, h).1) == Nest([], h)
    decreases e, 1
  {
    match e
    case Const(_, _) =>
    case Read(_, _) =>
    case Invoke(f, args, ty) =>
      var (vs, h1) := EvalAll(w, args, h);
      EvalAllNests(w, args, h);
      NestOne([], h1, Called(f, vs, Norm(ty, w.call(h1, f, vs))));
    case Binary(_, l, r) =>
      EvalNests(w, l, h);
      EvalNests(w, r, Eval(w, l, h).1);
    case Compare(_, l, r) =>
      EvalNests(w, l, h);
      EvalNests(w, r, Eval(w, l, h).1);
    case And(l, r) =>
      EvalNests(w, l, h);
      EvalNests(w, r, Eval(w, l, h).1);
    case Or(l, r) =>
      EvalNests(w, l, h);
      EvalNests(w, r, Eval(w, l, h).1);
    case Cond(c, yes, no) =>
      EvalNests(w, c, h);
      EvalNests(w, yes, Eval(w, c, h).1);
      EvalNests(w, no, Eval(w, c, h).1);
    case Coalesce(l, r) =>
      EvalNests(w, l, h);
      EvalNests(w, r, Eval(w, l, h).1);
    case Assign(x, _, _, rhs) =>
      EvalNests(w, rhs, h);
      NestOne([], Eval(w, rhs, h).1, Stored(x, Eval(w, e, h).0));
  }

  lemma {:induction false} EvalAllNests(w: World, es: seq<Exp>, h: Trace)
    requires Nest([], h).Some?
    ensures Nest([], EvalAll(w, es, h).1) == Nest([], h)
    decreases es, 0
  {
    if es != [] {
      var n := |es| - 1;
      EvalAllNests(w, es[..n], h);
      EvalNests(w, es[n], EvalAll(w, es[..n], h).1);
    }
  }

  lemma CondNests(w: World, c: Option<Exp>, h: Trace)
    requires Nest([], h).Some?
    ensures Nest([], EvalCond(w, c, h).1) == Nest([], h)
  {
    if c.Some? {
      EvalNests(w, c.value, h);
    }
  }

  // ---------------------------------------------------------------- scopes

  /** A scope declares a name once. */
  ghost predicate DistinctLocals(scope: Scope) {
    forall i, j | 0 <= i < j < |scope| :: scope[i].x != scope[j].x
  }

  function LocalNames(scope: Scope): set<Symbol> {
    set l | l in scope :: l.x
  }

  lemma OneMoreLocal(live: Scope, l: Local, below: seq<Local>)
    requires DistinctLocals(live) && l.x !in LocalNames(live)
    ensures DistinctLocals(live + [l]) && LocalNames(live + [l]) == LocalNames(live) + {l.x}
    ensures below + Alive(live + [l]) == if l.dtor then below + Alive(live) + [l] else below + Alive(live)
  {
    assert (live + [l])[..|live|] == live;
    forall i | 0 <= i < |live| ensures live[i].x != l.x {
      assert live[i] in live;
    }
  }

  lemma {:induction false} PlainNests(w: World, p: Plain, h: Trace, live: Scope, below: seq<Local>)
    requires Nest([], h) == Some(below + Alive(live))
    requires DistinctLocals(live) && ValidPlain(p, LocalNames(live))
    ensures
      var (h1, live1) := ExecPlain(w, p, h, live);
      && Nest([], h1) == Some(below + Alive(live1))
      && DistinctLocals(live1) && LocalNames(live1) == LocalNames(live) + Declares1(p)
    decreases p, 1
  {
    match p
    case Do(e) => EvalNests(w, e, h);
    case CoalesceTo(x, ty, rhs) => EvalNests(w, Assign(x, ty, None, rhs), h);
    case Declare(x, decl, dtor, init) =>
      var (v, h1) := Eval(w, init, h);
      EvalNests(w, init, h);
      NestOne([], h1, Constructed(Local(x, decl, dtor), v));
      OneMoreLocal(live, Local(x, decl, dtor), below);
    case Group(ps) => PlainsNest(w, ps, h, live, below);
  }

  lemma {:induction false} PlainsNest(w: World, ps: seq<Plain>, h: Trace, live: Scope, below: seq<Local>)
    requires Nest([], h) == Some(below + Alive(live))
    requires DistinctLocals(live) && ValidPlains(ps, LocalNames(live))
    ensures
      var (h1, live1) := ExecPlains(w, ps, h, live);
      && Nest([], h1) == Some(below + Alive(live1))
      && DistinctLocals(live1) && LocalNames(live1) == LocalNames(live) + DeclaredPlain(ps)
    decreases ps, 0
  {
    if ps != [] {
      var n := |ps| - 1;
      var (h1, live1) := ExecPlains(w, ps[..n], h, live);
      PlainsNest(w, ps[..n], h, live, below);
      PlainNests(w, ps[n], h1, live1, below);
    }
  }

  // ---------------------------------------------------------------- leaving through a return

  /** The name still moved out after leaving `scopes`, innermost first. */
  function AfterMove(scopes: seq<Scope>, moved: Option<Symbol>): Option<Symbol> {
    if scopes == [] then moved
    else
      var n := |scopes| - 1;
      AfterMove(scopes[..n], if Declares(scopes[n], moved) then None else moved)
  }

  /** The local that is spared on the way out of `scopes`. */
  function SparedIn(scopes: seq<Scope>, moved: Option<Symbol>): Option<Local> {
    if scopes == [] then None
    else
      var n := |scopes| - 1;
      var l := Named(scopes[n], moved);
      if l.None? then SparedIn(scopes[..n], moved) else if l.value.dtor then l else None
  }

  lemma {:induction false} MovedOnce(scopes: seq<Scope>, moved: Option<Symbol>)
    ensures AfterMove(scopes, moved).Some? ==> SparedIn(scopes, moved).None?
    ensures moved.None? ==> AfterMove(scopes, moved).None? && SparedIn(scopes, moved).None?
  {
    if scopes != [] {
      var n := |scopes| - 1;
      MovedOnce(scopes[..n], moved);
      MovedOnce(scopes[..n], None);
    }
  }

  lemma {:induction false} UnwindAllCons(scope: Scope, scopes: seq<Scope>, moved: Option<Symbol>)
    ensures UnwindAll([scope] + scopes, moved) == UnwindAll(scopes, moved) + Unwind(scope, AfterMove(scopes, moved))
    ensures
      var m := AfterMove(scopes, moved);
      AfterMove([scope] + scopes, moved) == if Declares(scope, m) then None else m
    ensures
      var l := Named(scope, AfterMove(scopes, moved));
      SparedIn([scope] + scopes, moved) == if l.Some? && l.value.dtor then l else SparedIn(scopes, moved)
  {
    hide Named, Declares, Unwind;
    var all := [scope] + scopes;
    MovedOnce(scopes, moved);
    if scopes == [] {
      assert all[..0] == [] && all[0] == scope;
      assert UnwindAll(all, moved) == Unwind(scope, moved)
          + UnwindAll([], if Declares(scope, moved) then None else moved);
    } else {
      var n := |scopes| - 1;
      var m1 := if Declares(scopes[n], moved) then None else moved;
      UnwindAllCons(scope, scopes[..n], m1);
      MovedOnce(scopes[..n], None);
      assert all[..|all| - 1] == [scope] + scopes[..n];
      assert all[|all| - 1] == scopes[n];
      assert Unwind(scopes[n], moved) + (UnwindAll(scopes[..n], m1) + Unwind(scope, AfterMove(scopes, moved)))
          == Unwind(scopes[n], moved) + UnwindAll(scopes[..n], m1) + Unwind(scope, AfterMove(scopes, moved));
    }
  }

  /** A `return` on its way out: the trace so far, and the part of its outcome that says what is moved or spared. */
  datatype Exit = Exit(h: Trace, moved: Option<Symbol>, spared: Option<Local>)

  /** After `h0` the return has left `scopes`, sparing `moved0`, and `alive` is still to be left. */
  ghost predicate LeavingVia(e: Exit, alive: seq<Local>, mayMove: bool, h0: Trace, scopes: seq<Scope>,
                             moved0: Option<Symbol>) {
    && e.h == h0 + UnwindAll(scopes, moved0)
    && Nest([], h0) == Some(alive + AliveAll(scopes))
    && e.moved == AfterMove(scopes, moved0) && e.spared == SparedIn(scopes, moved0) && (moved0.Some? ==> mayMove)
    && forall s | s in scopes :: DistinctLocals(s)
  }

  ghost predicate Leaving(e: Exit, alive: seq<Local>, mayMove: bool) {
    exists h0: Trace, scopes: seq<Scope>, moved0: Option<Symbol> :: LeavingVia(e, alive, mayMove, h0, scopes, moved0)
  }

  /** What a run in the current scope, on top of the locals `below`, leaves alive. */
  ghost predicate Settled(r: Run, below: seq<Local>, mayMove: bool) {
    match r
    case OutOfFuel(h) => Nest([], h).Some?
    case Fin(h, live, out) =>
      && DistinctLocals(live)
      && match out
         case Returned(_, m, l) => Leaving(Exit(h, m, l), below + Alive(live), mayMove)
         case _ => Nest([], h) == Some(below + Alive(live))
  }

  lemma CloseSettles(r: Run, live: Scope, below: seq<Local>, mayMove: bool)
    requires Settled(r, below + Alive(live), mayMove) && DistinctLocals(live)
    ensures Settled(Close(r, live), below, mayMove)
  {
    hide Named;
    match r
    case OutOfFuel(_) =>
    case Fin(h, inner, Returned(v, m, l)) => LeavesOne(Exit(h, m, l), inner, below + Alive(live), mayMove);
    case Fin(h, inner, _) => Destroys(h, below + Alive(live), inner);
  }

  lemma LeavesOne(e: Exit, inner: Scope, alive: seq<Local>, mayMove: bool)
    requires Leaving(e, alive + Alive(inner), mayMove) && DistinctLocals(inner)
    ensures
      var l := Named(inner, e.moved);
      var moved, spared := if l.None? then e.moved else None, if l.Some? && l.value.dtor then l else e.spared;
      Leaving(Exit(e.h + Unwind(inner, e.moved), moved, spared), alive, mayMove)
  {
    hide Unwind, UnwindAll, Alive, AliveAll, AfterMove, SparedIn, Named, Declares, Nest, DistinctLocals;
    var h0: Trace, scopes: seq<Scope>, moved0: Option<Symbol> :| LeavingVia(e, alive + Alive(inner), mayMove, h0,
        scopes, moved0);
    var all := [inner] + scopes;
    UnwindAllCons(inner, scopes, moved0);
    AliveAllCons(inner, scopes);
    assert h0 + UnwindAll(all, moved0) == e.h + Unwind(inner, e.moved);
    assert alive + Alive(inner) + AliveAll(scopes) == alive + AliveAll(all);
    var l := Named(inner, e.moved);
    var moved, spared := if l.None? then e.moved else None, if l.Some? && l.value.dtor then l else e.spared;
    assert LeavingVia(Exit(e.h + Unwind(inner, e.moved), moved, spared), alive, mayMove, h0, all, moved0);
  }

  lemma ReturnSettles(h: Trace, live: Scope, v: Option<int>, moved: Option<Symbol>, below: seq<Local>, mayMove: bool)
    requires Nest([], h) == Some(below + Alive(live)) && DistinctLocals(live) && (moved.Some? ==> mayMove)
    ensures Settled(Fin(h, live, Returned(v, moved, None)), below, mayMove)
  {
    assert h + [] == h && below + Alive(live) + [] == below + Alive(live);
    assert LeavingVia(Exit(h, moved, None), below + Alive(live), mayMove, h, [], moved);
  }

  // ---------------------------------------------------------------- statements

  /** The locals of the current scope are those of `names`. */
  ghost predicate LocalsAre(live: Scope, names: set<Symbol>) {
    DistinctLocals(live) && LocalNames(live) == names
  }

  lemma {:induction false} StmtNests(w: World, s: Stmt, r: Rules, h: Trace, live: Scope, below: seq<Local>, fuel: nat)
    requires r.mode.AsMeant?
    requires Nest([], h) == Some(below + Alive(live)) && DistinctLocals(live)
    requires Valid(s, r, LocalNames(live))
    ensures
      var run := Exec(w, s, r, h, live, fuel);
      && Settled(run, below, r.result.Class?)
      && (run.Fin? && run.out.Normal? ==> LocalsAre(run.live, LocalNames(live) + DeclaredBy(s)))
    decreases fuel, s, 2
  {
    hide DistinctLocals, Nest, Alive, Leaving, LocalNames, Eval, WellTyped, ValidCases;
    if !s.Basic? {
      SameScope(w, s, r, h, live, fuel);
    }
    match s
    case Basic(p) => PlainNests(w, p, h, live, below);
    case Return(v) =>
      var (out, h1) := EvalReturn(w, v, r.result, h);
      if v.Scalar? {
        EvalNests(w, v.e, h);
      }
      ReturnSettles(h1, live, out.v, out.moved, below, r.result.Class?);
    case Branch(_, _) =>
    case Loop(_) => LoopNests(w, s, r, h, live, below, fuel);
    case While(_, _, doWhile, _) => WhileNests(w, s, r, h, live, below, fuel, doWhile);
    case Switch(on, cases) =>
      var (v, h1) := Eval(w, on, h);
      EvalNests(w, on, h);
      CasesNest(w, cases, Selected(cases, v), r.(depth := InSwitch(r.depth)), h1, live, below, fuel);
    case For(pre, _, _, _) =>
      ForStartNests(w, pre, h, live, below);
      var (h1, header) := ExecPlains(w, pre, h, []);
      ForNests(w, s, r, h1, header, live, below, fuel, false);
    case If(c, thn, els) =>
      var (v, h1) := Eval(w, c, h);
      EvalNests(w, c, h);
      if v != 0 {
        BodyNests(w, thn, r, h1, live, below, fuel);
      } else if els.Else? {
        BodyNests(w, els.stmts, r, h1, live, below, fuel);
      }
  }

  lemma ForStartNests(w: World, pre: seq<Plain>, h: Trace, live: Scope, below: seq<Local>)
    requires Nest([], h) == Some(below + Alive(live)) && ValidPlains(pre, {})
    ensures
      var (h1, header) := ExecPlains(w, pre, h, []);
      Nest([], h1) == Some(below + Alive(live) + Alive(header)) && LocalsAre(header, DeclaredPlain(pre))
  {
    assert below + Alive(live) + Alive([]) == below + Alive(live);
    assert LocalNames([]) == {};
    PlainsNest(w, pre, h, [], below + Alive(live));
  }

  lemma {:induction false} ListNests(w: World, ss: seq<Stmt>, r: Rules, h: Trace, live: Scope, below: seq<Local>,
                                     fuel: nat)
    requires r.mode.AsMeant?
    requires Nest([], h) == Some(below + Alive(live)) && DistinctLocals(live)
    requires ValidList(ss, r, LocalNames(live))
    ensures
      var run := ExecList(w, ss, r, h, live, fuel);
      && Settled(run, below, r.result.Class?)
      && (run.Fin? && run.out.Normal? ==> LocalsAre(run.live, Declared(ss, LocalNames(live))))
    decreases fuel, ss, 0
  {
    hide DistinctLocals, Nest, Alive, Leaving, LocalNames, Valid, Exec;
    if ss != [] {
      var n := |ss| - 1;
      var first := ExecList(w, ss[..n], r, h, live, fuel);
      ListNests(w, ss[..n], r, h, live, below, fuel);
      if first.Fin? && first.out.Normal? {
        StmtNests(w, ss[n], r, first.h, first.live, below, fuel);
      }
    }
  }

  /** A list in a scope of its own. */
  lemma {:induction false} BodyNests(w: World, ss: seq<Stmt>, r: Rules, h: Trace, live: Scope, below: seq<Local>,
                                     fuel: nat)
    requires r.mode.AsMeant?
    requires Nest([], h) == Some(below + Alive(live)) && DistinctLocals(live)
    requires ValidList(ss, r, {})
    ensures Settled(Close(ExecList(w, ss, r, h, [], fuel), live), below, r.result.Class?)
    decreases fuel, ss, 1
  {
    hide Nest, Leaving, ExecList, ValidList, Close;
    assert below + Alive(live) + Alive([]) == below + Alive(live);
    assert LocalNames([]) == {};
    ListNests(w, ss, r, h, [], below + Alive(live), fuel);
    CloseSettles(ExecList(w, ss, r, h, [], fuel), live, below, r.result.Class?);
  }

  lemma {:induction false} LoopNests(w: World, s: Stmt, r: Rules, h: Trace, live: Scope, below: seq<Local>, fuel: nat)
    requires r.mode.AsMeant?
    requires s.Loop? && ValidList(s.body, r.(depth := InLoop(r.depth)), {})
    requires Nest([], h) == Some(below + Alive(live)) && DistinctLocals(live)
    ensures Settled(ExecLoop(w, s, r, h, live, fuel), below, r.result.Class?)
    decreases fuel, s, 0
  {
    hide DistinctLocals, Nest, Alive, Leaving, LocalNames, ExecList, ValidList;
    if fuel > 0 {
      var run := Close(ExecList(w, s.body, r.(depth := InLoop(r.depth)), h, [], fuel), live);
      BodyNests(w, s.body, r.(depth := InLoop(r.depth)), h, live, below, fuel);
      if run.Fin? && AfterBody(run.out, false).Again? {
        LoopNests(w, s, r, run.h, live, below, fuel - 1);
      }
    }
  }

  lemma {:induction false} WhileNests(w: World, s: Stmt, r: Rules, h: Trace, live: Scope, below: seq<Local>, fuel: nat,
                                      atBody: bool)
    requires r.mode.AsMeant?
    requires s.While? && ValidList(s.body, r.(depth := InWhile(r.depth)), {})
    requires Nest([], h) == Some(below + Alive(live)) && DistinctLocals(live)
    ensures Settled(ExecWhile(w, s, r, h, live, fuel, atBody), below, r.result.Class?)
    decreases fuel, s, 0
  {
    hide DistinctLocals, Nest, Alive, Leaving, LocalNames, ExecList, ValidList, EvalCond;
    if fuel > 0 {
      CondNests(w, s.cond, h);
      var (c, h1) := if atBody then (!s.until, h) else EvalCond(w, s.cond, h);
      if c != s.until {
        var run := Close(ExecList(w, s.body, r.(depth := InWhile(r.depth)), h1, [], fuel), live);
        BodyNests(w, s.body, r.(depth := InWhile(r.depth)), h1, live, below, fuel);
        if run.Fin? && (AfterBody(run.out, true).Again? || AfterBody(run.out, true).Retry?) {
          WhileNests(w, s, r, run.h, live, below, fuel - 1, AfterBody(run.out, true).Retry?);
        }
      }
    }
  }

  lemma {:induction false} CasesNest(w: World, cases: seq<Case>, j: nat, r: Rules, h: Trace, live: Scope,
                                     below: seq<Local>, fuel: nat)
    requires r.mode.AsMeant?
    requires j <= |cases| && ValidCases(cases, r)
    requires Nest([], h) == Some(below + Alive(live)) && DistinctLocals(live)
    ensures Settled(ExecCases(w, cases, j, r, h, live, fuel), below, r.result.Class?)
    decreases fuel, cases, 0
  {
    hide DistinctLocals, Nest, Alive, Leaving, LocalNames, ExecList, ValidList, CaseValues;
    if j < |cases| {
      var n := |cases| - 1;
      var first := ExecCases(w, cases[..n], j, r, h, live, fuel);
      CasesNest(w, cases[..n], j, r, h, live, below, fuel);
      if first.Fin? && first.out.Normal? {
        CasesScope(w, cases[..n], j, r, h, live, fuel);
        BodyNests(w, cases[n].body, r, first.h, live, below, fuel);
      }
    }
  }

  lemma {:induction false} ForNests(w: World, s: Stmt, r: Rules, h: Trace, header: Scope, live: Scope,
                                    below: seq<Local>, fuel: nat, atBody: bool)
    requires s.For? && ValidList(s.body, r.(depth := InWhile(r.depth)), DeclaredPlain(s.pre))
    requires r.mode.AsMeant?
    requires LocalsAre(header, DeclaredPlain(s.pre)) && DistinctLocals(live)
    requires Nest([], h) == Some(below + Alive(live) + Alive(header))
    ensures Settled(ExecFor(w, s, r, h, header, live, fuel, atBody), below, r.result.Class?)
    decreases fuel, s, 1
  {
    hide DistinctLocals, Nest, Alive, Leaving, LocalNames, ForRound, ValidList;
    if fuel > 0 {
      RoundNests(w, s, r, h, header, live, below, fuel, atBody);
      var round := ForRound(w, s, r, h, header, live, fuel, atBody);
      if round.Goes? {
        ForNests(w, s, r, round.h, header, live, below, fuel - 1, round.atBody);
      }
    }
  }

  lemma {:induction false} RoundNests(w: World, s: Stmt, r: Rules, h: Trace, header: Scope, live: Scope,
                                      below: seq<Local>, fuel: nat, atBody: bool)
    requires s.For? && ValidList(s.body, r.(depth := InWhile(r.depth)), DeclaredPlain(s.pre))
    requires r.mode.AsMeant?
    requires LocalsAre(header, DeclaredPlain(s.pre)) && DistinctLocals(live)
    requires Nest([], h) == Some(below + Alive(live) + Alive(header))
    ensures
      match ForRound(w, s, r, h, header, live, fuel, atBody)
      case Leaves(run) => Settled(run, below, r.result.Class?)
      case Goes(h2, _) => Nest([], h2) == Some(below + Alive(live) + Alive(header))
    decreases fuel, s, 0
  {
    hide DistinctLocals, Nest, Alive, Leaving, LocalNames, ExecList, ValidList, EvalCond, EvalAll, Unwind, Beyond;
    CondNests(w, s.cond, h);
    var (c, h1) := if atBody then (true, h) else EvalCond(w, s.cond, h);
    if !c {
      Destroys(h1, below + Alive(live), header);
    } else {
      var inner := r.(depth := InWhile(r.depth));
      var run := ExecList(w, s.body, inner, h1, header, fuel);
      ListNests(w, s.body, inner, h1, header, below + Alive(live), fuel);
      ListGrows(w, s.body, inner, h1, header, fuel);
      if run.Fin? {
        match AfterBody(run.out, true)
        case Again =>
          EvalAllNests(w, s.post, run.h);
          BeyondDestroys(EvalAll(w, s.post, run.h).1, below + Alive(live), run.live, header);
        case Retry => BeyondDestroys(run.h, below + Alive(live), run.live, header);
        case Stop => Destroys(run.h, below + Alive(live), run.live);
        case Pass(_) => CloseSettles(run, live, below, r.result.Class?);
      }
    }
  }

  /** Destroying what a scope gained leaves what it had. */
  lemma BeyondDestroys(h: Trace, below: seq<Local>, live: Scope, header: Scope)
    requires header <= live && Nest([], h) == Some(below + Alive(live))
    ensures Nest([], h + Unwind(Beyond(live, header), None)) == Some(below + Alive(header))
  {
    var own := live[|header|..];
    assert live == header + own;
    AliveAppend(header, own);
    assert below + Alive(live) == below + Alive(header) + Alive(own);
    Destroys(h, below + Alive(header), own);
  }

  // ---------------------------------------------------------------- whole runs

  /**
   Each destructable local constructed in `h` is destroyed in `h`, once, after it and everything constructed later.
   */
  ghost predicate DestroyedOnce(h: Trace) {
    Nest([], h) == Some([])
  }

  /**
   At some time, `l` is the innermost local of its name that is alive, and is not destroyed from then on;
   everything else that is alive by then is destroyed as it should be, down to `rest`.
   */
  ghost predicate Spares(h: Trace, l: Local, rest: seq<Local>) {
    exists k: nat, a: seq<Local>, b: seq<Local> :: SparesAt(h, l, rest, k, a, b)
  }

  ghost predicate SparesAt(h: Trace, l: Local, rest: seq<Local>, k: nat, a: seq<Local>, b: seq<Local>) {
    && k <= |h| && Nest([], h[..k]) == Some(a + [l] + b)
    && (forall o | o in b :: o.x != l.x)
    && Nest(a + b, h[k..]) == Some(rest)
  }

  /** Each destructable local constructed in `h` is destroyed once, but for `l`, which is moved out. */
  ghost predicate DestroyedBut(h: Trace, l: Local) {
    Spares(h, l, [])
  }

  lemma {:induction false} UnwindAllNests(below: seq<Local>, scopes: seq<Scope>)
    ensures Nest(below + AliveAll(scopes), UnwindAll(scopes, None)) == Some(below)
  {
    if scopes == [] {
      assert below + [] == below;
    } else {
      var n := |scopes| - 1;
      var inner := below + AliveAll(scopes[..n]);
      assert below + AliveAll(scopes) == inner + Alive(scopes[n]);
      UnwindNests(inner, scopes[n]);
      UnwindAllNests(below, scopes[..n]);
      NestThen(inner + Alive(scopes[n]), Unwind(scopes[n], None), UnwindAll(scopes[..n], None));
    }
  }

  lemma {:induction false} Undeclared(scope: Scope, x: Symbol)
    requires forall l | l in scope :: l.x != x
    ensures Unwind(scope, Some(x)) == Unwind(scope, None)
  {
    if scope != [] {
      assert scope[0] in scope;
      assert forall l | l in scope[1..] :: l in scope;
      Undeclared(scope[1..], x);
    }
  }

  lemma {:induction false} AliveIn(scope: Scope)
    ensures forall l | l in Alive(scope) :: l in scope && l.dtor
  {
    if scope != [] { AliveIn(scope[..|scope| - 1]); }
  }

  lemma UnwindAround(outer: Scope, l: Local, inner: Scope, moved: Option<Symbol>)
    ensures Unwind(outer + ([l] + inner), moved)
      == Unwind(inner, moved) + (if l.dtor && Some(l.x) != moved then [Destroyed(l)] else []) + Unwind(outer, moved)
  {
    UnwindAppend(outer, [l] + inner, moved);
    assert ([l] + inner)[1..] == inner;
  }

  lemma AliveAround(outer: Scope, l: Local, inner: Scope)
    ensures Alive(outer + ([l] + inner)) == Alive(outer) + (if l.dtor then [l] else []) + Alive(inner)
  {
    AliveAppend(outer, [l] + inner);
    AliveAppend([l], inner);
    var own := if l.dtor then [l] else [];
    assert [l][..0] == [] && Alive([l]) == own;
    assert Alive(outer) + (own + Alive(inner)) == Alive(outer) + own + Alive(inner);
  }

  /** Sparing a name in one scope is having the scope without the local of that name. */
  lemma WithoutOne(scope: Scope, x: Symbol) returns (without: Scope, a: seq<Local>, b: seq<Local>)
    requires DistinctLocals(scope) && Named(scope, Some(x)).Some?
    ensures Unwind(scope, Some(x)) == Unwind(without, None)
    ensures
      var l := Named(scope, Some(x)).value;
      Alive(scope) == a + (if l.dtor then [l] else []) + b && Alive(without) == a + b && forall o | o in b :: o.x != x
  {
    hide Declares, Unwind, Alive, Named;
    var l := Named(scope, Some(x)).value;
    var k :| 0 <= k < |scope| && scope[k] == l;
    var outer, inner := scope[..k], scope[k + 1..];
    without, a, b := outer + inner, Alive(outer), Alive(inner);
    assert scope == outer + ([l] + inner);
    forall o | o in outer || o in inner ensures o.x != x {
      var i :| 0 <= i < |scope| && i != k && scope[i] == o;
    }
    UnwindAround(outer, l, inner, Some(x));
    Undeclared(outer, x);
    Undeclared(inner, x);
    UnwindAppend(outer, inner, None);
    AliveAround(outer, l, inner);
    AliveAppend(outer, inner);
    AliveIn(inner);
    assert Unwind(inner, None) + [] == Unwind(inner, None);
  }

  /** Sparing a name on the way out of several scopes is having them without the innermost local of that name. */
  lemma {:induction false} WithoutOneOfAll(scopes: seq<Scope>, x: Symbol)
    returns (without: seq<Scope>, a: seq<Local>, b: seq<Local>)
    requires forall s | s in scopes :: DistinctLocals(s)
    ensures UnwindAll(scopes, Some(x)) == UnwindAll(without, None)
    ensures
      var l := SparedIn(scopes, Some(x));
      && AliveAll(scopes) == a + (if l.Some? then [l.value] else []) + b && AliveAll(without) == a + b
      && forall o | o in b :: o.x != x
    ensures SparedIn(scopes, Some(x)).Some? ==> SparedIn(scopes, Some(x)).value.x == x
    decreases |scopes|
  {
    hide Unwind, DistinctLocals, Alive, Named;
    without, a, b := [], [], [];
    if scopes != [] {
      var n := |scopes| - 1;
      var top, outer := scopes[n], scopes[..n];
      assert top in scopes;
      if Named(top, Some(x)).Some? {
        var rest, a1, b1 := WithoutOne(top, x);
        without, a, b := outer + [rest], AliveAll(outer) + a1, b1;
        OneScopeMore(outer, rest);
        var l := Named(top, Some(x));
        var own := if l.value.dtor then [l.value] else [];
        assert AliveAll(outer) + (a1 + own + b1) == AliveAll(outer) + a1 + own + b1;
        assert AliveAll(outer) + (a1 + b1) == AliveAll(outer) + a1 + b1;
      } else {
        var rest, b0;
        rest, a, b0 := WithoutOneOfAll(outer, x);
        without, b := rest + [top], b0 + Alive(top);
        OneScopeMore(rest, top);
        TopUndeclared(top, x);
        var l := SparedIn(outer, Some(x));
        var own := if l.Some? then [l.value] else [];
        assert a + own + b0 + Alive(top) == a + own + (b0 + Alive(top)) && a + b0 + Alive(top) == a + (b0 + Alive(top));
      }
    }
  }

  lemma OneScopeMore(scopes: seq<Scope>, top: Scope)
    ensures UnwindAll(scopes + [top], None) == Unwind(top, None) + UnwindAll(scopes, None)
    ensures AliveAll(scopes + [top]) == AliveAll(scopes) + Alive(top)
  {
    assert (scopes + [top])[..|scopes + [top]| - 1] == scopes;
  }

  lemma TopUndeclared(scope: Scope, x: Symbol)
    requires Named(scope, Some(x)).None?
    ensures Unwind(scope, Some(x)) == Unwind(scope, None) && forall o | o in Alive(scope) :: o.x != x
  {
    AliveIn(scope);
    Undeclared(scope, x);
  }

  /** A return that has left every scope has destroyed everything but what it spares, the local that it names. */
  lemma LeftEverything(e: Exit, mayMove: bool)
    requires Leaving(e, [], mayMove)
    ensures e.spared.None? ==> DestroyedOnce(e.h)
    ensures e.spared.Some? ==> mayMove && DestroyedBut(e.h, e.spared.value)
  {
    hide UnwindAll, AliveAll, SparedIn, DistinctLocals, Nest;
    var h0: Trace, scopes: seq<Scope>, moved0: Option<Symbol> :| LeavingVia(e, [], mayMove, h0, scopes, moved0);
    assert [] + AliveAll(scopes) == AliveAll(scopes);
    var out := UnwindAll(scopes, moved0);
    MovedOnce(scopes, moved0);
    if moved0.Some? {
      var without, a, b := WithoutOneOfAll(scopes, moved0.value);
      UnwindAllNests([], without);
      assert [] + (a + b) == a + b;
      if e.spared.Some? {
        assert e.h[..|h0|] == h0 && e.h[|h0|..] == out;
        assert SparesAt(e.h, e.spared.value, [], |h0|, a, b);
      } else {
        assert a + [] + b == a + b;
        NestThen([], h0, out);
      }
    } else {
      UnwindAllNests([], scopes);
      NestThen([], h0, out);
    }
  }

  // ---------------------------------------------------------------- how often

  function Constructions(h: Trace, l: Local): nat {
    if h == [] then 0
    else
      var last := h[|h| - 1];
      Constructions(h[..|h| - 1], l) + (if last.Constructed? && last.l == l then 1 else 0)
  }

  function Destructions(h: Trace, l: Local): nat {
    if h == [] then 0
    else Destructions(h[..|h| - 1], l) + (if h[|h| - 1] == Destroyed(l) then 1 else 0)
  }

  lemma {:induction false} AliveCounts(alive: seq<Local>, h: Trace, l: Local)
    requires Nest(alive, h).Some?
    ensures multiset(Nest(alive, h).value)[l] + Destructions(h, l)
      == multiset(alive)[l] + (if l.dtor then Constructions(h, l) else 0)
  {
    hide After;
    if h != [] {
      var n := |h| - 1;
      AliveCounts(alive, h[..n], l);
      AfterCounts(Nest(alive, h[..n]).value, h[n], l);
    }
  }

  lemma AfterCounts(alive: seq<Local>, e: Event, l: Local)
    requires After(alive, e).Some?
    ensures multiset(After(alive, e).value)[l] + (if e == Destroyed(l) then 1 else 0)
      == multiset(alive)[l] + (if e.Constructed? && e.l == l && l.dtor then 1 else 0)
  {
    if e.Destroyed? {
      assert alive == alive[..|alive| - 1] + [alive[|alive| - 1]];
    }
  }

  lemma {:induction false} CountsAdd(a: Trace, b: Trace, l: Local)
    ensures Constructions(a + b, l) == Constructions(a, l) + Constructions(b, l)
    ensures Destructions(a + b, l) == Destructions(a, l) + Destructions(b, l)
  {
    if b == [] {
      assert a + b == a;
    } else {
      CountsAdd(a, b[..|b| - 1], l);
      assert (a + b)[..|a + b| - 1] == a + b[..|b| - 1];
    }
  }

  /**
   A local is destroyed as often as it is constructed if it has a destructor, and else never; the local that is
   moved out is destroyed once less.
   */
  lemma DestroyedAsOften(h: Trace, l: Local, spared: Option<Local>)
    requires if spared.None? then DestroyedOnce(h) else DestroyedBut(h, spared.value)
    ensures Destructions(h, l) + (if Some(l) == spared then 1 else 0) == if l.dtor then Constructions(h, l) else 0
  {
    hide Nest, Constructions, Destructions;
    if spared.None? {
      AliveCounts([], h, l);
    } else {
      var k: nat, a: seq<Local>, b: seq<Local> :| SparesAt(h, spared.value, [], k, a, b);
      AliveCounts([], h[..k], l);
      AliveCounts(a + b, h[k..], l);
      CountsAdd(h[..k], h[k..], l);
      assert h == h[..k] + h[k..];
      assert multiset(a + [spared.value] + b) == multiset(a + b) + multiset{spared.value};
    }
  }
}
