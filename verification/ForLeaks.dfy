/**
 What becomes of lifetimes where a `for` parts from its meaning.

 `LoweringIsEmitted` says that graphs do what the emitted reading of a body says; here is what that
 is for the three guards of a round, for every loop.
 */
module ForLeaks {
  import opened Options
  import opened Cfg
  import opened Source
  import opened ForScopes
  import opened ForMeaning
  import opened Destruction

  /** The locals that are alive below the scope of the loop, and those of the loop's header. */
  ghost predicate AtRound(h: Trace, below: seq<Local>, header: Scope) {
    Nest([], h) == Some(below + Alive(header))
  }

  /** A loop whose condition is false leaves exactly its header's destructables alive, for good. */
  lemma HeaderLeaks(w: World, s: Stmt, r: Rules, h: Trace, header: Scope, live: Scope, below: seq<Local>, fuel: nat)
    requires s.For? && r.mode.AsEmitted? && fuel > 0 && AtRound(h, below, header)
    requires !EvalCond(w, s.cond, h).0
    ensures
      var run := ExecFor(w, s, r, h, header, live, fuel, false);
      && run == Fin(EvalCond(w, s.cond, h).1, live, Normal)
      && Nest([], run.h) == Some(below + Alive(header))
  {
    CondNests(w, s.cond, h);
  }

  /** A round that ends normally destroys header and body; the next one finds the header destroyed. */
  lemma RoundDestroysHeader(w: World, s: Stmt, run: Run, header: Scope, live: Scope, below: seq<Local>)
    requires s.For? && InLoopScope(run, header, s.body)
    requires run.Fin? && run.out.Normal? && Nest([], run.h) == Some(below + Alive(run.live))
    ensures
      var round := AfterRound(w, s, run, header, live, AsEmitted);
      round.Goes? && Nest([], round.h) == Some(below)
  {
    EvalAllNests(w, s.post, run.h);
    Destroys(EvalAll(w, s.post, run.h).1, below, run.live);
  }

  /** So does a `redo`. */
  lemma RedoDestroysHeader(w: World, s: Stmt, run: Run, header: Scope, live: Scope, below: seq<Local>)
    requires s.For? && run.Fin? && AfterBody(run.out, true).Retry?
    requires Nest([], run.h) == Some(below + Alive(run.live))
    ensures
      var round := AfterRound(w, s, run, header, live, AsEmitted);
      round.Goes? && round.atBody && Nest([], round.h) == Some(below)
  {
    Destroys(run.h, below, run.live);
  }

  /**
   After a `continue`, all that header and body declare is destroyed once more, or for the first time
   though it was never constructed: that destroys what is not alive, or what lies outside the loop.
   */
  lemma ContinueDestroysAgain(w: World, s: Stmt, run: Run, header: Scope, live: Scope, below: seq<Local>)
    requires s.For? && InLoopScope(run, header, s.body)
    requires run.Fin? && AfterBody(run.out, true).Again? && !run.out.Normal?
    requires Nest([], run.h) == Some(below + Alive(run.live))
    ensures
      var round := AfterRound(w, s, run, header, live, AsEmitted);
      var all := header + OwnLocals(s.body);
      && round.Goes?
      && (Quiet(all) ==> Nest([], round.h) == Some(below))
      && (!Quiet(all) ==> Nest([], round.h).None? || |Nest([], round.h).value| < |below|)
      && (!Quiet(all) && (forall l | l in all :: l !in below) ==> Nest([], round.h).None?)
  {
    var h1 := EvalAll(w, s.post, run.h + Unwind(run.live, None)).1;
    var all := header + OwnLocals(s.body);
    Destroys(run.h, below, run.live);
    EvalAllNests(w, s.post, run.h + Unwind(run.live, None));
    NestThen([], h1, Unwind(all, None));
    UnwindsFrom(below, all);
  }

  /** Unwinding a scope that is not there takes away what lies below it, or destroys what is not alive. */
  lemma {:induction false} UnwindsFrom(alive: seq<Local>, scope: Scope)
    ensures
      var after := Nest(alive, Unwind(scope, None));
      && (Quiet(scope) ==> after == Some(alive))
      && (!Quiet(scope) ==> after.None? || |after.value| < |alive|)
      && (!Quiet(scope) && (forall l | l in scope :: l !in alive) ==> after.None?)
  {
    if scope != [] {
      var h, rest := Unwind(scope[1..], None), scope[1..];
      UnwindsFrom(alive, rest);
      QuietOne(scope);
      OnlyTakesAway(alive, rest);
      if scope[0].dtor {
        TakesOne(alive, h, scope[0]);
      } else {
        assert h + [] == h;
      }
    }
  }

  lemma QuietOne(scope: Scope)
    requires scope != []
    ensures Quiet(scope) <==> !scope[0].dtor && Quiet(scope[1..])
    ensures scope[0] in scope && forall l | l in scope[1..] :: l in scope
  {
    if !scope[0].dtor && Quiet(scope[1..]) {
      forall i | 0 <= i < |scope| ensures !scope[i].dtor {
        if i > 0 { assert scope[1..][i - 1] == scope[i]; }
      }
    }
    if Quiet(scope) {
      forall i | 0 <= i < |scope| - 1 ensures !scope[1..][i].dtor { assert scope[1..][i] == scope[i + 1]; }
    }
  }

  lemma {:induction false} OnlyTakesAway(alive: seq<Local>, scope: Scope)
    ensures Nest(alive, Unwind(scope, None)).Some? ==> Nest(alive, Unwind(scope, None)).value <= alive
  {
    if scope != [] {
      var h := Unwind(scope[1..], None);
      OnlyTakesAway(alive, scope[1..]);
      if scope[0].dtor {
        TakesOne(alive, h, scope[0]);
      } else {
        assert h + [] == h;
      }
    }
  }

  lemma TakesOne(alive: seq<Local>, h: Trace, l: Local)
    requires Nest(alive, h).Some? ==> Nest(alive, h).value <= alive
    ensures
      var after := Nest(alive, h + [Destroyed(l)]);
      && (after.Some? ==> Nest(alive, h).Some? && after.value < Nest(alive, h).value && after.value < alive)
      && (after.Some? ==> l in alive)
      && (Nest(alive, h).None? ==> after.None?)
  {
    if Nest(alive, h).Some? {
      NestOne(alive, h, Destroyed(l));
      var before := Nest(alive, h).value;
      assert before != [] ==> before[|before| - 1] in alive;
    } else {
      NestFails(alive, h, Destroyed(l));
    }
  }

  lemma NestFails(alive: seq<Local>, h: Trace, e: Event)
    ensures Nest(alive, h).None? ==> Nest(alive, h + [e]).None?
  {
    assert (h + [e])[..|h + [e]| - 1] == h;
  }

  /**
   A round whose guard fails breaks lifetimes at once: what is alive when the loop goes on, or has been
   left, is not what should be.
   */
  lemma FailedGuardBreaks(w: World, s: Stmt, r: Rules, h: Trace, header: Scope, live: Scope, below: seq<Local>,
                          fuel: nat, atBody: bool)
    requires s.For? && r.mode.AsEmitted? && BodyAgrees(w, s, r, header)
    requires AtRound(h, below, header) && !RoundKeeps(w, s, r, h, header, fuel, atBody)
    requires
      var (c, h1) := if atBody then (true, h) else EvalCond(w, s.cond, h);
      var run := ExecList(w, s.body, r.(depth := InWhile(r.depth)), h1, header, fuel);
      c && run.Fin? ==> Nest([], run.h) == Some(below + Alive(run.live))
    ensures
      match ForRound(w, s, r, h, header, live, fuel, atBody)
      case Leaves(run) => run.Fin? && Nest([], run.h).Some? && Nest([], run.h) != Some(below)
      case Goes(h2, _) => !AtRound(h2, below, header)
  {
    hide ExecList, EvalCond, EvalAll;
    var (c, h1) := if atBody then (true, h) else EvalCond(w, s.cond, h);
    AliveUnlessQuiet(header);
    if !c {
      CondNests(w, s.cond, h);
      assert |below + Alive(header)| == |below| + |Alive(header)|;
    } else {
      var inner := r.(depth := InWhile(r.depth));
      var run := ExecList(w, s.body, inner, h1, header, fuel);
      ListGrows(w, s.body, inner, h1, header, fuel);
      assert run == ExecList(w, s.body, In(inner, AsMeant), h1, header, fuel);
      if AfterBody(run.out, true).Retry? {
        RedoDestroysHeader(w, s, run, header, live, below);
      } else if run.out.Normal? {
        RoundDestroysHeader(w, s, run, header, live, below);
      } else {
        ContinueDestroysAgain(w, s, run, header, live, below);
      }
      assert |below + Alive(header)| == |below| + |Alive(header)|;
    }
  }

  lemma {:induction false} AliveUnlessQuiet(scope: Scope)
    ensures Alive(scope) == [] <==> Quiet(scope)
  {
    if scope != [] { AliveUnlessQuiet(scope[..|scope| - 1]); }
  }
}
