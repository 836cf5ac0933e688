/**
 When the emitted code of a `for` ends as the loop is meant to end.

 It does if the guards of all rounds hold.  There is one way in which it does although a guard failed: the header
 was destroyed one round too early, and neither reading shows anything between the two places.
 */
module ForOutcomes {
  import opened Options
  import opened Cfg
  import opened Source
  import opened ForScopes
  import opened ForMeaning
  import opened Destruction
  import opened Heights
  import Fuel

  /** The body, as it is meant and, where it agrees, emitted. */
  ghost function BodyRun(w: World, s: Stmt, r: Rules, h: Trace, header: Scope, fuel: nat): Run
    requires s.For?
  {
    ExecList(w, s.body, In(r.(depth := InWhile(r.depth)), AsMeant), h, header, fuel)
  }

  ghost predicate BreaksSilently(w: World, s: Stmt, r: Rules, h: Trace, header: Scope, fuel: nat)
    requires s.For?
  {
    var run := BodyRun(w, s, r, h, header, fuel);
    run.Fin? && run.h == h && run.out == Jumped(Break, 1)
  }

  /**
   After the trace `meant`, the loop as it is meant ends at once and shows nothing but the header's destructions; and
   so does the emitted one, which has shown them already.
   */
  ghost predicate EndsHere(w: World, s: Stmt, r: Rules, meant: Trace, header: Scope, fuel: nat)
    requires s.For?
  {
    var emitted := meant + Unwind(header, None);
    var (again, h) := EvalCond(w, s.cond, meant);
    && EvalCond(w, s.cond, emitted) == (false, emitted)
    && h == meant && (again ==> BreaksSilently(w, s, r, meant, header, fuel))
  }

  /** The first round ends normally, and the loop ends right after it, in both readings. */
  ghost predicate EndsAlike(w: World, s: Stmt, r: Rules, h: Trace, header: Scope, fuel: nat, atBody: bool)
    requires s.For?
  {
    var (c, h1) := if atBody then (true, h) else EvalCond(w, s.cond, h);
    var run := BodyRun(w, s, r, h1, header, fuel);
    && fuel >= 2 && !Quiet(header) && c && run.Fin? && run.out.Normal?
    && EndsHere(w, s, r, EvalAll(w, s.post, run.h).1 + Unwind(OwnLocals(s.body), None), header, fuel - 1)
  }

  // ---------------------------------------------------------------- traces

  lemma Prefixes(a: Trace, b: Trace, c: Trace)
    requires a <= b && b <= c
    ensures a <= c && |a| <= |b| <= |c| && (|c| == |a| ==> a == b == c) && b == c[..|b|]
  {
  }

  lemma Appended(a: Trace, b: Trace)
    ensures a <= a + b && |a + b| == |a| + |b|
  {
  }

  lemma StillHigher(h: Trace, p: Trace, end: Trace, low: int)
    requires AboveUntil(h, end, low) && h <= p <= end
    ensures p != end ==> Height(p) > low
  {
    if |p| < |end| { assert end[..|p|] == p; }
  }

  lemma EndNeedsFuel(w: World, s: Stmt, r: Rules, h: Trace, header: Scope, live: Scope, fuel: nat, atBody: bool)
    requires s.For? && ExecFor(w, s, r, h, header, live, fuel, atBody).Fin?
    ensures fuel > 0
  {
  }

  /** The emitted loop only adds to the trace. */
  lemma {:induction false} EmittedGrows(w: World, s: Stmt, r: Rules, h: Trace, header: Scope, live: Scope, fuel: nat,
                                        atBody: bool)
    requires s.For? && BodyAgrees(w, s, r, header)
    ensures h <= ExecFor(w, s, In(r, AsEmitted), h, header, live, fuel, atBody).h
    decreases fuel
  {
    hide ForRound, BodyAgrees;
    if fuel > 0 {
      var round := ForRound(w, s, In(r, AsEmitted), h, header, live, fuel, atBody);
      RoundGrows(w, s, r, h, header, live, fuel, atBody);
      if round.Goes? { EmittedGrows(w, s, r, round.h, header, live, fuel - 1, round.atBody); }
    }
  }

  lemma RoundGrows(w: World, s: Stmt, r: Rules, h: Trace, header: Scope, live: Scope, fuel: nat, atBody: bool)
    requires s.For? && BodyAgrees(w, s, r, header)
    ensures
      match ForRound(w, s, In(r, AsEmitted), h, header, live, fuel, atBody)
      case Leaves(run) => h <= run.h
      case Goes(h1, _) => h <= h1
  {
    hide ExecList, EvalCond, EvalAll, Unwind, Height;
    CondKeeps(w, s.cond, h);
    var h1 := if atBody then h else EvalCond(w, s.cond, h).1;
    var run := BodyRun(w, s, r, h1, header, fuel);
    assert run == ExecList(w, s.body, In(r.(depth := InWhile(r.depth)), AsEmitted), h1, header, fuel);
    ListKeeps(w, s.body, In(r.(depth := InWhile(r.depth)), AsMeant), h1, header, fuel);
    if run.Fin? {
      EvalAllKeeps(w, s.post, run.h);
      EvalAllKeeps(w, s.post, run.h + Unwind(run.live, None));
    }
  }

  // ---------------------------------------------------------------- the header was destroyed too early

  lemma {:induction false} NothingUnwound(scope: Scope, moved: Option<Symbol>)
    requires Unwind(scope, moved) == []
    ensures forall l | l in scope && l.dtor :: Some(l.x) == moved
  {
    if scope != [] {
      NothingUnwound(scope[1..], moved);
      forall l | l in scope && l.dtor ensures Some(l.x) == moved {
        if l != scope[0] { assert l in scope[1..]; }
      }
    }
  }

  /** What a scope with a destructor does not show when it is closed is the local that is moved out. */
  lemma SilentlyClosed(scope: Scope, header: Scope, moved: Option<Symbol>)
    requires header <= scope && !Quiet(header) && DistinctLocals(scope)
    ensures Unwind(scope, moved) == [] ==> Named(scope, moved).Some? && Named(scope, moved).value.dtor
  {
    if Unwind(scope, moved) == [] {
      NothingUnwound(scope, moved);
      var i :| 0 <= i < |header| && header[i].dtor;
      assert scope[i] == header[i] && scope[i] in scope;
      var l := Named(scope, moved).value;
      var j :| 0 <= j < |scope| && scope[j] == l;
      assert scope[i].x == scope[j].x;
    }
  }

  /** An emitted loop that shows nothing more ends by its condition, or returns a local of its header. */
  lemma EmittedSilent(w: World, s: Stmt, r: Rules, h: Trace, header: Scope, live: Scope, fuel: nat, atBody: bool)
    requires s.For? && BodyAgrees(w, s, r, header) && !Quiet(header) && DistinctLocals(header + OwnLocals(s.body))
    requires
      var run := ExecFor(w, s, In(r, AsEmitted), h, header, live, fuel, atBody);
      run.Fin? && run.h == h
    ensures
      var run := ExecFor(w, s, In(r, AsEmitted), h, header, live, fuel, atBody);
      || (!atBody && EvalCond(w, s.cond, h) == (false, h) && run == Fin(h, live, Normal))
      || (run.out.Returned? && run.out.spared.Some?)
  {
    hide ExecList, EvalCond, EvalAll, Unwind, Height, Quiet, DistinctLocals;
    CondKeeps(w, s.cond, h);
    var (c, h1) := if atBody then (true, h) else EvalCond(w, s.cond, h);
    if c {
      var run := BodyRun(w, s, r, h1, header, fuel);
      assert run == ExecList(w, s.body, In(r.(depth := InWhile(r.depth)), AsEmitted), h1, header, fuel);
      ListKeeps(w, s.body, In(r.(depth := InWhile(r.depth)), AsMeant), h1, header, fuel);
      ListGrows(w, s.body, In(r.(depth := InWhile(r.depth)), AsMeant), h1, header, fuel);
      assert run.Fin?;
      EmittedShows(w, s, r, h, run, header, live, fuel, atBody);
    }
  }

  /** Whatever the loop does after its body, it shows destructions, but for a return that moves the only local out. */
  lemma EmittedShows(w: World, s: Stmt, r: Rules, h: Trace, run: Run, header: Scope, live: Scope, fuel: nat,
                     atBody: bool)
    requires s.For? && fuel > 0 && BodyAgrees(w, s, r, header) && !Quiet(header)
    requires DistinctLocals(header + OwnLocals(s.body)) && h <= run.h
    requires run.Fin? && header <= run.live <= header + OwnLocals(s.body)
    requires ForRound(w, s, In(r, AsEmitted), h, header, live, fuel, atBody)
        == AfterRound(w, s, run, header, live, AsEmitted)
    ensures
      var all := ExecFor(w, s, In(r, AsEmitted), h, header, live, fuel, atBody);
      all.Fin? ==> all.h != h || (all.out.Returned? && all.out.spared.Some?)
  {
    hide ForRound, EvalAll, Unwind, BodyAgrees, Quiet, DistinctLocals;
    ScopesShow(header, run.live, header + OwnLocals(s.body));
    match AfterBody(run.out, true)
    case Again =>
      var h1 := if run.out.Normal? then run.h else run.h + Unwind(run.live, None);
      EvalAllKeeps(w, s.post, h1);
      var next := EvalAll(w, s.post, h1).1 + Unwind(header + OwnLocals(s.body), None);
      EmittedGrows(w, s, r, next, header, live, fuel - 1, false);
    case Retry =>
      EmittedGrows(w, s, r, run.h + Unwind(run.live, None), header, live, fuel - 1, true);
    case Stop =>
    case Pass(_) =>
      if run.out.Returned? {
        PartDistinct(run.live, header + OwnLocals(s.body));
        SilentlyClosed(run.live, header, run.out.moved);
      }
  }

  lemma ScopesShow(header: Scope, live: Scope, all: Scope)
    requires header <= live <= all && !Quiet(header)
    ensures |Unwind(live, None)| > 0 && |Unwind(all, None)| > 0
  {
    var i :| 0 <= i < |header| && header[i].dtor;
    assert live[i] == header[i] && all[i] == header[i];
    QuietHasNone(live);
    QuietHasNone(all);
    UnwindLength(live, None);
    UnwindLength(all, None);
  }

  lemma PartDistinct(live: Scope, all: Scope)
    requires live <= all && DistinctLocals(all)
    ensures DistinctLocals(live)
  {
  }

  // ---------------------------------------------------------------- the loop as it is meant

  /** A loop that goes on without showing anything goes on for good. */
  lemma {:induction false} Endless(w: World, s: Stmt, r: Rules, h: Trace, header: Scope, live: Scope, fuel: nat,
                                   atBody: bool)
    requires s.For? && ForRound(w, s, r, h, header, live, fuel, atBody) == Goes(h, atBody)
    ensures ExecFor(w, s, r, h, header, live, fuel, atBody).OutOfFuel?
    decreases fuel
  {
    hide ForRound;
    if fuel > 1 {
      Fuel.RoundFurther(w, s, r, h, header, live, fuel - 1, atBody);
      var before := ForRound(w, s, r, h, header, live, fuel - 1, atBody);
      if before.Goes? || before.run.Fin? { Endless(w, s, r, h, header, live, fuel - 1, atBody); }
    }
  }

  /** Among the traces on the way to the header's destruction, only the first one has its height. */
  lemma OnlyFirst(h: Trace, header: Scope, p: Trace)
    requires h <= p <= h + Unwind(header, None) && Height(p) >= Height(h)
    ensures p == h
  {
    var t := Unwind(header, None)[..|p| - |h|];
    UnwindLength(header, None);
    assert p == h + t;
    FallsBy(h, t);
  }

  /** A loop that shows nothing but the header's destructions ends by its condition, or by a `break` right after it. */
  lemma MeantSilent(w: World, s: Stmt, r: Rules, h: Trace, header: Scope, live: Scope, fuel: nat)
    requires s.For?
    requires ExecFor(w, s, In(r, AsMeant), h, header, live, fuel, false) == Fin(h + Unwind(header, None), live, Normal)
    ensures fuel > 0 && EvalCond(w, s.cond, h).1 == h
    ensures EvalCond(w, s.cond, h).0 ==> BreaksSilently(w, s, r, h, header, fuel)
  {
    hide ExecList, EvalCond, EvalAll, Unwind, Height;
    var meant := In(r, AsMeant);
    var (c, h1) := EvalCond(w, s.cond, h);
    CondKeeps(w, s.cond, h);
    if c {
      var run := BodyRun(w, s, r, h1, header, fuel);
      BodyKeeps(w, s, r, h1, header, fuel);
      var round := ForRound(w, s, meant, h, header, live, fuel, false);
      RoundKeepsBelow(w, s, meant, h, header, live, fuel, false);
      MeantGrows(w, s, meant, h, header, live, fuel);
      OnlyFirst(h, header, h1);
      OnlyFirst(h, header, run.h);
      if round.Goes? {
        OnlyFirst(h, header, round.h);
        assert round == Goes(h, round.atBody);
        GoesOn(w, s, meant, h, header, live, fuel, round.atBody);
      }
    } else {
      assert h1 + Unwind(header, None) == h + Unwind(header, None);
      Prefixes(h, h1, h1);
      assert |h1| == |h|;
    }
  }

  lemma BodyKeeps(w: World, s: Stmt, r: Rules, h: Trace, header: Scope, fuel: nat)
    requires s.For?
    ensures
      var run := BodyRun(w, s, r, h, header, fuel);
      && h <= run.h && Height(run.h) >= Height(h)
      && (run.Fin? ==> header <= run.live <= header + OwnLocals(s.body))
      && (run.Fin? ==> Height(run.h) >= Height(h) + Dtors(run.live) - Dtors(header))
      && (run.Fin? && (run.out.Normal? || run.out.Jumped?) ==>
            Height(run.h) == Height(h) + Dtors(run.live) - Dtors(header))
      && (run.Fin? && run.out.Normal? ==> run.live == header + OwnLocals(s.body))
  {
    hide ExecList, Height, Dtors;
    var inner := In(r.(depth := InWhile(r.depth)), AsMeant);
    ListKeeps(w, s.body, inner, h, header, fuel);
    ListGrows(w, s.body, inner, h, header, fuel);
    var run := BodyRun(w, s, r, h, header, fuel);
    AboveLess(h, run.h, Height(h), Height(h));
  }

  /** The places that a round of the meant loop passes are on the way to its end. */
  lemma MeantGrows(w: World, s: Stmt, r: Rules, h: Trace, header: Scope, live: Scope, fuel: nat)
    requires s.For? && r.mode.AsMeant? && fuel > 0 && EvalCond(w, s.cond, h).0
    ensures
      var h1 := EvalCond(w, s.cond, h).1;
      var run := ExecList(w, s.body, r.(depth := InWhile(r.depth)), h1, header, fuel);
      var end := ExecFor(w, s, r, h, header, live, fuel, false).h;
      && h <= h1 <= run.h <= end
      && var round := ForRound(w, s, r, h, header, live, fuel, false);
        round.Goes? ==> run.h <= round.h <= end
  {
    hide ExecList, EvalCond, EvalAll, Unwind, Height;
    CondKeeps(w, s.cond, h);
    var h1 := EvalCond(w, s.cond, h).1;
    var run := ExecList(w, s.body, r.(depth := InWhile(r.depth)), h1, header, fuel);
    ListKeeps(w, s.body, r.(depth := InWhile(r.depth)), h1, header, fuel);
    if run.Fin? { EvalAllKeeps(w, s.post, run.h); }
    var round := ForRound(w, s, r, h, header, live, fuel, false);
    if round.Goes? { ForKeepsBelow(w, s, r, round.h, header, live, fuel - 1, round.atBody); }
  }

  /** A silent round after which the body runs again, with or without the condition, is repeated. */
  lemma GoesOn(w: World, s: Stmt, r: Rules, h: Trace, header: Scope, live: Scope, fuel: nat, atBody: bool)
    requires s.For? && fuel > 0 && EvalCond(w, s.cond, h) == (true, h)
    requires ForRound(w, s, r, h, header, live, fuel, false) == Goes(h, atBody)
    ensures ExecFor(w, s, r, h, header, live, fuel, false).OutOfFuel?
  {
    assert ForRound(w, s, r, h, header, live, fuel, true) == Goes(h, atBody);
    Endless(w, s, r, h, header, live, fuel, atBody);
  }

  // ---------------------------------------------------------------- both together

  /** Once the emitted loop has destroyed the header too early, it ends as it should only if both end here. */
  lemma AfterSurplus(w: World, s: Stmt, r: Rules, meant: Trace, header: Scope, live: Scope, fuel: nat, atBody: bool)
    requires s.For? && BodyAgrees(w, s, r, header) && !Quiet(header) && DistinctLocals(header + OwnLocals(s.body))
    requires ExecFor(w, s, In(r, AsEmitted), meant + Unwind(header, None), header, live, fuel, atBody).Fin?
    ensures ExecFor(w, s, In(r, AsEmitted), meant + Unwind(header, None), header, live, fuel, atBody)
        == ExecFor(w, s, In(r, AsMeant), meant, header, live, fuel, atBody)
      <==> !atBody && EndsHere(w, s, r, meant, header, fuel)
  {
    hide ExecFor, EndsHere, BodyAgrees, Quiet, DistinctLocals, Unwind, Height, EvalCond;
    var emitted := meant + Unwind(header, None);
    var e := ExecFor(w, s, In(r, AsEmitted), emitted, header, live, fuel, atBody);
    var m := ExecFor(w, s, In(r, AsMeant), meant, header, live, fuel, atBody);
    if e == m {
      EndsAtOnce(w, s, r, meant, header, live, fuel, atBody);
      EmittedSilent(w, s, r, emitted, header, live, fuel, atBody);
      ForKeepsBelow(w, s, In(r, AsMeant), meant, header, live, fuel, atBody);
      UnwindFalls(meant, header, None);
      MeantSilent(w, s, r, meant, header, live, fuel);
      assert EndsHere(w, s, r, meant, header, fuel) by { BothEnd(w, s, r, meant, header, fuel); }
    } else if !atBody && EndsHere(w, s, r, meant, header, fuel) {
      EndNeedsFuel(w, s, In(r, AsEmitted), emitted, header, live, fuel, atBody);
      EndsHereIs(w, s, r, meant, header, live, fuel);
    }
  }

  lemma BothEnd(w: World, s: Stmt, r: Rules, meant: Trace, header: Scope, fuel: nat)
    requires s.For? && EvalCond(w, s.cond, meant + Unwind(header, None)) == (false, meant + Unwind(header, None))
    requires EvalCond(w, s.cond, meant).1 == meant
    requires EvalCond(w, s.cond, meant).0 ==> BreaksSilently(w, s, r, meant, header, fuel)
    ensures EndsHere(w, s, r, meant, header, fuel)
  {
  }

  /** As the header is destroyed with the last events of the meant loop, there is nothing after them. */
  lemma EndsAtOnce(w: World, s: Stmt, r: Rules, meant: Trace, header: Scope, live: Scope, fuel: nat, atBody: bool)
    requires s.For? && BodyAgrees(w, s, r, header) && !Quiet(header)
    requires ExecFor(w, s, In(r, AsEmitted), meant + Unwind(header, None), header, live, fuel, atBody)
      == ExecFor(w, s, In(r, AsMeant), meant, header, live, fuel, atBody)
    ensures ExecFor(w, s, In(r, AsMeant), meant, header, live, fuel, atBody).h == meant + Unwind(header, None)
  {
    hide ExecFor, BodyAgrees, Unwind, Height;
    var emitted := meant + Unwind(header, None);
    var end := ExecFor(w, s, In(r, AsMeant), meant, header, live, fuel, atBody).h;
    EmittedGrows(w, s, r, emitted, header, live, fuel, atBody);
    ForKeepsBelow(w, s, In(r, AsMeant), meant, header, live, fuel, atBody);
    QuietHasNone(header);
    UnwindFalls(meant, header, None);
    Appended(meant, Unwind(header, None));
    StillHigher(meant, emitted, end, Height(meant) - Dtors(header));
  }

  lemma EndsHereIs(w: World, s: Stmt, r: Rules, meant: Trace, header: Scope, live: Scope, fuel: nat)
    requires s.For? && fuel > 0 && EndsHere(w, s, r, meant, header, fuel)
    ensures ExecFor(w, s, In(r, AsEmitted), meant + Unwind(header, None), header, live, fuel, false)
      == ExecFor(w, s, In(r, AsMeant), meant, header, live, fuel, false)
  {
    hide ExecList, EvalCond, EvalAll, Unwind, Height, Dtors;
    if EvalCond(w, s.cond, meant).0 {
      BodyKeeps(w, s, r, meant, header, fuel);
      var live1 := BodyRun(w, s, r, meant, header, fuel).live;
      var own := Beyond(live1, header);
      assert live1 == header + own;
      DtorsThen(header, own);
      QuietHasNone(own);
      QuietUnwind(own, None);
      UnwindAppend(header, own, None);
      assert [] + Unwind(header, None) == Unwind(header, None);
    }
  }

  /** A round whose guard fails: the loop ends as it should only if it ends alike right after the round. */
  lemma FailedRound(w: World, s: Stmt, r: Rules, h: Trace, header: Scope, live: Scope, fuel: nat, atBody: bool)
    requires s.For? && BodyAgrees(w, s, r, header) && DistinctLocals(header + OwnLocals(s.body))
    requires fuel > 0 && !RoundKeeps(w, s, r, h, header, fuel, atBody)
    requires ExecFor(w, s, In(r, AsEmitted), h, header, live, fuel, atBody).Fin?
    ensures ExecFor(w, s, In(r, AsEmitted), h, header, live, fuel, atBody)
        == ExecFor(w, s, In(r, AsMeant), h, header, live, fuel, atBody)
      <==> EndsAlike(w, s, r, h, header, fuel, atBody)
  {
    hide ExecList, EvalCond, EvalAll, Unwind, Height, Dtors, Quiet, DistinctLocals, EndsHere;
    var (c, h1) := if atBody then (true, h) else EvalCond(w, s.cond, h);
    if !c {
      LeavesExactly(h1, header, live);
    } else {
      var run := BodyRun(w, s, r, h1, header, fuel);
      assert run == ExecList(w, s.body, In(r.(depth := InWhile(r.depth)), AsEmitted), h1, header, fuel);
      BodyKeeps(w, s, r, h1, header, fuel);
      var own, all := Beyond(run.live, header), header + OwnLocals(s.body);
      assert run.live == header + own;
      UnwindAppend(header, own, None);
      if run.out.Normal? {
        var meant := EvalAll(w, s.post, run.h).1 + Unwind(own, None);
        assert own == OwnLocals(s.body);
        assert EvalAll(w, s.post, run.h).1 + Unwind(all, None) == meant + Unwind(header, None);
        AfterSurplus(w, s, r, meant, header, live, fuel - 1, false);
      } else if AfterBody(run.out, true).Retry? {
        var meant := run.h + Unwind(own, None);
        assert run.h + Unwind(run.live, None) == meant + Unwind(header, None);
        AfterSurplus(w, s, r, meant, header, live, fuel - 1, true);
      } else {
        ContinueDiffers(w, s, r, h, h1, header, live, fuel, atBody);
      }
    }
  }

  /** After a `continue` with something to destroy, the emitted loop destroys more than the meant one ever does. */
  lemma ContinueDiffers(w: World, s: Stmt, r: Rules, h: Trace, h1: Trace, header: Scope, live: Scope, fuel: nat,
                        atBody: bool)
    requires s.For? && fuel > 0 && BodyAgrees(w, s, r, header)
    requires if atBody then h1 == h else EvalCond(w, s.cond, h) == (true, h1)
    requires
      var run := BodyRun(w, s, r, h1, header, fuel);
      && run.Fin? && run.out.Jumped? && AfterBody(run.out, true).Again? && !Quiet(header + OwnLocals(s.body))
    ensures ExecFor(w, s, In(r, AsEmitted), h, header, live, fuel, atBody)
      != ExecFor(w, s, In(r, AsMeant), h, header, live, fuel, atBody)
  {
    hide ExecList, EvalCond, EvalAll, Unwind, Height, Dtors, Quiet;
    var run := BodyRun(w, s, r, h1, header, fuel);
    assert run == ExecList(w, s.body, In(r.(depth := InWhile(r.depth)), AsEmitted), h1, header, fuel);
    var all := header + OwnLocals(s.body);
    var h2 := run.h + Unwind(run.live, None);
    var h3 := EvalAll(w, s.post, h2).1;
    CondKeeps(w, s.cond, h);
    BodyKeeps(w, s, r, h1, header, fuel);
    UnwindFalls(run.h, run.live, None);
    EvalAllKeeps(w, s.post, h2);
    UnwindFalls(h3, all, None);
    QuietHasNone(all);
    EmittedGrows(w, s, r, h3 + Unwind(all, None), header, live, fuel - 1, false);
    ForKeepsBelow(w, s, In(r, AsMeant), h, header, live, fuel, atBody);
    var end := ExecFor(w, s, In(r, AsMeant), h, header, live, fuel, atBody).h;
    NotBelow(h, h3 + Unwind(all, None), end, Height(h) - Dtors(header));
  }

  lemma NotBelow(h: Trace, p: Trace, end: Trace, low: int)
    requires Above(h, end, low) && h <= p
    ensures p <= end ==> Height(p) >= low
  {
    if p <= end { assert end[..|p|] == p; }
  }

  /**
   An emitted loop that ends, ends as it is meant to if and only if the guards of all its rounds hold, or the header is
   destroyed after the first round and the loop ends right there, in both readings, without showing anything else.
   */
  lemma {:induction false} LoopEndsExactly(w: World, s: Stmt, r: Rules, h: Trace, header: Scope, live: Scope, fuel: nat,
                                           atBody: bool)
    requires s.For? && BodyAgrees(w, s, r, header) && DistinctLocals(header + OwnLocals(s.body))
    requires ExecFor(w, s, In(r, AsEmitted), h, header, live, fuel, atBody).Fin?
    ensures ExecFor(w, s, In(r, AsEmitted), h, header, live, fuel, atBody)
        == ExecFor(w, s, In(r, AsMeant), h, header, live, fuel, atBody)
      <==> LoopKeeps(w, s, r, h, header, live, fuel, atBody) || EndsAlike(w, s, r, h, header, fuel, atBody)
    decreases fuel
  {
    hide ForRound, RoundKeeps, BodyAgrees, EndsAlike, DistinctLocals;
    RoundAgreesExactly(w, s, r, h, header, live, fuel, atBody);
    if RoundKeeps(w, s, r, h, header, fuel, atBody) {
      var round := ForRound(w, s, In(r, AsMeant), h, header, live, fuel, atBody);
      KeptRound(w, s, r, h, header, live, fuel, atBody);
      if round.Goes? {
        LoopEndsExactly(w, s, r, round.h, header, live, fuel - 1, round.atBody);
        QuietNeverAlike(w, s, r, round.h, header, fuel - 1, round.atBody);
      }
    } else {
      FailedRound(w, s, r, h, header, live, fuel, atBody);
    }
  }

  /** A round that keeps to its scope and goes on has a header without destructors. */
  lemma KeptRound(w: World, s: Stmt, r: Rules, h: Trace, header: Scope, live: Scope, fuel: nat, atBody: bool)
    requires s.For? && RoundKeeps(w, s, r, h, header, fuel, atBody)
    ensures ForRound(w, s, In(r, AsMeant), h, header, live, fuel, atBody).Goes? ==> Quiet(header)
    ensures !EndsAlike(w, s, r, h, header, fuel, atBody)
  {
    hide ExecList, EvalCond, EvalAll, EndsHere, Quiet;
    QuietPart(header, OwnLocals(s.body));
  }

  lemma QuietPart(a: Scope, b: Scope)
    ensures Quiet(a + b) ==> Quiet(a)
  {
    if Quiet(a + b) {
      forall i | 0 <= i < |a| ensures !a[i].dtor { assert (a + b)[i] == a[i]; }
    }
  }

  lemma QuietNeverAlike(w: World, s: Stmt, r: Rules, h: Trace, header: Scope, fuel: nat, atBody: bool)
    requires s.For? && Quiet(header)
    ensures !EndsAlike(w, s, r, h, header, fuel, atBody)
  {
    hide EndsHere, ExecList;
  }

  // ---------------------------------------------------------------- whole statements

  lemma {:induction false} PlainDistinct(p: Plain, scope: Scope)
    requires DistinctLocals(scope) && ValidPlain(p, LocalNames(scope))
    ensures DistinctLocals(scope + OwnPlain(p))
    ensures LocalNames(scope + OwnPlain(p)) == LocalNames(scope) + Declares1(p)
    decreases p, 1
  {
    match p
    case Declare(x, decl, dtor, _) => OneMoreLocal(scope, Local(x, decl, dtor), []);
    case Group(ps) => PlainsDistinct(ps, scope);
    case _ => assert scope + [] == scope;
  }

  lemma {:induction false} PlainsDistinct(ps: seq<Plain>, scope: Scope)
    requires DistinctLocals(scope) && ValidPlains(ps, LocalNames(scope))
    ensures DistinctLocals(scope + OwnPlains(ps))
    ensures LocalNames(scope + OwnPlains(ps)) == LocalNames(scope) + DeclaredPlain(ps)
    decreases ps, 0
  {
    hide DistinctLocals, LocalNames;
    if ps == [] {
      assert scope + [] == scope;
    } else {
      var n := |ps| - 1;
      PlainsDistinct(ps[..n], scope);
      PlainDistinct(ps[n], scope + OwnPlains(ps[..n]));
      assert scope + OwnPlains(ps) == (scope + OwnPlains(ps[..n])) + OwnPlain(ps[n]);
    }
  }

  lemma {:induction false} ListDistinct(ss: seq<Stmt>, r: Rules, scope: Scope)
    requires DistinctLocals(scope) && ValidList(ss, r, LocalNames(scope))
    ensures DistinctLocals(scope + OwnLocals(ss))
    ensures LocalNames(scope + OwnLocals(ss)) == Declared(ss, LocalNames(scope))
    decreases ss
  {
    hide DistinctLocals, LocalNames;
    if ss == [] {
      assert scope + [] == scope;
    } else {
      var n := |ss| - 1;
      ListDistinct(ss[..n], r, scope);
      var before := scope + OwnLocals(ss[..n]);
      if ss[n].Basic? {
        PlainDistinct(ss[n].plain, before);
        assert scope + OwnLocals(ss) == before + OwnPlain(ss[n].plain);
      } else {
        assert scope + OwnLocals(ss) == before;
      }
    }
  }

  /** The same for a whole `for` that is valid, and whose body is emitted as it is meant. */
  lemma ForEndsExactly(w: World, s: Stmt, r: Rules, names: set<Symbol>, h: Trace, live: Scope, fuel: nat)
    requires s.For? && Valid(s, r, names) && BodyAgrees(w, s, r, OwnPlains(s.pre))
    requires Exec(w, s, In(r, AsEmitted), h, live, fuel).Fin?
    ensures
      var (h1, header) := ExecPlains(w, s.pre, h, []);
      Exec(w, s, In(r, AsEmitted), h, live, fuel) == Exec(w, s, In(r, AsMeant), h, live, fuel)
      <==> LoopKeeps(w, s, r, h1, header, live, fuel, false) || EndsAlike(w, s, r, h1, header, fuel, false)
  {
    hide DistinctLocals, ExecFor, LoopKeeps, EndsAlike, BodyAgrees;
    var (h1, header) := ExecPlains(w, s.pre, h, []);
    PlainsGrow(w, s.pre, h, []);
    NoLocals();
    PlainsDistinct(s.pre, []);
    assert [] + OwnPlains(s.pre) == OwnPlains(s.pre) == header;
    assert {} + DeclaredPlain(s.pre) == DeclaredPlain(s.pre);
    ListDistinct(s.body, r.(depth := InWhile(r.depth)), header);
    LoopEndsExactly(w, s, r, h1, header, live, fuel, false);
  }

  lemma NoLocals()
    ensures DistinctLocals([]) && LocalNames([]) == {}
  {
  }
}
