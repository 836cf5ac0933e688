/**
 Whole functions: what the code generator makes of a body, and that it means the same.

 The body of a function without a result gets a `return` if its last statement does not leave
 the function anyway.  A function is lowered without an error exactly when its body is valid.
 */
module Functions {
  import opened Options
  import opened Cfg
  import opened Source
  import opened Layout
  import opened Expressions
  import opened Unwinding
  import opened ForScopes
  import opened ForMeaning
  import opened Statements
  import opened Emission
  import opened CodeContexts
  import opened Laying
  import opened LayingStatements
  import CgnStatements
  import Errors
  import Fuel

  // ---------------------------------------------------------------- meaning

  /** How a run ends; `Parts` is the checked reading's end where emitted and meant loops part. */
  datatype Behaviour = Ends(v: Option<int>, h: Trace, spared: Option<Local>) | Runs(h: Trace) | Parts(h: Trace)

  function RulesFor(result: Returns, mode: Mode): Rules {
    Rules(Depth(0, 0, 0), result, mode)
  }

  /** The body with the implicit `return` of a function without a result. */
  function Completed(body: seq<Stmt>, result: Returns): seq<Stmt> {
    if !EndsInJump(body) && result.Void? then body + [Return(NoValue)] else body
  }

  predicate ValidFunction(body: seq<Stmt>, result: Returns) {
    (EndsInJump(body) || result.Void?) && ValidList(Completed(body, result), RulesFor(result, AsMeant), {})
  }

  /** What a call of the function does, as far as `fuel` rounds of its loops let one see. */
  function Meaning(w: World, body: seq<Stmt>, result: Returns, mode: Mode, fuel: nat): Behaviour {
    match Close(ExecList(w, Completed(body, result), RulesFor(result, mode), [], [], fuel), [])
    case OutOfFuel(h) => Runs(h)
    case Fin(h, _, Returned(v, _, spared)) => Ends(v, h, spared)
    case Fin(h, _, Strayed) => Parts(h)
    case Fin(h, _, _) => Ends(None, h, None)
  }

  lemma {:induction false} ValidInMode(s: Stmt, r: Rules, names: set<Symbol>, mode: Mode)
    ensures Valid(s, In(r, mode), names) == Valid(s, r, names)
    decreases s, 1
  {
    match s
    case Loop(body) => ListValidInMode(body, r.(depth := InLoop(r.depth)), {}, mode);
    case While(_, body, _, _) => ListValidInMode(body, r.(depth := InWhile(r.depth)), {}, mode);
    case Switch(_, cases) => CasesValidInMode(cases, r.(depth := InSwitch(r.depth)), mode);
    case For(pre, _, _, body) => ListValidInMode(body, r.(depth := InWhile(r.depth)), DeclaredPlain(pre), mode);
    case If(_, thn, els) =>
      ListValidInMode(thn, r, {}, mode);
      if els.Else? { ListValidInMode(els.stmts, r, {}, mode); }
    case _ =>
  }

  lemma {:induction false} ListValidInMode(ss: seq<Stmt>, r: Rules, names: set<Symbol>, mode: Mode)
    ensures ValidList(ss, In(r, mode), names) == ValidList(ss, r, names)
    decreases ss, 0
  {
    if ss != [] {
      var n := |ss| - 1;
      ListValidInMode(ss[..n], r, names, mode);
      ValidInMode(ss[n], r, Declared(ss[..n], names), mode);
    }
  }

  lemma {:induction false} CasesValidInMode(cases: seq<Case>, r: Rules, mode: Mode)
    ensures ValidCases(cases, In(r, mode)) == ValidCases(cases, r)
    decreases cases, 0
  {
    if cases != [] {
      var n := |cases| - 1;
      CasesValidInMode(cases[..n], r, mode);
      ListValidInMode(cases[n].body, r, {}, mode);
    }
  }

  /** A function is accepted if it cannot run past its end, or returns nothing, and nothing is wrong at any place. */
  lemma ValidExactly(body: seq<Stmt>, result: Returns)
    ensures ValidFunction(body, result) <==>
      && (result.Void? || (body != [] && (body[|body| - 1].Return? || body[|body| - 1].Branch?)))
      && Errors.AllRight(body, result)
  {
    hide Errors.AllRight;
    Errors.ErrorsExactly(body, result, AsMeant);
    var r, all := RulesFor(result, AsMeant), body + [Return(NoValue)];
    assert all[..|body|] == body;
    assert ValidList(all, r, {}) <==> ValidList(body, r, {}) && Valid(all[|body|], r, Declared(body, {}));
  }

  // ---------------------------------------------------------------- code generation

  function Initial(result: Returns): Snap {
    Snap([Block([], None)], [0], [[]], Env([], [], [], result), 0, 0, true)
  }

  lemma InitialSound(result: Returns)
    ensures Sound(Initial(result))
  {
    var s := Initial(result);
    assert Preds(s.g, 0) == {};
  }

  /** The function's code, and the shape of its graph: all blocks but the last, dangling one are finished. */
  ghost predicate FunctionIs(s: Snap, body: seq<Stmt>, result: Returns) {
    && Sound(s) && s.clean && AllPlaced(Initial(result), s) && Dangling(s)
    && Sound(Initial(result)) && Grows(Initial(result), s)
    && EndsInJump(Completed(body, result)) && ListIs(Initial(result), Completed(body, result), s)
  }

  method CreateFunction(body: seq<Stmt>, result: Returns) returns (context: CodeContext)
    requires ParsedList(body)
    ensures fresh(context)
    ensures context.errors == 0 <==> ValidFunction(body, result)
    ensures context.errors == 0 <==>
      && (result.Void? || (body != [] && (body[|body| - 1].Return? || body[|body| - 1].Branch?)))
      && Errors.AllRight(body, result)
    ensures forall x, moved, dtor | body == [Return(Object(x, moved, dtor))] ::
      context.errors == 0 <==> result.Class? && (dtor ==> moved)
    ensures forall e | body == [Return(Scalar(e))] :: context.errors == 0 <==> result.Number? && WellTyped(e)
    ensures body == [Return(NoValue)] ==> (context.errors == 0 <==> result.Void?)
    ensures context.errors == 0 ==> FunctionIs(context.State(), body, result)
  {
    hide Sound, Grows, Valid, Parsed, ListCode, CodeContext.State, Dangling, Errors.AllRight, ValidReturn;
    ValidExactly(body, result);
    if |body| == 1 && body[0].Return? { OneReturn(body, result); }
    var stmts := body;
    var missing := false;
    if !EndsInJump(body) {
      if result.Void? {
        stmts := stmts + [Return(NoValue)];
      } else {
        missing := true;
      }
    }
    CompletedParsed(body, result);
    ListValidInMode(Completed(body, result), RulesFor(result, AsMeant), {}, AsEmitted);
    context := new CodeContext.StartFuncBlock(result);
    InitialSound(result);
    if missing {
      context.AddError();
      Basics(Initial(result));
      GrowsRefl(Initial(result));
      FailedSound(Initial(result), Initial(result));
    }
    ghost var s0, errors0 := context.State(), context.errors;
    CgnStatements.VisitList(context, stmts);
    context.CleanMeansNoErrors();
    assert Names([]) == {};
    assert Top(s0.scopes) == [];
  }

  lemma OneReturn(body: seq<Stmt>, result: Returns)
    requires |body| == 1 && body[0].Return?
    ensures ValidFunction(body, result) <==>
      match body[0].value
      case NoValue => result.Void?
      case Scalar(e) => result.Number? && WellTyped(e)
      case Object(_, moved, dtor) => result.Class? && (dtor ==> moved)
  {
    var r := RulesFor(result, AsMeant);
    assert ValidList(body[..0], r, {});
    assert ValidList(body, r, {}) <==> Valid(body[0], r, Declared(body[..0], {}));
  }

  lemma CompletedParsed(body: seq<Stmt>, result: Returns)
    requires ParsedList(body)
    ensures ParsedList(Completed(body, result))
  {
  }

  // ---------------------------------------------------------------- the graph means what the body means

  /** The state of the machine after `n` steps from the function's entry. */
  function Run(g: Graph, w: World, n: nat): Config {
    Steps(g, w, Start(), n)
  }

  /**
   However far the emitted reading is followed, the graph runs along: it stops with the same result after the same
   events, or is still running.
   */
  lemma FunctionRuns(s: Snap, w: World, body: seq<Stmt>, result: Returns, fuel: nat) returns (n: nat)
    requires FunctionIs(s, body, result)
    ensures
      match Meaning(w, body, result, AsEmitted, fuel)
      case Ends(v, h, _) => Run(s.g, w, n) == Halted(v, h)
      case Runs(h) => Run(s.g, w, n).At? && Run(s.g, w, n).h == h && n >= fuel
      case Parts(_) => false
  {
    hide FunctionIs, Completed, ExecList, Lands;
    var r := ExecList(w, Completed(body, result), RulesFor(result, AsEmitted), [], [], fuel);
    var p;
    n, p := BodyRuns(s, w, body, result, fuel);
    BodyLands(s.g, w, result, n, r, fuel, p);
  }

  /** The graph runs along with the list, which does not fall out at its end. */
  lemma BodyRuns(s: Snap, w: World, body: seq<Stmt>, result: Returns, fuel: nat) returns (n: nat, p: Point)
    requires FunctionIs(s, body, result)
    ensures
      var r := ExecList(w, Completed(body, result), RulesFor(result, AsEmitted), [], [], fuel);
      && Lands(s.g, w, Start(), n, r, fuel, Env([], [], [], result), [], p)
      && (r.Fin? ==> !r.out.Normal?)
  {
    hide Sound, Grows, Dangling, ListCode, ExecList, Steps, Lands;
    var stmts, env := Completed(body, result), Env([], [], [], result);
    var scopes: seq<seq<Var>> := [[]];
    assert scopes[..0] == [];
    assert Flat(scopes) == [];
    assert Strip(Top(scopes)) == [] && StripAll(Pop(scopes)) == [];
    n := ListRuns(s.g, w, stmts, env, scopes, Point(0, 0), Ctr(1, 0, 0), 0, map[], [], fuel);
    p := ListCode(s.g, stmts, env, scopes, Point(0, 0), Ctr(1, 0, 0)).value.p;
    JumpsAway(s.g, w, stmts, env, scopes, Point(0, 0), Ctr(1, 0, 0), [], fuel);
  }

  /** Where the graph lands is where the function ends, as nothing is left to jump to. */
  lemma BodyLands(g: Graph, w: World, result: Returns, n: nat, r: Source.Run, fuel: nat, p: Point)
    requires Lands(g, w, Start(), n, r, fuel, Env([], [], [], result), [], p) && (r.Fin? ==> !r.out.Normal?)
    ensures
      match Close(r, [])
      case OutOfFuel(h) => Run(g, w, n).At? && Run(g, w, n).h == h && n >= fuel
      case Fin(h, _, Returned(v, _, _)) => Run(g, w, n) == Halted(v, h)
      case Fin(_, _, _) => false
  {
    hide Steps, Unwind, Named;
    if r.Fin? && r.out.Returned? {
      LastUnwind(r.live, r.out.moved);
    }
  }

  lemma LastUnwind(live: Scope, moved: Option<Symbol>)
    ensures UnwindAll([] + [live], moved) == Unwind(live, moved)
  {
    var one := [] + [live];
    assert one == [live] && one[..0] == [];
    assert UnwindAll(one, moved) == Unwind(live, moved) + UnwindAll([], if Declares(live, moved) then None else moved);
  }

  /** In this reading, a call of the function ends with result `v` after events `h`. */
  ghost predicate EndsWith(w: World, body: seq<Stmt>, result: Returns, mode: Mode, v: Option<int>, h: Trace) {
    exists fuel: nat, spared: Option<Local> :: Meaning(w, body, result, mode, fuel) == Ends(v, h, spared)
  }

  /** A call ends in one way only. */
  lemma EndsOnce(w: World, body: seq<Stmt>, result: Returns, mode: Mode, v: Option<int>, h: Trace, v1: Option<int>,
                 h1: Trace)
    requires EndsWith(w, body, result, mode, v, h) && EndsWith(w, body, result, mode, v1, h1)
    ensures v == v1 && h == h1
  {
    hide ExecList;
    var fuel: nat, spared: Option<Local> :| Meaning(w, body, result, mode, fuel) == Ends(v, h, spared);
    var fuel1: nat, spared1: Option<Local> :| Meaning(w, body, result, mode, fuel1) == Ends(v1, h1, spared1);
    var stmts, r := Completed(body, result), RulesFor(result, mode);
    if fuel <= fuel1 {
      Fuel.OneEnd(w, stmts, r, [], [], fuel, fuel1);
    } else {
      Fuel.OneEnd(w, stmts, r, [], [], fuel1, fuel);
    }
  }

  /**
   The graph stops with result `v` after events `h` exactly when the body does in this reading, and it
   never gets stuck; so it runs on forever exactly when the body does.
   */
  ghost predicate Means(g: Graph, w: World, body: seq<Stmt>, result: Returns, mode: Mode) {
    && (forall v, h :: Stops(g, w, Halted(v, h)) <==> EndsWith(w, body, result, mode, v, h))
    && (forall h :: !Stops(g, w, Stuck(h)))
  }

  ghost predicate MeansTheSame(g: Graph, w: World, body: seq<Stmt>, result: Returns) {
    Means(g, w, body, result, AsMeant)
  }

  /** The graph of every function does, in every world, what the emitted reading of the body says. */
  lemma LoweringIsEmitted(s: Snap, w: World, body: seq<Stmt>, result: Returns)
    requires FunctionIs(s, body, result)
    ensures Means(s.g, w, body, result, AsEmitted)
  {
    hide FunctionIs, Steps, ExecList, Meaning;
    forall v, h ensures Stops(s.g, w, Halted(v, h)) <==> EndsWith(w, body, result, AsEmitted, v, h) {
      if EndsWith(w, body, result, AsEmitted, v, h) {
        var fuel: nat, spared: Option<Local> :| Meaning(w, body, result, AsEmitted, fuel) == Ends(v, h, spared);
        var n := FunctionRuns(s, w, body, result, fuel);
      }
      if Stops(s.g, w, Halted(v, h)) {
        var n: nat :| Steps(s.g, w, Start(), n) == Halted(v, h);
        var spared := StopsAsMeant(s, w, body, result, n);
      }
    }
    forall h ensures !Stops(s.g, w, Stuck(h)) {
      if n: nat :| Steps(s.g, w, Start(), n) == Stuck(h) {
        var spared := StopsAsMeant(s, w, body, result, n);
      }
    }
  }

  lemma StopsAsMeant(s: Snap, w: World, body: seq<Stmt>, result: Returns, n: nat) returns (spared: Option<Local>)
    requires FunctionIs(s, body, result)
    requires !Run(s.g, w, n).At?
    ensures Run(s.g, w, n).Halted?
    ensures Meaning(w, body, result, AsEmitted, n + 1) == Ends(Run(s.g, w, n).v, Run(s.g, w, n).h, spared)
  {
    hide FunctionIs, Steps, ExecList, Meaning;
    var m := FunctionRuns(s, w, body, result, n + 1);
    match Meaning(w, body, result, AsEmitted, n + 1)
    case Runs(_) =>
      StepsAdd(s.g, w, Start(), n, m - n);
      StaysStopped(s.g, w, Run(s.g, w, n), m - n);
      assert false;
    case Ends(_, _, l) =>
      StopsOnce(s.g, w, Start(), n, m);
      spared := l;
  }

  // ---------------------------------------------------------------- and what the body means

  /** In this world, every round of a `for` that the body makes keeps to its scope. */
  ghost predicate NeverParts(w: World, body: seq<Stmt>, result: Returns) {
    forall fuel: nat :: !Meaning(w, body, result, AsChecked, fuel).Parts?
  }

  lemma ReadingsAgree(w: World, body: seq<Stmt>, result: Returns, mode: Mode, fuel: nat)
    requires !Meaning(w, body, result, AsChecked, fuel).Parts?
    ensures Meaning(w, body, result, mode, fuel) == Meaning(w, body, result, AsChecked, fuel)
  {
    ListAgrees(w, Completed(body, result), RulesFor(result, AsChecked), mode, [], [], fuel);
  }

  /** Where no round of a `for` parts from its meaning, lowering preserves the meaning of the body. */
  lemma LoweringPreservesMeaning(s: Snap, w: World, body: seq<Stmt>, result: Returns)
    requires FunctionIs(s, body, result) && NeverParts(w, body, result)
    ensures MeansTheSame(s.g, w, body, result)
  {
    hide FunctionIs, Meaning, Stops;
    LoweringIsEmitted(s, w, body, result);
    EmittedIsMeant(s.g, w, body, result);
  }

  lemma EmittedIsMeant(g: Graph, w: World, body: seq<Stmt>, result: Returns)
    requires Means(g, w, body, result, AsEmitted) && NeverParts(w, body, result)
    ensures MeansTheSame(g, w, body, result)
  {
    hide Meaning, Stops;
    forall fuel: nat ensures Meaning(w, body, result, AsEmitted, fuel) == Meaning(w, body, result, AsMeant, fuel) {
      ReadingsAgree(w, body, result, AsEmitted, fuel);
      ReadingsAgree(w, body, result, AsMeant, fuel);
    }
  }

  /** Bodies whose `for` loops have nothing to destroy where it matters never part from their meaning. */
  lemma SafeBodiesNeverPart(w: World, body: seq<Stmt>, result: Returns)
    requires AllForSafe(Completed(body, result), RulesFor(result, AsChecked))
    ensures NeverParts(w, body, result)
  {
    forall fuel: nat ensures !Meaning(w, body, result, AsChecked, fuel).Parts? {
      ForMeaning.ListStays(w, Completed(body, result), RulesFor(result, AsChecked), [], [], fuel);
    }
  }
}
