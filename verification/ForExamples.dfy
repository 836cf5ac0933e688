/**
 Two functions with a destructable in the header of a `for`: one whose graph does not mean what its body means,
 and one whose graph does, though a round parts from its meaning.
 */
module ForExamples {
  import opened Options
  import opened Cfg
  import opened Source
  import opened ForMeaning
  import opened Emission
  import opened Functions

  // ---------------------------------------------------------------- a header that is left alone

  /** `for (C x(0); 0; ) { }` */
  function NeverEntered(x: Symbol, decl: nat): seq<Stmt> {
    [For([Declare(x, decl, true, Const(0, TInt))], Some(Const(0, TInt)), [], [])]
  }

  lemma NeverEnteredMeans(w: World, x: Symbol, decl: nat, mode: Mode, fuel: nat)
    requires !mode.AsChecked? && fuel > 0
    ensures
      var l := Local(x, decl, true);
      Meaning(w, NeverEntered(x, decl), Void, mode, fuel)
      == Ends(None, if mode.AsMeant? then [Constructed(l, 0), Destroyed(l)] else [Constructed(l, 0)], None)
  {
    var l, r, body := Local(x, decl, true), RulesFor(Void, mode), NeverEntered(x, decl);
    var s, all := body[0], Completed(body, Void);
    OneDeclared(w, s.pre[0]);
    assert ExecFor(w, s, r, [Constructed(l, 0)], [l], [], fuel, false) == LeaveFor([Constructed(l, 0)], [l], [], mode);
    assert Unwind([l], None) == [Destroyed(l)];
    OneStatement(w, s, r, fuel);
  }

  lemma OneDeclared(w: World, p: Plain)
    requires p.Declare? && p.init.Const?
    ensures
      var l := Local(p.x, p.decl, p.dtor);
      ExecPlains(w, [p], [], []) == ([Constructed(l, Norm(p.init.ty, p.init.v))], [l])
  {
    var none: Trace, empty: Scope := [], [];
    assert [p][..0] == [];
    assert ExecPlains(w, [p], none, empty) == ExecPlain(w, p, none, empty);
    assert none + [Constructed(Local(p.x, p.decl, p.dtor), Norm(p.init.ty, p.init.v))]
      == [Constructed(Local(p.x, p.decl, p.dtor), Norm(p.init.ty, p.init.v))];
    assert empty + [Local(p.x, p.decl, p.dtor)] == [Local(p.x, p.decl, p.dtor)];
  }

  lemma ListOfOne(w: World, s: Stmt, r: Rules, h: Trace, live: Scope, fuel: nat)
    ensures ExecList(w, [s], r, h, live, fuel) == Exec(w, s, r, h, live, fuel)
  {
    hide Exec;
    assert [s][..0] == [];
  }

  /** A function of one statement, which returns after it. */
  lemma OneStatement(w: World, s: Stmt, r: Rules, fuel: nat)
    requires !s.Return? && !s.Branch? && r.result.Void?
    ensures Completed([s], Void) == [s, Return(NoValue)]
    ensures
      var run := Exec(w, s, r, [], [], fuel);
      ExecList(w, [s, Return(NoValue)], r, [], [], fuel)
      == if run.Fin? && run.out.Normal? then Fin(run.h, run.live, Returned(None, None, None)) else run
  {
    hide Exec;
    var all := [s, Return(NoValue)];
    ListOfOne(w, s, r, [], [], fuel);
    assert all[..1] == [s] && [s] + [Return(NoValue)] == all;
    var run := Exec(w, s, r, [], [], fuel);
    Returning(w, r, run.h, if run.Fin? then run.live else [], fuel);
  }

  lemma Returning(w: World, r: Rules, h: Trace, live: Scope, fuel: nat)
    ensures Exec(w, Return(NoValue), r, h, live, fuel) == Fin(h, live, Returned(None, None, None))
  {
  }

  /**
   In every world: the graph of this function leaves its object alive, so that it does not mean what the body
   means; and the body is valid.
   */
  lemma HeaderIsLeft(s: Snap, w: World, x: Symbol, decl: nat)
    requires FunctionIs(s, NeverEntered(x, decl), Void)
    ensures ValidFunction(NeverEntered(x, decl), Void) && !MeansTheSame(s.g, w, NeverEntered(x, decl), Void)
  {
    hide FunctionIs, Meaning;
    var l, body := Local(x, decl, true), NeverEntered(x, decl);
    NeverEnteredIsValid(x, decl);
    LoweringIsEmitted(s, w, body, Void);
    NeverEnteredMeans(w, x, decl, AsEmitted, 1);
    assert EndsWith(w, body, Void, AsEmitted, None, [Constructed(l, 0)]);
    if MeansTheSame(s.g, w, body, Void) {
      assert EndsWith(w, body, Void, AsMeant, None, [Constructed(l, 0)]);
      var fuel: nat, spared: Option<Local> :| Meaning(w, body, Void, AsMeant, fuel)
          == Ends(None, [Constructed(l, 0)], spared);
      NotYet(w, body, AsMeant);
      NeverEnteredMeans(w, x, decl, AsMeant, if fuel > 0 then fuel else 1);
      assert false;
    }
  }

  lemma NotYet(w: World, body: seq<Stmt>, mode: Mode)
    requires |body| == 1 && body[0].For?
    ensures !Meaning(w, body, Void, mode, 0).Ends?
  {
    OneStatement(w, body[0], RulesFor(Void, mode), 0);
    assert body == [body[0]];
  }

  lemma NeverEnteredIsValid(x: Symbol, decl: nat)
    ensures ValidFunction(NeverEntered(x, decl), Void)
  {
    var body := NeverEntered(x, decl);
    var all := Completed(body, Void);
    var r := RulesFor(Void, AsMeant);
    assert all[..1] == body && body[..0] == [] && body[0].pre[..0] == [];
    assert ValidPlains(body[0].pre[..0], {}) && ValidPlain(body[0].pre[0], {} + DeclaredPlain(body[0].pre[..0]));
    assert ValidPlains(body[0].pre, {}) && AllWellTyped([]);
    assert ValidList(body[0].body, r.(depth := InWhile(r.depth)), DeclaredPlain(body[0].pre));
    assert Valid(body[0], r, {});
    assert ValidList(body[..0], r, {}) && ValidList(body, r, {});
    assert all[1] == Return(NoValue) && Valid(all[1], r, Declared(body, {}));
  }

  // ---------------------------------------------------------------- a header that is destroyed too early, unseen

  /** `for (C x(1); y; ) { y = 0; }` */
  function EnteredOnce(x: Symbol, decl: nat, y: Symbol): seq<Stmt> {
    [For([Declare(x, decl, true, Const(1, TInt))], Some(Read(y, TInt)), [],
         [Basic(Do(Assign(y, TInt, None, Const(0, TInt))))])]
  }

  /** The variable is true at first, and false once 0 is stored in it. */
  ghost predicate Remembers(w: World, x: Symbol, decl: nat, y: Symbol) {
    var l := Local(x, decl, true);
    && w.read([Constructed(l, 1)], y) != 0
    && w.read([Constructed(l, 1), Stored(y, 0)], y) == 0
    && w.read([Constructed(l, 1), Stored(y, 0), Destroyed(l)], y) == 0
  }

  lemma OnlyRound(w: World, x: Symbol, decl: nat, y: Symbol, mode: Mode, fuel: nat)
    requires Remembers(w, x, decl, y) && fuel > 0
    ensures
      var l := Local(x, decl, true);
      var h := [Constructed(l, 1), Stored(y, 0)];
      ForRound(w, EnteredOnce(x, decl, y)[0], RulesFor(Void, mode), [Constructed(l, 1)], [l], [], fuel, false)
      == match mode
        case AsMeant => Goes(h, false)
        case AsEmitted => Goes(h + [Destroyed(l)], false)
        case AsChecked => Leaves(Fin(h, [], Strayed))
  {
    var l, s := Local(x, decl, true), EnteredOnce(x, decl, y)[0];
    var h := [Constructed(l, 1), Stored(y, 0)];
    var inner := RulesFor(Void, mode).(depth := InWhile(RulesFor(Void, mode).depth));
    ListOfOne(w, s.body[0], inner, [Constructed(l, 1)], [l], fuel);
    assert [Constructed(l, 1)] + [Stored(y, 0)] == h;
    assert Eval(w, s.body[0].plain.e, [Constructed(l, 1)]) == (0, h);
    assert ExecList(w, s.body, inner, [Constructed(l, 1)], [l], fuel) == Fin(h, [l], Normal);
    assert [l][1..] == [] && Beyond([l], [l]) == [];
    assert OwnLocals(s.body) == [] && [l] + [] == [l];
    assert Unwind([l], None) == [Destroyed(l)] && h + [] == h;
    assert [l][0].dtor;
  }

  lemma EnteredOnceMeans(w: World, x: Symbol, decl: nat, y: Symbol, mode: Mode, fuel: nat)
    requires Remembers(w, x, decl, y) && fuel >= 2
    ensures
      var l := Local(x, decl, true);
      var h := [Constructed(l, 1), Stored(y, 0)];
      Meaning(w, EnteredOnce(x, decl, y), Void, mode, fuel)
      == if mode.AsChecked? then Parts(h) else Ends(None, h + [Destroyed(l)], None)
  {
    hide ForRound, ExecList, ExecPlains;
    var l, body, r := Local(x, decl, true), EnteredOnce(x, decl, y), RulesFor(Void, mode);
    var h := [Constructed(l, 1), Stored(y, 0)];
    OneDeclared(w, body[0].pre[0]);
    OnlyRound(w, x, decl, y, mode, fuel);
    if !mode.AsChecked? {
      LastRound(w, body[0], r, if mode.AsMeant? then h else h + [Destroyed(l)], [l], [], fuel - 1);
      assert Unwind([l], None) == [Destroyed(l)];
      assert h + [Destroyed(l)] == [Constructed(l, 1), Stored(y, 0), Destroyed(l)];
    }
    OneStatement(w, body[0], r, fuel);
    assert body == [body[0]];
  }

  lemma LastRound(w: World, s: Stmt, r: Rules, h: Trace, header: Scope, live: Scope, fuel: nat)
    requires s.For? && fuel > 0
    ensures EvalCond(w, s.cond, h) == (false, h)
      ==> ExecFor(w, s, r, h, header, live, fuel, false) == LeaveFor(h, header, live, r.mode)
  {
    hide ExecList, AfterRound;
  }

  /**
   In every such world, the checked reading stops, and yet the graph means what the body means: the object is
   destroyed once, before the second test instead of after it.
   */
  lemma RightThoughParting(s: Snap, w: World, x: Symbol, decl: nat, y: Symbol)
    requires FunctionIs(s, EnteredOnce(x, decl, y), Void) && Remembers(w, x, decl, y)
    ensures MeansTheSame(s.g, w, EnteredOnce(x, decl, y), Void) && !NeverParts(w, EnteredOnce(x, decl, y), Void)
  {
    hide FunctionIs, Meaning, Remembers;
    var body := EnteredOnce(x, decl, y);
    LoweringIsEmitted(s, w, body, Void);
    EnteredOnceMeans(w, x, decl, y, AsChecked, 2);
    forall v, h ensures EndsWith(w, body, Void, AsEmitted, v, h) <==> EndsWith(w, body, Void, AsMeant, v, h) {
      SameEnds(w, x, decl, y, v, h, AsEmitted, AsMeant);
      SameEnds(w, x, decl, y, v, h, AsMeant, AsEmitted);
    }
  }

  lemma SameEnds(w: World, x: Symbol, decl: nat, y: Symbol, v: Option<int>, h: Trace, mode: Mode, other: Mode)
    requires Remembers(w, x, decl, y) && !mode.AsChecked? && !other.AsChecked?
    ensures EndsWith(w, EnteredOnce(x, decl, y), Void, mode, v, h)
        ==> EndsWith(w, EnteredOnce(x, decl, y), Void, other, v, h)
  {
    hide Meaning, Remembers;
    var body := EnteredOnce(x, decl, y);
    if EndsWith(w, body, Void, mode, v, h) {
      var fuel: nat, spared: Option<Local> :| Meaning(w, body, Void, mode, fuel) == Ends(v, h, spared);
      EndsLate(w, x, decl, y, mode, fuel);
      EnteredOnceMeans(w, x, decl, y, mode, fuel);
      EnteredOnceMeans(w, x, decl, y, other, fuel);
    }
  }

  lemma EndsLate(w: World, x: Symbol, decl: nat, y: Symbol, mode: Mode, fuel: nat)
    requires Remembers(w, x, decl, y) && !mode.AsChecked?
    ensures Meaning(w, EnteredOnce(x, decl, y), Void, mode, fuel).Ends? ==> fuel >= 2
  {
    hide ForRound, ExecList, ExecPlains;
    var body := EnteredOnce(x, decl, y);
    if fuel == 0 {
      NotYet(w, body, mode);
    } else if fuel == 1 {
      OneDeclared(w, body[0].pre[0]);
      OnlyRound(w, x, decl, y, mode, fuel);
      OneStatement(w, body[0], RulesFor(Void, mode), fuel);
      assert body == [body[0]];
      assert body[0].pre == [body[0].pre[0]];
      assert ExecFor(w, body[0], RulesFor(Void, mode), [Constructed(Local(x, decl, true), 1)], [Local(x, decl, true)],
                     [], 1, false).OutOfFuel?;
    }
  }
}
