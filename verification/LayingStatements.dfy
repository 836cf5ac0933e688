/** The steps of the statement visitors, put together. */
module LayingStatements {
  import opened Options
  import opened Cfg
  import opened Source
  import opened Layout
  import opened Stability
  import opened Emission
  import opened CodeContexts
  import opened Laying

  lemma VisitedThen(s0: Snap, s1: Snap, s2: Snap)
    requires Visited(s0, s1) && Visited(s1, s2)
    ensures Visited(s0, s2) && Extended(s1.g, s2.g)
    ensures AllPlaced(s0, s1) && AllPlaced(s1, s2) ==> AllPlaced(s0, s2)
  {
    hide Sound;
    GrowsThen(s0, s1, s2);
    GrowsBasics(s1, s2);
    forall b: nat | AllPlaced(s0, s1) && AllPlaced(s1, s2) && |s0.g| <= b < |s2.g| ensures b in s2.placed {
      if b < |s1.g| {
        assert b in s1.placed;
      }
    }
  }

  // ---------------------------------------------------------------- blocks still to be placed

  /** The state `s`, reached from `s0`, in which the blocks `own` are still to be placed. */
  ghost predicate Building(s0: Snap, s: Snap, own: set<BlockId>) {
    && Sound(s) && Grows(s0, s)
    && forall b | b in own :: b >= |s0.g| && Unplaced(s, b)
  }

  /** All blocks created since `s0` have been placed, except `own`. */
  ghost predicate PlacedBut(s0: Snap, s: Snap, own: set<BlockId>) {
    forall b: nat | |s0.g| <= b < |s.g| && b !in own :: b in s.placed
  }

  lemma BuildCreate(s0: Snap, s: Snap, own: set<BlockId>)
    requires Building(s0, s, own)
    ensures Building(s0, Created(s), own + {|s.g|}) && Placed(Created(s)) && Now(Created(s)) == Now(s)
    ensures PlacedBut(s0, s, own) ==> PlacedBut(s0, Created(s), own + {|s.g|})
  {
    hide Sound, Grows;
    NewWaits(s);
    Basics(s);
    GrowsBasics(s0, s);
    GrowsThen(s0, s, Created(s));
    forall b | b in own ensures Unplaced(Created(s), b) {
      UnplacedKept(s, Created(s), b);
    }
  }

  lemma BuildVisit(s0: Snap, s: Snap, s1: Snap, own: set<BlockId>)
    requires Building(s0, s, own) && Sound(s1) && Grows(s, s1)
    ensures Building(s0, s1, own)
    ensures PlacedBut(s0, s, own) && AllPlaced(s, s1) ==> PlacedBut(s0, s1, own)
  {
    hide Sound, Grows;
    GrowsThen(s0, s, s1);
    GrowsBasics(s, s1);
    forall b | b in own ensures Unplaced(s1, b) {
      UnplacedKept(s, s1, b);
    }
    forall b: nat | PlacedBut(s0, s, own) && AllPlaced(s, s1) && |s0.g| <= b < |s1.g|
        && b !in own ensures b in s1.placed {
      if b < |s.g| {
        assert b in s.placed;
      }
    }
  }

  /** Leaving the current block for one of one's own; branches go to blocks of one's own and to jump targets. */
  lemma BuildMove(s0: Snap, s: Snap, t: Terminator, b: BlockId, own: set<BlockId>)
    requires Building(s0, s, own) && b in own
    requires forall x | x in Successors(t) ::
        (x >= |s0.g| || x in TargetBlocks(s0.env))
        && (x in own || x in TargetBlocks(s.env) || Joinable(s, x))
    ensures Building(s0, Moved(s, t, b), own - {b}) && Now(Moved(s, t, b)) == Point(b, 0)
    ensures Placed(s) && Extended(s.g, Moved(s, t, b).g)
    ensures PlacedBut(s0, s, own) ==> PlacedBut(s0, Moved(s, t, b), own - {b})
  {
    hide Grows;
    forall x | x in Successors(t) ensures x < |s.g| && (s.clean ==> !HasPhi(s.g[x])) {
      if x in own {
        UnplacedEmpty(s, x);
      }
    }
    MoveStep(s0, s, t, b);
  }

  /** A block that a further branch may go to: it holds no phi, unless there have been errors. */
  ghost predicate Joinable(s: Snap, b: BlockId) {
    b < |s.g| && (s.clean ==> !HasPhi(s.g[b]))
  }

  /** A visit puts no phi into an older block. */
  lemma JoinableKept(s0: Snap, s1: Snap, b: BlockId)
    requires Grows(s0, s1) && Joinable(s0, b)
    ensures Joinable(s1, b)
  {
  }

  lemma JoinableMove(s: Snap, t: Terminator, b: BlockId, x: BlockId)
    requires Placed(s) && Joinable(s, x)
    ensures Joinable(Moved(s, t, b), x)
  {
  }

  lemma BuildStart(s: Snap)
    requires Sound(s)
    ensures Building(s, s, {}) && PlacedBut(s, s, {})
  {
    hide Sound, Grows;
    Basics(s);
    GrowsRefl(s);
  }

  /** Other scopes and targets: the targets exist, hold no phi, and keep open scopes only. */
  lemma Reframe(s0: Snap, s: Snap, scopes: seq<seq<Var>>, env: Env, slot: nat, own: set<BlockId>)
    requires Building(s0, s, own) && slot >= s.slot
    requires scopes != [] && EnvOk(env, |scopes|)
    requires forall x | x in TargetBlocks(env) :: x in own || x in TargetBlocks(s.env)
    ensures Building(s0, s.(scopes := scopes, env := env, slot := slot), own)
  {
    var s1 := s.(scopes := scopes, env := env, slot := slot);
    forall x | x in TargetBlocks(env) ensures x < |s.g| && !HasPhi(s.g[x]) {
      if x in own {
        UnplacedEmpty(s, x);
      }
    }
    assert s.clean ==> forall b: nat | b < |s.g| :: PhisAgree(s.g, b);
  }

  // ---------------------------------------------------------------- destructors

  lemma {:induction false} DestructedSound(s: Snap, vars: seq<Var>, keep: Option<nat>)
    requires Sound(s)
    ensures
      var s1 := Destructed(s, vars, keep);
      && Evaluated(s, s1) && AllPlaced(s, s1) && Extended(s.g, s1.g)
      && DtorsCode(s1.g, vars, keep, Now(s)) == Some(Now(s1))
  {
    hide Sound, Grows;
    Basics(s);
    if vars == [] {
      EvaluatedRefl(s);
    } else {
      DestructedSound(s, vars[1..], keep);
      var s1 := Destructed(s, vars[1..], keep);
      if vars[0].dtor && Some(vars[0].slot) != keep {
        var s2 := Emitted(s1, Destroy(vars[0]));
        EmittedSound(s1, Destroy(vars[0]));
        EvaluatedThen(s, s1, s2);
        ExtendedThen(s.g, s1.g, s2.g);
        DtorsStable(s1.g, s2.g, vars[1..], keep, Now(s));
      }
    }
  }

  /** Destructor calls, a branch or return, and a new block for the code after it. */
  function Left(s: Snap, vars: seq<Var>, keep: Option<nat>, t: Terminator): Snap
    requires Placed(s)
  {
    Moved(Created(Destructed(s, vars, keep)), t, |s.g|)
  }

  lemma LeftSound(s: Snap, vars: seq<Var>, keep: Option<nat>, t: Terminator)
    requires Sound(s)
    requires forall x | x in Successors(t) :: x in TargetBlocks(s.env)
    ensures
      var s1, s2 := Destructed(s, vars, keep), Left(s, vars, keep, t);
      && Evaluated(s, s2) && AllPlaced(s, s2)
      && DtorsCode(s2.g, vars, keep, Now(s)) == Some(Now(s1)) && Ends(s2.g, Now(s1), t).Some?
      && Now(s2) == Point(|s.g|, 0) && Dangling(s2)
  {
    hide Sound, Grows;
    Basics(s);
    var s1 := Destructed(s, vars, keep);
    DestructedSound(s, vars, keep);
    BuildStart(s);
    BuildVisit(s, s, s1, {});
    BuildCreate(s, s1, {});
    var c := Created(s1);
    BuildMove(s, c, t, |s.g|, {} + {|s.g|});
    var s2 := Moved(c, t, |s.g|);
    assert {} + {|s.g|} - {|s.g|} == {};
    Basics(c);
    MovedExtends(c, t, |s.g|);
    DtorsStable(s1.g, s2.g, vars, keep, Now(s));
    NewDangles(s1, t);
  }

  lemma NewDangles(s: Snap, t: Terminator)
    requires Sound(s) && forall x | x in Successors(t) :: x < |s.g|
    ensures Placed(Created(s)) && Dangling(Moved(Created(s), t, |s.g|))
  {
    var s2 := Moved(Created(s), t, |s.g|);
    forall p: nat | p < |s2.g| ensures |s.g| !in To(s2.g, p) {
      if p < |s.g| && p != Cur(s) {
        assert s2.g[p] == s.g[p];
        assert To(s2.g, p) == To(s.g, p);
      }
    }
  }

  /** Creating a block before or after the end of the current one makes no difference. */
  lemma CreateAfterEnd(s: Snap, t: Terminator)
    requires Placed(s)
    ensures Created(Ended(s, t)) == Ended(Created(s), t)
  {
    assert Created(Ended(s, t)).g == Ended(Created(s), t).g;
  }

  // ---------------------------------------------------------------- statement lists and bodies

  ghost predicate PlainIs(s0: Snap, p: Plain, s1: Snap) {
    && Placed(s0) && Placed(s1) && s0.scopes != []
    && PlainCode(s1.g, p, s0.scopes, Now(s0), CtrOf(s0)) == Some(StmtEnd(Now(s1), s1.scopes, CtrOf(s1)))
  }

  ghost predicate PlainsAre(s0: Snap, ps: seq<Plain>, s1: Snap) {
    && Placed(s0) && Placed(s1) && s0.scopes != []
    && PlainsCode(s1.g, ps, s0.scopes, Now(s0), CtrOf(s0)) == Some(StmtEnd(Now(s1), s1.scopes, CtrOf(s1)))
  }

  ghost predicate StmtIs(s0: Snap, st: Stmt, s1: Snap) {
    && Placed(s0) && Placed(s1) && s0.scopes != []
    && StmtCode(s1.g, st, s0.env, s0.scopes, Now(s0), CtrOf(s0)) == Some(StmtEnd(Now(s1), s1.scopes, CtrOf(s1)))
  }

  ghost predicate ListIs(s0: Snap, ss: seq<Stmt>, s1: Snap) {
    && Placed(s0) && Placed(s1) && s0.scopes != []
    && ListCode(s1.g, ss, s0.env, s0.scopes, Now(s0), CtrOf(s0)) == Some(StmtEnd(Now(s1), s1.scopes, CtrOf(s1)))
  }

  ghost predicate BodyIs(s0: Snap, ss: seq<Stmt>, s1: Snap) {
    && Placed(s0) && Placed(s1) && s0.scopes != []
    && BodyCode(s1.g, ss, s0.env, s0.scopes, Now(s0), CtrOf(s0)) == Some(StmtEnd(Now(s1), s0.scopes, CtrOf(s1)))
  }

  lemma BodyStays(s0: Snap, ss: seq<Stmt>, s1: Snap, g: Graph)
    requires Placed(s0) && Placed(s1) && s0.scopes != [] && BodyIs(s0, ss, s1) && Extended(s1.g, g)
    ensures BodyCode(g, ss, s0.env, s0.scopes, Now(s0), CtrOf(s0)) == Some(StmtEnd(Now(s1), s0.scopes, CtrOf(s1)))
  {
    BodyStable(s1.g, g, ss, s0.env, s0.scopes, Now(s0), CtrOf(s0));
  }

  lemma ListStays(s0: Snap, ss: seq<Stmt>, s1: Snap, g: Graph)
    requires Placed(s0) && Placed(s1) && s0.scopes != [] && ListIs(s0, ss, s1) && Extended(s1.g, g)
    ensures ListCode(g, ss, s0.env, s0.scopes, Now(s0), CtrOf(s0)) == Some(StmtEnd(Now(s1), s1.scopes, CtrOf(s1)))
  {
    ListStable(s1.g, g, ss, s0.env, s0.scopes, Now(s0), CtrOf(s0));
  }

  lemma PlainsStay(s0: Snap, ps: seq<Plain>, s1: Snap, g: Graph)
    requires Placed(s0) && Placed(s1) && s0.scopes != [] && PlainsAre(s0, ps, s1) && Extended(s1.g, g)
    ensures PlainsCode(g, ps, s0.scopes, Now(s0), CtrOf(s0)) == Some(StmtEnd(Now(s1), s1.scopes, CtrOf(s1)))
  {
    PlainsStable(s1.g, g, ps, s0.scopes, Now(s0), CtrOf(s0));
  }

  /** What a visit of a plain statement has done; `errors1 == errors0` when it reported no error. */
  ghost predicate PlainLowered(s0: Snap, errors0: nat, p: Plain, s1: Snap, errors1: nat) {
    && Visited(s0, s1)
    && errors1 >= errors0
    && (errors1 == errors0 <==> ValidPlain(p, Names(Top(s0.scopes))))
    && (errors1 == errors0 ==>
        PlainIs(s0, p, s1) && AllPlaced(s0, s1)
        && Names(Top(s1.scopes)) == Names(Top(s0.scopes)) + Declares1(p))
  }

  ghost predicate PlainsLowered(s0: Snap, errors0: nat, ps: seq<Plain>, s1: Snap, errors1: nat) {
    && Visited(s0, s1)
    && errors1 >= errors0
    && (errors1 == errors0 <==> ValidPlains(ps, Names(Top(s0.scopes))))
    && (errors1 == errors0 ==>
          PlainsAre(s0, ps, s1) && AllPlaced(s0, s1) && Names(Top(s1.scopes))
              == Names(Top(s0.scopes)) + DeclaredPlain(ps))
  }

  /**
   What a visit of a statement has done.  An error is reported exactly when the statement is not
   valid where it stands; otherwise its code lies between the two states, and every block created
   on the way has been placed.
   */
  ghost predicate StmtLowered(s0: Snap, errors0: nat, st: Stmt, s1: Snap, errors1: nat) {
    && Visited(s0, s1)
    && errors1 >= errors0
    && (errors1 == errors0 <==> Valid(st, RulesOf(s0.env), Names(Top(s0.scopes))))
    && (errors1 == errors0 ==>
        StmtIs(s0, st, s1) && AllPlaced(s0, s1)
        && Names(Top(s1.scopes)) == Names(Top(s0.scopes)) + DeclaredBy(st))
    && (errors1 == errors0 && (st.Return? || st.Branch?) ==> Dangling(s1))
  }

  /** No branch goes to the current block, and it is empty. */
  ghost predicate Dangling(s: Snap) {
    Placed(s) && s.g[Cur(s)] == Block([], None) && Preds(s.g, Cur(s)) == {}
  }

  ghost predicate ListLowered(s0: Snap, errors0: nat, ss: seq<Stmt>, s1: Snap, errors1: nat) {
    && Visited(s0, s1)
    && errors1 >= errors0
    && (errors1 == errors0 <==> ValidList(ss, RulesOf(s0.env), Names(Top(s0.scopes))))
    && (errors1 == errors0 ==>
        ListIs(s0, ss, s1) && AllPlaced(s0, s1)
        && Names(Top(s1.scopes)) == Declared(ss, Names(Top(s0.scopes))))
    && (errors1 == errors0 && EndsInJump(ss) ==> Dangling(s1))
  }

  /** A new scope on top of the open ones. */
  function Scoped(s: Snap): Snap {
    s.(scopes := s.scopes + [[]])
  }

  /** The end of the innermost scope: its locals are destroyed, last first. */
  function Closed(s: Snap): Snap
    requires Placed(s) && s.scopes != []
  {
    Destructed(s, Top(s.scopes), None).(scopes := Pop(s.scopes))
  }

  lemma ScopedSound(s: Snap)
    requires Sound(s)
    ensures Sound(Scoped(s)) && Grows(s, Scoped(s)) && Placed(Scoped(s)) && Now(Scoped(s)) == Now(s)
    ensures Top(Scoped(s).scopes) == [] && Pop(Scoped(s).scopes) == s.scopes
  {
    BuildStart(s);
    Reframe(s, s, s.scopes + [[]], s.env, s.slot, {});
  }

  /** The code of a body in a scope of its own, after the end of the scope. */
  ghost predicate BodyDone(s0: Snap, errors0: nat, ss: seq<Stmt>, s1: Snap, errors1: nat) {
    && Sound(s0) && Sound(s1) && Grows(s0, s1)
    && s1.env == s0.env && s1.scopes == s0.scopes
    && errors1 >= errors0
    && (errors1 == errors0 <==> ValidList(ss, RulesOf(s0.env), {}))
    && (errors1 == errors0 ==> BodyIs(s0, ss, s1) && AllPlaced(s0, s1))
  }

  lemma BodyCloses(s0: Snap, errors0: nat, ss: seq<Stmt>, m: Snap, errors1: nat)
    requires Sound(s0) && ListLowered(Scoped(s0), errors0, ss, m, errors1)
    ensures Placed(m) && m.scopes != []
    ensures BodyDone(s0, errors0, ss, Closed(m), errors1)
  {
    hide Sound, Grows, ListCode;
    ScopedSound(s0);
    Basics(m);
    Basics(s0);
    var d := Destructed(m, Top(m.scopes), None);
    DestructedSound(m, Top(m.scopes), None);
    BuildStart(s0);
    BuildVisit(s0, s0, Scoped(s0), {});
    BuildVisit(s0, Scoped(s0), m, {});
    BuildVisit(s0, m, d, {});
    SoundLevels(s0);
    Reframe(s0, d, s0.scopes, s0.env, d.slot, {});
    var c := Closed(m);
    Basics(c);
    assert c == d.(scopes := s0.scopes, env := s0.env);
    assert Names([]) == {};
    if errors1 == errors0 {
      ListStays(Scoped(s0), ss, m, c.g);
      assert BodyIs(s0, ss, c);
    }
  }

  lemma SoundLevels(s: Snap)
    requires Sound(s)
    ensures s.scopes != [] && EnvOk(s.env, |s.scopes|)
  {
  }

  /** A body, and a branch after it. */
  lemma BodyToLaid(u: Snap, ss: seq<Stmt>, c: Snap, to: BlockId, next: BlockId, g: Graph)
    requires Placed(u) && u.scopes != [] && BodyIs(u, ss, c) && Now(u).i == 0
    requires Placed(c) && c.g[Cur(c)].term.None? && Extended(Moved(c, Br(to), next).g, g)
    ensures BodyTo(g, ss, u.env, u.scopes, Cur(u), to, CtrOf(u)) == Some(CtrOf(c))
    ensures Extended(c.g, g)
  {
    hide BodyCode;
    MovedExtends(c, Br(to), next);
    ExtendedThen(c.g, Moved(c, Br(to), next).g, g);
    BodyStays(u, ss, c, g);
    EndStays(c, Br(to), next, g);
  }

  // ---------------------------------------------------------------- loop

  /** The start of a loop's body: two blocks are new, and the targets point at them. */
  function LoopHead(s0: Snap): Snap
    requires Placed(s0)
  {
    Moved(Created(Created(s0)).(env := LoopEnv(s0.env, |s0.scopes|, CtrOf(s0))), Br(|s0.g|), |s0.g|)
  }

  lemma LoopStarts(s0: Snap)
    requires Sound(s0)
    ensures Placed(s0) && Placed(LoopHead(s0)) && Now(LoopHead(s0)) == Point(|s0.g|, 0)
    ensures Building(s0, LoopHead(s0), {|s0.g| + 1}) && PlacedBut(s0, LoopHead(s0), {|s0.g| + 1})
    ensures Ends(LoopHead(s0).g, Now(s0), Br(|s0.g|)).Some?
    ensures Created(Created(s0)).g[Cur(s0)].term.None?
  {
    hide Sound, Grows;
    Basics(s0);
    SoundLevels(s0);
    var body, end := |s0.g|, |s0.g| + 1;
    BuildStart(s0);
    BuildCreate(s0, s0, {});
    BuildCreate(s0, Created(s0), {} + {body});
    var s2, env := Created(Created(s0)), LoopEnv(s0.env, |s0.scopes|, CtrOf(s0));
    assert {} + {body} + {end} == {body, end};
    Reframe(s0, s2, s2.scopes, env, s2.slot, {body, end});
    var s3 := s2.(env := env);
    BuildMove(s0, s3, Br(body), body, {body, end});
    assert {body, end} - {body} == {end};
    MovedExtends(s3, Br(body), body);
  }

  /**
   The end of a loop: its last block goes back to `back`, control goes on in `end`, and the old targets are in
   force.
   */
  lemma LoopEnds(s0: Snap, u: Snap, c: Snap, back: BlockId, end: BlockId)
    requires Sound(s0) && Building(s0, u, {end}) && Sound(c) && Grows(u, c) && c.env == u.env && c.scopes == s0.scopes
    requires u.env == LoopEnv(s0.env, |s0.scopes|, CtrOf(s0)) || u.env == WhileEnv(s0.env, |s0.scopes|, CtrOf(s0))
    requires back >= |s0.g| && exists t | t in u.env.cont :: t.b == back
    ensures Placed(c) && c.g[Cur(c)].term.None?
    ensures
      var s2 := Moved(c, Br(back), end).(env := s0.env);
      && Building(s0, s2, {}) && Placed(s2) && Now(s2) == Point(end, 0) && s2.scopes == s0.scopes
      && (PlacedBut(s0, u, {end}) && AllPlaced(u, c) ==> PlacedBut(s0, s2, {}))
  {
    hide Sound, Grows, TargetBlocks, LoopEnv, WhileEnv, PlacedBut, AllPlaced;
    Basics(c);
    BuildVisit(s0, u, c, {end});
    BodyTargets(u, back);
    BuildMove(s0, c, Br(back), end, {end});
    assert {end} - {end} == {};
    SoundLevels(s0);
    var s1 := Moved(c, Br(back), end);
    OldTargets(s0, s1);
    Reframe(s0, s1, s1.scopes, s0.env, s1.slot, {});
    SamePlaced(s0, s1);
    Basics(s1.(env := s0.env));
  }

  lemma SamePlaced(s0: Snap, s1: Snap)
    ensures PlacedBut(s0, s1, {}) ==> PlacedBut(s0, s1.(env := s0.env), {})
  {
  }

  lemma LoopLowered(s0: Snap, errors0: nat, st: Stmt, u: Snap, m: Snap, errors1: nat)
    requires st.Loop? && Sound(s0) && Placed(s0) && u == LoopHead(s0)
    requires ListLowered(Scoped(u), errors0, st.body, m, errors1)
    ensures Placed(m) && m.scopes != [] && Sound(Closed(m))
    ensures StmtLowered(s0, errors0, st, Moved(Closed(m), Br(|s0.g|), |s0.g| + 1).(env := s0.env), errors1)
  {
    hide Sound, Grows, TargetBlocks, ListCode, Destructed, Building, PlacedBut, BodyIs, ValidList, StmtLowered;
    var body, end := |s0.g|, |s0.g| + 1;
    Basics(s0);
    LoopStarts(s0);
    BuildSound(s0, u, {end});
    BodyCloses(u, errors0, st.body, m, errors1);
    var c := Closed(m);
    LoopEnds(s0, u, c, body, end);
    var s2 := Moved(c, Br(body), end).(env := s0.env);
    GrowsBasics(u, c);
    if errors1 == errors0 {
      LoopLaid(s0, st, u, c, s2);
    }
    CompoundLowered(s0, errors0, st, s2, errors1);
  }

  lemma BuildSound(s0: Snap, s: Snap, own: set<BlockId>)
    requires Building(s0, s, own)
    ensures Sound(s) && Grows(s0, s) && Placed(s)
  {
    hide Sound, Grows;
    Basics(s);
  }

  /** What is left to be said when a loop or a switch has been visited. */
  lemma CompoundLowered(s0: Snap, errors0: nat, st: Stmt, s2: Snap, errors2: nat)
    requires !st.Basic? && !st.Return? && !st.Branch?
    requires Sound(s0) && s0.scopes != [] && Building(s0, s2, {}) && s2.env == s0.env && s2.scopes == s0.scopes
    requires errors2 >= errors0 && (errors2 == errors0 <==> Valid(st, RulesOf(s0.env), Names(Top(s0.scopes))))
    requires errors2 == errors0 ==> StmtIs(s0, st, s2) && PlacedBut(s0, s2, {})
    ensures StmtLowered(s0, errors0, st, s2, errors2)
  {
    hide Sound, Grows, Valid, StmtIs, Names;
    Basics(s0);
  }

  lemma WhileErrors(s0: Snap, errors0: nat, st: Stmt, errors1: nat, errors2: nat)
    requires st.While? && s0.scopes != [] && errors2 >= errors1 >= errors0
        && (errors1 == errors0 <==> ValidCond(st.cond))
    requires errors2 == errors1 <==> ValidList(st.body, RulesOf(WhileEnv(s0.env, |s0.scopes|, CtrOf(s0))), {})
    ensures errors2 == errors0 <==> Valid(st, RulesOf(s0.env), Names(Top(s0.scopes)))
  {
    hide ValidList, ValidCond;
    assert RulesOf(WhileEnv(s0.env, |s0.scopes|, CtrOf(s0)))
        == RulesOf(s0.env).(depth := InWhile(RulesOf(s0.env).depth));
  }

  /** The targets of an enclosing state are still targets one may have. */
  lemma OldTargets(s0: Snap, s1: Snap)
    requires s1.env == LoopEnv(s0.env, |s0.scopes|, CtrOf(s0)) || s1.env == WhileEnv(s0.env, |s0.scopes|, CtrOf(s0))
      || s1.env == ForEnv(s0.env, |s0.scopes|, CtrOf(s0))
          || (exists end :: s1.env == SwitchEnv(s0.env, |s0.scopes|, end))
    ensures forall x | x in TargetBlocks(s0.env) :: x in TargetBlocks(s1.env)
  {
    forall t: Target | t in s0.env.brk || t in s0.env.cont || t in s0.env.redo ensures t.b in TargetBlocks(s1.env) {
    }
  }

  lemma BodyTargets(u: Snap, b: BlockId)
    requires exists t | t in u.env.cont :: t.b == b
    ensures b in TargetBlocks(u.env)
  {
  }

  lemma LoopLaid(s0: Snap, st: Stmt, u: Snap, c: Snap, s2: Snap)
    requires st.Loop? && Placed(s0) && s0.scopes != []
    requires u == LoopHead(s0) && Placed(u) && Now(u) == Point(|s0.g|, 0) && Ends(u.g, Now(s0), Br(|s0.g|)).Some?
    requires Placed(c) && c.g[Cur(c)].term.None? && Extended(u.g, c.g) && BodyIs(u, st.body, c)
    requires s2 == Moved(c, Br(|s0.g|), |s0.g| + 1).(env := s0.env) && Placed(s2)
    requires Now(s2) == Point(|s0.g| + 1, 0) && s2.scopes == s0.scopes
    ensures StmtIs(s0, st, s2)
  {
    hide BodyCode, BodyIs, BodyTo;
    var body, end := |s0.g|, |s0.g| + 1;
    BodyToLaid(u, st.body, c, body, end, s2.g);
    ExtendedThen(u.g, c.g, s2.g);
    EndsStable(u.g, s2.g, Now(s0), Br(body));
    assert LoopCode(s2.g, st, s0.env, s0.scopes, Now(s0), CtrOf(s0)) == Some(StmtEnd(Now(s2), s2.scopes, CtrOf(s2)));
  }

  // ---------------------------------------------------------------- while, until and do

  /** The operand of a condition that was visited between two states; a missing condition is the constant true. */
  ghost predicate TestIs(s0: Snap, e: Option<Exp>, mid: Snap, op: Operand) {
    && Placed(s0) && Placed(mid)
    && (match e
    case None => mid == s0 && op == Imm(1)
    case Some(test) => BoolIs(s0, test, mid, RValue(op, TBool)))
  }

  ghost predicate CondVisited(s0: Snap, errors0: nat, e: Option<Exp>, mid: Snap, errors1: nat, op: Operand) {
    && Evaluated(s0, mid) && AllPlaced(s0, mid)
    && errors1 >= errors0
    && (errors1 == errors0 <==> ValidCond(e))
    && (errors1 == errors0 ==> TestIs(s0, e, mid, op))
  }

  lemma CondLaid(s0: Snap, e: Option<Exp>, mid: Snap, op: Operand, yes: BlockId, no: BlockId, g: Graph)
    requires Placed(s0) && Placed(mid) && TestIs(s0, e, mid, op) && Extended(mid.g, g)
    requires Ends(g, Now(mid), CondBr(op, yes, no)).Some?
    ensures CondCode(g, e, yes, no, Now(s0), CtrOf(s0)) == Some(ExpEnd(Now(mid), RValue(op, TBool), CtrOf(mid)))
  {
    if e.Some? {
      BoolStays(s0, e.value, mid, RValue(op, TBool), g);
      assert BranchCode(g, e.value, yes, no, Now(s0), CtrOf(s0))
          == Some(ExpEnd(Now(mid), RValue(op, TBool), CtrOf(mid)));
    }
  }

  /** The start of a `while`: three new blocks, and control goes to `start`. */
  function WhileHead(s0: Snap, start: BlockId): Snap
    requires Placed(s0)
  {
    Moved(Created(Created(Created(s0))).(env := WhileEnv(s0.env, |s0.scopes|, CtrOf(s0))), Br(start), |s0.g|)
  }

  lemma WhileStarts(s0: Snap, start: BlockId)
    requires Sound(s0) && |s0.g| <= start <= |s0.g| + 1
    ensures Placed(s0) && Placed(WhileHead(s0, start)) && Now(WhileHead(s0, start)) == Point(|s0.g|, 0)
    ensures Building(s0, WhileHead(s0, start), {|s0.g| + 1, |s0.g| + 2})
    ensures PlacedBut(s0, WhileHead(s0, start), {|s0.g| + 1, |s0.g| + 2})
    ensures Ends(WhileHead(s0, start).g, Now(s0), Br(start)).Some?
    ensures Created(Created(Created(s0))).g[Cur(s0)].term.None?
  {
    hide Sound, Grows;
    Basics(s0);
    SoundLevels(s0);
    var cond, body, end := |s0.g|, |s0.g| + 1, |s0.g| + 2;
    BuildStart(s0);
    BuildCreate(s0, s0, {});
    BuildCreate(s0, Created(s0), {} + {cond});
    BuildCreate(s0, Created(Created(s0)), {} + {cond} + {body});
    var s2, env := Created(Created(Created(s0))), WhileEnv(s0.env, |s0.scopes|, CtrOf(s0));
    assert {} + {cond} + {body} + {end} == {cond, body, end};
    Reframe(s0, s2, s2.scopes, env, s2.slot, {cond, body, end});
    var s3 := s2.(env := env);
    BuildMove(s0, s3, Br(start), cond, {cond, body, end});
    assert {cond, body, end} - {cond} == {body, end};
    MovedExtends(s3, Br(start), cond);
  }

  /** From the condition of a `while`, tested at `mid`, to the start of its body. */
  function WhileBodyStart(s0: Snap, mid: Snap, op: Operand, until: bool): Snap
    requires Placed(mid)
  {
    var body, end := |s0.g| + 1, |s0.g| + 2;
    Moved(mid, CondBr(op, if until then end else body, if until then body else end), body).(scopes := s0.scopes)
  }

  lemma WhileTests(s0: Snap, start: BlockId, mid: Snap, op: Operand, until: bool)
    requires Sound(s0) && |s0.g| <= start <= |s0.g| + 1
    requires Evaluated(Scoped(WhileHead(s0, start)), mid)
    ensures
      var u := WhileBodyStart(s0, mid, op, until);
      && Placed(mid) && mid.g[Cur(mid)].term.None? && Placed(u)
      && Building(s0, u, {|s0.g| + 2}) && Now(u) == Point(|s0.g| + 1, 0)
      && (AllPlaced(Scoped(WhileHead(s0, start)), mid) ==> PlacedBut(s0, u, {|s0.g| + 2}))
      && Scoped(u) == u.(scopes := mid.scopes)
  {
    hide Sound, Grows, TargetBlocks, Building;
    WhileStarts(s0, start);
    var body, end, h := |s0.g| + 1, |s0.g| + 2, WhileHead(s0, start);
    Basics(mid);
    BuildSound(s0, h, {body, end});
    ScopedSound(h);
    BuildVisit(s0, h, Scoped(h), {body, end});
    BuildVisit(s0, Scoped(h), mid, {body, end});
    var t := CondBr(op, if until then end else body, if until then body else end);
    BuildMove(s0, mid, t, body, {body, end});
    assert {body, end} - {body} == {end};
    var v := Moved(mid, t, body);
    SoundLevels(h);
    Reframe(s0, v, s0.scopes, v.env, v.slot, {end});
    BuildSound(s0, v, {end});
  }

  lemma WhileLowered(s0: Snap, errors0: nat, st: Stmt, h: Snap, mid: Snap, errors1: nat, op: Operand, u: Snap, m: Snap,
                     errors2: nat)
    requires st.While? && Sound(s0) && Placed(s0) && Placed(mid)
    requires h == WhileHead(s0, if st.doWhile then |s0.g| + 1 else |s0.g|)
    requires CondVisited(Scoped(h), errors0, st.cond, mid, errors1, op)
    requires u == WhileBodyStart(s0, mid, op, st.until)
    requires ListLowered(Scoped(u), errors1, st.body, m, errors2)
    ensures Placed(m) && m.scopes != [] && Sound(Closed(m))
    ensures StmtLowered(s0, errors0, st, Moved(Closed(m), Br(|s0.g|), |s0.g| + 2).(env := s0.env), errors2)
  {
    hide Sound, Grows, TargetBlocks, ListCode, Destructed, Building, PlacedBut, BodyIs, TestIs, Valid, ValidList;
    hide ValidCond, StmtLowered, RulesOf, AllPlaced, Joinable, Placed;
    var cond, end := |s0.g|, |s0.g| + 2;
    var start := if st.doWhile then |s0.g| + 1 else |s0.g|;
    Basics(s0);
    WhileStarts(s0, start);
    WhileTests(s0, start, mid, op, st.until);
    BuildSound(s0, u, {end});
    BodyCloses(u, errors1, st.body, m, errors2);
    var c := Closed(m);
    LoopEnds(s0, u, c, cond, end);
    var s2 := Moved(c, Br(cond), end).(env := s0.env);
    GrowsBasics(u, c);
    GrowsBasics(Scoped(h), mid);
    WhileErrors(s0, errors0, st, errors1, errors2);
    if errors2 == errors0 {
      WhileLaid(s0, st, h, mid, op, u, c, s2);
    }
    CompoundLowered(s0, errors0, st, s2, errors2);
  }

  lemma WhileLaid(s0: Snap, st: Stmt, h: Snap, mid: Snap, op: Operand, u: Snap, c: Snap, s2: Snap)
    requires st.While? && Placed(s0) && s0.scopes != []
    requires
      var start := if st.doWhile then |s0.g| + 1 else |s0.g|;
      h == WhileHead(s0, start) && Placed(h) && Now(h) == Point(|s0.g|, 0) && Ends(h.g, Now(s0), Br(start)).Some?
    requires Placed(mid) && mid.g[Cur(mid)].term.None? && Extended(h.g, mid.g) && Placed(Scoped(h))
        && TestIs(Scoped(h), st.cond, mid, op)
    requires u == WhileBodyStart(s0, mid, op, st.until) && Placed(u) && Now(u) == Point(|s0.g| + 1, 0)
    requires u.env == WhileEnv(s0.env, |s0.scopes|, CtrOf(s0))
    requires Placed(c) && c.g[Cur(c)].term.None? && Extended(u.g, c.g) && BodyIs(u, st.body, c)
    requires s2 == Moved(c, Br(|s0.g|), |s0.g| + 2).(env := s0.env) && Placed(s2)
    requires Now(s2) == Point(|s0.g| + 2, 0) && s2.scopes == s0.scopes
    ensures StmtIs(s0, st, s2)
  {
    hide BodyCode, BodyIs, BodyTo, CondCode, TestIs, StmtIs, WhileEnv, Extended, Ends;
    var cond, body, end := |s0.g|, |s0.g| + 1, |s0.g| + 2;
    var yes, no := if st.until then end else body, if st.until then body else end;
    ExtendsItself(s2.g);
    BodyToLaid(u, st.body, c, cond, end, s2.g);
    ExtendedThen(u.g, c.g, s2.g);
    EndStays(mid, CondBr(op, yes, no), body, s2.g);
    MovedExtends(mid, CondBr(op, yes, no), body);
    ExtendedThen(mid.g, u.g, s2.g);
    ExtendedThen(h.g, mid.g, s2.g);
    EndKept(h.g, s2.g, Now(s0), Br(if st.doWhile then body else cond));
    CondLaid(Scoped(h), st.cond, mid, op, yes, no, s2.g);
    WhileIs(s0, st, mid, op, c, s2);
  }

  lemma ExtendsItself(g: Graph)
    ensures Extended(g, g)
  {
  }

  lemma EndKept(g: Graph, g1: Graph, p: Point, t: Terminator)
    requires Extended(g, g1) && Ends(g, p, t).Some?
    ensures Ends(g1, p, t).Some?
  {
    EndsStable(g, g1, p, t);
  }

  /** The parts of a `while` make up its code. */
  lemma WhileIs(s0: Snap, st: Stmt, mid: Snap, op: Operand, c: Snap, s2: Snap)
    requires st.While? && Placed(s0) && s0.scopes != [] && Placed(mid) && Placed(c) && Placed(s2)
    requires
      var cond, body, end := |s0.g|, |s0.g| + 1, |s0.g| + 2;
      var yes, no := if st.until then end else body, if st.until then body else end;
      && |mid.g| > cond && Ends(s2.g, Now(s0), Br(if st.doWhile then body else cond)).Some?
      && CondCode(s2.g, st.cond, yes, no, Point(cond, 0), CtrOf(s0).(block := cond + 3))
          == Some(ExpEnd(Now(mid), RValue(op, TBool), CtrOf(mid)))
      && body < |mid.g| && BodyTo(s2.g, st.body, WhileEnv(s0.env, |s0.scopes|, CtrOf(s0)), s0.scopes, body, cond,
                                  CtrOf(mid)) == Some(CtrOf(c))
      && Now(s2) == Point(end, 0) && s2.scopes == s0.scopes && CtrOf(s2) == CtrOf(c)
    ensures StmtIs(s0, st, s2)
  {
    hide CondCode, BodyTo, WhileEnv, Ends;
    assert WhileCode(s2.g, st, s0.env, s0.scopes, Now(s0), CtrOf(s0)) == Some(StmtEnd(Now(s2), s2.scopes, CtrOf(s2)));
  }

  // ---------------------------------------------------------------- if

  function IfHead(s0: Snap, hasElse: bool): Snap {
    if hasElse then Created(Created(Created(s0))) else Created(Created(s0))
  }

  /** The blocks of an `if` that are still to be placed once its first body has begun. */
  function IfOwn(s0: Snap, hasElse: bool): set<BlockId> {
    if hasElse then {|s0.g| + 1, |s0.g| + 2} else {|s0.g| + 1}
  }

  /** From the test, at `mid`, to the start of the first body. */
  function ThenStart(s0: Snap, mid: Snap, op: Operand): Snap
    requires Placed(mid)
  {
    Moved(mid, CondBr(op, |s0.g|, |s0.g| + 1), |s0.g|).(scopes := s0.scopes)
  }

  lemma IfStarts(s0: Snap, hasElse: bool)
    requires Sound(s0)
    ensures
      var h := IfHead(s0, hasElse);
      && Building(s0, h, {|s0.g|} + IfOwn(s0, hasElse)) && PlacedBut(s0, h, {|s0.g|} + IfOwn(s0, hasElse))
      && Placed(h) && Now(h) == Now(s0) && h.scopes == s0.scopes && h.env == s0.env
  {
    hide Sound, Grows;
    BuildStart(s0);
    BuildCreate(s0, s0, {});
    BuildCreate(s0, Created(s0), {} + {|s0.g|});
    assert {} + {|s0.g|} + {|s0.g| + 1} == {|s0.g|} + {|s0.g| + 1};
    if hasElse {
      BuildCreate(s0, Created(Created(s0)), {} + {|s0.g|} + {|s0.g| + 1});
      assert {} + {|s0.g|} + {|s0.g| + 1} + {|s0.g| + 2} == {|s0.g|} + IfOwn(s0, hasElse);
    }
  }

  lemma IfTests(s0: Snap, hasElse: bool, mid: Snap, op: Operand)
    requires Sound(s0) && Evaluated(Scoped(IfHead(s0, hasElse)), mid)
    ensures
      var u := ThenStart(s0, mid, op);
      && Placed(mid) && mid.g[Cur(mid)].term.None? && Placed(u)
      && Building(s0, u, IfOwn(s0, hasElse)) && Now(u) == Point(|s0.g|, 0) && Sound(IfHead(s0, hasElse))
      && (AllPlaced(Scoped(IfHead(s0, hasElse)), mid) ==> PlacedBut(s0, u, IfOwn(s0, hasElse)))
      && Scoped(u) == u.(scopes := mid.scopes)
  {
    hide Sound, Grows;
    var h, own := IfHead(s0, hasElse), IfOwn(s0, hasElse);
    IfStarts(s0, hasElse);
    Basics(mid);
    ScopedSound(h);
    BuildVisit(s0, h, Scoped(h), {|s0.g|} + own);
    BuildVisit(s0, Scoped(h), mid, {|s0.g|} + own);
    var t := CondBr(op, |s0.g|, |s0.g| + 1);
    BuildMove(s0, mid, t, |s0.g|, {|s0.g|} + own);
    assert {|s0.g|} + own - {|s0.g|} == own;
    var v := Moved(mid, t, |s0.g|);
    SoundLevels(s0);
    Reframe(s0, v, s0.scopes, v.env, v.slot, own);
    Basics(v);
  }

  /** The test and the first body lie in the graph; `c` is the end of the first body. */
  ghost predicate ThenIs(s0: Snap, st: Stmt, mid: Snap, op: Operand, c: Snap, g: Graph)
    requires st.If?
  {
    && Placed(s0) && s0.scopes != [] && Placed(mid) && Placed(c)
    && var end := if st.els.Else? then |s0.g| + 2 else |s0.g| + 1;
       && |mid.g| > |s0.g| && |c.g| > |s0.g| + 1
       && BranchCode(g, st.test, |s0.g|, |s0.g| + 1, Now(s0), CtrOf(s0).(block := end + 1))
           == Some(ExpEnd(Now(mid), RValue(op, TBool), CtrOf(mid)))
       && BodyTo(g, st.thn, s0.env, s0.scopes, |s0.g|, end, CtrOf(mid)) == Some(CtrOf(c))
  }

  /** The first body has been laid out, up to `c`, and its block ended; `u2` is at the start of what follows. */
  ghost predicate ThenDone(s0: Snap, errors0: nat, st: Stmt, mid: Snap, op: Operand, c: Snap, u2: Snap, errors2: nat)
    requires st.If?
  {
    var own := if st.els.Else? then {|s0.g| + 2} else {};
    && Placed(c) && Placed(u2) && CtrOf(u2) == CtrOf(c) && Now(u2) == Point(|s0.g| + 1, 0)
    && Building(s0, u2, own) && u2.scopes == s0.scopes && u2.env == s0.env
    && errors2 >= errors0 && (errors2 == errors0 <==> WellTyped(st.test) && ValidList(st.thn, RulesOf(s0.env), {}))
    && (errors2 == errors0 ==> PlacedBut(s0, u2, own) && ThenIs(s0, st, mid, op, c, u2.g))
  }

  /** Where the block of the first body goes. */
  function ThenEnd(s0: Snap, st: Stmt): BlockId
    requires st.If?
  {
    if st.els.Else? then |s0.g| + 2 else |s0.g| + 1
  }

  lemma ThenLowered(s0: Snap, errors0: nat, st: Stmt, h: Snap, mid: Snap, errors1: nat, op: Operand, u: Snap, m: Snap,
                    errors2: nat)
    requires st.If? && Sound(s0) && Placed(mid)
    requires h == IfHead(s0, st.els.Else?) && CondVisited(Scoped(h), errors0, Some(st.test), mid, errors1, op)
    requires u == ThenStart(s0, mid, op) && ListLowered(Scoped(u), errors1, st.thn, m, errors2)
    ensures Placed(m) && m.scopes != [] && Sound(Closed(m)) && Placed(Closed(m))
    ensures ThenDone(s0, errors0, st, mid, op, Closed(m), Moved(Closed(m), Br(ThenEnd(s0, st)), |s0.g| + 1), errors2)
  {
    hide Sound, Grows, Building, PlacedBut, AllPlaced, BodyIs, TestIs, ThenIs, Destructed, ValidList, WellTyped;
    hide IfOwn;
    Basics(s0);
    IfTests(s0, st.els.Else?, mid, op);
    BuildSound(s0, u, IfOwn(s0, st.els.Else?));
    BodyCloses(u, errors1, st.thn, m, errors2);
    var c := Closed(m);
    ThenBuilds(s0, st, u, c);
    if errors2 == errors0 {
      ThenCode(s0, st, h, mid, op, u, c);
    }
  }

  lemma ThenBuilds(s0: Snap, st: Stmt, u: Snap, c: Snap)
    requires st.If? && Building(s0, u, IfOwn(s0, st.els.Else?)) && Sound(c) && Grows(u, c)
    ensures Placed(c) && c.g[Cur(c)].term.None?
    ensures
      var own := if st.els.Else? then {|s0.g| + 2} else {};
      var u2 := Moved(c, Br(ThenEnd(s0, st)), |s0.g| + 1);
      && Placed(u2) && Now(u2) == Point(|s0.g| + 1, 0) && Building(s0, u2, own)
      && (PlacedBut(s0, u, IfOwn(s0, st.els.Else?)) && AllPlaced(u, c) ==> PlacedBut(s0, u2, own))
  {
    hide Sound, Grows, TargetBlocks, PlacedBut, AllPlaced;
    var els, end, own := |s0.g| + 1, ThenEnd(s0, st), IfOwn(s0, st.els.Else?);
    Basics(c);
    BuildVisit(s0, u, c, own);
    BuildMove(s0, c, Br(end), els, own);
    assert own - {els} == if st.els.Else? then {end} else {};
    BuildSound(s0, Moved(c, Br(end), els), own - {els});
  }

  lemma ThenCode(s0: Snap, st: Stmt, h: Snap, mid: Snap, op: Operand, u: Snap, c: Snap)
    requires st.If? && Sound(s0) && Placed(mid) && h == IfHead(s0, st.els.Else?) && u == ThenStart(s0, mid, op)
    requires Evaluated(Scoped(h), mid) && TestIs(Scoped(h), Some(st.test), mid, op)
    requires Sound(c) && Grows(u, c) && BodyIs(u, st.thn, c)
    ensures Placed(c) && ThenIs(s0, st, mid, op, c, Moved(c, Br(ThenEnd(s0, st)), |s0.g| + 1).g)
  {
    hide Sound, Grows, TargetBlocks, Building, PlacedBut, AllPlaced, BodyIs, TestIs, ThenIs, IfOwn;
    Basics(s0);
    Basics(c);
    IfStarts(s0, st.els.Else?);
    IfTests(s0, st.els.Else?, mid, op);
    GrowsBasics(u, c);
    GrowsBasics(Scoped(h), mid);
    ThenLaid(s0, st, h, mid, op, u, c, Moved(c, Br(ThenEnd(s0, st)), |s0.g| + 1));
  }

  lemma ThenLaid(s0: Snap, st: Stmt, h: Snap, mid: Snap, op: Operand, u: Snap, c: Snap, u2: Snap)
    requires st.If? && Placed(s0) && s0.scopes != [] && Placed(mid) && mid.g[Cur(mid)].term.None?
    requires h == IfHead(s0, st.els.Else?) && Placed(Scoped(h)) && Now(Scoped(h)) == Now(s0)
    requires TestIs(Scoped(h), Some(st.test), mid, op) && |h.g| <= |mid.g|
    requires u == ThenStart(s0, mid, op) && Placed(u) && Now(u) == Point(|s0.g|, 0) && u.env == s0.env
    requires BodyIs(u, st.thn, c) && Placed(c) && c.g[Cur(c)].term.None? && Extended(u.g, c.g)
    requires
      var end := if st.els.Else? then |s0.g| + 2 else |s0.g| + 1;
      u2 == Moved(c, Br(end), |s0.g| + 1)
    ensures ThenIs(s0, st, mid, op, c, u2.g)
  {
    hide BoolCode, BodyCode, BodyTo, ListCode;
    var els, end := |s0.g| + 1, if st.els.Else? then |s0.g| + 2 else |s0.g| + 1;
    BodyToLaid(u, st.thn, c, end, els, u2.g);
    MovedExtends(mid, CondBr(op, |s0.g|, els), |s0.g|);
    ExtendedThen(u.g, c.g, u2.g);
    ExtendedThen(mid.g, u.g, u2.g);
    BoolStays(Scoped(h), st.test, mid, RValue(op, TBool), u2.g);
    EndsStable(u.g, u2.g, Now(mid), CondBr(op, |s0.g|, els));
  }

  lemma ThenStays(s0: Snap, st: Stmt, mid: Snap, op: Operand, c: Snap, g: Graph, g1: Graph)
    requires st.If? && ThenIs(s0, st, mid, op, c, g) && Extended(g, g1)
    ensures ThenIs(s0, st, mid, op, c, g1)
  {
    hide BoolCode, ListCode, BodyCode;
    var end := if st.els.Else? then |s0.g| + 2 else |s0.g| + 1;
    BranchStable(g, g1, st.test, |s0.g|, |s0.g| + 1, Now(s0), CtrOf(s0).(block := end + 1));
    BodyToStable(g, g1, st.thn, s0.env, s0.scopes, |s0.g|, end, CtrOf(mid));
  }

  /** An `if` without an else: the block after it is placed twice. */
  lemma IfLowered(s0: Snap, errors0: nat, st: Stmt, mid: Snap, op: Operand, c: Snap, u2: Snap, errors2: nat)
    requires st.If? && st.els.NoElse? && Sound(s0) && ThenDone(s0, errors0, st, mid, op, c, u2, errors2)
    ensures StmtLowered(s0, errors0, st, Pushed(u2, |s0.g| + 1), errors2)
  {
    hide Sound, Grows, BodyTo, BranchCode, ValidList;
    Basics(s0);
    var s2 := Pushed(u2, |s0.g| + 1);
    PushedAgain(s0, u2);
    if errors2 == errors0 {
      assert IfCode(s2.g, st, s0.env, s0.scopes, Now(s0), CtrOf(s0)) == Some(StmtEnd(Now(s2), s2.scopes, CtrOf(s2)));
    }
  }

  lemma PushedAgain(s0: Snap, s: Snap)
    requires Building(s0, s, {})
    ensures Placed(s) && Building(s0, Pushed(s, Cur(s)), {}) && Placed(Pushed(s, Cur(s)))
        && Now(Pushed(s, Cur(s))) == Now(s)
    ensures PlacedBut(s0, s, {}) ==> PlacedBut(s0, Pushed(s, Cur(s)), {})
  {
    var s1 := Pushed(s, Cur(s));
    assert s.clean ==> forall b: nat | b < |s.g| :: PhisAgree(s.g, b);
    assert forall b | b in s1.placed :: b in s.placed;
  }

  lemma IfElseLowered(s0: Snap, errors0: nat, st: Stmt, mid: Snap, op: Operand, c: Snap, u2: Snap, errors2: nat,
                      m2: Snap, errors3: nat)
    requires st.If? && st.els.Else? && Sound(s0) && ThenDone(s0, errors0, st, mid, op, c, u2, errors2)
    requires ListLowered(Scoped(u2), errors2, st.els.stmts, m2, errors3)
    ensures Placed(m2) && m2.scopes != [] && Sound(Closed(m2))
    ensures StmtLowered(s0, errors0, st, Moved(Closed(m2), Br(|s0.g| + 2), |s0.g| + 2), errors3)
  {
    hide Sound, Grows, Building, PlacedBut, AllPlaced, BodyIs, ThenIs, Destructed, Valid, ValidList, WellTyped;
    hide StmtLowered, StmtIs;
    var end := |s0.g| + 2;
    Basics(s0);
    BuildSound(s0, u2, {end});
    BodyCloses(u2, errors2, st.els.stmts, m2, errors3);
    var c2 := Closed(m2);
    ElseBuilds(s0, u2, c2);
    var s2 := Moved(c2, Br(end), end);
    ElseErrors(s0, errors0, st, errors2, errors3);
    if errors3 == errors0 {
      ElseCode(s0, st, mid, op, c, u2, c2);
    }
    CompoundLowered(s0, errors0, st, s2, errors3);
  }

  lemma ElseErrors(s0: Snap, errors0: nat, st: Stmt, errors2: nat, errors3: nat)
    requires st.If? && st.els.Else? && s0.scopes != [] && errors3 >= errors2 >= errors0
    requires errors2 == errors0 <==> WellTyped(st.test) && ValidList(st.thn, RulesOf(s0.env), {})
    requires errors3 == errors2 <==> ValidList(st.els.stmts, RulesOf(s0.env), {})
    ensures errors3 == errors0 <==> Valid(st, RulesOf(s0.env), Names(Top(s0.scopes)))
  {
    hide ValidList, WellTyped, RulesOf;
  }

  lemma ElseBuilds(s0: Snap, u2: Snap, c2: Snap)
    requires Building(s0, u2, {|s0.g| + 2}) && Sound(c2) && Grows(u2, c2)
    ensures Placed(c2) && c2.g[Cur(c2)].term.None?
    ensures
      var s2 := Moved(c2, Br(|s0.g| + 2), |s0.g| + 2);
      && Placed(s2) && Now(s2) == Point(|s0.g| + 2, 0) && Building(s0, s2, {})
      && (PlacedBut(s0, u2, {|s0.g| + 2}) && AllPlaced(u2, c2) ==> PlacedBut(s0, s2, {}))
  {
    hide Sound, Grows, TargetBlocks, PlacedBut, AllPlaced;
    var end := |s0.g| + 2;
    Basics(c2);
    BuildVisit(s0, u2, c2, {end});
    BuildMove(s0, c2, Br(end), end, {end});
    assert {end} - {end} == {};
    BuildSound(s0, Moved(c2, Br(end), end), {});
  }

  lemma ElseCode(s0: Snap, st: Stmt, mid: Snap, op: Operand, c: Snap, u2: Snap, c2: Snap)
    requires st.If? && st.els.Else? && Placed(s0) && s0.scopes != [] && Placed(c) && CtrOf(u2) == CtrOf(c)
    requires Sound(u2) && Placed(u2) && Now(u2) == Point(|s0.g| + 1, 0) && u2.scopes == s0.scopes && u2.env == s0.env
    requires ThenIs(s0, st, mid, op, c, u2.g) && Sound(c2) && Placed(c2) && Grows(u2, c2)
        && BodyIs(u2, st.els.stmts, c2)
    requires
      var s2 := Moved(c2, Br(|s0.g| + 2), |s0.g| + 2);
      c2.scopes == s0.scopes && Placed(s2) && Now(s2) == Point(|s0.g| + 2, 0)
    ensures StmtIs(s0, st, Moved(c2, Br(|s0.g| + 2), |s0.g| + 2))
  {
    hide Sound, Grows, TargetBlocks, BodyIs, ThenIs, StmtIs, BodyTo;
    var end := |s0.g| + 2;
    var s2 := Moved(c2, Br(end), end);
    Basics(c2);
    GrowsBasics(u2, c2);
    MovedExtends(c2, Br(end), end);
    ExtendsItself(s2.g);
    BodyToLaid(u2, st.els.stmts, c2, end, end, s2.g);
    ExtendedThen(u2.g, c2.g, s2.g);
    ThenStays(s0, st, mid, op, c, u2.g, s2.g);
    ElseLaid(s0, st, mid, op, c, u2, c2, s2);
  }

  lemma ElseLaid(s0: Snap, st: Stmt, mid: Snap, op: Operand, c: Snap, u2: Snap, c2: Snap, s2: Snap)
    requires st.If? && st.els.Else? && ThenIs(s0, st, mid, op, c, s2.g)
    requires |s0.g| + 1 < |u2.g| && CtrOf(u2) == CtrOf(c) && CtrOf(s2) == CtrOf(c2)
    requires BodyTo(s2.g, st.els.stmts, s0.env, s0.scopes, |s0.g| + 1, |s0.g| + 2, CtrOf(u2)) == Some(CtrOf(c2))
    requires Placed(s2) && Now(s2) == Point(|s0.g| + 2, 0) && s2.scopes == s0.scopes
    ensures StmtIs(s0, st, s2)
  {
    hide BodyTo, BranchCode;
    assert IfCode(s2.g, st, s0.env, s0.scopes, Now(s0), CtrOf(s0)) == Some(StmtEnd(Now(s2), s2.scopes, CtrOf(s2)));
  }

  // ---------------------------------------------------------------- for

  /** Four new blocks, and the targets of a `for`. */
  function ForHead(s0: Snap): Snap {
    Created(Created(Created(Created(s0)))).(env := ForEnv(s0.env, |s0.scopes|, CtrOf(s0)))
  }

  lemma ForStarts(s0: Snap)
    requires Sound(s0)
    ensures
      var h, own := ForHead(s0), {|s0.g|, |s0.g| + 1, |s0.g| + 2, |s0.g| + 3};
      Building(s0, h, own) && PlacedBut(s0, h, own) && Placed(h) && Now(h) == Now(s0) && Joinable(h, |s0.g|)
  {
    hide Sound, Grows;
    Basics(s0);
    SoundLevels(s0);
    var b := |s0.g|;
    BuildStart(s0);
    BuildCreate(s0, s0, {});
    BuildCreate(s0, Created(s0), {} + {b});
    BuildCreate(s0, Created(Created(s0)), {} + {b} + {b + 1});
    var s3 := Created(Created(Created(s0)));
    BuildCreate(s0, s3, {} + {b} + {b + 1} + {b + 2});
    var s4, env := Created(s3), ForEnv(s0.env, |s0.scopes|, CtrOf(s0));
    assert {} + {b} + {b + 1} + {b + 2} + {b + 3} == {b, b + 1, b + 2, b + 3};
    Reframe(s0, s4, s4.scopes, env, s4.slot, {b, b + 1, b + 2, b + 3});
    UnplacedEmpty(ForHead(s0), b);
  }

  /** The header has been visited, up to `k`; control goes to the condition. */
  lemma ForHeader(s0: Snap, k: Snap)
    requires Sound(s0) && Visited(Scoped(ForHead(s0)), k)
    ensures
      var b := |s0.g|;
      && Placed(k) && k.g[Cur(k)].term.None?
      && var a1 := Moved(k, Br(b), b);
         && Building(s0, a1, {b + 1, b + 2, b + 3}) && Placed(a1) && Now(a1) == Point(b, 0) && Joinable(a1, b)
         && (AllPlaced(Scoped(ForHead(s0)), k) ==> PlacedBut(s0, a1, {b + 1, b + 2, b + 3}))
  {
    hide Sound, Grows, TargetBlocks;
    var b, h := |s0.g|, ForHead(s0);
    var own := {b, b + 1, b + 2, b + 3};
    ForStarts(s0);
    ScopedSound(h);
    Basics(k);
    BuildVisit(s0, h, Scoped(h), own);
    BuildVisit(s0, Scoped(h), k, own);
    JoinableKept(Scoped(h), k, b);
    BuildMove(s0, k, Br(b), b, own);
    assert own - {b} == {b + 1, b + 2, b + 3};
    JoinableMove(k, Br(b), b, b);
    Basics(Moved(k, Br(b), b));
  }

  /** The condition has been tested, at `mid`. */
  lemma ForTests(s0: Snap, a1: Snap, mid: Snap, op: Operand)
    requires Building(s0, a1, {|s0.g| + 1, |s0.g| + 2, |s0.g| + 3}) && Joinable(a1, |s0.g|) && Evaluated(a1, mid)
    ensures
      var b := |s0.g|;
      && Placed(mid) && mid.g[Cur(mid)].term.None?
      && var a2 := Moved(mid, CondBr(op, b + 1, b + 3), b + 1);
         && Building(s0, a2, {b + 2, b + 3}) && Placed(a2) && Now(a2) == Point(b + 1, 0) && Joinable(a2, b)
         && (PlacedBut(s0, a1, {b + 1, b + 2, b + 3}) && AllPlaced(a1, mid) ==> PlacedBut(s0, a2, {b + 2, b + 3}))
  {
    hide Sound, Grows, TargetBlocks, PlacedBut, AllPlaced;
    var b := |s0.g|;
    var own, t := {b + 1, b + 2, b + 3}, CondBr(op, b + 1, b + 3);
    Basics(mid);
    BuildVisit(s0, a1, mid, own);
    JoinableKept(a1, mid, b);
    BuildMove(s0, mid, t, b + 1, own);
    assert own - {b + 1} == {b + 2, b + 3};
    JoinableMove(mid, t, b + 1, b);
    Basics(Moved(mid, t, b + 1));
  }

  /** The body has been visited, up to `m`. */
  lemma ForBodyEnds(s0: Snap, a2: Snap, m: Snap)
    requires Building(s0, a2, {|s0.g| + 2, |s0.g| + 3}) && Joinable(a2, |s0.g|) && Visited(a2, m)
    ensures
      var b := |s0.g|;
      && Placed(m) && m.g[Cur(m)].term.None?
      && var a3 := Moved(m, Br(b + 2), b + 2);
         && Building(s0, a3, {b + 3}) && Placed(a3) && Now(a3) == Point(b + 2, 0) && Joinable(a3, b)
         && (PlacedBut(s0, a2, {b + 2, b + 3}) && AllPlaced(a2, m) ==> PlacedBut(s0, a3, {b + 3}))
  {
    hide Sound, Grows, TargetBlocks, PlacedBut, AllPlaced;
    var b := |s0.g|;
    Basics(m);
    BuildVisit(s0, a2, m, {b + 2, b + 3});
    JoinableKept(a2, m, b);
    BuildMove(s0, m, Br(b + 2), b + 2, {b + 2, b + 3});
    assert {b + 2, b + 3} - {b + 2} == {b + 3};
    JoinableMove(m, Br(b + 2), b + 2, b);
    Basics(Moved(m, Br(b + 2), b + 2));
  }

  /** The end of a round: the scope is closed, control goes back to the condition, and goes on after the loop. */
  ghost predicate ForClosed(s0: Snap, a3: Snap, n: Snap) {
    && Placed(n) && n.scopes != []
    && var b, c := |s0.g|, Closed(n);
      && Sound(c) && Placed(c) && Extended(n.g, c.g) && c.g[Cur(c)].term.None? && c.env == a3.env
      && DtorsCode(c.g, Top(n.scopes), None, Now(n)) == Some(Now(c))
      && var s2 := Moved(c, Br(b), b + 3).(env := s0.env);
        && Building(s0, s2, {}) && Placed(s2) && Now(s2) == Point(b + 3, 0) && s2.scopes == s0.scopes
        && (PlacedBut(s0, a3, {b + 3}) && AllPlaced(a3, n) ==> PlacedBut(s0, s2, {}))
  }

  /** The post expressions have been visited, up to `n`: the scope ends, and the loop closes. */
  lemma ForCloses(s0: Snap, a3: Snap, n: Snap)
    requires Sound(s0) && Building(s0, a3, {|s0.g| + 3}) && Joinable(a3, |s0.g|) && Evaluated(a3, n)
    requires a3.env == ForEnv(s0.env, |s0.scopes|, CtrOf(s0)) && n.scopes != [] && Pop(n.scopes) == s0.scopes
    ensures ForClosed(s0, a3, n)
  {
    hide Sound, Grows;
    var b := |s0.g|;
    Basics(n);
    BuildVisit(s0, a3, n, {b + 3});
    JoinableKept(a3, n, b);
    var d := Destructed(n, Top(n.scopes), None);
    DestructedSound(n, Top(n.scopes), None);
    BuildVisit(s0, n, d, {b + 3});
    JoinableKept(n, d, b);
    SoundLevels(s0);
    ForLevels(s0);
    Reframe(s0, d, s0.scopes, d.env, d.slot, {b + 3});
    var c := Closed(n);
    assert c == d.(scopes := s0.scopes, env := d.env, slot := d.slot);
    Basics(c);
    BuildMove(s0, c, Br(b), b + 3, {b + 3});
    assert {b + 3} - {b + 3} == {};
    var s1 := Moved(c, Br(b), b + 3);
    OldTargets(s0, s1);
    Reframe(s0, s1, s0.scopes, s0.env, s1.slot, {});
    Basics(s1.(env := s0.env));
  }

  lemma ForLevels(s0: Snap)
    requires EnvOk(s0.env, |s0.scopes|)
    ensures EnvOk(ForEnv(s0.env, |s0.scopes|, CtrOf(s0)), |s0.scopes|)
  {
  }

  lemma RoundLaid(s0: Snap, st: Stmt, k: Snap, a1: Snap, mid: Snap, op: Operand, a2: Snap, m: Snap, a3: Snap, n: Snap,
                  ops: seq<Operand>, c: Snap, g: Graph)
    requires st.For? && k.scopes != [] && |s0.g| + 4 <= |k.g|
    requires Placed(a1) && Now(a1) == Point(|s0.g|, 0) && CtrOf(a1) == CtrOf(k) && a1.scopes == k.scopes
    requires Placed(mid) && mid.g[Cur(mid)].term.None? && TestIs(a1, st.cond, mid, op) && mid.scopes == k.scopes
    requires a2 == Moved(mid, CondBr(op, |s0.g| + 1, |s0.g| + 3), |s0.g| + 1) && Placed(a2)
        && Now(a2) == Point(|s0.g| + 1, 0)
    requires a2.env == ForEnv(s0.env, |s0.scopes|, CtrOf(s0))
    requires Placed(m) && ListIs(a2, st.body, m) && m.g[Cur(m)].term.None? && m.scopes != [] && Extended(a2.g, m.g)
    requires a3 == Moved(m, Br(|s0.g| + 2), |s0.g| + 2) && Placed(a3) && Now(a3) == Point(|s0.g| + 2, 0)
    requires Placed(n) && ArgsCode(n.g, st.post, Now(a3), CtrOf(a3)) == Some(ArgsEnd(Now(n), ops, CtrOf(n)))
    requires n.scopes == m.scopes && Extended(a3.g, n.g)
    requires Placed(c) && c.g[Cur(c)].term.None? && DtorsCode(c.g, Top(n.scopes), None, Now(n)) == Some(Now(c))
        && Extended(n.g, c.g)
    requires CtrOf(c) == CtrOf(n) && Extended(Moved(c, Br(|s0.g|), |s0.g| + 3).g, g)
    ensures RoundCode(g, st, a2.env, k.scopes, CtrOf(s0), CtrOf(k)) == Some(CtrOf(c))
    ensures Extended(mid.g, g)
  {
    hide ListCode, CondCode, TestIs, ArgsCode, DtorsCode, ListIs;
    var b := |s0.g|;
    RoundExtends(b, mid, op, a2, m, a3, n, c, g);
    EndStays(mid, CondBr(op, b + 1, b + 3), b + 1, g);
    CondLaid(a1, st.cond, mid, op, b + 1, b + 3, g);
    ListStays(a2, st.body, m, g);
    EndStays(m, Br(b + 2), b + 2, g);
    ArgsStable(n.g, g, st.post, Now(a3), CtrOf(a3));
    DtorsStable(c.g, g, Top(n.scopes), None, Now(n));
    EndStays(c, Br(b), b + 3, g);
    assert PostCode(g, st.post, Top(m.scopes), b + 2, b, CtrOf(m)) == Some(CtrOf(n));
  }

  lemma RoundExtends(b: BlockId, mid: Snap, op: Operand, a2: Snap, m: Snap, a3: Snap, n: Snap, c: Snap, g: Graph)
    requires Placed(mid) && mid.g[Cur(mid)].term.None? && a2 == Moved(mid, CondBr(op, b + 1, b + 3), b + 1)
    requires Placed(m) && m.g[Cur(m)].term.None? && Extended(a2.g, m.g) && a3 == Moved(m, Br(b + 2), b + 2)
    requires Extended(a3.g, n.g) && Extended(n.g, c.g)
    requires Placed(c) && c.g[Cur(c)].term.None? && Extended(Moved(c, Br(b), b + 3).g, g)
    ensures Extended(mid.g, g) && Extended(a2.g, g) && Extended(m.g, g) && Extended(a3.g, g) && Extended(n.g, g)
        && Extended(c.g, g)
  {
    MovedExtends(mid, CondBr(op, b + 1, b + 3), b + 1);
    MovedExtends(m, Br(b + 2), b + 2);
    MovedExtends(c, Br(b), b + 3);
    ExtendedThen(c.g, Moved(c, Br(b), b + 3).g, g);
    ExtendedThen(n.g, c.g, g);
    ExtendedThen(a3.g, n.g, g);
    ExtendedThen(m.g, a3.g, g);
    ExtendedThen(a2.g, m.g, g);
    ExtendedThen(mid.g, a2.g, g);
  }

  /** A list of expressions has been visited. */
  ghost predicate Collected(s0: Snap, errors0: nat, es: seq<Exp>, s1: Snap, errors1: nat, ops: seq<Operand>) {
    && Evaluated(s0, s1) && AllPlaced(s0, s1)
    && errors1 >= errors0
    && (errors1 == errors0 <==> AllWellTyped(es))
    && (errors1 == errors0 ==>
          Placed(s0) && Placed(s1) && ArgsCode(s1.g, es, Now(s0), CtrOf(s0)) == Some(ArgsEnd(Now(s1), ops, CtrOf(s1))))
  }

  /** The states that a `for` goes through, from block to block: `k`, `mid`, `m` and `n` are the ends of its parts. */
  ghost predicate ForSteps(s0: Snap, k: Snap, a1: Snap, mid: Snap, op: Operand, a2: Snap, m: Snap, a3: Snap, n: Snap) {
    && Sound(s0) && Placed(k) && Placed(mid) && Placed(m)
    && Visited(Scoped(ForHead(s0)), k) && a1 == Moved(k, Br(|s0.g|), |s0.g|)
    && Evaluated(a1, mid) && a2 == Moved(mid, CondBr(op, |s0.g| + 1, |s0.g| + 3), |s0.g| + 1)
    && Visited(a2, m) && a3 == Moved(m, Br(|s0.g| + 2), |s0.g| + 2) && Evaluated(a3, n)
  }

  lemma ForBuilds(s0: Snap, k: Snap, a1: Snap, mid: Snap, op: Operand, a2: Snap, m: Snap, a3: Snap, n: Snap)
    requires ForSteps(s0, k, a1, mid, op, a2, m, a3, n)
    ensures Placed(n) && n.scopes != [] && Sound(Closed(n)) && Placed(Closed(n)) && s0.scopes != []
    ensures
      var s2 := Moved(Closed(n), Br(|s0.g|), |s0.g| + 3).(env := s0.env);
      && Building(s0, s2, {}) && Placed(s2) && Now(s2) == Point(|s0.g| + 3, 0) && s2.scopes == s0.scopes
      && (AllPlaced(Scoped(ForHead(s0)), k) && AllPlaced(a1, mid) && AllPlaced(a2, m) && AllPlaced(a3, n)
          ==> PlacedBut(s0, s2, {}))
  {
    hide Sound, Grows, TargetBlocks, Building, PlacedBut, AllPlaced, Joinable, DtorsCode;
    Basics(s0);
    ForHeader(s0, k);
    ForTests(s0, a1, mid, op);
    ForBodyEnds(s0, a2, m);
    ForCloses(s0, a3, n);
  }

  /** The code of the parts of a `for` makes up its code. */
  lemma ForCodeLaid(s0: Snap, st: Stmt, k: Snap, a1: Snap, mid: Snap, op: Operand, a2: Snap, m: Snap, a3: Snap, n: Snap,
                    ops: seq<Operand>)
    requires st.For? && ForSteps(s0, k, a1, mid, op, a2, m, a3, n)
    requires PlainsAre(Scoped(ForHead(s0)), st.pre, k) && TestIs(a1, st.cond, mid, op) && ListIs(a2, st.body, m)
    requires Placed(a3) && Placed(n) && ArgsCode(n.g, st.post, Now(a3), CtrOf(a3))
        == Some(ArgsEnd(Now(n), ops, CtrOf(n)))
    ensures Placed(n) && n.scopes != [] && Placed(Closed(n))
    ensures StmtIs(s0, st, Moved(Closed(n), Br(|s0.g|), |s0.g| + 3).(env := s0.env))
  {
    hide Sound, Grows, TargetBlocks, Building, PlacedBut, AllPlaced, Joinable, ListIs, TestIs, PlainsAre, StmtIs;
    hide ArgsCode, DtorsCode, RoundCode, Destructed, Placed, ForEnv;
    var b, h := |s0.g|, ForHead(s0);
    Basics(s0);
    ForStarts(s0);
    BuildSound(s0, h, {b, b + 1, b + 2, b + 3});
    ScopedSound(h);
    ForHeader(s0, k);
    ForTests(s0, a1, mid, op);
    ForBodyEnds(s0, a2, m);
    ForCloses(s0, a3, n);
    GrowsBasics(Scoped(h), k);
    GrowsBasics(a1, mid);
    GrowsBasics(a2, m);
    GrowsBasics(a3, n);
    var c := Closed(n);
    var s2 := Moved(c, Br(b), b + 3).(env := s0.env);
    RoundLaid(s0, st, k, a1, mid, op, a2, m, a3, n, ops, c, s2.g);
    ForLaid(s0, st, h, k, a1, mid, c, s2);
  }

  lemma ForLowered(s0: Snap, errors0: nat, st: Stmt, k: Snap, errors1: nat, a1: Snap, mid: Snap, errors2: nat,
                   op: Operand, a2: Snap, m: Snap, errors3: nat, a3: Snap, n: Snap, errors4: nat, ops: seq<Operand>)
    requires st.For? && Sound(s0) && Placed(k) && Placed(mid) && Placed(m)
    requires PlainsLowered(Scoped(ForHead(s0)), errors0, st.pre, k, errors1)
    requires a1 == Moved(k, Br(|s0.g|), |s0.g|)
    requires CondVisited(a1, errors1, st.cond, mid, errors2, op)
    requires a2 == Moved(mid, CondBr(op, |s0.g| + 1, |s0.g| + 3), |s0.g| + 1)
    requires ListLowered(a2, errors2, st.body, m, errors3)
    requires a3 == Moved(m, Br(|s0.g| + 2), |s0.g| + 2)
    requires Collected(a3, errors3, st.post, n, errors4, ops)
    ensures Placed(n) && n.scopes != [] && Sound(Closed(n))
    ensures StmtLowered(s0, errors0, st, Moved(Closed(n), Br(|s0.g|), |s0.g| + 3).(env := s0.env), errors4)
  {
    hide Sound, Grows, Building, PlacedBut, AllPlaced, ListIs, TestIs, PlainsAre, Valid, ValidList, StmtLowered;
    hide StmtIs, Evaluated, Visited, Destructed;
    assert ForSteps(s0, k, a1, mid, op, a2, m, a3, n);
    ForBuilds(s0, k, a1, mid, op, a2, m, a3, n);
    var s2 := Moved(Closed(n), Br(|s0.g|), |s0.g| + 3).(env := s0.env);
    SameScopes(s0, k, a1, mid, op, a2, m, a3, n);
    ForErrors(s0, errors0, st, k, errors1, a1, mid, errors2, op, a2, m, errors3, a3, n, errors4, ops);
    if errors4 == errors0 {
      ForCodeLaid(s0, st, k, a1, mid, op, a2, m, a3, n, ops);
    }
    CompoundLowered(s0, errors0, st, s2, errors4);
  }

  lemma SameScopes(s0: Snap, k: Snap, a1: Snap, mid: Snap, op: Operand, a2: Snap, m: Snap, a3: Snap, n: Snap)
    requires ForSteps(s0, k, a1, mid, op, a2, m, a3, n)
    ensures a2.scopes == k.scopes && a2.env == ForEnv(s0.env, |s0.scopes|, CtrOf(s0))
  {
    hide Sound, Grows;
  }

  lemma ForErrors(s0: Snap, errors0: nat, st: Stmt, k: Snap, errors1: nat, a1: Snap, mid: Snap, errors2: nat,
                  op: Operand, a2: Snap, m: Snap, errors3: nat, a3: Snap, n: Snap, errors4: nat, ops: seq<Operand>)
    requires st.For? && s0.scopes != []
    requires PlainsLowered(Scoped(ForHead(s0)), errors0, st.pre, k, errors1)
    requires CondVisited(a1, errors1, st.cond, mid, errors2, op)
    requires ListLowered(a2, errors2, st.body, m, errors3)
    requires Collected(a3, errors3, st.post, n, errors4, ops)
    requires a2.scopes == k.scopes && a2.env == ForEnv(s0.env, |s0.scopes|, CtrOf(s0))
    ensures errors4 >= errors0 && (errors4 == errors0 <==> Valid(st, RulesOf(s0.env), Names(Top(s0.scopes))))
  {
    hide Sound, Grows, AllPlaced, TestIs, PlainsAre, ListIs, ArgsCode;
    assert Top(Scoped(ForHead(s0)).scopes) == [] && Names([]) == {};
    assert errors1 == errors0 ==> Names(Top(k.scopes)) == DeclaredPlain(st.pre);
    assert RulesOf(a2.env) == RulesOf(s0.env).(depth := InWhile(RulesOf(s0.env).depth));
  }

  lemma ForLaid(s0: Snap, st: Stmt, h: Snap, k: Snap, a1: Snap, mid: Snap, c: Snap, s2: Snap)
    requires st.For? && Placed(s0) && s0.scopes != [] && h == ForHead(s0)
    requires Placed(h) && Placed(Scoped(h)) && Now(h) == Now(s0)
    requires PlainsAre(Scoped(h), st.pre, k) && Placed(k) && k.g[Cur(k)].term.None? && k.scopes != []
        && |s0.g| + 4 <= |k.g|
    requires a1 == Moved(k, Br(|s0.g|), |s0.g|) && Extended(a1.g, mid.g) && Extended(mid.g, s2.g)
    requires RoundCode(s2.g, st, ForEnv(s0.env, |s0.scopes|, CtrOf(s0)), k.scopes, CtrOf(s0), CtrOf(k))
        == Some(CtrOf(c))
    requires Placed(s2) && Now(s2) == Point(|s0.g| + 3, 0) && s2.scopes == s0.scopes && CtrOf(s2) == CtrOf(c)
    ensures StmtIs(s0, st, s2)
  {
    hide RoundCode, PlainsCode, PlainsAre;
    MovedExtends(k, Br(|s0.g|), |s0.g|);
    ExtendedThen(a1.g, mid.g, s2.g);
    ExtendedThen(k.g, a1.g, s2.g);
    PlainsStay(Scoped(h), st.pre, k, s2.g);
    EndStays(k, Br(|s0.g|), |s0.g|, s2.g);
    assert ForCode(s2.g, st, s0.env, s0.scopes, Now(s0), CtrOf(s0)) == Some(StmtEnd(Now(s2), s2.scopes, CtrOf(s2)));
  }

  // ---------------------------------------------------------------- switch

  /** The terminator of a block, replaced. */
  function Retargeted(s: Snap, b: BlockId, t: Terminator): Snap
    requires b < |s.g|
  {
    s.(g := s.g[b := s.g[b].(term := Some(t))])
  }

  /** A finished block may branch elsewhere, as long as no phi depends on it. */
  lemma BuildRetarget(s0: Snap, s: Snap, b: BlockId, t: Terminator, own: set<BlockId>)
    requires Building(s0, s, own) && Sound(s0)
    requires b in s.placed && b != Cur(s) && (b == Cur(s0) || b >= |s0.g|)
    requires forall x | x in To(s.g, b) :: Joinable(s, x)
    requires forall x | x in Successors(t) :: x >= |s0.g| && Joinable(s, x)
    ensures b < |s.g| && Building(s0, Retargeted(s, b, t), own)
    ensures PlacedBut(s0, s, own) ==> PlacedBut(s0, Retargeted(s, b, t), own)
  {
    hide TargetBlocks, Below, PhisAgree;
    RetargetSound(s, b, t);
    var s1 := Retargeted(s, b, t);
    assert forall p: nat | p < |s.g| && p != b :: s1.g[p] == s.g[p] && To(s1.g, p) == To(s.g, p);
    forall i: nat | i < |s0.g| ensures Extends(s0.g[i], s1.g[i]) {
      assert Extends(s0.g[i], s.g[i]);
    }
    forall i: nat | i < |s0.g| && HasPhi(s1.g[i]) ensures HasPhi(s0.g[i]) {
      assert s1.g[i].instrs == s.g[i].instrs;
      assert HasPhi(s.g[i]);
    }
  }

  lemma RetargetSound(s: Snap, b: BlockId, t: Terminator)
    requires Sound(s) && b in s.placed && b != Cur(s)
    requires forall x | x in To(s.g, b) :: Joinable(s, x)
    requires forall x | x in Successors(t) :: Joinable(s, x)
    ensures b < |s.g| && Sound(Retargeted(s, b, t))
  {
    var s1 := Retargeted(s, b, t);
    assert forall p: nat | p < |s.g| && p != b :: s1.g[p] == s.g[p] && To(s1.g, p) == To(s.g, p);
    assert To(s1.g, b) == Successors(t);
    assert forall x: nat | x < |s.g| :: s1.g[x].instrs == s.g[x].instrs;
    forall x: nat | s.clean && x < |s.g| ensures PhisAgree(s1.g, x) {
      assert PhisAgree(s.g, x);
      if HasPhi(s.g[x]) {
        assert Preds(s1.g, x) == Preds(s.g, x);
      }
    }
    forall x | x in TargetBlocks(s.env) ensures !HasPhi(s1.g[x]) {
      assert !HasPhi(s.g[x]);
    }
  }

  lemma {:induction false} TableBlocks(cases: seq<Case>, starts: seq<BlockId>)
    requires |starts| == |cases|
    ensures forall e | e in Table(cases, starts) :: e.1 in starts
  {
    if cases != [] {
      var n := |cases| - 1;
      TableBlocks(cases[..n], starts[..n]);
      assert starts[n] in starts;
    }
  }

  /**
   A switch on `op`, begun in state `v`, whose cases so far start in the blocks `starts`; code
   goes into block `next`, and values without a case go to `other`.
   */
  ghost predicate Switching(s0: Snap, v: Snap, op: Operand, cases: seq<Case>, starts: seq<BlockId>, other: BlockId,
                            p: Snap) {
    && |starts| == |cases|
    && Placed(v) && v.g[Cur(v)].term.None? && Building(s0, p, {|v.g| + 1}) && Placed(p)
    && |v.g| + 2 <= |p.g| && Cur(p) >= |v.g|
    && (Cur(v) == Cur(s0) || Cur(v) >= |s0.g|) && |s0.g| <= |v.g| && Cur(v) in p.placed
    && p.scopes == s0.scopes && p.env == SwitchEnv(s0.env, |s0.scopes|, |v.g| + 1)
    && p.g[Cur(v)] == Block(v.g[Cur(v)].instrs, Some(SwitchTo(op, Table(cases, starts), other)))
    && (forall x | x in starts || x == |v.g| + 1 || x == other :: x >= |v.g| && Joinable(p, x))
    && Extended(v.g, p.g)
  }

  /** The code of the cases so far. */
  ghost predicate CasesLaid(s0: Snap, v: Snap, cases: seq<Case>, starts: seq<BlockId>, p: Snap) {
    && s0.scopes != [] && Placed(p) && Now(p).i == 0
    && CasesCode(p.g, cases, SwitchEnv(s0.env, |s0.scopes|, |v.g| + 1), s0.scopes, |v.g|, CtrOf(v).(block := |v.g| + 2))
       == Some(CasesEnd(starts, Cur(p), CtrOf(p)))
    && PlacedBut(s0, p, {|v.g| + 1})
  }

  function SwitchHead(s0: Snap, v: Snap): Snap {
    Created(Created(v)).(env := SwitchEnv(s0.env, |s0.scopes|, |v.g| + 1))
  }

  lemma SwitchStarts(s0: Snap, v: Snap, op: Operand)
    requires Evaluated(s0, v) && AllPlaced(s0, v)
    ensures Placed(v) && Placed(SwitchHead(s0, v)) && SwitchHead(s0, v).g[Cur(v)].term.None?
    ensures
      var p := Moved(SwitchHead(s0, v), SwitchTo(op, [], |v.g| + 1), |v.g|);
      Switching(s0, v, op, [], [], |v.g| + 1, p) && CasesLaid(s0, v, [], [], p) && Joinable(p, Cur(p))
  {
    hide Sound, Grows, TargetBlocks, Building, PlacedBut, AllPlaced, EnvOk, CasesCode, Extended;
    var first, end := |v.g|, |v.g| + 1;
    var h, t := SwitchHead(s0, v), SwitchTo(op, [], end);
    SwitchHeadBuilds(s0, v);
    GrowsBasics(s0, v);
    assert Successors(t) == {end};
    BuildMove(s0, h, t, first, {first, end});
    assert {first, end} - {first} == {end};
    var p := Moved(h, t, first);
    BuildSound(s0, p, {end});
    OwnIsEmpty(s0, h, first, {first, end});
    OwnIsEmpty(s0, p, end, {end});
    assert p.g[first] == h.g[first] by { MovedElsewhere(h, t, first, first); }
    FirstSwitching(s0, v, op);
  }

  lemma OwnIsEmpty(s0: Snap, s: Snap, b: BlockId, own: set<BlockId>)
    requires Building(s0, s, own) && b in own
    ensures b < |s.g| && s.g[b] == Block([], None) && Joinable(s, b)
  {
    hide Sound, Grows;
    UnplacedEmpty(s, b);
  }

  lemma MovedElsewhere(s: Snap, t: Terminator, b: BlockId, x: BlockId)
    requires Placed(s) && x < |s.g| && x != Cur(s)
    ensures |Moved(s, t, b).g| == |s.g| && Moved(s, t, b).g[x] == s.g[x]
  {
  }

  lemma SwitchTargets(s0: Snap, end: BlockId)
    ensures forall x | x in TargetBlocks(SwitchEnv(s0.env, |s0.scopes|, end)) :: x == end || x in TargetBlocks(s0.env)
  {
  }

  lemma FirstSwitching(s0: Snap, v: Snap, op: Operand)
    requires Evaluated(s0, v) && Placed(v) && Placed(SwitchHead(s0, v)) && v.g[Cur(v)].term.None? && s0.scopes != []
    requires
      var p := Moved(SwitchHead(s0, v), SwitchTo(op, [], |v.g| + 1), |v.g|);
      && Building(s0, p, {|v.g| + 1}) && PlacedBut(s0, p, {|v.g| + 1}) && Placed(p) && Now(p) == Point(|v.g|, 0)
      && p.g[|v.g|] == Block([], None) && Joinable(p, |v.g|) && Joinable(p, |v.g| + 1)
    ensures
      var p := Moved(SwitchHead(s0, v), SwitchTo(op, [], |v.g| + 1), |v.g|);
      Switching(s0, v, op, [], [], |v.g| + 1, p) && CasesLaid(s0, v, [], [], p)
  {
    hide Sound, TargetBlocks, Building, PlacedBut, AllPlaced, EnvOk, Joinable;
    var p := Moved(SwitchHead(s0, v), SwitchTo(op, [], |v.g| + 1), |v.g|);
    GrowsBasics(s0, v);
    assert Extended(v.g, p.g);
  }

  lemma SwitchHeadBuilds(s0: Snap, v: Snap)
    requires Evaluated(s0, v) && AllPlaced(s0, v)
    ensures
      var h := SwitchHead(s0, v);
      Building(s0, h, {|v.g|, |v.g| + 1}) && PlacedBut(s0, h, {|v.g|, |v.g| + 1}) && Placed(h) && h.g[Cur(v)].term.None?
    ensures Placed(v) && Placed(s0) && s0.scopes != []
  {
    hide Sound, Grows, TargetBlocks, EnvOk;
    Basics(s0);
    Basics(v);
    SoundLevels(s0);
    var first, end := |v.g|, |v.g| + 1;
    BuildStart(s0);
    BuildVisit(s0, s0, v, {});
    BuildCreate(s0, v, {});
    BuildCreate(s0, Created(v), {} + {first});
    assert {} + {first} + {end} == {first, end};
    var s2 := Created(Created(v));
    SwitchLevels(s0, end);
    SwitchTargets(s0, end);
    Reframe(s0, s2, s2.scopes, SwitchEnv(s0.env, |s0.scopes|, end), s2.slot, {first, end});
  }

  lemma SwitchLevels(s0: Snap, end: BlockId)
    requires EnvOk(s0.env, |s0.scopes|)
    ensures EnvOk(SwitchEnv(s0.env, |s0.scopes|, end), |s0.scopes|)
  {
  }

  /** A new case: the table gains its value, or the default is noted. */
  lemma CaseEnters(s0: Snap, v: Snap, op: Operand, cases: seq<Case>, starts: seq<BlockId>, item: Case, p: Snap)
    requires Sound(s0) && Switching(s0, v, op, cases, starts, |v.g| + 1, p) && Joinable(p, Cur(p))
    ensures
      var cases1, starts1 := cases + [item], starts + [Cur(p)];
      var p1 := Retargeted(p, Cur(v), SwitchTo(op, Table(cases1, starts1), |v.g| + 1));
      && Switching(s0, v, op, cases1, starts1, |v.g| + 1, p1)
      && (CasesLaid(s0, v, cases, starts, p) ==> CasesLaid(s0, v, cases, starts, p1))
  {
    hide Sound, Grows, CasesCode, TargetBlocks, Building, PlacedBut, AllPlaced;
    var cases1, starts1 := cases + [item], starts + [Cur(p)];
    var t := SwitchTo(op, Table(cases1, starts1), |v.g| + 1);
    TableBlocks(cases, starts);
    TableBlocks(cases1, starts1);
    BuildRetarget(s0, p, Cur(v), t, {|v.g| + 1});
    var p1 := Retargeted(p, Cur(v), t);
    assert forall x | Joinable(p, x) :: Joinable(p1, x);
    forall i: nat | i < |v.g| ensures Extends(v.g[i], p1.g[i]) {
      assert Extends(v.g[i], p.g[i]);
    }
    if CasesLaid(s0, v, cases, starts, p) {
      CasesStable(p.g, p1.g, cases, SwitchEnv(s0.env, |s0.scopes|, |v.g| + 1), s0.scopes, |v.g|,
                  CtrOf(v).(block := |v.g| + 2));
    }
  }

  /** The body of a case has been visited, from `p1` with a scope of its own to `m`. */
  lemma CaseVisited(s0: Snap, v: Snap, op: Operand, cases: seq<Case>, starts: seq<BlockId>, p1: Snap, m: Snap)
    requires Switching(s0, v, op, cases, starts, |v.g| + 1, p1) && Visited(Scoped(p1), m)
    ensures Placed(m) && m.g[Cur(m)].term.None? && m.scopes != [] && Pop(m.scopes) == s0.scopes
    ensures Switching(s0, v, op, cases, starts, |v.g| + 1, m.(scopes := s0.scopes))
    ensures PlacedBut(s0, p1, {|v.g| + 1}) && AllPlaced(Scoped(p1), m)
        ==> PlacedBut(s0, m.(scopes := s0.scopes), {|v.g| + 1})
  {
    hide Sound, Grows;
    var end := |v.g| + 1;
    Basics(m);
    ScopedSound(p1);
    BuildVisit(s0, p1, Scoped(p1), {end});
    BuildVisit(s0, Scoped(p1), m, {end});
    SoundLevels(p1);
    Reframe(s0, m, s0.scopes, m.env, m.slot, {end});
    var q := m.(scopes := s0.scopes);
    Basics(q);
    forall x | Joinable(p1, x) ensures Joinable(q, x) {
      JoinableKept(Scoped(p1), m, x);
    }
    GrowsBasics(Scoped(p1), m);
    ExtendedThen(v.g, p1.g, q.g);
    SwitchKept(p1, m, Cur(v));
  }

  /** A visit leaves the block of a switch around it alone. */
  lemma SwitchKept(p1: Snap, m: Snap, b: BlockId)
    requires Grows(Scoped(p1), m) && b in p1.placed && b != Cur(p1) && b < |p1.g|
    ensures m.g[b] == p1.g[b] && b in m.placed && b != Cur(m)
  {
  }

  /** The cases but the last lie in the graph, and the last one's value is a new one. */
  ghost predicate CaseFits(s0: Snap, v: Snap, cases: seq<Case>, starts: seq<BlockId>, p: Snap) {
    && cases != [] && |starts| == |cases|
    && var n := |cases| - 1;
       CasesLaid(s0, v, cases[..n], starts[..n], p) && cases[n].value !in CaseValues(cases[..n])
  }

  /** A case whose body ends in a jump: the next case goes on in the block after the jump. */
  lemma JumpCaseLeaves(s0: Snap, v: Snap, op: Operand, cases: seq<Case>, starts: seq<BlockId>, errors0: nat, p1: Snap,
                       m: Snap, errors1: nat)
    requires cases != [] && EndsInJump(cases[|cases| - 1].body)
    requires Switching(s0, v, op, cases, starts, |v.g| + 1, p1) && starts[|cases| - 1] == Cur(p1)
    requires ListLowered(Scoped(p1), errors0, cases[|cases| - 1].body, m, errors1)
    requires m.clean ==> errors1 == errors0
    ensures Placed(m) && m.g[Cur(m)].term.None? && m.scopes != []
    ensures
      var p2 := m.(scopes := Pop(m.scopes));
      && Switching(s0, v, op, cases, starts, |v.g| + 1, p2) && Joinable(p2, Cur(p2))
      && (errors1 == errors0 && CaseFits(s0, v, cases, starts, p1) ==> CasesLaid(s0, v, cases, starts, p2))
  {
    hide Sound, Grows, TargetBlocks, ListCode, ListIs, CasesCode, ValidList;
    CaseVisited(s0, v, op, cases, starts, p1, m);
    GrowsBasics(Scoped(p1), m);
    var n, p2 := |cases| - 1, m.(scopes := Pop(m.scopes));
    if errors1 == errors0 {
      NoInstrs(Scoped(p1), cases[n].body, m);
      if CaseFits(s0, v, cases, starts, p1) {
        JumpCaseLaid(s0, v, cases, starts, p1, m, p2);
      }
    }
  }

  /** The current block after a list that ends in a jump is empty. */
  lemma NoInstrs(s0: Snap, ss: seq<Stmt>, m: Snap)
    requires ListIs(s0, ss, m) && EndsInJump(ss)
    ensures Placed(m) && Now(m).i == 0 && Joinable(m, Cur(m))
  {
    assert m.g[Cur(m)].instrs == [];
  }

  /** The code of the cases, extended by one whose body ended in state `m`, with the next case in `p2`. */
  lemma JumpCaseLaid(s0: Snap, v: Snap, cases: seq<Case>, starts: seq<BlockId>, p1: Snap, m: Snap, p2: Snap)
    requires cases != [] && |starts| == |cases|
    requires EndsInJump(cases[|cases| - 1].body)
    requires CaseFits(s0, v, cases, starts, p1) && starts[|cases| - 1] == Cur(p1)
    requires ListIs(Scoped(p1), cases[|cases| - 1].body, m)
    requires p1.scopes == s0.scopes && p1.env == SwitchEnv(s0.env, |s0.scopes|, |v.g| + 1)
    requires Extended(p1.g, m.g) && p2 == m.(scopes := s0.scopes) && Placed(p2) && PlacedBut(s0, p2, {|v.g| + 1})
    ensures CasesLaid(s0, v, cases, starts, p2)
  {
    hide CasesCode, ListCode, CaseValues, SwitchEnv, EndsInJump, Joinable, PlacedBut;
    var n := |cases| - 1;
    var env, c := SwitchEnv(s0.env, |s0.scopes|, |v.g| + 1), CtrOf(v).(block := |v.g| + 2);
    CasesStable(p1.g, p2.g, cases[..n], env, s0.scopes, |v.g|, c);
    NoInstrs(Scoped(p1), cases[n].body, m);
    assert CaseCode(p2.g, cases[n].body, env, s0.scopes, Cur(p1), CtrOf(p1))
        == Some(StmtEnd(Now(p2), s0.scopes, CtrOf(p2)));
    NextCase(p2.g, cases, env, s0.scopes, |v.g|, c, CasesEnd(starts[..n], Cur(p1), CtrOf(p1)),
             StmtEnd(Now(p2), s0.scopes, CtrOf(p2)));
    assert starts == starts[..n] + [starts[n]];
  }

  /** A case whose body may end normally: it branches to a new block, in which the next case goes on. */
  lemma FallCaseLeaves(s0: Snap, v: Snap, op: Operand, cases: seq<Case>, starts: seq<BlockId>, errors0: nat, p1: Snap,
                       c: Snap, errors1: nat, p2: Snap)
    requires cases != [] && !EndsInJump(cases[|cases| - 1].body)
    requires Switching(s0, v, op, cases, starts, |v.g| + 1, p1) && starts[|cases| - 1] == Cur(p1)
    requires BodyDone(p1, errors0, cases[|cases| - 1].body, c, errors1)
    requires Placed(Created(c)) && p2 == Moved(Created(c), Br(|c.g|), |c.g|)
    ensures Switching(s0, v, op, cases, starts, |v.g| + 1, p2) && Joinable(p2, Cur(p2))
    ensures errors1 == errors0 && CaseFits(s0, v, cases, starts, p1) ==> CasesLaid(s0, v, cases, starts, p2)
  {
    hide Sound, Grows, TargetBlocks, CasesCode, BodyCode, BodyIs, ValidList;
    var n, end, next := |cases| - 1, |v.g| + 1, |c.g|;
    Basics(c);
    BuildVisit(s0, p1, c, {end});
    BuildCreate(s0, c, {end});
    BuildMove(s0, Created(c), Br(next), next, {end} + {next});
    assert {end} + {next} - {next} == {end};
    Basics(p2);
    GrowsBasics(p1, c);
    SwitchKept1(p1, c, Cur(v));
    forall x | Joinable(p1, x) ensures Joinable(p2, x) {
      JoinableKept(p1, c, x);
      assert Joinable(Created(c), x);
      JoinableMove(Created(c), Br(next), next, x);
    }
    MovedExtends(Created(c), Br(next), next);
    assert Extended(c.g, Created(c).g);
    ExtendedThen(c.g, Created(c).g, p2.g);
    ExtendedThen(p1.g, c.g, p2.g);
    ExtendedThen(v.g, p1.g, p2.g);
    if errors1 == errors0 && CaseFits(s0, v, cases, starts, p1) {
      FallCaseLaid(s0, v, cases, starts, p1, c, p2);
    }
  }

  lemma SwitchKept1(p1: Snap, c: Snap, b: BlockId)
    requires Grows(p1, c) && b in p1.placed && b != Cur(p1) && b < |p1.g|
    ensures c.g[b] == p1.g[b] && b in c.placed && b != Cur(c)
  {
  }

  lemma FallCaseLaid(s0: Snap, v: Snap, cases: seq<Case>, starts: seq<BlockId>, p1: Snap, c: Snap, p2: Snap)
    requires cases != [] && |starts| == |cases|
    requires !EndsInJump(cases[|cases| - 1].body)
    requires CaseFits(s0, v, cases, starts, p1) && starts[|cases| - 1] == Cur(p1)
    requires BodyIs(p1, cases[|cases| - 1].body, c)
    requires p1.scopes == s0.scopes && p1.env == SwitchEnv(s0.env, |s0.scopes|, |v.g| + 1)
    requires Placed(Created(c)) && Now(Created(c)) == Now(c) && c.g[Cur(c)].term.None?
    requires Extended(p1.g, p2.g) && Extended(c.g, p2.g)
    requires p2 == Moved(Created(c), Br(|c.g|), |c.g|) && Placed(p2) && Now(p2) == Point(|c.g|, 0)
        && PlacedBut(s0, p2, {|v.g| + 1})
    ensures CasesLaid(s0, v, cases, starts, p2)
  {
    hide CasesCode, BodyCode, CaseValues, SwitchEnv, EndsInJump, PlacedBut, Extended, Ends;
    var n, next := |cases| - 1, |c.g|;
    var env, d := SwitchEnv(s0.env, |s0.scopes|, |v.g| + 1), CtrOf(v).(block := |v.g| + 2);
    ExtendedAgrees(p1.g, p2.g, |v.g|, d.block, CtrOf(p1).block);
    CasesStable(p1.g, p2.g, cases[..n], env, s0.scopes, |v.g|, d);
    BodyStays(p1, cases[n].body, c, p2.g);
    ExtendsItself(p2.g);
    EndStays(Created(c), Br(next), next, p2.g);
    assert CaseCode(p2.g, cases[n].body, env, s0.scopes, Cur(p1), CtrOf(p1))
        == Some(StmtEnd(Now(p2), s0.scopes, CtrOf(p2)));
    NextCase(p2.g, cases, env, s0.scopes, |v.g|, d, CasesEnd(starts[..n], Cur(p1), CtrOf(p1)),
             StmtEnd(Now(p2), s0.scopes, CtrOf(p2)));
    assert starts == starts[..n] + [starts[n]];
  }

  lemma ExtendedAgrees(g: Graph, g1: Graph, b: BlockId, lo: nat, hi: nat)
    requires Extended(g, g1)
    ensures Agree(g, g1, b, lo, hi)
  {
  }

  /** After the last case: the default is set, the dangling block goes to the end, and the end is placed. */
  lemma SwitchLowered(s0: Snap, errors0: nat, st: Stmt, v: Snap, errors1: nat, rv: RValue, starts: seq<BlockId>,
                      p: Snap, errors2: nat)
    requires st.Switch? && Sound(s0)
    requires Evaluated(s0, v) && AllPlaced(s0, v) && (errors1 == errors0 ==> ExpIs(s0, st.on, v, rv))
    requires Switching(s0, v, rv.op, st.cases, starts, |v.g| + 1, p)
    requires errors2 >= errors1 >= errors0 && (errors1 == errors0 <==> WellTyped(st.on))
    requires errors2 == errors1 <==> ValidCases(st.cases, RulesOf(SwitchEnv(s0.env, |s0.scopes|, |v.g| + 1)))
    requires errors2 == errors1 ==> CasesLaid(s0, v, st.cases, starts, p)
    ensures
      var other := Other(st.cases, starts, |v.g| + 1);
      var q := Retargeted(p, Cur(v), SwitchTo(rv.op, Table(st.cases, starts), other));
      && Placed(q) && q.g[Cur(q)].term.None?
      && StmtLowered(s0, errors0, st, Moved(q, Br(|v.g| + 1), |v.g| + 1).(env := s0.env), errors2)
  {
    hide Sound, Grows, TargetBlocks, Building, PlacedBut, AllPlaced, CasesLaid, ExpIs, StmtIs, Valid, ValidCases;
    hide StmtLowered, SwitchEnv, Extended, Names;
    var end, other := |v.g| + 1, Other(st.cases, starts, |v.g| + 1);
    var t := SwitchTo(rv.op, Table(st.cases, starts), other);
    TableBlocks(st.cases, starts);
    OtherBlock(st.cases, starts, end);
    Basics(s0);
    BuildRetarget(s0, p, Cur(v), t, {end});
    var q := Retargeted(p, Cur(v), t);
    BuildSound(s0, q, {end});
    Basics(q);
    BuildMove(s0, q, Br(end), end, {end});
    assert {end} - {end} == {};
    var s1 := Moved(q, Br(end), end);
    SoundLevels(s0);
    OldTargets(s0, s1);
    Reframe(s0, s1, s0.scopes, s0.env, s1.slot, {});
    var s2 := s1.(env := s0.env);
    SamePlaced(s0, s1);
    BuildSound(s0, s2, {});
    SwitchErrors(s0, errors0, st, v, errors1, errors2);
    if errors2 == errors0 {
      LaidMeansPlaced(s0, v, st.cases, starts, p);
      SwitchLaid(s0, st, v, rv, starts, p, q, s2);
    }
    CompoundLowered(s0, errors0, st, s2, errors2);
  }

  lemma SwitchErrors(s0: Snap, errors0: nat, st: Stmt, v: Snap, errors1: nat, errors2: nat)
    requires st.Switch? && s0.scopes != [] && errors2 >= errors1 >= errors0
        && (errors1 == errors0 <==> WellTyped(st.on))
    requires errors2 == errors1 <==> ValidCases(st.cases, RulesOf(SwitchEnv(s0.env, |s0.scopes|, |v.g| + 1)))
    ensures errors2 == errors0 <==> Valid(st, RulesOf(s0.env), Names(Top(s0.scopes)))
  {
    hide ValidCases, WellTyped;
    assert RulesOf(SwitchEnv(s0.env, |s0.scopes|, |v.g| + 1))
        == RulesOf(s0.env).(depth := InSwitch(RulesOf(s0.env).depth));
  }

  lemma LaidMeansPlaced(s0: Snap, v: Snap, cases: seq<Case>, starts: seq<BlockId>, p: Snap)
    requires CasesLaid(s0, v, cases, starts, p)
    ensures PlacedBut(s0, p, {|v.g| + 1})
  {
    hide CasesCode;
  }

  lemma {:induction false} OtherBlock(cases: seq<Case>, starts: seq<BlockId>, end: BlockId)
    requires |starts| == |cases|
    ensures Other(cases, starts, end) in starts || Other(cases, starts, end) == end
  {
    if cases != [] {
      var n := |cases| - 1;
      OtherBlock(cases[..n], starts[..n], end);
      assert starts[n] in starts;
    }
  }

  lemma SwitchLaid(s0: Snap, st: Stmt, v: Snap, rv: RValue, starts: seq<BlockId>, p: Snap, q: Snap, s2: Snap)
    requires st.Switch? && Placed(s0) && s0.scopes != [] && ExpIs(s0, st.on, v, rv)
    requires Switching(s0, v, rv.op, st.cases, starts, |v.g| + 1, p) && CasesLaid(s0, v, st.cases, starts, p)
    requires
      var t := SwitchTo(rv.op, Table(st.cases, starts), Other(st.cases, starts, |v.g| + 1));
      q == Retargeted(p, Cur(v), t)
    requires Placed(q) && q.g[Cur(q)].term.None?
    requires s2 == Moved(q, Br(|v.g| + 1), |v.g| + 1).(env := s0.env) && Placed(s2) && Now(s2) == Point(|v.g| + 1, 0)
        && s2.scopes == s0.scopes
    ensures StmtIs(s0, st, s2)
  {
    hide ExpCode, CasesCode, Building, StmtIs, Joinable, SwitchEnv;
    var end := |v.g| + 1;
    var t := SwitchTo(rv.op, Table(st.cases, starts), Other(st.cases, starts, end));
    forall i: nat | i < |v.g| ensures Extends(v.g[i], s2.g[i]) {
      assert Extends(v.g[i], p.g[i]);
    }
    ExpStays(s0, st.on, v, rv, s2.g);
    MovedExtends(q, Br(end), end);
    EndsStable(Moved(q, Br(end), end).g, s2.g, Now(q), Br(end));
    assert Ends(s2.g, Now(v), t).Some?;
    var env, c := SwitchEnv(s0.env, |s0.scopes|, end), CtrOf(v).(block := |v.g| + 2);
    CasesStable(p.g, s2.g, st.cases, env, s0.scopes, |v.g|, c);
    SwitchIs(s0, st, v, rv, starts, p, s2);
  }

  /** The parts of a `switch` make up its code. */
  lemma SwitchIs(s0: Snap, st: Stmt, v: Snap, rv: RValue, starts: seq<BlockId>, p: Snap, s2: Snap)
    requires st.Switch? && Placed(s0) && s0.scopes != [] && Placed(v) && Placed(p) && Placed(s2)
        && |starts| == |st.cases|
    requires ExpCode(s2.g, st.on, Now(s0), CtrOf(s0)) == Some(ExpEnd(Now(v), rv, CtrOf(v)))
    requires
      var end := |v.g| + 1;
      && CasesCode(s2.g, st.cases, SwitchEnv(s0.env, |s0.scopes|, end), s0.scopes, |v.g|, CtrOf(v).(block := |v.g| + 2))
         == Some(CasesEnd(starts, Cur(p), CtrOf(p)))
      && Ends(s2.g, Now(v), SwitchTo(rv.op, Table(st.cases, starts), Other(st.cases, starts, end))).Some?
      && Ends(s2.g, Point(Cur(p), 0), Br(end)).Some?
      && Now(s2) == Point(end, 0) && s2.scopes == s0.scopes && CtrOf(s2) == CtrOf(p)
    ensures StmtIs(s0, st, s2)
  {
    hide ExpCode, CasesCode, Ends, SwitchEnv;
    assert DispatchCode(s2.g, st, s0.env, s0.scopes, ExpEnd(Now(v), rv, CtrOf(v)))
        == Some(StmtEnd(Now(s2), s2.scopes, CtrOf(s2)));
    assert SwitchCode(s2.g, st, s0.env, s0.scopes, Now(s0), CtrOf(s0)) == Some(StmtEnd(Now(s2), s2.scopes, CtrOf(s2)));
  }

  /** One more case after those laid out. */
  lemma NextCase(g: Graph, cases: seq<Case>, env: Env, scopes: seq<seq<Var>>, first: BlockId, c: Ctr, m: CasesEnd,
                 last: StmtEnd)
    requires first < c.block && scopes != [] && cases != []
    requires CasesCode(g, cases[..|cases| - 1], env, scopes, first, c) == Some(m)
    requires cases[|cases| - 1].value !in CaseValues(cases[..|cases| - 1])
    requires m.next < m.c.block && CaseCode(g, cases[|cases| - 1].body, env, scopes, m.next, m.c) == Some(last)
    ensures CasesCode(g, cases, env, scopes, first, c) == Some(CasesEnd(m.starts + [m.next], last.p.b, last.c))
  {
    hide CaseCode, CaseValues;
  }

  lemma SwitchingAt(s0: Snap, v: Snap, op: Operand, cases: seq<Case>, starts: seq<BlockId>, other: BlockId, p: Snap)
    requires Switching(s0, v, op, cases, starts, other, p)
    ensures Placed(v) && Placed(p) && Sound(p) && SwitchAt(p, Cur(v)) && |starts| == |cases|
    ensures p.g[Cur(v)].term == Some(SwitchTo(op, Table(cases, starts), other))
    ensures p.scopes == s0.scopes && p.env == SwitchEnv(s0.env, |s0.scopes|, |v.g| + 1)
  {
    hide Sound, Grows;
  }

  /** Placing the current block once more changes nothing. */
  lemma SwitchingAgain(s0: Snap, v: Snap, op: Operand, cases: seq<Case>, starts: seq<BlockId>, p: Snap)
    requires Switching(s0, v, op, cases, starts, |v.g| + 1, p)
    ensures Switching(s0, v, op, cases, starts, |v.g| + 1, Pushed(p, Cur(p)))
    ensures Joinable(p, Cur(p)) ==> Joinable(Pushed(p, Cur(p)), Cur(p))
    ensures forall done, blocks ::
        CasesLaid(s0, v, done, blocks, p)
        ==> CasesLaid(s0, v, done, blocks, Pushed(p, Cur(p)))
  {
    hide Sound, Grows, CasesCode, Table, SwitchEnv, Joinable;
    PushedBuilds(s0, p, {|v.g| + 1});
    assert forall x :: Joinable(p, x) <==> Joinable(Pushed(p, Cur(p)), x) by { PushedJoinable(p); }
  }

  lemma PushedJoinable(p: Snap)
    requires Placed(p)
    ensures forall x :: Joinable(p, x) <==> Joinable(Pushed(p, Cur(p)), x)
  {
  }

  lemma PushedBuilds(s0: Snap, p: Snap, own: set<BlockId>)
    requires Building(s0, p, own)
    ensures Placed(p) && Building(s0, Pushed(p, Cur(p)), own) && Placed(Pushed(p, Cur(p)))
        && Cur(Pushed(p, Cur(p))) == Cur(p)
    ensures forall b :: b in Pushed(p, Cur(p)).placed <==> b in p.placed
  {
    var p1 := Pushed(p, Cur(p));
    assert p.clean ==> forall b: nat | b < |p.g| :: PhisAgree(p.g, b);
    assert forall b | b in p1.placed :: b in p.placed;
  }

  /** So does an error, except that the phis are no longer of interest. */
  lemma SwitchingFailed(s0: Snap, v: Snap, op: Operand, cases: seq<Case>, starts: seq<BlockId>, p: Snap)
    requires Switching(s0, v, op, cases, starts, |v.g| + 1, p)
    ensures Switching(s0, v, op, cases, starts, |v.g| + 1, Failed(p)) && Joinable(Failed(p), Cur(p))
  {
    hide Sound, Grows;
    FailedSound(s0, p);
  }

  /** A switch whose value cannot be computed is given up. */
  lemma SwitchFails(s0: Snap, errors0: nat, st: Stmt, v: Snap, errors1: nat)
    requires st.Switch? && Evaluated(s0, v) && errors1 > errors0 && !WellTyped(st.on)
    ensures StmtLowered(s0, errors0, st, v, errors1)
  {
    hide Sound, Grows, StmtCode;
    Basics(s0);
  }
}
