/** A function from its body to its cleaned graph. */
module Compile {
  import opened Options
  import opened Cfg
  import opened Source
  import opened Layout
  import opened Unwinding
  import opened Statements
  import opened Emission
  import opened CodeContexts
  import opened Laying
  import opened LayingStatements
  import opened Functions
  import opened BlockRuns
  import opened BlockCircles
  import opened SimpleBlockClean

  /** The blocks placed in a function, in order, each once. */
  function Once(placed: seq<BlockId>): (blocks: seq<BlockId>)
    ensures forall b :: b in blocks <==> b in placed
    ensures forall i, j | 0 <= i < j < |blocks| :: blocks[i] != blocks[j]
    ensures placed != [] ==> blocks != [] && blocks[0] == placed[0]
  {
    if placed == [] then []
    else
      var n := |placed| - 1;
      var before := Once(placed[..n]);
      if placed[n] in before then before else before + [placed[n]]
  }

  /** What the code generator leaves behind is what the pass relies on. */
  lemma GeneratedIsWellFormed(s: Snap, body: seq<Stmt>, result: Returns)
    requires FunctionIs(s, body, result)
    ensures WellFormed(s.g, Once(s.placed)) && BranchesStay(s.g, Once(s.placed))
  {
    hide ListIs, Completed;
    var s0 := Initial(result);
    assert s0.placed <= s.placed && s.placed[0] == 0;
    forall i | 0 <= i < |Once(s.placed)| ensures Once(s.placed)[i] < |s.g| {
      assert Once(s.placed)[i] in Once(s.placed);
    }
    forall b: nat | b < |s.g| ensures b in s.placed {
      if b == 0 {
        assert s.placed[0] == 0;
      }
    }
    forall p: nat, b: nat | b in To(s.g, p) ensures b in s.placed && s.g[b].term.Some? {
      assert p < |s.g|;
      assert b == Cur(s) ==> p in Preds(s.g, b);
    }
    forall b: nat, i: nat | b < |s.g| && i < |s.g[b].instrs| && s.g[b].instrs[i].Phi? ensures s.g[b].instrs[0].Phi? {
      assert PhisAgree(s.g, b);
    }
  }

  /**
   A function's body is compiled: code is generated, and if that reports no error, the pass cleans it
   up.  There is a graph for every valid body; `s` is what the code generator left.  If the entry leads
   to no circle of one-branch blocks, the graph does what the emitted reading of the body says, and
   so means what the body means wherever no `for` parts from its meaning; if it leads to one, the
   graph branches to a block that is gone.
   */
  method CompileFunction(body: seq<Stmt>, result: Returns) returns (f: Option<Function>, ghost s: Snap)
    requires ParsedList(body)
    ensures f.Some? <==> ValidFunction(body, result)
    ensures f.Some? ==> fresh(f.value) && FunctionIs(s, body, result)
    ensures f.Some? ==> WellFormed(f.value.g, f.value.blocks)
    ensures f.Some? ==> (BranchesToErased(f.value.g, f.value.blocks) <==> CircleReached(s.g))
    ensures f.Some? && !CircleReached(s.g) ==> forall w: World :: Means(f.value.g, w, body, result, AsEmitted)
    ensures f.Some? && !CircleReached(s.g) ==>
      forall w: World :: NeverParts(w, body, result) ==> MeansTheSame(f.value.g, w, body, result)
    ensures f.Some? && NoCircle(s.g) ==> BranchesStay(f.value.g, f.value.blocks)
  {
    hide FunctionIs, NeverParts, Completed, SameRuns, Means, MeansTheSame, WellFormed, BranchesStay, NoCircle;
    hide CircleReached, BranchesToErased, Clean, HasPredecessor;
    var context := CreateFunction(body, result);
    s := context.State();
    if context.errors > 0 {
      return None, s;
    }
    GeneratedIsWellFormed(s, body, result);
    var func := new Function(context.g, Once(context.funcBlocks));
    var modified := func.RunOnFunction();
    f := Some(func);
    if !CircleReached(s.g) {
      forall w: World
        ensures Means(func.g, w, body, result, AsEmitted)
        ensures NeverParts(w, body, result) ==> MeansTheSame(func.g, w, body, result)
      {
        LoweringIsEmitted(s, w, body, result);
        CleanMeans(s.g, func.g, w, body, result, AsEmitted);
        if NeverParts(w, body, result) {
          EmittedIsMeant(func.g, w, body, result);
        }
      }
    }
  }

  lemma CleanMeans(g: Graph, g1: Graph, w: World, body: seq<Stmt>, result: Returns, mode: Mode)
    requires SameRuns(g, g1) && Means(g, w, body, result, mode)
    ensures Means(g1, w, body, result, mode)
  {
    forall v, h ensures Stops(g1, w, Halted(v, h)) <==> EndsWith(w, body, result, mode, v, h) {
      SameStops(g, g1, w, Halted(v, h));
    }
    forall h ensures !Stops(g1, w, Stuck(h)) {
      SameStops(g, g1, w, Stuck(h));
    }
  }

  // ---------------------------------------------------------------- bodies that the pass breaks

  /** The body of a loop that does nothing, and comes back. */
  predicate OnlyComesBack(body: seq<Stmt>) {
    body == [] || body == [Branch(Continue, None)]
  }

  lemma {:induction false} PrefixCode(g: Graph, ss: seq<Stmt>, k: nat, env: Env, scopes: seq<seq<Var>>, a: Point,
                                      c: Ctr)
    requires k <= |ss| && a.b < c.block && scopes != [] && ListCode(g, ss, env, scopes, a, c).Some?
    ensures ListCode(g, ss[..k], env, scopes, a, c).Some?
  {
    hide StmtCode;
    if k < |ss| {
      var n := |ss| - 1;
      PrefixCode(g, ss[..n], k, env, scopes, a, c);
      assert ss[..n][..k] == ss[..k];
    } else {
      assert ss[..k] == ss;
    }
  }

  lemma IdleBody(g: Graph, ss: seq<Stmt>, env: Env, scopes: seq<seq<Var>>, start: BlockId, c: Ctr)
    requires OnlyComesBack(ss) && start < c.block && scopes != [] && BodyTo(g, ss, env, scopes, start, start, c).Some?
    requires env.cont != [] && env.cont[|env.cont| - 1] == Target(start, |scopes|)
    ensures TermAt(g, Point(start, 0), Br(start))
  {
    hide CasesCode, PlainCode, LoopCode, WhileCode, SwitchCode, ForCode, IfCode, ReturnCode;
    var inner := scopes + [[]];
    if ss == [] {
      assert ListCode(g, ss, env, inner, Point(start, 0), c) == Some(StmtEnd(Point(start, 0), inner, c));
      assert Top(inner) == [];
    } else {
      assert ss[..0] == [] && ss[0] == Branch(Continue, None);
      assert ListCode(g, ss, env, inner, Point(start, 0), c) == StmtCode(g, ss[0], env, inner, Point(start, 0), c);
      assert inner[|scopes|..] == [[]];
      assert Flat([[]]) == [];
    }
  }

  /** Such a loop is emitted as a block that does nothing but branch to itself. */
  lemma LoopIsCircle(g: Graph, s: Stmt, env: Env, scopes: seq<seq<Var>>, a: Point, c: Ctr)
    requires s.Loop? && OnlyComesBack(s.body)
    requires a.b < c.block && scopes != [] && LoopCode(g, s, env, scopes, a, c).Some?
    ensures Reached(g, a.b) ==> CircleReached(g)
  {
    hide ListCode, DtorsCode;
    var body := c.block;
    IdleBody(g, s.body, LoopEnv(env, |scopes|, c), scopes, body, c.(block := c.block + 2));
    assert OneBranch(g, body);
    forall fuel: nat ensures ChainLength(g, body, fuel).None? { SelfLoopGoesOn(g, body, fuel); }
    if Reached(g, a.b) {
      assert body in To(g, a.b);
      ReachedNext(g, a.b, body);
    }
  }

  /**
   If some call of a function gets to a `loop` of its body that does nothing and comes back, the entry leads to a
   circle of one-branch blocks.
   */
  lemma IdleLoopIsCircle(s: Snap, w: World, before: seq<Stmt>, idle: seq<Stmt>, after: seq<Stmt>, result: Returns,
                         fuel: nat)
    requires FunctionIs(s, before + [Loop(idle)] + after, result) && OnlyComesBack(idle)
    requires
      var r := ExecList(w, before, RulesFor(result, AsEmitted), [], [], fuel);
      r.Fin? && r.out.Normal?
    ensures CircleReached(s.g)
  {
    hide Sound, Grows, Dangling, StmtCode, ListCode, ExecList, Steps, CircleReached;
    var body := before + [Loop(idle)] + after;
    var all, k := Completed(body, result), |before|;
    var env := Env([], [], [], result);
    var scopes: seq<seq<Var>> := [[]];
    assert all[..k + 1][..k] == all[..k] == before && all[..k + 1][k] == Loop(idle);
    PrefixCode(s.g, all, k + 1, env, scopes, Point(0, 0), Ctr(1, 0, 0));
    PrefixCode(s.g, all[..k + 1], k, env, scopes, Point(0, 0), Ctr(1, 0, 0));
    var m := ListCode(s.g, before, env, scopes, Point(0, 0), Ctr(1, 0, 0)).value;
    assert scopes[..0] == [] && Flat(scopes) == [];
    assert Strip(Top(scopes)) == [];
    var n := ListRuns(s.g, w, before, env, scopes, Point(0, 0), Ctr(1, 0, 0), 0, map[], [], fuel);
    OnlyThere(s.g, w, n);
    LastCode(s.g, all[..k + 1], env, scopes, Point(0, 0), Ctr(1, 0, 0));
    LoopIsCircle(s.g, Loop(idle), env, m.scopes, m.p, m.c);
  }

  lemma LastCode(g: Graph, ss: seq<Stmt>, env: Env, scopes: seq<seq<Var>>, a: Point, c: Ctr)
    requires ss != [] && ss[|ss| - 1].Loop? && a.b < c.block && scopes != [] && ListCode(g, ss, env, scopes, a, c).Some?
    ensures
      var m := ListCode(g, ss[..|ss| - 1], env, scopes, a, c);
      m.Some? && LoopCode(g, ss[|ss| - 1], env, m.value.scopes, m.value.p, m.value.c).Some?
  {
  }

  /** So the pass breaks `loop ;`, in every function that consists of it. */
  lemma EmptyLoopIsCircle(s: Snap)
    requires FunctionIs(s, [Loop([])], Void)
    ensures CircleReached(s.g) && ValidFunction([Loop([])], Void)
  {
    hide FunctionIs, CircleReached;
    var w := World((_, _) => 0, (_, _, _) => 0, (_, _, _) => 0, (_, _, _) => false);
    assert [] + [Loop([])] + [] == [Loop([])];
    IdleLoopIsCircle(s, w, [], [], [], Void, 0);
  }
}
