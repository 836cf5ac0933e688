/**
 The steps of the code generator, put together: after the steps of one construct, the code of
 the construct lies in the graph, and the state is sound again.

 A visitor first creates blocks, then visits parts; each lemma takes the states between the
 steps and concludes about the whole.
 */
module Laying {
  import opened Options
  import opened Cfg
  import opened Source
  import opened Layout
  import opened Stability
  import opened Emission
  import opened CodeContexts

  ghost predicate Extended(g: Graph, g1: Graph) {
    |g| <= |g1| && forall i: nat | i < |g| :: Extends(g[i], g1[i])
  }

  lemma ExtendedThen(g0: Graph, g1: Graph, g2: Graph)
    requires Extended(g0, g1) && Extended(g1, g2)
    ensures Extended(g0, g2)
  {
    forall i: nat | i < |g0| ensures Extends(g0[i], g2[i]) {
      assert Extends(g0[i], g1[i]) && Extends(g1[i], g2[i]);
    }
  }

  /** One visit: the state stays sound, the jump targets and the outer scopes stay, and code is only added. */
  ghost predicate Visited(s0: Snap, s1: Snap) {
    && Sound(s0) && Sound(s1)
    && Grows(s0, s1)
    && s1.env == s0.env
    && |s1.scopes| == |s0.scopes| && Pop(s1.scopes) == Pop(s0.scopes) && Top(s0.scopes) <= Top(s1.scopes)
  }

  /** The visit of an expression. */
  ghost predicate Evaluated(s0: Snap, s1: Snap) {
    && Sound(s0) && Sound(s1)
    && Grows(s0, s1)
    && s1.env == s0.env && s1.scopes == s0.scopes
  }

  /** The code from `s0` to `s1` is that of `e`, with the result in `rv`. */
  ghost predicate ExpIs(s0: Snap, e: Exp, s1: Snap, rv: RValue) {
    && Placed(s0) && Placed(s1)
    && ExpCode(s1.g, e, Now(s0), CtrOf(s0)) == Some(ExpEnd(Now(s1), rv, CtrOf(s1)))
  }

  lemma ExpStays(s0: Snap, e: Exp, s1: Snap, rv: RValue, g: Graph)
    requires Placed(s0) && Placed(s1) && ExpIs(s0, e, s1, rv) && Extended(s1.g, g)
    ensures ExpCode(g, e, Now(s0), CtrOf(s0)) == Some(ExpEnd(Now(s1), rv, CtrOf(s1)))
  {
    ExpStable(s1.g, g, e, Now(s0), CtrOf(s0));
  }

  lemma EvaluatedRefl(s: Snap)
    requires Sound(s)
    ensures Evaluated(s, s) && AllPlaced(s, s)
  {
    GrowsRefl(s);
  }

  lemma EvaluatedThen(s0: Snap, s1: Snap, s2: Snap)
    requires Evaluated(s0, s1) && Evaluated(s1, s2)
    ensures Evaluated(s0, s2) && Extended(s1.g, s2.g)
    ensures AllPlaced(s0, s1) && AllPlaced(s1, s2) ==> AllPlaced(s0, s2)
  {
    GrowsThen(s0, s1, s2);
    forall b: nat | AllPlaced(s0, s1) && AllPlaced(s1, s2) && |s0.g| <= b < |s2.g| ensures b in s2.placed {
      if b < |s1.g| {
        assert b in s1.placed;
      }
    }
  }

  /** An error report leaves everything else as it is. */
  function Failed(s: Snap): Snap {
    s.(clean := false)
  }

  lemma FailedSound(s0: Snap, s: Snap)
    requires Sound(s) && Grows(s0, s)
    ensures Sound(Failed(s)) && Grows(s0, Failed(s))
    ensures AllPlaced(s0, s) ==> AllPlaced(s0, Failed(s))
  {
  }

  lemma EvaluatedFailed(s0: Snap, s: Snap)
    requires Evaluated(s0, s)
    ensures Evaluated(s0, Failed(s))
    ensures AllPlaced(s0, s) ==> AllPlaced(s0, Failed(s))
  {
    hide Sound, Grows;
    FailedSound(s0, s);
  }

  // ---------------------------------------------------------------- single instructions

  /** A value computed by one instruction into a new register. */
  function Computed(s: Snap, ins: Instr): Snap
    requires Placed(s)
  {
    Emitted(s, ins).(reg := s.reg + 1)
  }

  lemma ComputedSound(s: Snap, ins: Instr)
    requires Sound(s) && !ins.Phi?
    ensures Evaluated(s, Computed(s, ins)) && AllPlaced(s, Computed(s, ins))
    ensures Extended(s.g, Computed(s, ins).g)
    ensures Then(Computed(s, ins).g, Now(s), ins) == Some(Now(Computed(s, ins)))
    ensures CtrOf(Computed(s, ins)) == CtrOf(s).(reg := s.reg + 1)
  {
    SoundEmit(s, ins);
    GrowsRefl(s);
    GrowsEmit(s, s, ins);
    var s1, s2 := Emitted(s, ins), Computed(s, ins);
    assert s2.g == s1.g && s2.placed == s1.placed && s2.env == s1.env;
    assert Sound(s2) by {
      assert s1.clean ==> forall b: nat | b < |s1.g| :: PhisAgree(s1.g, b);
    }
  }

  lemma EmittedSound(s: Snap, ins: Instr)
    requires Sound(s) && !ins.Phi?
    ensures Evaluated(s, Emitted(s, ins)) && AllPlaced(s, Emitted(s, ins))
    ensures Extended(s.g, Emitted(s, ins).g)
    ensures Then(Emitted(s, ins).g, Now(s), ins) == Some(Now(Emitted(s, ins)))
    ensures CtrOf(Emitted(s, ins)) == CtrOf(s)
  {
    SoundEmit(s, ins);
    GrowsRefl(s);
    GrowsEmit(s, s, ins);
  }

  lemma GrowsRefl(s: Snap)
    requires Placed(s)
    ensures Grows(s, s)
  {
  }

  // ---------------------------------------------------------------- branches

  /** The end of the current block in `t`, and the next block. */
  function Moved(s: Snap, t: Terminator, b: BlockId): Snap
    requires Placed(s)
  {
    Pushed(Ended(s, t), b)
  }

  lemma MovedExtends(s: Snap, t: Terminator, b: BlockId)
    requires Placed(s) && s.g[Cur(s)].term.None?
    ensures Extended(s.g, Moved(s, t, b).g)
    ensures Ends(Moved(s, t, b).g, Now(s), t).Some?
  {
  }

  /** A block that has been created but not placed. */
  ghost predicate Unplaced(s: Snap, b: BlockId) {
    b < |s.g| && b !in s.placed
  }

  /** One that, besides, no jump goes to. */
  ghost predicate Waiting(s: Snap, b: BlockId) {
    Unplaced(s, b) && b !in TargetBlocks(s.env)
  }

  lemma UnplacedKept(s0: Snap, s1: Snap, b: BlockId)
    requires Grows(s0, s1) && Unplaced(s0, b)
    ensures Unplaced(s1, b)
  {
  }

  lemma UnplacedEmpty(s: Snap, b: BlockId)
    requires Sound(s) && Unplaced(s, b)
    ensures s.g[b] == Block([], None) && !HasPhi(s.g[b])
  {
  }

  lemma WaitingKept(s0: Snap, s1: Snap, b: BlockId)
    requires Sound(s0) && Sound(s1) && Grows(s0, s1) && s1.env == s0.env
    requires Waiting(s0, b)
    ensures Waiting(s1, b) && Preds(s1.g, b) == Preds(s0.g, b) && !HasPhi(s1.g[b])
  {
    PredsKept(s0, s1, b);
    assert s1.g[b] == Block([], None);
  }

  lemma Basics(s: Snap)
    requires Sound(s)
    ensures Placed(s) && s.scopes != [] && s.g[Cur(s)].term.None?
    ensures forall b: nat | b < |s.g| && b !in s.placed :: s.g[b] == Block([], None)
    ensures forall t | t in TargetBlocks(s.env) :: t < |s.g|
  {
  }

  lemma GrowsBasics(s0: Snap, s1: Snap)
    requires Grows(s0, s1)
    ensures Placed(s0) && Placed(s1) && |s0.g| <= |s1.g| && s0.placed <= s1.placed
    ensures Extended(s0.g, s1.g)
    ensures Cur(s1) == Cur(s0) || Cur(s1) >= |s0.g|
    ensures s0.reg <= s1.reg && s0.slot <= s1.slot
  {
  }

  lemma NewWaits(s: Snap)
    requires Sound(s)
    ensures Sound(Created(s)) && Waiting(Created(s), |s.g|) && Preds(Created(s).g, |s.g|) == {}
    ensures Grows(s, Created(s)) && Extended(s.g, Created(s).g)
    ensures Now(Created(s)) == Now(s)
  {
    SoundCreate(s);
    GrowsRefl(s);
    GrowsCreate(s, s);
  }

  /** Leaving the current block for a waiting one. */
  lemma MoveStep(s0: Snap, s: Snap, t: Terminator, b: BlockId)
    requires Sound(s) && Grows(s0, s)
    requires |s0.g| <= b && Unplaced(s, b)
    requires forall x | x in Successors(t) :: x < |s.g| && (s.clean ==> !HasPhi(s.g[x]))
    requires forall x | x in Successors(t) :: x >= |s0.g| || x in TargetBlocks(s0.env)
    ensures Sound(Moved(s, t, b)) && Grows(s0, Moved(s, t, b)) && Extended(s.g, Moved(s, t, b).g)
    ensures Ends(Moved(s, t, b).g, Now(s), t).Some?
    ensures Now(Moved(s, t, b)) == Point(b, 0)
    ensures Preds(Moved(s, t, b).g, b) == Preds(s.g, b) + (if b in Successors(t) then {Cur(s)} else {})
  {
    SoundMove(s, t, b);
    GrowsMove(s0, s, t, b);
    PredsMove(s, t, b, b);
    assert s.g[b] == Block([], None) && b != Cur(s);
  }

  /** A block that goes on waiting gains the current block as a predecessor if it is branched to. */
  lemma WaitingMove(s: Snap, t: Terminator, b: BlockId, x: BlockId)
    requires Sound(s) && Waiting(s, x) && x != b
    ensures Waiting(Moved(s, t, b), x)
    ensures Preds(Moved(s, t, b).g, x) == Preds(s.g, x) + (if x in Successors(t) then {Cur(s)} else {})
  {
    PredsMove(s, t, b, x);
  }

  /** Two blocks created for a construct. */
  lemma TwoCreated(s: Snap)
    requires Sound(s)
    ensures
      var s2 := Created(Created(s));
      && Sound(s2) && Grows(s, s2) && Placed(s2) && Now(s2) == Now(s) && Extended(s.g, s2.g)
      && Waiting(s2, |s.g|) && Waiting(s2, |s.g| + 1) && Preds(s2.g, |s.g|) == {} && Preds(s2.g, |s.g| + 1) == {}
  {
    hide Sound, Grows, TargetBlocks, Preds, HasPhi, To;
    Basics(s);
    var s1 := Created(s);
    NewWaits(s);
    NewWaits(s1);
    GrowsThen(s, s1, Created(s1));
    WaitingKept(s1, Created(s1), |s.g|);
    ExtendedThen(s.g, s1.g, Created(s1).g);
  }

  /** A phi at the start of the current block. */
  lemma PhiStep(s0: Snap, s: Snap, l: (Operand, BlockId), r: (Operand, BlockId))
    requires Sound(s) && Grows(s0, s)
    requires Cur(s) >= |s0.g| && Cur(s) !in TargetBlocks(s.env) && s.g[Cur(s)].instrs == []
    requires Preds(s.g, Cur(s)) == {l.1, r.1}
    ensures
      var s1 := Computed(s, Phi(s.reg, [l, r]));
      && Sound(s1) && Grows(s0, s1) && Extended(s.g, s1.g)
      && Then(s1.g, Now(s), Phi(s.reg, [l, r])) == Some(Now(s1))
  {
    hide Sound, Grows, TargetBlocks;
    Basics(s);
    var ins := Phi(s.reg, [l, r]);
    assert Sources(ins.incoming) == {l.1, r.1} by {
      assert ins.incoming[0] in ins.incoming && ins.incoming[1] in ins.incoming;
    }
    SoundEmit(s, ins);
    GrowsEmit(s0, s, ins);
    AnyReg(s0, Emitted(s, ins));
  }

  /**
   A construct with two blocks of its own, where the second joins two ways: from `m1`, which
   tests `c`, directly, or through the first block, from the state `s3` there to `m2`.
   A phi joins the operands `l` and `r`.
   */
  lemma JoinSound(s0: Snap, m1: Snap, t: Terminator, l: Operand, s3: Snap, m2: Snap, r: Operand, s4: Snap)
    requires Sound(s0)
    requires Successors(t) == {|s0.g|, |s0.g| + 1}
    requires Evaluated(Created(Created(s0)), m1) && AllPlaced(Created(Created(s0)), m1)
    requires s3 == Moved(m1, t, |s0.g|)
    requires Evaluated(s3, m2) && AllPlaced(s3, m2)
    requires s4 == Moved(m2, Br(|s0.g| + 1), |s0.g| + 1)
    ensures Sound(s4)
    ensures
      var s5 := Computed(s4, Phi(s4.reg, [(l, Cur(m1)), (r, Cur(m2))]));
      && Evaluated(s0, s5) && AllPlaced(s0, s5)
      && Extended(s3.g, s5.g) && Extended(m1.g, s5.g) && Extended(m2.g, s5.g)
      && Ends(s5.g, Now(m1), t).Some? && Ends(s5.g, Now(m2), Br(|s0.g| + 1)).Some?
      && Then(s5.g, Point(|s0.g| + 1, 0), Phi(s4.reg, [(l, Cur(m1)), (r, Cur(m2))])) == Some(Now(s5))
      && Now(s3) == Point(|s0.g|, 0) && CtrOf(s3) == CtrOf(m1)
  {
    hide Sound, Grows, TargetBlocks, Preds, HasPhi, To;
    Basics(m1);
    Basics(m2);
    var first, second := |s0.g|, |s0.g| + 1;
    var s2, ins := Created(Created(s0)), Phi(s4.reg, [(l, Cur(m1)), (r, Cur(m2))]);
    JoinFirst(s0, m1, t);
    JoinSecond(s0, s3, m2, Cur(m1));
    Basics(s4);
    PhiStep(s0, s4, (l, Cur(m1)), (r, Cur(m2)));
    var s5 := Computed(s4, ins);
    GrowsBasics(s2, m1);
    GrowsBasics(s3, m2);
    forall b: nat | |s0.g| <= b < |m2.g| ensures b in s4.placed {
      if b == first || |s2.g| <= b < |m1.g| {
        assert b in s3.placed;
        assert b in m2.placed;
      }
    }
    MovedExtends(m2, Br(second), second);
    MovedExtends(m1, t, first);
    ExtendedThen(m2.g, s4.g, s5.g);
    ExtendedThen(s3.g, m2.g, s5.g);
    ExtendedThen(m1.g, s3.g, s5.g);
    EndStays(m1, t, first, s5.g);
    EndStays(m2, Br(second), second, s5.g);
  }

  lemma JoinFirst(s0: Snap, m1: Snap, t: Terminator)
    requires Sound(s0)
    requires Successors(t) == {|s0.g|, |s0.g| + 1}
    requires Evaluated(Created(Created(s0)), m1)
    ensures
      var s3 := Moved(m1, t, |s0.g|);
      && Sound(s3) && Grows(s0, s3) && Waiting(s3, |s0.g| + 1) && Preds(s3.g, |s0.g| + 1) == {Cur(m1)}
      && Now(s3) == Point(|s0.g|, 0)
  {
    hide Sound, Grows, TargetBlocks, Preds, HasPhi, To;
    Basics(s0);
    Basics(m1);
    var first, second := |s0.g|, |s0.g| + 1;
    var s2 := Created(Created(s0));
    TwoCreated(s0);
    GrowsThen(s0, s2, m1);
    WaitingKept(s2, m1, first);
    WaitingKept(s2, m1, second);
    MoveStep(s0, m1, t, first);
    WaitingMove(m1, t, first, second);
  }

  lemma JoinSecond(s0: Snap, s3: Snap, m2: Snap, left: BlockId)
    requires Grows(s0, s3) && s3.env == s0.env
    requires Waiting(s3, |s0.g| + 1) && Preds(s3.g, |s0.g| + 1) == {left}
    requires Evaluated(s3, m2)
    ensures
      var s4 := Moved(m2, Br(|s0.g| + 1), |s0.g| + 1);
      && Sound(s4) && Grows(s0, s4) && Preds(s4.g, |s0.g| + 1) == {left, Cur(m2)}
      && Cur(s4) !in TargetBlocks(s4.env) && s4.g[Cur(s4)].instrs == []
  {
    hide Sound, Grows, TargetBlocks, Preds, HasPhi, To;
    Basics(m2);
    var second := |s0.g| + 1;
    GrowsThen(s0, s3, m2);
    WaitingKept(s3, m2, second);
    MoveStep(s0, m2, Br(second), second);
  }

  /**
   Two arms and the block that joins them: after the test in `s0`, the arms from `s2` to `m1` and from `s3` to
   `m2`.
   */
  lemma ArmsSound(s0: Snap, t: Terminator, l: Operand, s2: Snap, m1: Snap, s3: Snap, r: Operand, m2: Snap, s4: Snap)
    requires Sound(s0) && Successors(t) == {|s0.g|, |s0.g| + 1}
    requires s2 == Moved(Created(Created(Created(s0))), t, |s0.g|)
    requires Evaluated(s2, m1) && AllPlaced(s2, m1)
    requires s3 == Moved(m1, Br(|s0.g| + 2), |s0.g| + 1)
    requires Evaluated(s3, m2) && AllPlaced(s3, m2)
    requires s4 == Moved(m2, Br(|s0.g| + 2), |s0.g| + 2)
    ensures Sound(s4)
    ensures
      var s5 := Computed(s4, Phi(s4.reg, [(l, Cur(m1)), (r, Cur(m2))]));
      && Evaluated(s0, s5) && AllPlaced(s0, s5) && Evaluated(s0, s4) && AllPlaced(s0, s4) && Extended(s4.g, s5.g)
      && Then(s5.g, Point(|s0.g| + 2, 0), Phi(s4.reg, [(l, Cur(m1)), (r, Cur(m2))])) == Some(Now(s5))
      && Now(s2) == Point(|s0.g|, 0) && Now(s3) == Point(|s0.g| + 1, 0) && CtrOf(s3) == CtrOf(m1)
  {
    hide Sound, Grows, TargetBlocks, Preds, HasPhi, To;
    Basics(m1);
    Basics(m2);
    ArmsFirst(s0, t);
    ArmsSecond(s0, s2, m1);
    ArmsThird(s0, s3, m2, Cur(m1));
    Basics(s4);
    PhiStep(s0, s4, (l, Cur(m1)), (r, Cur(m2)));
    GrowsBasics(s2, m1);
    GrowsBasics(s3, m2);
    forall b: nat | |s0.g| <= b < |m2.g| ensures b in s4.placed {
      if b < |m1.g| && b != |s0.g| + 2 {
        assert b in s3.placed;
        assert b in m2.placed;
      }
    }
  }

  /** What has been laid out on the way stays. */
  lemma ArmsExtend(s0: Snap, t: Terminator, s2: Snap, m1: Snap, s3: Snap, m2: Snap, s4: Snap, g: Graph)
    requires Sound(s0) && Sound(m1) && Sound(m2) && Extended(s4.g, g)
    requires s2 == Moved(Created(Created(Created(s0))), t, |s0.g|) && Extended(s2.g, m1.g)
    requires s3 == Moved(m1, Br(|s0.g| + 2), |s0.g| + 1) && Extended(s3.g, m2.g)
    requires s4 == Moved(m2, Br(|s0.g| + 2), |s0.g| + 2)
    ensures Extended(s0.g, g) && Extended(m1.g, g) && Extended(m2.g, g)
    ensures Ends(g, Now(s0), t).Some?
    ensures Ends(g, Now(m1), Br(|s0.g| + 2)).Some? && Ends(g, Now(m2), Br(|s0.g| + 2)).Some?
  {
    hide Sound, Grows, TargetBlocks, Preds, HasPhi, To;
    Basics(s0);
    Basics(m1);
    Basics(m2);
    var yes, no, end := |s0.g|, |s0.g| + 1, |s0.g| + 2;
    var s1 := Created(Created(Created(s0)));
    assert Placed(s1) && s1.g[Cur(s1)] == s0.g[Cur(s0)] && Now(s1) == Now(s0);
    MovedExtends(s1, t, yes);
    MovedExtends(m1, Br(end), no);
    MovedExtends(m2, Br(end), end);
    ExtendedThen(m2.g, s4.g, g);
    ExtendedThen(s3.g, m2.g, g);
    ExtendedThen(m1.g, s3.g, g);
    ExtendedThen(s2.g, m1.g, g);
    ExtendedThen(s1.g, s2.g, g);
    ExtendedThen(s0.g, s1.g, g);
    EndStays(s1, t, yes, g);
    EndStays(m1, Br(end), no, g);
    EndStays(m2, Br(end), end, g);
  }

  lemma ArmsFirst(s0: Snap, t: Terminator)
    requires Sound(s0) && Successors(t) == {|s0.g|, |s0.g| + 1}
    ensures
      var s1 := Created(Created(Created(s0)));
      var s2 := Moved(s1, t, |s0.g|);
      && Placed(s1) && s1.g[Cur(s1)].term.None? && Now(s1) == Now(s0)
      && Sound(s2) && Grows(s0, s2) && Now(s2) == Point(|s0.g|, 0)
      && Waiting(s2, |s0.g| + 1) && Waiting(s2, |s0.g| + 2) && Preds(s2.g, |s0.g| + 2) == {}
  {
    hide Sound, Grows, TargetBlocks, Preds, HasPhi, To;
    Basics(s0);
    var yes, no, end := |s0.g|, |s0.g| + 1, |s0.g| + 2;
    var a, b := Created(s0), Created(Created(s0));
    var s1 := Created(b);
    NewWaits(s0);
    NewWaits(a);
    NewWaits(b);
    GrowsThen(s0, a, b);
    GrowsThen(s0, b, s1);
    WaitingKept(a, b, yes);
    WaitingKept(b, s1, yes);
    WaitingKept(b, s1, no);
    Basics(s1);
    MoveStep(s0, s1, t, yes);
    WaitingMove(s1, t, yes, no);
    WaitingMove(s1, t, yes, end);
  }

  lemma ArmsSecond(s0: Snap, s2: Snap, m1: Snap)
    requires Grows(s0, s2) && s2.env == s0.env
    requires Waiting(s2, |s0.g| + 1) && Waiting(s2, |s0.g| + 2) && Preds(s2.g, |s0.g| + 2) == {}
    requires Evaluated(s2, m1)
    ensures
      var s3 := Moved(m1, Br(|s0.g| + 2), |s0.g| + 1);
      && Sound(s3) && Grows(s0, s3) && Now(s3) == Point(|s0.g| + 1, 0)
      && Waiting(s3, |s0.g| + 2) && Preds(s3.g, |s0.g| + 2) == {Cur(m1)}
  {
    hide Sound, Grows, TargetBlocks, Preds, HasPhi, To;
    Basics(m1);
    var no, end := |s0.g| + 1, |s0.g| + 2;
    GrowsThen(s0, s2, m1);
    WaitingKept(s2, m1, no);
    WaitingKept(s2, m1, end);
    MoveStep(s0, m1, Br(end), no);
    WaitingMove(m1, Br(end), no, end);
  }

  lemma ArmsThird(s0: Snap, s3: Snap, m2: Snap, left: BlockId)
    requires Grows(s0, s3) && s3.env == s0.env
    requires Waiting(s3, |s0.g| + 2) && Preds(s3.g, |s0.g| + 2) == {left}
    requires Evaluated(s3, m2)
    ensures
      var s4 := Moved(m2, Br(|s0.g| + 2), |s0.g| + 2);
      && Sound(s4) && Grows(s0, s4) && Preds(s4.g, |s0.g| + 2) == {left, Cur(m2)}
      && Cur(s4) !in TargetBlocks(s4.env) && s4.g[Cur(s4)].instrs == []
  {
    hide Sound, Grows, TargetBlocks, Preds, HasPhi, To;
    Basics(m2);
    var end := |s0.g| + 2;
    GrowsThen(s0, s3, m2);
    WaitingKept(s3, m2, end);
    MoveStep(s0, m2, Br(end), end);
  }

  /** Counters for registers do not matter to soundness. */
  lemma AnyReg(s0: Snap, s: Snap)
    requires Sound(s) && Grows(s0, s)
    ensures Sound(s.(reg := s.reg + 1)) && Grows(s0, s.(reg := s.reg + 1))
  {
    var s1 := s.(reg := s.reg + 1);
    assert s.clean ==> forall b: nat | b < |s.g| :: PhisAgree(s.g, b);
  }

  /** The same for an expression tested as `i1`. */
  ghost predicate BoolIs(s0: Snap, e: Exp, s1: Snap, rv: RValue) {
    && Placed(s0) && Placed(s1)
    && BoolCode(s1.g, e, Now(s0), CtrOf(s0)) == Some(ExpEnd(Now(s1), rv, CtrOf(s1)))
  }

  lemma BoolStays(s0: Snap, e: Exp, s1: Snap, rv: RValue, g: Graph)
    requires Placed(s0) && Placed(s1) && BoolIs(s0, e, s1, rv) && Extended(s1.g, g)
    ensures BoolCode(g, e, Now(s0), CtrOf(s0)) == Some(ExpEnd(Now(s1), rv, CtrOf(s1)))
  {
    BoolStable(s1.g, g, e, Now(s0), CtrOf(s0));
  }

  /** Branches into blocks that later only grow stay where they are. */
  lemma EndStays(s: Snap, t: Terminator, b: BlockId, g: Graph)
    requires Placed(s) && s.g[Cur(s)].term.None? && Extended(Moved(s, t, b).g, g)
    ensures Ends(g, Now(s), t).Some?
  {
    MovedExtends(s, t, b);
    EndsStable(Moved(s, t, b).g, g, Now(s), t);
  }
}
