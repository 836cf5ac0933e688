/**
 What the code generator's state has to look like, and how its steps may change it.

 A `Snap` is the state of a code context as a value: the blocks created so far, the blocks
 placed in the function (the last one receives code), the open scopes, and the jump targets.
 It is clean as long as no error has been reported.
 */
module Emission {
  import opened Options
  import opened Cfg
  import opened Layout
  import opened Stability

  datatype Snap = Snap(g: Graph, placed: seq<BlockId>, scopes: seq<seq<Var>>, env: Env, reg: nat, slot: nat,
                       clean: bool)

  ghost predicate Placed(s: Snap) {
    && s.placed != [] && Cur(s) < |s.g|
    && forall b | b in s.placed :: b < |s.g|
  }

  function Cur(s: Snap): BlockId
    requires s.placed != []
  {
    s.placed[|s.placed| - 1]
  }

  function Now(s: Snap): Point
    requires Placed(s)
  {
    Point(Cur(s), |s.g[Cur(s)].instrs|)
  }

  function CtrOf(s: Snap): Ctr {
    Ctr(|s.g|, s.reg, s.slot)
  }

  function TargetBlocks(env: Env): set<BlockId> {
    (set t | t in env.brk :: t.b) + (set t | t in env.cont :: t.b) + (set t | t in env.redo :: t.b)
  }

  /** The blocks that block `p` branches to. */
  function To(g: Graph, p: BlockId): set<BlockId> {
    if p < |g| && g[p].term.Some? then Successors(g[p].term.value) else {}
  }

  /** The blocks that branch to block `b`. */
  function Preds(g: Graph, b: BlockId): set<BlockId> {
    set p | 0 <= p < |g| && b in To(g, p)
  }

  predicate HasPhi(b: Block) {
    exists i | 0 <= i < |b.instrs| :: b.instrs[i].Phi?
  }

  function Sources(inc: seq<(Operand, BlockId)>): set<BlockId> {
    set e | e in inc :: e.1
  }

  /** A phi stands first in its block and names exactly the blocks that branch there. */
  ghost predicate PhisAgree(g: Graph, b: BlockId)
    requires b < |g|
  {
    forall i | 0 <= i < |g[b].instrs| && g[b].instrs[i].Phi? :: i == 0
        && Sources(g[b].instrs[i].incoming) == Preds(g, b)
  }

  /**
   The state between two visits: the current block is open, every other placed block has its
   terminator, a block not yet placed is empty, jump targets exist and hold no phi and keep no
   scope that is not open, and, unless there have been errors, each phi agrees with the branches
   to its block.
   */
  ghost predicate Sound(s: Snap) {
    && Placed(s)
    && s.scopes != [] && EnvOk(s.env, |s.scopes|)
    && s.g[Cur(s)].term.None?
    && (forall b | b in s.placed && b != Cur(s) :: s.g[b].term.Some?)
    && (forall b: nat | b < |s.g| && b !in s.placed :: s.g[b] == Block([], None))
    && (forall p: nat, t: nat | p < |s.g| && t in To(s.g, p) :: t < |s.g|)
    && (forall t | t in TargetBlocks(s.env) :: t < |s.g| && !HasPhi(s.g[t]))
    && (s.clean ==> forall b: nat | b < |s.g| :: PhisAgree(s.g, b))
  }

  // ---------------------------------------------------------------- the steps

  function Created(s: Snap): Snap {
    s.(g := s.g + [Block([], None)])
  }

  function Pushed(s: Snap, b: BlockId): Snap {
    s.(placed := s.placed + [b])
  }

  function Emitted(s: Snap, ins: Instr): Snap
    requires Placed(s)
  {
    s.(g := s.g[Cur(s) := s.g[Cur(s)].(instrs := s.g[Cur(s)].instrs + [ins])])
  }

  function Ended(s: Snap, t: Terminator): Snap
    requires Placed(s)
  {
    s.(g := s.g[Cur(s) := s.g[Cur(s)].(term := Some(t))])
  }

  /** Blocks with the same terminators have the same branches. */
  lemma SameEdges(g: Graph, g1: Graph)
    requires |g| == |g1|
    requires forall p: nat | p < |g| :: g1[p].term == g[p].term
    ensures forall p: nat | p < |g| :: To(g1, p) == To(g, p)
    ensures forall b: nat :: Preds(g1, b) == Preds(g, b)
  {
    forall b: nat ensures Preds(g1, b) == Preds(g, b) {
      forall p: nat ensures p in Preds(g1, b) <==> p in Preds(g, b) {
        if p < |g| {
          assert To(g1, p) == To(g, p);
        }
      }
    }
  }

  lemma SoundEmit(s: Snap, ins: Instr)
    requires Sound(s)
    requires ins.Phi? ==>
        s.g[Cur(s)].instrs == [] && Cur(s) !in TargetBlocks(s.env)
        && Preds(s.g, Cur(s)) == Sources(ins.incoming)
    ensures Sound(Emitted(s, ins))
  {
    var s1 := Emitted(s, ins);
    var here, there := s.g[Cur(s)].instrs, s1.g[Cur(s)].instrs;
    assert forall i | 0 <= i < |here| :: there[i] == here[i];
    assert there[|here|] == ins;
    SameEdges(s.g, s1.g);
    forall b: nat | s.clean && b < |s.g| ensures PhisAgree(s1.g, b) {
      assert PhisAgree(s.g, b);
    }
    forall t | t in TargetBlocks(s.env) ensures !HasPhi(s1.g[t]) {
      if t == Cur(s) {
        assert !HasPhi(s.g[t]);
        assert forall i | 0 <= i < |here| :: !here[i].Phi?;
      }
    }
  }

  lemma SoundCreate(s: Snap)
    requires Sound(s)
    ensures Sound(Created(s))
    ensures Preds(Created(s).g, |s.g|) == {}
  {
    var s1 := Created(s);
    assert forall p: nat | p < |s.g| :: s1.g[p] == s.g[p];
    assert forall p: nat | p < |s.g| :: To(s1.g, p) == To(s.g, p);
    assert To(s1.g, |s.g|) == {};
    forall b: nat | s.clean && b < |s1.g| ensures PhisAgree(s1.g, b) {
      assert Preds(s1.g, b) == Preds(s.g, b);
      if b < |s.g| {
        assert PhisAgree(s.g, b);
      }
    }
    assert Preds(s.g, |s.g|) == {};
    forall t | t in TargetBlocks(s.env) ensures !HasPhi(s1.g[t]) {
      assert !HasPhi(s.g[t]);
    }
    assert forall b | b in s.placed && b != Cur(s) :: s1.g[b] == s.g[b];
  }

  /** Ending the current block and going on in block `b`. */
  lemma SoundMove(s: Snap, t: Terminator, b: BlockId)
    requires Sound(s)
    requires b < |s.g| && b !in s.placed
    requires forall x | x in Successors(t) :: x < |s.g| && (s.clean ==> !HasPhi(s.g[x]))
    ensures Sound(Pushed(Ended(s, t), b))
  {
    var s1 := Pushed(Ended(s, t), b);
    assert Cur(s1) == b && Cur(s) in s.placed;
    assert forall p: nat | p < |s.g| && p != Cur(s) :: s1.g[p] == s.g[p];
    assert forall p: nat | p < |s.g| && p != Cur(s) :: To(s1.g, p) == To(s.g, p);
    assert To(s1.g, Cur(s)) == Successors(t) && To(s.g, Cur(s)) == {};
    assert forall x: nat | x < |s.g| :: s1.g[x].instrs == s.g[x].instrs;
    forall x: nat | s.clean && x < |s.g| ensures PhisAgree(s1.g, x) {
      assert PhisAgree(s.g, x);
      if HasPhi(s.g[x]) {
        assert Preds(s1.g, x) == Preds(s.g, x);
      }
    }
    forall x | x in TargetBlocks(s.env) ensures !HasPhi(s1.g[x]) {
      assert !HasPhi(s.g[x]);
    }
  }

  // ---------------------------------------------------------------- growth

  /**
   How a visit changes the state it starts in.  It appends to the current block and to blocks it
   creates itself; all other blocks stay as they are.  It places only blocks of its own, puts no
   phi into an older block, and adds no branch to an older block except to a jump target.
   */
  ghost predicate Grows(s0: Snap, s1: Snap) {
    && Placed(s0) && Placed(s1)
    && |s0.g| <= |s1.g| && s0.reg <= s1.reg && s0.slot <= s1.slot && (s1.clean ==> s0.clean)
    && s0.placed <= s1.placed
    && (forall b | b in s1.placed :: b in s0.placed || b >= |s0.g|)
    && (Cur(s1) == Cur(s0) || Cur(s1) >= |s0.g|)
    && (forall i: nat | i < |s0.g| :: Extends(s0.g[i], s1.g[i]))
    && (forall i: nat | i < |s0.g| && i != Cur(s0) :: s1.g[i] == s0.g[i])
    && (forall i: nat | i < |s0.g| && HasPhi(s1.g[i]) :: HasPhi(s0.g[i]))
    && (forall p: nat, t: nat | t < |s0.g| && t in To(s1.g, p) :: t in To(s0.g, p) || t in TargetBlocks(s0.env))
    && (forall t | t in TargetBlocks(s1.env) :: t in TargetBlocks(s0.env) || t >= |s0.g|)
  }

  /** Every block created since `s0` has been placed. */
  ghost predicate AllPlaced(s0: Snap, s1: Snap) {
    forall b: nat | |s0.g| <= b < |s1.g| :: b in s1.placed
  }

  lemma GrowsThen(s0: Snap, s1: Snap, s2: Snap)
    requires Grows(s0, s1) && Grows(s1, s2)
    ensures Grows(s0, s2)
  {
    forall i: nat | i < |s0.g| ensures Extends(s0.g[i], s2.g[i]) {
      assert Extends(s0.g[i], s1.g[i]) && Extends(s1.g[i], s2.g[i]);
    }
    forall i: nat | i < |s0.g| && i != Cur(s0) ensures s2.g[i] == s0.g[i] {
      assert i != Cur(s1);
      assert s1.g[i] == s0.g[i];
    }
    forall i: nat | i < |s0.g| && HasPhi(s2.g[i]) ensures HasPhi(s0.g[i]) {
      assert HasPhi(s1.g[i]);
    }
    forall p: nat, t: nat | t < |s0.g| && t in To(s2.g, p) ensures t in To(s0.g, p) || t in TargetBlocks(s0.env) {
      assert t in To(s1.g, p) || t in TargetBlocks(s1.env);
    }
  }

  lemma GrowsEmit(s0: Snap, s: Snap, ins: Instr)
    requires Grows(s0, s) && s.g[Cur(s)].term.None?
    requires ins.Phi? ==> Cur(s) >= |s0.g|
    ensures Grows(s0, Emitted(s, ins))
  {
    var s1 := Emitted(s, ins);
    var here, there := s.g[Cur(s)].instrs, s1.g[Cur(s)].instrs;
    SameEdges(s.g, s1.g);
    forall i: nat | i < |s0.g| ensures Extends(s0.g[i], s1.g[i]) {
      assert Extends(s0.g[i], s.g[i]);
    }
    forall i: nat | i < |s0.g| && HasPhi(s1.g[i]) ensures HasPhi(s0.g[i]) {
      assert HasPhi(s.g[i]) by {
        var k :| 0 <= k < |s1.g[i].instrs| && s1.g[i].instrs[k].Phi?;
        assert s.g[i].instrs[k].Phi?;
      }
    }
  }

  lemma GrowsCreate(s0: Snap, s: Snap)
    requires Grows(s0, s)
    ensures Grows(s0, Created(s))
  {
    var s1 := Created(s);
    assert forall p: nat | p < |s.g| :: s1.g[p] == s.g[p];
    assert forall p: nat :: To(s1.g, p) == To(s.g, p);
    forall i: nat | i < |s0.g| ensures Extends(s0.g[i], s1.g[i]) {
      assert Extends(s0.g[i], s.g[i]);
    }
    forall i: nat | i < |s0.g| && HasPhi(s1.g[i]) ensures HasPhi(s0.g[i]) {
      assert HasPhi(s.g[i]);
    }
  }

  /** Ending the current block and going on in a block of one's own. */
  lemma GrowsMove(s0: Snap, s: Snap, t: Terminator, b: BlockId)
    requires Grows(s0, s) && s.g[Cur(s)].term.None?
    requires |s0.g| <= b < |s.g|
    requires forall x | x in Successors(t) :: x >= |s0.g| || x in TargetBlocks(s0.env)
    ensures Grows(s0, Pushed(Ended(s, t), b))
  {
    var s1 := Pushed(Ended(s, t), b);
    assert Cur(s1) == b;
    assert forall p: nat | p < |s.g| && p != Cur(s) :: s1.g[p] == s.g[p];
    forall i: nat | i < |s0.g| ensures Extends(s0.g[i], s1.g[i]) {
      assert Extends(s0.g[i], s.g[i]);
    }
    forall i: nat | i < |s0.g| && HasPhi(s1.g[i]) ensures HasPhi(s0.g[i]) {
      assert s1.g[i].instrs == s.g[i].instrs;
      assert HasPhi(s.g[i]);
    }
    forall p: nat, x: nat | x < |s0.g| && x in To(s1.g, p) ensures x in To(s0.g, p) || x in TargetBlocks(s0.env) {
      if p != Cur(s) {
        assert To(s1.g, p) == To(s.g, p);
      }
    }
  }

  /** Blocks that a visit leaves alone keep their branches, from and to them. */
  lemma PredsKept(s0: Snap, s1: Snap, b: BlockId)
    requires Grows(s0, s1) && b < |s0.g| && b !in TargetBlocks(s0.env)
    ensures Preds(s1.g, b) == Preds(s0.g, b)
  {
    forall p: nat ensures p in Preds(s1.g, b) <==> p in Preds(s0.g, b) {
      if p in Preds(s0.g, b) {
        assert Extends(s0.g[p], s1.g[p]);
      }
      if p in Preds(s1.g, b) {
        assert b in To(s0.g, p);
      }
    }
  }

  lemma PredsMove(s: Snap, t: Terminator, next: BlockId, b: BlockId)
    requires Placed(s) && s.g[Cur(s)].term.None?
    ensures Preds(Pushed(Ended(s, t), next).g, b) == Preds(s.g, b) + (if b in Successors(t) then {Cur(s)} else {})
  {
    var s1 := Pushed(Ended(s, t), next);
    forall p: nat | p < |s.g| ensures To(s1.g, p) == if p == Cur(s) then Successors(t) else To(s.g, p) {
    }
    assert To(s.g, Cur(s)) == {};
  }
}
