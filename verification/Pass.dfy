/**
 The clean-up pass.

 The pass walks once over the blocks of a function.  It erases blocks that are empty or that
 nothing branches to, and blocks that do nothing but branch on; the branches to the latter are
 sent where they lead.  That changes no run, unless the entry leads to a circle of such blocks.
 */
module SimpleBlockClean {
  import opened Options
  import opened Cfg
  import opened Emission
  import opened BlockRuns
  import opened BlockCircles

  // ---------------------------------------------------------------- what every step keeps

  lemma RedirectKeeps(g: Graph, blocks: seq<BlockId>, b: BlockId)
    requires WellFormed(g, blocks) && Skips(g, b) && b in blocks && b != 0
    ensures
      var g1 := Redirected(g, b, g[b].term.value.to);
      && WellFormed(g1, blocks)
      && (BranchesStay(g, blocks) ==> BranchesStay(g1, blocks))
      && !HasPredecessor(g1, b)
      && (forall x: nat :: HasPredecessor(g1, x) ==> HasPredecessor(g, x))
      && (forall x: nat :: x < |g| && Clean(g, x) ==> Clean(g1, x))
  {
    SkippedTo(g, b);
    var to := g[b].term.value.to;
    var g1 := Redirected(g, b, to);
    assert to in To(g, b);
    assert forall p: nat | p < |g| :: g1[p].instrs == g[p].instrs && (g1[p].term.Some? <==> g[p].term.Some?);
  }

  lemma NothingReaches(g: Graph, b: BlockId)
    requires b != 0 && !HasPredecessor(g, b)
    ensures !Reached(g, b)
  {
    forall n: nat ensures !ReachedIn(g, b, n) {
      forall p: nat ensures b !in To(g, p) {}
    }
  }

  lemma NoPreds(g: Graph, blocks: seq<BlockId>, b: BlockId, preds: seq<BlockId>)
    requires WellFormed(g, blocks) && b in blocks && b != 0
    requires forall p :: p in preds <==> p in blocks && b in To(g, p)
    ensures g[b] == GONE || preds == [] <==> !HasPredecessor(g, b)
  {
    forall p: nat | b in To(g, p) ensures p in preds && g[b] != GONE {
      assert p < |g| && g[p] != GONE;
    }
    if preds != [] && g[b] != GONE {
      assert preds[0] in preds && b in To(g, preds[0]);
    }
  }

  lemma EraseKeeps(g: Graph, blocks: seq<BlockId>, i: nat)
    requires WellFormed(g, blocks) && 0 < i < |blocks|
    ensures
      var b, g1, rest := blocks[i], Erased(g, blocks[i]), Without(blocks, i);
      && WellFormed(g1, rest)
      && (!HasPredecessor(g, b) && BranchesStay(g, blocks) ==> BranchesStay(g1, rest))
      && (forall x: nat :: HasPredecessor(g1, x) ==> HasPredecessor(g, x))
      && (forall x: nat :: x in rest <==> x in blocks && x != b)
  {
    var b := blocks[i];
    var g1, rest := Erased(g, b), Without(blocks, i);
    assert b != 0;
    forall x ensures x in rest <==> x in blocks && x != b {
      if x in blocks && x != b {
        var k :| 0 <= k < |blocks| && blocks[k] == x;
        assert rest[if k < i then k else k - 1] == x;
      }
    }
    assert forall p: nat | p != b :: To(g1, p) == To(g, p);
    assert To(g1, b) == {};
  }

  /** A block that leads to a phi needs that phi's block, which is neither skipped nor without predecessor. */
  lemma EraseKeepsClean(g: Graph, b: BlockId, x: BlockId)
    requires b < |g| && x != b && Clean(g, x) && (HasPredecessor(g, b) ==> g[b].instrs == [])
    ensures Clean(Erased(g, b), x)
  {
    if OnlyBr(g, x) {
      assert g[x].term.value.to in To(g, x);
    }
  }

  /** Once all blocks but the entry are clean, no one-branch blocks lead to each other. */
  lemma CleanHasNoCircle(g: Graph, blocks: seq<BlockId>)
    requires WellFormed(g, blocks) && forall i | 0 < i < |blocks| :: Clean(g, blocks[i])
    ensures !CircleReached(g)
  {
    forall b: nat ensures !Circles(g, b) {
      if OneBranch(g, b) {
        assert b in blocks;
        assert ChainLength(g, b, 1) == Some(1);
      } else {
        assert ChainLength(g, b, 0) == Some(0);
      }
    }
  }

  lemma RedirectTwice(b: Block, from: BlockId, to: BlockId)
    ensures RedirectBlock(RedirectBlock(b, from, to), from, to) == RedirectBlock(b, from, to)
  {
    if b.term.Some? && b.term.value.SwitchTo? {
      var t := RedirectTable(b.term.value.table, from, to);
      assert RedirectTable(t, from, to) == t;
    }
  }

  lemma RedirectToItself(g: Graph, b: BlockId)
    ensures Redirected(g, b, b) == g
  {
    forall p: nat | p < |g| ensures RedirectBlock(g[p], b, b) == g[p] {
      if g[p].term.Some? && g[p].term.value.SwitchTo? {
        assert RedirectTable(g[p].term.value.table, b, b) == g[p].term.value.table;
      }
    }
  }

  // ---------------------------------------------------------------- the pass

  /** What the steps of the pass keep, told from the graph `g0` it starts with. */
  ghost predicate Cleaning(g0: Graph, g: Graph, blocks: seq<BlockId>) {
    && WellFormed(g, blocks) && |g| == |g0|
    && (CircleReached(g) || BranchesToErased(g, blocks) <==> CircleReached(g0))
    && (!CircleReached(g0) ==> SameRuns(g0, g))
    && (NoCircle(g0) ==> NoCircle(g) && BranchesStay(g, blocks))
    && (forall b: nat :: HasPredecessor(g, b) ==> HasPredecessor(g0, b))
    && (forall b | b in blocks :: g[b].instrs == g0[b].instrs)
  }

  /** Erasing a block without predecessor is such a step. */
  lemma CleaningErases(g0: Graph, g: Graph, blocks: seq<BlockId>, i: nat)
    requires Cleaning(g0, g, blocks) && 0 < i < |blocks| && !HasPredecessor(g, blocks[i])
    ensures Cleaning(g0, Erased(g, blocks[i]), Without(blocks, i))
  {
    hide SameRuns, Circles, BranchesToErased, CircleReached, Reached;
    var b := blocks[i];
    var g1 := Erased(g, b);
    assert b != 0;
    NothingReaches(g, b);
    EraseKeeps(g, blocks, i);
    ErasedTargets(g, blocks, i);
    ErasedCircles(g, b);
    ErasedRuns(g, b);
    if !CircleReached(g0) { SameRunsThen(g0, g, g1); }
  }

  /** So is sending the branches past a block. */
  lemma CleaningSkips(g0: Graph, g: Graph, blocks: seq<BlockId>, b: BlockId)
    requires Cleaning(g0, g, blocks) && b in blocks && b != 0 && Skips(g, b)
    ensures Cleaning(g0, Redirected(g, b, g[b].term.value.to), blocks)
  {
    hide SameRuns, Circles, BranchesToErased, CircleReached, Reached;
    var g1 := Redirected(g, b, g[b].term.value.to);
    RedirectKeeps(g, blocks, b);
    SkippedTargets(g, blocks, b);
    SkippedCircles(g, b);
    RedirectedRuns(g, b);
    if !CircleReached(g0) { SameRunsThen(g0, g, g1); }
  }

  /** So is erasing a block that branches to itself, which is right exactly if the block is not reached. */
  lemma CleaningErasesLoop(g0: Graph, g: Graph, blocks: seq<BlockId>, i: nat)
    requires Cleaning(g0, g, blocks) && 0 < i < |blocks|
    requires OnlyBr(g, blocks[i]) && g[blocks[i]].term.value.to == blocks[i]
    ensures Cleaning(g0, Erased(g, blocks[i]), Without(blocks, i))
  {
    hide SameRuns, Circles, BranchesToErased, CircleReached, Reached;
    var b := blocks[i];
    var g1 := Erased(g, b);
    EraseKeeps(g, blocks, i);
    SelfLoopErased(g, blocks, i);
    if !Reached(g, b) {
      ErasedTargets(g, blocks, i);
      ErasedCircles(g, b);
      ErasedRuns(g, b);
      if !CircleReached(g0) { SameRunsThen(g0, g, g1); }
    }
  }

  // ---------------------------------------------------------------- which blocks go, and which stay

  /** In the graph as it was, branches lead from `p` to `b` through `n` blocks that only branch on. */
  ghost predicate LeadsIn(g: Graph, p: BlockId, b: BlockId, n: nat)
    decreases n
  {
    if n == 0 then b in To(g, p) else exists c: nat :: c in To(g, p) && OnlyBr(g, c) && LeadsIn(g, c, b, n - 1)
  }

  ghost predicate Leads(g: Graph, p: BlockId, b: BlockId) {
    exists n: nat :: LeadsIn(g, p, b, n)
  }

  lemma {:induction false} LeadsThen(g: Graph, p: BlockId, n: nat, c: BlockId, b: BlockId)
    requires LeadsIn(g, p, c, n) && OnlyBr(g, c) && Leads(g, c, b)
    ensures Leads(g, p, b)
    decreases n
  {
    if n == 0 {
      var m: nat :| LeadsIn(g, c, b, m);
      assert LeadsIn(g, p, b, m + 1);
    } else {
      var d: nat :| d in To(g, p) && OnlyBr(g, d) && LeadsIn(g, d, c, n - 1);
      LeadsThen(g, d, n - 1, c, b);
      var m: nat :| LeadsIn(g, d, b, m);
      assert LeadsIn(g, p, b, m + 1);
    }
  }

  /** Block `x` stands before block `y` in the list. */
  ghost predicate Before(blocks: seq<BlockId>, x: BlockId, y: BlockId) {
    exists i, j :: 0 <= i < j < |blocks| && blocks[i] == x && blocks[j] == y
  }

  /** Something branches to the block, or what led to it was erased when the walk had passed the block. */
  ghost predicate StillLedTo(g0: Graph, blocks0: seq<BlockId>, g: Graph, blocks: seq<BlockId>, b: BlockId) {
    HasPredecessor(g, b) || exists p: nat :: p !in blocks && Before(blocks0, b, p) && Leads(g0, p, b)
  }

  /** A block only branched on to one that starts without a phi, or what branched to it stood before it and is gone. */
  ghost predicate RightlyErased(g0: Graph, blocks0: seq<BlockId>, blocks: seq<BlockId>, b: BlockId) {
    || (OnlyBr(g0, b) && exists to: nat :: Leads(g0, b, to) && !StartsWithPhi(g0, to))
    || (forall p: nat | b in To(g0, p) :: p !in blocks && Before(blocks0, p, b))
  }

  /** The edges and blocks of `g` come from those of `g0`. */
  ghost predicate From(g0: Graph, blocks0: seq<BlockId>, g: Graph, blocks: seq<BlockId>) {
    && (forall p: nat, b: nat | b in To(g, p) :: Leads(g0, p, b) && (b in blocks || OnlyBr(g0, b)))
    && (forall p: nat, b: nat | b in To(g0, p) && p in blocks && b in blocks :: b in To(g, p))
    && (forall b: nat | OnlyBr(g, b) :: OnlyBr(g0, b))
    && (forall b | b in blocks :: b in blocks0 && (StartsWithPhi(g, b) <==> StartsWithPhi(g0, b)))
  }

  ghost predicate InOrder(blocks0: seq<BlockId>, blocks: seq<BlockId>) {
    forall i, j | 0 <= i < j < |blocks| :: Before(blocks0, blocks[i], blocks[j])
  }

  /** What was erased until the walk came to position `n` stands before what is to come. */
  ghost predicate ErasedBefore(blocks0: seq<BlockId>, blocks: seq<BlockId>, n: nat) {
    forall b, i | b in blocks0 && b !in blocks && n <= i < |blocks| :: Before(blocks0, b, blocks[i])
  }

  ghost predicate StayLedTo(g0: Graph, blocks0: seq<BlockId>, g: Graph, blocks: seq<BlockId>, n: nat) {
    forall i | 0 < i < n && i < |blocks| :: StillLedTo(g0, blocks0, g, blocks, blocks[i])
  }

  ghost predicate AllRightlyErased(g0: Graph, blocks0: seq<BlockId>, blocks: seq<BlockId>) {
    forall b | b in blocks0 && b !in blocks :: RightlyErased(g0, blocks0, blocks, b)
  }

  /** How the blocks that are left came about, when the walk has come to position `n`. */
  ghost predicate Walked(g0: Graph, blocks0: seq<BlockId>, g: Graph, blocks: seq<BlockId>, n: nat) {
    && From(g0, blocks0, g, blocks) && InOrder(blocks0, blocks) && ErasedBefore(blocks0, blocks, n)
    && StayLedTo(g0, blocks0, g, blocks, n) && AllRightlyErased(g0, blocks0, blocks)
  }

  lemma WalkStarts(g: Graph, blocks: seq<BlockId>)
    requires WellFormed(g, blocks) && BranchesStay(g, blocks)
    ensures Walked(g, blocks, g, blocks, 1)
  {
    forall p: nat, b: nat | b in To(g, p) ensures Leads(g, p, b) { assert LeadsIn(g, p, b, 0); }
    forall i, j | 0 <= i < j < |blocks| ensures Before(blocks, blocks[i], blocks[j]) {}
  }

  /** Erasing a block that nothing branches to any more, or only itself. */
  lemma FromErased(g0: Graph, blocks0: seq<BlockId>, g: Graph, blocks: seq<BlockId>, i: nat)
    requires WellFormed(g, blocks) && 0 < i < |blocks| && From(g0, blocks0, g, blocks)
    requires !HasPredecessor(g, blocks[i]) || OnlyBr(g0, blocks[i])
    ensures From(g0, blocks0, Erased(g, blocks[i]), Without(blocks, i))
  {
    hide Leads;
    EraseKeeps(g, blocks, i);
    var b, g1, rest := blocks[i], Erased(g, blocks[i]), Without(blocks, i);
    assert forall p: nat | p != b :: To(g1, p) == To(g, p);
    assert To(g1, b) == {};
    forall p: nat, x: nat | x in To(g1, p) ensures Leads(g0, p, x) && (x in rest || OnlyBr(g0, x)) {
      assert x in To(g, p);
    }
  }

  /** What is left when the branches to a block go past it and the block is erased. */
  lemma SkippedThenErased(g: Graph, b: BlockId)
    requires Skips(g, b)
    ensures
      var to := g[b].term.value.to;
      var g2 := Erased(Redirected(g, b, to), b);
      && (forall p: nat, x: nat | x in To(g2, p) :: p != b && x != b && (x in To(g, p) || (x == to && b in To(g, p))))
      && (forall p: nat, x: nat | x in To(g, p) && p != b && x != b :: x in To(g2, p))
      && (forall p: nat | OnlyBr(g2, p) :: OnlyBr(g, p))
      && (forall p: nat | p != b :: StartsWithPhi(g2, p) <==> StartsWithPhi(g, p))
  {
    hide PhisFirst;
    var to := g[b].term.value.to;
    var g1 := Redirected(g, b, to);
    var g2 := Erased(g1, b);
    SkippedTo(g, b);
    assert forall p: nat | p != b :: To(g2, p) == To(g1, p);
    assert To(g2, b) == {};
  }

  /** Sending the branches past a block that only branches on. */
  lemma FromSkipped(g0: Graph, blocks0: seq<BlockId>, g: Graph, blocks: seq<BlockId>, i: nat)
    requires WellFormed(g, blocks) && 0 < i < |blocks| && From(g0, blocks0, g, blocks) && Skips(g, blocks[i])
    requires forall x :: x in Without(blocks, i) <==> x in blocks && x != blocks[i]
    ensures
      var g1 := Redirected(g, blocks[i], g[blocks[i]].term.value.to);
      From(g0, blocks0, Erased(g1, blocks[i]), Without(blocks, i))
  {
    hide Leads, Erased, Redirected, StartsWithPhi, Without, PhisFirst, WellFormed;
    var b := blocks[i];
    var to := g[b].term.value.to;
    var g2, rest := Erased(Redirected(g, b, to), b), Without(blocks, i);
    SkippedThenErased(g, b);
    OnlyTo(g, b);
    forall p: nat, x: nat | x in To(g2, p) ensures Leads(g0, p, x) && (x in rest || OnlyBr(g0, x)) {
      if x !in To(g, p) {
        LeadsPast(g0, p, b, to);
      }
    }
  }

  lemma OnlyTo(g: Graph, b: BlockId)
    requires OnlyBr(g, b)
    ensures To(g, b) == {g[b].term.value.to}
  {}

  lemma LeadsPast(g: Graph, p: BlockId, c: BlockId, b: BlockId)
    requires Leads(g, p, c) && OnlyBr(g, c) && Leads(g, c, b)
    ensures Leads(g, p, b)
  {
    var n: nat :| LeadsIn(g, p, c, n);
    LeadsThen(g, p, n, c, b);
  }

  lemma OrderKept(blocks0: seq<BlockId>, blocks: seq<BlockId>, i: nat)
    requires i < |blocks| && InOrder(blocks0, blocks) && ErasedBefore(blocks0, blocks, i)
    requires forall x :: x in Without(blocks, i) <==> x in blocks && x != blocks[i]
    ensures InOrder(blocks0, Without(blocks, i)) && ErasedBefore(blocks0, Without(blocks, i), i)
  {
    hide Before;
    var rest := Without(blocks, i);
    forall b, k | b in blocks0 && b !in rest && i <= k < |rest| ensures Before(blocks0, b, rest[k]) {
      assert rest[k] == blocks[k + 1];
    }
    forall k, l | 0 <= k < l < |rest| ensures Before(blocks0, rest[k], rest[l]) {
      assert rest[k] == blocks[if k < i then k else k + 1] && rest[l] == blocks[if l < i then l else l + 1];
    }
  }

  /** The blocks that the walk has passed keep what branches to them, or it goes behind them. */
  lemma LedToKept(g0: Graph, blocks0: seq<BlockId>, g: Graph, g2: Graph, blocks: seq<BlockId>, i: nat)
    requires 0 < i < |blocks| && InOrder(blocks0, blocks) && StayLedTo(g0, blocks0, g, blocks, i)
    requires forall x :: x in Without(blocks, i) <==> x in blocks && x != blocks[i]
    requires forall p: nat, b: nat | b in To(g, p) :: Leads(g0, p, b)
    requires forall b: nat | HasPredecessor(g, b) && b in blocks && b != blocks[i] ::
      HasPredecessor(g2, b) || b in To(g, blocks[i])
    ensures StayLedTo(g0, blocks0, g2, Without(blocks, i), i)
  {
    hide Before, Leads, HasPredecessor;
    var rest := Without(blocks, i);
    forall k | 0 < k < i && k < |rest| ensures StillLedTo(g0, blocks0, g2, rest, rest[k]) {
      var b := blocks[k];
      assert rest[k] == b && b in rest;
      if HasPredecessor(g, b) {
        if b in To(g, blocks[i]) {
          assert blocks[i] !in rest && Before(blocks0, b, blocks[i]) && Leads(g0, blocks[i], b);
        }
      } else {
        var p: nat :| p !in blocks && Before(blocks0, b, p) && Leads(g0, p, b);
        assert p !in rest;
      }
    }
  }

  lemma ErasedStay(g0: Graph, blocks0: seq<BlockId>, blocks: seq<BlockId>, i: nat)
    requires i < |blocks| && AllRightlyErased(g0, blocks0, blocks)
    requires RightlyErased(g0, blocks0, Without(blocks, i), blocks[i])
    requires forall x :: x in Without(blocks, i) <==> x in blocks && x != blocks[i]
    ensures AllRightlyErased(g0, blocks0, Without(blocks, i))
  {
    hide Before, Leads, StartsWithPhi;
    var rest := Without(blocks, i);
    forall b | b in blocks0 && b !in rest ensures RightlyErased(g0, blocks0, rest, b) {
      if b != blocks[i] { assert RightlyErased(g0, blocks0, blocks, b); }
    }
  }

  /** A block that nothing branches to is rightly erased: what did stood before it. */
  lemma UnledErased(g0: Graph, blocks0: seq<BlockId>, g: Graph, blocks: seq<BlockId>, i: nat)
    requires WellFormed(g0, blocks0) && 0 < i < |blocks| && From(g0, blocks0, g, blocks)
    requires ErasedBefore(blocks0, blocks, i)
    requires !HasPredecessor(g, blocks[i]) && forall x :: x in Without(blocks, i) <==> x in blocks && x != blocks[i]
    ensures RightlyErased(g0, blocks0, Without(blocks, i), blocks[i])
  {
    hide Before, Leads;
    var b := blocks[i];
    forall p: nat | b in To(g0, p) ensures p !in Without(blocks, i) && Before(blocks0, p, b) {
      assert b in blocks;
      assert p < |g0| && g0[p] != GONE;
      assert p in blocks0;
      assert b !in To(g, p);
    }
  }

  /** A visit goes on as it should. */
  lemma Walks(g0: Graph, blocks0: seq<BlockId>, g1: Graph, g: Graph, blocks: seq<BlockId>, i: nat, erase: bool)
    requires WellFormed(g0, blocks0) && WellFormed(g1, blocks) && 0 < i < |blocks| && Walked(g0, blocks0, g1, blocks, i)
    requires Looked(g1, g, blocks[i], erase)
    ensures erase ==> Walked(g0, blocks0, Erased(g, blocks[i]), Without(blocks, i), i)
    ensures !erase ==> Walked(g0, blocks0, g, blocks, i + 1)
  {
    hide From, InOrder, ErasedBefore, StayLedTo, AllRightlyErased, RightlyErased;
    if !erase {
      WalksOn(g0, blocks0, g1, blocks, i);
    } else {
      EraseKeeps(g1, blocks, i);
      OrderKept(blocks0, blocks, i);
      if !HasPredecessor(g1, blocks[i]) {
        FromErased(g0, blocks0, g1, blocks, i);
        UnledErased(g0, blocks0, g1, blocks, i);
      } else {
        SkipErased(g0, blocks0, g1, blocks, i);
      }
      ErasedStay(g0, blocks0, blocks, i);
      LedToAfter(g0, blocks0, g1, g, blocks, i);
    }
  }

  lemma WalksOn(g0: Graph, blocks0: seq<BlockId>, g: Graph, blocks: seq<BlockId>, i: nat)
    requires i < |blocks| && Walked(g0, blocks0, g, blocks, i) && HasPredecessor(g, blocks[i])
    ensures Walked(g0, blocks0, g, blocks, i + 1)
  {
    hide From, InOrder, AllRightlyErased, Before, Leads, HasPredecessor;
  }

  /** A block that only branches on is rightly erased, and the branches to it go where it leads. */
  lemma SkipErased(g0: Graph, blocks0: seq<BlockId>, g1: Graph, blocks: seq<BlockId>, i: nat)
    requires WellFormed(g1, blocks) && 0 < i < |blocks| && From(g0, blocks0, g1, blocks) && Removable(g1, blocks[i])
    requires forall x :: x in Without(blocks, i) <==> x in blocks && x != blocks[i]
    ensures RightlyErased(g0, blocks0, Without(blocks, i), blocks[i])
    ensures
      var g := Redirected(g1, blocks[i], g1[blocks[i]].term.value.to);
      From(g0, blocks0, Erased(g, blocks[i]), Without(blocks, i))
  {
    hide Leads;
    var b := blocks[i];
    var to := g1[b].term.value.to;
    assert to in To(g1, b);
    if to == b {
      RedirectToItself(g1, b);
      FromErased(g0, blocks0, g1, blocks, i);
    } else {
      FromSkipped(g0, blocks0, g1, blocks, i);
    }
  }

  lemma LedToAfter(g0: Graph, blocks0: seq<BlockId>, g1: Graph, g: Graph, blocks: seq<BlockId>, i: nat)
    requires WellFormed(g1, blocks) && 0 < i < |blocks| && From(g0, blocks0, g1, blocks) && InOrder(blocks0, blocks)
    requires StayLedTo(g0, blocks0, g1, blocks, i) && Looked(g1, g, blocks[i], true)
    requires forall x :: x in Without(blocks, i) <==> x in blocks && x != blocks[i]
    ensures StayLedTo(g0, blocks0, Erased(g, blocks[i]), Without(blocks, i), i)
  {
    hide Leads, InOrder, StayLedTo;
    var b := blocks[i];
    var g2 := Erased(g, b);
    var skips := HasPredecessor(g1, b) && g1[b].term.value.to != b;
    if skips {
      assert g1[b].term.value.to in To(g1, b);
      SkippedTo(g1, b);
    } else if HasPredecessor(g1, b) {
      RedirectToItself(g1, b);
    }
    assert forall p: nat | p != b :: To(g2, p) == To(g, p);
    forall x: nat | HasPredecessor(g1, x) && x in blocks && x != b ensures HasPredecessor(g2, x) || x in To(g1, b) {
      var p: nat :| x in To(g1, p);
      if p != b { assert x in To(g2, p); }
    }
    LedToKept(g0, blocks0, g1, g2, blocks, i);
  }

  ghost predicate CleanUpTo(g0: Graph, g: Graph, blocks: seq<BlockId>, n: nat) {
    forall i | 0 < i < n && i < |blocks| :: Clean(g, blocks[i]) && HasPredecessor(g0, blocks[i])
  }

  lemma Starting(g: Graph, blocks: seq<BlockId>)
    requires WellFormed(g, blocks) && BranchesStay(g, blocks)
    ensures Cleaning(g, g, blocks)
  {
    SameRunsRefl(g);
  }

  /** Erasing a block that is empty, or that nothing branches to, keeps the blocks visited before it clean. */
  lemma StaysClean(g0: Graph, g: Graph, blocks: seq<BlockId>, i: nat)
    requires WellFormed(g, blocks) && 0 < i < |blocks| && CleanUpTo(g0, g, blocks, i)
    requires HasPredecessor(g, blocks[i]) ==> g[blocks[i]].instrs == []
    ensures CleanUpTo(g0, Erased(g, blocks[i]), Without(blocks, i), i)
  {
    hide Clean, HasPredecessor;
    forall k | 0 < k < i
      ensures Clean(Erased(g, blocks[i]), Without(blocks, i)[k]) && HasPredecessor(g0, Without(blocks, i)[k])
    {
      EraseKeepsClean(g, blocks[i], blocks[k]);
    }
  }

  /** What became of the graph `g1` when its block `b` was visited. */
  ghost predicate Looked(g1: Graph, g: Graph, b: BlockId, erase: bool) {
    && (erase <==> !HasPredecessor(g1, b) || Removable(g1, b))
    && g == if HasPredecessor(g1, b) && erase then Redirected(g1, b, g1[b].term.value.to) else g1
  }

  /** Visiting a block is a step of the pass, whichever way it goes. */
  lemma Visited(g0: Graph, g1: Graph, g: Graph, blocks: seq<BlockId>, i: nat, erase: bool)
    requires Cleaning(g0, g1, blocks) && 0 < i < |blocks| && CleanUpTo(g0, g1, blocks, i)
    requires Looked(g1, g, blocks[i], erase)
    ensures erase ==> Cleaning(g0, Erased(g, blocks[i]), Without(blocks, i))
    ensures erase ==> CleanUpTo(g0, Erased(g, blocks[i]), Without(blocks, i), i)
    ensures !erase ==> Cleaning(g0, g, blocks) && CleanUpTo(g0, g, blocks, i + 1)
  {
    hide SameRuns, Circles, BranchesToErased, CircleReached, Reached, NoCircle, BranchesStay;
    var b := blocks[i];
    assert b in blocks && b != 0;
    if !HasPredecessor(g1, b) {
      CleaningErases(g0, g1, blocks, i);
      StaysClean(g0, g1, blocks, i);
    } else if erase {
      var to := g1[b].term.value.to;
      assert to in To(g1, b);
      if to == b {
        RedirectToItself(g1, b);
        CleaningErasesLoop(g0, g1, blocks, i);
        StaysClean(g0, g1, blocks, i);
      } else {
        RedirectKeeps(g1, blocks, b);
        CleaningSkips(g0, g1, blocks, b);
        CleaningErases(g0, g, blocks, i);
        StaysClean(g0, g, blocks, i);
      }
    } else {
      var p: nat :| b in To(g1, p);
      assert g1[b] != GONE;
    }
  }

  lemma WalkEnds(g0: Graph, blocks0: seq<BlockId>, g: Graph, blocks: seq<BlockId>, n: nat)
    requires Walked(g0, blocks0, g, blocks, n) && n >= |blocks|
    ensures forall i | 0 < i < |blocks| :: StillLedTo(g0, blocks0, g, blocks, blocks[i])
    ensures forall b | b in blocks0 && b !in blocks :: RightlyErased(g0, blocks0, blocks, b)
    ensures forall p: nat, b: nat | b in To(g, p) :: Leads(g0, p, b)
  {
    hide Leads, Before, StartsWithPhi, RightlyErased, StillLedTo;
  }

  /** A function: its blocks in order, the entry first, and what they hold. */
  class Function {
    var blocks: seq<BlockId>
    var g: Graph

    constructor (g: Graph, blocks: seq<BlockId>)
      ensures this.g == g && this.blocks == blocks
    {
      this.g := g;
      this.blocks := blocks;
    }

    /** The blocks that branch to `block`. */
    method Predecessors(block: BlockId) returns (preds: seq<BlockId>)
      requires forall b | b in blocks :: b < |g|
      ensures forall p :: p in preds <==> p in blocks && block in To(g, p)
    {
      preds := [];
      var i := 0;
      while i < |blocks|
        invariant 0 <= i <= |blocks|
        invariant forall p :: p in preds <==> p in blocks[..i] && block in To(g, p)
      {
        if block in To(g, blocks[i]) {
          preds := preds + [blocks[i]];
        }
        i := i + 1;
      }
    }

    /** Sends the branches to a block that only branches on where that block leads, unless a phi waits there. */
    method RemoveBranchBlock(block: BlockId) returns (removed: bool)
      requires WellFormed(g, blocks) && block in blocks && g[block].instrs == [] && g[block].term.Some?
      modifies this`g
      ensures removed <==> Removable(old(g), block)
      ensures g == if removed then Redirected(old(g), block, old(g)[block].term.value.to) else old(g)
    {
      var branch := g[block].term.value;
      if !branch.Br? {
        return false;
      }
      var branchTo := branch.to;
      assert branchTo in To(g, block);
      if g[branchTo].instrs != [] && g[branchTo].instrs[0].Phi? {
        return false;
      }
      var termVec := Predecessors(block);
      var i := 0;
      while i < |termVec|
        invariant 0 <= i <= |termVec|
        invariant |g| == |old(g)|
        invariant forall b: nat | b < |g| ::
          g[b] == if b in termVec[..i] then RedirectBlock(old(g)[b], block, branchTo) else old(g)[b]
      {
        var p := termVec[i];
        assert p in termVec && p in blocks;
        RedirectTwice(old(g)[p], block, branchTo);
        g := g[p := RedirectBlock(g[p], block, branchTo)];
        i := i + 1;
      }
      forall b: nat | b < |g| ensures g[b] == RedirectBlock(old(g)[b], block, branchTo) {
        if b !in termVec {
          NothingToRedirect(old(g), b, block, branchTo);
        }
      }
      removed := true;
    }

    /** Erases the block at position `i` of the function. */
    method EraseFromParent(i: nat)
      requires i < |blocks| && blocks[i] < |g|
      modifies this
      ensures g == Erased(old(g), old(blocks)[i]) && blocks == Without(old(blocks), i)
    {
      g := g[blocks[i] := GONE];
      blocks := blocks[..i] + blocks[i + 1..];
    }

    /**
     The pass.  Afterwards a block that the entry leads to branches to an erased one exactly if the entry
     led to a circle of one-branch blocks; if not, all runs are as they were.  The remaining blocks hold
     the same instructions and are clean, and something branched to each of them.
     */
    method RunOnFunction() returns (modified: bool)
      requires WellFormed(g, blocks) && BranchesStay(g, blocks)
      modifies this
      ensures WellFormed(g, blocks) && |g| == |old(g)|
      ensures BranchesToErased(g, blocks) <==> CircleReached(old(g))
      ensures !CircleReached(old(g)) ==> SameRuns(old(g), g)
      ensures NoCircle(old(g)) ==> BranchesStay(g, blocks)
      ensures forall b | b in blocks :: b in old(blocks) && g[b].instrs == old(g)[b].instrs
      ensures forall i | 0 < i < |blocks| :: Clean(g, blocks[i]) && HasPredecessor(old(g), blocks[i])
      ensures forall i | 0 < i < |blocks| :: StillLedTo(old(g), old(blocks), g, blocks, blocks[i])
      ensures forall b | b in old(blocks) && b !in blocks :: RightlyErased(old(g), old(blocks), blocks, b)
      ensures forall p: nat, b: nat | b in To(g, p) :: Leads(old(g), p, b)
      ensures !modified ==> g == old(g) && blocks == old(blocks)
    {
      hide Leads, Before, StartsWithPhi, RightlyErased, StillLedTo, Walked;
      hide BranchesStay, SameRuns, Circles, BranchesToErased, CircleReached, Reached, HasPredecessor, Clean, NoCircle;
      hide To, PhisFirst;
      modified := false;
      Starting(g, blocks);
      WalkStarts(g, blocks);
      var iter := 1;
      while iter < |blocks|
        invariant 1 <= iter <= |blocks|
        invariant Cleaning(old(g), g, blocks)
        invariant forall b | b in blocks :: b in old(blocks)
        invariant CleanUpTo(old(g), g, blocks, iter) && Walked(old(g), old(blocks), g, blocks, iter)
        invariant !modified ==> g == old(g) && blocks == old(blocks)
        decreases |blocks| - iter
      {
        var block := blocks[iter];
        ghost var g1 := g;
        assert block in blocks && block != 0 && block < |g|;
        var preds := Predecessors(block);
        NoPreds(g, blocks, block, preds);
        var erase := g[block] == GONE || preds == [];
        if !erase && g[block].instrs == [] {
          erase := RemoveBranchBlock(block);
        }
        Visited(old(g), g1, g, blocks, iter, erase);
        Walks(old(g), old(blocks), g1, g, blocks, iter, erase);
        if erase {
          EraseFromParent(iter);
          modified := true;
        } else {
          iter := iter + 1;
        }
      }
      CleanHasNoCircle(g, blocks);
      WalkEnds(old(g), old(blocks), g, blocks, iter);
    }
  }
}
