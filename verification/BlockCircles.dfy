/**
 Circles of blocks that only branch on to each other.

 The entry leads to such a circle, or to an erased block, before an edit of the clean-up pass exactly
 if it does so afterwards, except that erasing a block that branches to itself turns a circle into an
 erased block.
 */
module BlockCircles {
  import opened Options
  import opened Cfg
  import opened Emission
  import opened BlockRuns

  // ---------------------------------------------------------------- circles of one-branch blocks

  /** A block other than the entry that only branches on. */
  predicate OneBranch(g: Graph, b: BlockId) {
    b != 0 && OnlyBr(g, b)
  }

  /** How many one-branch blocks follow each other from `b` on, if they end within `fuel`. */
  function ChainLength(g: Graph, b: BlockId, fuel: nat): Option<nat>
    decreases fuel
  {
    if !OneBranch(g, b) then Some(0)
    else if fuel == 0 then None
    else
      var k :- ChainLength(g, g[b].term.value.to, fuel - 1);
      Some(k + 1)
  }

  /** From `b` on, one-branch blocks lead to each other in a circle. */
  ghost predicate Circles(g: Graph, b: BlockId) {
    forall fuel: nat :: ChainLength(g, b, fuel).None?
  }

  ghost predicate NoCircle(g: Graph) {
    forall b: nat :: !Circles(g, b)
  }

  /** The entry leads to a circle of one-branch blocks. */
  ghost predicate CircleReached(g: Graph) {
    exists b: nat :: Reached(g, b) && Circles(g, b)
  }

  lemma {:induction false} MoreFuel(g: Graph, b: BlockId, fuel: nat)
    requires ChainLength(g, b, fuel).Some?
    ensures ChainLength(g, b, fuel + 1) == ChainLength(g, b, fuel)
    decreases fuel
  {
    if OneBranch(g, b) {
      MoreFuel(g, g[b].term.value.to, fuel - 1);
    }
  }

  // ---------------------------------------------------------------- the function under the pass

  /**
   A function's blocks, the entry first, and a graph that holds nothing but them.  Only blocks that
   nothing branches to are empty; the others end in a terminator; and phis stand first.
   */
  ghost predicate WellFormed(g: Graph, blocks: seq<BlockId>) {
    && blocks != [] && blocks[0] == 0
    && (forall i, j | 0 <= i < j < |blocks| :: blocks[i] != blocks[j])
    && (forall i | 0 <= i < |blocks| :: blocks[i] < |g|)
    && (forall b: nat | b < |g| && b !in blocks :: g[b] == GONE)
    && (forall p: nat, b: nat | b in To(g, p) :: b < |g|)
    && (forall p: nat, b: nat | b in To(g, p) && b in blocks :: g[b].term.Some?)
    && (forall b: nat | b < |g| && g[b].term.None? :: g[b] == GONE)
    && PhisFirst(g)
  }

  /** Branches lead to blocks of the function. */
  ghost predicate BranchesStay(g: Graph, blocks: seq<BlockId>) {
    forall p: nat, b: nat | b in To(g, p) :: b in blocks
  }

  /** Some block that the entry leads to branches to a block that is not there any more. */
  ghost predicate BranchesToErased(g: Graph, blocks: seq<BlockId>) {
    exists p: nat, b: nat :: Reached(g, p) && b in To(g, p) && b !in blocks
  }

  ghost predicate HasPredecessor(g: Graph, b: BlockId) {
    exists p: nat :: b in To(g, p)
  }

  /** What the pass aims at for a block: it does something, and if it only branches on, a phi needs it. */
  predicate Clean(g: Graph, b: BlockId) {
    b < |g| && g[b] != GONE && (OnlyBr(g, b) ==> StartsWithPhi(g, g[b].term.value.to))
  }

  /** The pass takes a block for one it can skip, even if it branches to itself. */
  predicate Removable(g: Graph, b: BlockId) {
    OnlyBr(g, b) && !StartsWithPhi(g, g[b].term.value.to)
  }

  function Without(blocks: seq<BlockId>, i: nat): seq<BlockId>
    requires i < |blocks|
  {
    blocks[..i] + blocks[i + 1..]
  }

  // ---------------------------------------------------------------- erasing a block that is not reached

  lemma {:induction false} ErasedReachedIn(g: Graph, b: BlockId, x: BlockId, n: nat)
    requires b < |g| && (!Reached(g, b) || To(g, b) <= {b})
    ensures ReachedIn(g, x, n) ==> Reached(Erased(g, b), x)
    ensures ReachedIn(Erased(g, b), x, n) ==> ReachedIn(g, x, n)
    decreases n
  {
    var g1 := Erased(g, b);
    if n == 0 {
      EntryReached(g1);
    } else {
      if ReachedIn(g, x, n) {
        var p: nat :| x in To(g, p) && ReachedIn(g, p, n - 1);
        ErasedReachedIn(g, b, p, n - 1);
        if p != b { ReachedNext(g1, p, x); }
      }
      if ReachedIn(g1, x, n) {
        var p: nat :| x in To(g1, p) && ReachedIn(g1, p, n - 1);
        ErasedReachedIn(g, b, p, n - 1);
        assert x in To(g, p);
      }
    }
  }

  lemma ErasedReached(g: Graph, b: BlockId)
    requires b < |g| && (!Reached(g, b) || To(g, b) <= {b})
    ensures forall x :: Reached(Erased(g, b), x) <==> Reached(g, x)
  {
    var g1 := Erased(g, b);
    forall x ensures Reached(g1, x) <==> Reached(g, x) {
      if n: nat :| ReachedIn(g, x, n) { ErasedReachedIn(g, b, x, n); }
      if n: nat :| ReachedIn(g1, x, n) { ErasedReachedIn(g, b, x, n); }
    }
  }

  lemma {:induction false} ErasedChain(g: Graph, b: BlockId, c: BlockId, fuel: nat)
    requires b < |g|
    ensures ChainLength(g, c, fuel).Some? ==> ChainLength(Erased(g, b), c, fuel).Some?
    ensures !Reached(g, b) && Reached(g, c) ==> ChainLength(Erased(g, b), c, fuel) == ChainLength(g, c, fuel)
    decreases fuel
  {
    if OneBranch(g, c) && fuel > 0 {
      var to := g[c].term.value.to;
      if Reached(g, c) { ReachedNext(g, c, to); }
      ErasedChain(g, b, to, fuel - 1);
    }
  }

  lemma ErasedCircle(g: Graph, b: BlockId, c: BlockId)
    requires b < |g|
    ensures Circles(Erased(g, b), c) ==> Circles(g, c)
    ensures !Reached(g, b) && Reached(g, c) && Circles(g, c) ==> Circles(Erased(g, b), c)
  {
    hide ChainLength, Erased, Reached;
    forall fuel: nat
      ensures ChainLength(g, c, fuel).Some? ==> ChainLength(Erased(g, b), c, fuel).Some?
      ensures !Reached(g, b) && Reached(g, c) ==> ChainLength(Erased(g, b), c, fuel) == ChainLength(g, c, fuel)
    {
      ErasedChain(g, b, c, fuel);
    }
  }

  lemma ErasedCircles(g: Graph, b: BlockId)
    requires b < |g|
    ensures NoCircle(g) ==> NoCircle(Erased(g, b))
    ensures !Reached(g, b) ==> (CircleReached(Erased(g, b)) <==> CircleReached(g))
  {
    hide Circles, Erased, Reached;
    forall c: nat { ErasedCircle(g, b, c); }
    if !Reached(g, b) { ErasedReached(g, b); }
  }

  lemma ErasedTargets(g: Graph, blocks: seq<BlockId>, i: nat)
    requires i < |blocks| && blocks[i] < |g| && !Reached(g, blocks[i])
    ensures BranchesToErased(Erased(g, blocks[i]), Without(blocks, i)) <==> BranchesToErased(g, blocks)
  {
    var b, g1, rest := blocks[i], Erased(g, blocks[i]), Without(blocks, i);
    ErasedReached(g, b);
    forall p: nat, x: nat | Reached(g, p) && x in To(g, p) ensures x in To(g1, p) && (x in rest <==> x in blocks) {
      ReachedNext(g, p, x);
      if x in blocks {
        var k :| 0 <= k < |blocks| && blocks[k] == x;
        assert rest[if k < i then k else k - 1] == x;
      }
    }
  }

  // ---------------------------------------------------------------- erasing a block that branches to itself

  /** The entry leads to the block from another one. */
  lemma {:induction false} EnteredFrom(g: Graph, b: BlockId, n: nat) returns (p: BlockId)
    requires b != 0 && ReachedIn(g, b, n)
    ensures p != b && Reached(g, p) && b in To(g, p)
  {
    p :| b in To(g, p) && ReachedIn(g, p, n - 1);
    if p == b {
      p := EnteredFrom(g, b, n - 1);
    }
  }

  /** A block that branches to itself is a circle; erasing it, if it is reached, leaves a branch to it. */
  lemma SelfLoopErased(g: Graph, blocks: seq<BlockId>, i: nat)
    requires WellFormed(g, blocks) && 0 < i < |blocks|
    requires OnlyBr(g, blocks[i]) && g[blocks[i]].term.value.to == blocks[i]
    ensures Circles(g, blocks[i])
    ensures Reached(g, blocks[i]) ==> CircleReached(g) && BranchesToErased(Erased(g, blocks[i]), Without(blocks, i))
  {
    var b, g1 := blocks[i], Erased(g, blocks[i]);
    assert b != 0;
    forall fuel: nat ensures ChainLength(g, b, fuel).None? {
      SelfLoopGoesOn(g, b, fuel);
    }
    if Reached(g, b) {
      var n: nat :| ReachedIn(g, b, n);
      var p := EnteredFrom(g, b, n);
      ErasedReached(g, b);
      assert Reached(g1, p) && b in To(g1, p) && b !in Without(blocks, i);
    }
  }

  lemma {:induction false} SelfLoopGoesOn(g: Graph, b: BlockId, fuel: nat)
    requires OneBranch(g, b) && g[b].term.value.to == b
    ensures ChainLength(g, b, fuel).None?
  {
    if fuel > 0 { SelfLoopGoesOn(g, b, fuel - 1); }
  }

  // ---------------------------------------------------------------- skipping a block

  lemma NothingToRedirect(g: Graph, b: BlockId, from: BlockId, to: BlockId)
    requires b < |g| && from !in To(g, b)
    ensures RedirectBlock(g[b], from, to) == g[b]
  {
    if g[b].term.Some? && g[b].term.value.SwitchTo? {
      var table := g[b].term.value.table;
      forall i | 0 <= i < |table| ensures Hop(table[i].1, from, to) == table[i].1 {
        assert table[i] in table;
      }
      assert RedirectTable(table, from, to) == table;
    }
  }

  /** The successors of a redirected terminator. */
  lemma RedirectedTo(g: Graph, b: BlockId, from: BlockId, to: BlockId)
    requires b < |g| && from != to
    ensures forall x :: x in To(Redirected(g, from, to), b) <==>
        (x in To(g, b) && x != from)
        || (x == to && from in To(g, b))
  {
    if g[b].term.Some? && g[b].term.value.SwitchTo? {
      var table := g[b].term.value.table;
      var t := RedirectTable(table, from, to);
      forall e | e in table ensures (e.0, Hop(e.1, from, to)) in t {
        var i :| 0 <= i < |table| && table[i] == e;
        assert t[i] == (e.0, Hop(e.1, from, to));
      }
      forall e | e in t ensures exists d :: d in table && e == (d.0, Hop(d.1, from, to)) {
        var i :| 0 <= i < |t| && t[i] == e;
        assert table[i] in table;
      }
    }
  }

  /** Where branches lead once `b` is skipped; none leads to `b` any more. */
  lemma SkippedTo(g: Graph, b: BlockId)
    requires Skips(g, b)
    ensures
      var to := g[b].term.value.to;
      var g1 := Redirected(g, b, to);
      && (forall p: nat, x: nat :: x in To(g1, p) <==> (x in To(g, p) && x != b) || (x == to && b in To(g, p)))
      && To(g1, b) == {to} == To(g, b)
  {
    var to := g[b].term.value.to;
    forall p: nat, x: nat
      ensures x in To(Redirected(g, b, to), p) <==> (x in To(g, p) && x != b) || (x == to && b in To(g, p))
    {
      if p < |g| { RedirectedTo(g, p, b, to); }
    }
  }

  lemma {:induction false} StillReached(g: Graph, b: BlockId, x: BlockId, n: nat)
    requires Skips(g, b) && b != 0 && ReachedIn(g, x, n)
    ensures var to := g[b].term.value.to; Reached(Redirected(g, b, to), if x == b then to else x)
    decreases n
  {
    hide Redirected, PhisFirst, StartsWithPhi, Reached, To;
    var to := g[b].term.value.to;
    var g1 := Redirected(g, b, to);
    if n == 0 {
      EntryReached(g1);
    } else {
      SkippedTo(g, b);
      var p: nat :| x in To(g, p) && ReachedIn(g, p, n - 1);
      StillReached(g, b, p, n - 1);
      if p != b { ReachedNext(g1, p, if x == b then to else x); }
    }
  }

  lemma {:induction false} ReachedBefore(g: Graph, b: BlockId, x: BlockId, n: nat)
    requires Skips(g, b) && b != 0 && ReachedIn(Redirected(g, b, g[b].term.value.to), x, n)
    ensures Reached(g, x) && x != b
    decreases n
  {
    hide Redirected, PhisFirst, StartsWithPhi, Reached, To;
    var g1 := Redirected(g, b, g[b].term.value.to);
    if n == 0 {
      EntryReached(g);
    } else {
      SkippedTo(g, b);
      var p: nat :| x in To(g1, p) && ReachedIn(g1, p, n - 1);
      ReachedBefore(g, b, p, n - 1);
      if x in To(g, p) {
        ReachedNext(g, p, x);
      } else {
        ReachedNext(g, p, b);
        ReachedNext(g, b, x);
      }
    }
  }

  lemma SkippedReached(g: Graph, b: BlockId)
    requires Skips(g, b) && b != 0
    ensures var g1 := Redirected(g, b, g[b].term.value.to); forall x :: Reached(g1, x) <==> Reached(g, x) && x != b
  {
    hide Redirected, PhisFirst, StartsWithPhi, ReachedIn, To;
    var g1 := Redirected(g, b, g[b].term.value.to);
    forall x ensures Reached(g1, x) <==> Reached(g, x) && x != b {
      if n: nat :| ReachedIn(g, x, n) { StillReached(g, b, x, n); }
      if n: nat :| ReachedIn(g1, x, n) { ReachedBefore(g, b, x, n); }
    }
  }

  /** A chain gets shorter by the block that is skipped, and no more. */
  lemma {:induction false} SkippedChain(g: Graph, b: BlockId, c: BlockId, fuel: nat)
    requires Skips(g, b) && b != 0
    ensures
      var g1 := Redirected(g, b, g[b].term.value.to);
      && (ChainLength(g, c, fuel).Some? ==> ChainLength(g1, c, fuel).Some?)
      && (ChainLength(g1, c, fuel).Some? ==> ChainLength(g, c, 2 * fuel).Some?)
    decreases fuel
  {
    var to := g[b].term.value.to;
    var g1 := Redirected(g, b, to);
    assert OneBranch(g1, c) <==> OneBranch(g, c);
    if OneBranch(g, c) && fuel > 0 {
      var t := g[c].term.value.to;
      var t1 := Hop(t, b, to);
      assert g1[c].term.value.to == t1;
      SkippedChain(g, b, t1, fuel - 1);
      if ChainLength(g, c, fuel).Some? && t == b {
        assert ChainLength(g, b, fuel - 1).Some? && fuel > 1;
        MoreFuel(g, to, fuel - 2);
      }
      if ChainLength(g1, c, fuel).Some? {
        MoreFuel(g, t1, 2 * fuel - 2);
        if t == b {
          assert ChainLength(g, b, 2 * fuel - 1).Some?;
        }
      }
    }
  }

  lemma SkippedCircles(g: Graph, b: BlockId)
    requires Skips(g, b) && b != 0
    ensures var g1 := Redirected(g, b, g[b].term.value.to);
      && (NoCircle(g) ==> NoCircle(g1))
      && (CircleReached(g1) <==> CircleReached(g))
  {
    var to := g[b].term.value.to;
    var g1 := Redirected(g, b, to);
    forall c: nat ensures Circles(g1, c) <==> Circles(g, c) {
      forall fuel: nat
        ensures ChainLength(g, c, fuel).Some? ==> ChainLength(g1, c, fuel).Some?
        ensures ChainLength(g1, c, fuel).Some? ==> ChainLength(g, c, 2 * fuel).Some?
      {
        SkippedChain(g, b, c, fuel);
      }
    }
    SkippedReached(g, b);
    if Reached(g, b) && Circles(g, b) {
      ReachedNext(g, b, to);
      forall fuel: nat ensures ChainLength(g, to, fuel).None? {
        assert ChainLength(g, b, fuel + 1).None?;
      }
    }
  }

  lemma SkippedTargets(g: Graph, blocks: seq<BlockId>, b: BlockId)
    requires WellFormed(g, blocks) && Skips(g, b) && b in blocks && b != 0
    ensures BranchesToErased(Redirected(g, b, g[b].term.value.to), blocks) <==> BranchesToErased(g, blocks)
  {
    var to := g[b].term.value.to;
    var g1 := Redirected(g, b, to);
    SkippedReached(g, b);
    SkippedTo(g, b);
    if BranchesToErased(g, blocks) {
      var p: nat, x: nat :| Reached(g, p) && x in To(g, p) && x !in blocks;
      if p == b {
        var n: nat :| ReachedIn(g, b, n);
        var q := EnteredFrom(g, b, n);
        assert Reached(g1, q) && to in To(g1, q);
      } else {
        assert Reached(g1, p) && x in To(g1, p);
      }
    }
    if BranchesToErased(g1, blocks) {
      var p: nat, x: nat :| Reached(g1, p) && x in To(g1, p) && x !in blocks;
      if x !in To(g, p) {
        ReachedNext(g, p, b);
        assert x in To(g, b);
      }
    }
  }
}
