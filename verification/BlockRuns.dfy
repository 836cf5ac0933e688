/**
 The edits of the clean-up pass, and that each keeps every run: erasing a block that the entry does
 not lead to, and sending the branches to a block that only branches on where that block leads.
 */
module BlockRuns {
  import opened Options
  import opened Cfg
  import opened Emission

  const GONE := Block([], None)

  // ---------------------------------------------------------------- what the pass edits

  function RedirectTable(table: seq<(int, BlockId)>, from: BlockId, to: BlockId): (t: seq<(int, BlockId)>)
    ensures |t| == |table|
    ensures forall i | 0 <= i < |t| :: t[i] == (table[i].0, Hop(table[i].1, from, to))
  {
    seq(|table|, i requires 0 <= i < |table| => (table[i].0, Hop(table[i].1, from, to)))
  }

  function Hop(b: BlockId, from: BlockId, to: BlockId): BlockId {
    if b == from then to else b
  }

  /** A terminator with each successor `from` replaced by `to`. */
  function Redirect(t: Terminator, from: BlockId, to: BlockId): Terminator {
    match t
    case Br(b) => Br(Hop(b, from, to))
    case CondBr(c, yes, no) => CondBr(c, Hop(yes, from, to), Hop(no, from, to))
    case SwitchTo(v, table, other) => SwitchTo(v, RedirectTable(table, from, to), Hop(other, from, to))
    case Ret(_) => t
  }

  function RedirectBlock(b: Block, from: BlockId, to: BlockId): Block {
    b.(term := match b.term case None => None case Some(t) => Some(Redirect(t, from, to)))
  }

  function Redirected(g: Graph, from: BlockId, to: BlockId): (g1: Graph)
    ensures |g1| == |g|
    ensures forall b: nat | b < |g| :: g1[b] == RedirectBlock(g[b], from, to)
  {
    seq(|g|, b requires 0 <= b < |g| => RedirectBlock(g[b], from, to))
  }

  /** A block whose only instruction is an unconditional branch. */
  predicate OnlyBr(g: Graph, b: BlockId) {
    b < |g| && g[b].instrs == [] && g[b].term.Some? && g[b].term.value.Br?
  }

  predicate StartsWithPhi(g: Graph, b: BlockId) {
    b < |g| && g[b].instrs != [] && g[b].instrs[0].Phi?
  }

  /** The graph with nothing left of block `b`. */
  function Erased(g: Graph, b: BlockId): (g1: Graph)
    ensures |g1| == |g| && (b < |g| ==> g1 == g[b := GONE])
  {
    if b < |g| then g[b := GONE] else g
  }

  // ---------------------------------------------------------------- same runs

  /** At the same point of the program text or not, the machine has seen the same and holds the same. */
  ghost predicate SameView(c: Config, d: Config) {
    c == d || (c.At? && d.At? && c.regs == d.regs && c.h == d.h)
  }

  /** The machine on `g1` gets to the view that the one on `g` has after `n` steps. */
  ghost predicate Met(g: Graph, g1: Graph, w: World, n: nat) {
    exists m: nat :: SameView(Steps(g, w, Start(), n), Steps(g1, w, Start(), m))
  }

  /**
   Every view that a run of `g` passes through is one that the run of `g1` passes through, and the other way round.
   */
  ghost predicate SameRuns(g: Graph, g1: Graph) {
    && (forall w: World, n: nat :: Met(g, g1, w, n))
    && (forall w: World, n: nat :: Met(g1, g, w, n))
  }

  lemma MetAt(g: Graph, g1: Graph, w: World, n: nat, m: nat)
    requires SameView(Steps(g, w, Start(), n), Steps(g1, w, Start(), m))
    ensures Met(g, g1, w, n) && Met(g1, g, w, m)
  {
    assert SameView(Steps(g1, w, Start(), m), Steps(g, w, Start(), n));
  }

  lemma SameRunsRefl(g: Graph)
    ensures SameRuns(g, g)
  {
    forall w: World, n: nat ensures Met(g, g, w, n) {
      MetAt(g, g, w, n, n);
    }
  }

  lemma MetThen(g0: Graph, g1: Graph, g2: Graph, w: World, n: nat)
    requires Met(g0, g1, w, n) && forall k: nat :: Met(g1, g2, w, k)
    ensures Met(g0, g2, w, n)
  {
    var k: nat :| SameView(Steps(g0, w, Start(), n), Steps(g1, w, Start(), k));
    assert Met(g1, g2, w, k);
    var m: nat :| SameView(Steps(g1, w, Start(), k), Steps(g2, w, Start(), m));
    MetAt(g0, g2, w, n, m);
  }

  lemma SameRunsThen(g0: Graph, g1: Graph, g2: Graph)
    requires SameRuns(g0, g1) && SameRuns(g1, g2)
    ensures SameRuns(g0, g2)
  {
    hide Met;
    forall w: World, n: nat ensures Met(g0, g2, w, n) {
      MetThen(g0, g1, g2, w, n);
    }
    forall w: World, n: nat ensures Met(g2, g0, w, n) {
      MetThen(g2, g1, g0, w, n);
    }
  }

  lemma StopsToo(g: Graph, g1: Graph, w: World, c: Config)
    requires !c.At? && Stops(g, w, c) && forall n: nat :: Met(g, g1, w, n)
    ensures Stops(g1, w, c)
  {
    var n: nat :| Steps(g, w, Start(), n) == c;
    assert Met(g, g1, w, n);
    var m: nat :| SameView(Steps(g, w, Start(), n), Steps(g1, w, Start(), m));
    assert Steps(g1, w, Start(), m) == c;
  }

  /** Runs that pass through the same views stop in the same way: with the same result, or stuck, or not at all. */
  lemma SameStops(g: Graph, g1: Graph, w: World, c: Config)
    requires SameRuns(g, g1) && !c.At?
    ensures Stops(g, w, c) <==> Stops(g1, w, c)
  {
    if Stops(g, w, c) {
      StopsToo(g, g1, w, c);
    }
    if Stops(g1, w, c) {
      StopsToo(g1, g, w, c);
    }
  }

  // ---------------------------------------------------------------- blocks that no run gets to

  /** Branches lead from the entry to block `b` in `n` steps. */
  ghost predicate ReachedIn(g: Graph, b: BlockId, n: nat)
    decreases n
  {
    if n == 0 then b == 0 else exists p: nat :: b in To(g, p) && ReachedIn(g, p, n - 1)
  }

  ghost predicate Reached(g: Graph, b: BlockId) {
    exists n: nat :: ReachedIn(g, b, n)
  }

  lemma EntryReached(g: Graph)
    ensures Reached(g, 0)
  {
    assert ReachedIn(g, 0, 0);
  }

  lemma ReachedNext(g: Graph, p: BlockId, b: BlockId)
    requires Reached(g, p) && b in To(g, p)
    ensures Reached(g, b)
  {
    var n: nat :| ReachedIn(g, p, n);
    assert ReachedIn(g, b, n + 1);
  }

  /** A run is only ever in blocks that are reached. */
  lemma {:induction false} OnlyThere(g: Graph, w: World, n: nat)
    ensures var c := Steps(g, w, Start(), n); c.At? ==> Reached(g, c.b)
  {
    if n == 0 {
      EntryReached(g);
    } else {
      OnlyThere(g, w, n - 1);
      LastStep(g, w, Start(), n - 1);
      var c := Steps(g, w, Start(), n - 1);
      if c.At? && Step(g, w, c).At? && Step(g, w, c).b != c.b {
        GoesToSuccessor(g, w, c);
        ReachedNext(g, c.b, Step(g, w, c).b);
      }
    }
  }

  lemma LastStep(g: Graph, w: World, c: Config, n: nat)
    ensures Steps(g, w, c, n + 1) == Step(g, w, Steps(g, w, c, n))
  {
    StepsAdd(g, w, c, n, 1);
    var d := Steps(g, w, c, n);
    assert Steps(g, w, d, 1) == Steps(g, w, Step(g, w, d), 0);
  }

  lemma {:induction false} TargetListed(table: seq<(int, BlockId)>, other: BlockId, v: int)
    ensures SwitchTarget(table, other, v) in Successors(SwitchTo(Imm(v), table, other))
  {
    if table != [] && table[0].0 != v {
      TargetListed(table[1..], other, v);
      assert forall e | e in table[1..] :: e in table;
    } else if table != [] {
      assert table[0] in table;
    }
  }

  lemma GoesToSuccessor(g: Graph, w: World, c: Config)
    requires c.At? && Step(g, w, c).At? && (Step(g, w, c).b != c.b || c.i >= |g[c.b].instrs|) && c.b < |g|
    ensures Step(g, w, c).b in To(g, c.b)
  {
    if c.i >= |g[c.b].instrs| {
      match g[c.b].term.value
      case Br(_) =>
      case CondBr(_, _, _) =>
      case SwitchTo(v, table, other) => TargetListed(table, other, Value(v, c.regs));
      case Ret(_) =>
    }
  }

  lemma {:induction false} ErasedSteps(g: Graph, b: BlockId, w: World, n: nat)
    requires b < |g| && !Reached(g, b)
    ensures Steps(Erased(g, b), w, Start(), n) == Steps(g, w, Start(), n)
  {
    if n > 0 {
      ErasedSteps(g, b, w, n - 1);
      LastStep(g, w, Start(), n - 1);
      LastStep(Erased(g, b), w, Start(), n - 1);
      OnlyThere(g, w, n - 1);
    }
  }

  /** Erasing a block that is not reached keeps every run. */
  lemma ErasedRuns(g: Graph, b: BlockId)
    requires b < |g| && !Reached(g, b)
    ensures SameRuns(g, Erased(g, b))
  {
    var g1 := Erased(g, b);
    forall w: World, n: nat ensures Met(g, g1, w, n) && Met(g1, g, w, n) {
      ErasedSteps(g, b, w, n);
      MetAt(g, g1, w, n, n);
    }
  }

  // ---------------------------------------------------------------- a block that only branches on

  /** Phis stand first in their blocks. */
  ghost predicate PhisFirst(g: Graph) {
    forall b: nat, i: nat | b < |g| && i < |g[b].instrs| && g[b].instrs[i].Phi? :: g[b].instrs[0].Phi?
  }

  /** Block `b` only branches on, to another block that holds no phi. */
  ghost predicate Skips(g: Graph, b: BlockId) {
    && PhisFirst(g)
    && OnlyBr(g, b) && g[b].term.value.to != b && g[b].term.value.to < |g|
    && !StartsWithPhi(g, g[b].term.value.to)
  }

  /** The branching block `b` is stepped over. */
  function Over(g: Graph, w: World, b: BlockId, c: Config): Config {
    if c.At? && c.b == b then Step(g, w, c) else c
  }

  /** `d` is where `c` is, give or take the block control came from, at which only a phi looks. */
  ghost predicate Follows(g: Graph, c: Config, d: Config) {
    c == d || (c.At? && d.At? && c.(prev := d.prev) == d && !StartsWithPhi(g, c.b))
  }

  lemma {:induction false} TableHops(table: seq<(int, BlockId)>, other: BlockId, v: int, from: BlockId, to: BlockId)
    ensures SwitchTarget(RedirectTable(table, from, to), Hop(other, from, to), v)
        == Hop(SwitchTarget(table, other, v), from, to)
  {
    if table != [] {
      TableHops(table[1..], other, v, from, to);
      assert RedirectTable(table, from, to)[1..] == RedirectTable(table[1..], from, to);
    }
  }

  /** A redirected terminator leads past block `from`. */
  lemma LeaveHops(t: Terminator, c: Config, from: BlockId, to: BlockId)
    requires c.At?
    ensures
      var e := Leave(t, c);
      Leave(Redirect(t, from, to), c) == if e.At? then e.(b := Hop(e.b, from, to)) else e
  {
    match t
    case SwitchTo(v, table, other) => TableHops(table, other, Value(v, c.regs), from, to);
    case _ =>
  }

  /** One step of the original and one of the redirected machine, from a block other than the one that is skipped. */
  lemma StepFollows(g: Graph, b: BlockId, w: World, c: Config, d: Config)
    requires Skips(g, b) && Follows(g, c, d) && (c.At? ==> c.b != b)
    ensures
      var g1 := Redirected(g, b, g[b].term.value.to);
      Follows(g, Over(g, w, b, Step(g, w, c)), Step(g1, w, d))
  {
    var to := g[b].term.value.to;
    var g1 := Redirected(g, b, to);
    if c.At? && c.b < |g| {
      if c.i < |g[c.b].instrs| {
        var ins := g[c.b].instrs[c.i];
        assert Step(g, w, c) == Execute(w, ins, c) && Step(g1, w, d) == Execute(w, ins, d);
        assert ins.Phi? ==> StartsWithPhi(g, c.b);
      } else if c.i == |g[c.b].instrs| && g[c.b].term.Some? {
        LeaveHops(g[c.b].term.value, d, b, to);
        var e := Leave(g[c.b].term.value, c);
        assert Step(g, w, c) == e;
        if e.At? && e.b == b {
          assert Step(g, w, e) == Goto(e, to);
        }
      }
    }
  }

  /** As the original runs, the redirected machine follows. */
  lemma {:induction false} RedirectedFollows(g: Graph, b: BlockId, w: World, n: nat) returns (m: nat)
    requires Skips(g, b) && b != 0
    ensures
      var g1, c := Redirected(g, b, g[b].term.value.to), Steps(g, w, Start(), n);
      && (c.At? && c.b == b ==> c.i == 0)
      && Follows(g, Over(g, w, b, c), Steps(g1, w, Start(), m))
  {
    var g1 := Redirected(g, b, g[b].term.value.to);
    if n == 0 {
      m := 0;
    } else {
      m := RedirectedFollows(g, b, w, n - 1);
      var c, d := Steps(g, w, Start(), n - 1), Steps(g1, w, Start(), m);
      LastStep(g, w, Start(), n - 1);
      if c.At? && c.b == b {
        BranchAlone(g, b, w, c);
      } else {
        LastStep(g1, w, Start(), m);
        StepFollows(g, b, w, c, d);
        m := m + 1;
      }
    }
  }

  /** As the redirected machine runs, it follows the original. */
  lemma {:induction false} RedirectedLags(g: Graph, b: BlockId, w: World, m: nat) returns (n: nat)
    requires Skips(g, b) && b != 0
    ensures
      var g1, c := Redirected(g, b, g[b].term.value.to), Steps(g, w, Start(), n);
      && (c.At? ==> c.b != b)
      && Follows(g, c, Steps(g1, w, Start(), m))
  {
    var g1 := Redirected(g, b, g[b].term.value.to);
    if m == 0 {
      n := 0;
    } else {
      n := RedirectedLags(g, b, w, m - 1);
      var c, d := Steps(g, w, Start(), n), Steps(g1, w, Start(), m - 1);
      LastStep(g1, w, Start(), m - 1);
      LastStep(g, w, Start(), n);
      StepFollows(g, b, w, c, d);
      n := n + 1;
      var e := Steps(g, w, Start(), n);
      if e.At? && e.b == b {
        LastStep(g, w, Start(), n);
        n := n + 1;
        assert Steps(g, w, Start(), n) == Goto(e, g[b].term.value.to) by {
          BranchAlone(g, b, w, e);
        }
      }
    }
  }

  lemma BranchAlone(g: Graph, b: BlockId, w: World, c: Config)
    requires Skips(g, b) && c.At? && c.b == b && c.i == 0
    ensures Step(g, w, c) == Goto(c, g[b].term.value.to)
  {
  }

  lemma RedirectedRuns(g: Graph, b: BlockId)
    requires Skips(g, b) && b != 0
    ensures SameRuns(g, Redirected(g, b, g[b].term.value.to))
  {
    var g1 := Redirected(g, b, g[b].term.value.to);
    forall w: World, n: nat ensures Met(g, g1, w, n) {
      var c := Steps(g, w, Start(), n);
      var m := RedirectedFollows(g, b, w, n);
      if c.At? && c.b == b {
        BranchAlone(g, b, w, c);
      }
      MetAt(g, g1, w, n, m);
    }
    forall w: World, m: nat ensures Met(g1, g, w, m) {
      var n := RedirectedLags(g, b, w, m);
      MetAt(g, g1, w, n, m);
    }
  }
}
