/** Labels and gotos of a function, in the order in which they are visited, and the blocks that come of them. */
module Labels {
  import opened Options

  datatype Stm = Label(name: string) | Goto(name: string)

  datatype LabelBlock = LabelBlock(block: nat, isPlaceholder: bool)

  /** No label is defined twice, and every goto has its label. */
  ghost predicate WellLabelled(stms: seq<Stm>) {
    && DefinedOnce(stms)
    && (forall i | 0 <= i < |stms| && stms[i].Goto? :: Label(stms[i].name) in stms)
  }

  predicate DefinedOnce(stms: seq<Stm>) {
    forall i, j | 0 <= i < j < |stms| && stms[i].Label? :: stms[i] != stms[j]
  }

  /** The blocks placed so far, the last of which is the current one, and where their branches lead. */
  datatype State = State(labelBlocks: map<string, LabelBlock>, placed: seq<nat>, branches: map<nat, nat>,
                         nextBlock: nat, errors: nat)

  predicate NoneTwice(bs: seq<nat>) {
    forall i, j | 0 <= i < j < |bs| :: bs[i] != bs[j]
  }

  /** A block for every name that was met, a placeholder as long as the label was not. */
  ghost predicate NamesMet(s: State, stms: seq<Stm>) {
    && (forall n: string :: n in s.labelBlocks <==> Label(n) in stms || Goto(n) in stms)
    && (forall n <- s.labelBlocks :: s.labelBlocks[n].isPlaceholder <==> Label(n) !in stms)
    && (s.errors == 0 <==> DefinedOnce(stms))
  }

  ghost predicate BlocksPlaced(s: State) {
    && (forall n <- s.labelBlocks :: s.labelBlocks[n].block < s.nextBlock)
    && (forall m, n | m in s.labelBlocks && n in s.labelBlocks
        && s.labelBlocks[m].block == s.labelBlocks[n].block :: m == n)
    && s.placed != [] && (forall b <- s.placed :: b < s.nextBlock)
    && NoneTwice(s.placed)
    && (forall n <- s.labelBlocks :: s.labelBlocks[n].block in s.placed <==> !s.labelBlocks[n].isPlaceholder)
  }

  /** The statement has ended block `here` and begun block `next`. */
  ghost predicate LaidAt(s: State, stm: Stm, here: nat, next: nat) {
    && here in s.branches && stm.name in s.labelBlocks
    && s.branches[here] == s.labelBlocks[stm.name].block
    && (stm.Label? ==> next == s.labelBlocks[stm.name].block)
  }

  ghost predicate Laid(s: State, stms: seq<Stm>) {
    && |s.placed| == |stms| + 1
    && (forall b <- s.branches :: b in s.placed[..|stms|])
    && (forall i | 0 <= i < |stms| :: LaidAt(s, stms[i], s.placed[i], s.placed[i + 1]))
  }

  /** What is known after these statements. */
  ghost predicate Knows(s: State, stms: seq<Stm>) {
    NamesMet(s, stms) && BlocksPlaced(s) && (s.errors == 0 ==> Laid(s, stms))
  }

  function Current(s: State): nat
    requires s.placed != []
  {
    s.placed[|s.placed| - 1]
  }

  /** The state after a label. */
  function AfterLabel(s: State, name: string): State
    requires s.placed != []
  {
    if name in s.labelBlocks && !s.labelBlocks[name].isPlaceholder then s.(errors := s.errors + 1)
    else
      var known := name in s.labelBlocks;
      var block := if known then s.labelBlocks[name].block else s.nextBlock;
      s.(labelBlocks := s.labelBlocks[name := LabelBlock(block, false)],
         branches := s.branches[Current(s) := block],
         placed := s.placed + [block],
         nextBlock := if known then s.nextBlock else s.nextBlock + 1)
  }

  /** The state after a goto, with the block for what follows it. */
  function AfterGoto(s: State, name: string): State
    requires s.placed != []
  {
    var skip := s.nextBlock;
    var known := name in s.labelBlocks;
    var blocks := if known then s.labelBlocks else s.labelBlocks[name := LabelBlock(skip + 1, true)];
    s.(labelBlocks := blocks, branches := s.branches[Current(s) := blocks[name].block], placed := s.placed + [skip],
       nextBlock := if known then skip + 1 else skip + 2)
  }

  lemma DefinedOnceMore(stms: seq<Stm>, s: Stm)
    ensures DefinedOnce(stms + [s]) <==> DefinedOnce(stms) && !(s.Label? && s in stms)
  {
    var more := stms + [s];
    assert forall i | 0 <= i < |stms| :: more[i] == stms[i];
    if s.Label? && s in stms {
      var i :| 0 <= i < |stms| && stms[i] == s;
      assert more[i] == more[|stms|];
    }
    if !DefinedOnce(stms) {
      var i, j :| 0 <= i < j < |stms| && stms[i].Label? && stms[i] == stms[j];
      assert more[i] == more[j];
    }
  }

  lemma AppendNew(bs: seq<nat>, b: nat)
    requires NoneTwice(bs) && b !in bs
    ensures NoneTwice(bs + [b])
  {
  }

  lemma LabelKeeps(s: State, stms: seq<Stm>, name: string)
    requires Knows(s, stms)
    ensures Knows(AfterLabel(s, name), stms + [Label(name)])
  {
    hide DefinedOnce, Laid, NoneTwice;
    var t := AfterLabel(s, name);
    DefinedOnceMore(stms, Label(name));
    if t.placed != s.placed {
      AppendNew(s.placed, t.placed[|s.placed|]);
      if t.errors == 0 { LaidOn(s, t, stms, Label(name)); }
    }
  }

  lemma GotoKeeps(s: State, stms: seq<Stm>, name: string)
    requires Knows(s, stms)
    ensures Knows(AfterGoto(s, name), stms + [Goto(name)])
  {
    hide DefinedOnce, Laid, NoneTwice;
    var t := AfterGoto(s, name);
    DefinedOnceMore(stms, Goto(name));
    AppendNew(s.placed, s.nextBlock);
    if t.errors == 0 { LaidOn(s, t, stms, Goto(name)); }
  }

  /** The current block has got its branch, and another one has become the current one. */
  lemma LaidOn(s: State, t: State, stms: seq<Stm>, last: Stm)
    requires Laid(s, stms) && NoneTwice(s.placed)
    requires forall n <- s.labelBlocks :: n in t.labelBlocks && t.labelBlocks[n].block == s.labelBlocks[n].block
    requires last.name in t.labelBlocks && t.branches == s.branches[Current(s) := t.labelBlocks[last.name].block]
    requires |t.placed| == |s.placed| + 1 && t.placed[..|s.placed|] == s.placed
    requires last.Label? ==> t.placed[|s.placed|] == t.labelBlocks[last.name].block
    ensures Laid(t, stms + [last])
  {
    hide NoneTwice;
    var more := stms + [last];
    assert t.placed[..|more|] == s.placed;
    assert forall b <- t.branches :: b in s.placed[..|stms|] || b == Current(s);
    forall i | 0 <= i < |more| ensures LaidAt(t, more[i], t.placed[i], t.placed[i + 1]) {
      assert t.placed[i] == t.placed[..|s.placed|][i];
      if i < |stms| {
        assert t.placed[i + 1] == t.placed[..|s.placed|][i + 1];
        assert LaidAt(s, stms[i], s.placed[i], s.placed[i + 1]);
        NotCurrent(s.placed, i);
      }
    }
  }

  lemma NotCurrent(placed: seq<nat>, i: nat)
    requires NoneTwice(placed) && i < |placed| - 1
    ensures placed[i] != placed[|placed| - 1]
  {
  }

  class Context {
    var labelBlocks: map<string, LabelBlock>
    var placed: seq<nat>
    var branches: map<nat, nat>
    var nextBlock: nat
    var errors: nat

    ghost function Now(): State
      reads this
    {
      State(labelBlocks, placed, branches, nextBlock, errors)
    }

    /** The function's entry is its first block. */
    constructor ()
      ensures Now() == State(map[], [0], map[], 1, 0)
    {
      labelBlocks, placed, branches, nextBlock, errors := map[], [0], map[], 1, 0;
    }

    method CreateBlock() returns (b: nat)
      modifies this`nextBlock
      ensures b == old(nextBlock) && nextBlock == b + 1
    {
      b := nextBlock;
      nextBlock := nextBlock + 1;
    }

    method PushBlock(b: nat)
      modifies this`placed
      ensures placed == old(placed) + [b]
    {
      placed := placed + [b];
    }

    /** Ends the current block. */
    method CreateBr(b: nat)
      requires placed != []
      modifies this`branches
      ensures branches == old(branches)[placed[|placed| - 1] := b]
    {
      branches := branches[placed[|placed| - 1] := b];
    }

    /** The block of the label, which is made unless it is there. */
    method CreateLabelBlock(name: string, isPlaceholder: bool)
      modifies this`labelBlocks, this`nextBlock
      ensures name in old(labelBlocks) ==> labelBlocks == old(labelBlocks) && nextBlock == old(nextBlock)
      ensures name !in old(labelBlocks)
        ==> labelBlocks == old(labelBlocks)[name := LabelBlock(old(nextBlock), isPlaceholder)]
            && nextBlock == old(nextBlock) + 1
    {
      if name !in labelBlocks {
        var block := CreateBlock();
        labelBlocks := labelBlocks[name := LabelBlock(block, isPlaceholder)];
      }
    }

    method VisitLabel(name: string)
      requires placed != []
      modifies this
      ensures Now() == AfterLabel(old(Now()), name)
    {
      if name in labelBlocks {
        if !labelBlocks[name].isPlaceholder {
          errors := errors + 1;
          return;
        }
        labelBlocks := labelBlocks[name := labelBlocks[name].(isPlaceholder := false)];
      } else {
        CreateLabelBlock(name, false);
      }
      CreateBr(labelBlocks[name].block);
      PushBlock(labelBlocks[name].block);
    }

    method VisitGoto(name: string)
      requires placed != []
      modifies this
      ensures Now() == AfterGoto(old(Now()), name)
    {
      var skip := CreateBlock();
      if name !in labelBlocks { CreateLabelBlock(name, true); }
      CreateBr(labelBlocks[name].block);
      PushBlock(skip);
    }
  }

  /** The block in front of a statement branches to the block behind a label, and for a goto behind its label. */
  ghost predicate LeadsRight(stms: seq<Stm>, placed: seq<nat>, branches: map<nat, nat>) {
    && |placed| == |stms| + 1 && NoneTwice(placed)
    && branches.Keys == (set b <- placed[..|stms|])
    && (forall i | 0 <= i < |stms| && stms[i].Label? :: branches[placed[i]] == placed[i + 1])
    && (forall i, j | 0 <= i < |stms| && stms[i].Goto? && 0 <= j < |stms| && stms[j] == Label(stms[i].name) ::
          branches[placed[i]] == placed[j + 1])
  }

  /**
   Visits the labels and gotos of a function.  There is no error exactly when the function is well
   labelled, and then its blocks stand in the order of the statements, and every label and goto, forward
   or backward, leads to where that label stands.
   */
  method VisitFunction(stms: seq<Stm>) returns (errors: nat, placed: seq<nat>, branches: map<nat, nat>)
    ensures errors == 0 <==> WellLabelled(stms)
    ensures errors == 0 ==> LeadsRight(stms, placed, branches)
  {
    hide Knows, AfterLabel, AfterGoto, LeadsRight;
    var context := new Context();
    NothingKnown();
    for i := 0 to |stms|
      invariant fresh(context) && context.placed != [] && Knows(context.Now(), stms[..i])
    {
      assert stms[..i + 1] == stms[..i] + [stms[i]];
      match stms[i] {
      case Label(name) =>
        LabelKeeps(context.Now(), stms[..i], name);
        context.VisitLabel(name);
      case Goto(name) =>
        GotoKeeps(context.Now(), stms[..i], name);
        context.VisitGoto(name);
      }
      StillPlaced(context.Now(), stms[..i + 1]);
    }
    assert stms[..|stms|] == stms;
    // the end of the function: every placeholder that is left is an error
    var placeholders := set n <- context.labelBlocks | context.labelBlocks[n].isPlaceholder;
    FunctionEnds(context.Now(), stms, placeholders);
    errors := context.errors + |placeholders|;
    placed, branches := context.placed, context.branches;
  }

  lemma NothingKnown()
    ensures Knows(State(map[], [0], map[], 1, 0), [])
  {
  }

  lemma StillPlaced(s: State, stms: seq<Stm>)
    requires Knows(s, stms)
    ensures s.placed != []
  {
  }

  lemma LaidRight(s: State, stms: seq<Stm>)
    requires Laid(s, stms) && BlocksPlaced(s)
    ensures LeadsRight(stms, s.placed, s.branches)
  {
    hide NoneTwice;
    assert NoneTwice(s.placed);
    var first := s.placed[..|stms|];
    forall i | 0 <= i < |stms| ensures s.placed[i] in s.branches && first[i] == s.placed[i] {
      assert LaidAt(s, stms[i], s.placed[i], s.placed[i + 1]);
    }
    forall i, j | 0 <= i < |stms| && stms[i].Goto? && 0 <= j < |stms| && stms[j] == Label(stms[i].name)
      ensures s.branches[s.placed[i]] == s.placed[j + 1]
    {
      assert LaidAt(s, stms[i], s.placed[i], s.placed[i + 1]) && LaidAt(s, stms[j], s.placed[j], s.placed[j + 1]);
    }
  }

  lemma FunctionEnds(s: State, stms: seq<Stm>, placeholders: set<string>)
    requires Knows(s, stms) && placeholders == set n <- s.labelBlocks | s.labelBlocks[n].isPlaceholder
    ensures s.errors + |placeholders| == 0 <==> WellLabelled(stms)
    ensures s.errors == 0 ==> LeadsRight(stms, s.placed, s.branches)
  {
    hide NoneTwice, DefinedOnce, BlocksPlaced, Laid, LeadsRight;
    if s.errors == 0 { LaidRight(s, stms); }
    if WellLabelled(stms) {
      forall n | n in s.labelBlocks ensures n !in placeholders { assert Label(n) in stms || Goto(n) in stms; }
      assert placeholders == {};
    }
    if placeholders == {} {
      forall i | 0 <= i < |stms| && stms[i].Goto? ensures Label(stms[i].name) in stms {
        assert Goto(stms[i].name) in stms;
        assert stms[i].name !in placeholders;
      }
    }
  }
}
