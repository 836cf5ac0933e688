/**
 The code context: the state that every visitor of the code generator shares and changes.

 Blocks are objects of the graph under construction; `funcBlocks` lists those placed so far,
 and code goes into the last one.  `localTable` is the stack of open scopes.  The three target
 stacks hold, for each enclosing construct that supports a kind of jump, the block to go to and
 the number of scopes open when the construct was entered.
 */
module CodeContexts {
  import opened Options
  import opened Cfg
  import opened Source
  import opened Layout
  import opened Emission

  /**
   The target of a jump at `level`: a positive level counts from the innermost construct, a
   negative one from the outermost.
   */
  function LoopBranchLevel(branchBlocks: seq<Target>, level: int): Option<Target> {
    var blockCount := |branchBlocks|;
    var idx := if level > 0 then blockCount - level else -level - 1;
    if 0 <= idx < blockCount then Some(branchBlocks[idx]) else None
  }

  /** The destructables of one scope, in the order they were stored. */
  function Destructables(vars: seq<Var>): seq<Var> {
    if vars == [] then []
    else if vars[0].dtor then [vars[0]] + Destructables(vars[1..])
    else Destructables(vars[1..])
  }

  lemma {:induction false} DestructablesAppend(a: seq<Var>, b: seq<Var>)
    ensures Destructables(a + b) == Destructables(a) + Destructables(b)
  {
    if a == [] {
      assert a + b == b;
    } else {
      DestructablesAppend(a[1..], b);
      assert (a + b)[1..] == a[1..] + b;
    }
  }

  /** Emits the destructor calls for `vars`, last first, all but the one for slot `keep`. */
  function Destructed(s: Snap, vars: seq<Var>, keep: Option<nat>): (s1: Snap)
    requires Placed(s)
    ensures Placed(s1) && s1 == s.(g := s1.g) && |s1.g| == |s.g|
    ensures s1.g[Cur(s1)].term == s.g[Cur(s)].term
  {
    if vars == [] then s
    else
      var s1 := Destructed(s, vars[1..], keep);
      if vars[0].dtor && Some(vars[0].slot) != keep then Emitted(s1, Destroy(vars[0])) else s1
  }

  lemma {:induction false} OnlyDestructables(s: Snap, vars: seq<Var>, keep: Option<nat>)
    requires Placed(s)
    ensures Destructed(s, Destructables(vars), keep) == Destructed(s, vars, keep)
  {
    if vars != [] {
      OnlyDestructables(s, vars[1..], keep);
      if vars[0].dtor {
        assert Destructables(vars)[1..] == Destructables(vars[1..]);
      }
    }
  }

  /** Block `b` ends in a switch. */
  predicate SwitchAt(s: Snap, b: BlockId) {
    b < |s.g| && s.g[b].term.Some? && s.g[b].term.value.SwitchTo?
  }

  function CaseAdded(s: Snap, b: BlockId, val: int, to: BlockId): Snap
    requires SwitchAt(s, b)
  {
    var t := s.g[b].term.value;
    s.(g := s.g[b := s.g[b].(term := Some(t.(table := t.table + [(val, to)])))])
  }

  function DefaultSet(s: Snap, b: BlockId, to: BlockId): Snap
    requires SwitchAt(s, b)
  {
    s.(g := s.g[b := s.g[b].(term := Some(s.g[b].term.value.(other := to)))])
  }

  class CodeContext {
    var g: Graph
    var funcBlocks: seq<BlockId>
    var localTable: seq<seq<Var>>
    var breakBlocks: seq<Target>
    var continueBlocks: seq<Target>
    var redoBlocks: seq<Target>
    var result: Returns
    var regs: nat
    var slots: nat
    var errors: nat

    ghost function State(): Snap
      reads this
    {
      Snap(g, funcBlocks, localTable, Env(breakBlocks, continueBlocks, redoBlocks, result), regs, slots, errors == 0)
    }

    /** The state is clean exactly as long as no error has been reported. */
    lemma CleanMeansNoErrors()
      ensures State().clean <==> errors == 0
    {
    }

    /** Starts a function: one open block, one open scope. */
    constructor StartFuncBlock(result: Returns)
      ensures State() == Snap([Block([], None)], [0], [[]], Env([], [], [], result), 0, 0, true)
      ensures errors == 0
    {
      g := [Block([], None)];
      funcBlocks := [0];
      localTable := [[]];
      breakBlocks, continueBlocks, redoBlocks := [], [], [];
      this.result := result;
      regs, slots, errors := 0, 0, 0;
    }

    method AddError()
      modifies this`errors
      ensures errors == old(errors) + 1 && State() == old(State()).(clean := false)
    {
      errors := errors + 1;
    }

    function CurrBlock(): (b: BlockId)
      requires State().placed != []
      reads this
      ensures b == Cur(State())
    {
      funcBlocks[|funcBlocks| - 1]
    }

    method CreateBlock() returns (b: BlockId)
      modifies this`g
      ensures State() == Created(old(State())) && b == |old(State()).g|
    {
      b := |g|;
      g := g + [Block([], None)];
    }

    method PushBlock(b: BlockId)
      modifies this`funcBlocks
      ensures State() == Pushed(old(State()), b)
    {
      funcBlocks := funcBlocks + [b];
    }

    method NextReg() returns (r: nat)
      modifies this`regs
      ensures r == old(State()).reg && State() == old(State()).(reg := r + 1)
    {
      r := regs;
      regs := regs + 1;
    }

    method Emit(ins: Instr)
      requires Placed(State())
      modifies this`g
      ensures State() == Emitted(old(State()), ins)
    {
      var b := CurrBlock();
      g := g[b := g[b].(instrs := g[b].instrs + [ins])];
    }

    method Terminate(t: Terminator)
      requires Placed(State()) && State().g[Cur(State())].term.None?
      modifies this`g
      ensures State() == Ended(old(State()), t)
    {
      var b := CurrBlock();
      g := g[b := g[b].(term := Some(t))];
    }

    // -------------------------------------------------------------- scopes

    method PushLocalTable()
      modifies this`localTable
      ensures State() == old(State()).(scopes := old(State()).scopes + [[]])
    {
      localTable := localTable + [[]];
    }

    method PopLocalTableRaw()
      requires State().scopes != []
      modifies this`localTable
      ensures State() == old(State()).(scopes := Pop(old(State()).scopes))
    {
      localTable := localTable[..|localTable| - 1];
    }

    /** Ends the innermost scope, destroying its locals last first. */
    method PopLocalTable()
      requires Placed(State()) && State().scopes != []
      modifies this`localTable, this`g
      ensures
        var s := old(State());
        State() == Destructed(s, Top(s.scopes), None).(scopes := Pop(s.scopes))
    {
      var toDestroy := Destructables(localTable[|localTable| - 1]);
      DestructablesHaveDtors(localTable[|localTable| - 1]);
      PopLocalTableRaw();
      ghost var s := State();
      CallDestructors(toDestroy, None);
      OnlyDestructables(s, Top(old(localTable)), None);
      ScopesAside(old(State()), Top(old(localTable)), None, Pop(old(localTable)));
    }

    /** Calls the destructors of `toDestroy`, last first, passing over slot `keep`. */
    method CallDestructors(toDestroy: seq<Var>, keep: Option<nat>)
      requires Placed(State())
      requires forall v | v in toDestroy :: v.dtor
      modifies this`g
      ensures State() == Destructed(old(State()), toDestroy, keep)
    {
      var i := |toDestroy|;
      while i > 0
        invariant 0 <= i <= |toDestroy|
        invariant State() == Destructed(old(State()), toDestroy[i..], keep)
      {
        i := i - 1;
        assert toDestroy[i..][1..] == toDestroy[i + 1..];
        if Some(toDestroy[i].slot) != keep {
          Emit(Destroy(toDestroy[i]));
        }
      }
      assert toDestroy[0..] == toDestroy;
    }

    /** All destructables of the scopes from number `level` inwards. */
    method GetDestructables(level: nat) returns (ret: seq<Var>)
      requires level <= |State().scopes|
      ensures ret == Destructables(Flat(State().scopes[level..]))
    {
      ret := [];
      var i := level;
      while i < |localTable|
        invariant level <= i <= |localTable|
        invariant ret == Destructables(Flat(localTable[level..i]))
      {
        DestructablesAppend(Flat(localTable[level..i]), localTable[i]);
        assert localTable[level..i + 1][..i - level] == localTable[level..i];
        ret := ret + Destructables(localTable[i]);
        i := i + 1;
      }
      assert localTable[level..i] == localTable[level..];
    }

    /** Destroys the locals of the scopes from number `level` inwards, all but the one in slot `keep`. */
    method CallDestructables(keep: Option<nat>, level: nat)
      requires Placed(State()) && level <= |State().scopes|
      modifies this`g
      ensures State() == Destructed(old(State()), Flat(old(State()).scopes[level..]), keep)
    {
      var toDestroy := GetDestructables(level);
      DestructablesHaveDtors(Flat(localTable[level..]));
      OnlyDestructables(State(), Flat(localTable[level..]), keep);
      CallDestructors(toDestroy, keep);
    }

    method NextSlot() returns (slot: nat)
      modifies this`slots
      ensures slot == old(State()).slot && State() == old(State()).(slot := slot + 1)
    {
      slot := slots;
      slots := slots + 1;
    }

    /** Whether the innermost scope declares `x`. */
    method DeclaredHere(x: Symbol) returns (found: bool)
      requires State().scopes != []
      ensures found <==> x in Names(Top(State().scopes))
    {
      var scope := localTable[|localTable| - 1];
      found := exists v | v in scope :: v.x == x;
    }

    /** The stack slot of the innermost local named `x`. */
    method LoadSymbolLocal(x: Symbol) returns (slot: Option<nat>)
      ensures slot == SlotOf(State().scopes, x)
    {
      var i := |localTable|;
      assert localTable[..i] == localTable;
      slot := None;
      while i > 0
        invariant 0 <= i <= |localTable|
        invariant SlotOf(localTable, x) == if slot.Some? then slot else SlotOf(localTable[..i], x)
      {
        if slot.None? {
          slot := SlotIn(localTable[i - 1], x);
          assert localTable[..i][..i - 1] == localTable[..i - 1];
        }
        i := i - 1;
      }
    }

    method StoreLocalSymbol(v: Var)
      requires State().scopes != []
      modifies this`localTable
      ensures
        var s := old(State());
        State() == s.(scopes := Pop(s.scopes) + [Top(s.scopes) + [v]])
    {
      var n := |localTable| - 1;
      localTable := localTable[..n] + [localTable[n] + [v]];
    }

    // -------------------------------------------------------------- jump targets

    function GetBreakBlock(level: int): (t: Option<Target>)
      reads this
      ensures t == LoopBranchLevel(State().env.brk, level)
    {
      LoopBranchLevel(breakBlocks, level)
    }

    function GetContinueBlock(level: int): (t: Option<Target>)
      reads this
      ensures t == LoopBranchLevel(State().env.cont, level)
    {
      LoopBranchLevel(continueBlocks, level)
    }

    function GetRedoBlock(level: int): (t: Option<Target>)
      reads this
      ensures t == LoopBranchLevel(State().env.redo, level)
    {
      LoopBranchLevel(redoBlocks, level)
    }

    function ReturnTy(): (r: Returns)
      reads this
      ensures r == State().env.result
    {
      result
    }

    method CreateBreakBlock() returns (b: BlockId)
      modifies this`g, this`breakBlocks
      ensures
        var s := old(State());
        && b == |s.g|
        && State() == Created(s).(env := s.env.(brk := s.env.brk + [Target(b, |s.scopes|)]))
    {
      b := CreateBlock();
      breakBlocks := breakBlocks + [Target(b, |localTable|)];
    }

    method CreateContinueBlock() returns (b: BlockId)
      modifies this`g, this`continueBlocks
      ensures
        var s := old(State());
        && b == |s.g|
        && State() == Created(s).(env := s.env.(cont := s.env.cont + [Target(b, |s.scopes|)]))
    {
      b := CreateBlock();
      continueBlocks := continueBlocks + [Target(b, |localTable|)];
    }

    method CreateRedoBlock() returns (b: BlockId)
      modifies this`g, this`redoBlocks
      ensures
        var s := old(State());
        && b == |s.g|
        && State() == Created(s).(env := s.env.(redo := s.env.redo + [Target(b, |s.scopes|)]))
    {
      b := CreateBlock();
      redoBlocks := redoBlocks + [Target(b, |localTable|)];
    }

    method PopLoopBranchBlocks(brk: bool, cont: bool, redo: bool)
      requires (brk ==> State().env.brk != []) && (cont ==> State().env.cont != []) && (redo ==> State().env.redo != [])
      modifies this`breakBlocks, this`continueBlocks, this`redoBlocks
      ensures
        var s, e := old(State()), old(State()).env;
        State() == s.(env := Env(
          if brk then e.brk[..|e.brk| - 1] else e.brk,
          if cont then e.cont[..|e.cont| - 1] else e.cont,
          if redo then e.redo[..|e.redo| - 1] else e.redo,
          e.result))
    {
      if brk {
        breakBlocks := breakBlocks[..|breakBlocks| - 1];
      }
      if cont {
        continueBlocks := continueBlocks[..|continueBlocks| - 1];
      }
      if redo {
        redoBlocks := redoBlocks[..|redoBlocks| - 1];
      }
    }

    /** The case table of a switch grows in place, in the block that ends in the switch. */
    method AddCase(b: BlockId, val: int, to: BlockId)
      requires SwitchAt(State(), b)
      modifies this`g
      ensures State() == CaseAdded(old(State()), b, val, to)
    {
      var t := g[b].term.value;
      g := g[b := g[b].(term := Some(t.(table := t.table + [(val, to)])))];
    }

    method SetDefaultDest(b: BlockId, to: BlockId)
      requires SwitchAt(State(), b)
      modifies this`g
      ensures State() == DefaultSet(old(State()), b, to)
    {
      g := g[b := g[b].(term := Some(g[b].term.value.(other := to)))];
    }
  }

  lemma {:induction false} DestructablesHaveDtors(vars: seq<Var>)
    ensures forall v | v in Destructables(vars) :: v.dtor
  {
    if vars != [] {
      DestructablesHaveDtors(vars[1..]);
    }
  }

  /** Destructor calls do not depend on the table of scopes. */
  lemma {:induction false} ScopesAside(s: Snap, vars: seq<Var>, keep: Option<nat>, scopes: seq<seq<Var>>)
    requires Placed(s)
    ensures Destructed(s.(scopes := scopes), vars, keep) == Destructed(s, vars, keep).(scopes := scopes)
  {
    if vars != [] {
      ScopesAside(s, vars[1..], keep, scopes);
    }
  }

  // ---------------------------------------------------------------- jump levels

  /** The code's index arithmetic finds the construct that the level names, or reports that there is none. */
  lemma LevelResolves(blocks: seq<Target>, level: int)
    ensures
      var q := Resolve(|blocks|, Some(level));
      LoopBranchLevel(blocks, AsInt32(level)) == if q.Some? then Some(blocks[|blocks| - q.value]) else None
  {
  }

  /** No level, as 1, is the innermost construct; level k and level k - (depth + 1) are the same. */
  lemma LevelsCoincide(blocks: seq<Target>, level: int)
    requires 1 <= level <= |blocks|
    ensures LoopBranchLevel(blocks, level) == LoopBranchLevel(blocks, level - (|blocks| + 1))
    ensures Resolve(|blocks|, None) == Resolve(|blocks|, Some(1))
  {
  }
}
