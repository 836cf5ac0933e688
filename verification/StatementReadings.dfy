/**
 The reader of statements is the grammar: it accepts what the rules derive, with the same statement.

 What the grammar derives is read up to its end, with what follows left over; and what was read is what
 the grammar derives from the tokens that were read.
 */
module StatementReadings {
  import opened Options
  import opened FormatTree
  import opened Reader
  import opened StatementReader
  import opened Grammar
  import opened StatementGrammar
  import opened Derivations
  import opened Readings

  // ---------------------------------------------------------------- what an expression begins with

  /** Tokens that begin neither a label nor a call of the destructor of `this`. */
  predicate NoOtherStatement(ts: Tokens) {
    && !(|ts| >= 2 && ts[0].Ident? && ts[1] == Colon)
    && !CallsThis(ts)
    && !(|ts| >= 3 && ts[0] == Tilde && CallsThis(ts[1..]))
  }

  predicate CallsThis(ts: Tokens) {
    |ts| >= 2 && ts[0] == KwThis && ts[1] == LParen
  }

  lemma NoOtherAlone(t: Token, ts: Tokens)
    requires t != Tilde && !Begins(ts, LParen) && !Begins(ts, Colon)
    ensures NoOtherStatement([t] + ts)
  {
    Cut(t, ts);
  }

  lemma NoOtherByTwo(ts: Tokens)
    requires |ts| >= 2 && ts[0] != Tilde && !(ts[0].Ident? && ts[1] == Colon) && !(ts[0] == KwThis && ts[1] == LParen)
    ensures NoOtherStatement(ts)
  {
  }

  lemma NoOtherAfterSign(sign: Token, ts: Tokens)
    requires NoOtherStatement(ts) && !sign.Ident? && sign != KwThis
    ensures NoOtherStatement([sign] + ts)
  {
    Cut(sign, ts);
  }

  lemma {:induction false} BeginsNoOther(level: nat, us: Tokens, e: Exp, ts: Tokens)
    requires level <= VARIABLE && Derives(OfLevel(level), us, e) && !Begins(ts, LParen) && !Begins(ts, Colon)
    ensures NoOtherStatement(us + ts)
    decreases e, 20 - level, 0
  {
    hide Derives, NoOtherStatement, Assigns, Chooses, Makes, Operates, Coalesces, Steps, Signs, Stands, Goes;
    Rule(level, us, e);
    if Own(level, us, e) {
      if level == VARIABLE { VariableBeginsNoOther(us, e, ts); } else { OwnBeginsNoOther(level, us, e, ts); }
    } else {
      BeginsNoOther(level + 1, us, e, ts);
    }
  }

  lemma {:induction false} OwnBeginsNoOther(level: nat, us: Tokens, e: Exp, ts: Tokens)
    requires level < VARIABLE && Own(level, us, e) && !Begins(ts, LParen) && !Begins(ts, Colon)
    ensures NoOtherStatement(us + ts)
    decreases e, 1, 2
  {
    hide Derives, DerivesList, BinLevel, NoOtherStatement, Begins;
    if level == ASSIGNMENT {
      var v, sign, rhs := AssignmentParts(us, e);
      OperandBeginsNoOther(VARIABLE, v, e.v, Asg(sign), rhs, ts, e);
    } else if level == TERNARY {
      var c, yes, no := TernaryParts(us, e);
      OperandBeginsNoOther(NEW, c, e.c, Query, yes + [Colon] + no, ts, e);
      assert us == c + [Query] + (yes + [Colon] + no);
    } else if level == NEW {
      NewBeginsNoOther(us, e, ts);
    } else if level <= LAST_BINARY {
      var l, r := BinaryParts(OfLevel(level), OfLevel(level + 1), us, e);
      OperandBeginsNoOther(level, l, e.l, Oper(e.bop), r, ts, e);
    } else if level == COALESCING {
      var l, r := CoalescingParts(us, e);
      OperandBeginsNoOther(UNARY, l, e.l, DoubleQuery, r, ts, e);
    } else if level == UNARY {
      UnaryBeginsNoOther(us, e, ts);
    } else {
      NoOtherAlone(us[0], ts);
    }
  }

  /** The first operand of `e`, the token `t` after it, and the rest. */
  lemma {:induction false} OperandBeginsNoOther(level: nat, us: Tokens, first: Exp, t: Token, more: Tokens, ts: Tokens,
                                                e: Exp)
    requires level <= VARIABLE && Derives(OfLevel(level), us, first) && t != LParen && t != Colon
    requires e decreases to first
    ensures NoOtherStatement(us + [t] + more + ts)
    decreases e, 1, 0
  {
    hide Derives, NoOtherStatement;
    BeginsNoOther(level, us, first, [t] + (more + ts));
    assert us + [t] + more + ts == us + ([t] + (more + ts));
  }

  lemma NewBeginsNoOther(us: Tokens, e: Exp, ts: Tokens)
    requires Makes(us, e)
    ensures NoOtherStatement(us + ts)
  {
    hide NoOtherStatement, DerivesList;
    if e.NewWith? { var _ := NewParts(us, e); }
    NoOtherByTwo(us + ts);
  }

  lemma {:induction false} UnaryBeginsNoOther(us: Tokens, e: Exp, ts: Tokens)
    requires (Steps(us, e) || Signs(us, e)) && !Begins(ts, LParen) && !Begins(ts, Colon)
    ensures NoOtherStatement(us + ts)
    decreases e, 1, 1
  {
    hide Derives, NoOtherStatement;
    if e.Increment? {
      var v := StepParts(us, e);
      if e.postfix {
        OperandBeginsNoOther(VARIABLE, v, e.v, Step(e.inc), [], ts, e);
        assert us + ts == v + [Step(e.inc)] + [] + ts;
      } else {
        First(VARIABLE, v, e.v);
        NoOtherByTwo(us + ts);
      }
    } else {
      var sign, inner := SignParts(us, e);
      BeginsNoOther(PRIMARY, inner, e.e, ts);
      NoOtherAfterSign(sign, inner + ts);
      assert us + ts == [sign] + (inner + ts);
    }
  }

  lemma {:induction false} VariableBeginsNoOther(us: Tokens, e: Exp, ts: Tokens)
    requires (Stands(us, e) || Goes(us, e)) && !Begins(ts, LParen) && !Begins(ts, Colon)
    ensures NoOtherStatement(us + ts)
    decreases e, 1, 1
  {
    hide Derives, DerivesList, NoOtherStatement, Stands, Follows;
    if Goes(us, e) {
      var v, suffix := VariableParts(us, e);
      SuffixBegins(suffix, e);
      OperandBeginsNoOther(VARIABLE, v, e.v, suffix[0], suffix[1..], ts, e);
      TailSplit(v, suffix, ts);
    } else {
      StemBeginsNoOther(us, e, ts);
    }
  }

  lemma TailSplit(v: Tokens, suffix: Tokens, ts: Tokens)
    requires suffix != []
    ensures v + suffix + ts == v + [suffix[0]] + suffix[1..] + ts
  {
    assert suffix == [suffix[0]] + suffix[1..];
  }

  lemma StemBeginsNoOther(us: Tokens, e: Exp, ts: Tokens)
    requires Stands(us, e) && !Begins(ts, LParen) && !Begins(ts, Colon)
    ensures NoOtherStatement(us + ts)
  {
    hide Derives, DerivesList, NoOtherStatement;
    if e.Base? || e.This? {
      NoOtherAlone(us[0], ts);
    } else {
      if e.Paren? { var _ := ParenParts(us, e); }
      if e.FunctionCall? { var _ := CallParts(us, e); }
      NoOtherByTwo(us + ts);
    }
  }

  lemma SuffixBegins(us: Tokens, e: Exp)
    requires e.Index? || e.Member? || e.MemberCall? || e.Dereference? || e.AddressOf? || e.Arrow?
    requires Follows(us, e)
    ensures us != [] && us[0] != LParen && us[0] != Colon
  {
    hide Derives, DerivesList;
    if e.Index? { var _ := IndexParts(us, e); }
    if e.MemberCall? { var _ := MemberCallParts(us, e); }
  }

  /** A token with which a statement can begin. */
  predicate BeginsStatement(t: Token) {
    t != RBrace && t != LBrace && t != Semi && t != KwElse && t != Key(Case) && t != Key(Default)
  }

  // ---------------------------------------------------------------- derived, then read: parts of statements

  lemma Glue(a: Tokens, t: Token, b: Tokens)
    ensures a + [t] + b == a + ([t] + b)
  {
  }

  lemma ReadsOptional(us: Tokens, e: Option<Exp>, close: Token, ts: Tokens)
    requires DerivesOptional(us, e) && Closes(close)
    ensures ReadOptional(us + [close] + ts, close) == Some(ReadOption(e, ts))
  {
    hide Derives, Read;
    Glue(us, close, ts);
    Cut(close, ts);
    if e.None? {
      assert us + [close] + ts == [close] + ts;
    } else {
      First(ASSIGNMENT, us, e.value);
      ReadsDerived(ASSIGNMENT, us, e.value, [close] + ts);
    }
  }

  lemma ReadsOneVariable(us: Tokens, v: Variable, ts: Tokens)
    requires DerivesVariable(us, v) && (Begins(ts, Comma) || Begins(ts, Semi))
    ensures ReadVariable(us + ts) == Some(ReadGroup([v], ts))
  {
    hide Read, ReadList, Derives, DerivesList;
    var all := us + ts;
    match v.init
    case NoInit => assert all[1..] == ts;
    case InitExp(e) =>
      var x :| us == [Ident(v.name), Asg(Equals)] + x && Derives(AssignmentExp, x, e);
      assert all[1..][0] == Asg(Equals) && all[2..] == x + ts;
      ReadsDerived(ASSIGNMENT, x, e, ts);
    case InitList(es) =>
      var x :| us == [Ident(v.name), LBrace] + x + [RBrace] && DerivesList(x, es);
      assert all[1..][0] == LBrace && all[2..] == x + [RBrace] + ts;
      ReadsDerivedList(x, es, RBrace, ts);
  }

  ghost predicate VariableItems(parts: seq<Tokens>, vars: seq<Variable>) {
    |parts| == |vars| && forall i | 0 <= i < |vars| :: DerivesVariable(parts[i], vars[i])
  }

  lemma {:induction false} ReadsGroup(parts: seq<Tokens>, vars: seq<Variable>, ts: Tokens)
    requires vars != [] && VariableItems(parts, vars)
    ensures ReadVariables(Join(parts) + [Semi] + ts) == Some(ReadGroup(vars, ts))
    decreases vars
  {
    hide ReadVariable, DerivesVariable;
    Cut(Semi, ts);
    if |vars| == 1 {
      Glue(Join(parts), Semi, ts);
      ReadsOneVariable(parts[0], vars[0], [Semi] + ts);
      assert vars == [vars[0]];
    } else {
      var more := Join(parts[1..]) + [Semi] + ts;
      assert Join(parts) + [Semi] + ts == parts[0] + ([Comma] + more);
      ReadsOneVariable(parts[0], vars[0], [Comma] + more);
      Cut(Comma, more);
      ReadsGroup(parts[1..], vars[1..], ts);
      assert vars == [vars[0]] + vars[1..];
    }
  }

  lemma ReadsVariables(us: Tokens, vars: seq<Variable>, ts: Tokens)
    requires DerivesVariables(us, vars)
    ensures ReadVariables(us + [Semi] + ts) == Some(ReadGroup(vars, ts))
  {
    hide ReadVariables, DerivesVariable;
    var parts: seq<Tokens> :| |parts| == |vars| && us == Join(parts)
      && forall i | 0 <= i < |vars| :: DerivesVariable(parts[i], vars[i]);
    ReadsGroup(parts, vars, ts);
  }

  lemma ReadsHeader(us: Tokens, pre: seq<Stm>, ts: Tokens)
    requires DerivesHeader(us, pre)
    ensures ReadHeader(us + [Semi] + ts) == Some(ReadMany(pre, ts))
  {
    hide ReadVariables, ReadList, DerivesVariables, DerivesList;
    if |pre| == 1 && pre[0].VariableGroup? && DerivesGroup(us, pre[0].ty, pre[0].vars) {
      var list :| us == [DataType(pre[0].ty)] + list && DerivesVariables(list, pre[0].vars);
      ReadsVariables(list, pre[0].vars, ts);
      assert us + [Semi] + ts == [DataType(pre[0].ty)] + (list + [Semi] + ts);
      Cut(DataType(pre[0].ty), list + [Semi] + ts);
      assert pre == [pre[0]];
    } else {
      var es: seq<Exp> :| |es| == |pre| && (forall i | 0 <= i < |es| :: pre[i] == ExpressionStm(es[i]))
        && DerivesList(us, es);
      ReadsDerivedList(us, es, Semi, ts);
      ListBegins(us, es);
      assert us != [] ==> (us + [Semi] + ts)[0] == us[0];
      assert Statements(es) == pre;
    }
  }

  lemma ListBegins(us: Tokens, es: seq<Exp>)
    requires DerivesList(us, es)
    ensures us != [] ==> !us[0].DataType?
  {
    hide Derives, DerivesList, Items;
    var parts, comma := ListParts(us, es);
    if es != [] {
      ItemsBegin(parts, es);
      assert us == Leading(comma) + Join(parts);
    }
  }

  // ---------------------------------------------------------------- derived, then read: statements

  /** What the grammar derives is read, with what follows it left over; an else cannot follow what is open. */
  lemma {:induction false} ReadsDerivedStm(open: bool, us: Tokens, s: Stm, ts: Tokens)
    requires DerivesStm(open, us, s) && (open ==> !Begins(ts, KwElse))
    ensures ReadStm(us + ts) == Some(ReadOne(s, ts))
    decreases s, 6
  {
    hide ReadStm, Simple, Loops, Whiles, Does, Switches, Fors, Ifs, IfElses;
    match s
    case LoopStm(_) => ReadsLoop(open, us, s, ts);
    case WhileStm(_, _, doWhile, _) => if doWhile { ReadsDo(us, s, ts); } else { ReadsWhile(open, us, s, ts); }
    case SwitchStm(_, _) => ReadsSwitch(us, s, ts);
    case ForStm(_, _, _, _) => ReadsFor(open, us, s, ts);
    case IfStm(_, _, elseBody) => if elseBody.Else? { ReadsIfElse(open, us, s, ts); } else { ReadsIf(us, s, ts); }
    case _ => ReadsSimple(us, s, ts);
  }

  lemma ReadsSimple(us: Tokens, s: Stm, ts: Tokens)
    requires Simple(us, s)
    ensures ReadStm(us + ts) == Some(ReadOne(s, ts))
  {
    hide ReadStm, Read, ReadVariables, Derives, DerivesVariables, DerivesOptional;
    match s
    case ExpressionStm(e) =>
      var x :| us == x + [Semi] && Derives(AssignmentExp, x, e);
      ReadsExpressionStm(x, e, ts);
    case VariableGroup(ty, vars) =>
      var x :| us == x + [Semi] && DerivesGroup(x, ty, vars);
      ReadsGroupStm(x, ty, vars, ts);
    case LabelStm(name) => LabelTaken(name, ts);
    case GotoStm(name) => GotoTaken(name, ts);
    case ReturnStm(e) =>
      var x :| us == [Key(Return)] + x + [Semi] && DerivesOptional(x, e);
      JumpTaken(Key(Return), x, e, ts);
    case BranchStm(kind, level) =>
      var word, x :| us == [Key(word)] + x + [Semi] && (word, kind) in BRANCHES && DerivesOptional(x, level);
      BranchesAre(word, kind);
      JumpTaken(Key(word), x, level, ts);
    case DeleteStm(v, size) => ReadsDelete(us, s, ts);
    case DestructorCall(v) => ReadsDestructorCall(us, v, ts);
  }

  lemma BranchesAre(word: Keyword, kind: BranchKind)
    ensures (word, kind) in BRANCHES <==> BranchOf(Key(word)) == Some(kind)
  {
  }

  lemma ReadsGroupStm(us: Tokens, ty: nat, vars: seq<Variable>, ts: Tokens)
    requires DerivesGroup(us, ty, vars)
    ensures ReadStm(us + [Semi] + ts) == Some(ReadOne(VariableGroup(ty, vars), ts))
  {
    hide Read, ReadKeyword, ReadVariables, DerivesVariables;
    var list :| us == [DataType(ty)] + list && DerivesVariables(list, vars);
    ReadsVariables(list, vars, ts);
    assert us + [Semi] + ts == [DataType(ty)] + (list + [Semi] + ts);
    Cut(DataType(ty), list + [Semi] + ts);
  }

  lemma LabelTaken(name: nat, ts: Tokens)
    ensures ReadStm([Ident(name), Colon] + ts) == Some(ReadOne(LabelStm(name), ts))
  {
    hide Read, ReadKeyword, ReadVariables;
    assert ([Ident(name), Colon] + ts)[2..] == ts;
  }

  lemma GotoTaken(name: nat, ts: Tokens)
    ensures ReadStm([Key(Goto), Ident(name), Semi] + ts) == Some(ReadOne(GotoStm(name), ts))
  {
    hide Read, ReadVariables, ReadOptional, ReadDelete, ReadDo, ReadSwitch, ReadFor, ReadIf, ReadBody;
    assert ([Key(Goto), Ident(name), Semi] + ts)[3..] == ts;
  }

  lemma JumpTaken(word: Token, us: Tokens, e: Option<Exp>, ts: Tokens)
    requires DerivesOptional(us, e) && word.Key? && (word.key == Return || BranchOf(word).Some?)
    ensures ReadStm([word] + us + [Semi] + ts)
      == Some(ReadOne(if word.key == Return then ReturnStm(e) else BranchStm(BranchOf(word).value, e), ts))
  {
    hide Read, ReadVariables, ReadOptional, ReadIf, ReadBody, DerivesOptional;
    ReadsOptional(us, e, Semi, ts);
    assert [word] + us + [Semi] + ts == [word] + (us + [Semi] + ts);
    Cut(word, us + [Semi] + ts);
  }

  lemma ReadsExpressionStm(us: Tokens, e: Exp, ts: Tokens)
    requires Derives(AssignmentExp, us, e)
    ensures ReadStm(us + [Semi] + ts) == Some(ReadOne(ExpressionStm(e), ts))
  {
    hide Read, ReadKeyword, ReadVariables, Derives;
    var rest := [Semi] + ts;
    Glue(us, Semi, ts);
    Cut(Semi, ts);
    First(ASSIGNMENT, us, e);
    BeginsNoOther(ASSIGNMENT, us, e, rest);
    NotDestructor(us + rest);
    ReadsDerived(ASSIGNMENT, us, e, rest);
    assert (us + rest)[0] == us[0];
  }

  lemma NotDestructor(ts: Tokens)
    requires NoOtherStatement(ts)
    ensures !(CallOfDestructor <= ts) && !(ts != [] && ts[0].Ident? && Begins(ts[1..], Colon))
  {
    assert CallOfDestructor <= ts ==> ts[0] == Tilde && CallsThis(ts[1..]);
  }

  lemma ReadsDestructorCall(us: Tokens, v: Exp, ts: Tokens)
    requires Simple(us, DestructorCall(v))
    ensures ReadStm(us + ts) == Some(ReadOne(DestructorCall(v), ts))
  {
    hide ReadStm, Derives;
    if us == CallOfDestructor && v == This {
      OwnDestructorTaken(ts);
    } else {
      var x :| us == x + [Dot, Tilde, KwThis, LParen, RParen, Semi] && Derives(VariableExp, x, v);
      ReadsObjectDestructor(x, v, ts);
      assert us + ts == x + ([Dot] + CallOfDestructor + ts);
    }
  }

  lemma ReadsObjectDestructor(x: Tokens, v: Exp, ts: Tokens)
    requires Derives(VariableExp, x, v)
    ensures ReadStm(x + ([Dot] + CallOfDestructor + ts)) == Some(ReadOne(DestructorCall(v), ts))
  {
    hide ReadStm, Read, Derives, NoOtherStatement, BeginsExpression;
    var rest := [Dot] + CallOfDestructor + ts;
    Shape(VARIABLE, x, v);
    Outer(ASSIGNMENT, VARIABLE, x, v);
    First(ASSIGNMENT, x, v);
    BeginsNoOther(ASSIGNMENT, x, v, rest);
    NotDestructor(x + rest);
    ReadsDerived(ASSIGNMENT, x, v, rest);
    DestructorTaken(x, v, ts);
  }

  lemma OwnDestructorTaken(ts: Tokens)
    ensures ReadStm(CallOfDestructor + ts) == Some(ReadOne(DestructorCall(This), ts))
  {
    hide Read, ReadKeyword, ReadVariables;
    var all := CallOfDestructor + ts;
    assert CallOfDestructor <= all && all[5..] == ts;
  }

  lemma DestructorTaken(x: Tokens, v: Exp, ts: Tokens)
    requires x != [] && BeginsExpression(x[0]) && IsVariable(v)
    requires
      var rest := [Dot] + CallOfDestructor + ts;
      && Read(ASSIGNMENT, x + rest) == Some(Parsed(v, rest))
      && !(CallOfDestructor <= x + rest) && !((x + rest)[0].Ident? && Begins((x + rest)[1..], Colon))
    ensures ReadStm(x + ([Dot] + CallOfDestructor + ts)) == Some(ReadOne(DestructorCall(v), ts))
  {
    hide Read, ReadKeyword, ReadVariables, IsVariable;
    var rest := [Dot] + CallOfDestructor + ts;
    assert (x + rest)[0] == x[0] && [Dot] + CallOfDestructor <= rest && rest[6..] == ts;
  }

  lemma ReadsDelete(us: Tokens, s: Stm, ts: Tokens)
    requires s.DeleteStm? && Simple(us, s)
    ensures ReadStm(us + ts) == Some(ReadOne(s, ts))
  {
    hide ReadStm, Derives;
    if s.size.None? {
      var x :| us == [Key(Delete)] + x + [Semi] && Derives(VariableExp, x, s.v);
      ReadsDeleteOne(x, s.v, ts);
    } else {
      var n, x :| us == [Key(Delete), LBracket] + n + [RBracket] + x + [Semi]
        && Derives(AssignmentExp, n, s.size.value) && Derives(VariableExp, x, s.v);
      ReadsDeleteMany(n, s.size.value, x, s.v, ts);
    }
  }

  lemma ReadsDeleteOne(x: Tokens, v: Exp, ts: Tokens)
    requires Derives(VariableExp, x, v)
    ensures ReadStm([Key(Delete)] + x + [Semi] + ts) == Some(ReadOne(DeleteStm(v, None), ts))
  {
    hide ReadStm, ReadPrimary, ReadDelete, Derives;
    var all := [Key(Delete)] + (x + ([Semi] + ts));
    DeletedIs(x, v, ts);
    DeleteTaken(x + ([Semi] + ts), v, ts);
    assert [Key(Delete)] + x + [Semi] + ts == all;
    KeyTaken(all);
  }

  lemma ReadsDeleteMany(n: Tokens, size: Exp, x: Tokens, v: Exp, ts: Tokens)
    requires Derives(AssignmentExp, n, size) && Derives(VariableExp, x, v)
    ensures ReadStm([Key(Delete), LBracket] + n + [RBracket] + x + [Semi] + ts)
      == Some(ReadOne(DeleteStm(v, Some(size)), ts))
  {
    hide ReadStm, Read, ReadPrimary, ReadDelete, Derives;
    var tail := x + ([Semi] + ts);
    var toks := n + ([RBracket] + tail);
    DeletedIs(x, v, ts);
    ReadsDerived(ASSIGNMENT, n, size, [RBracket] + tail);
    DeleteManyTaken(toks, size, tail, v, ts);
    DeleteGlued(n, x, ts);
    KeyTaken([Key(Delete)] + ([LBracket] + toks));
  }

  lemma DeleteGlued(n: Tokens, x: Tokens, ts: Tokens)
    ensures [Key(Delete), LBracket] + n + [RBracket] + x + [Semi] + ts
      == [Key(Delete)] + ([LBracket] + (n + ([RBracket] + (x + ([Semi] + ts)))))
  {
  }

  lemma DeletedIs(x: Tokens, v: Exp, ts: Tokens)
    requires Derives(VariableExp, x, v)
    ensures ReadPrimary(x + ([Semi] + ts)) == Some(Parsed(v, [Semi] + ts)) && IsVariable(v)
    ensures !Begins(x + ([Semi] + ts), LBracket)
  {
    hide ReadPrimary, Derives;
    Shape(VARIABLE, x, v);
    Outer(PRIMARY, VARIABLE, x, v);
    First(PRIMARY, x, v);
    ReadsPrimary(x, v, [Semi] + ts);
  }

  /** Some keywords have readers of their own. */
  lemma KeyTaken(ts: Tokens)
    requires ts != []
    ensures ts[0] == Key(Delete) ==> ReadStm(ts) == ReadDelete(ts)
    ensures ts[0] == Key(Do) ==> ReadStm(ts) == ReadDo(ts)
    ensures ts[0] == Key(Switch) ==> ReadStm(ts) == ReadSwitch(ts)
    ensures ts[0] == Key(For) ==> ReadStm(ts) == ReadFor(ts)
    ensures ts[0] == Key(If) ==> ReadStm(ts) == ReadIf(ts)
  {
    hide ReadDelete, ReadDo, ReadSwitch, ReadFor, ReadIf, ReadBody, ReadOptional, ReadVariables;
  }

  lemma DeleteTaken(tail: Tokens, v: Exp, ts: Tokens)
    requires ReadPrimary(tail) == Some(Parsed(v, [Semi] + ts)) && IsVariable(v) && !Begins(tail, LBracket)
    ensures ReadDelete([Key(Delete)] + tail) == Some(ReadOne(DeleteStm(v, None), ts))
  {
    hide Read, ReadPrimary;
    Cut(Key(Delete), tail);
    Cut(Semi, ts);
  }

  lemma DeleteManyTaken(toks: Tokens, size: Exp, tail: Tokens, v: Exp, ts: Tokens)
    requires Read(ASSIGNMENT, toks) == Some(Parsed(size, [RBracket] + tail))
    requires ReadPrimary(tail) == Some(Parsed(v, [Semi] + ts)) && IsVariable(v)
    ensures ReadDelete([Key(Delete)] + ([LBracket] + toks)) == Some(ReadOne(DeleteStm(v, Some(size)), ts))
  {
    hide Read, ReadPrimary;
    Cut(Key(Delete), [LBracket] + toks);
    Cut(LBracket, toks);
    Cut(RBracket, tail);
    Cut(Semi, ts);
    assert ([Key(Delete)] + ([LBracket] + toks))[2..] == toks;
  }

  lemma LoopTaken(body: Tokens, ss: seq<Stm>, ts: Tokens)
    requires ReadBody(body) == Some(ReadMany(ss, ts))
    ensures ReadStm([Key(Loop)] + body) == Some(ReadOne(LoopStm(ss), ts))
  {
    hide ReadBody, ReadOptional, ReadVariables, ReadDelete, ReadDo, ReadSwitch, ReadFor, ReadIf;
    Cut(Key(Loop), body);
  }

  lemma DoTaken(body: Tokens, ss: seq<Stm>, until: bool, close: Tokens, cond: Option<Exp>, ts: Tokens)
    requires ReadBody(body) == Some(ReadMany(ss, [Key(if until then Until else While)] + ([LParen] + close)))
    requires ReadOptional(close, RParen) == Some(ReadOption(cond, [Semi] + ts))
    ensures ReadDo([Key(Do)] + body) == Some(ReadOne(WhileStm(cond, ss, true, until), ts))
  {
    hide Read, ReadBody, ReadOptional;
    Cut(Key(Do), body);
    Cut(Key(if until then Until else While), [LParen] + close);
    Cut(LParen, close);
    Cut(Semi, ts);
  }

  lemma WhileTaken(close: Tokens, cond: Option<Exp>, body: Tokens, ss: seq<Stm>, until: bool, ts: Tokens)
    requires ReadOptional(close, RParen) == Some(ReadOption(cond, body)) && ReadBody(body) == Some(ReadMany(ss, ts))
    ensures ReadStm([Key(if until then Until else While)] + ([LParen] + close))
        == Some(ReadOne(WhileStm(cond, ss, false, until), ts))
  {
    hide ReadOptional, ReadBody, ReadVariables, ReadDelete, ReadDo, ReadSwitch, ReadFor, ReadIf;
    Cut(Key(if until then Until else While), [LParen] + close);
    Cut(LParen, close);
  }

  lemma SwitchTaken(subject: Tokens, e: Exp, cases: Tokens, settled: seq<SwitchCase>, ts: Tokens)
    requires settled != [] && Read(ASSIGNMENT, subject) == Some(Parsed(e, [RParen] + ([LBrace] + cases)))
    requires ReadCases(cases) == Some(ReadOfCases(settled, [RBrace] + ts))
    ensures ReadSwitch([Key(Switch)] + ([LParen] + subject)) == Some(ReadOne(SwitchStm(e, settled), ts))
  {
    hide Read, ReadCases;
    Cut(Key(Switch), [LParen] + subject);
    Cut(LParen, subject);
    Cut(RParen, [LBrace] + cases);
    Cut(LBrace, cases);
    Cut(RBrace, ts);
  }

  lemma ForTaken(toks: Tokens, pre: seq<Stm>, toks1: Tokens, cond: Option<Exp>, toks2: Tokens, post: seq<Exp>,
                 body: Tokens, ss: seq<Stm>, ts: Tokens)
    requires ReadHeader(toks) == Some(ReadMany(pre, toks1))
        && ReadOptional(toks1, Semi) == Some(ReadOption(cond, toks2))
    requires ReadList(toks2, RParen) == Some(ParsedList(post, body)) && ReadBody(body) == Some(ReadMany(ss, ts))
    ensures ReadFor([Key(For)] + ([LParen] + toks)) == Some(ReadOne(ForStm(pre, cond, post, ss), ts))
  {
    hide ReadHeader, ReadOptional, ReadList, ReadBody;
    Cut(Key(For), [LParen] + toks);
    Cut(LParen, toks);
  }

  lemma IfTaken(test: Tokens, e: Exp, body: Tokens, ss: seq<Stm>, tail: Tokens, elseBody: ElseBody, rest: Tokens)
    requires Read(ASSIGNMENT, test) == Some(Parsed(e, [RParen] + body)) && ReadBody(body) == Some(ReadMany(ss, tail))
    requires ReadElse(tail) == Some(ReadOfElse(elseBody, rest))
    ensures ReadIf([Key(If)] + ([LParen] + test)) == Some(ReadOne(IfStm(e, ss, elseBody), rest))
  {
    hide Read, ReadBody, ReadElse;
    Cut(Key(If), [LParen] + test);
    Cut(LParen, test);
    Cut(RParen, body);
  }

  lemma NoElseTaken(ts: Tokens)
    requires !Begins(ts, KwElse)
    ensures ReadElse(ts) == Some(ReadOfElse(NoElse, ts))
  {
  }

  lemma ElseTaken(body: Tokens, ss: seq<Stm>, ts: Tokens)
    requires ReadBody(body) == Some(ReadMany(ss, ts))
    ensures ReadElse([KwElse] + body) == Some(ReadOfElse(ElseBody.Else(ss), ts))
  {
    hide ReadBody;
    Cut(KwElse, body);
  }

  lemma BracesTaken(inner: Tokens, ss: seq<Stm>, ts: Tokens)
    requires ReadStms(inner) == Some(ReadMany(ss, [RBrace] + ts))
    ensures ReadBody([LBrace] + inner) == Some(ReadMany(ss, ts))
  {
    hide ReadStms;
    Cut(LBrace, inner);
    Cut(RBrace, ts);
  }

  lemma StmAlone(inner: Tokens, s: Stm, ts: Tokens)
    requires inner != [] && inner[0] != LBrace && inner[0] != Semi && ReadStm(inner) == Some(ReadOne(s, ts))
    ensures ReadBody(inner) == Some(ReadMany([s], ts))
  {
    hide ReadStm;
  }

  lemma SemicolonTaken(ts: Tokens)
    ensures ReadBody([Semi] + ts) == Some(ReadMany([], ts))
  {
    hide ReadStm, ReadStms;
    Cut(Semi, ts);
  }

  lemma {:induction false} ReadsLoop(open: bool, us: Tokens, s: Stm, ts: Tokens)
    requires s.LoopStm? && Loops(open, us, s) && (open ==> !Begins(ts, KwElse))
    ensures ReadStm(us + ts) == Some(ReadOne(s, ts))
    decreases s, 4
  {
    hide ReadStm, ReadBody, DerivesBody;
    var b :| us == [Key(Loop)] + b && DerivesBody(open, b, s.body);
    ReadsDerivedBody(open, b, s.body, ts);
    LoopTaken(b + ts, s.body, ts);
    assert us + ts == [Key(Loop)] + (b + ts);
  }

  lemma {:induction false} ReadsWhile(open: bool, us: Tokens, s: Stm, ts: Tokens)
    requires s.WhileStm? && !s.doWhile && Whiles(open, us, s) && (open ==> !Begins(ts, KwElse))
    ensures ReadStm(us + ts) == Some(ReadOne(s, ts))
    decreases s, 4
  {
    hide ReadStm, ReadOptional, ReadBody, DerivesBody, DerivesOptional;
    var word := Key(if s.until then Until else While);
    var c, b :| us == [word, LParen] + c + [RParen] + b
      && DerivesOptional(c, s.cond) && DerivesBody(open, b, s.body);
    var body := b + ts;
    ReadsOptional(c, s.cond, RParen, body);
    ReadsDerivedBody(open, b, s.body, ts);
    WhileTaken(c + [RParen] + body, s.cond, body, s.body, s.until, ts);
    assert us + ts == [word] + ([LParen] + (c + [RParen] + body));
  }

  lemma {:induction false} ReadsDo(us: Tokens, s: Stm, ts: Tokens)
    requires s.WhileStm? && s.doWhile && Does(us, s)
    ensures ReadStm(us + ts) == Some(ReadOne(s, ts))
    decreases s, 4
  {
    hide ReadStm, ReadOptional, ReadBody, ReadDo, DerivesBody, DerivesOptional;
    var word := Key(if s.until then Until else While);
    var inner, b, c :| us == [Key(Do)] + b + [word, LParen] + c + [RParen, Semi]
      && DerivesBody(inner, b, s.body) && DerivesOptional(c, s.cond);
    var close := c + [RParen] + ([Semi] + ts);
    var test := [word] + ([LParen] + close);
    ReadsOptional(c, s.cond, RParen, [Semi] + ts);
    ReadsDerivedBody(inner, b, s.body, test);
    DoTaken(b + test, s.body, s.until, close, s.cond, ts);
    assert us + ts == [Key(Do)] + (b + test);
    KeyTaken(us + ts);
  }

  lemma {:induction false} ReadsSwitch(us: Tokens, s: Stm, ts: Tokens)
    requires s.SwitchStm? && Switches(us, s)
    ensures ReadStm(us + ts) == Some(ReadOne(s, ts))
    decreases s, 4
  {
    hide ReadStm, Read, ReadSwitch, ReadCases, Derives, DerivesCases;
    var x, y :| us == [Key(Switch), LParen] + x + [RParen, LBrace] + y + [RBrace]
      && Derives(AssignmentExp, x, s.subject) && DerivesCases(y, s.cases);
    var end := [RBrace] + ts;
    var subject := x + ([RParen] + ([LBrace] + (y + end)));
    ReadsDerived(ASSIGNMENT, x, s.subject, [RParen] + ([LBrace] + (y + end)));
    ReadsDerivedCases(y, s.cases, end);
    SwitchTaken(subject, s.subject, y + end, s.cases, ts);
    assert us + ts == [Key(Switch)] + ([LParen] + subject);
    KeyTaken(us + ts);
  }

  lemma {:induction false} ReadsFor(open: bool, us: Tokens, s: Stm, ts: Tokens)
    requires s.ForStm? && Fors(open, us, s) && (open ==> !Begins(ts, KwElse))
    ensures ReadStm(us + ts) == Some(ReadOne(s, ts))
    decreases s, 4
  {
    hide ReadStm, ReadFor, ReadHeader, ReadOptional, ReadList, ReadBody;
    hide DerivesHeader, DerivesOptional, DerivesList, DerivesBody;
    var a, c, p, b :| us == [Key(For), LParen] + a + [Semi] + c + [Semi] + p + [RParen] + b
      && DerivesHeader(a, s.pre) && DerivesOptional(c, s.cond) && DerivesList(p, s.post)
      && DerivesBody(open, b, s.body);
    var body := b + ts;
    var post := p + [RParen] + body;
    var cond := c + [Semi] + post;
    ReadsHeader(a, s.pre, cond);
    ReadsOptional(c, s.cond, Semi, post);
    ReadsDerivedList(p, s.post, RParen, body);
    ReadsDerivedBody(open, b, s.body, ts);
    ForTaken(a + [Semi] + cond, s.pre, cond, s.cond, post, s.post, body, s.body, ts);
    ForGlued(a, c, p, b, ts);
    assert us + ts == [Key(For)] + ([LParen] + (a + [Semi] + cond));
    KeyTaken(us + ts);
  }

  lemma ForGlued(a: Tokens, c: Tokens, p: Tokens, b: Tokens, ts: Tokens)
    ensures [Key(For), LParen] + a + [Semi] + c + [Semi] + p + [RParen] + b + ts
      == [Key(For)] + ([LParen] + (a + [Semi] + (c + [Semi] + (p + [RParen] + (b + ts)))))
  {
  }

  lemma {:induction false} ReadsIf(us: Tokens, s: Stm, ts: Tokens)
    requires s.IfStm? && s.elseBody.NoElse? && Ifs(us, s) && !Begins(ts, KwElse)
    ensures ReadStm(us + ts) == Some(ReadOne(s, ts))
    decreases s, 4
  {
    hide ReadStm, Read, ReadBody, ReadIf, ReadElse, Derives, DerivesBody;
    var inner, x, b :| us == [Key(If), LParen] + x + [RParen] + b
      && Derives(AssignmentExp, x, s.test) && DerivesBody(inner, b, s.body);
    var body := b + ts;
    ReadsDerived(ASSIGNMENT, x, s.test, [RParen] + body);
    ReadsDerivedBody(inner, b, s.body, ts);
    NoElseTaken(ts);
    IfTaken(x + ([RParen] + body), s.test, body, s.body, ts, NoElse, ts);
    assert us + ts == [Key(If)] + ([LParen] + (x + ([RParen] + body)));
    KeyTaken(us + ts);
  }

  /** An else is read for the `if` it was derived for, as no other `if` that it could belong to stands before it. */
  lemma {:induction false} ReadsIfElse(open: bool, us: Tokens, s: Stm, ts: Tokens)
    requires s.IfStm? && s.elseBody.Else? && IfElses(open, us, s) && (open ==> !Begins(ts, KwElse))
    ensures ReadStm(us + ts) == Some(ReadOne(s, ts))
    decreases s, 4
  {
    hide ReadStm, Read, ReadBody, ReadIf, ReadElse, Derives, DerivesBody;
    var x, b, d :| us == [Key(If), LParen] + x + [RParen] + b + [KwElse] + d
      && Derives(AssignmentExp, x, s.test) && DerivesBody(false, b, s.body)
      && DerivesBody(open, d, s.elseBody.body);
    var tail := [KwElse] + (d + ts);
    var body := b + tail;
    ReadsDerived(ASSIGNMENT, x, s.test, [RParen] + body);
    ReadsDerivedBody(false, b, s.body, tail);
    ReadsDerivedBody(open, d, s.elseBody.body, ts);
    ElseTaken(d + ts, s.elseBody.body, ts);
    IfTaken(x + ([RParen] + body), s.test, body, s.body, tail, s.elseBody, ts);
    IfGlued(x, b, d, ts);
    assert us + ts == [Key(If)] + ([LParen] + (x + ([RParen] + body)));
    KeyTaken(us + ts);
  }

  lemma IfGlued(x: Tokens, b: Tokens, d: Tokens, ts: Tokens)
    ensures [Key(If), LParen] + x + [RParen] + b + [KwElse] + d + ts
      == [Key(If)] + ([LParen] + (x + ([RParen] + (b + ([KwElse] + (d + ts))))))
  {
  }

  lemma {:induction false} ReadsDerivedBody(open: bool, us: Tokens, ss: seq<Stm>, ts: Tokens)
    requires DerivesBody(open, us, ss) && (open ==> !Begins(ts, KwElse))
    ensures ReadBody(us + ts) == Some(ReadMany(ss, ts))
    decreases ss, 3
  {
    hide ReadStm, ReadStms, ReadBody, DerivesStm, DerivesStms;
    if |ss| == 1 && DerivesStm(open, us, ss[0]) {
      ReadsDerivedStm(open, us, ss[0], ts);
      FirstOfStm(open, us, ss[0]);
      assert (us + ts)[0] == us[0] && ss == [ss[0]];
      StmAlone(us + ts, ss[0], ts);
    } else if us == [Semi] && ss == [] {
      SemicolonTaken(ts);
    } else {
      var x :| us == [LBrace] + x + [RBrace] && DerivesStms(x, ss);
      ReadsDerivedStms(x, ss, [RBrace] + ts);
      BracesTaken(x + ([RBrace] + ts), ss, ts);
      assert us + ts == [LBrace] + (x + ([RBrace] + ts));
    }
  }

  lemma FirstOfStm(open: bool, us: Tokens, s: Stm)
    requires DerivesStm(open, us, s)
    ensures us != [] && BeginsStatement(us[0])
  {
    hide Derives, DerivesList, DerivesBody, DerivesOptional, DerivesHeader, DerivesCases, DerivesVariables, UnaryOf;
    match s
    case ExpressionStm(e) =>
      var x :| us == x + [Semi] && Derives(AssignmentExp, x, e);
      First(ASSIGNMENT, x, e);
      BeginsNoWord(x[0]);
    case DestructorCall(v) =>
      if us != CallOfDestructor {
        var x :| us == x + [Dot, Tilde, KwThis, LParen, RParen, Semi] && Derives(VariableExp, x, v);
        First(VARIABLE, x, v);
        BeginsNoWord(x[0]);
      }
    case _ =>
  }

  lemma BeginsNoWord(t: Token)
    requires BeginsExpression(t)
    ensures BeginsStatement(t)
  {
  }

  ghost predicate StmItems(parts: seq<Tokens>, ss: seq<Stm>) {
    |parts| == |ss|
    && forall i | 0 <= i < |ss| :: DerivesStm(true, parts[i], ss[i]) || DerivesStm(false, parts[i], ss[i])
  }

  lemma {:induction false} ReadsDerivedStms(us: Tokens, ss: seq<Stm>, ts: Tokens)
    requires DerivesStms(us, ss) && EndsList(ts)
    ensures ReadStms(us + ts) == Some(ReadMany(ss, ts))
    decreases ss, 2
  {
    hide ReadStms, DerivesStm;
    var parts: seq<Tokens> :| |parts| == |ss| && us == Concat(parts)
      && forall i | 0 <= i < |ss| :: DerivesStm(true, parts[i], ss[i]) || DerivesStm(false, parts[i], ss[i]);
    ReadsStmItems(parts, ss, ts);
  }

  lemma {:induction false} ReadsStmItems(parts: seq<Tokens>, ss: seq<Stm>, ts: Tokens)
    requires StmItems(parts, ss) && EndsList(ts)
    ensures ReadStms(Concat(parts) + ts) == Some(ReadMany(ss, ts))
    decreases ss, 1
  {
    hide ReadStm, ReadStms, DerivesStm;
    if ss == [] {
      assert Concat(parts) + ts == ts;
      NoMoreStms(ts);
    } else {
      var more := Concat(parts[1..]) + ts;
      var open := DerivesStm(true, parts[0], ss[0]);
      FirstOfStm(open, parts[0], ss[0]);
      NoElseFollows(parts[1..], ss[1..], ts);
      ReadsDerivedStm(open, parts[0], ss[0], more);
      ReadsStmItems(parts[1..], ss[1..], ts);
      ConcatFirst(parts, ts);
      NextStm(parts[0], ss[0], more, ss[1..], ts);
      assert ss == [ss[0]] + ss[1..];
    }
  }

  lemma ConcatFirst(parts: seq<Tokens>, ts: Tokens)
    requires parts != []
    ensures Concat(parts) + ts == parts[0] + (Concat(parts[1..]) + ts)
  {
  }

  lemma NoElseFollows(parts: seq<Tokens>, ss: seq<Stm>, ts: Tokens)
    requires StmItems(parts, ss) && EndsList(ts)
    ensures !Begins(Concat(parts) + ts, KwElse)
  {
    hide DerivesStm, Concat;
    if ss == [] {
      ConcatNothing();
      assert Concat(parts) + ts == ts;
    } else {
      FirstOfStm(DerivesStm(true, parts[0], ss[0]), parts[0], ss[0]);
      ConcatFirst(parts, ts);
    }
  }

  lemma ConcatNothing()
    ensures Concat([]) == []
  {
  }

  lemma NoMoreStms(ts: Tokens)
    requires EndsList(ts)
    ensures ReadStms(ts) == Some(ReadMany([], ts))
  {
    hide ReadStm;
  }

  lemma NextStm(first: Tokens, s: Stm, more: Tokens, ss: seq<Stm>, ts: Tokens)
    requires first != [] && BeginsStatement(first[0])
    requires ReadStm(first + more) == Some(ReadOne(s, more)) && ReadStms(more) == Some(ReadMany(ss, ts))
    ensures ReadStms(first + more) == Some(ReadMany([s] + ss, ts))
  {
    hide ReadStm;
    assert (first + more)[0] == first[0];
  }

  lemma CaseTaken(value: Tokens, e: Exp, toks: Tokens, body: seq<Stm>, rest: Tokens, cases: seq<SwitchCase>,
                  end: Tokens)
    requires Read(ASSIGNMENT, value) == Some(Parsed(e, [Colon] + toks)) && ReadStms(toks) == Some(ReadMany(body, rest))
    requires ReadCases(rest) == Some(ReadOfCases(cases, end))
    ensures ReadCases([Key(Case)] + value) == Some(ReadOfCases([SwitchCase(Some(e), body)] + cases, end))
  {
    hide Read, ReadStms;
    Cut(Colon, toks);
    Cut(Key(Case), value);
  }

  lemma DefaultTaken(toks: Tokens, body: seq<Stm>, rest: Tokens, cases: seq<SwitchCase>, end: Tokens)
    requires ReadStms(toks) == Some(ReadMany(body, rest)) && ReadCases(rest) == Some(ReadOfCases(cases, end))
    ensures ReadCases([Key(Default)] + ([Colon] + toks)) == Some(ReadOfCases([SwitchCase(None, body)] + cases, end))
  {
    hide Read, ReadStms;
    Cut(Colon, toks);
    Cut(Key(Default), [Colon] + toks);
  }

  lemma {:induction false} ReadsDerivedCases(us: Tokens, cases: seq<SwitchCase>, ts: Tokens)
    requires DerivesCases(us, cases) && Begins(ts, RBrace)
    ensures ReadCases(us + ts) == Some(ReadOfCases(cases, ts))
    decreases cases, 2
  {
    hide ReadCases, DerivesCase;
    var parts: seq<Tokens> :| |parts| == |cases| && us == Concat(parts)
      && forall i | 0 <= i < |cases| :: DerivesCase(parts[i], cases[i]);
    ReadsCaseItems(parts, cases, ts);
  }

  ghost predicate CaseItems(parts: seq<Tokens>, cases: seq<SwitchCase>) {
    |parts| == |cases| && forall i | 0 <= i < |cases| :: DerivesCase(parts[i], cases[i])
  }

  lemma {:induction false} ReadsCaseItems(parts: seq<Tokens>, cases: seq<SwitchCase>, ts: Tokens)
    requires CaseItems(parts, cases) && Begins(ts, RBrace)
    ensures ReadCases(Concat(parts) + ts) == Some(ReadOfCases(cases, ts))
    decreases cases, 1
  {
    hide ReadCases, DerivesCase;
    if cases == [] {
      assert Concat(parts) + ts == ts;
      NoMoreCases(ts);
    } else {
      ReadsCaseItems(parts[1..], cases[1..], ts);
      FirstOfCases(parts, cases, ts);
      ReadsCase(parts[0], cases, Concat(parts[1..]) + ts, ts);
      ConcatFirst(parts, ts);
    }
  }

  lemma NoMoreCases(ts: Tokens)
    requires Begins(ts, RBrace)
    ensures ReadCases(ts) == Some(ReadOfCases([], ts))
  {
    hide Read, ReadStms;
  }

  /** What follows the first case ends its statements. */
  lemma FirstOfCases(parts: seq<Tokens>, cases: seq<SwitchCase>, ts: Tokens)
    requires cases != [] && CaseItems(parts, cases) && Begins(ts, RBrace)
    ensures EndsList(Concat(parts[1..]) + ts)
  {
    hide Derives, DerivesStms;
    if |cases| > 1 {
      assert parts[1] != [] && (parts[1][0] == Key(Case) || parts[1][0] == Key(Default));
      assert Concat(parts[1..]) == parts[1] + Concat(parts[1..][1..]);
    } else {
      assert Concat(parts[1..]) + ts == ts;
    }
  }

  lemma {:induction false} ReadsCase(us: Tokens, cases: seq<SwitchCase>, more: Tokens, ts: Tokens)
    requires cases != [] && DerivesCase(us, cases[0]) && EndsList(more)
    requires ReadCases(more) == Some(ReadOfCases(cases[1..], ts))
    ensures ReadCases(us + more) == Some(ReadOfCases(cases, ts))
    decreases cases, 0
  {
    hide Read, ReadStms, ReadCases, Derives, DerivesStms;
    var c := cases[0];
    assert cases == [c] + cases[1..] && c == SwitchCase(c.value, c.body);
    if c.value.Some? {
      var x, y :| us == [Key(Case)] + x + [Colon] + y
        && Derives(AssignmentExp, x, c.value.value) && DerivesStms(y, c.body);
      ReadsDerivedStms(y, c.body, more);
      ReadsDerived(ASSIGNMENT, x, c.value.value, [Colon] + (y + more));
      CaseTaken(x + ([Colon] + (y + more)), c.value.value, y + more, c.body, more, cases[1..], ts);
      assert us + more == [Key(Case)] + (x + ([Colon] + (y + more)));
    } else {
      var y :| us == [Key(Default), Colon] + y && DerivesStms(y, c.body);
      ReadsDerivedStms(y, c.body, more);
      DefaultTaken(y + more, c.body, more, cases[1..], ts);
      assert us + more == [Key(Default)] + ([Colon] + (y + more));
    }
  }

  // ---------------------------------------------------------------- read, then derived: parts of statements

  lemma UnderstoodExpression(ts: Tokens) returns (us: Tokens)
    requires Read(ASSIGNMENT, ts).Some?
    ensures var p := Read(ASSIGNMENT, ts).value; ts == us + p.rest && Derives(AssignmentExp, us, p.e)
  {
    hide Read, Derives;
    Understood(ASSIGNMENT, ts);
    var p := Read(ASSIGNMENT, ts).value;
    us :| ts == us + p.rest && Derives(AssignmentExp, us, p.e);
  }

  lemma UnderstoodOptional(ts: Tokens, close: Token) returns (us: Tokens)
    requires ReadOptional(ts, close).Some?
    ensures var p := ReadOptional(ts, close).value; ts == us + [close] + p.rest && DerivesOptional(us, p.e)
  {
    hide Read, Derives;
    if Begins(ts, close) {
      us := [];
      assert ts == [] + [close] + ts[1..];
    } else {
      us := UnderstoodExpression(ts);
      var rest := Read(ASSIGNMENT, ts).value.rest;
      assert rest == [close] + rest[1..];
    }
  }

  lemma UnderstoodVariable(ts: Tokens) returns (us: Tokens)
    requires ReadVariable(ts).Some?
    ensures var p := ReadVariable(ts).value; ts == us + p.rest && DerivesVariable(us, p.vars[0])
  {
    hide Read, ReadList, Derives, DerivesList;
    var name := ts[0].name;
    if Begins(ts[1..], Asg(Equals)) {
      var x := UnderstoodExpression(ts[2..]);
      us := [Ident(name), Asg(Equals)] + x;
      assert ts == [ts[0], ts[1]] + ts[2..];
    } else if Begins(ts[1..], LBrace) {
      var list := UnderstoodList(ts[2..], RBrace);
      us := [Ident(name), LBrace] + list + [RBrace];
      assert ts == [ts[0], ts[1]] + ts[2..];
    } else {
      us := [ts[0]];
      assert ts == [ts[0]] + ts[1..];
    }
  }

  lemma {:induction false} UnderstoodVariableItems(ts: Tokens) returns (parts: seq<Tokens>)
    requires ReadVariables(ts).Some?
    ensures
      var p := ReadVariables(ts).value;
      p.vars != [] && VariableItems(parts, p.vars) && ts == Join(parts) + [Semi] + p.rest
    decreases |ts|
  {
    hide ReadVariable, DerivesVariable;
    var us := UnderstoodVariable(ts);
    var v := ReadVariable(ts).value;
    if Begins(v.rest, Comma) {
      var more := UnderstoodVariableItems(v.rest[1..]);
      var p := ReadVariables(v.rest[1..]).value;
      parts := [us] + more;
      assert parts[1..] == more && v.rest == [Comma] + v.rest[1..];
      assert ts == us + [Comma] + Join(more) + [Semi] + p.rest;
    } else {
      parts := [us];
      assert v.rest == [Semi] + v.rest[1..] && Join(parts) == us;
      assert ts == us + [Semi] + v.rest[1..];
    }
  }

  lemma UnderstoodGroup(ts: Tokens) returns (us: Tokens)
    requires ts != [] && ts[0].DataType? && ReadVariables(ts[1..]).Some?
    ensures
      var p := ReadVariables(ts[1..]).value; ts == us + [Semi] + p.rest && DerivesGroup(us, ts[0].name, p.vars)
  {
    hide ReadVariables, VariableItems;
    var parts := UnderstoodVariableItems(ts[1..]);
    var p := ReadVariables(ts[1..]).value;
    ItemsAreVariables(parts, p.vars);
    us := [ts[0]] + Join(parts);
    assert ts == [ts[0]] + ts[1..];
    assert ts == us + [Semi] + p.rest;
  }

  lemma ItemsAreVariables(parts: seq<Tokens>, vars: seq<Variable>)
    requires vars != [] && VariableItems(parts, vars)
    ensures DerivesVariables(Join(parts), vars)
  {
    hide DerivesVariable;
  }

  lemma UnderstoodHeader(ts: Tokens) returns (us: Tokens)
    requires ReadHeader(ts).Some?
    ensures var p := ReadHeader(ts).value; ts == us + [Semi] + p.rest && DerivesHeader(us, p.ss)
  {
    hide ReadVariables, ReadList, DerivesGroup, DerivesList;
    if ts != [] && ts[0].DataType? {
      us := UnderstoodGroup(ts);
    } else {
      us := UnderstoodList(ts, Semi);
    }
  }

  // ---------------------------------------------------------------- read, then derived: statements

  /** What was read is what the grammar derives; if it is open, no else follows it. */
  lemma {:induction false} UnderstoodStm(ts: Tokens) returns (open: bool, us: Tokens)
    requires ReadStm(ts).Some?
    ensures
      var p := ReadStm(ts).value;
      ts == us + p.rest && DerivesStm(open, us, p.s) && (open ==> !Begins(p.rest, KwElse))
    decreases |ts|, 3
  {
    hide Read, ReadKeyword, ReadVariables, Simple, Loops, Whiles, Does, Switches, Fors, Ifs, IfElses;
    if ts[0].Key? {
      open, us := UnderstoodKeyword(ts[0].key, ts);
    } else {
      open := false;
      us := UnderstoodSimple(ts);
    }
  }

  lemma UnderstoodSimple(ts: Tokens) returns (us: Tokens)
    requires ReadStm(ts).Some? && !ts[0].Key?
    ensures var p := ReadStm(ts).value; ts == us + p.rest && DerivesStm(false, us, p.s)
  {
    hide Read, ReadKeyword, ReadVariables, Derives, DerivesGroup;
    if ts[0].DataType? {
      var x := UnderstoodGroup(ts);
      us := x + [Semi];
    } else if ts[0].Ident? && Begins(ts[1..], Colon) {
      us := [ts[0], ts[1]];
      assert ts == us + ts[2..];
    } else if CallOfDestructor <= ts {
      us := CallOfDestructor;
      assert ts == us + ts[5..];
    } else {
      us := UnderstoodOfExpression(ts);
    }
  }

  lemma UnderstoodOfExpression(ts: Tokens) returns (us: Tokens)
    requires ReadStm(ts).Some? && !ts[0].Key? && !ts[0].DataType? && !(ts[0].Ident? && Begins(ts[1..], Colon))
    requires !(CallOfDestructor <= ts)
    ensures var p := ReadStm(ts).value; ts == us + p.rest && DerivesStm(false, us, p.s)
  {
    hide Read, ReadKeyword, ReadVariables, Derives, IsVariable;
    var x := UnderstoodExpression(ts);
    var e := Read(ASSIGNMENT, ts).value;
    if [Dot] + CallOfDestructor <= e.rest && IsVariable(e.e) {
      Inner(ASSIGNMENT, x, e.e);
      us := x + [Dot, Tilde, KwThis, LParen, RParen, Semi];
      assert e.rest == [Dot] + CallOfDestructor + e.rest[6..];
      assert ts == us + e.rest[6..];
    } else {
      us := x + [Semi];
      assert e.rest == [Semi] + e.rest[1..];
      assert ts == us + e.rest[1..];
    }
  }

  lemma {:induction false} UnderstoodKeyword(key: Keyword, ts: Tokens) returns (open: bool, us: Tokens)
    requires ts != [] && ts[0] == Key(key) && ReadKeyword(key, ts).Some?
    ensures
      var p := ReadKeyword(key, ts).value;
      ts == us + p.rest && DerivesStm(open, us, p.s) && (open ==> !Begins(p.rest, KwElse))
    decreases |ts|, 2
  {
    hide ReadDelete, ReadDo, ReadSwitch, ReadFor, ReadIf, ReadBody, ReadOptional, DerivesStm;
    open := false;
    if key == Goto || key == Return || BranchOf(ts[0]).Some? { us := UnderstoodJump(key, ts); }
    else if key == Delete { us := UnderstoodDelete(ts); }
    else if key == Loop { open, us := UnderstoodLoop(ts); }
    else if key == Do { us := UnderstoodDo(ts); }
    else if key == While || key == Until { open, us := UnderstoodWhile(key, ts); }
    else if key == Switch { us := UnderstoodSwitch(ts); }
    else if key == For { open, us := UnderstoodFor(ts); }
    else { open, us := UnderstoodIf(ts); }
  }

  lemma UnderstoodJump(key: Keyword, ts: Tokens) returns (us: Tokens)
    requires ts != [] && ts[0] == Key(key) && ReadKeyword(key, ts).Some?
    requires key == Goto || key == Return || BranchOf(ts[0]).Some?
    ensures var p := ReadKeyword(key, ts).value; ts == us + p.rest && DerivesStm(false, us, p.s)
  {
    hide ReadDelete, ReadDo, ReadSwitch, ReadFor, ReadIf, ReadBody, ReadOptional, DerivesOptional;
    if key == Goto {
      us := ts[..3];
      assert ts == us + ts[3..];
    } else {
      var x := UnderstoodOptional(ts[1..], Semi);
      var p := ReadOptional(ts[1..], Semi).value;
      us := [ts[0]] + x + [Semi];
      assert ts == [ts[0]] + ts[1..];
      assert ts == us + p.rest;
      if key != Return { BranchesAre(key, BranchOf(ts[0]).value); }
    }
  }

  lemma UnderstoodPrimaryOf(ts: Tokens) returns (us: Tokens)
    requires ReadPrimary(ts).Some? && IsVariable(ReadPrimary(ts).value.e)
    ensures var p := ReadPrimary(ts).value; ts == us + p.rest && Derives(VariableExp, us, p.e)
  {
    hide ReadPrimary, Derives, IsVariable;
    UnderstoodPrimary(ts);
    var p := ReadPrimary(ts).value;
    us :| ts == us + p.rest && Derives(OfLevel(PRIMARY), us, p.e);
    Inner(PRIMARY, us, p.e);
  }

  lemma ManyGlued(ts: Tokens, n: Tokens, rest0: Tokens, x: Tokens, rest: Tokens)
    requires |ts| >= 2 && ts[2..] == n + rest0 && rest0 != [] && rest0[1..] == x + rest && rest != []
    ensures ts == [ts[0], ts[1]] + n + [rest0[0]] + x + [rest[0]] + rest[1..]
  {
    assert ts == [ts[0], ts[1]] + ts[2..] && rest0 == [rest0[0]] + rest0[1..] && rest == [rest[0]] + rest[1..];
  }

  lemma UnderstoodDelete(ts: Tokens) returns (us: Tokens)
    requires ts != [] && ts[0] == Key(Delete) && ReadDelete(ts).Some?
    ensures var p := ReadDelete(ts).value; ts == us + p.rest && DerivesStm(false, us, p.s)
  {
    hide Read, ReadPrimary, Derives, IsVariable;
    if Begins(ts[1..], LBracket) {
      var n := UnderstoodExpression(ts[2..]);
      var size := Read(ASSIGNMENT, ts[2..]).value;
      var x := UnderstoodPrimaryOf(size.rest[1..]);
      var v := ReadPrimary(size.rest[1..]).value;
      us := [Key(Delete), LBracket] + n + [RBracket] + x + [Semi];
      ManyGlued(ts, n, size.rest, x, v.rest);
    } else {
      var x := UnderstoodPrimaryOf(ts[1..]);
      var v := ReadPrimary(ts[1..]).value;
      us := [Key(Delete)] + x + [Semi];
      assert ts == [ts[0]] + ts[1..] && v.rest == [Semi] + v.rest[1..];
      assert ts == us + v.rest[1..];
    }
  }

  lemma {:induction false} UnderstoodLoop(ts: Tokens) returns (open: bool, us: Tokens)
    requires ts != [] && ts[0] == Key(Loop) && ReadBody(ts[1..]).Some?
    ensures
      var p := ReadBody(ts[1..]).value;
      ts == us + p.rest && DerivesStm(open, us, LoopStm(p.ss)) && (open ==> !Begins(p.rest, KwElse))
    decreases |ts|, 1
  {
    hide ReadBody, DerivesBody;
    var b;
    open, b := UnderstoodBody(ts[1..]);
    us := [ts[0]] + b;
    assert Loops(open, us, LoopStm(ReadBody(ts[1..]).value.ss));
    assert ts == [ts[0]] + ts[1..];
  }

  lemma {:induction false} UnderstoodWhile(key: Keyword, ts: Tokens) returns (open: bool, us: Tokens)
    requires ts != [] && ts[0] == Key(key) && (key == While || key == Until) && ReadKeyword(key, ts).Some?
    ensures
      var p := ReadKeyword(key, ts).value;
      ts == us + p.rest && DerivesStm(open, us, p.s) && (open ==> !Begins(p.rest, KwElse))
    decreases |ts|, 1
  {
    hide ReadBody, ReadOptional, ReadDelete, ReadDo, ReadSwitch, ReadFor, ReadIf, DerivesBody, DerivesOptional;
    var c := UnderstoodOptional(ts[2..], RParen);
    var cond := ReadOptional(ts[2..], RParen).value;
    var b;
    open, b := UnderstoodBody(cond.rest);
    us := [ts[0], LParen] + c + [RParen] + b;
    WhileGlued(ts, c, b, ReadBody(cond.rest).value.rest);
    assert Whiles(open, us, WhileStm(cond.e, ReadBody(cond.rest).value.ss, false, key == Until));
  }

  lemma WhileGlued(ts: Tokens, c: Tokens, b: Tokens, rest: Tokens)
    requires |ts| >= 2 && ts[1] == LParen && ts[2..] == c + [RParen] + (b + rest)
    ensures ts == [ts[0], LParen] + c + [RParen] + b + rest
  {
    assert ts == [ts[0], ts[1]] + ts[2..];
  }

  lemma {:induction false} UnderstoodDo(ts: Tokens) returns (us: Tokens)
    requires ts != [] && ts[0] == Key(Do) && ReadDo(ts).Some?
    ensures var p := ReadDo(ts).value; ts == us + p.rest && DerivesStm(false, us, p.s)
    decreases |ts|, 1
  {
    hide ReadBody, ReadOptional, DerivesBody, DerivesOptional;
    var inner, b := UnderstoodBody(ts[1..]);
    var body := ReadBody(ts[1..]).value;
    var c := UnderstoodOptional(body.rest[2..], RParen);
    var cond := ReadOptional(body.rest[2..], RParen).value;
    var until := body.rest[0] == Key(Until);
    var word := Key(if until then Until else While);
    us := [Key(Do)] + b + [word, LParen] + c + [RParen, Semi];
    assert body.rest == [word, LParen] + body.rest[2..] && cond.rest == [Semi] + cond.rest[1..];
    DoGlued(ts, b, body.rest, word, c, cond.rest);
    assert Does(us, WhileStm(cond.e, body.ss, true, until));
  }

  lemma DoGlued(ts: Tokens, b: Tokens, rest0: Tokens, word: Token, c: Tokens, rest: Tokens)
    requires ts != [] && ts[0] == Key(Do) && ts[1..] == b + rest0 && |rest0| >= 2
    requires rest0 == [word, LParen] + rest0[2..] && rest0[2..] == c + [RParen] + rest
    requires rest != [] && rest[0] == Semi
    ensures ts == [Key(Do)] + b + [word, LParen] + c + [RParen, Semi] + rest[1..]
  {
    assert rest == [Semi] + rest[1..];
    assert ts == [Key(Do)] + (b + ([word, LParen] + (c + [RParen] + ([Semi] + rest[1..]))));
  }

  lemma {:induction false} UnderstoodSwitch(ts: Tokens) returns (us: Tokens)
    requires ts != [] && ts[0] == Key(Switch) && ReadSwitch(ts).Some?
    ensures var p := ReadSwitch(ts).value; ts == us + p.rest && DerivesStm(false, us, p.s)
    decreases |ts|, 1
  {
    hide Read, ReadCases, Derives, DerivesCases;
    var x := UnderstoodExpression(ts[2..]);
    var subject := Read(ASSIGNMENT, ts[2..]).value;
    var brace := subject.rest[2..];
    assert subject.rest[1..][1..] == brace;
    var y := UnderstoodCases(brace);
    var cases := ReadCases(brace).value;
    us := [Key(Switch), LParen] + x + [RParen, LBrace] + y + [RBrace];
    SwitchGlued(ts, x, subject.rest, y, cases.rest);
    assert Switches(us, SwitchStm(subject.e, cases.cases));
  }

  lemma SwitchGlued(ts: Tokens, x: Tokens, rest0: Tokens, y: Tokens, rest: Tokens)
    requires |ts| >= 2 && ts[0] == Key(Switch) && ts[1] == LParen && ts[2..] == x + rest0
    requires |rest0| >= 2 && rest0[0] == RParen && rest0[1] == LBrace && rest0[2..] == y + rest
    requires rest != [] && rest[0] == RBrace
    ensures ts == [Key(Switch), LParen] + x + [RParen, LBrace] + y + [RBrace] + rest[1..]
  {
    assert ts == [Key(Switch), LParen] + ts[2..];
    assert rest0 == [RParen, LBrace] + rest0[2..] && rest == [RBrace] + rest[1..];
  }

  lemma {:induction false} UnderstoodFor(ts: Tokens) returns (open: bool, us: Tokens)
    requires ts != [] && ts[0] == Key(For) && ReadFor(ts).Some?
    ensures
      var p := ReadFor(ts).value;
      ts == us + p.rest && DerivesStm(open, us, p.s) && (open ==> !Begins(p.rest, KwElse))
    decreases |ts|, 1
  {
    hide ReadHeader, ReadOptional, ReadList, ReadBody, DerivesHeader, DerivesOptional, DerivesList, DerivesBody;
    var a := UnderstoodHeader(ts[2..]);
    var pre := ReadHeader(ts[2..]).value;
    var c := UnderstoodOptional(pre.rest, Semi);
    var cond := ReadOptional(pre.rest, Semi).value;
    var p := UnderstoodList(cond.rest, RParen);
    var post := ReadList(cond.rest, RParen).value;
    var b;
    open, b := UnderstoodBody(post.rest);
    var body := ReadBody(post.rest).value;
    us := [Key(For), LParen] + a + [Semi] + c + [Semi] + p + [RParen] + b;
    assert ts == [Key(For), LParen] + ts[2..];
    ForGlued(a, c, p, b, body.rest);
    assert Fors(open, us, ForStm(pre.ss, cond.e, post.es, body.ss));
  }

  lemma IfOpened(ts: Tokens, x: Tokens, rest0: Tokens, b: Tokens, rest: Tokens)
    requires |ts| >= 2 && ts[0] == Key(If) && ts[1] == LParen && ts[2..] == x + rest0
    requires rest0 != [] && rest0[0] == RParen && rest0[1..] == b + rest
    ensures ts == [Key(If), LParen] + x + [RParen] + b + rest
  {
    assert ts == [ts[0], ts[1]] + ts[2..] && rest0 == [rest0[0]] + rest0[1..];
  }

  lemma ElseOpened(first: Tokens, rest0: Tokens, d: Tokens, rest: Tokens)
    requires rest0 != [] && rest0[0] == KwElse && rest0[1..] == d + rest
    ensures first + rest0 == first + [KwElse] + d + rest
  {
    assert rest0 == [rest0[0]] + rest0[1..];
  }

  /** The nearest `if` takes the else, so that what is open has none after it. */
  lemma {:induction false} UnderstoodIf(ts: Tokens) returns (open: bool, us: Tokens)
    requires ts != [] && ts[0] == Key(If) && ReadIf(ts).Some?
    ensures
      var p := ReadIf(ts).value;
      ts == us + p.rest && DerivesStm(open, us, p.s) && (open ==> !Begins(p.rest, KwElse))
    decreases |ts|, 1
  {
    hide Read, ReadBody, Derives, DerivesBody;
    var x := UnderstoodExpression(ts[2..]);
    var test := Read(ASSIGNMENT, ts[2..]).value;
    var inner, b := UnderstoodBody(test.rest[1..]);
    var body := ReadBody(test.rest[1..]).value;
    IfOpened(ts, x, test.rest, b, body.rest);
    if Begins(body.rest, KwElse) {
      var d;
      open, d := UnderstoodBody(body.rest[1..]);
      var other := ReadBody(body.rest[1..]).value;
      us := [Key(If), LParen] + x + [RParen] + b + [KwElse] + d;
      ElseOpened([Key(If), LParen] + x + [RParen] + b, body.rest, d, other.rest);
      assert IfElses(open, us, IfStm(test.e, body.ss, ElseBody.Else(other.ss)));
    } else {
      open := true;
      us := [Key(If), LParen] + x + [RParen] + b;
      assert Ifs(us, IfStm(test.e, body.ss, NoElse));
    }
  }

  lemma {:induction false} UnderstoodBody(ts: Tokens) returns (open: bool, us: Tokens)
    requires ReadBody(ts).Some?
    ensures
      var p := ReadBody(ts).value;
      ts == us + p.rest && DerivesBody(open, us, p.ss) && (open ==> !Begins(p.rest, KwElse))
    decreases |ts|, 5
  {
    hide ReadStm, ReadStms, DerivesStm, DerivesStms;
    open := false;
    if Begins(ts, LBrace) {
      var x := UnderstoodStms(ts[1..]);
      var ss := ReadStms(ts[1..]).value;
      us := [LBrace] + x + [RBrace];
      assert ts == [LBrace] + ts[1..] && ss.rest == [RBrace] + ss.rest[1..];
      assert ts == us + ss.rest[1..];
    } else if Begins(ts, Semi) {
      us := [Semi];
      assert ts == us + ts[1..];
    } else {
      open, us := UnderstoodStm(ts);
    }
  }

  lemma {:induction false} UnderstoodStms(ts: Tokens) returns (us: Tokens)
    requires ReadStms(ts).Some?
    ensures var p := ReadStms(ts).value; ts == us + p.rest && DerivesStms(us, p.ss)
    decreases |ts|, 4, 1
  {
    hide ReadStms, DerivesStm;
    var parts := UnderstoodStmItems(ts);
    us := Concat(parts);
  }

  lemma {:induction false} UnderstoodStmItems(ts: Tokens) returns (parts: seq<Tokens>)
    requires ReadStms(ts).Some?
    ensures var p := ReadStms(ts).value; ts == Concat(parts) + p.rest && StmItems(parts, p.ss)
    decreases |ts|, 4, 0
  {
    hide ReadStm, DerivesStm;
    if EndsList(ts) {
      parts := [];
      assert ts == [] + ts;
    } else {
      var open, us := UnderstoodStm(ts);
      var s := ReadStm(ts).value;
      var more := UnderstoodStmItems(s.rest);
      parts := [us] + more;
      assert parts[1..] == more;
      ConcatFirst(parts, ReadStms(s.rest).value.rest);
    }
  }

  lemma {:induction false} UnderstoodCases(ts: Tokens) returns (us: Tokens)
    requires ReadCases(ts).Some?
    ensures var p := ReadCases(ts).value; ts == us + p.rest && DerivesCases(us, p.cases)
    decreases |ts|, 4, 2
  {
    hide ReadCases, DerivesCase;
    var parts := UnderstoodCaseItems(ts);
    us := Concat(parts);
  }

  lemma {:induction false} UnderstoodCaseItems(ts: Tokens) returns (parts: seq<Tokens>)
    requires ReadCases(ts).Some?
    ensures var p := ReadCases(ts).value; ts == Concat(parts) + p.rest && CaseItems(parts, p.cases)
    decreases |ts|, 4, 1
  {
    hide Read, ReadStms, DerivesCase;
    if Begins(ts, Key(Case)) || Begins(ts, Key(Default)) {
      var us, rest := UnderstoodCase(ts);
      var more := UnderstoodCaseItems(rest);
      parts := [us] + more;
      assert parts[1..] == more;
      ConcatFirst(parts, ReadCases(rest).value.rest);
    } else {
      parts := [];
      assert ts == [] + ts;
    }
  }

  lemma {:induction false} UnderstoodCase(ts: Tokens) returns (us: Tokens, rest: Tokens)
    requires ReadCases(ts).Some? && (Begins(ts, Key(Case)) || Begins(ts, Key(Default)))
    ensures ts == us + rest && |rest| < |ts| && ReadCases(rest).Some?
    ensures
      var p, q := ReadCases(ts).value, ReadCases(rest).value;
      p.cases != [] && p.cases[1..] == q.cases && p.rest == q.rest && DerivesCase(us, p.cases[0])
    decreases |ts|, 4, 0
  {
    hide Read, ReadStms, Derives, DerivesStms;
    if Begins(ts, Key(Case)) {
      var x := UnderstoodExpression(ts[1..]);
      var value := Read(ASSIGNMENT, ts[1..]).value;
      var y := UnderstoodStms(value.rest[1..]);
      rest := ReadStms(value.rest[1..]).value.rest;
      us := [Key(Case)] + x + [Colon] + y;
      assert ts == [Key(Case)] + ts[1..] && value.rest == [Colon] + value.rest[1..];
      assert ts == us + rest;
    } else {
      var y := UnderstoodStms(ts[2..]);
      rest := ReadStms(ts[2..]).value.rest;
      us := [Key(Default), Colon] + y;
      assert ts == [Key(Default), Colon] + ts[2..];
      assert ts == us + rest;
    }
  }
}
