/**
 Printing and reading expressions are inverse to each other.

 What is printed reads back as the same tree, with the same tokens left over.  What was read is a tree of
 the grammar, and it is printed as the tokens that were read, but for a comma that begins a list: the
 grammar takes `f(, a)` for `f(a)`.
 */
module ExpressionRoundTrip {
  import opened Options
  import opened FormatTree
  import opened FormatExpression
  import opened Reader
  import opened Grammar
  import opened Derivations
  import opened Readings

  // ---------------------------------------------------------------- printed, then read

  /** The grammar derives the printing of its trees. */
  lemma {:induction false} Printed(level: nat, e: Exp)
    requires level <= VARIABLE && Grammatical(e) && Level(e) >= level
    ensures Derives(OfLevel(level), Print(e), e)
    decreases e, 20 - level
  {
    hide Derives, Own, Print, Grammatical;
    Rule(level, Print(e), e);
    if Level(e) > level {
      Printed(level + 1, e);
    } else if level == VARIABLE {
      PrintedVariable(e);
    } else {
      PrintedOwn(level, e);
    }
  }

  lemma {:induction false} PrintedOwn(level: nat, e: Exp)
    requires level < VARIABLE && Grammatical(e) && Level(e) == level
    ensures Own(level, Print(e), e)
    decreases e, 0
  {
    hide Derives, DerivesList, PrintList, OfLevel, BinLevel;
    match e
    case Const(_) =>
    case Increment(_, v, _) =>
      Printed(VARIABLE, v);
      StepsOf(e, Print(v));
    case Unary(op, inner) =>
      Printed(PRIMARY, inner);
      SignsOf(e, Print(inner));
    case NullCoalescing(l, r) =>
      Printed(UNARY, l);
      Printed(UNARY, r);
      CoalescesOf(e, Print(l), Print(r));
    case Binary(_, l, r) =>
      Printed(level, l);
      Printed(level + 1, r);
      assert Operates(OfLevel(level), OfLevel(level + 1), Print(l) + [Oper(e.bop)] + Print(r), e);
    case New(_) =>
    case NewWith(_, args) => PrintedList(args);
    case Ternary(c, yes, no) =>
      Printed(NEW, c);
      Printed(NEW, yes);
      Printed(NEW, no);
      ChoosesOf(e, Print(c), Print(yes), Print(no));
    case Assignment(op, v, rhs) =>
      Printed(VARIABLE, v);
      Printed(ASSIGNMENT, rhs);
      AssignsOf(e, Print(v), Print(rhs));
  }

  lemma StepsOf(e: Exp, v: Tokens)
    requires e.Increment? && Derives(OfLevel(VARIABLE), v, e.v)
    ensures Steps(if e.postfix then v + [Step(e.inc)] else [Step(e.inc)] + v, e)
  {
    hide Derives;
  }

  lemma SignsOf(e: Exp, inner: Tokens)
    requires e.Unary? && Derives(OfLevel(PRIMARY), inner, e.e)
    ensures Signs([UnaryToken(e.uop)] + inner, e)
  {
    hide Derives, UnaryToken;
    SignsAre(UnaryToken(e.uop), e.uop);
  }

  lemma CoalescesOf(e: Exp, l: Tokens, r: Tokens)
    requires e.NullCoalescing? && Derives(OfLevel(UNARY), l, e.l) && Derives(OfLevel(UNARY), r, e.r)
    ensures Coalesces(l + [DoubleQuery] + r, e)
  {
    hide Derives;
  }

  lemma ChoosesOf(e: Exp, c: Tokens, yes: Tokens, no: Tokens)
    requires e.Ternary? && Derives(OfLevel(NEW), c, e.c) && Derives(OfLevel(NEW), yes, e.yes)
      && Derives(OfLevel(NEW), no, e.no)
    ensures Chooses(c + [Query] + yes + [Colon] + no, e)
  {
    hide Derives;
  }

  lemma AssignsOf(e: Exp, v: Tokens, rhs: Tokens)
    requires e.Assignment? && Derives(OfLevel(VARIABLE), v, e.v) && Derives(OfLevel(ASSIGNMENT), rhs, e.rhs)
    ensures Assigns(v + [Asg(PrintAsg(e.aop))] + rhs, e)
  {
    hide Derives, PrintAsg;
    AssignmentsAre(PrintAsg(e.aop), e.aop);
  }

  lemma {:induction false} PrintedVariable(e: Exp)
    requires Grammatical(e) && IsVariable(e)
    ensures Own(VARIABLE, Print(e), e)
    decreases e, 0
  {
    hide Derives, DerivesList, PrintList, BinLevel;
    if e.Base? || e.This? || (e.Arrow? && e.v.Const?) {
      assert Stands(Print(e), e);
    } else if e.Paren? {
      Printed(ASSIGNMENT, e.e);
      assert Stands(Print(e), e);
    } else if e.FunctionCall? {
      PrintedList(e.args);
      assert Stands(Print(e), e);
    } else {
      Printed(VARIABLE, e.v);
      PrintedSuffix(e);
      assert Print(e) == Print(e.v) + Suffix(e);
      GoesOf(e, Print(e.v), Suffix(e));
    }
  }

  lemma GoesOf(e: Exp, v: Tokens, suffix: Tokens)
    requires e.Index? || e.Member? || e.MemberCall? || e.Dereference? || e.AddressOf? || e.Arrow?
    requires Derives(OfLevel(VARIABLE), v, e.v) && Follows(suffix, e)
    ensures Goes(v + suffix, e)
  {
    hide Derives, Follows;
  }

  /** The printing of what follows the stem of a variable. */
  function Suffix(v: Exp): Tokens
    requires v.Index? || v.Member? || v.MemberCall? || v.Dereference? || v.AddressOf? || v.Arrow?
  {
    match v
    case Index(_, i) => [LBracket] + Print(i) + [RBracket]
    case Member(_, name) => [Dot, Ident(name)]
    case MemberCall(_, name, args) => [Dot, Ident(name), LParen] + PrintList(args) + [RParen]
    case Dereference(_) => [At]
    case AddressOf(_) => [Dollar]
    case Arrow(_, name) => [ArrowTo, Ident(name)]
  }

  lemma {:induction false} PrintedSuffix(e: Exp)
    requires e.Index? || e.Member? || e.MemberCall? || e.Dereference? || e.AddressOf? || e.Arrow?
    requires Grammatical(e)
    ensures Follows(Suffix(e), e)
    decreases e, 0, 0
  {
    hide Derives, DerivesList, Print, PrintList, BinLevel;
    if e.Index? {
      Printed(ASSIGNMENT, e.index);
    } else if e.MemberCall? {
      PrintedList(e.args);
    }
  }

  lemma {:induction false} PrintedList(es: seq<Exp>)
    requires AllGrammatical(es)
    ensures DerivesList(PrintList(es), es)
    decreases es
  {
    hide Derives, Grammatical, Print;
    var parts := seq(|es|, i requires 0 <= i < |es| => Print(es[i]));
    forall i | 0 <= i < |es| { Printed(ASSIGNMENT, es[i]); }
    PrintedParts(es);
    PartsList(parts, es, false);
    assert Leading(false) + Join(parts) == Join(parts);
  }

  lemma {:induction false} PrintedParts(es: seq<Exp>)
    ensures PrintList(es) == Join(seq(|es|, i requires 0 <= i < |es| => Print(es[i])))
  {
    hide Print;
    if |es| > 1 {
      PrintedParts(es[1..]);
      var parts := seq(|es|, i requires 0 <= i < |es| => Print(es[i]));
      assert parts[1..] == seq(|es[1..]|, i requires 0 <= i < |es[1..]| => Print(es[1..][i]));
    }
  }

  /** Every expression of the grammar is read back, with what follows it left over. */
  lemma ReadsBack(level: nat, e: Exp, ts: Tokens)
    requires level <= PRIMARY && Grammatical(e) && Level(e) >= level && EndsBefore(level, ts)
    ensures Read(level, Print(e) + ts) == Some(Parsed(e, ts))
  {
    hide Derives, Print, Grammatical, Read, EndsBefore;
    Printed(level, e);
    ReadsDerived(level, Print(e), e, ts);
  }

  // ---------------------------------------------------------------- what is read is a tree of the grammar

  lemma ReadIsGrammatical(level: nat, ts: Tokens)
    requires level <= PRIMARY && Read(level, ts).Some?
    ensures Grammatical(Read(level, ts).value.e) && Level(Read(level, ts).value.e) >= level
  {
    hide Derives, Read, Grammatical;
    Understood(level, ts);
    var p := Read(level, ts).value;
    var us :| ts == us + p.rest && Derives(OfLevel(level), us, p.e);
    Shape(level, us, p.e);
  }

  // ---------------------------------------------------------------- read, then printed

  predicate Opens(t: Token) {
    t == LParen || t == LBrace
  }

  /** The tokens without the commas that directly follow an opening parenthesis or brace. */
  function Tidy(ts: Tokens): (us: Tokens)
    ensures |us| <= |ts|
  {
    if ts == [] then []
    else
      var last := |ts| - 1;
      Tidy(ts[..last]) + (if ts[last] == Comma && last > 0 && Opens(ts[last - 1]) then [] else [ts[last]])
  }

  lemma {:induction false} TidyExactly(ts: Tokens)
    ensures Tidy(ts) == ts <==> forall i | 0 < i < |ts| && Opens(ts[i - 1]) :: ts[i] != Comma
  {
    if ts != [] {
      var last := |ts| - 1;
      var init := ts[..last];
      TidyExactly(init);
      assert ts == init + [ts[last]];
      if Tidy(ts) == ts {
        assert |Tidy(init)| == |init|;
        assert Tidy(ts)[..last] == Tidy(init);
      }
      assert forall i | 0 <= i < last :: init[i] == ts[i];
    }
  }

  lemma TidyLast(ts: Tokens, t: Token)
    ensures Tidy(ts + [t]) == Tidy(ts) + (if t == Comma && ts != [] && Opens(ts[|ts| - 1]) then [] else [t])
  {
    assert (ts + [t])[..|ts|] == ts;
  }

  lemma {:induction false} TidyJoin(a: Tokens, b: Tokens)
    requires b == [] || b[0] != Comma || a == [] || !Opens(a[|a| - 1])
    ensures Tidy(a + b) == Tidy(a) + Tidy(b)
    decreases |b|
  {
    hide Tidy, Opens;
    TidyNothing();
    if b == [] {
      assert a + b == a;
    } else {
      var init, t := b[..|b| - 1], b[|b| - 1];
      TidyJoin(a, init);
      TidyLast(a + init, t);
      TidyLast(init, t);
      assert a + b == (a + init) + [t] && b == init + [t];
      if init == [] {
        assert a + init == a && t == b[0];
      } else {
        assert (a + init)[|a + init| - 1] == init[|init| - 1];
      }
    }
  }

  lemma TidyNothing()
    ensures Tidy([]) == []
  {
  }

  lemma TidyOne(t: Token)
    ensures Tidy([t]) == [t]
  {
  }

  /** Tokens that end an expression, and end no brackets that open. */
  predicate Ends(us: Tokens) {
    us != [] && !Opens(us[|us| - 1])
  }

  /** An operator between two expressions. */
  lemma TidyBetween(a: Tokens, t: Token, b: Tokens)
    requires t != Comma || Ends(a)
    requires Ends(b) && b[0] != Comma
    ensures Tidy(a + [t] + b) == Tidy(a) + [t] + Tidy(b)
    ensures Ends(a + [t] + b)
  {
    hide Tidy;
    TidyJoin(a, [t]);
    TidyJoin(a + [t], b);
    TidyOne(t);
  }

  /** Brackets around a list or an expression. */
  lemma TidyClosed(a: Tokens, open: Token, inner: Tokens, close: Token)
    requires open != Comma && close != Comma
    ensures Tidy(a + [open] + inner + [close]) == Tidy(a) + Tidy([open] + inner) + [close]
    ensures Opens(close) || Ends(a + [open] + inner + [close])
  {
    TidyJoin(a, [open] + inner);
    assert a + ([open] + inner) == a + [open] + inner;
    TidyJoin(a + [open] + inner, [close]);
    TidyOne(close);
  }

  /** What is derived is printed without the commas that begin its lists. */
  lemma {:induction false} Tidied(level: nat, us: Tokens, e: Exp)
    requires level <= VARIABLE && Derives(OfLevel(level), us, e)
    ensures Tidy(us) == Print(e) && Ends(us) && us[0] != Comma
    decreases e, 20 - level
  {
    hide Derives, Print, Tidy, Assigns, Chooses, Makes, Operates, Coalesces, Steps, Signs, Stands, Goes;
    First(level, us, e);
    Rule(level, us, e);
    if Own(level, us, e) {
      if level == VARIABLE { TidiedVariable(us, e); } else { TidiedOwn(level, us, e); }
    } else {
      Tidied(level + 1, us, e);
    }
  }

  lemma {:induction false} TidiedOwn(level: nat, us: Tokens, e: Exp)
    requires level < VARIABLE && Own(level, us, e)
    ensures Tidy(us) == Print(e) && Ends(us)
    decreases e, 0
  {
    hide Derives, DerivesList, Tidy, BinLevel, Operates;
    if level == ASSIGNMENT {
      TidiedAssignment(us, e);
    } else if level == TERNARY {
      TidiedTernary(us, e);
    } else if level == NEW {
      TidiedNew(us, e);
    } else if level <= LAST_BINARY {
      TidiedBinary(level, us, e);
    } else if level == COALESCING {
      TidiedCoalescing(us, e);
    } else if level == UNARY {
      TidiedUnary(us, e);
    } else {
      TidyOne(us[0]);
    }
  }

  lemma {:induction false} TidiedBinary(level: nat, us: Tokens, e: Exp)
    requires FIRST_BINARY <= level <= LAST_BINARY && e.Binary?
    requires Operates(OfLevel(level), OfLevel(level + 1), us, e)
    ensures Tidy(us) == Print(e) && Ends(us)
    decreases e, 0, 0
  {
    hide Derives, Tidy, BinLevel, OfLevel, Ends, Operates;
    var l, r := BinaryParts(OfLevel(level), OfLevel(level + 1), us, e);
    Tidied(level, l, e.l);
    Tidied(level + 1, r, e.r);
    TidyBetween(l, Oper(e.bop), r);
  }

  lemma {:induction false} TidiedCoalescing(us: Tokens, e: Exp)
    requires e.NullCoalescing? && Coalesces(us, e)
    ensures Tidy(us) == Print(e) && Ends(us)
    decreases e, 0, 0
  {
    hide Derives, Tidy, Ends, Coalesces;
    var l, r := CoalescingParts(us, e);
    Tidied(UNARY, l, e.l);
    Tidied(UNARY, r, e.r);
    TidyBetween(l, DoubleQuery, r);
  }

  lemma {:induction false} TidiedAssignment(us: Tokens, e: Exp)
    requires e.Assignment? && Assigns(us, e)
    ensures Tidy(us) == Print(e) && Ends(us)
    decreases e, 0, 0
  {
    hide Derives, Tidy, PrintAsg, Ends, Assigns;
    var v, sign, rhs := AssignmentParts(us, e);
    AssignmentsAre(sign, e.aop);
    Tidied(VARIABLE, v, e.v);
    Tidied(ASSIGNMENT, rhs, e.rhs);
    TidyBetween(v, Asg(sign), rhs);
  }

  lemma {:induction false} TidiedTernary(us: Tokens, e: Exp)
    requires e.Ternary? && Chooses(us, e)
    ensures Tidy(us) == Print(e) && Ends(us)
    decreases e, 0, 0
  {
    hide Derives, Tidy, Ends, Chooses;
    var c, yes, no := TernaryParts(us, e);
    Tidied(NEW, c, e.c);
    Tidied(NEW, yes, e.yes);
    Tidied(NEW, no, e.no);
    TidyBetween(c, Query, yes);
    TidyBetween(c + [Query] + yes, Colon, no);
  }

  lemma {:induction false} TidiedNew(us: Tokens, e: Exp)
    requires Makes(us, e)
    ensures Tidy(us) == Print(e) && Ends(us)
    decreases e, 0, 0
  {
    hide DerivesList, Tidy, PrintList;
    if e.NewWith? {
      var list := NewParts(us, e);
      TidiedList(list, e.args, LBrace);
      TidyNew(e.ty, list, PrintList(e.args));
    } else {
      TidyExactly(us);
    }
  }

  lemma TidyNew(ty: nat, list: Tokens, args: Tokens)
    requires Tidy([LBrace] + list) == [LBrace] + args
    ensures
      var us := [KwNew, DataType(ty), LBrace] + list + [RBrace];
      Tidy(us) == [KwNew, DataType(ty), LBrace] + args + [RBrace] && Ends(us)
  {
    hide Tidy;
    var made := [KwNew, DataType(ty)];
    TidyExactly(made);
    TidyClosed(made, LBrace, list, RBrace);
    assert [KwNew, DataType(ty), LBrace] + list + [RBrace] == made + [LBrace] + list + [RBrace];
    assert [KwNew, DataType(ty), LBrace] + args + [RBrace] == made + ([LBrace] + args) + [RBrace];
  }

  lemma {:induction false} TidiedUnary(us: Tokens, e: Exp)
    requires Steps(us, e) || Signs(us, e)
    ensures Tidy(us) == Print(e) && Ends(us)
    decreases e, 0, 0
  {
    hide Derives, Tidy, UnaryOf, UnaryToken, Ends;
    if e.Increment? {
      var v := StepParts(us, e);
      Tidied(VARIABLE, v, e.v);
      if e.postfix { TidyAfter(v, Step(e.inc)); } else { TidyBefore(Step(e.inc), v); }
    } else {
      var sign, inner := SignParts(us, e);
      SignsAre(sign, e.uop);
      SignIs(sign, e.uop);
      Tidied(PRIMARY, inner, e.e);
      TidyBefore(sign, inner);
    }
  }

  lemma SignIs(sign: Token, op: UnaryOp)
    requires (sign, op) in SIGNS
    ensures sign == UnaryToken(op)
  {
  }

  lemma TidyBefore(t: Token, us: Tokens)
    requires Ends(us) && us[0] != Comma
    ensures Tidy([t] + us) == [t] + Tidy(us) && Ends([t] + us)
  {
    hide Tidy;
    TidyOne(t);
    TidyJoin([t], us);
  }

  lemma TidyAfter(us: Tokens, t: Token)
    requires t != Comma && !Opens(t)
    ensures Tidy(us + [t]) == Tidy(us) + [t] && Ends(us + [t])
  {
    hide Tidy;
    TidyOne(t);
    TidyJoin(us, [t]);
  }

  lemma {:induction false} TidiedVariable(us: Tokens, e: Exp)
    requires Stands(us, e) || Goes(us, e)
    ensures Tidy(us) == Print(e) && Ends(us)
    decreases e, 0, 2
  {
    hide Derives, DerivesList, Tidy, PrintList;
    if Goes(us, e) {
      var v, suffix := VariableParts(us, e);
      Tidied(VARIABLE, v, e.v);
      TidiedSuffix(v, suffix, e);
    } else if e.Paren? {
      TidiedParen(us, e);
    } else if e.FunctionCall? {
      TidiedCall(us, e);
    } else {
      TidyExactly(us);
    }
  }

  lemma {:induction false} TidiedParen(us: Tokens, e: Exp)
    requires e.Paren? && Stands(us, e)
    ensures Tidy(us) == Print(e) && Ends(us)
    decreases e, 0, 1
  {
    hide Derives, Tidy;
    var inner := ParenParts(us, e);
    Tidied(ASSIGNMENT, inner, e.e);
    TidyBefore(LParen, inner);
    TidyAfter([LParen] + inner, RParen);
  }

  lemma {:induction false} TidiedCall(us: Tokens, e: Exp)
    requires e.FunctionCall? && Stands(us, e)
    ensures Tidy(us) == Print(e) && Ends(us)
    decreases e, 0, 1
  {
    hide DerivesList, Tidy, PrintList, Ends;
    var list := CallParts(us, e);
    TidiedList(list, e.args, LParen);
    TidyOne(Ident(e.name));
    TidyClosed([Ident(e.name)], LParen, list, RParen);
    assert us == [Ident(e.name)] + [LParen] + list + [RParen];
    assert Print(e) == [Ident(e.name)] + ([LParen] + PrintList(e.args)) + [RParen];
  }

  lemma {:induction false} TidiedSuffix(v: Tokens, suffix: Tokens, e: Exp)
    requires e.Index? || e.Member? || e.MemberCall? || e.Dereference? || e.AddressOf? || e.Arrow?
    requires Follows(suffix, e) && Tidy(v) == Print(e.v)
    ensures Tidy(v + suffix) == Print(e) && Ends(v + suffix)
    decreases e, 0, 1
  {
    hide Derives, DerivesList, Tidy, PrintList;
    if e.Index? {
      TidiedIndex(v, suffix, e);
    } else if e.MemberCall? {
      TidiedMemberCall(v, suffix, e);
    } else {
      TidyExactly(suffix);
      TidyJoin(v, suffix);
    }
  }

  lemma {:induction false} TidiedIndex(v: Tokens, suffix: Tokens, e: Exp)
    requires e.Index? && Follows(suffix, e) && Tidy(v) == Print(e.v)
    ensures Tidy(v + suffix) == Print(e) && Ends(v + suffix)
    decreases e, 0, 0
  {
    hide Derives, Tidy, Ends;
    var inner := IndexParts(suffix, e);
    Tidied(ASSIGNMENT, inner, e.index);
    TidyOne(LBracket);
    TidyJoin([LBracket], inner);
    TidyClosed(v, LBracket, inner, RBracket);
    assert v + suffix == v + [LBracket] + inner + [RBracket];
    assert Print(e) == Print(e.v) + ([LBracket] + Print(e.index)) + [RBracket];
  }

  lemma {:induction false} TidiedMemberCall(v: Tokens, suffix: Tokens, e: Exp)
    requires e.MemberCall? && Follows(suffix, e) && Tidy(v) == Print(e.v)
    ensures Tidy(v + suffix) == Print(e) && Ends(v + suffix)
    decreases e, 0, 0
  {
    hide DerivesList, Tidy, PrintList, Ends;
    var list := MemberCallParts(suffix, e);
    var dot := [Dot, Ident(e.name)];
    TidiedList(list, e.args, LParen);
    TidyExactly(dot);
    TidyJoin(v, dot);
    TidyClosed(v + dot, LParen, list, RParen);
    CallGlued(v, e.name, list);
    CallGlued(Print(e.v), e.name, PrintList(e.args));
  }

  lemma CallGlued(v: Tokens, name: nat, list: Tokens)
    ensures v + ([Dot, Ident(name), LParen] + list + [RParen]) == v + [Dot, Ident(name)] + [LParen] + list + [RParen]
    ensures v + [Dot, Ident(name), LParen] + list + [RParen] == v + [Dot, Ident(name)] + ([LParen] + list) + [RParen]
  {
  }

  lemma {:induction false} TidiedList(us: Tokens, es: seq<Exp>, open: Token)
    requires DerivesList(us, es) && Opens(open)
    ensures Tidy([open] + us) == [open] + PrintList(es)
    decreases es, 1, 1
  {
    hide Derives, DerivesList, Tidy, Print;
    var parts, comma := ListParts(us, es);
    TidyOne(open);
    if es == [] {
      assert [open] + us == [open];
    } else {
      TidiedItems(parts, es);
      TidyOpened(open, comma);
      TidyJoin([open] + Leading(comma), Join(parts));
      assert [open] + us == [open] + Leading(comma) + Join(parts);
    }
  }

  lemma TidyOpened(open: Token, comma: bool)
    requires Opens(open)
    ensures Tidy([open] + Leading(comma)) == [open]
  {
    var all := [open] + Leading(comma);
    if comma {
      assert all[..1] == [open];
    }
  }

  lemma {:induction false} TidiedItems(parts: seq<Tokens>, es: seq<Exp>)
    requires es != [] && Items(parts, es)
    ensures Tidy(Join(parts)) == PrintList(es) && Ends(Join(parts)) && Join(parts)[0] != Comma
    decreases es, 1, 0
  {
    hide Derives, Tidy, Print;
    Tidied(ASSIGNMENT, parts[0], es[0]);
    if |es| > 1 {
      TidiedItems(parts[1..], es[1..]);
      TidyBetween(parts[0], Comma, Join(parts[1..]));
    }
  }

  // ---------------------------------------------------------------- the formatter's law

  /** An expression that stands alone. */
  function ReadExpression(ts: Tokens): Option<Exp> {
    var p :- Read(ASSIGNMENT, ts);
    if p.rest == [] then Some(p.e) else None
  }

  /** The reader accepts exactly what the grammar derives, and builds the tree of the derivation. */
  lemma ReaderIsTheGrammar(ts: Tokens, e: Exp)
    ensures ReadExpression(ts) == Some(e) <==> Derives(AssignmentExp, ts, e)
  {
    hide Derives, Read;
    if Derives(AssignmentExp, ts, e) {
      ReadsDerived(ASSIGNMENT, ts, e, []);
      assert ts + [] == ts;
    }
    if ReadExpression(ts) == Some(e) {
      Understood(ASSIGNMENT, ts);
      var us :| ts == us + [] && Derives(AssignmentExp, us, e);
      assert us == ts;
    }
  }

  /** The tokens of a tree, and the trees of tokens: each is the inverse of the other. */
  lemma ExpressionRoundTrips(e: Exp, ts: Tokens)
    ensures Grammatical(e) ==> ReadExpression(Print(e)) == Some(e)
    ensures ReadExpression(ts) == Some(e) ==> Grammatical(e) && Print(e) == Tidy(ts)
  {
    hide Derives, Read, Print, Tidy, Grammatical;
    if Grammatical(e) {
      Printed(ASSIGNMENT, e);
      ReaderIsTheGrammar(Print(e), e);
    }
    if ReadExpression(ts) == Some(e) {
      ReaderIsTheGrammar(ts, e);
      Shape(ASSIGNMENT, ts, e);
      Tidied(ASSIGNMENT, ts, e);
    }
  }

  /** What was read is printed as it was exactly if no comma directly follows an opening parenthesis or brace. */
  lemma TextKeptExactly(ts: Tokens, e: Exp)
    requires ReadExpression(ts) == Some(e)
    ensures Print(e) == ts
      <==> forall i | 0 < i < |ts| && (ts[i - 1] == LParen || ts[i - 1] == LBrace) :: ts[i] != Comma
  {
    hide Read, Print, Tidy;
    ExpressionRoundTrips(e, ts);
    TidyExactly(ts);
  }

  /** The call `f(, a)` is read as `f(a)`, and printed so. */
  lemma LosesTheComma(f: nat, a: nat)
    ensures
      var ts := [Ident(f), LParen, Comma, Ident(a), RParen];
      && ReadExpression(ts) == Some(FunctionCall(f, [Base(a)]))
      && Print(FunctionCall(f, [Base(a)])) == [Ident(f), LParen, Ident(a), RParen]
  {
    var e, list := FunctionCall(f, [Base(a)]), [Comma, Ident(a)];
    var ts := [Ident(f), LParen, Comma, Ident(a), RParen];
    assert PrintList([Base(a)]) == Print(Base(a)) == [Ident(a)];
    assert Derives(VariableExp, [Ident(a)], Base(a));
    Outer(ASSIGNMENT, VARIABLE, [Ident(a)], Base(a));
    PartsList([[Ident(a)]], [Base(a)], true);
    assert Leading(true) + Join([[Ident(a)]]) == list;
    CallStands(f, list, [Base(a)]);
    assert ts == [Ident(f), LParen] + list + [RParen];
    Outer(ASSIGNMENT, VARIABLE, ts, e);
    ReaderIsTheGrammar(ts, e);
  }

  lemma CallStands(f: nat, list: Tokens, args: seq<Exp>)
    requires DerivesList(list, args)
    ensures Derives(VariableExp, [Ident(f), LParen] + list + [RParen], FunctionCall(f, args))
  {
    hide DerivesList;
    assert Stands([Ident(f), LParen] + list + [RParen], FunctionCall(f, args));
  }

  /** A tree is one that the grammar builds exactly when its printing reads back as that tree. */
  lemma ReadBackExactlyTheGrammar(e: Exp)
    ensures Grammatical(e) <==> ReadExpression(Print(e)) == Some(e)
  {
    ExpressionRoundTrips(e, Print(e));
  }

  /** No two trees are printed alike, so that no parentheses are missing. */
  lemma PrintedApart(a: Exp, b: Exp)
    requires Grammatical(a) && Grammatical(b) && Print(a) == Print(b)
    ensures a == b
  {
    ExpressionRoundTrips(a, Print(a));
    ExpressionRoundTrips(b, Print(b));
  }

  // ---------------------------------------------------------------- which operator binds tighter

  /** The binary operators in the order of their rules, those that bind tightest last. */
  const RULES: seq<set<BinOp>> := [
    {LogOr}, {LogAnd}, {Eq, Neq}, {Lt, Gt, Leq, Geq}, {BitOr}, {BitXor}, {BitAnd}, {Shl, Shr}, {Plus, Minus},
    {Mul, Div, Mod}]

  lemma RulesAreLevels(i: nat, p: BinOp)
    requires i < |RULES|
    ensures p in RULES[i] <==> BinLevel(p) == FIRST_BINARY + i
  {
  }

  lemma BinaryOf(level: nat, l: Tokens, a: Exp, p: BinOp, r: Tokens, b: Exp)
    requires FIRST_BINARY <= level <= LAST_BINARY && BinLevel(p) == level
    requires Derives(OfLevel(level), l, a) && Derives(OfLevel(level + 1), r, b)
    ensures Derives(OfLevel(level), l + [Oper(p)] + r, Binary(p, a, b))
  {
    hide Derives, OfLevel;
    assert Operates(OfLevel(level), OfLevel(level + 1), l + [Oper(p)] + r, Binary(p, a, b));
    Rule(level, l + [Oper(p)] + r, Binary(p, a, b));
  }

  /**
   Of two binary operators the one with the later rule binds tighter, and of two with the same rule the
   first.  The operands are of any rule inside those of the binary operators.
   */
  lemma Precedence(p: BinOp, i: nat, q: BinOp, j: nat, x: Tokens, a: Exp, y: Tokens, b: Exp, z: Tokens, c: Exp)
    requires i < |RULES| && j < |RULES| && p in RULES[i] && q in RULES[j]
    requires Derives(NullCoalescingExp, x, a) && Derives(NullCoalescingExp, y, b) && Derives(NullCoalescingExp, z, c)
    ensures ReadExpression(x + [Oper(p)] + y + [Oper(q)] + z)
      == Some(if i < j then Binary(p, a, Binary(q, b, c)) else Binary(q, Binary(p, a, b), c))
  {
    hide Derives, ReadExpression, OfLevel;
    LevelOfOperands();
    var ts := x + [Oper(p)] + y + [Oper(q)] + z;
    RulesAreLevels(i, p);
    RulesAreLevels(j, q);
    if i < j {
      var right := y + [Oper(q)] + z;
      OperandsDerive(FIRST_BINARY + i + 1, FIRST_BINARY + j, y, b, q, z, c);
      Outer(FIRST_BINARY + i, COALESCING, x, a);
      BinaryOf(FIRST_BINARY + i, x, a, p, right, Binary(q, b, c));
      Regrouped(x, [Oper(p)], y, [Oper(q)], z);
      IsRead(FIRST_BINARY + i, ts, Binary(p, a, Binary(q, b, c)));
    } else {
      var left := x + [Oper(p)] + y;
      OperandsDerive(FIRST_BINARY + j, FIRST_BINARY + i, x, a, p, y, b);
      Outer(FIRST_BINARY + j + 1, COALESCING, z, c);
      BinaryOf(FIRST_BINARY + j, left, Binary(p, a, b), q, z, c);
      IsRead(FIRST_BINARY + j, ts, Binary(q, Binary(p, a, b), c));
    }
  }

  lemma LevelOfOperands()
    ensures OfLevel(COALESCING) == NullCoalescingExp
  {
  }

  lemma OperandsDerive(low: nat, level: nat, l: Tokens, a: Exp, p: BinOp, r: Tokens, b: Exp)
    requires low <= level && FIRST_BINARY <= level <= LAST_BINARY && BinLevel(p) == level
    requires Derives(OfLevel(COALESCING), l, a) && Derives(OfLevel(COALESCING), r, b)
    ensures Derives(OfLevel(low), l + [Oper(p)] + r, Binary(p, a, b))
  {
    hide Derives, OfLevel;
    Outer(level, COALESCING, l, a);
    Outer(level + 1, COALESCING, r, b);
    BinaryOf(level, l, a, p, r, b);
    Outer(low, level, l + [Oper(p)] + r, Binary(p, a, b));
  }

  lemma Regrouped(x: Tokens, p: Tokens, y: Tokens, q: Tokens, z: Tokens)
    ensures x + p + (y + q + z) == x + p + y + q + z
  {
  }

  lemma IsRead(level: nat, ts: Tokens, e: Exp)
    requires level <= VARIABLE && Derives(OfLevel(level), ts, e)
    ensures ReadExpression(ts) == Some(e)
  {
    hide Derives, ReadExpression;
    Outer(ASSIGNMENT, level, ts, e);
    ReaderIsTheGrammar(ts, e);
  }
}
