/**
 The reader is the grammar: it accepts what the rules derive, with the same tree.

 What the grammar derives is read up to its end, with what follows left over; and what was read is what
 the grammar derives from the tokens that were read.
 */
module Readings {
  import opened Options
  import opened FormatTree
  import opened FormatExpression
  import opened Reader
  import opened Grammar
  import opened Derivations

  /** The innermost level of the grammar at which the next token would go on with an expression, or -1. */
  function Continuation(ts: Tokens): int {
    if ts == [] then -1
    else
      match ts[0]
      case LParen => 17
      case LBrace => 17
      case LBracket => VARIABLE
      case Dot => if |ts| >= 2 && ts[1].Ident? then VARIABLE else -1
      case ArrowTo => VARIABLE
      case At => VARIABLE
      case Dollar => VARIABLE
      case Step(_) => UNARY
      case DoubleQuery => COALESCING
      case Oper(op) => BinLevel(op)
      case Query => TERNARY
      case Asg(_) => ASSIGNMENT
      case _ => -1
  }

  /** An expression of the level ends before these tokens. */
  predicate EndsBefore(level: int, ts: Tokens) {
    Continuation(ts) < level
  }

  predicate Closes(close: Token) {
    close == RParen || close == RBrace || close == Semi
  }

  lemma Cut(t: Token, ts: Tokens)
    ensures [t] + ts != [] && ([t] + ts)[0] == t && ([t] + ts)[1..] == ts
  {
  }

  lemma Between(a: Tokens, s: Token, b: Tokens, rest: Tokens)
    ensures a + ([s] + (b + rest)) == a + [s] + b + rest
  {
  }

  lemma Joined(a: Tokens, s: Token, b: Tokens, t: Token, c: Tokens, rest: Tokens)
    ensures a + ([s] + (b + ([t] + (c + rest)))) == a + [s] + b + [t] + c + rest
  {
  }

  // ---------------------------------------------------------------- derived, then read

  /** A list in brackets is read. */
  lemma {:induction false} ReadsDerivedList(us: Tokens, es: seq<Exp>, close: Token, ts: Tokens)
    requires DerivesList(us, es) && Closes(close)
    ensures ReadList(us + [close] + ts, close) == Some(ParsedList(es, ts))
    decreases es, 30, 1
  {
    hide Read, ReadList, ReadItems, Derives, DerivesList, Items;
    var parts, comma := ListParts(us, es);
    if es == [] {
      assert us + [close] + ts == [close] + ts;
      Cut(close, ts);
      EmptyListRead(close, ts);
    } else {
      var items := Join(parts) + [close] + ts;
      ReadsItems(parts, es, close, ts);
      ItemsBegin(parts, es);
      ItemsAreRead(items, comma, close);
      assert us + [close] + ts == Leading(comma) + items;
    }
  }

  lemma EmptyListRead(close: Token, ts: Tokens)
    ensures ReadList([close] + ts, close) == Some(ParsedList([], ts))
  {
  }

  lemma ItemsAreRead(items: Tokens, comma: bool, close: Token)
    requires items != [] && items[0] != close && items[0] != Comma && close != Comma
    ensures ReadList(Leading(comma) + items, close) == ReadItems(items, close)
  {
    hide ReadItems;
    if comma { Cut(Comma, items); } else { assert Leading(comma) + items == items; }
  }

  lemma ItemsBegin(parts: seq<Tokens>, es: seq<Exp>)
    requires Items(parts, es) && es != []
    ensures Join(parts) != [] && BeginsExpression(Join(parts)[0]) && Join(parts)[0] != Comma
    ensures forall close | Closes(close) :: Join(parts)[0] != close
  {
    hide Derives;
    First(ASSIGNMENT, parts[0], es[0]);
  }

  lemma {:induction false} ReadsItems(parts: seq<Tokens>, es: seq<Exp>, close: Token, ts: Tokens)
    requires es != [] && Items(parts, es) && Closes(close)
    ensures ReadItems(Join(parts) + [close] + ts, close) == Some(ParsedList(es, ts))
    decreases es, 30, 0
  {
    hide Read, Derives;
    if |es| == 1 {
      ReadsDerived(ASSIGNMENT, parts[0], es[0], [close] + ts);
      assert Join(parts) + [close] + ts == parts[0] + ([close] + ts);
      assert es == [es[0]];
    } else {
      var more := Join(parts[1..]) + [close] + ts;
      ReadsDerived(ASSIGNMENT, parts[0], es[0], [Comma] + more);
      assert Join(parts) + [close] + ts == parts[0] + ([Comma] + more);
      ReadsItems(parts[1..], es[1..], close, ts);
      assert es == [es[0]] + es[1..];
    }
  }

  /** What follows a variable is read as its last part. */
  lemma {:induction false} ReadsSuffix(us: Tokens, v: Exp, ts: Tokens)
    requires v.Index? || v.Member? || v.MemberCall? || v.Dereference? || v.AddressOf? || v.Arrow?
    requires Follows(us, v) && EndsBefore(17, ts)
    ensures ReadPostfix(v.v, us + ts) == ReadPostfix(v, ts)
    ensures EndsBefore(17, us + ts)
    decreases v, 16, 0
  {
    hide Read, ReadList, Derives, DerivesList, BinLevel;
    var all := us + ts;
    if v.Index? {
      ReadsIndex(us, v, ts);
    } else if v.MemberCall? {
      ReadsMemberCall(us, v, ts);
    } else if v.Dereference? || v.AddressOf? {
      assert all[1..] == ts;
    } else {
      assert all[2..] == ts;
    }
  }

  lemma {:induction false} ReadsIndex(us: Tokens, v: Exp, ts: Tokens)
    requires v.Index? && Follows(us, v)
    ensures ReadPostfix(v.v, us + ts) == ReadPostfix(v, ts) && EndsBefore(17, us + ts)
    decreases v, 15, 0
  {
    hide Read, ReadList, Derives, DerivesList, BinLevel;
    var inner := IndexParts(us, v);
    var all := [LBracket] + (inner + ([RBracket] + ts));
    ReadsDerived(ASSIGNMENT, inner, v.index, [RBracket] + ts);
    assert us + ts == all;
    Cut(LBracket, inner + ([RBracket] + ts));
    Cut(RBracket, ts);
  }

  lemma {:induction false} ReadsMemberCall(us: Tokens, v: Exp, ts: Tokens)
    requires v.MemberCall? && Follows(us, v)
    ensures ReadPostfix(v.v, us + ts) == ReadPostfix(v, ts) && EndsBefore(17, us + ts)
    decreases v, 15, 0
  {
    hide Read, ReadList, Derives, DerivesList, BinLevel;
    var list := MemberCallParts(us, v);
    var all := us + ts;
    ReadsDerivedList(list, v.args, RParen, ts);
    assert all[0] == Dot && all[1] == Ident(v.name) && all[2..][0] == LParen;
    assert all[3..] == list + [RParen] + ts;
  }

  /** A variable is read up to its end, whatever part of a longer variable it is. */
  lemma {:induction false} ReadsVariable(us: Tokens, v: Exp, ts: Tokens)
    requires Derives(VariableExp, us, v) && EndsBefore(17, ts)
    ensures ReadPrimary(us + ts) == ReadPostfix(v, ts)
    decreases v, 17, 0
  {
    hide Derives, Stands, EndsBefore, Follows, ReadPrimary, ReadPostfix;
    Rule(VARIABLE, us, v);
    if Stands(us, v) {
      ReadsStem(us, v, ts);
    } else {
      var stem, suffix := VariableParts(us, v);
      ReadsSuffix(suffix, v, ts);
      ReadsVariable(stem, v.v, suffix + ts);
      assert us + ts == stem + (suffix + ts);
    }
  }

  lemma {:induction false} ReadsStem(us: Tokens, v: Exp, ts: Tokens)
    requires Stands(us, v) && EndsBefore(17, ts)
    ensures ReadPrimary(us + ts) == ReadPostfix(v, ts)
    decreases v, 16, 0
  {
    hide Read, ReadPostfix, ReadList, Derives, DerivesList;
    var all := us + ts;
    if v.Paren? {
      var inner := ParenParts(us, v);
      ReadsDerived(ASSIGNMENT, inner, v.e, [RParen] + ts);
      assert all == [LParen] + (inner + ([RParen] + ts));
      Cut(LParen, inner + ([RParen] + ts));
      Cut(RParen, ts);
    } else if v.FunctionCall? {
      var list := CallParts(us, v);
      ReadsDerivedList(list, v.args, RParen, ts);
      assert all[1..][0] == LParen;
      assert all[2..] == list + [RParen] + ts;
    } else if v.Arrow? {
      assert all[3..] == ts;
    } else {
      assert all[1..] == ts;
    }
  }

  lemma {:induction false} ReadsPrimary(us: Tokens, e: Exp, ts: Tokens)
    requires Derives(PrimaryExp, us, e) && EndsBefore(PRIMARY, ts)
    ensures ReadPrimary(us + ts) == Some(Parsed(e, ts))
    decreases e, 18, 0
  {
    hide Read, ReadList, Derives;
    Rule(PRIMARY, us, e);
    if Derives(VariableExp, us, e) {
      ReadsVariable(us, e, ts);
    } else {
      assert (us + ts)[1..] == ts;
    }
  }

  lemma {:induction false} ReadsUnary(us: Tokens, e: Exp, ts: Tokens)
    requires Derives(UnaryExp, us, e) && EndsBefore(UNARY, ts)
    ensures ReadUnary(us + ts) == Some(Parsed(e, ts))
    decreases e, 19, 0
  {
    hide Read, ReadPrimary, Derives, Steps, Signs, UnaryOf, BeginsExpression;
    Rule(UNARY, us, e);
    if Derives(PrimaryExp, us, e) {
      First(PRIMARY, us, e);
      ReadsPrimary(us, e, ts);
      ReadsAt(us, ts);
    } else if Signs(us, e) {
      ReadsSigns(us, e, ts);
    } else {
      ReadsSteps(us, e, ts);
    }
  }

  lemma {:induction false} ReadsSigns(us: Tokens, e: Exp, ts: Tokens)
    requires Signs(us, e) && EndsBefore(UNARY, ts)
    ensures ReadUnary(us + ts) == Some(Parsed(e, ts))
    decreases e, 18, 1
  {
    hide Read, ReadUnary, ReadPrimary, Derives, UnaryOf;
    var sign, inner := SignParts(us, e);
    SignsAre(sign, e.uop);
    ReadsPrimary(inner, e.e, ts);
    ReadsAt(inner, ts);
    ReadsPrefixed(sign, inner, e.e, ts);
    assert us + ts == [sign] + (inner + ts);
  }

  /** What the lowest level reads is what is read there. */
  lemma ReadsAt(us: Tokens, ts: Tokens)
    ensures Read(PRIMARY, us + ts) == ReadPrimary(us + ts)
    ensures us != [] ==> us + ts != [] && (us + ts)[0] == us[0]
  {
  }

  /** The expression that begins with the token `t`, a sign or a step, before the operand `e`. */
  function Prefixed(t: Token, e: Exp): Exp
    requires UnaryOf(t).Some? || t.Step?
  {
    if UnaryOf(t).Some? then Unary(UnaryOf(t).value, e) else Increment(t.inc, e, false)
  }

  lemma ReadsPrefixed(sign: Token, inner: Tokens, e: Exp, ts: Tokens)
    requires UnaryOf(sign).Some? || (sign.Step? && IsVariable(e))
    requires Read(PRIMARY, inner + ts) == Some(Parsed(e, ts))
    ensures ReadUnary([sign] + (inner + ts)) == Some(Parsed(Prefixed(sign, e), ts))
  {
    hide Read, UnaryOf, IsVariable;
    Cut(sign, inner + ts);
    StepIsNoSign(sign);
  }

  lemma StepIsNoSign(t: Token)
    ensures t.Step? ==> UnaryOf(t).None?
  {
  }

  lemma {:induction false} ReadsSteps(us: Tokens, e: Exp, ts: Tokens)
    requires Steps(us, e) && EndsBefore(UNARY, ts)
    ensures ReadUnary(us + ts) == Some(Parsed(e, ts))
    decreases e, 18, 1
  {
    hide Read, ReadPrimary, Derives, UnaryOf, BeginsExpression;
    var v := StepParts(us, e);
    Outer(PRIMARY, VARIABLE, v, e.v);
    Shape(VARIABLE, v, e.v);
    StepIsNoSign(Step(e.inc));
    if e.postfix {
      var rest := [Step(e.inc)] + ts;
      First(PRIMARY, v, e.v);
      ReadsPrimary(v, e.v, rest);
      ReadsAt(v, rest);
      assert us + ts == v + rest;
      Cut(Step(e.inc), ts);
    } else {
      ReadsPrimary(v, e.v, ts);
      ReadsAt(v, ts);
      ReadsPrefixed(Step(e.inc), v, e.v, ts);
      assert us + ts == [Step(e.inc)] + (v + ts);
    }
  }

  /** The operands of one binary level are collected from the left. */
  lemma ReadsLevel(level: nat, ts: Tokens, e: Exp, rest: Tokens)
    requires FIRST_BINARY <= level <= LAST_BINARY && Read(level + 1, ts) == Some(Parsed(e, rest))
    ensures Read(level, ts) == ReadOperators(level, e, rest)
  {
    hide ReadOperators;
  }

  lemma TakesOperator(level: nat, l: Exp, op: BinOp, tail: Tokens, r: Exp, rest: Tokens)
    requires FIRST_BINARY <= level <= LAST_BINARY && BinLevel(op) == level
    requires Read(level + 1, tail) == Some(Parsed(r, rest))
    ensures ReadOperators(level, l, [Oper(op)] + tail) == ReadOperators(level, Binary(op, l, r), rest)
  {
    hide Read;
    assert ([Oper(op)] + tail)[1..] == tail;
  }

  lemma {:induction false} ReadsOperands(level: nat, us: Tokens, e: Exp, ts: Tokens)
    requires FIRST_BINARY <= level <= LAST_BINARY && Derives(OfLevel(level), us, e) && EndsBefore(level + 1, ts)
    ensures Read(level, us + ts) == ReadOperators(level, e, ts)
    decreases e, 20 + (20 - level), 0
  {
    hide Read, ReadOperators, Derives, Operates, OfLevel;
    Rule(level, us, e);
    if Derives(OfLevel(level + 1), us, e) {
      ReadsDerived(level + 1, us, e, ts);
      ReadsLevel(level, us + ts, e, ts);
    } else {
      var l, r := BinaryParts(OfLevel(level), OfLevel(level + 1), us, e);
      var tail := r + ts;
      ReadsOperands(level, l, e.l, [Oper(e.bop)] + tail);
      ReadsDerived(level + 1, r, e.r, ts);
      TakesOperator(level, e.l, e.bop, tail, e.r, ts);
      assert us + ts == l + ([Oper(e.bop)] + tail);
    }
  }

  /** What the grammar derives is read, with what follows it left over. */
  lemma {:induction false} ReadsDerived(level: nat, us: Tokens, e: Exp, ts: Tokens)
    requires level <= PRIMARY && Derives(OfLevel(level), us, e) && EndsBefore(level, ts)
    ensures Read(level, us + ts) == Some(Parsed(e, ts))
    decreases e, 20 + (20 - level), 2
  {
    hide Read, ReadNew, ReadUnary, ReadPrimary, ReadOperators, Derives, EndsBefore;
    hide Assigns, Chooses, Makes, Operates, Coalesces, Steps, Signs, Stands, Goes;
    ReadsAsNamed(level, us + ts);
    Rule(level, us, e);
    if level == PRIMARY { ReadsPrimary(us, e, ts); }
    else if level == UNARY { ReadsUnary(us, e, ts); }
    else if FIRST_BINARY <= level <= LAST_BINARY { ReadsLast(level, us, e, ts); }
    else if level == NEW { ReadsNew(us, e, ts); }
    else if Derives(OfLevel(level + 1), us, e) { ReadsHigher(level, us, e, ts); }
    else if level == COALESCING { ReadsCoalescing(us, e, ts); }
    else if level == TERNARY { ReadsTernary(us, e, ts); }
    else { ReadsAssignment(us, e, ts); }
  }

  /** Three levels of the grammar have a reader of their own. */
  lemma ReadsAsNamed(level: nat, ts: Tokens)
    requires level <= PRIMARY
    ensures level == PRIMARY ==> Read(level, ts) == ReadPrimary(ts)
    ensures level == UNARY ==> Read(level, ts) == ReadUnary(ts)
    ensures level == NEW ==> Read(level, ts) == ReadNew(ts)
  {
    hide ReadPrimary, ReadUnary, ReadNew, ReadOperators;
  }

  lemma {:induction false} ReadsLast(level: nat, us: Tokens, e: Exp, ts: Tokens)
    requires FIRST_BINARY <= level <= LAST_BINARY && Derives(OfLevel(level), us, e) && EndsBefore(level, ts)
    ensures Read(level, us + ts) == Some(Parsed(e, ts))
    decreases e, 20 + (20 - level), 1
  {
    hide Read, Derives;
    ReadsOperands(level, us, e, ts);
  }

  lemma {:induction false} ReadsHigher(level: nat, us: Tokens, e: Exp, ts: Tokens)
    requires level == ASSIGNMENT || level == TERNARY || level == COALESCING
    requires Derives(OfLevel(level + 1), us, e) && EndsBefore(level, ts)
    ensures Read(level, us + ts) == Some(Parsed(e, ts))
    decreases e, 20 + (20 - level), 0
  {
    hide Read, Derives;
    ReadsDerived(level + 1, us, e, ts);
    ReadsThrough(level, us + ts, e, ts);
  }

  /** What ends before the operator of a level is read there as it is on the next one. */
  lemma ReadsThrough(level: nat, toks: Tokens, e: Exp, ts: Tokens)
    requires level == ASSIGNMENT || level == TERNARY || level == COALESCING
    requires EndsBefore(level, ts) && Read(level + 1, toks) == Some(Parsed(e, ts))
    ensures Read(level, toks) == Some(Parsed(e, ts))
  {
    hide ReadNew, ReadOperators, ReadUnary, ReadPrimary;
  }

  lemma {:induction false} ReadsCoalescing(us: Tokens, e: Exp, ts: Tokens)
    requires Coalesces(us, e) && EndsBefore(COALESCING, ts)
    ensures Read(COALESCING, us + ts) == Some(Parsed(e, ts))
    decreases e, 20, 0
  {
    hide ReadNew, ReadOperators, ReadUnary, ReadPrimary, Derives;
    var l, r := CoalescingParts(us, e);
    var tail := r + ts;
    ReadsDerived(UNARY, l, e.l, [DoubleQuery] + tail);
    ReadsDerived(UNARY, r, e.r, ts);
    assert us + ts == l + ([DoubleQuery] + tail);
    Cut(DoubleQuery, tail);
  }

  lemma TakesTernary(toks: Tokens, c: Exp, middle: Tokens, yes: Exp, last: Tokens, no: Exp, rest: Tokens)
    requires Read(NEW, toks) == Some(Parsed(c, [Query] + middle))
        && Read(NEW, middle) == Some(Parsed(yes, [Colon] + last))
    requires Read(NEW, last) == Some(Parsed(no, rest))
    ensures Read(TERNARY, toks) == Some(Parsed(Ternary(c, yes, no), rest))
  {
    hide ReadNew, ReadOperators, ReadUnary, ReadPrimary;
    Cut(Query, middle);
    Cut(Colon, last);
  }

  lemma {:induction false} ReadsTernary(us: Tokens, e: Exp, ts: Tokens)
    requires Chooses(us, e) && EndsBefore(TERNARY, ts)
    ensures Read(TERNARY, us + ts) == Some(Parsed(e, ts))
    decreases e, 20, 0
  {
    hide Read, Derives;
    var c, yes, no := TernaryParts(us, e);
    var last := no + ts;
    var middle := yes + ([Colon] + last);
    ReadsDerived(NEW, c, e.c, [Query] + middle);
    ReadsDerived(NEW, yes, e.yes, [Colon] + last);
    ReadsDerived(NEW, no, e.no, ts);
    TakesTernary(c + ([Query] + middle), e.c, middle, e.yes, last, e.no, ts);
    Joined(c, Query, yes, Colon, no, ts);
  }

  lemma TakesAssignment(toks: Tokens, v: Exp, sign: AsgText, tail: Tokens, rhs: Exp, rest: Tokens)
    requires Read(TERNARY, toks) == Some(Parsed(v, [Asg(sign)] + tail)) && IsVariable(v)
    requires Read(ASSIGNMENT, tail) == Some(Parsed(rhs, rest))
    ensures Read(ASSIGNMENT, toks) == Some(Parsed(Assignment(ReadAsg(ScanAsg(sign)), v, rhs), rest))
  {
    hide ReadNew, ReadOperators, ReadUnary, ReadPrimary, ScanAsg, ReadAsg, IsVariable;
    Cut(Asg(sign), tail);
  }

  /** The two mistakes of scanner and grammar cancel. */
  lemma AssignmentsAre(sign: AsgText, op: AsgOp)
    ensures (sign, op) in ASSIGNMENTS <==> ReadAsg(ScanAsg(sign)) == op
    ensures (PrintAsg(op), op) in ASSIGNMENTS
    ensures (sign, op) in ASSIGNMENTS <==> PrintAsg(op) == sign
  {
  }

  lemma {:induction false} ReadsAssignment(us: Tokens, e: Exp, ts: Tokens)
    requires Assigns(us, e) && EndsBefore(ASSIGNMENT, ts)
    ensures Read(ASSIGNMENT, us + ts) == Some(Parsed(e, ts))
    decreases e, 20, 0
  {
    hide Read, Derives, ScanAsg, ReadAsg;
    var v, sign, rhs := AssignmentParts(us, e);
    var tail := rhs + ts;
    AssignmentsAre(sign, e.aop);
    Shape(VARIABLE, v, e.v);
    Outer(TERNARY, VARIABLE, v, e.v);
    ReadsDerived(TERNARY, v, e.v, [Asg(sign)] + tail);
    ReadsDerived(ASSIGNMENT, rhs, e.rhs, ts);
    TakesAssignment(v + ([Asg(sign)] + tail), e.v, sign, tail, e.rhs, ts);
    Between(v, Asg(sign), rhs, ts);
  }

  lemma {:induction false} ReadsNew(us: Tokens, e: Exp, ts: Tokens)
    requires Derives(NewExp, us, e) && EndsBefore(NEW, ts)
    ensures ReadNew(us + ts) == Some(Parsed(e, ts))
    decreases e, 20 + (20 - NEW), 0
  {
    hide Read, ReadList, Derives, BeginsExpression;
    var all := us + ts;
    Rule(NEW, us, e);
    if Derives(LogicalOrExp, us, e) {
      First(FIRST_BINARY, us, e);
      ReadsDerived(FIRST_BINARY, us, e, ts);
    } else if e.New? {
      assert all[2..] == ts;
    } else {
      var list := NewParts(us, e);
      ReadsDerivedList(list, e.args, RBrace, ts);
      assert all[2..][0] == LBrace;
      assert all[3..] == list + [RBrace] + ts;
    }
  }

  // ---------------------------------------------------------------- read, then derived

  /** The tokens up to what is left are an expression of the nonterminal. */
  ghost predicate Derived(n: Nonterminal, ts: Tokens, p: Parsed) {
    exists us :: ts == us + p.rest && Derives(n, us, p.e)
  }

  lemma DerivedBy(level: nat, us: Tokens, rest: Tokens, e: Exp)
    requires level <= VARIABLE && Own(level, us, e)
    ensures Derived(OfLevel(level), us + rest, Parsed(e, rest))
  {
    hide Own, Derives;
    Rule(level, us, e);
  }

  lemma DerivedOuter(low: nat, high: nat, ts: Tokens, p: Parsed)
    requires low <= high <= VARIABLE && Derived(OfLevel(high), ts, p)
    ensures Derived(OfLevel(low), ts, p)
  {
    hide Derives;
    var us :| ts == us + p.rest && Derives(OfLevel(high), us, p.e);
    Outer(low, high, us, p.e);
  }

  /** What is a variable was derived as one. */
  lemma {:induction false} Inner(level: nat, us: Tokens, e: Exp)
    requires level <= VARIABLE && Derives(OfLevel(level), us, e) && IsVariable(e)
    ensures Derives(VariableExp, us, e)
    decreases VARIABLE - level
  {
    hide Derives, Own, IsVariable;
    if level < VARIABLE {
      Rule(level, us, e);
      if Own(level, us, e) { OwnLevel(level, us, e); }
      IsVariableLevel(e);
      Inner(level + 1, us, e);
    }
  }

  lemma IsVariableLevel(e: Exp)
    ensures IsVariable(e) <==> Level(e) == VARIABLE
  {
  }

  /** What was read is what the grammar derives from the tokens that were read. */
  lemma {:induction false} Understood(level: nat, ts: Tokens)
    requires level <= PRIMARY && Read(level, ts).Some?
    ensures Derived(OfLevel(level), ts, Read(level, ts).value)
    decreases |ts|, 20 - level, 1
  {
    hide ReadNew, ReadOperators, ReadUnary, ReadPrimary, Derived, OfLevel;
    if level == ASSIGNMENT { UnderstoodAssignment(ts); }
    else if level == TERNARY { UnderstoodTernary(ts); }
    else if level == NEW { UnderstoodNew(ts); }
    else if level <= LAST_BINARY {
      Understood(level + 1, ts);
      var l := Read(level + 1, ts).value;
      DerivedOuter(level, level + 1, ts, l);
      UnderstoodOperators(level, ts, l.e, l.rest);
    }
    else if level == COALESCING { UnderstoodCoalescing(ts); }
    else if level == UNARY { UnderstoodUnary(ts); }
    else { UnderstoodPrimary(ts); }
  }

  lemma AssignmentRead(ts: Tokens)
    requires Read(ASSIGNMENT, ts).Some?
    ensures Read(TERNARY, ts).Some?
    ensures
      var l := Read(TERNARY, ts).value;
      if l.rest != [] && l.rest[0].Asg? then
        var rhs := Read(ASSIGNMENT, l.rest[1..]);
        var op := ReadAsg(ScanAsg(l.rest[0].sign));
        && IsVariable(l.e) && rhs.Some?
        && Read(ASSIGNMENT, ts) == Some(Parsed(Assignment(op, l.e, rhs.value.e), rhs.value.rest))
      else Read(ASSIGNMENT, ts) == Some(l)
  {
    hide ReadNew, ReadOperators, ReadUnary, ReadPrimary, IsVariable, ReadAsg, ScanAsg;
  }

  lemma {:induction false} UnderstoodAssignment(ts: Tokens)
    requires Read(ASSIGNMENT, ts).Some?
    ensures Derived(OfLevel(ASSIGNMENT), ts, Read(ASSIGNMENT, ts).value)
    decreases |ts|, 20 - ASSIGNMENT, 0
  {
    hide Read, ReadAsg, ScanAsg, Derives, IsVariable, OfLevel;
    AssignmentRead(ts);
    Understood(TERNARY, ts);
    var l := Read(TERNARY, ts).value;
    if l.rest != [] && l.rest[0].Asg? {
      Understood(ASSIGNMENT, l.rest[1..]);
      var r := Read(ASSIGNMENT, l.rest[1..]).value;
      var v :| ts == v + l.rest && Derives(OfLevel(TERNARY), v, l.e);
      var rhs :| l.rest[1..] == rhs + r.rest && Derives(OfLevel(ASSIGNMENT), rhs, r.e);
      Inner(TERNARY, v, l.e);
      AssignmentDerived(v, l.e, l.rest[0].sign, rhs, r.e, r.rest);
      assert l.rest == [l.rest[0]] + l.rest[1..];
      Between(v, l.rest[0], rhs, r.rest);
    } else {
      DerivedOuter(ASSIGNMENT, TERNARY, ts, l);
    }
  }

  lemma AssignmentDerived(v: Tokens, ve: Exp, sign: AsgText, rhs: Tokens, re: Exp, rest: Tokens)
    requires Derives(VariableExp, v, ve) && Derives(OfLevel(ASSIGNMENT), rhs, re)
    ensures Derived(OfLevel(ASSIGNMENT), v + [Asg(sign)] + rhs + rest,
                    Parsed(Assignment(ReadAsg(ScanAsg(sign)), ve, re), rest))
  {
    hide Derives, Derived, ReadAsg, ScanAsg;
    var e := Assignment(ReadAsg(ScanAsg(sign)), ve, re);
    AssignmentsAre(sign, e.aop);
    assert Assigns(v + [Asg(sign)] + rhs, e);
    DerivedBy(ASSIGNMENT, v + [Asg(sign)] + rhs, rest, e);
  }

  lemma TernaryRead(ts: Tokens)
    requires Read(TERNARY, ts).Some?
    ensures Read(NEW, ts).Some?
    ensures
      var c := Read(NEW, ts).value;
      if Begins(c.rest, Query) then
        var yes := Read(NEW, c.rest[1..]);
        yes.Some? && Begins(yes.value.rest, Colon)
        && var no := Read(NEW, yes.value.rest[1..]);
          no.Some? && Read(TERNARY, ts) == Some(Parsed(Ternary(c.e, yes.value.e, no.value.e), no.value.rest))
      else Read(TERNARY, ts) == Some(c)
  {
    hide ReadNew, ReadOperators, ReadUnary, ReadPrimary;
  }

  lemma {:induction false} UnderstoodTernary(ts: Tokens)
    requires Read(TERNARY, ts).Some?
    ensures Derived(OfLevel(TERNARY), ts, Read(TERNARY, ts).value)
    decreases |ts|, 20 - TERNARY, 0
  {
    hide Read, Derives, OfLevel;
    TernaryRead(ts);
    Understood(NEW, ts);
    var c := Read(NEW, ts).value;
    if Begins(c.rest, Query) {
      Understood(NEW, c.rest[1..]);
      var yes := Read(NEW, c.rest[1..]).value;
      Understood(NEW, yes.rest[1..]);
      var no := Read(NEW, yes.rest[1..]).value;
      var a :| ts == a + c.rest && Derives(OfLevel(NEW), a, c.e);
      var b :| c.rest[1..] == b + yes.rest && Derives(OfLevel(NEW), b, yes.e);
      var d :| yes.rest[1..] == d + no.rest && Derives(OfLevel(NEW), d, no.e);
      TernaryDerived(a, c.e, b, yes.e, d, no.e, no.rest);
      assert c.rest == [Query] + c.rest[1..] && yes.rest == [Colon] + yes.rest[1..];
      Joined(a, Query, b, Colon, d, no.rest);
    } else {
      DerivedOuter(TERNARY, NEW, ts, c);
    }
  }

  lemma TernaryDerived(a: Tokens, c: Exp, b: Tokens, yes: Exp, d: Tokens, no: Exp, rest: Tokens)
    requires Derives(OfLevel(NEW), a, c) && Derives(OfLevel(NEW), b, yes) && Derives(OfLevel(NEW), d, no)
    ensures Derived(OfLevel(TERNARY), a + [Query] + b + [Colon] + d + rest, Parsed(Ternary(c, yes, no), rest))
  {
    hide Derives, Derived;
    assert Chooses(a + [Query] + b + [Colon] + d, Ternary(c, yes, no));
    DerivedBy(TERNARY, a + [Query] + b + [Colon] + d, rest, Ternary(c, yes, no));
  }

  lemma CoalescingRead(ts: Tokens)
    requires Read(COALESCING, ts).Some?
    ensures Read(UNARY, ts).Some?
    ensures
      var l := Read(UNARY, ts).value;
      if Begins(l.rest, DoubleQuery) then
        var r := Read(UNARY, l.rest[1..]);
        r.Some? && Read(COALESCING, ts) == Some(Parsed(NullCoalescing(l.e, r.value.e), r.value.rest))
      else Read(COALESCING, ts) == Some(l)
  {
    hide ReadNew, ReadOperators, ReadUnary, ReadPrimary;
  }

  lemma {:induction false} UnderstoodCoalescing(ts: Tokens)
    requires Read(COALESCING, ts).Some?
    ensures Derived(OfLevel(COALESCING), ts, Read(COALESCING, ts).value)
    decreases |ts|, 20 - COALESCING, 0
  {
    hide Read, Derives, OfLevel;
    CoalescingRead(ts);
    Understood(UNARY, ts);
    var l := Read(UNARY, ts).value;
    if Begins(l.rest, DoubleQuery) {
      Understood(UNARY, l.rest[1..]);
      var r := Read(UNARY, l.rest[1..]).value;
      var a :| ts == a + l.rest && Derives(OfLevel(UNARY), a, l.e);
      var b :| l.rest[1..] == b + r.rest && Derives(OfLevel(UNARY), b, r.e);
      CoalescingDerived(a, l.e, b, r.e, r.rest);
      assert l.rest == [DoubleQuery] + l.rest[1..];
      Between(a, DoubleQuery, b, r.rest);
    } else {
      DerivedOuter(COALESCING, UNARY, ts, l);
    }
  }

  lemma CoalescingDerived(a: Tokens, l: Exp, b: Tokens, r: Exp, rest: Tokens)
    requires Derives(OfLevel(UNARY), a, l) && Derives(OfLevel(UNARY), b, r)
    ensures Derived(OfLevel(COALESCING), a + [DoubleQuery] + b + rest, Parsed(NullCoalescing(l, r), rest))
  {
    hide Derives, Derived;
    assert Coalesces(a + [DoubleQuery] + b, NullCoalescing(l, r));
    DerivedBy(COALESCING, a + [DoubleQuery] + b, rest, NullCoalescing(l, r));
  }

  lemma {:induction false} UnderstoodNew(ts: Tokens)
    requires ReadNew(ts).Some?
    ensures Derived(OfLevel(NEW), ts, ReadNew(ts).value)
    decreases |ts|, 20 - NEW, 0
  {
    hide Read, ReadList, Derives, DerivesList, Derived, Makes;
    if !Begins(ts, KwNew) {
      Understood(FIRST_BINARY, ts);
      DerivedOuter(NEW, FIRST_BINARY, ts, Read(FIRST_BINARY, ts).value);
    } else if Begins(ts[2..], LBrace) {
      var list := UnderstoodList(ts[3..], RBrace);
      var p := ReadList(ts[3..], RBrace).value;
      NewDerived(ts[1].name, list, p.es, p.rest);
      assert ts == [KwNew, ts[1], LBrace] + ts[3..];
      assert ts == [KwNew, ts[1], LBrace] + list + [RBrace] + p.rest;
    } else {
      assert Makes([KwNew, ts[1]], New(ts[1].name)) by { PlainMakes(ts[1].name); }
      DerivedBy(NEW, [KwNew, ts[1]], ts[2..], New(ts[1].name));
      assert ts == [KwNew, ts[1]] + ts[2..];
    }
  }

  lemma PlainMakes(name: nat)
    ensures Makes([KwNew, DataType(name)], New(name))
  {
  }

  lemma NewDerived(ty: nat, list: Tokens, es: seq<Exp>, rest: Tokens)
    requires DerivesList(list, es)
    ensures Derived(OfLevel(NEW), [KwNew, DataType(ty), LBrace] + list + [RBrace] + rest, Parsed(NewWith(ty, es), rest))
  {
    hide DerivesList, Derived;
    assert Makes([KwNew, DataType(ty), LBrace] + list + [RBrace], NewWith(ty, es));
    DerivedBy(NEW, [KwNew, DataType(ty), LBrace] + list + [RBrace], rest, NewWith(ty, es));
  }

  lemma {:induction false} UnderstoodOperators(level: nat, all: Tokens, l: Exp, ts: Tokens)
    requires FIRST_BINARY <= level <= LAST_BINARY && ReadOperators(level, l, ts).Some?
    requires Derived(OfLevel(level), all, Parsed(l, ts))
    ensures Derived(OfLevel(level), all, ReadOperators(level, l, ts).value)
    decreases |ts|, 20 - level, 0
  {
    hide Read, Derives, OfLevel;
    if ts != [] && ts[0].Oper? && BinLevel(ts[0].op) == level {
      Understood(level + 1, ts[1..]);
      var r := Read(level + 1, ts[1..]).value;
      var a :| all == a + ts && Derives(OfLevel(level), a, l);
      var b :| ts[1..] == b + r.rest && Derives(OfLevel(level + 1), b, r.e);
      BinaryDerived(level, a, l, ts[0].op, b, r.e, r.rest);
      assert ts == [ts[0]] + ts[1..];
      Between(a, ts[0], b, r.rest);
      UnderstoodOperators(level, all, Binary(ts[0].op, l, r.e), r.rest);
    }
  }

  lemma BinaryDerived(level: nat, a: Tokens, l: Exp, op: BinOp, b: Tokens, r: Exp, rest: Tokens)
    requires FIRST_BINARY <= level <= LAST_BINARY && BinLevel(op) == level
    requires Derives(OfLevel(level), a, l) && Derives(OfLevel(level + 1), b, r)
    ensures Derived(OfLevel(level), a + [Oper(op)] + b + rest, Parsed(Binary(op, l, r), rest))
  {
    hide Derives, Derived, OfLevel;
    assert Operates(OfLevel(level), OfLevel(level + 1), a + [Oper(op)] + b, Binary(op, l, r));
    DerivedBy(level, a + [Oper(op)] + b, rest, Binary(op, l, r));
  }

  lemma {:induction false} UnderstoodUnary(ts: Tokens)
    requires ReadUnary(ts).Some?
    ensures Derived(OfLevel(UNARY), ts, ReadUnary(ts).value)
    decreases |ts|, 20 - UNARY, 0
  {
    hide Read, ReadUnary, Derives, UnaryOf, IsVariable, OfLevel, Derived;
    UnaryRead(ts);
    if UnaryOf(ts[0]).Some? || ts[0].Step? {
      Understood(PRIMARY, ts[1..]);
      PrefixDerived(ts[0], ts[1..], Read(PRIMARY, ts[1..]).value);
      assert ts == [ts[0]] + ts[1..];
    } else {
      Understood(PRIMARY, ts);
      var v := Read(PRIMARY, ts).value;
      if v.rest != [] && v.rest[0].Step? && IsVariable(v.e) {
        PostfixDerived(ts, v);
      } else {
        DerivedOuter(UNARY, PRIMARY, ts, v);
      }
    }
  }

  lemma UnaryRead(ts: Tokens)
    requires ReadUnary(ts).Some?
    ensures ts != []
    ensures
      if UnaryOf(ts[0]).Some? || ts[0].Step? then
        var inner := Read(PRIMARY, ts[1..]);
        && inner.Some? && (UnaryOf(ts[0]).None? ==> IsVariable(inner.value.e))
        && ReadUnary(ts) == Some(Parsed(Prefixed(ts[0], inner.value.e), inner.value.rest))
      else
        var v := Read(PRIMARY, ts);
        && v.Some?
        && ReadUnary(ts) ==
          if v.value.rest != [] && v.value.rest[0].Step? && IsVariable(v.value.e) then
            Some(Parsed(Increment(v.value.rest[0].inc, v.value.e, true), v.value.rest[1..]))
          else v
  {
    hide Read, UnaryOf, IsVariable;
  }

  lemma PrefixDerived(t: Token, ts: Tokens, p: Parsed)
    requires UnaryOf(t).Some? || (t.Step? && IsVariable(p.e))
    requires Derived(OfLevel(PRIMARY), ts, p)
    ensures Derived(OfLevel(UNARY), [t] + ts, Parsed(Prefixed(t, p.e), p.rest))
  {
    hide Derives, UnaryOf, IsVariable, OfLevel;
    var us :| ts == us + p.rest && Derives(OfLevel(PRIMARY), us, p.e);
    var e := Prefixed(t, p.e);
    StepIsNoSign(t);
    if UnaryOf(t).Some? {
      SignsAre(t, e.uop);
      SignDerives(t, us, p.e);
    } else {
      Inner(PRIMARY, us, p.e);
      assert Steps([t] + us, e);
    }
    DerivedBy(UNARY, [t] + us, p.rest, e);
    assert [t] + ts == [t] + us + p.rest;
  }

  lemma SignDerives(t: Token, us: Tokens, e: Exp)
    requires UnaryOf(t).Some? && Derives(OfLevel(PRIMARY), us, e)
    ensures Signs([t] + us, Unary(UnaryOf(t).value, e))
  {
    hide Derives, UnaryOf;
    SignsAre(t, UnaryOf(t).value);
  }

  lemma PostfixDerived(ts: Tokens, p: Parsed)
    requires Derived(OfLevel(PRIMARY), ts, p) && p.rest != [] && p.rest[0].Step? && IsVariable(p.e)
    ensures Derived(OfLevel(UNARY), ts, Parsed(Increment(p.rest[0].inc, p.e, true), p.rest[1..]))
  {
    hide Derives, IsVariable, OfLevel;
    var us :| ts == us + p.rest && Derives(OfLevel(PRIMARY), us, p.e);
    Inner(PRIMARY, us, p.e);
    var e := Increment(p.rest[0].inc, p.e, true);
    assert Steps(us + [p.rest[0]], e);
    DerivedBy(UNARY, us + [p.rest[0]], p.rest[1..], e);
    assert ts == us + [p.rest[0]] + p.rest[1..];
  }

  lemma {:induction false} UnderstoodPrimary(ts: Tokens)
    requires ReadPrimary(ts).Some?
    ensures Derived(OfLevel(PRIMARY), ts, ReadPrimary(ts).value)
    decreases |ts|, 20 - PRIMARY, 0
  {
    hide Read, ReadPostfix, ReadList, Derives, Derived, Stands;
    match ts[0]
    case Literal(text) =>
      if |ts| >= 3 && ts[1] == ArrowTo && ts[2].Ident? {
        assert Stands([ts[0], ts[1], ts[2]], Arrow(Const(text), ts[2].name)) by { ConstArrowStands(text, ts[2].name); }
        UnderstoodStem(ts, [ts[0], ts[1], ts[2]], Arrow(Const(text), ts[2].name), ts[3..]);
      } else {
        DerivedBy(PRIMARY, [ts[0]], ts[1..], Const(text));
        assert ts == [ts[0]] + ts[1..];
      }
    case KwThis =>
      NamesStand(0);
      UnderstoodStem(ts, [ts[0]], This, ts[1..]);
    case Ident(name) =>
      if Begins(ts[1..], LParen) {
        UnderstoodCall(ts);
      } else {
        NamesStand(name);
        UnderstoodStem(ts, [ts[0]], Base(name), ts[1..]);
      }
    case LParen => UnderstoodParen(ts);
  }

  lemma ConstArrowStands(text: nat, name: nat)
    ensures Stands([Literal(text), ArrowTo, Ident(name)], Arrow(Const(text), name))
  {
  }

  lemma NamesStand(name: nat)
    ensures Stands([Ident(name)], Base(name)) && Stands([KwThis], This)
  {
  }

  lemma {:induction false} UnderstoodStem(ts: Tokens, us: Tokens, v: Exp, rest: Tokens)
    requires ts == us + rest && us != [] && Stands(us, v) && ReadPostfix(v, rest).Some?
    ensures Derived(OfLevel(PRIMARY), ts, ReadPostfix(v, rest).value)
    decreases |rest|, 0, 3
  {
    hide Derives, Derived, Stands, ReadPostfix;
    DerivedBy(VARIABLE, us, rest, v);
    UnderstoodPostfix(ts, v, rest);
    DerivedOuter(PRIMARY, VARIABLE, ts, ReadPostfix(v, rest).value);
  }

  lemma {:induction false} UnderstoodCall(ts: Tokens)
    requires ReadPrimary(ts).Some? && |ts| >= 2 && ts[0].Ident? && ts[1] == LParen
    ensures Derived(OfLevel(PRIMARY), ts, ReadPrimary(ts).value)
    decreases |ts|, 0, 0
  {
    hide Read, ReadPostfix, ReadList, Derives, DerivesList, Derived;
    var list := UnderstoodList(ts[2..], RParen);
    var p := ReadList(ts[2..], RParen).value;
    var us := [ts[0], LParen] + list + [RParen];
    assert Stands(us, FunctionCall(ts[0].name, p.es));
    assert ts == [ts[0], LParen] + ts[2..];
    assert ts == us + p.rest;
    UnderstoodStem(ts, us, FunctionCall(ts[0].name, p.es), p.rest);
  }

  lemma {:induction false} UnderstoodParen(ts: Tokens)
    requires ReadPrimary(ts).Some? && ts != [] && ts[0] == LParen
    ensures Derived(OfLevel(PRIMARY), ts, ReadPrimary(ts).value)
    decreases |ts|, 0, 0
  {
    hide Read, ReadPostfix, Derives;
    Understood(ASSIGNMENT, ts[1..]);
    var e := Read(ASSIGNMENT, ts[1..]).value;
    var inner :| ts[1..] == inner + e.rest && Derives(AssignmentExp, inner, e.e);
    var us := [LParen] + inner + [RParen];
    assert Stands(us, Paren(e.e));
    Enclosed(ts, inner, e.rest);
    UnderstoodStem(ts, us, Paren(e.e), e.rest[1..]);
  }

  lemma Enclosed(ts: Tokens, inner: Tokens, rest: Tokens)
    requires ts != [] && ts[1..] == inner + rest && rest != []
    ensures ts == [ts[0]] + inner + [rest[0]] + rest[1..]
  {
    assert ts == [ts[0]] + ts[1..] && rest == [rest[0]] + rest[1..];
  }

  /** The tokens so far are the variable `v`, and what follows goes on with it. */
  lemma {:induction false} UnderstoodPostfix(all: Tokens, v: Exp, ts: Tokens)
    requires ReadPostfix(v, ts).Some? && Derived(OfLevel(VARIABLE), all, Parsed(v, ts))
    ensures Derived(OfLevel(VARIABLE), all, ReadPostfix(v, ts).value)
    decreases |ts|, 0, 1
  {
    hide Read, ReadList, Derived, OfLevel, DerivesList;
    if ts != [] {
      match ts[0]
      case LBracket => UnderstoodIndex(all, v, ts);
      case Dot => if |ts| >= 2 && ts[1].Ident? { UnderstoodMember(all, v, ts); }
      case ArrowTo => UnderstoodSuffix(all, v, ts, Arrow(v, ts[1].name), ts[..2], ts[2..]);
      case At => UnderstoodSuffix(all, v, ts, Dereference(v), ts[..1], ts[1..]);
      case Dollar => UnderstoodSuffix(all, v, ts, AddressOf(v), ts[..1], ts[1..]);
      case _ =>
    }
  }

  lemma {:induction false} UnderstoodSuffix(all: Tokens, v: Exp, ts: Tokens, w: Exp, suffix: Tokens, rest: Tokens)
    requires w.Index? || w.Member? || w.MemberCall? || w.Dereference? || w.AddressOf? || w.Arrow?
    requires w.v == v && Follows(suffix, w) && ts == suffix + rest && suffix != [] && ReadPostfix(w, rest).Some?
    requires Derived(OfLevel(VARIABLE), all, Parsed(v, ts))
    ensures Derived(OfLevel(VARIABLE), all, ReadPostfix(w, rest).value)
    decreases |rest|, 0, 2
  {
    hide ReadPostfix, Derives, Follows;
    var us :| all == us + ts && Derives(OfLevel(VARIABLE), us, v);
    assert Goes(us + suffix, w);
    DerivedBy(VARIABLE, us + suffix, rest, w);
    assert all == us + suffix + rest;
    UnderstoodPostfix(all, w, rest);
  }

  lemma {:induction false} UnderstoodIndex(all: Tokens, v: Exp, ts: Tokens)
    requires ReadPostfix(v, ts).Some? && Derived(OfLevel(VARIABLE), all, Parsed(v, ts)) && ts != [] && ts[0] == LBracket
    ensures Derived(OfLevel(VARIABLE), all, ReadPostfix(v, ts).value)
    decreases |ts|, 0, 0
  {
    hide Read, Derives;
    Understood(ASSIGNMENT, ts[1..]);
    var i := Read(ASSIGNMENT, ts[1..]).value;
    var inner :| ts[1..] == inner + i.rest && Derives(AssignmentExp, inner, i.e);
    var suffix := [LBracket] + inner + [RBracket];
    Enclosed(ts, inner, i.rest);
    assert Follows(suffix, Index(v, i.e));
    UnderstoodSuffix(all, v, ts, Index(v, i.e), suffix, i.rest[1..]);
  }

  lemma {:induction false} UnderstoodMember(all: Tokens, v: Exp, ts: Tokens)
    requires ReadPostfix(v, ts).Some? && Derived(OfLevel(VARIABLE), all, Parsed(v, ts))
    requires |ts| >= 2 && ts[0] == Dot && ts[1].Ident?
    ensures Derived(OfLevel(VARIABLE), all, ReadPostfix(v, ts).value)
    decreases |ts|, 0, 0
  {
    hide Read, ReadList, Derives, DerivesList, Derived;
    if Begins(ts[2..], LParen) {
      var list := UnderstoodList(ts[3..], RParen);
      var p := ReadList(ts[3..], RParen).value;
      var suffix := [Dot, ts[1], LParen] + list + [RParen];
      assert ts == [Dot, ts[1], LParen] + ts[3..];
      assert ts == suffix + p.rest;
      assert Follows(suffix, MemberCall(v, ts[1].name, p.es));
      UnderstoodSuffix(all, v, ts, MemberCall(v, ts[1].name, p.es), suffix, p.rest);
    } else {
      UnderstoodSuffix(all, v, ts, Member(v, ts[1].name), ts[..2], ts[2..]);
    }
  }

  lemma {:induction false} UnderstoodList(ts: Tokens, close: Token) returns (list: Tokens)
    requires ReadList(ts, close).Some?
    ensures var p := ReadList(ts, close).value; ts == list + [close] + p.rest && DerivesList(list, p.es)
    decreases |ts|, 20, 3
  {
    hide Read, ReadItems, Derives, DerivesList;
    var p := ReadList(ts, close).value;
    if Begins(ts, close) {
      list := [];
      NothingDerived();
      assert ts == [] + [close] + ts[1..];
    } else {
      var comma := Begins(ts, Comma);
      var parts := UnderstoodItems(if comma then ts[1..] else ts, close);
      PartsList(parts, p.es, comma);
      list := Leading(comma) + Join(parts);
      if comma {
        assert ts == [Comma] + ts[1..];
        assert ts == list + [close] + p.rest;
      } else {
        assert list == Join(parts);
      }
    }
  }

  lemma Closed(ts: Tokens, us: Tokens, rest: Tokens)
    requires ts == us + rest && rest != []
    ensures ts == us + [rest[0]] + rest[1..]
  {
    assert rest == [rest[0]] + rest[1..];
  }

  lemma ItemBefore(ts: Tokens, us: Tokens, rest0: Tokens, more: Tokens, close: Tokens, rest: Tokens)
    requires ts == us + rest0 && rest0 != [] && rest0[1..] == more + close + rest
    ensures ts == us + [rest0[0]] + more + close + rest
  {
    Closed(ts, us, rest0);
    assert us + [rest0[0]] + (more + close + rest) == us + [rest0[0]] + more + close + rest;
  }

  lemma NothingDerived()
    ensures DerivesList([], [])
  {
  }

  lemma {:induction false} UnderstoodItems(ts: Tokens, close: Token) returns (parts: seq<Tokens>)
    requires ReadItems(ts, close).Some?
    ensures
      var p := ReadItems(ts, close).value;
      p.es != [] && Items(parts, p.es) && ts == Join(parts) + [close] + p.rest
    decreases |ts|, 20, 2
  {
    hide Read, Derives;
    Understood(ASSIGNMENT, ts);
    var e := Read(ASSIGNMENT, ts).value;
    var us :| ts == us + e.rest && Derives(AssignmentExp, us, e.e);
    if Begins(e.rest, Comma) {
      var p := ReadItems(e.rest[1..], close).value;
      var more := UnderstoodItems(e.rest[1..], close);
      parts := [us] + more;
      assert parts[1..] == more;
      ItemBefore(ts, us, e.rest, Join(more), [close], p.rest);
    } else {
      parts := [us];
      assert Join(parts) == us;
      Closed(ts, us, e.rest);
    }
  }
}
