/**
 What the derivations of the grammar look like: the level of a tree, and the first token.

 The nonterminals are numbered as the reader numbers them, from the outside inwards.
 */
module Derivations {
  import opened Options
  import opened FormatTree
  import opened FormatExpression
  import opened Reader
  import opened Grammar

  function OfLevel(level: nat): Nonterminal
    requires level <= VARIABLE
  {
    match level
    case 0 => AssignmentExp
    case 1 => TernaryExp
    case 2 => NewExp
    case 3 => LogicalOrExp
    case 4 => LogicalAndExp
    case 5 => EqualsExp
    case 6 => GreaterOrLessExp
    case 7 => BitOrExp
    case 8 => BitXorExp
    case 9 => BitAndExp
    case 10 => ShiftExp
    case 11 => AdditionExp
    case 12 => MultiplicationExp
    case 13 => NullCoalescingExp
    case 14 => UnaryExp
    case 15 => PrimaryExp
    case _ => VariableExp
  }

  /** What the rules of a level derive, other than what the next level does. */
  ghost predicate Own(level: nat, us: Tokens, e: Exp)
    requires level <= VARIABLE
  {
    if level == ASSIGNMENT then Assigns(us, e)
    else if level == TERNARY then Chooses(us, e)
    else if level == NEW then Makes(us, e)
    else if level <= LAST_BINARY then
      e.Binary? && BinLevel(e.bop) == level && Operates(OfLevel(level), OfLevel(level + 1), us, e)
    else if level == COALESCING then Coalesces(us, e)
    else if level == UNARY then Steps(us, e) || Signs(us, e)
    else if level == PRIMARY then e.Const? && us == [Literal(e.text)]
    else Stands(us, e) || Goes(us, e)
  }

  lemma Rule(level: nat, us: Tokens, e: Exp)
    requires level <= VARIABLE
    ensures Derives(OfLevel(level), us, e)
      <==> (level < VARIABLE && Derives(OfLevel(level + 1), us, e)) || Own(level, us, e)
  {
    hide Assigns, Chooses, Makes, Operates, Coalesces, Steps, Signs, Stands, Goes, Chain, BinLevel;
    if FIRST_BINARY <= level <= LAST_BINARY { BinaryRule(level, us, e); }
  }

  lemma BinaryRule(level: nat, us: Tokens, e: Exp)
    requires FIRST_BINARY <= level <= LAST_BINARY
    ensures Derives(OfLevel(level), us, e) <==>
      || Derives(OfLevel(level + 1), us, e)
      || (e.Binary? && BinLevel(e.bop) == level && Operates(OfLevel(level), OfLevel(level + 1), us, e))
  {
    hide Assigns, Chooses, Makes, Operates, Coalesces, Steps, Signs, Stands, Goes;
  }

  lemma OwnLevel(level: nat, us: Tokens, e: Exp)
    requires level <= VARIABLE && Own(level, us, e)
    ensures Level(e) == level
  {
  }

  lemma {:induction false} Outer(low: nat, high: nat, us: Tokens, e: Exp)
    requires low <= high <= VARIABLE && Derives(OfLevel(high), us, e)
    ensures Derives(OfLevel(low), us, e)
    decreases high - low
  {
    if low < high {
      Outer(low + 1, high, us, e);
      Rule(low, us, e);
    }
  }

  // ---------------------------------------------------------------- the parts of an expression

  lemma AssignmentParts(us: Tokens, e: Exp) returns (v: Tokens, sign: AsgText, rhs: Tokens)
    requires Assigns(us, e)
    ensures us == v + [Asg(sign)] + rhs && (sign, e.aop) in ASSIGNMENTS
    ensures Derives(VariableExp, v, e.v) && Derives(AssignmentExp, rhs, e.rhs)
  {
    v, sign, rhs :| us == v + [Asg(sign)] + rhs && (sign, e.aop) in ASSIGNMENTS
      && Derives(VariableExp, v, e.v) && Derives(AssignmentExp, rhs, e.rhs);
  }

  lemma TernaryParts(us: Tokens, e: Exp) returns (c: Tokens, yes: Tokens, no: Tokens)
    requires Chooses(us, e)
    ensures us == c + [Query] + yes + [Colon] + no
    ensures Derives(NewExp, c, e.c) && Derives(NewExp, yes, e.yes) && Derives(NewExp, no, e.no)
  {
    c, yes, no :| us == c + [Query] + yes + [Colon] + no
      && Derives(NewExp, c, e.c) && Derives(NewExp, yes, e.yes) && Derives(NewExp, no, e.no);
  }

  lemma NewParts(us: Tokens, e: Exp) returns (list: Tokens)
    requires Makes(us, e) && e.NewWith?
    ensures us == [KwNew, DataType(e.ty), LBrace] + list + [RBrace] && DerivesList(list, e.args)
  {
    list :| us == [KwNew, DataType(e.ty), LBrace] + list + [RBrace] && DerivesList(list, e.args);
  }

  lemma BinaryParts(n: Nonterminal, operand: Nonterminal, us: Tokens, e: Exp) returns (l: Tokens, r: Tokens)
    requires e.Binary? && Operates(n, operand, us, e)
    ensures us == l + [Oper(e.bop)] + r && Derives(n, l, e.l) && Derives(operand, r, e.r)
  {
    l, r :| us == l + [Oper(e.bop)] + r && Derives(n, l, e.l) && Derives(operand, r, e.r);
  }

  lemma CoalescingParts(us: Tokens, e: Exp) returns (l: Tokens, r: Tokens)
    requires Coalesces(us, e)
    ensures us == l + [DoubleQuery] + r && Derives(UnaryExp, l, e.l) && Derives(UnaryExp, r, e.r)
  {
    l, r :| us == l + [DoubleQuery] + r && Derives(UnaryExp, l, e.l) && Derives(UnaryExp, r, e.r);
  }

  lemma StepParts(us: Tokens, e: Exp) returns (v: Tokens)
    requires Steps(us, e)
    ensures (us == if e.postfix then v + [Step(e.inc)] else [Step(e.inc)] + v) && Derives(VariableExp, v, e.v)
  {
    v :| (us == if e.postfix then v + [Step(e.inc)] else [Step(e.inc)] + v) && Derives(VariableExp, v, e.v);
  }

  lemma SignParts(us: Tokens, e: Exp) returns (sign: Token, inner: Tokens)
    requires Signs(us, e)
    ensures us == [sign] + inner && (sign, e.uop) in SIGNS && Derives(PrimaryExp, inner, e.e)
  {
    sign, inner :| us == [sign] + inner && (sign, e.uop) in SIGNS && Derives(PrimaryExp, inner, e.e);
  }

  lemma ParenParts(us: Tokens, e: Exp) returns (inner: Tokens)
    requires Stands(us, e) && e.Paren?
    ensures us == [LParen] + inner + [RParen] && Derives(AssignmentExp, inner, e.e)
  {
    inner :| us == [LParen] + inner + [RParen] && Derives(AssignmentExp, inner, e.e);
  }

  lemma CallParts(us: Tokens, e: Exp) returns (list: Tokens)
    requires Stands(us, e) && e.FunctionCall?
    ensures us == [Ident(e.name), LParen] + list + [RParen] && DerivesList(list, e.args)
  {
    list :| us == [Ident(e.name), LParen] + list + [RParen] && DerivesList(list, e.args);
  }

  lemma VariableParts(us: Tokens, e: Exp) returns (v: Tokens, suffix: Tokens)
    requires Goes(us, e)
    ensures us == v + suffix && Derives(VariableExp, v, e.v) && Follows(suffix, e)
  {
    v, suffix :| us == v + suffix && Derives(VariableExp, v, e.v) && Follows(suffix, e);
  }

  lemma IndexParts(us: Tokens, e: Exp) returns (inner: Tokens)
    requires Follows(us, e) && e.Index?
    ensures us == [LBracket] + inner + [RBracket] && Derives(AssignmentExp, inner, e.index)
  {
    inner :| us == [LBracket] + inner + [RBracket] && Derives(AssignmentExp, inner, e.index);
  }

  lemma MemberCallParts(us: Tokens, e: Exp) returns (list: Tokens)
    requires Follows(us, e) && e.MemberCall?
    ensures us == [Dot, Ident(e.name), LParen] + list + [RParen] && DerivesList(list, e.args)
  {
    list :| us == [Dot, Ident(e.name), LParen] + list + [RParen] && DerivesList(list, e.args);
  }

  lemma {:induction false} JoinLast(parts: seq<Tokens>, last: Tokens)
    requires parts != []
    ensures Join(parts + [last]) == Join(parts) + [Comma] + last
  {
    var all := parts + [last];
    assert all[1..] == parts[1..] + [last];
    if |parts| == 1 {
      assert all[1..] == [last];
    } else {
      JoinLast(parts[1..], last);
      assert parts[0] + [Comma] + (Join(parts[1..]) + [Comma] + last)
          == parts[0] + [Comma] + Join(parts[1..]) + [Comma] + last;
    }
  }

  ghost predicate Items(parts: seq<Tokens>, es: seq<Exp>) {
    |parts| == |es| && forall i | 0 <= i < |es| :: Derives(AssignmentExp, parts[i], es[i])
  }

  function Leading(comma: bool): Tokens {
    if comma then [Comma] else []
  }

  /** A list is its items with commas between them; if it is not empty, a comma may stand before them. */
  lemma {:induction false} ListParts(us: Tokens, es: seq<Exp>) returns (parts: seq<Tokens>, comma: bool)
    requires DerivesList(us, es)
    ensures Items(parts, es) && |parts| == |es| && us == Leading(comma) + Join(parts) && (es == [] ==> !comma)
    decreases es
  {
    hide Derives;
    if es == [] {
      parts, comma := [], false;
    } else if |es| == 1 && Derives(AssignmentExp, us, es[0]) {
      parts, comma := [us], false;
    } else {
      var n := |es| - 1;
      var list, last := ListEnd(us, es);
      parts, comma := ListParts(list, es[..n]);
      if n == 0 {
        comma := true;
      } else {
        JoinLast(parts, last);
      }
      parts := parts + [last];
    }
  }

  lemma ListEnd(us: Tokens, es: seq<Exp>) returns (list: Tokens, last: Tokens)
    requires es != [] && Extends(us, es)
    ensures us == list + [Comma] + last
    ensures DerivesList(list, es[..|es| - 1]) && Derives(AssignmentExp, last, es[|es| - 1])
  {
    list, last :| us == list + [Comma] + last
      && DerivesList(list, es[..|es| - 1]) && Derives(AssignmentExp, last, es[|es| - 1]);
  }

  lemma JoinedLast(lead: Tokens, init: seq<Tokens>, last: Tokens)
    requires init != []
    ensures lead + Join(init + [last]) == lead + Join(init) + [Comma] + last
  {
    hide Join;
    JoinLast(init, last);
    Regroup(lead, Join(init), [Comma], last);
  }

  lemma Regroup(a: Tokens, b: Tokens, c: Tokens, d: Tokens)
    ensures a + (b + c + d) == a + b + c + d
  {
  }

  lemma {:induction false} PartsList(parts: seq<Tokens>, es: seq<Exp>, comma: bool)
    requires Items(parts, es) && (es == [] ==> !comma)
    ensures DerivesList(Leading(comma) + Join(parts), es)
    decreases es
  {
    hide Derives;
    if es != [] && (comma || |es| > 1) {
      var n := |es| - 1;
      var init, last := parts[..n], parts[n];
      assert parts == init + [last];
      if n > 0 {
        PartsList(init, es[..n], comma);
        JoinedLast(Leading(comma), init, last);
        assert Extends(Leading(comma) + Join(init) + [Comma] + last, es);
      } else {
        PartsList([], [], false);
        assert Leading(true) + Join([last]) == [] + [Comma] + last;
        assert Extends([] + [Comma] + last, es);
      }
    } else {
      assert Leading(comma) + Join(parts) == Join(parts);
    }
  }

  // ---------------------------------------------------------------- the trees

  /** What is derived is a tree of the grammar, of that level or a higher one. */
  lemma {:induction false} Shape(level: nat, us: Tokens, e: Exp)
    requires level <= VARIABLE && Derives(OfLevel(level), us, e)
    ensures Grammatical(e) && Level(e) >= level
    decreases e, 20 - level
  {
    hide Derives, Grammatical, Operates, Assigns, Chooses, Makes, Coalesces, Steps, Signs, Stands, Goes;
    Rule(level, us, e);
    if Own(level, us, e) {
      OwnLevel(level, us, e);
      if level == VARIABLE { ShapeVariable(us, e); } else { ShapeOwn(level, us, e); }
    } else {
      Shape(level + 1, us, e);
    }
  }

  lemma {:induction false} ShapeOwn(level: nat, us: Tokens, e: Exp)
    requires level < VARIABLE && Own(level, us, e)
    ensures Grammatical(e)
    decreases e, 0
  {
    hide Derives, DerivesList, BinLevel;
    if level == ASSIGNMENT {
      var v, _, rhs := AssignmentParts(us, e);
      Shape(VARIABLE, v, e.v);
      Shape(ASSIGNMENT, rhs, e.rhs);
    } else if level == TERNARY {
      var c, yes, no := TernaryParts(us, e);
      Shape(NEW, c, e.c);
      Shape(NEW, yes, e.yes);
      Shape(NEW, no, e.no);
    } else if level == NEW {
      if e.NewWith? {
        var list := NewParts(us, e);
        ShapeList(list, e.args);
      }
    } else if level <= LAST_BINARY {
      var l, r := BinaryParts(OfLevel(level), OfLevel(level + 1), us, e);
      Shape(level, l, e.l);
      Shape(level + 1, r, e.r);
    } else if level == COALESCING {
      var l, r := CoalescingParts(us, e);
      Shape(UNARY, l, e.l);
      Shape(UNARY, r, e.r);
    } else if level == UNARY && e.Increment? {
      var v := StepParts(us, e);
      Shape(VARIABLE, v, e.v);
    } else if level == UNARY {
      var _, inner := SignParts(us, e);
      Shape(PRIMARY, inner, e.e);
    }
  }

  lemma {:induction false} ShapeVariable(us: Tokens, e: Exp)
    requires Stands(us, e) || Goes(us, e)
    ensures Grammatical(e)
    decreases e, 1
  {
    hide Derives, DerivesList, BinLevel;
    if e.Paren? {
      var inner := ParenParts(us, e);
      Shape(ASSIGNMENT, inner, e.e);
    } else if e.FunctionCall? {
      var list := CallParts(us, e);
      ShapeList(list, e.args);
    } else if Goes(us, e) {
      var v, suffix := VariableParts(us, e);
      Shape(VARIABLE, v, e.v);
      if e.Index? {
        var inner := IndexParts(suffix, e);
        Shape(ASSIGNMENT, inner, e.index);
      } else if e.MemberCall? {
        var list := MemberCallParts(suffix, e);
        ShapeList(list, e.args);
      }
    }
  }

  lemma {:induction false} ShapeList(us: Tokens, es: seq<Exp>)
    requires DerivesList(us, es)
    ensures AllGrammatical(es)
    decreases es
  {
    hide Derives, Grammatical;
    var parts, _ := ListParts(us, es);
    forall i | 0 <= i < |es| ensures Grammatical(es[i]) { Shape(ASSIGNMENT, parts[i], es[i]); }
  }

  // ---------------------------------------------------------------- first tokens

  /** A token with which an expression can begin. */
  predicate BeginsExpression(t: Token) {
    t.Ident? || t.KwThis? || t.Literal? || t.LParen? || t.KwNew? || t.Step? || UnaryOf(t).Some?
  }

  lemma SignsAre(sign: Token, op: UnaryOp)
    ensures (sign, op) in SIGNS <==> UnaryOf(sign) == Some(op)
    ensures (UnaryToken(op), op) in SIGNS
  {
  }

  lemma {:induction false} First(level: nat, us: Tokens, e: Exp)
    requires level <= VARIABLE && Derives(OfLevel(level), us, e)
    ensures us != [] && BeginsExpression(us[0])
    ensures level > NEW ==> us[0] != KwNew
    ensures level >= PRIMARY ==> !us[0].Step? && UnaryOf(us[0]).None?
    decreases e, 20 - level
  {
    hide Derives, Own;
    Rule(level, us, e);
    if Own(level, us, e) {
      OwnLevel(level, us, e);
      FirstOwn(level, us, e);
    } else {
      First(level + 1, us, e);
    }
  }

  lemma {:induction false} FirstOwn(level: nat, us: Tokens, e: Exp)
    requires level <= VARIABLE && Own(level, us, e)
    ensures us != [] && BeginsExpression(us[0])
    ensures level > NEW ==> us[0] != KwNew
    ensures level >= PRIMARY ==> !us[0].Step? && UnaryOf(us[0]).None?
    decreases e, 0
  {
    hide Derives, DerivesList, BinLevel, Follows;
    if level == ASSIGNMENT {
      var v, _, _ := AssignmentParts(us, e);
      First(VARIABLE, v, e.v);
    } else if level == TERNARY {
      var c, _, _ := TernaryParts(us, e);
      First(NEW, c, e.c);
    } else if FIRST_BINARY <= level <= LAST_BINARY {
      var l, _ := BinaryParts(OfLevel(level), OfLevel(level + 1), us, e);
      First(level, l, e.l);
    } else if level == COALESCING {
      var l, _ := CoalescingParts(us, e);
      First(UNARY, l, e.l);
    } else if level == UNARY && e.Increment? {
      var v := StepParts(us, e);
      First(VARIABLE, v, e.v);
    } else if level == UNARY {
      var sign, _ := SignParts(us, e);
      SignsAre(sign, e.uop);
    } else if level == VARIABLE {
      FirstOfVariable(us, e);
    }
  }

  lemma {:induction false} FirstOfVariable(us: Tokens, e: Exp)
    requires Stands(us, e) || Goes(us, e)
    ensures us != [] && BeginsExpression(us[0]) && us[0] != KwNew && !us[0].Step? && UnaryOf(us[0]).None?
    decreases e, 0, 0
  {
    hide Derives, DerivesList, Follows;
    if Goes(us, e) {
      var v, _ := VariableParts(us, e);
      First(VARIABLE, v, e.v);
    } else if e.Paren? {
      var _ := ParenParts(us, e);
    } else if e.FunctionCall? {
      var _ := CallParts(us, e);
    }
  }
}
