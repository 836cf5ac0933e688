/**
 Printing statements and reading them back.

 The grammar derives the printing of every list of statements, as the same list but for one mistake of the
 formatter: it leaves out the object of a destructor call when a token of that object is `this`.
 */
module StatementRoundTrip {
  import opened Options
  import opened FormatTree
  import opened FormatExpression
  import opened FormatStatement
  import opened Reader
  import opened StatementReader
  import opened Grammar
  import opened StatementGrammar
  import opened Derivations
  import opened Readings
  import opened StatementReadings
  import opened ExpressionRoundTrip

  // ---------------------------------------------------------------- what is read back

  /** The statement that is read back: destructor calls whose object was left out are calls on `this`. */
  function Settled(s: Stm): Stm
    decreases s, 1
  {
    match s
    case DestructorCall(v) => if TokenIsThis(v) then DestructorCall(This) else s
    case LoopStm(body) => LoopStm(SettledStms(body))
    case WhileStm(cond, body, doWhile, until) => WhileStm(cond, SettledStms(body), doWhile, until)
    case SwitchStm(subject, cases) => SwitchStm(subject, SettledCases(cases))
    case ForStm(pre, cond, post, body) => ForStm(pre, cond, post, SettledStms(body))
    case IfStm(test, body, elseBody) => IfStm(test, SettledStms(body), SettledElse(elseBody))
    case _ => s
  }

  function SettledStms(ss: seq<Stm>): (r: seq<Stm>)
    ensures |r| == |ss|
    decreases ss, 0
  {
    if ss == [] then [] else [Settled(ss[0])] + SettledStms(ss[1..])
  }

  function SettledCases(cases: seq<SwitchCase>): (r: seq<SwitchCase>)
    ensures |r| == |cases|
    decreases cases, 0
  {
    if cases == [] then []
    else [SwitchCase(cases[0].value, SettledStms(cases[0].body))] + SettledCases(cases[1..])
  }

  function SettledElse(e: ElseBody): ElseBody
    decreases e, 0
  {
    if e.NoElse? then NoElse else ElseBody.Else(SettledStms(e.body))
  }

  /** The object of a destructor call is `this` itself, or has no token `this` that stands for it. */
  predicate Named(v: Exp) {
    TokenIsThis(v) ==> v == This
  }

  /** No destructor call in the statement loses its object. */
  predicate Faithful(s: Stm)
    decreases s, 1
  {
    match s
    case DestructorCall(v) => Named(v)
    case LoopStm(body) => FaithfulStms(body)
    case WhileStm(_, body, _, _) => FaithfulStms(body)
    case SwitchStm(_, cases) => FaithfulCases(cases)
    case ForStm(_, _, _, body) => FaithfulStms(body)
    case IfStm(_, body, elseBody) => FaithfulStms(body) && (elseBody.Else? ==> FaithfulStms(elseBody.body))
    case _ => true
  }

  predicate FaithfulStms(ss: seq<Stm>)
    decreases ss, 0
  {
    forall i | 0 <= i < |ss| :: Faithful(ss[i])
  }

  predicate FaithfulCases(cases: seq<SwitchCase>)
    decreases cases, 0
  {
    forall i | 0 <= i < |cases| :: FaithfulStms(cases[i].body)
  }

  // ---------------------------------------------------------------- what is derived is a tree of the grammar

  lemma ShapeOptional(us: Tokens, e: Option<Exp>)
    requires DerivesOptional(us, e)
    ensures GrammaticalOption(e)
  {
    hide Derives, Grammatical;
    if e.Some? { Shape(ASSIGNMENT, us, e.value); }
  }

  lemma ShapeVariables(us: Tokens, vars: seq<Variable>)
    requires DerivesVariables(us, vars)
    ensures GrammaticalGroup(vars)
  {
    hide Derives, DerivesList, Grammatical;
    var parts: seq<Tokens> :| |parts| == |vars| && us == Join(parts)
      && forall i | 0 <= i < |vars| :: DerivesVariable(parts[i], vars[i]);
    forall i | 0 <= i < |vars| ensures GrammaticalVariable(vars[i]) {
      match vars[i].init
      case NoInit =>
      case InitExp(e) =>
        var x :| Derives(AssignmentExp, x, e);
        Shape(ASSIGNMENT, x, e);
      case InitList(es) =>
        var x :| DerivesList(x, es);
        ShapeList(x, es);
    }
  }

  lemma ShapeHeader(us: Tokens, pre: seq<Stm>)
    requires DerivesHeader(us, pre)
    ensures IsHeader(pre) && GrammaticalStms(pre)
  {
    hide DerivesVariables, DerivesList, Grammatical;
    if |pre| == 1 && pre[0].VariableGroup? && DerivesGroup(us, pre[0].ty, pre[0].vars) {
      var list :| us == [DataType(pre[0].ty)] + list && DerivesVariables(list, pre[0].vars);
      ShapeVariables(list, pre[0].vars);
    } else {
      var es: seq<Exp> :| |es| == |pre| && (forall i | 0 <= i < |es| :: pre[i] == ExpressionStm(es[i]))
        && DerivesList(us, es);
      ShapeList(us, es);
    }
  }

  lemma ShapeSimple(us: Tokens, s: Stm)
    requires Simple(us, s)
    ensures GrammaticalStm(s)
  {
    hide Derives, DerivesVariables, DerivesOptional, Grammatical, Level;
    match s
    case ExpressionStm(e) =>
      var x :| Derives(AssignmentExp, x, e);
      Shape(ASSIGNMENT, x, e);
    case VariableGroup(ty, vars) =>
      var x :| DerivesGroup(x, ty, vars);
      var list :| DerivesVariables(list, vars);
      ShapeVariables(list, vars);
    case ReturnStm(e) =>
      var x :| DerivesOptional(x, e);
      ShapeOptional(x, e);
    case BranchStm(_, e) =>
      var x :| DerivesOptional(x, e);
      ShapeOptional(x, e);
    case DeleteStm(v, size) =>
      var x :| Derives(VariableExp, x, v);
      Shape(VARIABLE, x, v);
      if size.Some? {
        var n :| Derives(AssignmentExp, n, size.value);
        Shape(ASSIGNMENT, n, size.value);
      }
    case DestructorCall(v) =>
      ThisIsVariable();
      if v != This {
        var x :| Derives(VariableExp, x, v);
        Shape(VARIABLE, x, v);
      }
    case _ =>
  }

  lemma ThisIsVariable()
    ensures Grammatical(This) && IsVariable(This)
  {
  }

  lemma {:induction false} ShapeStm(open: bool, us: Tokens, s: Stm)
    requires DerivesStm(open, us, s)
    ensures GrammaticalStm(s)
    decreases s, 2
  {
    hide Simple, Loops, Whiles, Does, Switches, Fors, Ifs, IfElses, GrammaticalStm;
    match s
    case LoopStm(_) => ShapeLoop(open, us, s);
    case WhileStm(_, _, _, _) => ShapeWhile(open, us, s);
    case SwitchStm(_, _) => ShapeSwitch(us, s);
    case ForStm(_, _, _, _) => ShapeFor(open, us, s);
    case IfStm(_, _, _) => ShapeIf(open, us, s);
    case _ => ShapeSimple(us, s);
  }

  lemma {:induction false} ShapeLoop(open: bool, us: Tokens, s: Stm)
    requires s.LoopStm? && Loops(open, us, s)
    ensures GrammaticalStm(s)
    decreases s, 1
  {
    hide DerivesBody;
    var b :| DerivesBody(open, b, s.body);
    ShapeBody(open, b, s.body);
  }

  lemma {:induction false} ShapeWhile(open: bool, us: Tokens, s: Stm)
    requires s.WhileStm? && if s.doWhile then Does(us, s) else Whiles(open, us, s)
    ensures GrammaticalStm(s)
    decreases s, 1
  {
    hide DerivesBody, DerivesOptional;
    var c, inner, b :| DerivesOptional(c, s.cond) && DerivesBody(inner, b, s.body);
    ShapeOptional(c, s.cond);
    ShapeBody(inner, b, s.body);
  }

  lemma {:induction false} ShapeSwitch(us: Tokens, s: Stm)
    requires s.SwitchStm? && Switches(us, s)
    ensures GrammaticalStm(s)
    decreases s, 1
  {
    hide Derives, DerivesCases;
    var x, y :| Derives(AssignmentExp, x, s.subject) && DerivesCases(y, s.cases);
    Shape(ASSIGNMENT, x, s.subject);
    ShapeCases(y, s.cases);
  }

  lemma {:induction false} ShapeFor(open: bool, us: Tokens, s: Stm)
    requires s.ForStm? && Fors(open, us, s)
    ensures GrammaticalStm(s)
    decreases s, 1
  {
    hide DerivesHeader, DerivesOptional, DerivesList, DerivesBody, Grammatical;
    var a, c, p, b :|
      DerivesHeader(a, s.pre) && DerivesOptional(c, s.cond) && DerivesList(p, s.post) && DerivesBody(open, b, s.body);
    ShapeHeader(a, s.pre);
    ShapeOptional(c, s.cond);
    ShapeList(p, s.post);
    ShapeBody(open, b, s.body);
  }

  lemma {:induction false} ShapeIf(open: bool, us: Tokens, s: Stm)
    requires s.IfStm? && if s.elseBody.Else? then IfElses(open, us, s) else Ifs(us, s)
    ensures GrammaticalStm(s)
    decreases s, 1
  {
    hide Derives, DerivesBody, Grammatical;
    var x, inner, b :| Derives(AssignmentExp, x, s.test) && DerivesBody(inner, b, s.body);
    Shape(ASSIGNMENT, x, s.test);
    ShapeBody(inner, b, s.body);
    if s.elseBody.Else? {
      var d :| DerivesBody(open, d, s.elseBody.body);
      ShapeBody(open, d, s.elseBody.body);
    }
  }

  lemma {:induction false} ShapeBody(open: bool, us: Tokens, ss: seq<Stm>)
    requires DerivesBody(open, us, ss)
    ensures GrammaticalStms(ss)
    decreases ss, 1
  {
    hide DerivesStm, DerivesStms, GrammaticalStm;
    if |ss| == 1 && DerivesStm(open, us, ss[0]) {
      ShapeStm(open, us, ss[0]);
    } else if ss != [] {
      var x :| DerivesStms(x, ss);
      ShapeStms(x, ss);
    }
  }

  lemma {:induction false} ShapeStms(us: Tokens, ss: seq<Stm>)
    requires DerivesStms(us, ss)
    ensures GrammaticalStms(ss)
    decreases ss, 0
  {
    hide DerivesStm, GrammaticalStm;
    var parts: seq<Tokens> :| |parts| == |ss| && us == Concat(parts)
      && forall i | 0 <= i < |ss| :: DerivesStm(true, parts[i], ss[i]) || DerivesStm(false, parts[i], ss[i]);
    forall i | 0 <= i < |ss| ensures GrammaticalStm(ss[i]) {
      ShapeStm(DerivesStm(true, parts[i], ss[i]), parts[i], ss[i]);
    }
  }

  lemma {:induction false} ShapeCases(us: Tokens, cases: seq<SwitchCase>)
    requires DerivesCases(us, cases)
    ensures GrammaticalCases(cases)
    decreases cases, 0
  {
    hide Derives, DerivesStms, Grammatical, GrammaticalStms;
    var parts: seq<Tokens> :| |parts| == |cases| && us == Concat(parts)
      && forall i | 0 <= i < |cases| :: DerivesCase(parts[i], cases[i]);
    forall i | 0 <= i < |cases| ensures GrammaticalOption(cases[i].value) && GrammaticalStms(cases[i].body) {
      assert DerivesCase(parts[i], cases[i]);
      var y :| DerivesStms(y, cases[i].body);
      ShapeStms(y, cases[i].body);
      if cases[i].value.Some? {
        var x :| Derives(AssignmentExp, x, cases[i].value.value);
        Shape(ASSIGNMENT, x, cases[i].value.value);
      }
    }
  }

  // ---------------------------------------------------------------- what is printed is derived: parts of statements

  lemma PrintedOption(e: Option<Exp>)
    requires GrammaticalOption(e)
    ensures DerivesOptional(PrintOption(e), e)
  {
    hide Derives, Print, Grammatical;
    if e.Some? { Printed(ASSIGNMENT, e.value); }
  }

  lemma PrintedVariable1(v: Variable)
    requires GrammaticalVariable(v)
    ensures DerivesVariable(PrintVariable(v), v)
  {
    hide Derives, DerivesList, Print, PrintList, Grammatical;
    match v.init
    case NoInit =>
    case InitExp(e) =>
      Printed(ASSIGNMENT, e);
      assert PrintVariable(v) == [Ident(v.name), Asg(Equals)] + Print(e);
    case InitList(es) =>
      PrintedList(es);
      assert PrintVariable(v) == [Ident(v.name), LBrace] + PrintList(es) + [RBrace];
  }

  lemma PrintedVariables(vars: seq<Variable>)
    requires GrammaticalGroup(vars)
    ensures DerivesVariables(PrintVariables(vars), vars)
  {
    hide DerivesVariable, PrintVariable, GrammaticalVariable;
    var parts := seq(|vars|, i requires 0 <= i < |vars| => PrintVariable(vars[i]));
    forall i | 0 <= i < |vars| { PrintedVariable1(vars[i]); }
    VariablesJoined(vars);
    assert PrintVariables(vars) == Join(parts);
  }

  lemma {:induction false} VariablesJoined(vars: seq<Variable>)
    ensures PrintVariables(vars) == Join(seq(|vars|, i requires 0 <= i < |vars| => PrintVariable(vars[i])))
  {
    hide PrintVariable;
    if |vars| > 1 {
      VariablesJoined(vars[1..]);
      var parts := seq(|vars|, i requires 0 <= i < |vars| => PrintVariable(vars[i]));
      assert parts[1..] == seq(|vars[1..]|, i requires 0 <= i < |vars[1..]| => PrintVariable(vars[1..][i]));
    }
  }

  function Expressions(pre: seq<Stm>): (es: seq<Exp>)
    requires forall i | 0 <= i < |pre| :: pre[i].ExpressionStm?
    ensures |es| == |pre| && forall i | 0 <= i < |pre| :: es[i] == pre[i].e
  {
    if pre == [] then [] else [pre[0].e] + Expressions(pre[1..])
  }

  lemma {:induction false} HeaderIsList(pre: seq<Stm>)
    requires forall i | 0 <= i < |pre| :: pre[i].ExpressionStm?
    ensures PrintHeader(pre) == PrintList(Expressions(pre))
  {
    if pre != [] {
      HeaderIsList(pre[1..]);
      var first := PrintStm(pre[0]);
      assert first[..|first| - 1] == Print(pre[0].e);
      assert Expressions(pre)[1..] == Expressions(pre[1..]);
    }
  }

  lemma PrintedHeader(pre: seq<Stm>)
    requires IsHeader(pre) && GrammaticalStms(pre)
    ensures DerivesHeader(PrintHeader(pre), pre)
  {
    hide DerivesVariables, DerivesList, Print, PrintList, PrintVariables, Grammatical;
    if |pre| == 1 && pre[0].VariableGroup? {
      var first := PrintStm(pre[0]);
      assert GrammaticalStm(pre[0]);
      PrintedVariables(pre[0].vars);
      assert first[..|first| - 1] == [DataType(pre[0].ty)] + PrintVariables(pre[0].vars);
    } else {
      var es := Expressions(pre);
      HeaderIsList(pre);
      assert forall i | 0 <= i < |es| :: GrammaticalStm(pre[i]) && Grammatical(es[i]);
      PrintedList(es);
      assert forall i | 0 <= i < |es| :: pre[i] == ExpressionStm(es[i]);
    }
  }

  // ---------------------------------------------------------------- what is printed is derived: statements

  /** A chain of ifs without a last else. */
  predicate EndsOpen(s: Stm) {
    s.IfStm? && (s.elseBody.NoElse? || (IsElseIf(s.elseBody.body) && EndsOpen(s.elseBody.body[0])))
  }

  /** The grammar derives what is printed, as the settled statement. */
  lemma {:induction false} PrintedStm(s: Stm)
    requires GrammaticalStm(s)
    ensures DerivesStm(EndsOpen(s), PrintStm(s), Settled(s))
    decreases s, 6
  {
    hide Simple, Loops, Whiles, Does, Switches, Fors, Ifs, IfElses, DerivesOptional, DerivesHeader, DerivesList;
    hide DerivesCases, DerivesBody, PrintBody, PrintCases, PrintOption, PrintHeader, PrintList, PrintIf, Grammatical;
    match s
    case LoopStm(body) =>
      PrintedBody(body, false);
      LoopsOf(PrintBody(body, false), SettledStms(body));
    case WhileStm(cond, body, doWhile, until) =>
      PrintedOption(cond);
      PrintedBody(body, false);
      WhilesOf(s);
    case SwitchStm(subject, cases) =>
      Printed(ASSIGNMENT, subject);
      PrintedCases(cases);
      SwitchesOf(s);
    case ForStm(pre, cond, post, body) =>
      PrintedHeader(pre);
      PrintedOption(cond);
      PrintedList(post);
      PrintedBody(body, false);
      ForsOf(s);
    case IfStm(_, _, _) => PrintedIf(s, UsesBlocks(s));
    case _ => PrintedSimple(s);
  }

  lemma PrintedSimple(s: Stm)
    requires GrammaticalStm(s)
    requires !s.LoopStm? && !s.WhileStm? && !s.SwitchStm? && !s.ForStm? && !s.IfStm?
    ensures Simple(PrintStm(s), Settled(s))
  {
    hide Derives, DerivesVariables, DerivesOptional, Print, PrintVariables, PrintOption, Grammatical, Level;
    match s
    case ExpressionStm(e) => Printed(ASSIGNMENT, e);
    case VariableGroup(ty, vars) =>
      PrintedVariables(vars);
      assert DerivesGroup([DataType(ty)] + PrintVariables(vars), ty, vars);
    case ReturnStm(e) => PrintedOption(e);
    case BranchStm(kind, level) =>
      PrintedOption(level);
      assert (BranchToken(kind).key, kind) in BRANCHES;
    case DeleteStm(_, _) => PrintedDelete(s);
    case DestructorCall(v) => PrintedDestructorCall(v);
    case _ =>
  }

  lemma PrintedDelete(s: Stm)
    requires s.DeleteStm? && GrammaticalStm(s)
    ensures Simple(PrintStm(s), s)
  {
    hide Derives, Print, Grammatical, Level;
    Printed(VARIABLE, s.v);
    if s.size.Some? {
      Printed(ASSIGNMENT, s.size.value);
      DeleteJoined(Print(s.size.value), Print(s.v));
    } else {
      assert PrintStm(s) == [Key(Delete)] + Print(s.v) + [Semi];
    }
  }

  lemma DeleteJoined(n: Tokens, x: Tokens)
    ensures [Key(Delete)] + ([LBracket] + n + [RBracket]) + x + [Semi]
      == [Key(Delete), LBracket] + n + [RBracket] + x + [Semi]
  {
  }

  lemma PrintedDestructorCall(v: Exp)
    requires Grammatical(v) && IsVariable(v)
    ensures Simple(PrintStm(DestructorCall(v)), Settled(DestructorCall(v)))
  {
    hide Derives, Print, Grammatical, Level;
    Printed(VARIABLE, v);
    if !TokenIsThis(v) {
      assert PrintStm(DestructorCall(v)) == Print(v) + [Dot, Tilde, KwThis, LParen, RParen, Semi];
    }
  }

  lemma LoopsOf(b: Tokens, ss: seq<Stm>)
    requires DerivesBody(false, b, ss)
    ensures Loops(false, [Key(Loop)] + b, LoopStm(ss))
  {
    hide DerivesBody;
  }

  lemma WhilesOf(s: Stm)
    requires s.WhileStm? && DerivesOptional(PrintOption(s.cond), s.cond)
    requires DerivesBody(false, PrintBody(s.body, false), SettledStms(s.body))
    ensures DerivesStm(false, PrintStm(s), Settled(s))
  {
    hide DerivesOptional, DerivesBody, PrintOption, PrintBody, SettledStms;
    var c, b, t := PrintOption(s.cond), PrintBody(s.body, false), Settled(s);
    var word := Key(if s.until then Until else While);
    if s.doWhile {
      assert PrintStm(s) == [Key(Do)] + b + [word, LParen] + c + [RParen, Semi];
      assert Does(PrintStm(s), t);
    } else {
      assert PrintStm(s) == [word, LParen] + c + [RParen] + b;
      assert Whiles(false, PrintStm(s), t);
    }
  }

  lemma SwitchesOf(s: Stm)
    requires s.SwitchStm? && s.cases != [] && Derives(AssignmentExp, Print(s.subject), s.subject)
    requires DerivesCases(PrintCases(s.cases), SettledCases(s.cases))
    ensures DerivesStm(false, PrintStm(s), Settled(s))
  {
    hide Derives, DerivesCases, Print, PrintCases, SettledCases;
    assert SettledCases(s.cases) != [];
    assert Switches(PrintStm(s), Settled(s));
  }

  lemma ForsOf(s: Stm)
    requires s.ForStm? && DerivesHeader(PrintHeader(s.pre), s.pre) && DerivesOptional(PrintOption(s.cond), s.cond)
    requires DerivesList(PrintList(s.post), s.post)
    requires DerivesBody(false, PrintBody(s.body, false), SettledStms(s.body))
    ensures DerivesStm(false, PrintStm(s), Settled(s))
  {
    hide DerivesHeader, DerivesOptional, DerivesList, DerivesBody, PrintHeader, PrintOption, PrintList, PrintBody;
    hide SettledStms;
    assert Fors(false, PrintStm(s), Settled(s));
  }

  /** The elses of a printed chain belong to the ifs they were printed for, in braces or not. */
  lemma {:induction false} PrintedIf(s: Stm, block: bool)
    requires s.IfStm? && GrammaticalStm(s)
    ensures DerivesStm(EndsOpen(s), PrintIf(s, block), Settled(s))
    decreases s, 5
  {
    hide Derives, DerivesBody, Print, PrintBody, Grammatical;
    Printed(ASSIGNMENT, s.test);
    PrintedBody(s.body, block);
    var x, b, t := Print(s.test), PrintBody(s.body, block), Settled(s);
    if s.elseBody.NoElse? {
      assert PrintIf(s, block) == [Key(If), LParen] + x + [RParen] + b;
      assert Ifs(PrintIf(s, block), t);
    } else {
      var d := PrintedElse(s.elseBody.body, block);
      assert PrintIf(s, block) == [Key(If), LParen] + x + [RParen] + b + [KwElse] + d;
      IfElsesOf(s, EndsOpen(s), x, b, d);
    }
  }

  lemma IfElsesOf(s: Stm, open: bool, x: Tokens, b: Tokens, d: Tokens)
    requires s.IfStm? && s.elseBody.Else? && Derives(AssignmentExp, x, s.test)
    requires DerivesBody(false, b, SettledStms(s.body)) && DerivesBody(open, d, SettledStms(s.elseBody.body))
    ensures DerivesStm(open, [Key(If), LParen] + x + [RParen] + b + [KwElse] + d, Settled(s))
  {
    hide Derives, DerivesBody, SettledStms;
    var t := Settled(s);
    assert SettledElse(s.elseBody) == ElseBody.Else(SettledStms(s.elseBody.body));
    assert t == IfStm(s.test, SettledStms(s.body), ElseBody.Else(SettledStms(s.elseBody.body)));
    assert IfElses(open, [Key(If), LParen] + x + [RParen] + b + [KwElse] + d, t);
  }

  lemma {:induction false} PrintedElse(body: seq<Stm>, block: bool) returns (d: Tokens)
    requires GrammaticalStms(body)
    ensures PrintElse(ElseBody.Else(body), block) == [KwElse] + d
    ensures DerivesBody(IsElseIf(body) && EndsOpen(body[0]), d, SettledStms(body))
    decreases body, 4
  {
    hide DerivesStm, PrintIf, PrintBody, Settled, GrammaticalStm, EndsOpen;
    if IsElseIf(body) {
      d := PrintIf(body[0], block);
      PrintedIf(body[0], block);
      SettledOne(body);
    } else {
      d := PrintBody(body, block);
      PrintedBody(body, block);
    }
  }

  lemma SettledOne(ss: seq<Stm>)
    requires |ss| == 1
    ensures SettledStms(ss) == [Settled(ss[0])]
  {
    hide Settled;
    assert ss[1..] == [];
  }

  /** A body is derived whether it was put in braces or not: without braces it is never an `if`. */
  lemma {:induction false} PrintedBody(body: seq<Stm>, force: bool)
    requires GrammaticalStms(body)
    ensures DerivesBody(false, PrintBody(body, force), SettledStms(body))
    decreases body, 3
  {
    hide DerivesStm, DerivesStms, PrintStm, PrintStms, Settled, GrammaticalStm;
    if force || IsBlock(body) {
      PrintedStms(body);
    } else {
      PrintedStm(body[0]);
      OnePrinted(body);
      SettledOne(body);
    }
  }

  lemma OnePrinted(ss: seq<Stm>)
    requires |ss| == 1
    ensures PrintStms(ss) == PrintStm(ss[0])
  {
    hide PrintStm;
    assert ss[1..] == [];
  }

  lemma {:induction false} PrintedStms(ss: seq<Stm>)
    requires GrammaticalStms(ss)
    ensures DerivesStms(PrintStms(ss), SettledStms(ss))
    decreases ss, 2
  {
    hide DerivesStm, PrintStm, Settled, GrammaticalStm, EndsOpen;
    var parts := seq(|ss|, i requires 0 <= i < |ss| => PrintStm(ss[i]));
    forall i | 0 <= i < |ss| { PrintedStm(ss[i]); }
    StmsConcatenated(ss);
    SettledEach(ss);
    assert PrintStms(ss) == Concat(parts);
  }

  lemma {:induction false} StmsConcatenated(ss: seq<Stm>)
    ensures PrintStms(ss) == Concat(seq(|ss|, i requires 0 <= i < |ss| => PrintStm(ss[i])))
  {
    hide PrintStm;
    if ss != [] {
      StmsConcatenated(ss[1..]);
      var parts := seq(|ss|, i requires 0 <= i < |ss| => PrintStm(ss[i]));
      assert parts[1..] == seq(|ss[1..]|, i requires 0 <= i < |ss[1..]| => PrintStm(ss[1..][i]));
    }
  }

  lemma {:induction false} SettledEach(ss: seq<Stm>)
    ensures forall i | 0 <= i < |ss| :: SettledStms(ss)[i] == Settled(ss[i])
  {
    hide Settled;
    if ss != [] {
      SettledEach(ss[1..]);
      forall i | 0 < i < |ss| ensures SettledStms(ss)[i] == Settled(ss[i]) {
        assert SettledStms(ss)[i] == SettledStms(ss[1..])[i - 1] && ss[1..][i - 1] == ss[i];
      }
    }
  }

  lemma {:induction false} PrintedCases(cases: seq<SwitchCase>)
    requires GrammaticalCases(cases)
    ensures DerivesCases(PrintCases(cases), SettledCases(cases))
    decreases cases, 2
  {
    hide DerivesCase, PrintCase, SettledStms, GrammaticalStms;
    var parts := seq(|cases|, i requires 0 <= i < |cases| => PrintCase(cases[i]));
    SettledEachCase(cases);
    forall i | 0 <= i < |cases| ensures DerivesCase(parts[i], SettledCases(cases)[i]) { PrintedCase(cases[i]); }
    CasesConcatenated(cases);
    assert PrintCases(cases) == Concat(parts);
  }

  lemma {:induction false} PrintedCase(c: SwitchCase)
    requires GrammaticalOption(c.value) && GrammaticalStms(c.body)
    ensures DerivesCase(PrintCase(c), SwitchCase(c.value, SettledStms(c.body)))
    decreases c, 1
  {
    hide Derives, DerivesStms, Print, PrintStms, SettledStms, Grammatical;
    PrintedStms(c.body);
    if c.value.Some? {
      Printed(ASSIGNMENT, c.value.value);
      assert PrintCase(c) == [Key(Case)] + Print(c.value.value) + [Colon] + PrintStms(c.body);
    } else {
      assert PrintCase(c) == [Key(Default), Colon] + PrintStms(c.body);
    }
  }

  lemma {:induction false} CasesConcatenated(cases: seq<SwitchCase>)
    ensures PrintCases(cases) == Concat(seq(|cases|, i requires 0 <= i < |cases| => PrintCase(cases[i])))
  {
    hide PrintCase;
    if cases != [] {
      CasesConcatenated(cases[1..]);
      var parts := seq(|cases|, i requires 0 <= i < |cases| => PrintCase(cases[i]));
      assert parts[1..] == seq(|cases[1..]|, i requires 0 <= i < |cases[1..]| => PrintCase(cases[1..][i]));
    }
  }

  lemma {:induction false} SettledEachCase(cases: seq<SwitchCase>)
    ensures forall i | 0 <= i < |cases| ::
      SettledCases(cases)[i] == SwitchCase(cases[i].value, SettledStms(cases[i].body))
  {
    hide SettledStms;
    if cases != [] {
      SettledEachCase(cases[1..]);
      forall i | 0 < i < |cases|
        ensures SettledCases(cases)[i] == SwitchCase(cases[i].value, SettledStms(cases[i].body))
      {
        assert SettledCases(cases)[i] == SettledCases(cases[1..])[i - 1] && cases[1..][i - 1] == cases[i];
      }
    }
  }
}
