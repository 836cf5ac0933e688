/** The rules of the grammar for statements. */
module StatementGrammar {
  import opened Options
  import opened FormatTree
  import opened Grammar

  const BRANCHES: set<(Keyword, BranchKind)> := {(Continue, ToContinue), (Break, ToBreak), (Redo, ToRedo)}

  ghost predicate DerivesOptional(ts: Tokens, e: Option<Exp>) {
    if e.None? then ts == [] else Derives(AssignmentExp, ts, e.value)
  }

  ghost predicate DerivesVariable(ts: Tokens, v: Variable) {
    match v.init
    case NoInit => ts == [Ident(v.name)]
    case InitExp(e) => exists x :: ts == [Ident(v.name), Asg(Equals)] + x && Derives(AssignmentExp, x, e)
    case InitList(es) => exists x :: ts == [Ident(v.name), LBrace] + x + [RBrace] && DerivesList(x, es)
  }

  /** The tokens of one variable after the other, with commas between them. */
  ghost predicate DerivesVariables(ts: Tokens, vars: seq<Variable>) {
    vars != [] && exists parts: seq<Tokens> ::
      |parts| == |vars| && ts == Join(parts) && forall i | 0 <= i < |vars| :: DerivesVariable(parts[i], vars[i])
  }

  ghost predicate DerivesGroup(ts: Tokens, ty: nat, vars: seq<Variable>) {
    exists list :: ts == [DataType(ty)] + list && DerivesVariables(list, vars)
  }

  /** A group of declarations, or a list of expressions. */
  ghost predicate DerivesHeader(ts: Tokens, pre: seq<Stm>) {
    || (|pre| == 1 && pre[0].VariableGroup? && DerivesGroup(ts, pre[0].ty, pre[0].vars))
    || (exists es: seq<Exp> ::
          |es| == |pre| && (forall i | 0 <= i < |es| :: pre[i] == ExpressionStm(es[i])) && DerivesList(ts, es))
  }

  /**
   The tokens are the statement.  A statement is `open` if an `if` without an else ends it: an else
   belongs to the nearest `if`, so that none can follow.
   */
  ghost predicate DerivesStm(open: bool, ts: Tokens, s: Stm)
    decreases s, 1
  {
    match s
    case LoopStm(_) => Loops(open, ts, s)
    case WhileStm(_, _, doWhile, _) => if doWhile then !open && Does(ts, s) else Whiles(open, ts, s)
    case SwitchStm(_, _) => !open && Switches(ts, s)
    case ForStm(_, _, _, _) => Fors(open, ts, s)
    case IfStm(_, _, elseBody) => if elseBody.Else? then IfElses(open, ts, s) else open && Ifs(ts, s)
    case _ => !open && Simple(ts, s)
  }

  ghost predicate Simple(ts: Tokens, s: Stm) {
    match s
    case ExpressionStm(e) => exists x :: ts == x + [Semi] && Derives(AssignmentExp, x, e)
    case VariableGroup(ty, vars) => exists x :: ts == x + [Semi] && DerivesGroup(x, ty, vars)
    case LabelStm(name) => ts == [Ident(name), Colon]
    case GotoStm(name) => ts == [Key(Goto), Ident(name), Semi]
    case ReturnStm(e) => exists x :: ts == [Key(Return)] + x + [Semi] && DerivesOptional(x, e)
    case BranchStm(kind, level) =>
      exists word, x :: ts == [Key(word)] + x + [Semi] && (word, kind) in BRANCHES && DerivesOptional(x, level)
    case DeleteStm(v, None) => exists x :: ts == [Key(Delete)] + x + [Semi] && Derives(VariableExp, x, v)
    case DeleteStm(v, Some(size)) =>
      exists n, x :: ts == [Key(Delete), LBracket] + n + [RBracket] + x + [Semi]
        && Derives(AssignmentExp, n, size) && Derives(VariableExp, x, v)
    case DestructorCall(v) =>
      || (v == This && ts == [Tilde, KwThis, LParen, RParen, Semi])
      || (exists x :: ts == x + [Dot, Tilde, KwThis, LParen, RParen, Semi] && Derives(VariableExp, x, v))
    case _ => false
  }

  ghost predicate Loops(open: bool, ts: Tokens, s: Stm)
    requires s.LoopStm?
    decreases s, 0
  {
    exists b :: ts == [Key(Loop)] + b && DerivesBody(open, b, s.body)
  }

  ghost predicate Whiles(open: bool, ts: Tokens, s: Stm)
    requires s.WhileStm?
    decreases s, 0
  {
    exists c, b :: ts == [Key(if s.until then Until else While), LParen] + c + [RParen] + b
      && DerivesOptional(c, s.cond) && DerivesBody(open, b, s.body)
  }

  ghost predicate Does(ts: Tokens, s: Stm)
    requires s.WhileStm?
    decreases s, 0
  {
    exists inner, b, c :: ts == [Key(Do)] + b + [Key(if s.until then Until else While), LParen] + c + [RParen, Semi]
      && DerivesBody(inner, b, s.body) && DerivesOptional(c, s.cond)
  }

  ghost predicate Switches(ts: Tokens, s: Stm)
    requires s.SwitchStm?
    decreases s, 0
  {
    s.cases != [] && exists x, y ::
      && ts == [Key(Switch), LParen] + x + [RParen, LBrace] + y + [RBrace]
      && Derives(AssignmentExp, x, s.subject) && DerivesCases(y, s.cases)
  }

  ghost predicate Fors(open: bool, ts: Tokens, s: Stm)
    requires s.ForStm?
    decreases s, 0
  {
    exists a, c, p, b :: ts == [Key(For), LParen] + a + [Semi] + c + [Semi] + p + [RParen] + b
      && DerivesHeader(a, s.pre) && DerivesOptional(c, s.cond) && DerivesList(p, s.post) && DerivesBody(open, b, s.body)
  }

  ghost predicate Ifs(ts: Tokens, s: Stm)
    requires s.IfStm?
    decreases s, 0
  {
    exists inner, x, b :: ts == [Key(If), LParen] + x + [RParen] + b
      && Derives(AssignmentExp, x, s.test) && DerivesBody(inner, b, s.body)
  }

  /** What stands before an else is not open. */
  ghost predicate IfElses(open: bool, ts: Tokens, s: Stm)
    requires s.IfStm? && s.elseBody.Else?
    decreases s, 0
  {
    exists x, b, d :: ts == [Key(If), LParen] + x + [RParen] + b + [Key(Keyword.Else)] + d
      && Derives(AssignmentExp, x, s.test) && DerivesBody(false, b, s.body) && DerivesBody(open, d, s.elseBody.body)
  }

  /** A single statement: statements in braces, one statement, or a semicolon. */
  ghost predicate DerivesBody(open: bool, ts: Tokens, ss: seq<Stm>)
    decreases ss, 1
  {
    || (!open && exists x :: ts == [LBrace] + x + [RBrace] && DerivesStms(x, ss))
    || (|ss| == 1 && DerivesStm(open, ts, ss[0]))
    || (!open && ts == [Semi] && ss == [])
  }

  /** Statements one after the other. */
  ghost predicate DerivesStms(ts: Tokens, ss: seq<Stm>)
    decreases ss, 0
  {
    exists parts: seq<Tokens> :: |parts| == |ss| && ts == Concat(parts)
      && forall i | 0 <= i < |ss| :: DerivesStm(true, parts[i], ss[i]) || DerivesStm(false, parts[i], ss[i])
  }

  function Concat(parts: seq<Tokens>): Tokens {
    if parts == [] then [] else parts[0] + Concat(parts[1..])
  }

  ghost predicate DerivesCases(ts: Tokens, cases: seq<SwitchCase>)
    decreases cases, 0
  {
    exists parts: seq<Tokens> ::
      |parts| == |cases| && ts == Concat(parts) && forall i | 0 <= i < |cases| :: DerivesCase(parts[i], cases[i])
  }

  ghost predicate DerivesCase(ts: Tokens, c: SwitchCase)
    decreases c, 0
  {
    if c.value.Some? then
      exists x, y :: ts == [Key(Case)] + x + [Colon] + y
        && Derives(AssignmentExp, x, c.value.value) && DerivesStms(y, c.body)
    else
      exists y :: ts == [Key(Default), Colon] + y && DerivesStms(y, c.body)
  }
}
