/** The formatter's printing of statements, and its decision on braces. */
module FormatStatement {
  import opened Options
  import opened FormatTree
  import opened FormatExpression

  function BranchToken(kind: BranchKind): Token {
    match kind
    case ToContinue => Key(Continue)
    case ToBreak => Key(Break)
    case ToRedo => Key(Redo)
  }

  function PrintOption(e: Option<Exp>): Tokens {
    if e.None? then [] else Print(e.value)
  }

  function PrintVariable(v: Variable): Tokens {
    [Ident(v.name)] +
    match v.init
    case NoInit => []
    case InitExp(e) => [Asg(Equals)] + Print(e)
    case InitList(es) => [LBrace] + PrintList(es) + [RBrace]
  }

  function PrintVariables(vars: seq<Variable>): Tokens {
    if vars == [] then []
    else if |vars| == 1 then PrintVariable(vars[0])
    else PrintVariable(vars[0]) + [Comma] + PrintVariables(vars[1..])
  }

  /** The formatter takes the object of a destructor call to be `this` by the text of one token of it. */
  predicate TokenIsThis(v: Exp) {
    match v
    case This => true
    case Paren(e) => TokenIsThis(e)
    case Arrow(e, _) => TokenIsThis(e)
    case _ => false
  }

  /** Statements that are printed in braces even when they stand alone. */
  predicate IsBlockStm(s: Stm) {
    s.LoopStm? || s.WhileStm? || s.SwitchStm? || s.ForStm? || s.IfStm?
  }

  predicate IsBlock(body: seq<Stm>) {
    |body| != 1 || IsBlockStm(body[0])
  }

  /** The `else if` that an else body is printed as. */
  predicate IsElseIf(body: seq<Stm>) {
    |body| == 1 && body[0].IfStm?
  }

  /** Whether the bodies of a chain of ifs are printed in braces: all of them, or none. */
  predicate UsesBlocks(s: Stm)
    requires s.IfStm?
  {
    || IsBlock(s.body)
    || (s.elseBody.Else? && if IsElseIf(s.elseBody.body) then UsesBlocks(s.elseBody.body[0])
        else IsBlock(s.elseBody.body))
  }

  function PrintStm(s: Stm): (ts: Tokens)
    ensures ts != []
    decreases s, 3
  {
    match s
    case ExpressionStm(e) => Print(e) + [Semi]
    case VariableGroup(ty, vars) => [DataType(ty)] + PrintVariables(vars) + [Semi]
    case LabelStm(name) => [Ident(name), Colon]
    case GotoStm(name) => [Key(Goto), Ident(name), Semi]
    case ReturnStm(value) => [Key(Return)] + PrintOption(value) + [Semi]
    case BranchStm(kind, level) => [BranchToken(kind)] + PrintOption(level) + [Semi]
    case DeleteStm(v, size) =>
      [Key(Delete)] + (if size.None? then [] else [LBracket] + Print(size.value) + [RBracket]) + Print(v) + [Semi]
    case DestructorCall(v) =>
      (if TokenIsThis(v) then [] else Print(v) + [Dot]) + [Tilde, KwThis, LParen, RParen, Semi]
    case LoopStm(body) => [Key(Loop)] + PrintBody(body, false)
    case WhileStm(cond, body, doWhile, until) =>
      var test := [Key(if until then Until else While), LParen] + PrintOption(cond) + [RParen];
      if doWhile then [Key(Do)] + PrintBody(body, false) + test + [Semi] else test + PrintBody(body, false)
    case SwitchStm(subject, cases) =>
      [Key(Switch), LParen] + Print(subject) + [RParen, LBrace] + PrintCases(cases) + [RBrace]
    case ForStm(pre, cond, post, body) =>
      [Key(For), LParen] + PrintHeader(pre) + [Semi] + PrintOption(cond) + [Semi] + PrintList(post) + [RParen]
      + PrintBody(body, false)
    case IfStm(_, _, _) => PrintIf(s, UsesBlocks(s))
  }

  function PrintStms(ss: seq<Stm>): Tokens
    decreases ss, 0
  {
    if ss == [] then [] else PrintStm(ss[0]) + PrintStms(ss[1..])
  }

  function PrintBody(body: seq<Stm>, force: bool): Tokens
    decreases body, 1
  {
    if force || IsBlock(body) then [LBrace] + PrintStms(body) + [RBrace] else PrintStms(body)
  }

  function PrintCase(c: SwitchCase): Tokens
    decreases c, 0
  {
    (if c.value.Some? then [Key(Case)] + Print(c.value.value) else [Key(Default)]) + [Colon] + PrintStms(c.body)
  }

  function PrintCases(cases: seq<SwitchCase>): Tokens
    decreases cases, 0
  {
    if cases == [] then [] else PrintCase(cases[0]) + PrintCases(cases[1..])
  }

  /** The statements before a `for`, each without its semicolon. */
  function PrintHeader(pre: seq<Stm>): Tokens
    decreases pre, 0
  {
    if pre == [] then []
    else
      var first := PrintStm(pre[0]);
      first[..|first| - 1] + (if |pre| == 1 then [] else [Comma] + PrintHeader(pre[1..]))
  }

  function PrintIf(s: Stm, block: bool): (ts: Tokens)
    requires s.IfStm?
    ensures ts != []
    decreases s, 2
  {
    [Key(If), LParen] + Print(s.test) + [RParen] + PrintBody(s.body, block) + PrintElse(s.elseBody, block)
  }

  function PrintElse(e: ElseBody, block: bool): Tokens
    decreases e, 2
  {
    if e.NoElse? then []
    else if IsElseIf(e.body) then [Key(Keyword.Else)] + PrintIf(e.body[0], block)
    else [Key(Keyword.Else)] + PrintBody(e.body, block)
  }
}
