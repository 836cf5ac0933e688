/** The trees that the formatter prints and the grammar builds, and the tokens between them. */
module FormatTree {
  import opened Options

  /** The binary operators of the grammar. */
  datatype BinOp =
    | LogOr | LogAnd | Eq | Neq | Lt | Gt | Leq | Geq
    | BitOr | BitXor | BitAnd | Shl | Shr | Plus | Minus | Mul | Div | Mod

  datatype UnaryOp = Positive | Negative | Not | Complement

  /** The operation kept in an assignment's tree; `Plain` is `=`. */
  datatype AsgOp = Plain | OfMul | OfDiv | OfMod | OfAdd | OfSub | OfShl | OfShr | OfAnd | OfXor | OfOr | OfCoalesce

  datatype Exp =
    | Const(text: nat)
    | Base(name: nat)
    | This
    | Paren(e: Exp)
    | FunctionCall(name: nat, args: seq<Exp>)
    | Index(v: Exp, index: Exp)
    | Member(v: Exp, name: nat)
    | MemberCall(v: Exp, name: nat, args: seq<Exp>)
    | Dereference(v: Exp)
    | AddressOf(v: Exp)
    | Arrow(v: Exp, name: nat)
    | Increment(inc: bool, v: Exp, postfix: bool)
    | Unary(uop: UnaryOp, e: Exp)
    | NullCoalescing(l: Exp, r: Exp)
    | Binary(bop: BinOp, l: Exp, r: Exp)
    | New(ty: nat)
    | NewWith(ty: nat, args: seq<Exp>)
    | Ternary(c: Exp, yes: Exp, no: Exp)
    | Assignment(aop: AsgOp, v: Exp, rhs: Exp)

  // ---------------------------------------------------------------- tokens

  /** The characters of an assignment operator. */
  datatype AsgText = Equals | StarEq | SlashEq | PercentEq | PlusEq | MinusEq
                   | ShlEq | ShrEq | AmpEq | HatEq | BarEq | QueryEq

  datatype Keyword =
    | If | Else | While | Until | Do | Loop | For | Switch | Case | Default
    | Return | Goto | Delete | Continue | Break | Redo

  datatype Token =
    | Ident(name: nat)
    | KwThis
    | Literal(text: nat)
    | DataType(name: nat)
    | Oper(op: BinOp)
    | Bang | Tilde
    | Step(inc: bool)
    | Asg(sign: AsgText)
    | DoubleQuery
    | LParen | RParen | LBracket | RBracket | LBrace | RBrace
    | Comma | Semi | Colon | Query | Dot | ArrowTo | At | Dollar
    | KwNew
    | Key(key: Keyword)

  type Tokens = seq<Token>

  /** The token kinds of the scanner for assignment operators. */
  datatype AsgKind = AsgPlain | AsgMul | AsgDiv | AsgMod | AsgAdd | AsgSub
                   | AsgLsh | AsgRsh | AsgAnd | AsgOr | AsgXor | AsgDq

  /** The scanner names `^=` and `|=` the wrong way round. */
  function ScanAsg(text: AsgText): AsgKind {
    match text
    case Equals => AsgPlain
    case StarEq => AsgMul
    case SlashEq => AsgDiv
    case PercentEq => AsgMod
    case PlusEq => AsgAdd
    case MinusEq => AsgSub
    case ShlEq => AsgLsh
    case ShrEq => AsgRsh
    case AmpEq => AsgAnd
    case HatEq => AsgOr
    case BarEq => AsgXor
    case QueryEq => AsgDq
  }

  /** The grammar reads the two names the wrong way round again. */
  function ReadAsg(kind: AsgKind): AsgOp {
    match kind
    case AsgPlain => Plain
    case AsgMul => OfMul
    case AsgDiv => OfDiv
    case AsgMod => OfMod
    case AsgAdd => OfAdd
    case AsgSub => OfSub
    case AsgLsh => OfShl
    case AsgRsh => OfShr
    case AsgAnd => OfAnd
    case AsgOr => OfXor
    case AsgXor => OfOr
    case AsgDq => OfCoalesce
  }

  function PrintAsg(op: AsgOp): AsgText {
    match op
    case Plain => Equals
    case OfMul => StarEq
    case OfDiv => SlashEq
    case OfMod => PercentEq
    case OfAdd => PlusEq
    case OfSub => MinusEq
    case OfShl => ShlEq
    case OfShr => ShrEq
    case OfAnd => AmpEq
    case OfXor => HatEq
    case OfOr => BarEq
    case OfCoalesce => QueryEq
  }

  /** Scanner and grammar agree on every assignment operator, as the two mistakes cancel. */
  lemma AsgRoundTrip(op: AsgOp, text: AsgText)
    ensures ReadAsg(ScanAsg(PrintAsg(op))) == op
    ensures PrintAsg(ReadAsg(ScanAsg(text))) == text
  {
  }

  // ---------------------------------------------------------------- the levels of the grammar

  const ASSIGNMENT := 0
  const TERNARY := 1
  const NEW := 2
  const FIRST_BINARY := 3
  const LAST_BINARY := 12
  const COALESCING := 13
  const UNARY := 14
  const PRIMARY := 15
  const VARIABLE := 16

  function BinLevel(op: BinOp): (level: nat)
    ensures FIRST_BINARY <= level <= LAST_BINARY
  {
    match op
    case LogOr => 3
    case LogAnd => 4
    case Eq => 5
    case Neq => 5
    case Lt => 6
    case Gt => 6
    case Leq => 6
    case Geq => 6
    case BitOr => 7
    case BitXor => 8
    case BitAnd => 9
    case Shl => 10
    case Shr => 10
    case Plus => 11
    case Minus => 11
    case Mul => 12
    case Div => 12
    case Mod => 12
  }

  /** The innermost level of the grammar that derives a tree of this shape. */
  function Level(e: Exp): (level: nat)
    ensures level <= VARIABLE
  {
    match e
    case Const(_) => PRIMARY
    case Increment(_, _, _) => UNARY
    case Unary(_, _) => UNARY
    case NullCoalescing(_, _) => COALESCING
    case Binary(op, _, _) => BinLevel(op)
    case New(_) => NEW
    case NewWith(_, _) => NEW
    case Ternary(_, _, _) => TERNARY
    case Assignment(_, _, _) => ASSIGNMENT
    case _ => VARIABLE
  }

  predicate IsVariable(e: Exp) {
    Level(e) == VARIABLE
  }

  /** The trees that the grammar can build. */
  predicate Grammatical(e: Exp)
    decreases e, 1
  {
    match e
    case Const(_) => true
    case Base(_) => true
    case This => true
    case Paren(inner) => Grammatical(inner)
    case FunctionCall(_, args) => AllGrammatical(args)
    case Index(v, i) => IsVariable(v) && Grammatical(v) && Grammatical(i)
    case Member(v, _) => IsVariable(v) && Grammatical(v)
    case MemberCall(v, _, args) => IsVariable(v) && Grammatical(v) && AllGrammatical(args)
    case Dereference(v) => IsVariable(v) && Grammatical(v)
    case AddressOf(v) => IsVariable(v) && Grammatical(v)
    case Arrow(v, _) => Level(v) >= PRIMARY && Grammatical(v)
    case Increment(_, v, _) => IsVariable(v) && Grammatical(v)
    case Unary(_, inner) => Level(inner) >= PRIMARY && Grammatical(inner)
    case NullCoalescing(l, r) => Level(l) >= UNARY && Level(r) >= UNARY && Grammatical(l) && Grammatical(r)
    case Binary(op, l, r) => Level(l) >= BinLevel(op) && Level(r) > BinLevel(op) && Grammatical(l) && Grammatical(r)
    case New(_) => true
    case NewWith(_, args) => AllGrammatical(args)
    case Ternary(c, yes, no) =>
      && Level(c) >= NEW && Level(yes) >= NEW && Level(no) >= NEW
      && Grammatical(c) && Grammatical(yes) && Grammatical(no)
    case Assignment(_, v, rhs) => IsVariable(v) && Grammatical(v) && Grammatical(rhs)
  }

  predicate AllGrammatical(es: seq<Exp>)
    decreases es, 0
  {
    forall i | 0 <= i < |es| :: Grammatical(es[i])
  }

  // ---------------------------------------------------------------- statements

  datatype BranchKind = ToContinue | ToBreak | ToRedo

  datatype Init = NoInit | InitExp(e: Exp) | InitList(es: seq<Exp>)

  datatype Variable = Variable(name: nat, init: Init)

  datatype Stm =
    | ExpressionStm(e: Exp)
    | VariableGroup(ty: nat, vars: seq<Variable>)
    | LabelStm(name: nat)
    | GotoStm(name: nat)
    | ReturnStm(value: Option<Exp>)
    | BranchStm(kind: BranchKind, level: Option<Exp>)
    | DeleteStm(v: Exp, size: Option<Exp>)
    | DestructorCall(v: Exp)
    | LoopStm(body: seq<Stm>)
    | WhileStm(cond: Option<Exp>, body: seq<Stm>, doWhile: bool, until: bool)
    | SwitchStm(subject: Exp, cases: seq<SwitchCase>)
    | ForStm(pre: seq<Stm>, cond: Option<Exp>, post: seq<Exp>, body: seq<Stm>)
    | IfStm(test: Exp, body: seq<Stm>, elseBody: ElseBody)

  datatype SwitchCase = SwitchCase(value: Option<Exp>, body: seq<Stm>)

  datatype ElseBody = NoElse | Else(body: seq<Stm>)

  predicate GrammaticalOption(e: Option<Exp>) {
    e.Some? ==> Grammatical(e.value)
  }

  predicate GrammaticalVariable(v: Variable) {
    match v.init
    case NoInit => true
    case InitExp(e) => Grammatical(e)
    case InitList(es) => AllGrammatical(es)
  }

  predicate GrammaticalGroup(vars: seq<Variable>) {
    vars != [] && forall i | 0 <= i < |vars| :: GrammaticalVariable(vars[i])
  }

  /** A list of expressions, or one group of declarations. */
  predicate IsHeader(pre: seq<Stm>) {
    || (|pre| == 1 && pre[0].VariableGroup?)
    || (forall i | 0 <= i < |pre| :: pre[i].ExpressionStm?)
  }

  /** The statements that the grammar can build. */
  predicate GrammaticalStm(s: Stm)
    decreases s, 1
  {
    match s
    case ExpressionStm(e) => Grammatical(e)
    case VariableGroup(_, vars) => GrammaticalGroup(vars)
    case LabelStm(_) => true
    case GotoStm(_) => true
    case ReturnStm(value) => GrammaticalOption(value)
    case BranchStm(_, level) => GrammaticalOption(level)
    case DeleteStm(v, size) => IsVariable(v) && Grammatical(v) && GrammaticalOption(size)
    case DestructorCall(v) => IsVariable(v) && Grammatical(v)
    case LoopStm(body) => GrammaticalStms(body)
    case WhileStm(cond, body, _, _) => GrammaticalOption(cond) && GrammaticalStms(body)
    case SwitchStm(subject, cases) => Grammatical(subject) && cases != [] && GrammaticalCases(cases)
    case ForStm(pre, cond, post, body) =>
      IsHeader(pre) && GrammaticalStms(pre) && GrammaticalOption(cond) && AllGrammatical(post) && GrammaticalStms(body)
    case IfStm(test, body, elseBody) =>
      Grammatical(test) && GrammaticalStms(body) && (elseBody.Else? ==> GrammaticalStms(elseBody.body))
  }

  predicate GrammaticalStms(ss: seq<Stm>)
    decreases ss, 0
  {
    forall i | 0 <= i < |ss| :: GrammaticalStm(ss[i])
  }

  predicate GrammaticalCases(cases: seq<SwitchCase>)
    decreases cases, 0
  {
    forall i | 0 <= i < |cases| :: GrammaticalOption(cases[i].value) && GrammaticalStms(cases[i].body)
  }
}
