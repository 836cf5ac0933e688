/** The formatter's printing of expressions. */
module FormatExpression {
  import opened Options
  import opened FormatTree

  function UnaryToken(op: UnaryOp): Token {
    match op
    case Positive => Oper(Plus)
    case Negative => Oper(Minus)
    case Not => Bang
    case Complement => Tilde
  }

  /** The tokens that an expression is printed as. */
  function Print(e: Exp): (ts: Tokens)
    ensures ts != []
    decreases e, 1
  {
    match e
    case Const(text) => [Literal(text)]
    case Base(name) => [Ident(name)]
    case This => [KwThis]
    case Paren(inner) => [LParen] + Print(inner) + [RParen]
    case FunctionCall(name, args) => [Ident(name), LParen] + PrintList(args) + [RParen]
    case Index(v, i) => Print(v) + [LBracket] + Print(i) + [RBracket]
    case Member(v, name) => Print(v) + [Dot, Ident(name)]
    case MemberCall(v, name, args) => Print(v) + [Dot, Ident(name), LParen] + PrintList(args) + [RParen]
    case Dereference(v) => Print(v) + [At]
    case AddressOf(v) => Print(v) + [Dollar]
    case Arrow(v, name) => Print(v) + [ArrowTo, Ident(name)]
    case Increment(inc, v, postfix) => if postfix then Print(v) + [Step(inc)] else [Step(inc)] + Print(v)
    case Unary(op, inner) => [UnaryToken(op)] + Print(inner)
    case NullCoalescing(l, r) => Print(l) + [DoubleQuery] + Print(r)
    case Binary(op, l, r) => Print(l) + [Oper(op)] + Print(r)
    case New(ty) => [KwNew, DataType(ty)]
    case NewWith(ty, args) => [KwNew, DataType(ty), LBrace] + PrintList(args) + [RBrace]
    case Ternary(c, yes, no) => Print(c) + [Query] + Print(yes) + [Colon] + Print(no)
    case Assignment(op, v, rhs) => Print(v) + [Asg(PrintAsg(op))] + Print(rhs)
  }

  /** A list, separated by commas. */
  function PrintList(es: seq<Exp>): Tokens
    decreases es, 0
  {
    if es == [] then []
    else if |es| == 1 then Print(es[0])
    else Print(es[0]) + [Comma] + PrintList(es[1..])
  }
}
