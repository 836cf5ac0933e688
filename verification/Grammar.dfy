/**
 The rules of the grammar for expressions.

 A nonterminal derives tokens as a tree.  The rules are those of the grammar, one by one; nothing here
 speaks of how they are read.
 */
module Grammar {
  import opened Options
  import opened FormatTree

  datatype Nonterminal =
    | AssignmentExp | TernaryExp | NewExp | LogicalOrExp | LogicalAndExp | EqualsExp | GreaterOrLessExp
    | BitOrExp | BitXorExp | BitAndExp | ShiftExp | AdditionExp | MultiplicationExp | NullCoalescingExp
    | UnaryExp | PrimaryExp | VariableExp

  const ASSIGNMENTS: set<(AsgText, AsgOp)> := {
    (Equals, Plain), (StarEq, OfMul), (SlashEq, OfDiv), (PercentEq, OfMod), (PlusEq, OfAdd), (MinusEq, OfSub),
    (ShlEq, OfShl), (ShrEq, OfShr), (AmpEq, OfAnd), (HatEq, OfXor), (BarEq, OfOr), (QueryEq, OfCoalesce)}

  const SIGNS: set<(Token, UnaryOp)> := {
    (Oper(Plus), Positive), (Oper(Minus), Negative), (Bang, Not), (Tilde, Complement)}

  /** The tokens are an expression of the nonterminal, and `e` is its tree. */
  ghost predicate Derives(n: Nonterminal, ts: Tokens, e: Exp)
    decreases e, Rank(n), 2
  {
    match n
    case AssignmentExp => Derives(TernaryExp, ts, e) || Assigns(ts, e)
    case TernaryExp => Derives(NewExp, ts, e) || Chooses(ts, e)
    case NewExp => Derives(LogicalOrExp, ts, e) || Makes(ts, e)
    case LogicalOrExp => Chain(LogicalOrExp, {LogOr}, LogicalAndExp, ts, e)
    case LogicalAndExp => Chain(LogicalAndExp, {LogAnd}, EqualsExp, ts, e)
    case EqualsExp => Chain(EqualsExp, {Eq, Neq}, GreaterOrLessExp, ts, e)
    case GreaterOrLessExp => Chain(GreaterOrLessExp, {Lt, Gt, Leq, Geq}, BitOrExp, ts, e)
    case BitOrExp => Chain(BitOrExp, {BitOr}, BitXorExp, ts, e)
    case BitXorExp => Chain(BitXorExp, {BitXor}, BitAndExp, ts, e)
    case BitAndExp => Chain(BitAndExp, {BitAnd}, ShiftExp, ts, e)
    case ShiftExp => Chain(ShiftExp, {Shl, Shr}, AdditionExp, ts, e)
    case AdditionExp => Chain(AdditionExp, {Plus, Minus}, MultiplicationExp, ts, e)
    case MultiplicationExp => Chain(MultiplicationExp, {Mul, Div, Mod}, NullCoalescingExp, ts, e)
    case NullCoalescingExp => Derives(UnaryExp, ts, e) || Coalesces(ts, e)
    case UnaryExp => Derives(PrimaryExp, ts, e) || Steps(ts, e) || Signs(ts, e)
    case PrimaryExp => (e.Const? && ts == [Literal(e.text)]) || Derives(VariableExp, ts, e)
    case VariableExp => Stands(ts, e) || Goes(ts, e)
  }

  /** Operators of one rule, collected from the left. */
  ghost predicate Chain(n: Nonterminal, ops: set<BinOp>, operand: Nonterminal, ts: Tokens, e: Exp)
    requires Rank(operand) < Rank(n)
    decreases e, Rank(n), 0
  {
    Derives(operand, ts, e) || (e.Binary? && e.bop in ops && Operates(n, operand, ts, e))
  }

  ghost predicate Operates(n: Nonterminal, operand: Nonterminal, ts: Tokens, e: Exp)
    requires e.Binary?
    decreases e, 0, 0
  {
    exists l, r :: ts == l + [Oper(e.bop)] + r && Derives(n, l, e.l) && Derives(operand, r, e.r)
  }

  ghost predicate Assigns(ts: Tokens, e: Exp)
    decreases e, 0, 0
  {
    e.Assignment? && exists v, sign, rhs ::
      && ts == v + [Asg(sign)] + rhs && (sign, e.aop) in ASSIGNMENTS
      && Derives(VariableExp, v, e.v) && Derives(AssignmentExp, rhs, e.rhs)
  }

  ghost predicate Chooses(ts: Tokens, e: Exp)
    decreases e, 0, 0
  {
    e.Ternary? && exists c, yes, no ::
      && ts == c + [Query] + yes + [Colon] + no
      && Derives(NewExp, c, e.c) && Derives(NewExp, yes, e.yes) && Derives(NewExp, no, e.no)
  }

  ghost predicate Makes(ts: Tokens, e: Exp)
    decreases e, 0, 0
  {
    || (e.New? && ts == [KwNew, DataType(e.ty)])
    || (e.NewWith? && exists list ::
          ts == [KwNew, DataType(e.ty), LBrace] + list + [RBrace] && DerivesList(list, e.args))
  }

  ghost predicate Coalesces(ts: Tokens, e: Exp)
    decreases e, 0, 0
  {
    e.NullCoalescing? && exists l, r ::
      ts == l + [DoubleQuery] + r && Derives(UnaryExp, l, e.l) && Derives(UnaryExp, r, e.r)
  }

  ghost predicate Steps(ts: Tokens, e: Exp)
    decreases e, 0, 0
  {
    e.Increment? && exists v ::
      (ts == if e.postfix then v + [Step(e.inc)] else [Step(e.inc)] + v) && Derives(VariableExp, v, e.v)
  }

  ghost predicate Signs(ts: Tokens, e: Exp)
    decreases e, 0, 0
  {
    e.Unary? && exists sign, inner ::
      ts == [sign] + inner && (sign, e.uop) in SIGNS && Derives(PrimaryExp, inner, e.e)
  }

  /** What a variable can begin with. */
  ghost predicate Stands(ts: Tokens, e: Exp)
    decreases e, 0, 0
  {
    match e
    case Base(name) => ts == [Ident(name)]
    case This => ts == [KwThis]
    case Paren(x) => exists inner :: ts == [LParen] + inner + [RParen] && Derives(AssignmentExp, inner, x)
    case FunctionCall(name, args) =>
      exists list :: ts == [Ident(name), LParen] + list + [RParen] && DerivesList(list, args)
    case Arrow(v, name) => v.Const? && ts == [Literal(v.text), ArrowTo, Ident(name)]
    case _ => false
  }

  /** What can follow a variable. */
  ghost predicate Goes(ts: Tokens, e: Exp)
    decreases e, 0, 1
  {
    (e.Index? || e.Member? || e.MemberCall? || e.Dereference? || e.AddressOf? || e.Arrow?)
    && exists v, suffix :: ts == v + suffix && Derives(VariableExp, v, e.v) && Follows(suffix, e)
  }

  ghost predicate Follows(ts: Tokens, e: Exp)
    decreases e, 0, 0
  {
    match e
    case Index(_, i) => exists inner :: ts == [LBracket] + inner + [RBracket] && Derives(AssignmentExp, inner, i)
    case Member(_, name) => ts == [Dot, Ident(name)]
    case MemberCall(_, name, args) =>
      exists list :: ts == [Dot, Ident(name), LParen] + list + [RParen] && DerivesList(list, args)
    case Arrow(_, name) => ts == [ArrowTo, Ident(name)]
    case Dereference(_) => ts == [At]
    case AddressOf(_) => ts == [Dollar]
    case _ => false
  }

  /** A list of expressions: nothing, an expression, or a list, a comma and an expression. */
  ghost predicate DerivesList(ts: Tokens, es: seq<Exp>)
    decreases es, 0, 1
  {
    || (ts == [] && es == [])
    || (|es| == 1 && Derives(AssignmentExp, ts, es[0]))
    || (es != [] && Extends(ts, es))
  }

  ghost predicate Extends(ts: Tokens, es: seq<Exp>)
    requires es != []
    decreases es, 0, 0
  {
    var n := |es| - 1;
    exists list, last ::
      ts == list + [Comma] + last && DerivesList(list, es[..n]) && Derives(AssignmentExp, last, es[n])
  }

  /** One after the other, with commas between them. */
  function Join(parts: seq<Tokens>): Tokens {
    if parts == [] then []
    else if |parts| == 1 then parts[0]
    else parts[0] + [Comma] + Join(parts[1..])
  }

  /** How many rules there are below a nonterminal that lead to another one by themselves. */
  function Rank(n: Nonterminal): nat {
    match n
    case AssignmentExp => 16
    case TernaryExp => 15
    case NewExp => 14
    case LogicalOrExp => 13
    case LogicalAndExp => 12
    case EqualsExp => 11
    case GreaterOrLessExp => 10
    case BitOrExp => 9
    case BitXorExp => 8
    case BitAndExp => 7
    case ShiftExp => 6
    case AdditionExp => 5
    case MultiplicationExp => 4
    case NullCoalescingExp => 3
    case UnaryExp => 2
    case PrimaryExp => 1
    case VariableExp => 0
  }
}
