/**
 The reading of expressions by the grammar, level by level.

 A reader takes tokens from the front and gives the tree it read and the tokens that are left.
 Operators of one binary level are read from the left, assignments from the right.
 */
module Reader {
  import opened Options
  import opened FormatTree

  datatype Parsed = Parsed(e: Exp, rest: Tokens)

  datatype ParsedList = ParsedList(es: seq<Exp>, rest: Tokens)

  function Expect(t: Token, ts: Tokens): (rest: Option<Tokens>)
    ensures rest.Some? ==> ts == [t] + rest.value
  {
    if ts != [] && ts[0] == t then Some(ts[1..]) else None
  }

  predicate Begins(ts: Tokens, t: Token) {
    ts != [] && ts[0] == t
  }

  /** Reads an expression of the given level. */
  function Read(level: nat, ts: Tokens): (p: Option<Parsed>)
    requires level <= PRIMARY
    ensures p.Some? ==> |p.value.rest| < |ts|
    decreases |ts|, 20 - level, 1
  {
    if level == ASSIGNMENT then
      var l :- Read(TERNARY, ts);
      if l.rest != [] && l.rest[0].Asg? then
        if IsVariable(l.e) then
          var r :- Read(ASSIGNMENT, l.rest[1..]);
          Some(Parsed(Assignment(ReadAsg(ScanAsg(l.rest[0].sign)), l.e, r.e), r.rest))
        else None
      else Some(l)
    else if level == TERNARY then
      var c :- Read(NEW, ts);
      if Begins(c.rest, Query) then
        var yes :- Read(NEW, c.rest[1..]);
        var colon :- Expect(Colon, yes.rest);
        var no :- Read(NEW, colon);
        Some(Parsed(Ternary(c.e, yes.e, no.e), no.rest))
      else Some(c)
    else if level == NEW then ReadNew(ts)
    else if level <= LAST_BINARY then
      var l :- Read(level + 1, ts);
      ReadOperators(level, l.e, l.rest)
    else if level == COALESCING then
      var l :- Read(UNARY, ts);
      if Begins(l.rest, DoubleQuery) then
        var r :- Read(UNARY, l.rest[1..]);
        Some(Parsed(NullCoalescing(l.e, r.e), r.rest))
      else Some(l)
    else if level == UNARY then ReadUnary(ts)
    else ReadPrimary(ts)
  }

  function ReadNew(ts: Tokens): (p: Option<Parsed>)
    ensures p.Some? ==> |p.value.rest| < |ts|
    decreases |ts|, 20 - NEW, 0
  {
    if !Begins(ts, KwNew) then Read(FIRST_BINARY, ts)
    else if |ts| >= 2 && ts[1].DataType? then
      if Begins(ts[2..], LBrace) then
        var args :- ReadList(ts[3..], RBrace);
        Some(Parsed(NewWith(ts[1].name, args.es), args.rest))
      else Some(Parsed(New(ts[1].name), ts[2..]))
    else None
  }

  /** Goes on with the operators of one binary level, after the left operand `l`. */
  function ReadOperators(level: nat, l: Exp, ts: Tokens): (p: Option<Parsed>)
    requires FIRST_BINARY <= level <= LAST_BINARY
    ensures p.Some? ==> |p.value.rest| <= |ts|
    decreases |ts|, 20 - level, 0
  {
    if ts != [] && ts[0].Oper? && BinLevel(ts[0].op) == level then
      var r :- Read(level + 1, ts[1..]);
      ReadOperators(level, Binary(ts[0].op, l, r.e), r.rest)
    else Some(Parsed(l, ts))
  }

  function UnaryOf(t: Token): Option<UnaryOp> {
    match t
    case Oper(Plus) => Some(Positive)
    case Oper(Minus) => Some(Negative)
    case Bang => Some(Not)
    case Tilde => Some(Complement)
    case _ => None
  }

  function ReadUnary(ts: Tokens): (p: Option<Parsed>)
    ensures p.Some? ==> |p.value.rest| < |ts|
    decreases |ts|, 20 - UNARY, 0
  {
    if ts == [] then None
    else if UnaryOf(ts[0]).Some? then
      var e :- Read(PRIMARY, ts[1..]);
      Some(Parsed(Unary(UnaryOf(ts[0]).value, e.e), e.rest))
    else if ts[0].Step? then
      var v :- Read(PRIMARY, ts[1..]);
      if IsVariable(v.e) then Some(Parsed(Increment(ts[0].inc, v.e, false), v.rest)) else None
    else
      var v :- Read(PRIMARY, ts);
      if v.rest != [] && v.rest[0].Step? && IsVariable(v.e) then
        Some(Parsed(Increment(v.rest[0].inc, v.e, true), v.rest[1..]))
      else Some(v)
  }

  function ReadPrimary(ts: Tokens): (p: Option<Parsed>)
    ensures p.Some? ==> |p.value.rest| < |ts|
    decreases |ts|, 20 - PRIMARY, 0
  {
    if ts == [] then None
    else
      match ts[0]
      case Literal(text) =>
        if |ts| >= 3 && ts[1] == ArrowTo && ts[2].Ident? then ReadPostfix(Arrow(Const(text), ts[2].name), ts[3..])
        else Some(Parsed(Const(text), ts[1..]))
      case KwThis => ReadPostfix(This, ts[1..])
      case Ident(name) =>
        if Begins(ts[1..], LParen) then
          var args :- ReadList(ts[2..], RParen);
          ReadPostfix(FunctionCall(name, args.es), args.rest)
        else ReadPostfix(Base(name), ts[1..])
      case LParen =>
        var e :- Read(ASSIGNMENT, ts[1..]);
        var rest :- Expect(RParen, e.rest);
        ReadPostfix(Paren(e.e), rest)
      case _ => None
  }

  /** Goes on with what can follow a variable expression. */
  function ReadPostfix(v: Exp, ts: Tokens): (p: Option<Parsed>)
    ensures p.Some? ==> |p.value.rest| <= |ts|
    decreases |ts|, 0, 0
  {
    if ts == [] then Some(Parsed(v, ts))
    else
      match ts[0]
      case LBracket =>
        var i :- Read(ASSIGNMENT, ts[1..]);
        var rest :- Expect(RBracket, i.rest);
        ReadPostfix(Index(v, i.e), rest)
      case Dot =>
        if |ts| >= 2 && ts[1].Ident? then
          if Begins(ts[2..], LParen) then
            var args :- ReadList(ts[3..], RParen);
            ReadPostfix(MemberCall(v, ts[1].name, args.es), args.rest)
          else ReadPostfix(Member(v, ts[1].name), ts[2..])
        else Some(Parsed(v, ts))
      case ArrowTo =>
        if |ts| >= 2 && ts[1].Ident? then ReadPostfix(Arrow(v, ts[1].name), ts[2..]) else None
      case At => ReadPostfix(Dereference(v), ts[1..])
      case Dollar => ReadPostfix(AddressOf(v), ts[1..])
      case _ => Some(Parsed(v, ts))
  }

  /** A list that may be empty, up to and with the token `close`; a comma may stand before the first item. */
  function ReadList(ts: Tokens, close: Token): (p: Option<ParsedList>)
    ensures p.Some? ==> |p.value.rest| < |ts|
    decreases |ts|, 20, 3
  {
    if Begins(ts, close) then Some(ParsedList([], ts[1..]))
    else if Begins(ts, Comma) then ReadItems(ts[1..], close)
    else ReadItems(ts, close)
  }

  function ReadItems(ts: Tokens, close: Token): (p: Option<ParsedList>)
    ensures p.Some? ==> |p.value.rest| < |ts|
    decreases |ts|, 20, 2
  {
    var e :- Read(ASSIGNMENT, ts);
    if Begins(e.rest, Comma) then
      var more :- ReadItems(e.rest[1..], close);
      Some(ParsedList([e.e] + more.es, more.rest))
    else
      var rest :- Expect(close, e.rest);
      Some(ParsedList([e.e], rest))
  }
}
