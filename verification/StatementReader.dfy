/** The reading of statements by the grammar. */
module StatementReader {
  import opened Options
  import opened FormatTree
  import opened Reader

  datatype ReadOption = ReadOption(e: Option<Exp>, rest: Tokens)
  datatype ReadGroup = ReadGroup(vars: seq<Variable>, rest: Tokens)
  datatype ReadOne = ReadOne(s: Stm, rest: Tokens)
  datatype ReadMany = ReadMany(ss: seq<Stm>, rest: Tokens)
  datatype ReadOfCases = ReadOfCases(cases: seq<SwitchCase>, rest: Tokens)
  datatype ReadOfElse = ReadOfElse(elseBody: ElseBody, rest: Tokens)

  const KwElse := Key(Keyword.Else)

  const CallOfDestructor := [Tilde, KwThis, LParen, RParen, Semi]

  /** An expression, or none, up to and with the token `close`. */
  function ReadOptional(ts: Tokens, close: Token): (p: Option<ReadOption>)
    ensures p.Some? ==> |p.value.rest| < |ts|
  {
    if Begins(ts, close) then Some(ReadOption(None, ts[1..]))
    else
      var e :- Read(ASSIGNMENT, ts);
      var rest :- Expect(close, e.rest);
      Some(ReadOption(Some(e.e), rest))
  }

  function ReadVariable(ts: Tokens): (p: Option<ReadGroup>)
    ensures p.Some? ==> |p.value.rest| < |ts| && |p.value.vars| == 1
  {
    if ts == [] || !ts[0].Ident? then None
    else if Begins(ts[1..], Asg(Equals)) then
      var e :- Read(ASSIGNMENT, ts[2..]);
      Some(ReadGroup([Variable(ts[0].name, InitExp(e.e))], e.rest))
    else if Begins(ts[1..], LBrace) then
      var es :- ReadList(ts[2..], RBrace);
      Some(ReadGroup([Variable(ts[0].name, InitList(es.es))], es.rest))
    else Some(ReadGroup([Variable(ts[0].name, NoInit)], ts[1..]))
  }

  /** A group of declarations after its type, up to and with the semicolon. */
  function ReadVariables(ts: Tokens): (p: Option<ReadGroup>)
    ensures p.Some? ==> |p.value.rest| < |ts|
    decreases |ts|
  {
    var v :- ReadVariable(ts);
    if Begins(v.rest, Comma) then
      var more :- ReadVariables(v.rest[1..]);
      Some(ReadGroup(v.vars + more.vars, more.rest))
    else
      var rest :- Expect(Semi, v.rest);
      Some(ReadGroup(v.vars, rest))
  }

  function Statements(es: seq<Exp>): (ss: seq<Stm>)
    ensures |ss| == |es| && forall i | 0 <= i < |es| :: ss[i] == ExpressionStm(es[i])
  {
    if es == [] then [] else [ExpressionStm(es[0])] + Statements(es[1..])
  }

  /** What stands before the first semicolon of a `for`, with that semicolon. */
  function ReadHeader(ts: Tokens): (p: Option<ReadMany>)
    ensures p.Some? ==> |p.value.rest| < |ts|
  {
    if ts != [] && ts[0].DataType? then
      var vars :- ReadVariables(ts[1..]);
      Some(ReadMany([VariableGroup(ts[0].name, vars.vars)], vars.rest))
    else
      var es :- ReadList(ts, Semi);
      Some(ReadMany(Statements(es.es), es.rest))
  }

  function BranchOf(t: Token): Option<BranchKind> {
    match t
    case Key(Continue) => Some(ToContinue)
    case Key(Break) => Some(ToBreak)
    case Key(Redo) => Some(ToRedo)
    case _ => None
  }

  function ReadStm(ts: Tokens): (p: Option<ReadOne>)
    ensures p.Some? ==> |p.value.rest| < |ts|
    decreases |ts|, 3
  {
    if ts == [] then None
    else if ts[0].Key? then ReadKeyword(ts[0].key, ts)
    else if ts[0].DataType? then
      var vars :- ReadVariables(ts[1..]);
      Some(ReadOne(VariableGroup(ts[0].name, vars.vars), vars.rest))
    else if ts[0].Ident? && Begins(ts[1..], Colon) then Some(ReadOne(LabelStm(ts[0].name), ts[2..]))
    else if CallOfDestructor <= ts then Some(ReadOne(DestructorCall(This), ts[5..]))
    else
      var e :- Read(ASSIGNMENT, ts);
      if [Dot] + CallOfDestructor <= e.rest && IsVariable(e.e) then Some(ReadOne(DestructorCall(e.e), e.rest[6..]))
      else
        var rest :- Expect(Semi, e.rest);
        Some(ReadOne(ExpressionStm(e.e), rest))
  }

  function ReadKeyword(key: Keyword, ts: Tokens): (p: Option<ReadOne>)
    requires ts != [] && ts[0] == Key(key)
    ensures p.Some? ==> |p.value.rest| < |ts|
    decreases |ts|, 2
  {
    if key == Goto then
      if |ts| >= 3 && ts[1].Ident? && ts[2] == Semi then Some(ReadOne(GotoStm(ts[1].name), ts[3..])) else None
    else if key == Return then
      var e :- ReadOptional(ts[1..], Semi);
      Some(ReadOne(ReturnStm(e.e), e.rest))
    else if BranchOf(ts[0]).Some? then
      var e :- ReadOptional(ts[1..], Semi);
      Some(ReadOne(BranchStm(BranchOf(ts[0]).value, e.e), e.rest))
    else if key == Delete then ReadDelete(ts)
    else if key == Loop then
      var body :- ReadBody(ts[1..]);
      Some(ReadOne(LoopStm(body.ss), body.rest))
    else if key == Do then ReadDo(ts)
    else if key == While || key == Until then
      var open :- Expect(LParen, ts[1..]);
      var cond :- ReadOptional(open, RParen);
      var body :- ReadBody(cond.rest);
      Some(ReadOne(WhileStm(cond.e, body.ss, false, key == Until), body.rest))
    else if key == Switch then ReadSwitch(ts)
    else if key == For then ReadFor(ts)
    else if key == If then ReadIf(ts)
    else None
  }

  function ReadDelete(ts: Tokens): (p: Option<ReadOne>)
    requires ts != []
    ensures p.Some? ==> |p.value.rest| < |ts|
    decreases |ts|, 1
  {
    if Begins(ts[1..], LBracket) then
      var size :- Read(ASSIGNMENT, ts[2..]);
      var close :- Expect(RBracket, size.rest);
      var v :- ReadPrimary(close);
      var rest :- Expect(Semi, v.rest);
      if IsVariable(v.e) then Some(ReadOne(DeleteStm(v.e, Some(size.e)), rest)) else None
    else
      var v :- ReadPrimary(ts[1..]);
      var rest :- Expect(Semi, v.rest);
      if IsVariable(v.e) then Some(ReadOne(DeleteStm(v.e, None), rest)) else None
  }

  function ReadDo(ts: Tokens): (p: Option<ReadOne>)
    requires ts != []
    ensures p.Some? ==> |p.value.rest| < |ts|
    decreases |ts|, 1
  {
    var body :- ReadBody(ts[1..]);
    if Begins(body.rest, Key(While)) || Begins(body.rest, Key(Until)) then
      var open :- Expect(LParen, body.rest[1..]);
      var cond :- ReadOptional(open, RParen);
      var rest :- Expect(Semi, cond.rest);
      Some(ReadOne(WhileStm(cond.e, body.ss, true, body.rest[0] == Key(Until)), rest))
    else None
  }

  function ReadSwitch(ts: Tokens): (p: Option<ReadOne>)
    requires ts != []
    ensures p.Some? ==> |p.value.rest| < |ts|
    decreases |ts|, 1
  {
    var open :- Expect(LParen, ts[1..]);
    var value :- Read(ASSIGNMENT, open);
    var close :- Expect(RParen, value.rest);
    var brace :- Expect(LBrace, close);
    var cases :- ReadCases(brace);
    if cases.cases == [] then None
    else
      var rest :- Expect(RBrace, cases.rest);
      Some(ReadOne(SwitchStm(value.e, cases.cases), rest))
  }

  function ReadFor(ts: Tokens): (p: Option<ReadOne>)
    requires ts != []
    ensures p.Some? ==> |p.value.rest| < |ts|
    decreases |ts|, 1
  {
    var open :- Expect(LParen, ts[1..]);
    var pre :- ReadHeader(open);
    var cond :- ReadOptional(pre.rest, Semi);
    var post :- ReadList(cond.rest, RParen);
    var body :- ReadBody(post.rest);
    Some(ReadOne(ForStm(pre.ss, cond.e, post.es, body.ss), body.rest))
  }

  function ReadIf(ts: Tokens): (p: Option<ReadOne>)
    requires ts != []
    ensures p.Some? ==> |p.value.rest| < |ts|
    decreases |ts|, 1
  {
    var open :- Expect(LParen, ts[1..]);
    var test :- Read(ASSIGNMENT, open);
    var close :- Expect(RParen, test.rest);
    var body :- ReadBody(close);
    var elseBody :- ReadElse(body.rest);
    Some(ReadOne(IfStm(test.e, body.ss, elseBody.elseBody), elseBody.rest))
  }

  /** An `else` belongs to the nearest `if` before it. */
  function ReadElse(ts: Tokens): (p: Option<ReadOfElse>)
    ensures p.Some? ==> |p.value.rest| <= |ts|
    decreases |ts|, 0
  {
    if Begins(ts, KwElse) then
      var body :- ReadBody(ts[1..]);
      Some(ReadOfElse(ElseBody.Else(body.ss), body.rest))
    else Some(ReadOfElse(NoElse, ts))
  }

  /** A single statement: a list in braces, a semicolon, or one statement. */
  function ReadBody(ts: Tokens): (p: Option<ReadMany>)
    ensures p.Some? ==> |p.value.rest| < |ts|
    decreases |ts|, 5
  {
    if Begins(ts, LBrace) then
      var ss :- ReadStms(ts[1..]);
      var rest :- Expect(RBrace, ss.rest);
      Some(ReadMany(ss.ss, rest))
    else if Begins(ts, Semi) then Some(ReadMany([], ts[1..]))
    else
      var s :- ReadStm(ts);
      Some(ReadMany([s.s], s.rest))
  }

  /** The tokens that end a list of statements. */
  predicate EndsList(ts: Tokens) {
    ts == [] || ts[0] == RBrace || ts[0] == Key(Case) || ts[0] == Key(Default)
  }

  function ReadStms(ts: Tokens): (p: Option<ReadMany>)
    ensures p.Some? ==> |p.value.rest| <= |ts|
    decreases |ts|, 4
  {
    if EndsList(ts) then Some(ReadMany([], ts))
    else
      var s :- ReadStm(ts);
      var more :- ReadStms(s.rest);
      Some(ReadMany([s.s] + more.ss, more.rest))
  }

  function ReadCases(ts: Tokens): (p: Option<ReadOfCases>)
    ensures p.Some? ==> |p.value.rest| <= |ts|
    decreases |ts|, 4
  {
    if Begins(ts, Key(Case)) then
      var value :- Read(ASSIGNMENT, ts[1..]);
      var colon :- Expect(Colon, value.rest);
      var body :- ReadStms(colon);
      var more :- ReadCases(body.rest);
      Some(ReadOfCases([SwitchCase(Some(value.e), body.ss)] + more.cases, more.rest))
    else if Begins(ts, Key(Default)) then
      var colon :- Expect(Colon, ts[1..]);
      var body :- ReadStms(colon);
      var more :- ReadCases(body.rest);
      Some(ReadOfCases([SwitchCase(None, body.ss)] + more.cases, more.rest))
    else Some(ReadOfCases([], ts))
  }
}
