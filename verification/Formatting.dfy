/**
 The formatter's laws for whole lists of statements.

 What the grammar reads is a tree that the formatter can print; what is printed is read back; a second
 formatting changes nothing.  The tree itself is kept exactly when no destructor call loses its object.
 */
module Formatting {
  import opened Options
  import opened FormatTree
  import opened FormatExpression
  import opened FormatStatement
  import opened Reader
  import opened StatementReader
  import opened Grammar
  import opened StatementGrammar
  import opened StatementReadings
  import opened StatementRoundTrip

  /** A list of statements that stands alone. */
  function ReadAll(ts: Tokens): Option<seq<Stm>> {
    var p :- ReadStms(ts);
    if p.rest == [] then Some(p.ss) else None
  }

  // ---------------------------------------------------------------- the mistake, exactly

  lemma {:induction false} SettledExactly(s: Stm)
    ensures Settled(s) == s <==> Faithful(s)
    decreases s, 1
  {
    match s
    case LoopStm(body) => SettledStmsExactly(body);
    case WhileStm(_, body, _, _) => SettledStmsExactly(body);
    case SwitchStm(_, cases) => SettledCasesExactly(cases);
    case ForStm(_, _, _, body) => SettledStmsExactly(body);
    case IfStm(_, body, elseBody) =>
      SettledStmsExactly(body);
      if elseBody.Else? { SettledStmsExactly(elseBody.body); }
    case _ =>
  }

  lemma {:induction false} SettledStmsExactly(ss: seq<Stm>)
    ensures SettledStms(ss) == ss <==> FaithfulStms(ss)
    decreases ss, 0
  {
    if ss != [] {
      SettledExactly(ss[0]);
      SettledStmsExactly(ss[1..]);
      assert ss == [ss[0]] + ss[1..];
      assert SettledStms(ss)[0] == Settled(ss[0]) && SettledStms(ss)[1..] == SettledStms(ss[1..]);
      assert FaithfulStms(ss) <==> Faithful(ss[0]) && FaithfulStms(ss[1..]);
    }
  }

  lemma {:induction false} SettledCasesExactly(cases: seq<SwitchCase>)
    ensures SettledCases(cases) == cases <==> FaithfulCases(cases)
    decreases cases, 0
  {
    if cases != [] {
      var first := SwitchCase(cases[0].value, SettledStms(cases[0].body));
      SettledStmsExactly(cases[0].body);
      SettledCasesExactly(cases[1..]);
      assert cases == [cases[0]] + cases[1..];
      assert SettledCases(cases)[0] == first && SettledCases(cases)[1..] == SettledCases(cases[1..]);
      assert first == cases[0] <==> SettledStms(cases[0].body) == cases[0].body;
      assert FaithfulCases(cases) <==> FaithfulStms(cases[0].body) && FaithfulCases(cases[1..]);
    }
  }

  // ---------------------------------------------------------------- printing what was read back

  lemma {:induction false} PrintedAlike(s: Stm)
    ensures PrintStm(Settled(s)) == PrintStm(s) && IsBlockStm(Settled(s)) == IsBlockStm(s)
    ensures Settled(s).IfStm? == s.IfStm?
    ensures s.IfStm? ==> UsesBlocks(Settled(s)) == UsesBlocks(s)
    ensures s.IfStm? ==>
        PrintIf(Settled(s), true) == PrintIf(s, true)
        && PrintIf(Settled(s), false) == PrintIf(s, false)
    decreases s, 1
  {
    match s
    case LoopStm(body) => BodyPrintedAlike(body);
    case WhileStm(_, body, _, _) => BodyPrintedAlike(body);
    case SwitchStm(_, cases) => CasesPrintedAlike(cases);
    case ForStm(_, _, _, body) => BodyPrintedAlike(body);
    case IfStm(_, _, _) => IfPrintedAlike(s);
    case _ =>
  }

  lemma {:induction false} IfPrintedAlike(s: Stm)
    requires s.IfStm?
    ensures UsesBlocks(Settled(s)) == UsesBlocks(s)
    ensures PrintIf(Settled(s), true) == PrintIf(s, true) && PrintIf(Settled(s), false) == PrintIf(s, false)
    decreases s, 0
  {
    hide Print, PrintBody, PrintElse, SettledStms;
    BodyPrintedAlike(s.body);
    ElsePrintedAlike(s.elseBody, true);
    ElsePrintedAlike(s.elseBody, false);
    if s.elseBody.Else? {
      BodyPrintedAlike(s.elseBody.body);
      if IsElseIf(s.elseBody.body) { PrintedAlike(s.elseBody.body[0]); }
    }
  }

  lemma {:induction false} ElsePrintedAlike(e: ElseBody, block: bool)
    ensures PrintElse(SettledElse(e), block) == PrintElse(e, block)
    decreases e, 1
  {
    if e.Else? {
      BodyPrintedAlike(e.body);
      if IsElseIf(e.body) { PrintedAlike(e.body[0]); }
    }
  }

  lemma {:induction false} BodyPrintedAlike(body: seq<Stm>)
    ensures PrintStms(SettledStms(body)) == PrintStms(body)
    ensures PrintBody(SettledStms(body), true) == PrintBody(body, true)
    ensures PrintBody(SettledStms(body), false) == PrintBody(body, false)
    ensures IsBlock(SettledStms(body)) == IsBlock(body) && IsElseIf(SettledStms(body)) == IsElseIf(body)
    ensures body != [] ==> SettledStms(body)[0] == Settled(body[0])
    decreases body, 0
  {
    if body != [] {
      PrintedAlike(body[0]);
      BodyPrintedAlike(body[1..]);
      assert SettledStms(body)[1..] == SettledStms(body[1..]);
    }
  }

  lemma {:induction false} CasesPrintedAlike(cases: seq<SwitchCase>)
    ensures PrintCases(SettledCases(cases)) == PrintCases(cases)
    decreases cases, 0
  {
    if cases != [] {
      BodyPrintedAlike(cases[0].body);
      CasesPrintedAlike(cases[1..]);
      assert SettledCases(cases)[1..] == SettledCases(cases[1..]);
    }
  }

  // ---------------------------------------------------------------- what is read is what the grammar derives

  /** The reader accepts exactly the lists of statements that the grammar derives. */
  lemma ReaderIsTheGrammar(ts: Tokens, ss: seq<Stm>)
    ensures ReadAll(ts) == Some(ss) <==> DerivesStms(ts, ss)
  {
    hide ReadStms, DerivesStms;
    if DerivesStms(ts, ss) {
      ReadsDerivedStms(ts, ss, []);
      assert ts + [] == ts;
    }
    if ReadAll(ts) == Some(ss) {
      var us := UnderstoodStms(ts);
      assert us == ts;
    }
  }

  lemma ReadIsGrammatical(ts: Tokens)
    requires ReadAll(ts).Some?
    ensures GrammaticalStms(ReadAll(ts).value)
  {
    hide ReadAll, DerivesStms, GrammaticalStms;
    ReaderIsTheGrammar(ts, ReadAll(ts).value);
    ShapeStms(ts, ReadAll(ts).value);
  }

  // ---------------------------------------------------------------- the laws

  /** Every printed list is read back, but for the objects that destructor calls lose. */
  lemma StatementsRoundTrip(ss: seq<Stm>)
    requires GrammaticalStms(ss)
    ensures ReadAll(PrintStms(ss)) == Some(SettledStms(ss))
  {
    hide ReadAll, PrintStms, DerivesStms, SettledStms;
    PrintedStms(ss);
    ReaderIsTheGrammar(PrintStms(ss), SettledStms(ss));
  }

  /** The tree is kept exactly when no destructor call loses its object. */
  lemma TreeKeptExactly(ss: seq<Stm>)
    requires GrammaticalStms(ss)
    ensures ReadAll(PrintStms(ss)) == Some(ss) <==> FaithfulStms(ss)
  {
    StatementsRoundTrip(ss);
    SettledStmsExactly(ss);
  }

  /**
   Formatting a text that the grammar accepts gives a text that it accepts, and formatting that again changes
   nothing.
   */
  lemma FormattingTwice(ts: Tokens)
    requires ReadAll(ts).Some?
    ensures var once := PrintStms(ReadAll(ts).value);
      ReadAll(once).Some? && PrintStms(ReadAll(once).value) == once
  {
    ReadIsGrammatical(ts);
    var ss := ReadAll(ts).value;
    StatementsRoundTrip(ss);
    BodyPrintedAlike(ss);
  }

  /**
   Two texts are formatted alike exactly when their trees are the same but for the objects that destructor calls
   lose.
   */
  lemma FormattedApart(a: Tokens, b: Tokens)
    requires ReadAll(a).Some? && ReadAll(b).Some?
    ensures
      PrintStms(ReadAll(a).value) == PrintStms(ReadAll(b).value)
      <==> SettledStms(ReadAll(a).value) == SettledStms(ReadAll(b).value)
  {
    ReadIsGrammatical(a);
    ReadIsGrammatical(b);
    StatementsRoundTrip(ReadAll(a).value);
    StatementsRoundTrip(ReadAll(b).value);
    BodyPrintedAlike(ReadAll(a).value);
    BodyPrintedAlike(ReadAll(b).value);
  }

  /** `this->f.~this();` is read, and formatted as `~this();`, which destroys another object. */
  lemma LosesTheObject(f: nat) returns (text: Tokens, s: Stm)
    ensures text == [KwThis, ArrowTo, Ident(f), Dot, Tilde, KwThis, LParen, RParen, Semi]
    ensures s == DestructorCall(Arrow(This, f)) && ReadAll(text) == Some([s])
    ensures ReadAll(PrintStms([s])) == Some([DestructorCall(This)])
  {
    hide ReadAll, PrintStms, Settled, SettledStms;
    s := DestructorCall(Arrow(This, f));
    text := [KwThis, ArrowTo, Ident(f), Dot, Tilde, KwThis, LParen, RParen, Semi];
    LosesSettled(f);
    StatementsRoundTrip([s]);
    LosingTextRead(text, f);
  }

  lemma LosesSettled(f: nat)
    ensures GrammaticalStms([DestructorCall(Arrow(This, f))])
    ensures SettledStms([DestructorCall(Arrow(This, f))]) == [DestructorCall(This)]
  {
    var s := DestructorCall(Arrow(This, f));
    assert Grammatical(This) && TokenIsThis(This);
    assert GrammaticalStm(s) && TokenIsThis(s.v);
    assert [s][1..] == [] && SettledStms([]) == [];
    assert SettledStms([s]) == [Settled(s)];
  }

  lemma LosingTextRead(text: Tokens, f: nat)
    requires text == [KwThis, ArrowTo, Ident(f), Dot, Tilde, KwThis, LParen, RParen, Semi]
    ensures ReadAll(text) == Some([DestructorCall(Arrow(This, f))])
  {
    hide ReadAll, DerivesStm;
    var s := DestructorCall(Arrow(This, f));
    LosingTextDerived(text, f);
    assert Concat([text]) == text + Concat([text][1..]);
    assert DerivesStms(text, [s]);
    ReaderIsTheGrammar(text, [s]);
  }

  lemma LosingTextDerived(text: Tokens, f: nat)
    requires text == [KwThis, ArrowTo, Ident(f), Dot, Tilde, KwThis, LParen, RParen, Semi]
    ensures DerivesStm(false, text, DestructorCall(Arrow(This, f)))
  {
    var x, v := [KwThis, ArrowTo, Ident(f)], Arrow(This, f);
    assert Stands([KwThis], This) && Derives(VariableExp, [KwThis], This);
    assert x == [KwThis] + [ArrowTo, Ident(f)];
    assert Goes(x, v);
    assert text == x + [Dot, Tilde, KwThis, LParen, RParen, Semi];
    assert Simple(text, DestructorCall(v));
  }
}
