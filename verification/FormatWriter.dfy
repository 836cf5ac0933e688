/** The visitors that write statements line by line, proved against the tokens that statements are printed as. */
module FormatWriter {
  import opened Options
  import opened FormatTree
  import opened FormatExpression
  import opened FormatStatement
  import opened FormatContexts

  // ---------------------------------------------------------------- lists

  method VisitExpressions(es: seq<Exp>) returns (str: Tokens)
    ensures str == PrintList(es)
  {
    hide Print;
    str := [];
    var last := false;
    for i := 0 to |es|
      invariant last == (i > 0)
      invariant str + AfterItems(es, i) == PrintList(es)
    {
      if last { str := str + [Comma]; } else { last := true; }
      str := str + Print(es[i]);
      assert es[i..][1..] == es[i + 1..];
    }
  }

  /** What is still to be printed of a list after `i` of its items. */
  function AfterItems(es: seq<Exp>, i: nat): Tokens
    requires i <= |es|
  {
    if i == 0 then PrintList(es) else if i == |es| then [] else [Comma] + PrintList(es[i..])
  }

  function AfterVariables(vars: seq<Variable>, i: nat): Tokens
    requires i <= |vars|
  {
    if i == 0 then PrintVariables(vars) else if i == |vars| then [] else [Comma] + PrintVariables(vars[i..])
  }

  function AfterHeader(pre: seq<Stm>, i: nat): Tokens
    requires i <= |pre|
  {
    if i == 0 then PrintHeader(pre) else if i == |pre| then [] else [Comma] + PrintHeader(pre[i..])
  }

  // ---------------------------------------------------------------- simple statements

  predicate IsSimple(s: Stm) {
    s.ExpressionStm? || s.VariableGroup?
  }

  method VisitExpressionStm(context: FormatContext, s: Stm)
    requires s.ExpressionStm?
    modifies context.Target()
    ensures context.Target().lines == old(context.Target().lines) + [Line(context.indentLvl, PrintStm(s))]
    ensures Wrote(context, PrintStm(s))
  {
    context.AddLine(Print(s.e) + [Semi]);
  }

  method VisitVariable(v: Variable) returns (item: Tokens)
    ensures item == PrintVariable(v)
  {
    hide Print, PrintList;
    item := [Ident(v.name)];
    if v.init.InitExp? {
      item := item + [Asg(Equals)] + Print(v.init.e);
    } else if v.init.InitList? {
      var args := VisitExpressions(v.init.es);
      item := item + [LBrace] + args + [RBrace];
    }
  }

  method VisitVariableGroup(context: FormatContext, s: Stm)
    requires s.VariableGroup?
    modifies context.Target()
    ensures context.Target().lines == old(context.Target().lines) + [Line(context.indentLvl, PrintStm(s))]
    ensures Wrote(context, PrintStm(s))
  {
    hide Print, PrintList, PrintVariable, Text;
    var line: Tokens := [DataType(s.ty)];
    var first := true;
    for i := 0 to |s.vars|
      invariant context.Target().lines == old(context.Target().lines)
      invariant first == (i == 0)
      invariant line + AfterVariables(s.vars, i) == [DataType(s.ty)] + PrintVariables(s.vars)
    {
      if !first { line := line + [Comma]; }
      first := false;
      var item := VisitVariable(s.vars[i]);
      line := line + item;
      assert s.vars[i..][1..] == s.vars[i + 1..];
    }
    assert AfterVariables(s.vars, |s.vars|) == [];
    assert line + [Semi] == PrintStm(s);
    context.AddLine(line + [Semi]);
  }

  // ---------------------------------------------------------------- statements

  method Visit(context: FormatContext, s: Stm)
    requires GrammaticalStm(s) && (context.altLines != null ==> IsSimple(s))
    modifies context, context.Target()
    ensures Wrote(context, PrintStm(s))
    ensures IsSimple(s) ==>
        context.Target().lines == old(context.Target().lines)
        + [Line(context.indentLvl, PrintStm(s))]
    decreases s, 5
  {
    hide Text, Print, PrintStms, PrintBody, PrintList, PrintCases, PrintHeader, PrintIf, PrintVariable;
    match s
    case ExpressionStm(_) => VisitExpressionStm(context, s);
    case VariableGroup(_, _) => VisitVariableGroup(context, s);
    case LabelStm(name) =>
      var indent := context.indentLvl;
      context.SetIndent(0);
      context.AddLine([Ident(name), Colon]);
      context.SetIndent(indent);
    case GotoStm(name) => context.AddLine([Key(Goto), Ident(name), Semi]);
    case ReturnStm(value) => context.AddLine([Key(Return)] + PrintOption(value) + [Semi]);
    case BranchStm(kind, level) =>
      var line := [BranchToken(kind)];
      if level.Some? { line := line + Print(level.value); }
      context.AddLine(line + [Semi]);
    case DeleteStm(v, size) =>
      var index := PrintOption(size);
      if index != [] { index := [LBracket] + index + [RBracket]; }
      context.AddLine([Key(Delete)] + index + Print(v) + [Semi]);
    case DestructorCall(v) =>
      var line := [];
      if !TokenIsThis(v) { line := Print(v) + [Dot]; }
      context.AddLine(line + [Tilde, KwThis, LParen, RParen, Semi]);
    case LoopStm(body) =>
      context.AddLine([Key(Loop)]);
      WriteBlockStmt(context, body, false);
    case WhileStm(_, _, _, _) => VisitWhile(context, s);
    case SwitchStm(_, _) => VisitSwitch(context, s);
    case ForStm(_, _, _, _) => VisitFor(context, s);
    case IfStm(_, _, _) => VisitIf(context, s);
  }

  method VisitList(context: FormatContext, ss: seq<Stm>)
    requires GrammaticalStms(ss) && context.altLines == null
    modifies context, context.Target()
    ensures Wrote(context, PrintStms(ss))
    decreases ss, 0
  {
    hide PrintStm, Text;
    for i := 0 to |ss|
      invariant context.altLines == null && context.indentLvl == old(context.indentLvl)
      invariant context.Written() + PrintStms(ss[i..]) == old(context.Written()) + PrintStms(ss)
      invariant old(context.Target().lines) != [] || i > 0 ==> context.Target().lines != []
    {
      Visit(context, ss[i]);
      assert ss[i..][1..] == ss[i + 1..];
    }
  }

  method WriteBlockStmt(context: FormatContext, body: seq<Stm>, force: bool)
    requires GrammaticalStms(body)
    requires context.altLines == null && context.Target().lines != []
    modifies context, context.Target()
    ensures Wrote(context, PrintBody(body, force))
    decreases body, 1
  {
    hide PrintStm, PrintStms, Print, GrammaticalStm;
    var writeBlock := force || IsBlock(body);
    if writeBlock { context.Add([LBrace]); }
    context.Indent();
    VisitList(context, body);
    context.Undent();
    if writeBlock { context.AddLine([RBrace]); }
  }

  method VisitWhile(context: FormatContext, s: Stm)
    requires s.WhileStm? && GrammaticalStm(s) && context.altLines == null
    modifies context, context.Target()
    ensures Wrote(context, PrintStm(s))
    decreases s, 4
  {
    hide PrintStm, PrintBody, PrintOption, Text;
    var test := [Key(if s.until then Until else While), LParen] + PrintOption(s.cond) + [RParen];
    ghost var before, body := context.Written(), PrintBody(s.body, false);
    if s.doWhile { context.AddLine([Key(Do)]); } else { context.AddLine(test); }
    WriteBlockStmt(context, s.body, false);
    if s.doWhile {
      if IsBlock(s.body) { context.Add(test + [Semi]); } else { context.AddLine(test + [Semi]); }
    }
    WhilePrinted(s, before, body, test);
  }

  lemma WhilePrinted(s: Stm, before: Tokens, body: Tokens, test: Tokens)
    requires s.WhileStm? && body == PrintBody(s.body, false)
    requires test == [Key(if s.until then Until else While), LParen] + PrintOption(s.cond) + [RParen]
    ensures before + PrintStm(s) == if s.doWhile then before + [Key(Do)] + body + (test + [Semi])
        else before + test + body
  {
  }

  method VisitSwitch(context: FormatContext, s: Stm)
    requires s.SwitchStm? && GrammaticalStm(s) && context.altLines == null
    modifies context, context.Target()
    ensures Wrote(context, PrintStm(s))
    decreases s, 4
  {
    hide Print, PrintStm, PrintCase, Text;
    var head := [Key(Switch), LParen] + Print(s.subject) + [RParen, LBrace];
    ghost var before := context.Written();
    context.AddLine(head);
    for i := 0 to |s.cases|
      invariant context.altLines == null && context.indentLvl == old(context.indentLvl)
      invariant context.Written() + PrintCases(s.cases[i..]) == before + head + PrintCases(s.cases)
      invariant context.Target().lines != []
    {
      ghost var written, c := context.Written(), PrintCase(s.cases[i]);
      assert s.cases[i..][1..] == s.cases[i + 1..];
      VisitCase(context, s.cases[i]);
      assert written + c + PrintCases(s.cases[i + 1..]) == written + (c + PrintCases(s.cases[i + 1..]));
    }
    assert context.Written() == before + head + PrintCases(s.cases);
    context.AddLine([RBrace]);
    SwitchPrinted(s, before, head);
  }

  lemma SwitchPrinted(s: Stm, before: Tokens, head: Tokens)
    requires s.SwitchStm? && head == [Key(Switch), LParen] + Print(s.subject) + [RParen, LBrace]
    ensures before + head + PrintCases(s.cases) + [RBrace] == before + PrintStm(s)
  {
  }

  method VisitCase(context: FormatContext, c: SwitchCase)
    requires GrammaticalOption(c.value) && GrammaticalStms(c.body) && context.altLines == null
    modifies context, context.Target()
    ensures Wrote(context, PrintCase(c))
    decreases c, 4
  {
    hide Print, PrintStms, PrintStm, Text;
    if c.value.Some? {
      context.AddLine([Key(Case)] + Print(c.value.value) + [Colon]);
    } else {
      context.AddLine([Key(Default), Colon]);
    }
    context.Indent();
    VisitList(context, c.body);
    context.Undent();
  }

  /** Writes the statements before the first semicolon to a buffer of their own, and joins its lines. */
  method VisitFor(context: FormatContext, s: Stm)
    requires s.ForStm? && GrammaticalStm(s) && context.altLines == null
    modifies context, context.Target()
    ensures Wrote(context, PrintStm(s))
    decreases s, 4
  {
    var buffer := new Buffer();
    context.SetBuffer(buffer);
    for i := 0 to |s.pre|
      invariant context.altLines == buffer && context.indentLvl == old(context.indentLvl)
      invariant |buffer.lines| == i && forall j | 0 <= j < i :: buffer.lines[j].tokens == PrintStm(s.pre[j])
      invariant context.lines.lines == old(context.lines.lines)
    {
      Visit(context, s.pre[i]);
    }
    context.SetBuffer(null);

    ghost var before, body := context.Written(), PrintBody(s.body, false);
    context.AddLine([Key(For), LParen]);
    var header := JoinHeader(s.pre, buffer.lines);
    context.Add(header);
    var cond := [Semi] + PrintOption(s.cond) + [Semi];
    context.Add(cond);
    var post := VisitExpressions(s.post);
    context.Add(post);
    context.Add([RParen]);
    WriteBlockStmt(context, s.body, false);
    ForPrinted(s, before, header, cond, post, body);
  }

  lemma ForPrinted(s: Stm, before: Tokens, header: Tokens, cond: Tokens, post: Tokens, body: Tokens)
    requires s.ForStm? && header == PrintHeader(s.pre) && cond == [Semi] + PrintOption(s.cond) + [Semi]
    requires post == PrintList(s.post) && body == PrintBody(s.body, false)
    ensures before + [Key(For), LParen] + header + cond + post + [RParen] + body == before + PrintStm(s)
  {
    hide PrintList, PrintOption, PrintBody, PrintHeader;
    var p := [Key(For), LParen] + header + [Semi] + PrintOption(s.cond) + [Semi];
    assert p == [Key(For), LParen] + header + cond;
    assert PrintStm(s) == p + post + [RParen] + body;
  }

  method JoinHeader(ghost pre: seq<Stm>, lines: seq<Line>) returns (header: Tokens)
    requires |lines| == |pre| && forall j | 0 <= j < |pre| :: lines[j].tokens == PrintStm(pre[j])
    ensures header == PrintHeader(pre)
  {
    header := [];
    for i := 0 to |lines|
      invariant header + AfterHeader(pre, i) == PrintHeader(pre)
    {
      ghost var before := header;
      var item := lines[i].tokens;
      if i > 0 { header := header + [Comma]; }
      header := header + item[..|item| - 1];
      HeaderStep(pre, i, before);
    }
  }

  lemma HeaderStep(pre: seq<Stm>, i: nat, before: Tokens)
    requires i < |pre|
    ensures var item := PrintStm(pre[i]);
      before + AfterHeader(pre, i) == before + (if i > 0 then [Comma] else []) + item[..|item| - 1]
          + AfterHeader(pre, i + 1)
  {
    hide PrintStm;
    assert pre[i..][1..] == pre[i + 1..] && pre[0..] == pre;
  }

  /** Formats a whole list of statements. */
  method Format(ss: seq<Stm>) returns (lines: seq<Line>)
    requires GrammaticalStms(ss)
    ensures Text(lines) == PrintStms(ss)
  {
    var context := new FormatContext();
    VisitList(context, ss);
    lines := context.lines.lines;
  }

  // ---------------------------------------------------------------- if, with its chain of else ifs

  /** The ifs of an else-if chain. */
  function Chain(s: Stm): (ifs: seq<Stm>)
    requires s.IfStm?
    ensures ifs != [] && ifs[0] == s && forall i | 0 <= i < |ifs| :: ifs[i].IfStm?
  {
    [s] + if s.elseBody.Else? && IsElseIf(s.elseBody.body) then Chain(s.elseBody.body[0]) else []
  }

  /** The else of the last if of the chain. */
  function FinalElse(s: Stm): (e: ElseBody)
    requires s.IfStm?
    ensures e.Else? ==> !IsElseIf(e.body)
  {
    if s.elseBody.Else? && IsElseIf(s.elseBody.body) then FinalElse(s.elseBody.body[0]) else s.elseBody
  }

  function PrintTest(s: Stm): Tokens
    requires s.IfStm?
  {
    [Key(If), LParen] + Print(s.test) + [RParen]
  }

  /** The printing of the chain, if by if. */
  function PrintChain(ifs: seq<Stm>, first: bool, block: bool): Tokens
    requires forall i | 0 <= i < |ifs| :: ifs[i].IfStm?
  {
    if ifs == [] then []
    else
      (if first then [] else [Key(Keyword.Else)]) + PrintTest(ifs[0]) + PrintBody(ifs[0].body, block)
      + PrintChain(ifs[1..], false, block)
  }

  lemma {:induction false} ChainIsPrinted(s: Stm, block: bool)
    requires s.IfStm?
    ensures PrintIf(s, block) == PrintChain(Chain(s), true, block) + PrintElse(FinalElse(s), block)
  {
    hide Print, PrintBody;
    if s.elseBody.Else? && IsElseIf(s.elseBody.body) {
      var inner := s.elseBody.body[0];
      ChainIsPrinted(inner, block);
      assert Chain(s)[1..] == Chain(inner);
      ChainAfterElse(Chain(inner), block);
    } else {
      assert Chain(s)[1..] == [];
    }
  }

  lemma ChainAfterElse(ifs: seq<Stm>, block: bool)
    requires ifs != [] && forall i | 0 <= i < |ifs| :: ifs[i].IfStm?
    ensures PrintChain(ifs, false, block) == [Key(Keyword.Else)] + PrintChain(ifs, true, block)
  {
    hide PrintTest, PrintBody;
    var rest := PrintChain(ifs[1..], false, block);
    assert PrintChain(ifs, true, block) == PrintTest(ifs[0]) + PrintBody(ifs[0].body, block) + rest;
  }

  lemma {:induction false} ChainUsesBlocks(s: Stm)
    requires s.IfStm?
    ensures UsesBlocks(s)
      <==> (FinalElse(s).Else? && IsBlock(FinalElse(s).body))
           || exists i | 0 <= i < |Chain(s)| :: IsBlock(Chain(s)[i].body)
  {
    if s.elseBody.Else? && IsElseIf(s.elseBody.body) {
      var inner := s.elseBody.body[0];
      ChainUsesBlocks(inner);
      assert Chain(s)[0] == s && forall i | 0 <= i < |Chain(inner)| :: Chain(s)[i + 1] == Chain(inner)[i];
      if i :| 0 <= i < |Chain(inner)| && IsBlock(Chain(inner)[i].body) { assert IsBlock(Chain(s)[i + 1].body); }
      if i :| 1 <= i < |Chain(s)| && IsBlock(Chain(s)[i].body) { assert IsBlock(Chain(inner)[i - 1].body); }
    } else {
      assert Chain(s) == [s];
    }
  }

  /** The bodies of a chain are parts of its first if. */
  lemma {:induction false} ChainIsPart(s: Stm, i: nat)
    requires s.IfStm? && GrammaticalStm(s) && i < |Chain(s)|
    ensures GrammaticalStms(Chain(s)[i].body) && (s decreases to Chain(s)[i].body)
    ensures FinalElse(s).Else? ==> GrammaticalStms(FinalElse(s).body) && (s decreases to FinalElse(s).body)
  {
    if s.elseBody.Else? && IsElseIf(s.elseBody.body) {
      ChainIsPart(s.elseBody.body[0], if i > 0 then i - 1 else 0);
    }
  }

  /** Collects the chain, and decides on the braces. */
  method CollectIfs(s: Stm) returns (ifs: seq<Stm>, elseBody: ElseBody, useBlock: bool)
    requires s.IfStm?
    ensures ifs == Chain(s) && elseBody == FinalElse(s) && useBlock == UsesBlocks(s)
  {
    ifs := [s];
    var curr := s;
    while curr.elseBody.Else? && IsElseIf(curr.elseBody.body)
      invariant curr.IfStm?
      invariant ifs + Chain(curr)[1..] == Chain(s) && FinalElse(curr) == FinalElse(s)
      decreases curr
    {
      curr := curr.elseBody.body[0];
      ifs := ifs + [curr];
    }
    elseBody := curr.elseBody;
    assert ifs == Chain(s);

    useBlock := elseBody.Else? && IsBlock(elseBody.body);
    for i := 0 to |ifs|
      invariant useBlock <==>
          (elseBody.Else? && IsBlock(elseBody.body))
          || exists j | 0 <= j < i :: IsBlock(ifs[j].body)
    {
      if IsBlock(ifs[i].body) { useBlock := true; }
    }
    ChainUsesBlocks(s);
  }

  /** One if of a chain, with its body. */
  method WriteIf(context: FormatContext, s: Stm, first: bool, useBlock: bool)
    requires s.IfStm? && GrammaticalStms(s.body) && context.altLines == null
    requires first || context.Target().lines != []
    modifies context, context.Target()
    ensures Wrote(context, ((if first then [] else [Key(Keyword.Else)]) + PrintTest(s)) + PrintBody(s.body, useBlock))
    decreases s.body, 2
  {
    if first {
      context.AddLine(PrintTest(s));
    } else if useBlock {
      context.Add([Key(Keyword.Else)] + PrintTest(s));
    } else {
      context.AddLine([Key(Keyword.Else)] + PrintTest(s));
    }
    WriteBlockStmt(context, s.body, useBlock);
  }

  method VisitIf(context: FormatContext, s: Stm)
    requires s.IfStm? && GrammaticalStm(s) && context.altLines == null
    modifies context, context.Target()
    ensures Wrote(context, PrintStm(s))
    decreases s, 4
  {
    hide Print, PrintBody, PrintStm, UsesBlocks;
    var ifs, elseBody, useBlock := CollectIfs(s);
    ghost var before := context.Written();
    for i := 0 to |ifs|
      invariant context.altLines == null && context.indentLvl == old(context.indentLvl)
      invariant context.Written() + PrintChain(ifs[i..], i == 0, useBlock) == before + PrintChain(ifs, true, useBlock)
      invariant i > 0 ==> context.Target().lines != []
    {
      ghost var written, rest := context.Written(), ifs[i..];
      assert rest[1..] == ifs[i + 1..];
      ChainIsPart(s, i);
      WriteIf(context, ifs[i], i == 0, useBlock);
      ChainStep(written, rest, i == 0, useBlock);
    }
    assert context.Written() == before + PrintChain(ifs, true, useBlock);

    if elseBody.Else? {
      if useBlock { context.Add([Key(Keyword.Else)]); } else { context.AddLine([Key(Keyword.Else)]); }
      ChainIsPart(s, 0);
      WriteBlockStmt(context, elseBody.body, useBlock);
    }
    IfPrinted(s, before);
  }

  lemma ChainStep(written: Tokens, ifs: seq<Stm>, first: bool, block: bool)
    requires ifs != [] && forall i | 0 <= i < |ifs| :: ifs[i].IfStm?
    ensures written + PrintChain(ifs, first, block)
      == written + (((if first then [] else [Key(Keyword.Else)]) + PrintTest(ifs[0])) + PrintBody(ifs[0].body, block))
        + PrintChain(ifs[1..], false, block)
  {
    hide PrintTest, PrintBody;
  }

  lemma IfPrinted(s: Stm, before: Tokens)
    requires s.IfStm?
    ensures var chain, e := before + PrintChain(Chain(s), true, UsesBlocks(s)), FinalElse(s);
      before + PrintStm(s)
      == if e.NoElse? then chain else chain + [Key(Keyword.Else)] + PrintBody(e.body, UsesBlocks(s))
  {
    hide PrintIf, PrintBody, PrintChain, PrintElse, FinalElse, Chain, UsesBlocks;
    var block, e := UsesBlocks(s), FinalElse(s);
    ChainIsPrinted(s, block);
    assert PrintStm(s) == PrintIf(s, block);
    ElseIsPrinted(e, block);
    if e.NoElse? {
      assert PrintStm(s) == PrintChain(Chain(s), true, block);
    } else {
      Appended(before, PrintChain(Chain(s), true, block), [Key(Keyword.Else)], PrintBody(e.body, block));
    }
  }

  lemma ElseIsPrinted(e: ElseBody, block: bool)
    requires e.Else? ==> !IsElseIf(e.body)
    ensures PrintElse(e, block) == if e.NoElse? then [] else [Key(Keyword.Else)] + PrintBody(e.body, block)
  {
    hide PrintBody;
  }

  lemma Appended(before: Tokens, chain: Tokens, key: Tokens, body: Tokens)
    ensures before + (chain + (key + body)) == before + chain + key + body
  {
  }
}
