/** The lines that the formatter writes, and the buffer that can stand in for them. */
module FormatContexts {
  import opened FormatTree

  datatype Line = Line(indent: int, tokens: Tokens)

  /** The tokens of the lines, in order. */
  function Text(lines: seq<Line>): Tokens {
    if lines == [] then [] else Text(lines[..|lines| - 1]) + lines[|lines| - 1].tokens
  }

  lemma TextOfOneMore(lines: seq<Line>, line: Line)
    ensures Text(lines + [line]) == Text(lines) + line.tokens
  {
    assert (lines + [line])[..|lines|] == lines;
  }

  class Buffer {
    var lines: seq<Line>

    constructor ()
      ensures lines == []
    {
      lines := [];
    }
  }

  class FormatContext {
    const lines: Buffer
    var altLines: Buffer?
    var indentLvl: int

    constructor ()
      ensures fresh(lines) && lines.lines == [] && altLines == null && indentLvl == 0
    {
      lines := new Buffer();
      altLines := null;
      indentLvl := 0;
    }

    /** The buffer that is written to. */
    function Target(): Buffer
      reads this
    {
      if altLines != null then altLines else lines
    }

    ghost function Written(): Tokens
      reads this, Target()
    {
      Text(Target().lines)
    }

    method AddLine(tokens: Tokens)
      modifies Target()
      ensures Target().lines == old(Target().lines) + [Line(indentLvl, tokens)]
      ensures Written() == old(Written()) + tokens
    {
      TextOfOneMore(Target().lines, Line(indentLvl, tokens));
      Target().lines := Target().lines + [Line(indentLvl, tokens)];
    }

    /** Goes on with the last line, of which there must be one. */
    method Add(tokens: Tokens)
      requires Target().lines != []
      modifies Target()
      ensures |Target().lines| == |old(Target().lines)|
      ensures Written() == old(Written()) + tokens
    {
      var n := |Target().lines| - 1;
      var last := Target().lines[n];
      TextOfOneMore(Target().lines[..n], Line(last.indent, last.tokens + tokens));
      Target().lines := Target().lines[..n] + [Line(last.indent, last.tokens + tokens)];
    }

    method SetBuffer(alt: Buffer?)
      modifies this`altLines
      ensures altLines == alt
    {
      altLines := alt;
    }

    method SetIndent(indent: int)
      modifies this`indentLvl
      ensures indentLvl == indent
    {
      indentLvl := indent;
    }

    method Indent()
      modifies this`indentLvl
      ensures indentLvl == old(indentLvl) + 1
    {
      indentLvl := indentLvl + 1;
    }

    method Undent()
      modifies this`indentLvl
      ensures indentLvl == old(indentLvl) - 1
    {
      indentLvl := indentLvl - 1;
    }
  }

  /** The formatter has written these tokens and is otherwise as it was. */
  twostate predicate Wrote(context: FormatContext, tokens: Tokens)
    reads context, context.Target()
  {
    && context.altLines == old(context.altLines)
    && context.indentLvl == old(context.indentLvl)
    && context.Written() == old(context.Written()) + tokens
    && (old(context.Target().lines) != [] || tokens != [] ==> context.Target().lines != [])
  }
}
