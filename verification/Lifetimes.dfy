/** Lifetimes in the graph of a function: what its runs construct, they destroy. */
module Lifetimes {
  import opened Options
  import opened Cfg
  import opened Source
  import opened Layout
  import opened ForMeaning
  import opened Emission
  import opened Functions
  import opened Destruction

  /**
   A call of a function destroys every destructable local it constructs, once and last first.  If it
   returns an object by moving a local out, that local is the one exception.
   */
  lemma SourceDestroys(w: World, body: seq<Stmt>, result: Returns, fuel: nat)
    requires ValidFunction(body, result)
    ensures
      match Meaning(w, body, result, AsMeant, fuel)
      case Ends(_, h, None) => DestroyedOnce(h)
      case Ends(_, h, Some(l)) => result.Class? && DestroyedBut(h, l)
      case Runs(h) => Nest([], h).Some?
      case Parts(_) => true
  {
    hide ExecList, ValidList, DestroyedBut, Leaving;
    var stmts, r := Completed(body, result), RulesFor(result, AsMeant);
    assert [] + Alive([]) == Alive([]);
    BodyNests(w, stmts, r, [], [], [], fuel);
    match Close(ExecList(w, stmts, r, [], [], fuel), [])
    case OutOfFuel(_) =>
    case Fin(h, live, out) =>
      CloseLive(ExecList(w, stmts, r, [], [], fuel), []);
      if out.Returned? { LeftEverything(Exit(h, out.moved, out.spared), result.Class?); }
  }

  lemma CloseLive(r: Run, live: Scope)
    ensures Close(r, live).Fin? ==> Close(r, live).live == live
  {
  }

  lemma {:induction false} NestPrefix(alive: seq<Local>, a: Trace, h: Trace)
    requires a <= h && Nest(alive, h).Some?
    ensures Nest(alive, a).Some?
  {
    if |a| < |h| {
      NestPrefix(alive, a, h[..|h| - 1]);
    } else {
      assert a == h;
    }
  }

  /** What spares a local spares it from some time on. */
  lemma SparesPrefix(a: Trace, h: Trace, l: Local)
    requires a <= h && DestroyedBut(h, l)
    ensures Nest([], a).Some? || exists rest :: Spares(a, l, rest)
  {
    hide Nest;
    var k: nat, c: seq<Local>, d: seq<Local> :| SparesAt(h, l, [], k, c, d);
    if |a| <= k {
      NestPrefix([], a, h[..k]);
    } else {
      assert a[..k] == h[..k] && a[k..] <= h[k..];
      NestPrefix(c + d, a[k..], h[k..]);
      var rest := Nest(c + d, a[k..]).value;
      assert SparesAt(a, l, rest, k, c, d);
      assert Spares(a, l, rest);
    }
  }

  lemma {:induction false} TraceGrows(g: Graph, w: World, c: Config, n: nat)
    ensures c.h <= Steps(g, w, c, n).h
    decreases n
  {
    if n > 0 {
      TraceGrows(g, w, Step(g, w, c), n - 1);
    }
  }

  /** The run of the body that a run of the graph of `n` steps is part of. */
  lemma RunsWithin(s: Snap, w: World, body: seq<Stmt>, result: Returns, n: nat) returns (fuel: nat, h: Trace)
    requires FunctionIs(s, body, result) && NeverParts(w, body, result)
    ensures !Meaning(w, body, result, AsMeant, fuel).Parts?
    ensures h == Meaning(w, body, result, AsMeant, fuel).h && Functions.Run(s.g, w, n).h <= h
  {
    hide FunctionIs, Meaning, Steps;
    var c := Functions.Run(s.g, w, n);
    fuel := if c.At? then n else n + 1;
    ReadingsAgree(w, body, result, AsEmitted, fuel);
    ReadingsAgree(w, body, result, AsMeant, fuel);
    if c.At? {
      var m := FunctionRuns(s, w, body, result, n);
      if m < n {
        StepsAdd(s.g, w, Start(), m, n - m);
        StaysStopped(s.g, w, Functions.Run(s.g, w, m), n - m);
      }
      StepsAdd(s.g, w, Start(), n, m - n);
      TraceGrows(s.g, w, c, m - n);
    } else {
      var spared := StopsAsMeant(s, w, body, result, n);
    }
    h := Meaning(w, body, result, AsMeant, fuel).h;
  }

  /**
   However far a function has run, nothing was destroyed before it was constructed, or twice, or before
   what was constructed after it; a local that is moved out is from then on not destroyed at all.
   */
  lemma GraphNests(s: Snap, w: World, body: seq<Stmt>, result: Returns, n: nat)
    requires FunctionIs(s, body, result) && ValidFunction(body, result) && NeverParts(w, body, result)
    ensures
      var h := Functions.Run(s.g, w, n).h;
      Nest([], h).Some? || (result.Class? && exists l, rest :: Spares(h, l, rest))
  {
    hide FunctionIs, NeverParts, ValidFunction, Meaning, Steps, Nest, Spares;
    var fuel, h := RunsWithin(s, w, body, result, n);
    SourceDestroys(w, body, result, fuel);
    var a := Functions.Run(s.g, w, n).h;
    match Meaning(w, body, result, AsMeant, fuel)
    case Ends(_, _, Some(l)) => SparesPrefix(a, h, l);
    case _ => NestPrefix([], a, h);
  }

  /**
   A completed run has destroyed everything it constructed, once; the local that is moved out is the one exception.
   */
  lemma GraphDestroys(s: Snap, w: World, body: seq<Stmt>, result: Returns, v: Option<int>, h: Trace)
    returns (fuel: nat, spared: Option<Local>)
    requires FunctionIs(s, body, result) && ValidFunction(body, result) && NeverParts(w, body, result)
    requires Stops(s.g, w, Halted(v, h))
    ensures Meaning(w, body, result, AsMeant, fuel) == Ends(v, h, spared)
    ensures spared.None? ==> DestroyedOnce(h)
    ensures spared.Some? ==> result.Class? && DestroyedBut(h, spared.value)
  {
    hide FunctionIs, ValidFunction, Meaning, Steps, DestroyedOnce, DestroyedBut;
    var n: nat :| Steps(s.g, w, Start(), n) == Halted(v, h);
    spared := StopsAsMeant(s, w, body, result, n);
    fuel := n + 1;
    ReadingsAgree(w, body, result, AsEmitted, fuel);
    ReadingsAgree(w, body, result, AsMeant, fuel);
    SourceDestroys(w, body, result, fuel);
  }
}
