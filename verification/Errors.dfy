/**
 Which bodies are lowered without an error, told place by place.

 A place is a statement together with the constructs around it.  A body is accepted exactly when
 everything is right at each of its places; what is wrong at one place is wrong whatever stands elsewhere.
 */
module Errors {
  import opened Options
  import opened Cfg
  import opened Source

  // ---------------------------------------------------------------- places

  /** The lists of statements that a statement holds. */
  function Lists(s: Stmt): seq<seq<Stmt>> {
    match s
    case Loop(body) => [body]
    case While(_, body, _, _) => [body]
    case For(_, _, _, body) => [body]
    case Switch(_, cases) => seq(|cases|, i requires 0 <= i < |cases| => cases[i].body)
    case If(_, thn, els) => if els.Else? then [thn, els.stmts] else [thn]
    case _ => []
  }

  /** Statement `s` stands in the list, with the statements `around` it, the outermost first. */
  ghost predicate Stands(s: Stmt, around: seq<Stmt>, ss: seq<Stmt>)
    decreases |around|
  {
    if around == [] then s in ss
    else around[0] in ss && exists i | 0 <= i < |Lists(around[0])| :: Stands(s, around[1..], Lists(around[0])[i])
  }

  /** Such a jump can leave, go on with or begin anew this statement. */
  predicate Named(k: Jump, s: Stmt) {
    match k
    case Break => s.Loop? || s.While? || s.For? || s.Switch?
    case Continue => s.Loop? || s.While? || s.For?
    case Redo => s.While? || s.For?
  }

  function Count(k: Jump, around: seq<Stmt>): nat {
    if around == [] then 0 else (if Named(k, around[0]) then 1 else 0) + Count(k, around[1..])
  }

  /** The expression is a part of `e`, or `e` itself. */
  ghost predicate Part(p: Exp, e: Exp) {
    p == e ||
    match e
    case Invoke(_, args, _) => exists i | 0 <= i < |args| :: Part(p, args[i])
    case Binary(_, l, r) => Part(p, l) || Part(p, r)
    case Compare(_, l, r) => Part(p, l) || Part(p, r)
    case And(l, r) => Part(p, l) || Part(p, r)
    case Or(l, r) => Part(p, l) || Part(p, r)
    case Cond(c, yes, no) => Part(p, c) || Part(p, yes) || Part(p, no)
    case Coalesce(l, r) => Part(p, l) || Part(p, r)
    case Assign(_, _, _, rhs) => Part(p, rhs)
    case _ => false
  }

  function PlainExps(p: Plain): seq<Exp>
    decreases p, 1
  {
    match p
    case Do(e) => [e]
    case CoalesceTo(_, _, rhs) => [rhs]
    case Declare(_, _, _, init) => [init]
    case Group(ps) => PlainsExps(ps)
  }

  function PlainsExps(ps: seq<Plain>): seq<Exp>
    decreases ps, 0
  {
    if ps == [] then [] else PlainsExps(ps[..|ps| - 1]) + PlainExps(ps[|ps| - 1])
  }

  /** The expressions that stand in the statement itself. */
  function Exps(s: Stmt): seq<Exp> {
    match s
    case Basic(p) => PlainExps(p)
    case Return(v) => if v.Scalar? then [v.e] else []
    case While(c, _, _, _) => if c.Some? then [c.value] else []
    case Switch(on, _) => [on]
    case For(pre, c, post, _) => PlainsExps(pre) + (if c.Some? then [c.value] else []) + post
    case If(c, _, _) => [c]
    case _ => []
  }

  function PlainNames(p: Plain): seq<Symbol>
    decreases p, 1
  {
    match p
    case Declare(x, _, _, _) => [x]
    case Group(ps) => PlainsNames(ps)
    case _ => []
  }

  function PlainsNames(ps: seq<Plain>): seq<Symbol>
    decreases ps, 0
  {
    if ps == [] then [] else PlainsNames(ps[..|ps| - 1]) + PlainNames(ps[|ps| - 1])
  }

  /** The names that the statements of a list declare, one by one. */
  function Names(ss: seq<Stmt>): seq<Symbol> {
    if ss == [] then []
    else
      var last := ss[|ss| - 1];
      Names(ss[..|ss| - 1]) + (if last.Basic? then PlainNames(last.plain) else [])
  }

  ghost predicate Distinct(xs: seq<Symbol>) {
    forall i, j | 0 <= i < j < |xs| :: xs[i] != xs[j]
  }

  // ---------------------------------------------------------------- what is right at a place

  /** The operands that a ternary or `??` chooses from are of one type. */
  ghost predicate ExpRight(e: Exp) {
    forall p | Part(p, e) ::
      && (p.Cond? ==> TypeOf(p.yes) == TypeOf(p.no))
      && (p.Coalesce? ==> TypeOf(p.l) == TypeOf(p.r))
  }

  /** Nothing is wrong with the statement, whose jump could name `n` of the statements around it. */
  ghost predicate Right(s: Stmt, n: Jump -> nat, result: Returns) {
    && (forall e | e in Exps(s) :: ExpRight(e))
    && (forall i | 0 <= i < |Lists(s)| :: Distinct(Header(s) + Names(Lists(s)[i])))
    && Fits(s, n, result)
  }

  predicate Fits(s: Stmt, n: Jump -> nat, result: Returns) {
    match s
    case Return(NoValue) => result.Void?
    case Return(Scalar(_)) => result.Number?
    case Return(Object(_, moved, dtor)) => result.Class? && (dtor ==> moved)
    case Branch(k, None) => n(k) >= 1
    case Branch(k, Some(level)) => 1 <= AsInt32(level) <= n(k) || 1 <= -AsInt32(level) <= n(k)
    case Switch(_, cases) => forall i, j | 0 <= i < j < |cases| :: cases[i].value != cases[j].value
    case _ => true
  }

  /** The names that the header of a `for` declares for its body. */
  function Header(s: Stmt): seq<Symbol> {
    if s.For? then PlainsNames(s.pre) else []
  }

  /** Nothing is wrong at any place of the list. */
  ghost predicate AllRight(ss: seq<Stmt>, result: Returns) {
    && Distinct(Names(ss))
    && forall s, around | Stands(s, around, ss) :: Right(s, k => Count(k, around), result)
  }

  // ---------------------------------------------------------------- expressions and names

  lemma {:induction false} ExpExactly(e: Exp)
    ensures WellTyped(e) <==> ExpRight(e)
  {
    match e
    case Const(_, _) =>
    case Read(_, _) =>
    case Invoke(_, args, _) =>
      ExpsExactly(args);
      forall i | 0 <= i < |args| ensures WellTyped(args[i]) <==> ExpRight(args[i]) { ExpExactly(args[i]); }
    case Binary(_, l, r) => ExpExactly(l); ExpExactly(r);
    case Compare(_, l, r) => ExpExactly(l); ExpExactly(r);
    case And(l, r) => ExpExactly(l); ExpExactly(r);
    case Or(l, r) => ExpExactly(l); ExpExactly(r);
    case Cond(c, yes, no) => ExpExactly(c); ExpExactly(yes); ExpExactly(no);
    case Coalesce(l, r) => ExpExactly(l); ExpExactly(r);
    case Assign(_, _, _, rhs) => ExpExactly(rhs);
  }

  lemma {:induction false} ExpsExactly(es: seq<Exp>)
    ensures AllWellTyped(es) <==> forall i | 0 <= i < |es| :: WellTyped(es[i])
  {
    if es != [] { ExpsExactly(es[..|es| - 1]); }
  }

  function Elements(xs: seq<Symbol>): set<Symbol> {
    set x | x in xs
  }

  ghost predicate Without(xs: seq<Symbol>, names: set<Symbol>) {
    forall x | x in xs :: x !in names
  }

  lemma DistinctBoth(xs: seq<Symbol>, ys: seq<Symbol>)
    ensures Distinct(xs + ys) <==> Distinct(xs) && Distinct(ys) && Without(ys, Elements(xs))
  {
    if Distinct(xs + ys) {
      forall i, j | 0 <= i < j < |ys| ensures ys[i] != ys[j] {
        assert (xs + ys)[|xs| + i] == ys[i] && (xs + ys)[|xs| + j] == ys[j];
      }
      forall i, j | 0 <= i < j < |xs| ensures xs[i] != xs[j] {
        assert (xs + ys)[i] == xs[i] && (xs + ys)[j] == xs[j];
      }
      forall y | y in ys ensures y !in xs {
        var j :| 0 <= j < |ys| && ys[j] == y;
        assert (xs + ys)[|xs| + j] == y;
        forall i | 0 <= i < |xs| ensures xs[i] != y { assert (xs + ys)[i] == xs[i]; }
      }
    } else if Distinct(xs) && Distinct(ys) {
      var i, j :| 0 <= i < j < |xs + ys| && (xs + ys)[i] == (xs + ys)[j];
      assert i < |xs| <= j;
      assert xs[i] in xs && ys[j - |xs|] in ys && xs[i] == ys[j - |xs|];
    }
  }

  lemma {:induction false} PlainExactly(p: Plain, names: set<Symbol>)
    ensures Declares1(p) == Elements(PlainNames(p))
    ensures ValidPlain(p, names) <==>
      (forall e | e in PlainExps(p) :: ExpRight(e)) && Distinct(PlainNames(p)) && Without(PlainNames(p), names)
    decreases p, 1
  {
    match p
    case Do(e) => ExpExactly(e);
    case CoalesceTo(_, _, rhs) => ExpExactly(rhs);
    case Declare(x, _, _, init) => ExpExactly(init);
    case Group(ps) => PlainsExactly(ps, names);
  }

  lemma {:induction false} PlainsExactly(ps: seq<Plain>, names: set<Symbol>)
    ensures DeclaredPlain(ps) == Elements(PlainsNames(ps))
    ensures ValidPlains(ps, names) <==>
      (forall e | e in PlainsExps(ps) :: ExpRight(e)) && Distinct(PlainsNames(ps)) && Without(PlainsNames(ps), names)
    decreases ps, 0
  {
    if ps != [] {
      var n := |ps| - 1;
      PlainsExactly(ps[..n], names);
      PlainExactly(ps[n], names + DeclaredPlain(ps[..n]));
      DistinctBoth(PlainsNames(ps[..n]), PlainNames(ps[n]));
    }
  }

  lemma {:induction false} NamesExactly(ss: seq<Stmt>, names: set<Symbol>)
    ensures Declared(ss, names) == names + Elements(Names(ss))
  {
    if ss != [] {
      var last := ss[|ss| - 1];
      NamesExactly(ss[..|ss| - 1], names);
      if last.Basic? { PlainExactly(last.plain, {}); }
    }
  }

  // ---------------------------------------------------------------- statements

  /** The rules inside a statement. */
  function Inner(s: Stmt, r: Rules): Rules {
    match s
    case Loop(_) => r.(depth := InLoop(r.depth))
    case While(_, _, _, _) => r.(depth := InWhile(r.depth))
    case For(_, _, _, _) => r.(depth := InWhile(r.depth))
    case Switch(_, _) => r.(depth := InSwitch(r.depth))
    case _ => r
  }

  lemma InnerCounts(s: Stmt, r: Rules, k: Jump)
    ensures DepthOf(Inner(s, r).depth, k) == DepthOf(r.depth, k) + (if Named(k, s) then 1 else 0)
    ensures Inner(s, r).result == r.result
  {}

  lemma {:induction false} CasesExactly(cases: seq<Case>, r: Rules)
    ensures ValidCases(cases, r) <==>
      && (forall i, j | 0 <= i < j < |cases| :: cases[i].value != cases[j].value)
      && forall i | 0 <= i < |cases| :: ValidList(cases[i].body, r, {})
  {
    if cases != [] { CasesExactly(cases[..|cases| - 1], r); }
  }

  ghost predicate ListsValid(s: Stmt, r: Rules) {
    forall i | 0 <= i < |Lists(s)| :: ValidList(Lists(s)[i], Inner(s, r), Elements(Header(s)))
  }

  ghost predicate OwnRight(s: Stmt, r: Rules) {
    && (forall e | e in Exps(s) :: ExpRight(e))
    && Distinct(Header(s))
    && Fits(s, k => DepthOf(r.depth, k), r.result)
  }

  lemma SwitchExactly(s: Stmt, r: Rules, names: set<Symbol>)
    requires s.Switch?
    ensures Valid(s, r, names) <==> OwnRight(s, r) && ListsValid(s, r)
  {
    hide ExpRight;
    var inner := Inner(s, r);
    assert Elements(Header(s)) == {};
    ExpExactly(s.on);
    CasesExactly(s.cases, inner);
    assert forall i | 0 <= i < |s.cases| :: Lists(s)[i] == s.cases[i].body;
    assert ListsValid(s, r) <==> forall i | 0 <= i < |s.cases| :: ValidList(s.cases[i].body, inner, {});
  }

  lemma ForExactly(s: Stmt, r: Rules, names: set<Symbol>)
    requires s.For?
    ensures Valid(s, r, names) <==> OwnRight(s, r) && ListsValid(s, r)
  {
    hide ExpRight, Distinct;
    var c := if s.cond.Some? then [s.cond.value] else [];
    PlainsExactly(s.pre, {});
    if s.cond.Some? { ExpExactly(s.cond.value); }
    ExpsExactly(s.post);
    forall e | e in s.post ensures WellTyped(e) <==> ExpRight(e) { ExpExactly(e); }
    assert AllWellTyped(s.post) <==> forall e | e in s.post :: ExpRight(e);
    assert Lists(s)[0] == s.body;
    assert (forall e | e in Exps(s) :: ExpRight(e)) <==>
      && (forall e | e in PlainsExps(s.pre) :: ExpRight(e))
      && (forall e | e in c :: ExpRight(e))
      && (forall e | e in s.post :: ExpRight(e));
  }

  /** A statement is valid if it is right itself and its lists are valid. */
  lemma StmtExactly(s: Stmt, r: Rules, names: set<Symbol>)
    ensures Valid(s, r, names) <==>
      && (s.Basic? ==> Distinct(PlainNames(s.plain)) && Without(PlainNames(s.plain), names))
      && OwnRight(s, r) && ListsValid(s, r)
  {
    hide ExpRight, Without;
    match s
    case Basic(p) => PlainExactly(p, names);
    case Return(v) => if v.Scalar? { ExpExactly(v.e); }
    case Branch(k, level) =>
    case Loop(body) => assert Lists(s)[0] == body && Elements(Header(s)) == {};
    case While(c, body, _, _) =>
      assert Lists(s)[0] == body && Elements(Header(s)) == {};
      if c.Some? { ExpExactly(c.value); }
    case Switch(_, _) => SwitchExactly(s, r, names);
    case For(_, _, _, _) => ForExactly(s, r, names);
    case If(c, thn, els) =>
      ExpExactly(c);
      assert Lists(s)[0] == thn && Elements(Header(s)) == {};
      if els.Else? { assert Lists(s)[1] == els.stmts; }
  }

  ghost predicate AllAround(ss: seq<Stmt>, r: Rules) {
    forall s, around | Stands(s, around, ss) :: Right(s, k => DepthOf(r.depth, k) + Count(k, around), r.result)
  }

  lemma {:induction false} ListExactly(ss: seq<Stmt>, r: Rules, names: set<Symbol>)
    ensures ValidList(ss, r, names) <==>
      && Distinct(Names(ss)) && Without(Names(ss), names)
      && forall i | 0 <= i < |ss| :: OwnRight(ss[i], r) && ListsValid(ss[i], r)
  {
    hide OwnRight, ListsValid;
    if ss != [] {
      var n := |ss| - 1;
      var more := if ss[n].Basic? then PlainNames(ss[n].plain) else [];
      ListExactly(ss[..n], r, names);
      NamesExactly(ss[..n], names);
      DistinctBoth(Names(ss[..n]), more);
      StmtExactly(ss[n], r, Declared(ss[..n], names));
      assert Names(ss) == Names(ss[..n]) + more;
      assert ValidList(ss, r, names) <==>
        && Distinct(Names(ss)) && Without(Names(ss), names)
        && (forall i | 0 <= i < n :: OwnRight(ss[..n][i], r) && ListsValid(ss[..n][i], r))
        && OwnRight(ss[n], r) && ListsValid(ss[n], r);
    }
  }

  // ---------------------------------------------------------------- all places

  lemma RightSame(s: Stmt, m: Jump -> nat, n: Jump -> nat, result: Returns)
    requires s.Branch? ==> m(s.kind) == n(s.kind)
    ensures Right(s, m, result) <==> Right(s, n, result)
  {}

  /** The places in a statement are itself and the places in its lists. */
  lemma PlacesInside(s: Stmt, r: Rules)
    ensures AllAround([s], r) <==>
      && Right(s, k => DepthOf(r.depth, k), r.result)
      && forall i | 0 <= i < |Lists(s)| :: AllAround(Lists(s)[i], Inner(s, r))
  {
    hide Right, Lists, Inner;
    var inner := Inner(s, r);
    forall k ensures DepthOf(inner.depth, k) == DepthOf(r.depth, k) + (if Named(k, s) then 1 else 0) {
      InnerCounts(s, r, k);
    }
    InnerCounts(s, r, Break);
    if AllAround([s], r) {
      assert Stands(s, [], [s]);
      RightSame(s, k => DepthOf(r.depth, k) + Count(k, []), k => DepthOf(r.depth, k), r.result);
      forall i, t, around | 0 <= i < |Lists(s)| && Stands(t, around, Lists(s)[i])
        ensures Right(t, k => DepthOf(inner.depth, k) + Count(k, around), inner.result)
      {
        assert ([s] + around)[1..] == around;
        assert Stands(t, [s] + around, [s]);
        RightSame(t, k => DepthOf(inner.depth, k) + Count(k, around),
                  k => DepthOf(r.depth, k) + Count(k, [s] + around), r.result);
      }
    } else {
      var t, around :| Stands(t, around, [s]) && !Right(t, k => DepthOf(r.depth, k) + Count(k, around), r.result);
      if around == [] {
        RightSame(s, k => DepthOf(r.depth, k) + Count(k, around), k => DepthOf(r.depth, k), r.result);
      } else {
        var i :| 0 <= i < |Lists(s)| && Stands(t, around[1..], Lists(s)[i]);
        RightSame(t, k => DepthOf(inner.depth, k) + Count(k, around[1..]),
                  k => DepthOf(r.depth, k) + Count(k, around), r.result);
      }
    }
  }

  lemma PlacesOfEach(ss: seq<Stmt>, r: Rules)
    ensures AllAround(ss, r) <==> forall i | 0 <= i < |ss| :: AllAround([ss[i]], r)
  {
    hide Right, Lists;
    if forall i | 0 <= i < |ss| :: AllAround([ss[i]], r) {
      forall s, around | Stands(s, around, ss)
        ensures Right(s, k => DepthOf(r.depth, k) + Count(k, around), r.result)
      {
        var first := if around == [] then s else around[0];
        var i :| 0 <= i < |ss| && ss[i] == first;
        assert Stands(s, around, [ss[i]]);
      }
    }
    if AllAround(ss, r) {
      forall i, s, around | 0 <= i < |ss| && Stands(s, around, [ss[i]])
        ensures Right(s, k => DepthOf(r.depth, k) + Count(k, around), r.result)
      {
        assert Stands(s, around, ss);
      }
    }
  }

  /** A list is valid exactly if nothing is wrong at its places, each with the constructs around it counted in. */
  lemma {:induction false} PlacesExactly(ss: seq<Stmt>, r: Rules, names: set<Symbol>)
    ensures ValidList(ss, r, names) <==> Distinct(Names(ss)) && Without(Names(ss), names) && AllAround(ss, r)
    decreases ss, 0
  {
    hide OwnRight, ListsValid, Distinct, Without, AllAround, ValidList;
    ListExactly(ss, r, names);
    PlacesOfEach(ss, r);
    forall i | 0 <= i < |ss| ensures OwnRight(ss[i], r) && ListsValid(ss[i], r) <==> AllAround([ss[i]], r) {
      StmtPlaces(ss[i], r);
    }
  }

  lemma {:induction false} StmtPlaces(s: Stmt, r: Rules)
    ensures OwnRight(s, r) && ListsValid(s, r) <==> AllAround([s], r)
    decreases s, 1
  {
    hide Distinct, Without, AllAround, ValidList, Fits, Names, PlainsNames, Exps, ExpRight;
    PlacesInside(s, r);
    forall i | 0 <= i < |Lists(s)|
      ensures Distinct(Header(s)) && ValidList(Lists(s)[i], Inner(s, r), Elements(Header(s))) <==>
        Distinct(Header(s) + Names(Lists(s)[i])) && AllAround(Lists(s)[i], Inner(s, r))
    {
      DistinctBoth(Header(s), Names(Lists(s)[i]));
      PlacesExactly(Lists(s)[i], Inner(s, r), Elements(Header(s)));
    }
    if |Lists(s)| == 0 { assert Distinct([]) by { EmptyDistinct(); } } else { assert Lists(s)[0] == Lists(s)[0]; }
  }

  lemma EmptyDistinct()
    ensures Distinct([])
  {}

  /** The errors of a body: it is accepted exactly if nothing is wrong at any place. */
  lemma ErrorsExactly(ss: seq<Stmt>, result: Returns, mode: Mode)
    ensures ValidList(ss, Rules(Depth(0, 0, 0), result, mode), {}) <==> AllRight(ss, result)
  {
    hide Distinct, Right, ValidList, Stands;
    var r := Rules(Depth(0, 0, 0), result, mode);
    PlacesExactly(ss, r, {});
    forall s, around | Stands(s, around, ss)
      ensures Right(s, k => Count(k, around), result)
        <==> Right(s, k => DepthOf(r.depth, k) + Count(k, around), r.result)
    {
      RightSame(s, k => Count(k, around), k => DepthOf(r.depth, k) + Count(k, around), result);
    }
  }
}
