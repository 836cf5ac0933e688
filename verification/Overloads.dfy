/** The choice among overloaded functions, which does not depend on their order. */
module Overloads {
  import opened Options

  /** Types are the same only if they are identical; pointers and references name what they are to. */
  datatype Type = Base(id: nat) | Pointer(to: Type) | Reference(to: Type)

  datatype Func = Func(id: nat, params: seq<Type>)

  predicate Takes(param: Type, arg: Type, matchRef: bool) {
    param == arg || (matchRef && (param.Pointer? || param.Reference?) && param.to == arg)
  }

  /** The number of arguments whose type the function takes as it is. */
  function Count(params: seq<Type>, args: seq<Type>, matchRef: bool): (n: nat)
    requires |params| == |args|
    ensures n <= |args|
  {
    if args == [] then 0
    else
      var last := |args| - 1;
      Count(params[..last], args[..last], matchRef) + (if Takes(params[last], args[last], matchRef) then 1 else 0)
  }

  /** The positions whose parameter is the type of the argument, or by `matchRef` a pointer or reference to it. */
  ghost function Fitting(params: seq<Type>, args: seq<Type>, matchRef: bool): set<nat>
    requires |params| == |args|
  {
    set i: nat | i < |args|
      && (params[i] == args[i] || (matchRef && (params[i] == Pointer(args[i]) || params[i] == Reference(args[i]))))
  }

  lemma {:induction false} CountExactly(params: seq<Type>, args: seq<Type>, matchRef: bool)
    requires |params| == |args|
    ensures Count(params, args, matchRef) == |Fitting(params, args, matchRef)|
  {
    if args == [] {
      assert Fitting(params, args, matchRef) == {};
    } else {
      var last := |args| - 1;
      CountExactly(params[..last], args[..last], matchRef);
      FittingLast(params, args, matchRef);
    }
  }

  lemma FittingLast(params: seq<Type>, args: seq<Type>, matchRef: bool)
    requires |params| == |args| > 0
    ensures
      var last := |args| - 1;
      var fewer, more := Fitting(params[..last], args[..last], matchRef), Fitting(params, args, matchRef);
      |more| == |fewer| + if last in more then 1 else 0
  {
    var last := |args| - 1;
    var fewer, more := Fitting(params[..last], args[..last], matchRef), Fitting(params, args, matchRef);
    assert last !in fewer;
    assert more == fewer + if last in more then {last} else {};
  }

  predicate SameSize(funcs: seq<Func>, args: seq<Type>) {
    forall f <- funcs :: |f.params| == |args|
  }

  /** Takes at least one argument, and no function takes more. */
  predicate IsBest(f: Func, funcs: seq<Func>, args: seq<Type>, matchRef: bool)
    requires SameSize(funcs, args)
  {
    f in funcs && Count(f.params, args, matchRef) >= 1
    && forall g <- funcs :: Count(g.params, args, matchRef) <= Count(f.params, args, matchRef)
  }

  function Filter<T>(p: T -> bool, s: seq<T>): seq<T> {
    if s == [] then []
    else Filter(p, s[..|s| - 1]) + (if p(s[|s| - 1]) then [s[|s| - 1]] else [])
  }

  function BestMatches(funcs: seq<Func>, args: seq<Type>, matchRef: bool): seq<Func>
    requires SameSize(funcs, args)
  {
    Filter((f: Func) => f in funcs && IsBest(f, funcs, args, matchRef), funcs)
  }

  method MatchOf(f: Func, args: seq<Type>, matchRef: bool) returns (count: nat)
    requires |f.params| == |args|
    ensures count == Count(f.params, args, matchRef)
  {
    count := 0;
    for i := 0 to |args|
      invariant count == Count(f.params[..i], args[..i], matchRef)
    {
      assert f.params[..i + 1][..i] == f.params[..i] && args[..i + 1][..i] == args[..i];
      var param := f.params[i];
      if param == args[i] {
        count := count + 1;
      } else if matchRef {
        if (param.Pointer? || param.Reference?) && param.to == args[i] { count := count + 1; }
      }
    }
    assert f.params[..|args|] == f.params && args[..|args|] == args;
  }

  /** The functions that take the most arguments as they are, at least one, in the order given. */
  method MatchCount(funcs: seq<Func>, args: seq<Type>, matchRef: bool) returns (matches: seq<Func>)
    requires SameSize(funcs, args)
    ensures matches == BestMatches(funcs, args, matchRef)
    ensures forall f :: f in matches <==>
      && f in funcs && |Fitting(f.params, args, matchRef)| >= 1
      && forall g <- funcs :: |Fitting(g.params, args, matchRef)| <= |Fitting(f.params, args, matchRef)|
  {
    hide Count, Fitting;
    matches := [];
    var best := 1;
    for i := 0 to |funcs|
      invariant best >= 1 && matches == Filter((f: Func) => |f.params| == |args|
                                               && Count(f.params, args, matchRef) == best, funcs[..i])
      invariant forall g <- funcs[..i] :: Count(g.params, args, matchRef) <= best
      invariant best > 1 ==> exists g <- funcs[..i] :: Count(g.params, args, matchRef) == best
    {
      var next := funcs[..i + 1];
      assert next[..i] == funcs[..i] && next[i] == funcs[i] && |next| == i + 1;
      var count := MatchOf(funcs[i], args, matchRef);
      if count == best {
        matches := matches + [funcs[i]];
      } else if count > best {
        NoneMatches((f: Func) => |f.params| == |args| && Count(f.params, args, matchRef) == count, funcs[..i]);
        best := count;
        matches := [];
        matches := matches + [funcs[i]];
        assert funcs[i] in next;
      }
    }
    assert funcs[..|funcs|] == funcs;
    var p := (f: Func) => |f.params| == |args| && Count(f.params, args, matchRef) == best;
    var q := (f: Func) => f in funcs && IsBest(f, funcs, args, matchRef);
    SameFilter(p, q, funcs);
    BestFitMost(funcs, args, matchRef);
  }

  lemma BestFitMost(funcs: seq<Func>, args: seq<Type>, matchRef: bool)
    requires SameSize(funcs, args)
    ensures forall f :: f in BestMatches(funcs, args, matchRef) <==>
      && f in funcs && |Fitting(f.params, args, matchRef)| >= 1
      && forall g <- funcs :: |Fitting(g.params, args, matchRef)| <= |Fitting(f.params, args, matchRef)|
  {
    hide Count, Fitting;
    FilterHolds((f: Func) => f in funcs && IsBest(f, funcs, args, matchRef), funcs);
    forall f | f in funcs { CountExactly(f.params, args, matchRef); }
  }

  lemma {:induction false} NoneMatches<T>(p: T -> bool, s: seq<T>)
    requires forall x <- s :: !p(x)
    ensures Filter(p, s) == []
  {
    if s != [] { NoneMatches(p, s[..|s| - 1]); }
  }

  lemma {:induction false} SameFilter<T>(p: T -> bool, q: T -> bool, s: seq<T>)
    requires forall x <- s :: p(x) == q(x)
    ensures Filter(p, s) == Filter(q, s)
  {
    if s != [] { SameFilter(p, q, s[..|s| - 1]); }
  }

  function OfSize(funcs: seq<Func>, n: nat): (fs: seq<Func>)
  {
    Filter((f: Func) => |f.params| == n, funcs)
  }

  lemma {:induction false} FilterHolds<T>(p: T -> bool, s: seq<T>)
    ensures forall x :: x in Filter(p, s) <==> x in s && p(x)
  {
    if s != [] {
      FilterHolds(p, s[..|s| - 1]);
      assert s == s[..|s| - 1] + [s[|s| - 1]];
    }
  }

  /** The function that is called; None stands for a reported error. */
  method CallFunction(funcs: seq<Func>, args: seq<Type>) returns (func: Option<Func>)
    requires funcs != []
    ensures func == Chosen(funcs, args)
    ensures forall k: nat | OnlyOne(funcs, args, k) :: func == Some(funcs[k])
    ensures forall k: nat | SingleBest(funcs, args, false, k) :: func == Some(funcs[k])
    ensures forall k: nat | SingleBest(funcs, args, true, k) && (forall j: nat :: !SingleBest(funcs, args, false, j)) ::
      func == Some(funcs[k])
    ensures func.Some? ==> exists k: nat ::
      OnlyOne(funcs, args, k) || SingleBest(funcs, args, false, k) || SingleBest(funcs, args, true, k)
  {
    hide OnlyOne, SingleBest, BestMatches;
    ChosenExactly(funcs, args);
    var sizeMatch := OfSize(funcs, |args|);
    FilterHolds((f: Func) => |f.params| == |args|, funcs);
    if sizeMatch == [] { return None; }
    if |sizeMatch| == 1 { return Some(sizeMatch[0]); }
    var paramMatch := MatchCount(sizeMatch, args, false);
    if |paramMatch| != 1 {
      paramMatch := MatchCount(sizeMatch, args, true);
      if |paramMatch| != 1 { return None; }
    }
    func := Some(paramMatch[0]);
  }

  function Only(s: seq<Func>): Option<Func> {
    if |s| == 1 then Some(s[0]) else None
  }

  function Chosen(funcs: seq<Func>, args: seq<Type>): Option<Func> {
    var sizeMatch := OfSize(funcs, |args|);
    FilterHolds((f: Func) => |f.params| == |args|, funcs);
    if |sizeMatch| <= 1 then Only(sizeMatch)
    else if |BestMatches(sizeMatch, args, false)| == 1 then Only(BestMatches(sizeMatch, args, false))
    else Only(BestMatches(sizeMatch, args, true))
  }

  // ---------------------------------------------------------------- order does not matter

  lemma {:induction false} FilterCounts<T>(p: T -> bool, s: seq<T>, x: T)
    ensures multiset(Filter(p, s))[x] == if p(x) then multiset(s)[x] else 0
  {
    if s != [] {
      FilterCounts(p, s[..|s| - 1], x);
      assert s == s[..|s| - 1] + [s[|s| - 1]];
    }
  }

  lemma FilterPermuted(p: Func -> bool, q: Func -> bool, a: seq<Func>, b: seq<Func>)
    requires multiset(a) == multiset(b) && forall x <- a :: p(x) == q(x)
    ensures multiset(Filter(p, a)) == multiset(Filter(q, b))
  {
    var left, right := multiset(Filter(p, a)), multiset(Filter(q, b));
    forall x: Func ensures left[x] == right[x] {
      FilterCounts(p, a, x);
      FilterCounts(q, b, x);
      if x !in a { assert x !in multiset(a) && x !in multiset(b); }
    }
    assert left == right;
  }

  lemma OnlyPermuted(a: seq<Func>, b: seq<Func>)
    requires multiset(a) == multiset(b)
    ensures Only(a) == Only(b) && |a| == |b|
  {
    assert |multiset(a)| == |a| && |multiset(b)| == |b|;
    if |a| == 1 { assert a[0] in multiset(b); }
  }

  lemma BestPermuted(a: seq<Func>, b: seq<Func>, args: seq<Type>, matchRef: bool)
    requires multiset(a) == multiset(b) && SameSize(a, args) && SameSize(b, args)
    ensures multiset(BestMatches(a, args, matchRef)) == multiset(BestMatches(b, args, matchRef))
  {
    assert forall f :: f in a <==> f in multiset(a);
    assert forall f :: f in b <==> f in multiset(b);
    assert forall f :: f in a <==> f in b;
    var p := (f: Func) => f in a && IsBest(f, a, args, matchRef);
    var q := (f: Func) => f in b && IsBest(f, b, args, matchRef);
    FilterPermuted(p, q, a, b);
  }

  /** The function that is called is the same for every order of the candidates. */
  lemma ChoiceIgnoresOrder(a: seq<Func>, b: seq<Func>, args: seq<Type>)
    requires multiset(a) == multiset(b)
    ensures Chosen(a, args) == Chosen(b, args)
  {
    var p := (f: Func) => |f.params| == |args|;
    FilterHolds(p, a);
    FilterHolds(p, b);
    var c, d := OfSize(a, |args|), OfSize(b, |args|);
    FilterPermuted(p, p, a, b);
    BestPermuted(c, d, args, false);
    BestPermuted(c, d, args, true);
    OnlyPermuted(c, d);
    OnlyPermuted(BestMatches(c, args, false), BestMatches(d, args, false));
    OnlyPermuted(BestMatches(c, args, true), BestMatches(d, args, true));
  }

  // ---------------------------------------------------------------- which function is called

  predicate Sized(funcs: seq<Func>, args: seq<Type>, k: nat) {
    k < |funcs| && |funcs[k].params| == |args|
  }

  /** No other candidate has as many parameters as there are arguments. */
  ghost predicate OnlyOne(funcs: seq<Func>, args: seq<Type>, k: nat) {
    Sized(funcs, args, k) && forall j: nat | Sized(funcs, args, j) :: j == k
  }

  /** Some parameters of the candidate fit, and more than of any other candidate of that size. */
  ghost predicate SingleBest(funcs: seq<Func>, args: seq<Type>, matchRef: bool, k: nat) {
    && Sized(funcs, args, k) && |Fitting(funcs[k].params, args, matchRef)| >= 1
    && forall j: nat | Sized(funcs, args, j) && j != k ::
         |Fitting(funcs[j].params, args, matchRef)| < |Fitting(funcs[k].params, args, matchRef)|
  }

  lemma {:induction false} FilterOne<T>(p: T -> bool, s: seq<T>, k: nat)
    requires k < |s| && p(s[k]) && forall j: nat | j < |s| && j != k :: !p(s[j])
    ensures Filter(p, s) == [s[k]]
  {
    var last := |s| - 1;
    if k == last { NoneMatches(p, s[..last]); } else { FilterOne(p, s[..last], k); }
  }

  lemma {:induction false} OneFiltered<T>(p: T -> bool, s: seq<T>) returns (k: nat)
    requires |Filter(p, s)| == 1
    ensures k < |s| && p(s[k]) && forall j: nat | j < |s| && j != k :: !p(s[j])
  {
    var last := |s| - 1;
    if p(s[last]) {
      k := last;
      FilterHolds(p, s[..last]);
      forall j: nat | j < last ensures !p(s[j]) { assert s[..last][j] in s[..last]; }
    } else {
      k := OneFiltered(p, s[..last]);
      assert forall j: nat | j < last :: s[..last][j] == s[j];
    }
  }

  lemma {:induction false} FilterTwice<T>(p: T -> bool, q: T -> bool, both: T -> bool, s: seq<T>)
    requires forall x <- s :: both(x) <==> p(x) && q(x)
    ensures Filter(q, Filter(p, s)) == Filter(both, s)
  {
    if s != [] {
      var last := |s| - 1;
      FilterTwice(p, q, both, s[..last]);
      var some := Filter(p, s[..last]);
      assert s[last] in s && (some + [s[last]])[..|some|] == some && some + [] == some;
    }
  }

  ghost predicate MostFitting(funcs: seq<Func>, args: seq<Type>, matchRef: bool, f: Func) {
    && |f.params| == |args| && |Fitting(f.params, args, matchRef)| >= 1
    && forall j: nat | Sized(funcs, args, j) ::
         |Fitting(funcs[j].params, args, matchRef)| <= |Fitting(f.params, args, matchRef)|
  }

  lemma BestAreMostFitting(funcs: seq<Func>, args: seq<Type>, matchRef: bool)
    ensures SameSize(OfSize(funcs, |args|), args)
    ensures BestMatches(OfSize(funcs, |args|), args, matchRef)
         == Filter((f: Func) => MostFitting(funcs, args, matchRef, f), funcs)
  {
    hide Count, Fitting;
    var p := (f: Func) => |f.params| == |args|;
    var fs := OfSize(funcs, |args|);
    FilterHolds(p, funcs);
    var q := (f: Func) => f in fs && IsBest(f, fs, args, matchRef);
    var most := (f: Func) => MostFitting(funcs, args, matchRef, f);
    forall f | f in fs { CountExactly(f.params, args, matchRef); }
    forall f | f in funcs ensures most(f) <==> p(f) && q(f) {
      if q(f) {
        forall j: nat | Sized(funcs, args, j)
          ensures |Fitting(funcs[j].params, args, matchRef)| <= |Fitting(f.params, args, matchRef)|
        {
          assert funcs[j] in fs;
        }
      }
      if MostFitting(funcs, args, matchRef, f) {
        forall g | g in fs ensures Count(g.params, args, matchRef) <= Count(f.params, args, matchRef) {
          var j: nat :| j < |funcs| && funcs[j] == g;
          assert Sized(funcs, args, j);
        }
      }
    }
    FilterTwice(p, q, most, funcs);
  }

  /** A search finds one best candidate exactly if there is a single best one. */
  lemma SearchExactly(funcs: seq<Func>, args: seq<Type>, matchRef: bool)
    ensures SameSize(OfSize(funcs, |args|), args)
    ensures forall k: nat | SingleBest(funcs, args, matchRef, k) ::
      BestMatches(OfSize(funcs, |args|), args, matchRef) == [funcs[k]]
    ensures |BestMatches(OfSize(funcs, |args|), args, matchRef)| == 1
      ==> exists k: nat :: SingleBest(funcs, args, matchRef, k)
  {
    hide Fitting, OfSize, BestMatches;
    BestAreMostFitting(funcs, args, matchRef);
    var best := (f: Func) => MostFitting(funcs, args, matchRef, f);
    forall k: nat | SingleBest(funcs, args, matchRef, k) ensures Filter(best, funcs) == [funcs[k]] {
      forall j: nat | j < |funcs| && j != k ensures !best(funcs[j]) {
        assert best(funcs[j]) ==> Sized(funcs, args, j);
      }
      FilterOne(best, funcs, k);
    }
    if |Filter(best, funcs)| == 1 {
      var k := OneFiltered(best, funcs);
      forall j: nat | Sized(funcs, args, j) && j != k
        ensures |Fitting(funcs[j].params, args, matchRef)| < |Fitting(funcs[k].params, args, matchRef)|
      {
        assert !best(funcs[j]);
      }
      assert SingleBest(funcs, args, matchRef, k);
    }
  }

  lemma OneOfSize(funcs: seq<Func>, args: seq<Type>)
    ensures forall k: nat | OnlyOne(funcs, args, k) :: OfSize(funcs, |args|) == [funcs[k]]
    ensures |OfSize(funcs, |args|)| == 1 ==> exists k: nat :: OnlyOne(funcs, args, k)
    ensures |OfSize(funcs, |args|)| == 0 ==> forall k: nat :: !Sized(funcs, args, k)
  {
    var p := (f: Func) => |f.params| == |args|;
    forall k: nat | OnlyOne(funcs, args, k) ensures Filter(p, funcs) == [funcs[k]] {
      forall j: nat | j < |funcs| && j != k ensures !p(funcs[j]) { assert p(funcs[j]) ==> Sized(funcs, args, j); }
      FilterOne(p, funcs, k);
    }
    if |Filter(p, funcs)| == 1 {
      var k := OneFiltered(p, funcs);
      assert OnlyOne(funcs, args, k);
    }
    FilterHolds(p, funcs);
    if |Filter(p, funcs)| == 0 {
      forall k: nat ensures !Sized(funcs, args, k) {
        assert k < |funcs| ==> funcs[k] in funcs;
      }
    }
  }

  /**
   The function that is called: the only candidate of that size; or the one with the most parameters of exactly
   the types of the arguments; or if there is no such one, the one with the most parameters that are the type of
   the argument, or a pointer or reference to it.  If there is no such one either, the call is an error.
   */
  lemma ChosenExactly(funcs: seq<Func>, args: seq<Type>)
    ensures forall k: nat | OnlyOne(funcs, args, k) :: Chosen(funcs, args) == Some(funcs[k])
    ensures forall k: nat | SingleBest(funcs, args, false, k) :: Chosen(funcs, args) == Some(funcs[k])
    ensures forall k: nat | SingleBest(funcs, args, true, k) && (forall j: nat :: !SingleBest(funcs, args, false, j)) ::
      Chosen(funcs, args) == Some(funcs[k])
    ensures Chosen(funcs, args).Some? ==> exists k: nat ::
      OnlyOne(funcs, args, k) || SingleBest(funcs, args, false, k) || SingleBest(funcs, args, true, k)
  {
    hide Fitting, OfSize, BestMatches;
    OneOfSize(funcs, args);
    SearchExactly(funcs, args, false);
    SearchExactly(funcs, args, true);
    assert forall k: nat, m: bool | SingleBest(funcs, args, m, k) :: Sized(funcs, args, k);
    if |OfSize(funcs, |args|)| == 1 {
      var k: nat :| OnlyOne(funcs, args, k);
      assert forall j: nat, m: bool | SingleBest(funcs, args, m, j) :: j == k;
    }
  }

  /** The parameter is the type of the argument, or a pointer or reference to it. */
  predicate Near(param: Type, arg: Type) {
    param == arg || param == Pointer(arg) || param == Reference(arg)
  }

  lemma FitsMore(params: seq<Type>, others: seq<Type>, args: seq<Type>)
    requires |params| == |others| == |args| && forall i | 0 <= i < |args| :: Near(params[i], args[i])
    requires exists i | 0 <= i < |args| :: !Near(others[i], args[i])
    ensures |Fitting(others, args, true)| < |Fitting(params, args, true)|
  {
    var some, all := Fitting(others, args, true), Fitting(params, args, true);
    var i :| 0 <= i < |args| && !Near(others[i], args[i]);
    assert all == some + (all - some) && i in all - some;
  }

  lemma FitsFirst(params: seq<Type>, args: seq<Type>)
    requires |params| == |args| > 0 && Near(params[0], args[0])
    ensures |Fitting(params, args, true)| >= 1
  {
    assert 0 in Fitting(params, args, true);
  }

  /** If the exact types do not decide, the only candidate that fits everywhere by pointer and reference is called. */
  lemma ReferencesWin(funcs: seq<Func>, args: seq<Type>, k: nat)
    requires Sized(funcs, args, k) && forall j: nat :: !SingleBest(funcs, args, false, j)
    requires forall i | 0 <= i < |args| :: Near(funcs[k].params[i], args[i])
    requires forall j: nat | Sized(funcs, args, j) && j != k ::
      exists i | 0 <= i < |args| :: !Near(funcs[j].params[i], args[i])
    ensures Chosen(funcs, args) == Some(funcs[k])
  {
    hide Fitting, Near, Chosen;
    ChosenExactly(funcs, args);
    forall j: nat | Sized(funcs, args, j) && j != k { FitsMore(funcs[k].params, funcs[j].params, args); }
    if args == [] {
      assert OnlyOne(funcs, args, k);
    } else {
      FitsFirst(funcs[k].params, args);
      assert SingleBest(funcs, args, true, k);
    }
  }

  // ---------------------------------------------------------------- exact signatures

  /** No two candidates take the same parameters. */
  predicate PairwiseDifferent(funcs: seq<Func>) {
    forall i, j | 0 <= i < j < |funcs| :: funcs[i].params != funcs[j].params
  }

  lemma {:induction false} FullCount(params: seq<Type>, args: seq<Type>)
    requires |params| == |args|
    ensures Count(params, args, false) == |args| <==> params == args
  {
    if args != [] {
      var last := |args| - 1;
      FullCount(params[..last], args[..last]);
      assert params == params[..last] + [params[last]] && args == args[..last] + [args[last]];
    }
  }

  lemma {:induction false} FilterDifferent(p: Func -> bool, s: seq<Func>)
    requires PairwiseDifferent(s)
    ensures PairwiseDifferent(Filter(p, s))
  {
    if s != [] {
      var init := s[..|s| - 1];
      FilterDifferent(p, init);
      FilterHolds(p, init);
      assert forall f <- Filter(p, init) :: f.params != s[|s| - 1].params;
    }
  }

  lemma AllAlikeIsOnly(s: seq<Func>, f: Func)
    requires f in s && PairwiseDifferent(s) && forall g <- s :: g.params == f.params
    ensures Only(s) == Some(f)
  {
    assert |s| > 1 ==> s[0].params == s[1].params;
  }

  /** Among functions of different parameters, the one with exactly the types of the arguments is called. */
  lemma ExactSignatureWins(funcs: seq<Func>, args: seq<Type>, f: Func)
    requires PairwiseDifferent(funcs) && f in funcs && f.params == args
    ensures Chosen(funcs, args) == Some(f)
  {
    var p := (f: Func) => |f.params| == |args|;
    FilterHolds(p, funcs);
    FilterDifferent(p, funcs);
    var fs := OfSize(funcs, |args|);
    assert f in fs;
    if |fs| <= 1 { return; }
    if args == [] {
      AllAlikeIsOnly(fs, f);
      return;
    }
    forall g | g in fs ensures Count(g.params, args, false) == |args|
        <==> g.params == args { FullCount(g.params, args); }
    var q := (f: Func) => f in fs && IsBest(f, fs, args, false);
    FilterHolds(q, fs);
    FilterDifferent(q, fs);
    AllAlikeIsOnly(BestMatches(fs, args, false), f);
  }
}
