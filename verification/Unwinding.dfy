/** Destructor calls in the graph against the unwinding of scopes in the source. */
module Unwinding {
  import opened Options
  import opened Cfg
  import opened Source
  import opened Layout
  import opened Expressions

  function Strip(scope: seq<Var>): (s: Scope)
    ensures |s| == |scope|
    ensures forall i | 0 <= i < |s| :: s[i] == LocalOf(scope[i])
  {
    seq(|scope|, i requires 0 <= i < |scope| => LocalOf(scope[i]))
  }

  function StripAll(scopes: seq<seq<Var>>): (s: seq<Scope>)
    ensures |s| == |scopes|
    ensures forall i | 0 <= i < |s| :: s[i] == Strip(scopes[i])
  {
    seq(|scopes|, i requires 0 <= i < |scopes| => Strip(scopes[i]))
  }

  /** The events of the destructor calls for `vars`, leaving out stack slot `keep`. */
  function DtorTrace(vars: seq<Var>, keep: Option<nat>): Trace {
    if vars == [] then []
    else DtorTrace(vars[1..], keep) + (if vars[0].dtor && Some(vars[0].slot) != keep then [Destroyed(LocalOf(vars[0]))]
                                       else [])
  }

  lemma {:induction false} DtorsRun(g: Graph, w: World, vars: seq<Var>, keep: Option<nat>, a: Point, prev: BlockId,
                                    regs: map<nat, int>, h: Trace)
    returns (n: nat)
    requires DtorsCode(g, vars, keep, a).Some?
    ensures Steps(g, w, Here(a, prev, regs, h), n) == Here(DtorsCode(g, vars, keep, a).value, prev, regs,
                                                           h + DtorTrace(vars, keep))
  {
    if vars == [] {
      assert h + [] == h;
      n := 0;
    } else {
      n := DtorsRun(g, w, vars[1..], keep, a, prev, regs, h);
      var h1 := h + DtorTrace(vars[1..], keep);
      if vars[0].dtor && Some(vars[0].slot) != keep {
        ThenRun(g, w, Here(a, prev, regs, h), n, DtorsCode(g, vars[1..], keep, a).value, Destroy(vars[0]), prev, regs,
                h1);
        n := n + 1;
        assert h1 + [Destroyed(LocalOf(vars[0]))] == h + DtorTrace(vars, keep);
      } else {
        assert h1 == h + DtorTrace(vars, keep);
      }
    }
  }

  lemma {:induction false} DtorTraceAppend(a: seq<Var>, b: seq<Var>, keep: Option<nat>)
    ensures DtorTrace(a + b, keep) == DtorTrace(b, keep) + DtorTrace(a, keep)
  {
    if a == [] {
      assert a + b == b;
    } else {
      DtorTraceAppend(a[1..], b, keep);
      assert (a + b)[1..] == a[1..] + b;
    }
  }

  /** Stack slots are used once, and a scope declares a name once. */
  ghost predicate Distinct(vars: seq<Var>) {
    forall i, j | 0 <= i < j < |vars| :: vars[i].slot != vars[j].slot
  }

  ghost predicate DistinctNames(scope: seq<Var>) {
    forall i, j | 0 <= i < j < |scope| :: scope[i].x != scope[j].x
  }

  ghost predicate ScopesOk(scopes: seq<seq<Var>>, slots: nat) {
    && Distinct(Flat(scopes))
    && (forall v | v in Flat(scopes) :: v.slot < slots)
    && (forall s | s in scopes :: DistinctNames(s))
  }

  lemma {:induction false} SlotInScope(scope: seq<Var>, x: Symbol)
    ensures SlotIn(scope, x).Some? <==> exists v | v in scope :: v.x == x
    ensures SlotIn(scope, x).Some? ==> exists v | v in scope :: v.x == x && v.slot == SlotIn(scope, x).value
  {
    if scope != [] {
      var n := |scope| - 1;
      SlotInScope(scope[..n], x);
      assert scope == scope[..n] + [scope[n]];
      assert scope[n] in scope;
    }
  }

  lemma {:induction false} KeepElsewhere(vars: seq<Var>, slot: nat)
    requires forall v | v in vars :: v.slot != slot
    ensures DtorTrace(vars, Some(slot)) == DtorTrace(vars, None)
  {
    if vars != [] {
      KeepElsewhere(vars[1..], slot);
      assert vars[0] in vars;
    }
  }

  lemma {:induction false} UnwindElsewhere(scope: Scope, x: Symbol)
    requires !Declares(scope, Some(x))
    ensures Unwind(scope, Some(x)) == Unwind(scope, None)
  {
    if scope != [] {
      assert scope[0] in scope;
      assert forall l | l in scope[1..] :: l in scope;
      UnwindElsewhere(scope[1..], x);
    }
  }

  lemma {:induction false} PlainUnwind(scope: seq<Var>)
    ensures DtorTrace(scope, None) == Unwind(Strip(scope), None)
  {
    if scope != [] {
      PlainUnwind(scope[1..]);
      assert Strip(scope)[1..] == Strip(scope[1..]);
    }
  }

  /** In one scope, leaving out the slot of `x` is leaving out the local named `x`. */
  lemma {:induction false} KeepOne(scope: seq<Var>, x: Symbol, slot: nat)
    requires DistinctNames(scope) && Distinct(scope)
    requires exists v | v in scope :: v.x == x && v.slot == slot
    ensures DtorTrace(scope, Some(slot)) == Unwind(Strip(scope), Some(x))
  {
    hide Strip;
    var rest := scope[1..];
    assert Strip(scope)[1..] == Strip(rest);
    assert forall v | v in rest :: v in scope;
    if scope[0].slot == slot {
      assert scope[0].x == x;
      forall v | v in rest ensures v.slot != slot && v.x != x {
        var i :| 0 <= i < |rest| && rest[i] == v;
        assert scope[i + 1] == v;
      }
      KeepElsewhere(rest, slot);
      PlainUnwind(rest);
      assert !Declares(Strip(rest), Some(x));
      UnwindElsewhere(Strip(rest), x);
    } else {
      var v :| v in scope && v.x == x && v.slot == slot;
      var k :| 0 <= k < |scope| && scope[k] == v;
      assert rest[k - 1] == v;
      assert scope[0].x != x;
      KeepOne(rest, x, slot);
    }
  }

  lemma StripDeclares(scope: seq<Var>, x: Symbol)
    ensures Declares(Strip(scope), Some(x)) <==> exists v | v in scope :: v.x == x
  {
    if v :| v in scope && v.x == x {
      var i :| 0 <= i < |scope| && scope[i] == v;
      assert Strip(scope)[i].x == x;
    }
    if l :| l in Strip(scope) && l.x == x {
      var i :| 0 <= i < |scope| && Strip(scope)[i] == l;
      assert scope[i].x == x;
    }
  }

  lemma ScopesOkPop(scopes: seq<seq<Var>>, slots: nat)
    requires scopes != [] && ScopesOk(scopes, slots)
    ensures ScopesOk(Pop(scopes), slots)
    ensures Distinct(Top(scopes)) && DistinctNames(Top(scopes))
    ensures forall u, v | u in Flat(Pop(scopes)) && v in Top(scopes) :: u.slot != v.slot
  {
    var outer, top := Flat(Pop(scopes)), Top(scopes);
    var all := Flat(scopes);
    assert all == outer + top;
    assert forall i | 0 <= i < |outer| :: all[i] == outer[i];
    assert forall i | 0 <= i < |top| :: all[|outer| + i] == top[i];
    assert Distinct(top) by {
      forall i, j | 0 <= i < j < |top| ensures top[i].slot != top[j].slot {
        assert all[|outer| + i] == top[i] && all[|outer| + j] == top[j];
      }
    }
    forall u, v | u in outer && v in top ensures u.slot != v.slot {
      var i :| 0 <= i < |outer| && outer[i] == u;
      var j :| 0 <= j < |top| && top[j] == v;
      assert all[i] == u && all[|outer| + j] == v;
    }
    assert scopes[|scopes| - 1] in scopes;
  }

  /** The destructor calls of a `return` are the unwinding of all scopes, whichever local is moved out. */
  lemma {:induction false} ReturnUnwinds(scopes: seq<seq<Var>>, slots: nat, x: Symbol)
    requires ScopesOk(scopes, slots)
    ensures DtorTrace(Flat(scopes), SlotOf(scopes, x)) == UnwindAll(StripAll(scopes), Some(x))
  {
    if scopes != [] {
      var n := |scopes| - 1;
      var top, outer := scopes[n], scopes[..n];
      ScopesOkPop(scopes, slots);
      DtorTraceAppend(Flat(outer), top, SlotOf(scopes, x));
      assert StripAll(scopes)[..n] == StripAll(outer);
      SlotInScope(top, x);
      StripDeclares(top, x);
      var s := SlotIn(top, x);
      if s.Some? {
        KeepOne(top, x, s.value);
        KeepElsewhere(Flat(outer), s.value);
        AllUnwinds(outer);
      } else {
        OuterSlot(outer, x);
        if SlotOf(outer, x).Some? {
          KeepElsewhere(top, SlotOf(outer, x).value);
        }
        PlainUnwind(top);
        UnwindElsewhere(Strip(top), x);
        ReturnUnwinds(outer, slots, x);
      }
    }
  }

  lemma {:induction false} OuterSlot(scopes: seq<seq<Var>>, x: Symbol)
    ensures SlotOf(scopes, x).Some? ==> exists v | v in Flat(scopes) :: v.slot == SlotOf(scopes, x).value
  {
    if scopes != [] {
      var n := |scopes| - 1;
      SlotInScope(scopes[n], x);
      OuterSlot(scopes[..n], x);
      if SlotIn(scopes[n], x).Some? {
        var v :| v in scopes[n] && v.x == x && v.slot == SlotIn(scopes[n], x).value;
        assert v in Flat(scopes);
      } else if SlotOf(scopes[..n], x).Some? {
        var v :| v in Flat(scopes[..n]) && v.slot == SlotOf(scopes[..n], x).value;
        assert v in Flat(scopes);
      }
    }
  }

  /** The destructor calls of a jump are the unwinding of the scopes it leaves. */
  lemma {:induction false} AllUnwinds(scopes: seq<seq<Var>>)
    ensures DtorTrace(Flat(scopes), None) == UnwindAll(StripAll(scopes), None)
  {
    if scopes != [] {
      var n := |scopes| - 1;
      DtorTraceAppend(Flat(scopes[..n]), scopes[n], None);
      PlainUnwind(scopes[n]);
      AllUnwinds(scopes[..n]);
      assert StripAll(scopes)[..n] == StripAll(scopes[..n]);
    }
  }

  // ---------------------------------------------------------------- scopes stay well formed

  lemma {:induction false} PlainScopesOk(g: Graph, p: Plain, scopes: seq<seq<Var>>, a: Point, c: Ctr)
    requires a.b < c.block && scopes != []
    requires PlainCode(g, p, scopes, a, c).Some?
    requires ScopesOk(scopes, c.slot)
    ensures ScopesOk(PlainCode(g, p, scopes, a, c).value.scopes, PlainCode(g, p, scopes, a, c).value.c.slot)
    decreases p, 1
  {
    match p
    case Do(_) =>
    case CoalesceTo(_, _, _) =>
    case Declare(x, decl, dtor, init) =>
      var m := ExpCode(g, init, a, c).value;
      DeclareScopesOk(scopes, Var(x, decl, m.c.slot, dtor), m.c.slot);
    case Group(ps) => PlainsScopesOk(g, ps, scopes, a, c);
  }

  lemma {:induction false} PlainsScopesOk(g: Graph, ps: seq<Plain>, scopes: seq<seq<Var>>, a: Point, c: Ctr)
    requires a.b < c.block && scopes != []
    requires PlainsCode(g, ps, scopes, a, c).Some?
    requires ScopesOk(scopes, c.slot)
    ensures ScopesOk(PlainsCode(g, ps, scopes, a, c).value.scopes, PlainsCode(g, ps, scopes, a, c).value.c.slot)
    decreases ps, 0
  {
    if ps != [] {
      var n := |ps| - 1;
      var m := PlainsCode(g, ps[..n], scopes, a, c).value;
      PlainsScopesOk(g, ps[..n], scopes, a, c);
      PlainScopesOk(g, ps[n], m.scopes, m.p, m.c);
    }
  }

  lemma DeclareScopesOk(scopes: seq<seq<Var>>, v: Var, slots: nat)
    requires scopes != [] && ScopesOk(scopes, slots)
    requires v.slot == slots && v.x !in Names(Top(scopes))
    ensures ScopesOk(Pop(scopes) + [Top(scopes) + [v]], slots + 1)
  {
    var scopes1 := Pop(scopes) + [Top(scopes) + [v]];
    assert Pop(scopes1) == Pop(scopes);
    assert Flat(scopes1) == Flat(Pop(scopes)) + (Top(scopes) + [v]);
    assert Flat(scopes1) == Flat(scopes) + [v];
    forall s: seq<Var> | s in scopes1 ensures DistinctNames(s) {
      var i :| 0 <= i < |scopes1| && scopes1[i] == s;
      if i < |scopes1| - 1 {
        assert s == scopes[i];
      } else {
        assert Top(scopes) in scopes;
        forall j, k | 0 <= j < k < |s| ensures s[j].x != s[k].x {
          assert s[j] in Top(scopes) && s[j].x in Names(Top(scopes));
        }
      }
    }
  }

  lemma OpenScopeOk(scopes: seq<seq<Var>>, slots: nat)
    requires ScopesOk(scopes, slots)
    ensures ScopesOk(scopes + [[]], slots)
    ensures Flat(scopes + [[]]) == Flat(scopes)
  {
    assert (scopes + [[]])[..|scopes|] == scopes;
    assert Flat(scopes + [[]]) == Flat(scopes) + [];
    forall s: seq<Var> | s in scopes + [[]] ensures DistinctNames(s) {
      if s !in scopes {
        assert s == [];
      }
    }
  }

  lemma MoreSlots(scopes: seq<seq<Var>>, slots: nat, more: nat)
    requires ScopesOk(scopes, slots) && slots <= more
    ensures ScopesOk(scopes, more)
  {
  }
}
