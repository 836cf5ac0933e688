/** The manager of types, whose table stays canonical and free of types that hold themselves. */
module TypeManagers {
  import opened Options
  import opened TypeTable

  const Builtins := [
    BuiltinKey(Auto), BuiltinKey(Void), BuiltinKey(Bool),
    BuiltinKey(Int(8, false)), BuiltinKey(Int(16, false)), BuiltinKey(Int(32, false)), BuiltinKey(Int(64, false)),
    BuiltinKey(Int(8, true)), BuiltinKey(Int(16, true)), BuiltinKey(Int(32, true)), BuiltinKey(Int(64, true)),
    BuiltinKey(Float(false)), BuiltinKey(Float(true))
  ]

  lemma BuiltinsDiffer(i: nat)
    requires i < |Builtins|
    ensures Builtins[i].BuiltinKey? && Builtins[i] !in Builtins[..i]
    ensures i < 2 <==> Builtins[i] == BuiltinKey(Auto) || Builtins[i] == BuiltinKey(Void)
  {
  }

  /** The table has grown, and what was in it is as it was. */
  ghost predicate Extends(t: Table, u: Table) {
    && t.nodes <= u.nodes
    && (forall key <- t.interned :: key in u.interned && u.interned[key] == t.interned[key])
    && (forall x <- t.constMap :: x in u.constMap && u.constMap[x] == t.constMap[x])
    && (forall c <- t.mutMap :: c in u.mutMap && u.mutMap[c] == t.mutMap[c])
  }

  ghost predicate ExtendsBut(t: Table, u: Table, c: nat) {
    && |t.nodes| <= |u.nodes| && (forall i | 0 <= i < |t.nodes| && i != c :: u.nodes[i] == t.nodes[i])
    && (forall key <- t.interned :: key in u.interned && u.interned[key] == t.interned[key])
    && (forall x <- t.constMap :: x in u.constMap && u.constMap[x] == t.constMap[x])
    && (forall d <- t.mutMap :: d in u.mutMap && u.mutMap[d] == t.mutMap[d])
  }

  predicate CopyFollows(t: Table, x: nat, c: nat) {
    x < |t.nodes| && c < |t.nodes| && t.nodes[c].opaque_ == t.nodes[x].opaque_
  }

  /** No type has got or lost its body, and the const types made since are as opaque as what they are copies of. */
  ghost predicate CopiesFollow(t: Table, u: Table) {
    && |t.nodes| <= |u.nodes| && (forall i | 0 <= i < |t.nodes| :: u.nodes[i].opaque_ == t.nodes[i].opaque_)
    && (forall x <- t.constMap :: x in u.constMap && u.constMap[x] == t.constMap[x])
    && (forall x <- u.constMap :: x in t.constMap || CopyFollows(u, x, u.constMap[x]))
  }

  lemma FollowsItself(t: Table)
    ensures Extends(t, t) && CopiesFollow(t, t)
  {
  }

  lemma CopiesFollowThen(t: Table, u: Table, v: Table)
    requires CopiesFollow(t, u) && CopiesFollow(u, v)
    ensures CopiesFollow(t, v)
  {
    forall x | x in v.constMap && x !in t.constMap ensures CopyFollows(v, x, v.constMap[x]) {
      if x in u.constMap { assert CopyFollows(u, x, u.constMap[x]); }
    }
  }

  lemma CopyKept(t: Table, u: Table, c: nat, x: nat)
    requires Extends(t, u) && ConstCopy(t, c, x)
    ensures ConstCopy(u, c, x)
  {
    if !u.nodes[c].opaque_ {
      forall k | 0 <= k < |u.nodes[c].items| ensures ConstItem(u, u.nodes[c].items[k], u.nodes[x].items[k]) {
        assert ConstItem(t, t.nodes[c].items[k], t.nodes[x].items[k]);
      }
    }
  }

  // ---------------------------------------------------------------- a new mutable type

  lemma EmptyTable()
    ensures Canonical(Table([], map[], map[], map[])) && Ranked(Table([], map[], map[], map[]), [])
  {
  }

  function WithType(t: Table, n: Node): Table {
    t.(nodes := t.nodes + [n], interned := t.interned[n.key := |t.nodes|])
  }

  ghost predicate IsNew(t: Table, n: Node) {
    && !n.isConst && n.key !in t.interned && Below(n.key, |t.nodes|)
    && n.subtype == SubtypeOf(n.key) && n.items == [] && (n.opaque_ ==> n.key.UserKey?)
  }

  lemma NewTypeIsInterned(t: Table, n: Node)
    requires InternedOnce(t) && IsNew(t, n)
    ensures InternedOnce(WithType(t, n)) && Extends(t, WithType(t, n))
  {
    var u := WithType(t, n);
    forall i: nat | IsMutable(u, i) ensures Filed(u, i) {
      if i < |t.nodes| { assert IsMutable(t, i) && Filed(t, i); }
    }
  }

  lemma NewTypeKeepsPairs(t: Table, n: Node, pending: set<nat>)
    requires ConstsPaired(t, pending) && IsNew(t, n)
    requires Extends(t, WithType(t, n))
    ensures ConstsPaired(WithType(t, n), pending)
  {
    var u := WithType(t, n);
    assert forall x <- u.constMap :: Copied(t, x, t.constMap[x]);
    forall c: nat | IsConst(u, c) && c !in pending ensures MutuallyInverse(u, c) {
      assert IsConst(t, c) && MutuallyInverse(t, c);
      CopyKept(t, u, c, t.mutMap[c]);
    }
  }

  lemma NewTypeIsRanked(t: Table, n: Node, ranks: seq<nat>, rank: nat)
    requires Ranked(t, ranks) && IsNew(t, n) && (rank == 0 <==> IsUnsized(n))
    requires n.key.ArrayKey? ==> HasRankBelow(ranks, n.key.element, rank)
    ensures Ranked(WithType(t, n), ranks + [rank])
  {
    var u, more := WithType(t, n), ranks + [rank];
    forall i | 0 <= i < |u.nodes| ensures HeldBelow(u, more, i) {
      if i < |t.nodes| {
        assert HeldBelow(t, ranks, i);
        var held := Held(t.nodes[i]);
        forall k | 0 <= k < |held| ensures HasRankBelow(more, held[k], more[i]) {
          assert HasRankBelow(ranks, held[k], ranks[i]);
        }
      }
    }
    forall i: nat | IsMutable(u, i) ensures more[i] == 0 <==> IsUnsized(u.nodes[i]) {
      if i < |t.nodes| { assert IsMutable(t, i); }
    }
  }

  // ---------------------------------------------------------------- a new const type

  /** The const copy `c` of `x`, which is still to be made const inside. */
  function WithCopy(t: Table, x: nat): Table
    requires x < |t.nodes|
  {
    t.(nodes := t.nodes + [t.nodes[x].(isConst := true)], constMap := t.constMap[x := |t.nodes|])
  }

  lemma NewCopyExtends(t: Table, x: nat)
    requires InternedOnce(t) && IsMutable(t, x) && x !in t.constMap
    ensures InternedOnce(WithCopy(t, x)) && Extends(t, WithCopy(t, x))
  {
    var u := WithCopy(t, x);
    forall i: nat | IsMutable(u, i) ensures Filed(u, i) { assert IsMutable(t, i) && Filed(t, i); }
  }

  lemma NewCopyKeepsPairs(t: Table, x: nat, pending: set<nat>)
    requires ConstsPaired(t, pending) && IsMutable(t, x) && x !in t.constMap
    requires Extends(t, WithCopy(t, x))
    ensures ConstsPaired(WithCopy(t, x), pending + {|t.nodes|})
  {
    var u, c := WithCopy(t, x), |t.nodes|;
    forall y | y in u.constMap ensures Copied(u, y, u.constMap[y]) {
      if y != x { assert Copied(t, y, t.constMap[y]); }
    }
    forall d: nat | IsConst(u, d) && d !in pending + {c} ensures MutuallyInverse(u, d) {
      assert IsConst(t, d) && MutuallyInverse(t, d);
      CopyKept(t, u, d, t.mutMap[d]);
    }
  }

  lemma NewCopyIsRanked(t: Table, x: nat, ranks: seq<nat>)
    requires Ranked(t, ranks) && IsMutable(t, x) && x !in t.constMap
    ensures Ranked(WithCopy(t, x), ranks + [ranks[x]])
  {
    var u, c, more := WithCopy(t, x), |t.nodes|, ranks + [ranks[x]];
    forall i | 0 <= i < |u.nodes| ensures HeldBelow(u, more, i) {
      var from := if i < c then i else x;
      assert HeldBelow(t, ranks, from);
      var held := Held(t.nodes[from]);
      forall k | 0 <= k < |held| ensures HasRankBelow(more, held[k], more[i]) {
        assert HasRankBelow(ranks, held[k], ranks[from]);
      }
    }
    forall i: nat | IsMutable(u, i) ensures more[i] == 0 <==> IsUnsized(u.nodes[i]) { assert IsMutable(t, i); }
  }

  lemma RanksCover(t: Table, ranks: seq<nat>)
    requires Ranked(t, ranks)
    ensures |ranks| == |t.nodes|
  {
  }

  lemma MutableContents(t: Table, ranks: seq<nat>, x: nat)
    requires InternedOnce(t) && Ranked(t, ranks) && IsMutable(t, x)
    ensures |ranks| == |t.nodes|
    ensures var n := t.nodes[x];
      && (n.key.ArrayKey? ==> n.items == [] && HasRankBelow(ranks, n.subtype, ranks[x]))
      && (n.items != [] ==> (n.user == Struct || n.user == Class || n.user == Union) && n.key.UserKey?)
      && (n.opaque_ ==> n.items == [])
      && (forall k | 0 <= k < |n.items| :: HasRankBelow(ranks, n.items[k], ranks[x]))
  {
    var n := t.nodes[x];
    assert Filed(t, x) && HeldBelow(t, ranks, x);
    if n.key.ArrayKey? { assert HasRankBelow(ranks, Held(n)[0], ranks[x]); }
  }

  /** A const element has the rank of the element. */
  lemma OneContent(t: Table, ranks: seq<nat>, i: nat, rank: nat)
    requires Ranked(t, ranks) && HasConst(t, i) && HasRankBelow(ranks, i, rank)
    ensures HasRankBelow(ranks, ConstOfType(t, i), rank)
  {
  }

  lemma OneHeld(t: Table, c: nat, element: nat, ranks: seq<nat>)
    requires c < |t.nodes| == |ranks| && t.nodes[c].key.ArrayKey? && HasRankBelow(ranks, element, ranks[c])
    ensures HeldBelow(WithContents(t, c, element, []), ranks, c)
  {
  }

  /** The members made const so far, and those that are still to be made const. */
  ghost predicate ItemsCopied(t: Table, items: seq<nat>, from: seq<nat>, n: nat) {
    && n <= |items| == |from|
    && (forall k | 0 <= k < n :: ConstItem(t, items[k], from[k]))
    && (forall k | n <= k < |items| :: items[k] == from[k])
  }

  lemma ConstIsRanked(t: Table, ranks: seq<nat>, x: nat)
    requires Ranked(t, ranks) && x in t.constMap && x < |ranks|
    ensures t.constMap[x] < |ranks| && ranks[t.constMap[x]] == ranks[x]
  {
  }

  /** The table while the members of the copy `c` of `x` are made const, the first `n` of which are. */
  ghost predicate CopyingItems(start: Table, t: Table, c: nat, x: nat, n: nat) {
    && x < |start.nodes| && c < |t.nodes| && x < |t.nodes| && ExtendsBut(start, t, c) && CopiesFollow(start, t)
    && t.interned == start.interned && t.nodes[x] == start.nodes[x]
    && t.nodes[c] == t.nodes[x].(isConst := true, items := t.nodes[c].items)
    && ItemsCopied(t, t.nodes[c].items, t.nodes[x].items, n)
    && (n < |t.nodes[x].items| ==> t.nodes[c].items[n] == t.nodes[x].items[n])
  }

  lemma CopyingStarts(t: Table, c: nat, x: nat)
    requires c < |t.nodes| && x < |t.nodes| && t.nodes[c] == t.nodes[x].(isConst := true)
    ensures CopyingItems(t, t, c, x, 0)
  {
  }

  lemma CopyingStays(start: Table, t: Table, u: Table, c: nat, x: nat, n: nat)
    requires CopyingItems(start, t, c, x, n) && Extends(t, u) && CopiesFollow(t, u) && u.interned == t.interned
    ensures CopyingItems(start, u, c, x, n)
  {
    CopiesFollowThen(start, t, u);
    forall k | 0 <= k < n ensures ConstItem(u, u.nodes[c].items[k], u.nodes[x].items[k]) {
      assert ConstItem(t, t.nodes[c].items[k], t.nodes[x].items[k]);
    }
  }

  lemma CopyingGoesOn(start: Table, t: Table, c: nat, x: nat, n: nat, pending: set<nat>, ranks: seq<nat>)
    requires InternedOnce(t) && ConstsPaired(t, pending) && Ranked(t, ranks) && c in pending
    requires CopyingItems(start, t, c, x, n) && IsMutable(t, x) && !t.nodes[x].key.ArrayKey? && ranks[c] == ranks[x]
    requires n < |t.nodes[x].items| && HasConst(t, t.nodes[x].items[n])
        && HasRankBelow(ranks, t.nodes[x].items[n], ranks[x])
    ensures
      var u := WithContents(t, c, t.nodes[c].subtype, t.nodes[c].items[n := ConstOfType(t, t.nodes[x].items[n])]);
      && InternedOnce(u) && ConstsPaired(u, pending) && Ranked(u, ranks) && CopyingItems(start, u, c, x, n + 1)
  {
    hide InternedOnce, ConstsPaired, Ranked, CopiesFollow, ItemsCopied;
    PendingIsConst(t, pending, c);
    ItemsStill(t, t.nodes[c].items, t.nodes[x].items, n);
    var items := t.nodes[c].items[n := ConstOfType(t, t.nodes[x].items[n])];
    ItemCopied(t, c, x, n, pending, ranks);
    ContentsFollow(t, c, t.nodes[c].subtype, items);
    CopiesFollowThen(start, t, WithContents(t, c, t.nodes[c].subtype, items));
  }

  lemma CopiedSoFar(start: Table, t: Table, c: nat, x: nat, n: nat)
    requires CopyingItems(start, t, c, x, n)
    ensures c < |t.nodes| && x < |start.nodes| && x < |t.nodes| && t.nodes[x] == start.nodes[x]
    ensures t.nodes[c] == t.nodes[x].(isConst := true, items := t.nodes[c].items)
    ensures |t.nodes[c].items| == |t.nodes[x].items| && ItemsCopied(t, t.nodes[c].items, t.nodes[x].items, n)
    ensures n < |t.nodes[x].items| ==> t.nodes[c].items[n] == t.nodes[x].items[n]
    ensures ExtendsBut(start, t, c) && CopiesFollow(start, t) && t.interned == start.interned
  {
  }

  lemma PendingIsConst(t: Table, pending: set<nat>, c: nat)
    requires ConstsPaired(t, pending) && c in pending
    ensures IsConst(t, c)
  {
  }

  lemma ItemsStill(t: Table, items: seq<nat>, from: seq<nat>, n: nat)
    requires ItemsCopied(t, items, from, n)
    ensures |items| == |from| && forall k | n <= k < |items| :: items[k] == from[k]
  {
  }

  /** One more member is made const. */
  lemma ItemCopied(t: Table, c: nat, x: nat, n: nat, pending: set<nat>, ranks: seq<nat>)
    requires InternedOnce(t) && ConstsPaired(t, pending) && Ranked(t, ranks) && c in pending
    requires c < |t.nodes| && IsMutable(t, x) && !t.nodes[c].key.ArrayKey? && ranks[c] == ranks[x]
    requires n < |t.nodes[x].items| && ItemsCopied(t, t.nodes[c].items, t.nodes[x].items, n)
    requires HasConst(t, t.nodes[x].items[n]) && HasRankBelow(ranks, t.nodes[x].items[n], ranks[x])
    ensures var items := t.nodes[c].items[n := ConstOfType(t, t.nodes[x].items[n])];
      var u := WithContents(t, c, t.nodes[c].subtype, items);
      && InternedOnce(u) && ConstsPaired(u, pending) && Ranked(u, ranks)
      && ItemsCopied(u, items, t.nodes[x].items, n + 1)
  {
    hide InternedOnce, ConstsPaired, Ranked, HeldBelow, HasRankBelow;
    RanksCover(t, ranks);
    var item := ConstOfType(t, t.nodes[x].items[n]);
    var items := t.nodes[c].items[n := item];
    var u := WithContents(t, c, t.nodes[c].subtype, items);
    OneContent(t, ranks, t.nodes[x].items[n], ranks[x]);
    StillHeldBelow(t, c, n, item, ranks);
    NewContentsKeep(t, c, t.nodes[c].subtype, items, pending, ranks);
    forall k | 0 <= k < n + 1 ensures ConstItem(u, items[k], t.nodes[x].items[k]) {
      if k < n { assert ConstItem(t, items[k], t.nodes[x].items[k]); }
    }
  }

  lemma StillHeldBelow(t: Table, c: nat, n: nat, item: nat, ranks: seq<nat>)
    requires Ranked(t, ranks) && c < |t.nodes| && !t.nodes[c].key.ArrayKey? && n < |t.nodes[c].items|
    requires HasRankBelow(ranks, item, ranks[c])
    ensures HeldBelow(WithContents(t, c, t.nodes[c].subtype, t.nodes[c].items[n := item]), ranks, c)
  {
    var items := t.nodes[c].items[n := item];
    assert HeldBelow(t, ranks, c);
    forall k | 0 <= k < |items| ensures HasRankBelow(ranks, items[k], ranks[c]) {
      if k != n { assert HasRankBelow(ranks, Held(t.nodes[c])[k], ranks[c]); }
    }
  }

  lemma AllItemsCopied(t: Table, c: nat, x: nat)
    requires x < |t.nodes| && c < |t.nodes| && !t.nodes[x].key.ArrayKey? && t.nodes[c].key == t.nodes[x].key
    requires t.nodes[c].opaque_ == t.nodes[x].opaque_ && t.nodes[c].subtype == t.nodes[x].subtype
    requires t.nodes[x].opaque_ ==> t.nodes[x].items == []
    requires ItemsCopied(t, t.nodes[c].items, t.nodes[x].items, |t.nodes[x].items|)
    ensures ConstCopy(t, c, x)
  {
  }

  lemma ArrayIsCopied(t: Table, c: nat, x: nat)
    requires x < |t.nodes| && c < |t.nodes| && x != c && t.nodes[c] == t.nodes[x].(isConst := true)
    requires t.nodes[x].key.ArrayKey? && t.nodes[x].items == [] && HasConst(t, t.nodes[x].subtype)
    ensures ConstCopy(WithContents(t, c, ConstOfType(t, t.nodes[x].subtype), []), c, x)
  {
    var u := WithContents(t, c, ConstOfType(t, t.nodes[x].subtype), []);
    assert HasConst(u, t.nodes[x].subtype);
  }

  lemma ArrayMade(start: Table, t: Table, c: nat, x: nat, pending: set<nat>, ranks: seq<nat>)
    requires InternedOnce(t) && ConstsPaired(t, pending) && Ranked(t, ranks) && c in pending
    requires Extends(start, t) && CopiesFollow(start, t) && x < |t.nodes| == |ranks| && c < |t.nodes| && x != c
    requires t.nodes[c] == t.nodes[x].(isConst := true) && t.nodes[x].key.ArrayKey? && t.nodes[x].items == []
    requires HasConst(t, t.nodes[x].subtype) && HasRankBelow(ranks, t.nodes[x].subtype, ranks[c])
    ensures
      var u := WithContents(t, c, ConstOfType(t, t.nodes[x].subtype), []);
      && InternedOnce(u) && ConstsPaired(u, pending) && Ranked(u, ranks)
      && ExtendsBut(start, u, c) && CopiesFollow(start, u) && ConstCopy(u, c, x)
  {
    hide InternedOnce, ConstsPaired, Ranked, HeldBelow, CopiesFollow, HasRankBelow;
    var element := ConstOfType(t, t.nodes[x].subtype);
    OneContent(t, ranks, t.nodes[x].subtype, ranks[c]);
    assert HeldBelow(WithContents(t, c, element, []), ranks, c) by { OneHeld(t, c, element, ranks); }
    NewContentsKeep(t, c, element, [], pending, ranks);
    ContentsFollow(t, c, element, []);
    CopiesFollowThen(start, t, WithContents(t, c, element, []));
    ArrayIsCopied(t, c, x);
  }

  lemma NothingToCopy(t: Table, c: nat, x: nat)
    requires x < |t.nodes| && c < |t.nodes| && t.nodes[c] == t.nodes[x].(isConst := true)
    requires !t.nodes[x].key.ArrayKey? && t.nodes[x].items == []
    ensures ConstCopy(t, c, x)
  {
  }

  function WithContents(t: Table, c: nat, subtype: nat, items: seq<nat>): Table
    requires c < |t.nodes|
  {
    t.(nodes := t.nodes[c := t.nodes[c].(subtype := subtype, items := items)])
  }

  lemma ContentsFollow(t: Table, c: nat, subtype: nat, items: seq<nat>)
    requires c < |t.nodes|
    ensures CopiesFollow(t, WithContents(t, c, subtype, items))
  {
  }

  lemma CopyIsFollowed(t: Table, x: nat)
    requires x < |t.nodes| && x !in t.constMap
    ensures CopiesFollow(t, WithCopy(t, x))
  {
  }

  /** The copy of `x` has been made const inside; with its way back, it is all that is new at its place. */
  lemma CopyIsThere(t: Table, u: Table, x: nat, pending: set<nat>)
    requires ConstsPaired(t, pending) && IsMutable(t, x) && x !in t.constMap && ExtendsBut(WithCopy(t, x), u, |t.nodes|)
    ensures
      var v := u.(mutMap := u.mutMap[|t.nodes| := x]);
      && Extends(t, v) && x in u.constMap && u.constMap[x] == |t.nodes|
      && HasConst(v, x) && ConstOfType(v, x) == |t.nodes|
  {
    assert forall d <- t.mutMap :: d < |t.nodes|;
  }

  lemma PairFollows(t: Table, u: Table, c: nat, x: nat)
    requires CopiesFollow(t, u)
    ensures CopiesFollow(t, u.(mutMap := u.mutMap[c := x]))
  {
    forall y | y in u.constMap && y !in t.constMap ensures CopyFollows(u.(mutMap := u.mutMap[c := x]), y,
        u.constMap[y]) {
      assert CopyFollows(u, y, u.constMap[y]);
    }
  }

  /** The contents of a const type can be set while it is being made. */
  lemma NewContentsKeep(t: Table, c: nat, subtype: nat, items: seq<nat>, pending: set<nat>, ranks: seq<nat>)
    requires InternedOnce(t) && ConstsPaired(t, pending) && Ranked(t, ranks) && c in pending
    requires HeldBelow(WithContents(t, c, subtype, items), ranks, c)
    ensures var u := WithContents(t, c, subtype, items);
      InternedOnce(u) && ConstsPaired(u, pending) && Ranked(u, ranks)
  {
    var u := WithContents(t, c, subtype, items);
    assert IsConst(t, c);
    forall i: nat | IsMutable(u, i) ensures Filed(u, i) { assert IsMutable(t, i) && Filed(t, i); }
    forall y | y in u.constMap ensures Copied(u, y, u.constMap[y]) { assert Copied(t, y, t.constMap[y]); }
    forall d: nat | IsConst(u, d) && d !in pending ensures MutuallyInverse(u, d) {
      assert IsConst(t, d) && MutuallyInverse(t, d) && Copied(t, t.mutMap[d], d);
      SameCopy(t, u, d, t.mutMap[d]);
    }
    forall i | 0 <= i < |u.nodes| ensures HeldBelow(u, ranks, i) {
      assert i != c ==> HeldBelow(t, ranks, i) && u.nodes[i] == t.nodes[i];
    }
    forall i: nat | IsMutable(u, i) ensures ranks[i] == 0 <==> IsUnsized(u.nodes[i]) { assert IsMutable(t, i); }
  }

  lemma SameCopy(t: Table, u: Table, d: nat, x: nat)
    requires |t.nodes| == |u.nodes| && t.constMap == u.constMap && d < |t.nodes| && x < |t.nodes|
    requires forall i | 0 <= i < |t.nodes| :: t.nodes[i].isConst == u.nodes[i].isConst
    requires t.nodes[d] == u.nodes[d] && t.nodes[x] == u.nodes[x] && ConstCopy(t, d, x)
    ensures ConstCopy(u, d, x)
  {
    if !u.nodes[d].opaque_ {
      forall k | 0 <= k < |u.nodes[d].items| ensures ConstItem(u, u.nodes[d].items[k], u.nodes[x].items[k]) {
        assert ConstItem(t, t.nodes[d].items[k], t.nodes[x].items[k]);
      }
    }
  }

  lemma NewPairKeeps(t: Table, c: nat, x: nat, pending: set<nat>, ranks: seq<nat>)
    requires InternedOnce(t) && ConstsPaired(t, pending + {c}) && Ranked(t, ranks)
    requires c !in pending && x in t.constMap && t.constMap[x] == c && ConstCopy(t, c, x)
    ensures var u := t.(mutMap := t.mutMap[c := x]);
      InternedOnce(u) && ConstsPaired(u, pending) && Ranked(u, ranks)
  {
    hide ConstsPaired;
    var u := t.(mutMap := t.mutMap[c := x]);
    forall i: nat | IsMutable(u, i) ensures Filed(u, i) { assert IsMutable(t, i) && Filed(t, i); }
    forall i | 0 <= i < |u.nodes| ensures HeldBelow(u, ranks, i) { assert HeldBelow(t, ranks, i); }
    forall i: nat | IsMutable(u, i) ensures ranks[i] == 0 <==> IsUnsized(u.nodes[i]) { assert IsMutable(t, i); }
    NewPairIsPaired(t, c, x, pending);
  }

  lemma NewPairIsPaired(t: Table, c: nat, x: nat, pending: set<nat>)
    requires ConstsPaired(t, pending + {c})
    requires c !in pending && x in t.constMap && t.constMap[x] == c && ConstCopy(t, c, x)
    ensures ConstsPaired(t.(mutMap := t.mutMap[c := x]), pending)
  {
    var u := t.(mutMap := t.mutMap[c := x]);
    assert Copied(t, x, c);
    forall y | y in u.constMap ensures Copied(u, y, u.constMap[y]) { assert Copied(t, y, t.constMap[y]); }
    forall d: nat | IsConst(u, d) && d !in pending ensures MutuallyInverse(u, d) {
      if d == c {
        SameCopy(t, u, c, x);
      } else {
        assert IsConst(t, d) && MutuallyInverse(t, d);
        SameCopy(t, u, d, t.mutMap[d]);
      }
    }
  }

  // ---------------------------------------------------------------- bodies

  /** Members of one type; `special` says that its values are made by a constructor or end in a destructor. */
  datatype MemberGroup = MemberGroup(type_: nat, special: bool, names: seq<string>)

  /**
   The members after those of `structVector` are of the group's type; if all names are new, they are the first `n`
   of them.
   */
  ghost predicate TakenOver(structVector: seq<(string, nat)>, members: seq<(string, nat)>, group: MemberGroup, n: nat,
                            all: bool) {
    && n <= |group.names| && structVector <= members
    && (forall m <- members[|structVector|..] :: m.1 == group.type_)
    && (all ==> |members| == |structVector| + n)
    && (all ==> forall k | 0 <= k < n :: members[|structVector| + k].0 == group.names[k])
  }

  lemma UnsizedIs(n: Node)
    ensures IsUnsized(n) <==> n.opaque_ || n.key == BuiltinKey(Auto) || n.key == BuiltinKey(Void)
  {
  }

  predicate Distinct(names: seq<string>) {
    forall i, j | 0 <= i < j < |names| :: names[i] != names[j]
  }

  /** What the loop over the names of a group has made of the members and their names when it has come to name `n`. */
  ghost predicate Added(structVector: seq<(string, nat)>, memberNames: set<string>, group: MemberGroup, n: nat,
                        members: seq<(string, nat)>, names: set<string>, valid: bool) {
    && TakenOver(structVector, members, group, n, valid) && names == memberNames + (set x <- group.names[..n])
    && (forall m <- members :: m.0 in names)
    && (forall a, b | 0 <= a < b < |members| :: members[a].0 != members[b].0)
    && (valid <==> Distinct(group.names[..n]) && forall x <- group.names[..n] :: x !in memberNames)
  }

  lemma DistinctThen(names: seq<string>, name: string)
    ensures Distinct(names + [name]) <==> Distinct(names) && name !in names
    ensures (set x <- names + [name]) == (set x <- names) + {name}
  {
    var all := names + [name];
    if Distinct(all) {
      forall i, j | 0 <= i < j < |names| ensures names[i] != names[j] { assert all[i] != all[j]; }
      forall i | 0 <= i < |names| ensures names[i] != name { assert all[i] != all[|names|]; }
    }
  }

  lemma TakesOne(structVector: seq<(string, nat)>, members: seq<(string, nat)>, group: MemberGroup, n: nat, all: bool)
    requires n < |group.names| && TakenOver(structVector, members, group, n, all)
    ensures TakenOver(structVector, members, group, n + 1, false)
    ensures TakenOver(structVector, members + [(group.names[n], group.type_)], group, n + 1, all)
  {
    var more := members + [(group.names[n], group.type_)];
    assert more[|structVector|..] == members[|structVector|..] + [(group.names[n], group.type_)];
  }

  lemma AddsOne(structVector: seq<(string, nat)>, memberNames: set<string>, group: MemberGroup, n: nat,
                members: seq<(string, nat)>, names: set<string>, valid: bool)
    requires n < |group.names| && Added(structVector, memberNames, group, n, members, names, valid)
    ensures
      var name := group.names[n];
      if name in names then Added(structVector, memberNames, group, n + 1, members, names, false)
      else Added(structVector, memberNames, group, n + 1, members + [(name, group.type_)], names + {name}, valid)
  {
    hide Distinct, TakenOver;
    var name := group.names[n];
    assert group.names[..n + 1] == group.names[..n] + [name];
    DistinctThen(group.names[..n], name);
    TakesOne(structVector, members, group, n, valid);
  }

  function Members(structure: seq<(string, nat)>): (items: seq<nat>)
    ensures |items| == |structure| && forall k | 0 <= k < |items| :: items[k] == structure[k].1
  {
    seq(|structure|, k requires 0 <= k < |structure| => structure[k].1)
  }

  function WithBody(t: Table, x: nat, items: seq<nat>): Table
    requires x < |t.nodes|
  {
    t.(nodes := t.nodes[x := t.nodes[x].(opaque_ := false, items := items)])
  }

  ghost function RankAbove(ranks: seq<nat>, items: seq<nat>): (rank: nat)
    requires forall k | 0 <= k < |items| :: items[k] < |ranks|
    ensures rank > 0 && forall k | 0 <= k < |items| :: ranks[items[k]] < rank
  {
    if items == [] then 1
    else
      var rank := RankAbove(ranks, items[1..]);
      assert forall k | 1 <= k < |items| :: items[k] == items[1..][k - 1];
      if ranks[items[0]] < rank then rank else ranks[items[0]] + 1
  }

  /** The ranks once `x` has its body: that of `x` rises above its members, and that of its const copy with it. */
  ghost function BodyRanks(t: Table, x: nat, items: seq<nat>, ranks: seq<nat>): (more: seq<nat>)
    requires |ranks| == |t.nodes| && forall k | 0 <= k < |items| :: items[k] < |ranks|
    ensures |more| == |ranks|
    ensures forall i | 0 <= i < |ranks| ::
      more[i] == if i == x || (x in t.constMap && t.constMap[x] == i) then RankAbove(ranks, items) else ranks[i]
  {
    var rank := RankAbove(ranks, items);
    seq(|ranks|, i requires 0 <= i < |ranks| => if i == x
        || (x in t.constMap && t.constMap[x] == i) then rank else ranks[i])
  }

  lemma SizedHasRank(t: Table, ranks: seq<nat>, i: nat)
    requires Canonical(t) && Ranked(t, ranks) && i < |t.nodes| && !IsUnsized(t.nodes[i])
    ensures ranks[i] > 0
  {
    if IsConst(t, i) {
      var x := t.mutMap[i];
      assert MutuallyInverse(t, i) && Copied(t, x, i) && Filed(t, x);
      assert IsMutable(t, x);
    } else {
      assert IsMutable(t, i);
    }
  }

  /** Members have a size, so that nothing can hold `x` before it has its body. */
  lemma BodyKeeps(t: Table, x: nat, items: seq<nat>, ranks: seq<nat>)
    requires Canonical(t) && Ranked(t, ranks) && IsMutable(t, x) && t.nodes[x].opaque_
    requires t.nodes[x].user == Struct || t.nodes[x].user == Class || t.nodes[x].user == Union
    requires forall k | 0 <= k < |items| :: items[k] < |t.nodes| && !IsUnsized(t.nodes[items[k]])
    ensures Canonical(WithBody(t, x, items)) && Ranked(WithBody(t, x, items), BodyRanks(t, x, items, ranks))
  {
    BodyKeepsPairs(t, x, items);
    BodyIsRanked(t, x, items, ranks);
  }

  lemma BodyKeepsPairs(t: Table, x: nat, items: seq<nat>)
    requires Canonical(t) && IsMutable(t, x) && t.nodes[x].opaque_
    requires t.nodes[x].user == Struct || t.nodes[x].user == Class || t.nodes[x].user == Union
    ensures Canonical(WithBody(t, x, items))
  {
    var u := WithBody(t, x, items);
    assert Filed(t, x);
    forall i: nat | IsMutable(u, i) ensures Filed(u, i) { assert IsMutable(t, i) && Filed(t, i); }
    forall y | y in u.constMap ensures Copied(u, y, u.constMap[y]) { assert Copied(t, y, t.constMap[y]); }
    forall d: nat | IsConst(u, d) && d !in {} ensures MutuallyInverse(u, d) {
      assert IsConst(t, d) && MutuallyInverse(t, d) && Copied(t, t.mutMap[d], d);
      var y := t.mutMap[d];
      if y == x {
        assert u.nodes[d].opaque_;
      } else {
        SameCopy(t, u, d, y);
      }
    }
  }

  lemma BodyIsRanked(t: Table, x: nat, items: seq<nat>, ranks: seq<nat>)
    requires Canonical(t) && Ranked(t, ranks) && IsMutable(t, x) && t.nodes[x].opaque_
    requires forall k | 0 <= k < |items| :: items[k] < |t.nodes| && !IsUnsized(t.nodes[items[k]])
    ensures Ranked(WithBody(t, x, items), BodyRanks(t, x, items, ranks))
  {
    hide InternedOnce, ConstsPaired, HeldBelow;
    var u, more := WithBody(t, x, items), BodyRanks(t, x, items, ranks);
    OpaqueIsUser(t, x);
    forall i | 0 <= i < |u.nodes| ensures HeldBelow(u, more, i) {
      if i == x { MembersBelow(t, x, items, ranks); } else { OthersHeldBelow(t, x, items, ranks, i); }
    }
    CopiesDiffer(t, x);
    forall i: nat | IsMutable(u, i) ensures more[i] == 0 <==> IsUnsized(u.nodes[i]) { assert IsMutable(t, i); }
  }

  lemma CopiesDiffer(t: Table, x: nat)
    requires Canonical(t)
    ensures forall y | y in t.constMap && x in t.constMap && t.constMap[y] == t.constMap[x] :: y == x
    ensures forall y <- t.constMap :: IsMutable(t, y) && IsConst(t, t.constMap[y])
  {
    assert forall y <- t.constMap :: Copied(t, y, t.constMap[y]);
  }

  lemma MembersBelow(t: Table, x: nat, items: seq<nat>, ranks: seq<nat>)
    requires Canonical(t) && Ranked(t, ranks) && IsMutable(t, x) && t.nodes[x].opaque_
    requires forall k | 0 <= k < |items| :: items[k] < |t.nodes| && !IsUnsized(t.nodes[items[k]])
    ensures HeldBelow(WithBody(t, x, items), BodyRanks(t, x, items, ranks), x)
  {
    hide InternedOnce, ConstsPaired;
    var more := BodyRanks(t, x, items, ranks);
    OpaqueIsUser(t, x);
    RankOfOpaque(t, ranks, x);
    forall k | 0 <= k < |items| ensures HasRankBelow(more, items[k], more[x]) {
      SizedHasRank(t, ranks, items[k]);
    }
  }

  lemma OthersHeldBelow(t: Table, x: nat, items: seq<nat>, ranks: seq<nat>, i: nat)
    requires Canonical(t) && Ranked(t, ranks) && IsMutable(t, x) && t.nodes[x].opaque_ && i < |t.nodes| && i != x
    requires forall k | 0 <= k < |items| :: items[k] < |t.nodes|
    ensures HeldBelow(WithBody(t, x, items), BodyRanks(t, x, items, ranks), i)
  {
    hide InternedOnce;
    var more, held := BodyRanks(t, x, items, ranks), Held(t.nodes[i]);
    assert HeldBelow(t, ranks, i);
    if x in t.constMap && t.constMap[x] == i {
      assert Copied(t, x, i) && MutuallyInverse(t, i);
      OpaqueIsUser(t, x);
      assert held == [];
    } else {
      RankOfOpaque(t, ranks, x);
      forall k | 0 <= k < |held| ensures HasRankBelow(more, held[k], more[i]) {
        assert HasRankBelow(ranks, held[k], ranks[i]);
      }
    }
  }

  lemma RankOfOpaque(t: Table, ranks: seq<nat>, x: nat)
    requires Ranked(t, ranks) && IsMutable(t, x) && t.nodes[x].opaque_
    ensures ranks[x] == 0 && (x in t.constMap ==> t.constMap[x] < |ranks| && ranks[t.constMap[x]] == 0)
  {
  }

  // ---------------------------------------------------------------- the meaning of types stays

  lemma {:induction false} TreeKept(t: Table, u: Table, i: nat)
    requires Canonical(t) && Canonical(u) && Extends(t, u) && i < |t.nodes|
    ensures Tree(u, i) == Tree(t, i)
    decreases i
  {
    if IsConst(t, i) {
      assert MutuallyInverse(t, i) && MutuallyInverse(u, i) && Copied(t, t.mutMap[i], i);
      TreeKept(t, u, t.mutMap[i]);
    } else {
      assert Filed(t, i) && Filed(u, i);
      match t.nodes[i].key
      case FunctionKey(result, params) =>
        TreeKept(t, u, result);
        forall k | 0 <= k < |params| ensures Tree(u, params[k]) == Tree(t, params[k]) { TreeKept(t, u, params[k]); }
        assert Tree(u, i).params == Tree(t, i).params;
      case BuiltinKey(_) =>
      case UserKey(_) =>
      case _ => TreeKept(t, u, SubtypeOf(t.nodes[i].key));
    }
  }

  lemma ConstTree(t: Table, x: nat)
    requires Canonical(t) && IsMutable(t, x) && x in t.constMap
    ensures IsConst(t, t.constMap[x]) && GetMutable(t, t.constMap[x]) == x
        && Tree(t, t.constMap[x]) == ConstOf(Tree(t, x))
  {
    var c := t.constMap[x];
    assert Copied(t, x, c) && MutuallyInverse(t, c);
  }

  // ---------------------------------------------------------------- bodies and const types

  /** In table `u`, type `x` has got the body that it has not in table `t`. */
  ghost predicate GetsBody(t: Table, x: nat, items: seq<nat>, u: Table) {
    IsMutable(t, x) && t.nodes[x].opaque_ && items != [] && u == WithBody(t, x, items)
  }

  /** What the operations of the manager do to its table. */
  ghost predicate TableStep(t: Table, u: Table) {
    (Extends(t, u) && CopiesFollow(t, u)) || exists x: nat, items :: GetsBody(t, x, items, u)
  }

  lemma BodyIsStep(t: Table, x: nat, items: seq<nat>, u: Table)
    requires GetsBody(t, x, items, u)
    ensures TableStep(t, u)
  {
  }

  /** Type `x` had no body in table `t0` and has one in `u`; a const form of it is opaque if it was there before. */
  ghost predicate BodiedSince(t0: Table, u: Table, x: nat) {
    && IsMutable(u, x) && !u.nodes[x].opaque_ && u.nodes[x].key.UserKey?
    && (x in t0.constMap ==> x in u.constMap)
    && (x in u.constMap ==> IsConst(u, u.constMap[x]) && (u.nodes[u.constMap[x]].opaque_ <==> x in t0.constMap))
  }

  lemma BodyLeavesTheCopy(t: Table, x: nat, items: seq<nat>, u: Table)
    requires Canonical(t) && GetsBody(t, x, items, u)
    ensures BodiedSince(t, u, x)
  {
    assert Filed(t, x);
    if x in t.constMap {
      assert Copied(t, x, t.constMap[x]) && MutuallyInverse(t, t.constMap[x]);
    }
  }

  lemma StaysBodied(t0: Table, u: Table, v: Table, x: nat)
    requires Canonical(v) && TableStep(u, v) && BodiedSince(t0, u, x)
    ensures BodiedSince(t0, v, x)
  {
    if x in v.constMap { assert Copied(v, x, v.constMap[x]); }
    if Extends(u, v) && CopiesFollow(u, v) {
      if x in v.constMap && x !in u.constMap { assert CopyFollows(v, x, v.constMap[x]); }
    } else {
      var y: nat, items :| GetsBody(u, y, items, v);
      assert y != x;
    }
  }

  /**
   A const type is sized exactly if it was made after its type got its body.  Over any run of the
   manager: once `x` has a body, its const form is without a size if and only if it was there before.
   */
  lemma {:induction false} ConstSizedExactly(run: seq<Table>, k: nat, j: nat, x: nat, items: seq<nat>)
    requires k < j < |run| && GetsBody(run[k], x, items, run[k + 1])
    requires forall i | 0 <= i < |run| :: Canonical(run[i])
    requires forall i | 0 <= i < |run| - 1 :: TableStep(run[i], run[i + 1])
    ensures BodiedSince(run[k], run[j], x) && !IsUnsized(run[j].nodes[x])
    ensures x in run[j].constMap ==> (IsUnsized(run[j].nodes[run[j].constMap[x]]) <==> x in run[k].constMap)
    decreases j
  {
    hide Canonical, TableStep, GetsBody;
    if j == k + 1 {
      BodyLeavesTheCopy(run[k], x, items, run[j]);
    } else {
      ConstSizedExactly(run, k, j - 1, x, items);
      assert TableStep(run[j - 1], run[j - 1 + 1]);
      StaysBodied(run[k], run[j - 1], run[j], x);
    }
    if x in run[j].constMap { ConstHasKey(run[j], x); }
  }

  lemma OpaqueIsUser(t: Table, x: nat)
    requires Canonical(t) && IsMutable(t, x) && t.nodes[x].opaque_
    ensures t.nodes[x].key.UserKey?
  {
    assert Filed(t, x);
  }

  lemma ConstHasKey(t: Table, x: nat)
    requires Canonical(t) && x in t.constMap
    ensures IsMutable(t, x) && IsConst(t, t.constMap[x]) && t.nodes[t.constMap[x]].key == t.nodes[x].key
  {
    assert Copied(t, x, t.constMap[x]);
  }

  class TypeManager {
    var nodes: seq<Node>
    var interned: map<Key, nat>
    var constMap: map<nat, nat>
    var mutMap: map<nat, nat>
    ghost var ranks: seq<nat>

    ghost function State(): Table
      reads this
    {
      Table(nodes, interned, constMap, mutMap)
    }

    ghost predicate Valid()
      reads this
    {
      Canonical(State()) && Ranked(State(), ranks)
    }

    constructor ()
      ensures Valid()
      ensures |nodes| == |Builtins|
      ensures forall i | 0 <= i < |Builtins| :: nodes[i].key == Builtins[i] && !nodes[i].isConst
      ensures forall key <- interned :: key in Builtins
      ensures forall i | 2 <= i < |Builtins| :: !IsUnsized(nodes[i])
    {
      hide InternedOnce, ConstsPaired, Ranked, Extends, TableStep, HasRankBelow, Copied;
      nodes := [];
      interned := map[];
      constMap := map[];
      mutMap := map[];
      ranks := [];
      new;
      EmptyTable();
      assert State() == Table([], map[], map[], map[]);
      for i := 0 to |Builtins|
        invariant Valid() && |nodes| == i && mutMap == map[] && constMap == map[]
        invariant forall k | 0 <= k < i :: nodes[k].key == Builtins[k] && !nodes[k].isConst
        invariant forall key <- interned :: key in Builtins[..i]
        invariant forall k | 0 <= k < i :: !nodes[k].opaque_ && (k >= 2 ==> !IsUnsized(nodes[k]))
      {
        BuiltinsDiffer(i);
        var type_ := Make(Builtins[i], NoUser, false, if i < 2 then 0 else 1);
      }
    }

    // -------------------------------------------------------------- interning

    /** A new mutable type. */
    method Make(key: Key, user: UserKind, opaque_: bool, ghost rank: nat) returns (type_: nat)
      requires Valid() && key !in interned && Below(key, |nodes|) && (opaque_ ==> key.UserKey?)
      requires rank == 0 <==> opaque_ || key == BuiltinKey(Auto) || key == BuiltinKey(Void)
      requires key.ArrayKey? ==> HasRankBelow(ranks, key.element, rank)
      modifies this
      ensures Valid() && Extends(old(State()), State()) && old(ranks) <= ranks
      ensures type_ == |old(nodes)| && nodes == old(nodes) + [Node(key, user, false, opaque_, SubtypeOf(key), [])]
      ensures interned == old(interned)[key := type_] && constMap == old(constMap) && mutMap == old(mutMap)
    {
      ghost var t, n := State(), Node(key, user, false, opaque_, SubtypeOf(key), []);
      NewTypeIsInterned(t, n);
      NewTypeKeepsPairs(t, n, {});
      NewTypeIsRanked(t, n, ranks, rank);
      type_ := |nodes|;
      nodes := nodes + [Node(key, user, false, opaque_, SubtypeOf(key), [])];
      interned := interned[key := type_];
      ranks := ranks + [rank];
      assert State() == WithType(t, n);
    }

    method Intern(key: Key) returns (type_: nat)
      requires Valid() && Below(key, |nodes|) && !key.BuiltinKey? && !key.UserKey?
      requires key.ArrayKey? ==> key.element < |nodes| && ranks[key.element] > 0
      modifies this
      ensures Valid() && Extends(old(State()), State()) && old(ranks) <= ranks
      ensures TableStep(old(State()), State())
      ensures IsMutable(State(), type_) && nodes[type_].key == key
    {
      if key in interned {
        type_ := interned[key];
      } else {
        type_ := Make(key, NoUser, false, if key.ArrayKey? then ranks[key.element] + 1 else 1);
      }
    }

    // -------------------------------------------------------------- const

    ghost predicate ValidBut(pending: set<nat>)
      reads this
    {
      && InternedOnce(State()) && ConstsPaired(State(), pending) && Ranked(State(), ranks)
    }

    /**
     The const form of a type.  The copy is kept before its contents are made const; that they never
     lead back to it is what the ranks are for.
     */
    method MakeConst(type_: nat, ghost pending: set<nat>) returns (c: nat)
      requires ValidBut(pending) && type_ < |nodes|
      requires forall p <- pending :: p < |ranks| && ranks[type_] < ranks[p]
      modifies this
      ensures ValidBut(pending) && Extends(old(State()), State()) && old(ranks) <= ranks
      ensures interned == old(interned) && HasConst(State(), type_) && c == ConstOfType(State(), type_)
      ensures CopiesFollow(old(State()), State())
      decreases ranks[type_], 2
    {
      hide InternedOnce, ConstsPaired, Ranked, ConstCopy, Filed, HeldBelow, CopiesFollow, Extends, ExtendsBut, Held;
      FollowsItself(State());
      if nodes[type_].isConst { return type_; }
      if type_ in constMap { return constMap[type_]; }
      ghost var start, oldRanks := State(), ranks;
      RanksCover(start, ranks);
      NewCopyExtends(start, type_);
      NewCopyKeepsPairs(start, type_, pending);
      NewCopyIsRanked(start, type_, ranks);
      c := |nodes|;
      nodes := nodes + [nodes[type_].(isConst := true)];
      constMap := constMap[type_ := c];
      ranks := ranks + [ranks[type_]];
      assert State() == WithCopy(start, type_);
      CopyIsFollowed(start, type_);
      ghost var copied := State();
      SetConst(type_, c, pending + {c});
      CopiesFollowThen(start, copied, State());
      PairFollows(start, State(), c, type_);
      CopyIsThere(start, State(), type_, pending);
      NewPairKeeps(State(), c, type_, pending, ranks);
      mutMap := mutMap[c := type_];
    }

    /** Makes the contents of the copy `c` of `x` const: the elements of an array, the members of a struct or union. */
    method SetConst(x: nat, c: nat, ghost pending: set<nat>)
      requires ValidBut(pending) && c in pending && IsMutable(State(), x) && x in constMap && constMap[x] == c
      requires c < |nodes| && nodes[c] == nodes[x].(isConst := true)
      requires forall p <- pending :: p < |ranks| && ranks[x] <= ranks[p]
      modifies this
      ensures ValidBut(pending) && ExtendsBut(old(State()), State(), c) && old(ranks) <= ranks
      ensures interned == old(interned) && ConstCopy(State(), c, x) && CopiesFollow(old(State()), State())
      decreases ranks[x], 1
    {
      hide InternedOnce, ConstsPaired, Ranked, Filed, HeldBelow, ConstCopy, CopiesFollow;
      FollowsItself(State());
      ghost var start := State();
      MutableContents(start, ranks, x);
      ConstIsRanked(start, ranks, x);
      if nodes[c].key.ArrayKey? {
        var element := MakeConst(nodes[c].subtype, pending);
        ghost var before := State();
        RanksCover(before, ranks);
        ArrayMade(start, before, c, x, pending, ranks);
        nodes := nodes[c := nodes[c].(subtype := element)];
        assert State() == WithContents(before, c, element, []);
      } else if nodes[c].user == Struct || nodes[c].user == Class || nodes[c].user == Union {
        SetConstItems(x, c, pending);
      } else {
        NothingToCopy(State(), c, x);
      }
    }

    method SetConstItems(x: nat, c: nat, ghost pending: set<nat>)
      requires ValidBut(pending) && c in pending && IsMutable(State(), x) && x in constMap && constMap[x] == c
      requires c < |nodes| && nodes[c] == nodes[x].(isConst := true) && !nodes[x].key.ArrayKey?
      requires forall p <- pending :: p < |ranks| && ranks[x] <= ranks[p]
      modifies this
      ensures ValidBut(pending) && ExtendsBut(old(State()), State(), c) && old(ranks) <= ranks
      ensures interned == old(interned) && ConstCopy(State(), c, x) && CopiesFollow(old(State()), State())
      decreases ranks[x], 0
    {
      hide InternedOnce, ConstsPaired, Ranked, Filed, HeldBelow, ConstCopy, ConstItem, ItemsCopied, CopiesFollow;
      hide CopyingItems, Extends, ExtendsBut, Held;
      ghost var start, oldRanks := State(), ranks;
      MutableContents(start, ranks, x);
      CopyingStarts(start, c, x);
      ConstIsRanked(start, ranks, x);
      for i := 0 to |nodes[c].items|
        invariant ValidBut(pending) && oldRanks <= ranks && c < |nodes| == |ranks|
        invariant CopyingItems(start, State(), c, x, i) && |nodes[c].items| == |start.nodes[x].items|
      {
        ghost var before := State();
        CopiedSoFar(start, before, c, x, i);
        var item := MakeConst(nodes[c].items[i], pending);
        ghost var after := State();
        CopyingStays(start, before, after, c, x, i);
        CopiedSoFar(start, after, c, x, i);
        CopyingGoesOn(start, after, c, x, i, pending, ranks);
        nodes := nodes[c := nodes[c].(items := nodes[c].items[i := item])];
        assert State() == WithContents(after, c, after.nodes[c].subtype, after.nodes[c].items[i := item]);
        RanksCover(State(), ranks);
        CopiedSoFar(start, State(), c, x, i + 1);
      }
      CopiedSoFar(start, State(), c, x, |nodes[c].items|);
      AllItemsCopied(State(), c, x);
    }

    method GetConst(type_: nat) returns (c: nat)
      requires Valid() && type_ < |nodes|
      modifies this
      ensures Valid() && Extends(old(State()), State()) && old(ranks) <= ranks && interned == old(interned)
      ensures IsConst(State(), c)
      ensures Tree(State(), c) == if old(nodes[type_].isConst) then old(Tree(State(), type_))
          else ConstOf(old(Tree(State(), type_)))
      ensures !old(nodes[type_].isConst) ==>
          GetMutable(State(), c) == type_ && type_ in constMap
          && constMap[type_] == c
      ensures TableStep(old(State()), State())
      ensures !old(nodes[type_].isConst) && type_ !in old(constMap) ==> nodes[c].opaque_ == old(nodes[type_].opaque_)
      ensures type_ in old(constMap) ==> c == old(constMap[type_]) && nodes[c] == old(nodes[constMap[type_]])
    {
      ghost var before := State();
      c := MakeConst(type_, {});
      TreeKept(before, State(), type_);
      if !nodes[type_].isConst { ConstTree(State(), type_); }
      if type_ in before.constMap { ConstHasKey(before, type_); }
    }

    method GetMutableType(type_: nat) returns (m: nat)
      requires Valid() && type_ < |nodes|
      ensures m == GetMutable(State(), type_)
      ensures IsConst(State(), type_) ==> m in constMap && constMap[m] == type_
    {
      if !nodes[type_].isConst { return type_; }
      assert MutuallyInverse(State(), type_);
      m := mutMap[type_];
    }

    // -------------------------------------------------------------- arrays and user types

    /** An array type of the program; None stands for a reported error. */
    method ArrayType(element: nat, size: Option<int>) returns (type_: Option<nat>)
      requires Valid() && element < |nodes|
      modifies this
      ensures Valid() && Extends(old(State()), State()) && old(ranks) <= ranks
      ensures TableStep(old(State()), State())
      ensures
        var n := old(nodes[element]);
        type_.Some? <==>
          !n.opaque_ && n.key != BuiltinKey(Auto) && n.key != BuiltinKey(Void) && (size.Some? ==> size.value > 0)
      ensures type_.None? ==> State() == old(State())
      ensures type_.Some? ==> IsMutable(State(), type_.value)
      ensures type_.Some? ==> nodes[type_.value].key == ArrayKey(element, if size.Some? then size.value else 0)
    {
      if IsUnsized(nodes[element]) || (size.Some? && size.value <= 0) { return None; }
      SizedHasRank(State(), ranks, element);
      var array_ := Intern(ArrayKey(element, if size.Some? then size.value else 0));
      type_ := Some(array_);
    }

    /** A struct, class or union without its body; None if the name is taken. */
    method DeclareUser(name: string, user: UserKind) returns (type_: Option<nat>)
      requires Valid() && (user == Struct || user == Class || user == Union)
      modifies this
      ensures Valid() && Extends(old(State()), State()) && old(ranks) <= ranks
      ensures TableStep(old(State()), State())
      ensures type_.None? <==> UserKey(name) in old(interned)
      ensures type_.None? ==> State() == old(State())
      ensures type_.Some? ==>
          IsMutable(State(), type_.value)
          && nodes[type_.value] == Node(UserKey(name), user, false, true, 0, [])
    {
      if UserKey(name) in interned { return None; }
      var made := Make(UserKey(name), user, true, 0);
      type_ := Some(made);
    }

    /** An enumeration, unless its name is taken, a member is named twice, or there are no members. */
    method CreateEnum(name: string, members: seq<string>) returns (type_: Option<nat>)
      requires Valid()
      modifies this
      ensures Valid() && Extends(old(State()), State()) && old(ranks) <= ranks
      ensures TableStep(old(State()), State())
      ensures type_.Some? <==>
        && UserKey(name) !in old(interned) && members != []
        && forall i, j | 0 <= i < j < |members| :: members[i] != members[j]
      ensures type_.None? ==> State() == old(State())
      ensures type_.Some? ==>
          IsMutable(State(), type_.value)
          && nodes[type_.value] == Node(UserKey(name), Enum, false, false, 0, [])
    {
      hide InternedOnce, ConstsPaired, Ranked;
      if UserKey(name) in interned { return None; }
      var names, valid := {}, true;
      for i := 0 to |members|
        invariant names == (set n <- members[..i]) && (valid <==> Distinct(members[..i]))
      {
        if members[i] in names {
          valid := false;
        }
        names := names + {members[i]};
        assert members[..i + 1] == members[..i] + [members[i]];
      }
      assert members[..|members|] == members;
      if !valid || members == [] { return None; }
      var made := Make(UserKey(name), Enum, false, 1);
      type_ := Some(made);
    }

    /**
     The members of one group are taken over, unless their type has no size, or only a class may have
     such members; names that are taken are left out.  Errors are reported by `valid`.
     */
    method AddMembers(inClass: bool, group: MemberGroup, structVector: seq<(string, nat)>, memberNames: set<string>)
      returns (valid: bool, members: seq<(string, nat)>, names: set<string>)
      requires group.type_ < |nodes| && forall m <- structVector :: m.1 < |nodes| && !IsUnsized(nodes[m.1])
      requires forall m <- structVector :: m.0 in memberNames
      requires forall i, j | 0 <= i < j < |structVector| :: structVector[i].0 != structVector[j].0
      ensures forall m <- members :: m.1 < |nodes| && !IsUnsized(nodes[m.1])
      ensures forall m <- members :: m.0 in names
      ensures forall i, j | 0 <= i < j < |members| :: members[i].0 != members[j].0
      ensures structVector <= members && forall m <- members[|structVector|..] :: m.1 == group.type_
      ensures
        var n := nodes[group.type_];
        valid <==>
          && !n.opaque_ && n.key != BuiltinKey(Auto) && n.key != BuiltinKey(Void) && (inClass || !group.special)
          && (forall i, j | 0 <= i < j < |group.names| :: group.names[i] != group.names[j])
          && forall name <- group.names :: name !in memberNames
      ensures !Allowed(inClass, group) ==> members == structVector && names == memberNames
      ensures Allowed(inClass, group) ==> names == memberNames + (set n <- group.names)
      ensures valid ==> |members| == |structVector| + |group.names|
      ensures valid ==> forall k | 0 <= k < |group.names| :: members[|structVector| + k].0 == group.names[k]
    {
      hide InternedOnce, ConstsPaired, Ranked, IsUnsized, Extends;
      members, names := structVector, memberNames;
      UnsizedIs(nodes[group.type_]);
      if IsUnsized(nodes[group.type_]) || (!inClass && group.special) { return false, members, names; }
      valid := true;
      assert group.names[..0] == [];
      for i := 0 to |group.names|
        invariant Added(structVector, memberNames, group, i, members, names, valid)
      {
        var name := group.names[i];
        AddsOne(structVector, memberNames, group, i, members, names, valid);
        if name in names {
          valid := false;
        } else {
          names := names + {name};
          members := members + [(name, group.type_)];
        }
      }
      assert group.names[..|group.names|] == group.names;
      forall m | m in members ensures m.1 < |nodes| && !IsUnsized(nodes[m.1]) {
        assert m in structVector || m in members[|structVector|..];
      }
    }

    predicate Allowed(inClass: bool, group: MemberGroup)
      requires group.type_ < |nodes|
      reads this
    {
      !IsUnsized(nodes[group.type_]) && (inClass || !group.special)
    }

    /** Gives a type its body, unless the body is empty. */
    method SetBody(type_: nat, structure: seq<(string, nat)>)
      requires Valid() && IsMutable(State(), type_) && nodes[type_].opaque_
      requires nodes[type_].user == Struct || nodes[type_].user == Class || nodes[type_].user == Union
      requires forall m <- structure :: m.1 < |nodes| && !IsUnsized(nodes[m.1])
      modifies this
      ensures Valid() && interned == old(interned) && constMap == old(constMap) && mutMap == old(mutMap)
      ensures structure == [] ==> nodes == old(nodes)
      ensures structure != [] ==> GetsBody(old(State()), type_, Members(structure), State())
      ensures TableStep(old(State()), State())
      ensures structure != []
        ==> nodes == old(nodes)[type_ := old(nodes[type_]).(opaque_ := false, items := Members(structure))]
    {
      FollowsItself(State());
      if structure == [] { return; }
      ghost var t, items := State(), Members(structure);
      BodyKeeps(t, type_, items, ranks);
      nodes := nodes[type_ := nodes[type_].(opaque_ := false, items := Members(structure))];
      ranks := BodyRanks(t, type_, items, ranks);
      assert State() == WithBody(t, type_, items);
      BodyIsStep(t, type_, items, State());
    }
  }

  /**
   Both ways to get there: a const form asked for before the body is without a size, one asked for afterwards only
   has one.
   */
  method ConstAroundBody(manager: TypeManager, type_: nat, structure: seq<(string, nat)>, before: bool)
    returns (const_: nat)
    requires manager.Valid() && IsMutable(manager.State(), type_) && manager.nodes[type_].opaque_
    requires manager.nodes[type_].user in {Struct, Class, Union} && type_ !in manager.constMap && structure != []
    requires forall m <- structure :: m.1 < |manager.nodes| && !IsUnsized(manager.nodes[m.1])
    modifies manager
    ensures manager.Valid() && IsConst(manager.State(), const_) && GetMutable(manager.State(), const_) == type_
    ensures !IsUnsized(manager.nodes[type_])
    ensures IsUnsized(manager.nodes[const_]) <==> before
  {
    hide InternedOnce, ConstsPaired, Ranked, Tree, TypeManager.ValidBut, TableStep;
    OpaqueIsUser(manager.State(), type_);
    if before {
      const_ := manager.GetConst(type_);
    }
    manager.SetBody(type_, structure);
    const_ := manager.GetConst(type_);
    ConstHasKey(manager.State(), type_);
  }
}
