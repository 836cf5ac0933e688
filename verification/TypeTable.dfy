/**
 The table of types: every type is made once, and kept by what it is made of.

 A type is named by its place in the table.  Const types are copies, kept by the type they are copies of.
 */
module TypeTable {
  datatype Builtin = Auto | Void | Bool | Int(width: nat, unsigned: bool) | Float(double: bool)

  datatype UserKind = NoUser | Struct | Class | Union | Enum

  /** What a type is made of. */
  datatype Key =
    | BuiltinKey(b: Builtin)
    | ArrayKey(element: nat, size: nat)
    | PointerKey(to: nat)
    | ReferenceKey(to: nat)
    | CopyRefKey(to: nat)
    | FunctionKey(result: nat, params: seq<nat>)
    | UserKey(name: string)

  /** `subtype` and `items` are read through: those of a const type are const themselves. */
  datatype Node = Node(key: Key, user: UserKind, isConst: bool, opaque_: bool, subtype: nat, items: seq<nat>)

  /** `interned` stands for the maps of arrays, pointers, references, copy references, functions and user types. */
  datatype Table = Table(nodes: seq<Node>, interned: map<Key, nat>, constMap: map<nat, nat>, mutMap: map<nat, nat>)

  function SubtypeOf(key: Key): nat {
    match key
    case ArrayKey(element, _) => element
    case PointerKey(to) => to
    case ReferenceKey(to) => to
    case CopyRefKey(to) => to
    case FunctionKey(result, _) => result
    case _ => 0
  }

  predicate IsUnsized(n: Node) {
    n.opaque_ || n.key == BuiltinKey(Auto) || n.key == BuiltinKey(Void)
  }

  /** The types that a value of the type holds by value. */
  function Held(n: Node): seq<nat> {
    if n.key.ArrayKey? then [n.subtype] else n.items
  }

  predicate Below(key: Key, i: nat) {
    match key
    case ArrayKey(element, _) => element < i
    case PointerKey(to) => to < i
    case ReferenceKey(to) => to < i
    case CopyRefKey(to) => to < i
    case FunctionKey(result, params) => result < i && forall k | 0 <= k < |params| :: params[k] < i
    case _ => true
  }

  // ---------------------------------------------------------------- canonical tables

  predicate IsConst(t: Table, i: nat) {
    i < |t.nodes| && t.nodes[i].isConst
  }

  predicate IsMutable(t: Table, i: nat) {
    i < |t.nodes| && !t.nodes[i].isConst
  }

  /** Mutable types are in the table under what they are made of, and there only once. */
  ghost predicate InternedOnce(t: Table) {
    && (forall key <- t.interned :: IsMutable(t, t.interned[key]) && t.nodes[t.interned[key]].key == key)
    && (forall i: nat | IsMutable(t, i) :: Filed(t, i))
  }

  predicate Filed(t: Table, i: nat)
    requires i < |t.nodes|
  {
    var n := t.nodes[i];
    && n.key in t.interned && t.interned[n.key] == i
    && Below(n.key, i) && n.subtype == SubtypeOf(n.key)
    && (n.opaque_ || !n.key.UserKey? ==> n.items == []) && (n.opaque_ ==> n.key.UserKey?)
    && (n.items != [] ==> n.user == Struct || n.user == Class || n.user == Union)
  }

  /** The const form of a type, which is there. */
  predicate HasConst(t: Table, i: nat) {
    i < |t.nodes| && (t.nodes[i].isConst || i in t.constMap)
  }

  function ConstOfType(t: Table, i: nat): nat
    requires HasConst(t, i)
  {
    if t.nodes[i].isConst then i else t.constMap[i]
  }

  /** The const type `c` is the type `x`, with const contents if it has any. */
  ghost predicate ConstCopy(t: Table, c: nat, x: nat) {
    && c < |t.nodes| && x < |t.nodes|
    && var n, m := t.nodes[c], t.nodes[x];
      && (n.opaque_ ==> n.items == []) && (!n.opaque_ ==> !m.opaque_)
      && (if n.key.ArrayKey? then HasConst(t, m.subtype)
          && n.subtype == ConstOfType(t, m.subtype) else n.subtype == m.subtype)
      && (!n.opaque_ ==> |n.items| == |m.items|)
      && (!n.opaque_ ==> forall k | 0 <= k < |n.items| :: ConstItem(t, n.items[k], m.items[k]))
  }

  ghost predicate ConstItem(t: Table, c: nat, x: nat) {
    HasConst(t, x) && c == ConstOfType(t, x)
  }

  ghost predicate Copied(t: Table, x: nat, c: nat) {
    && IsMutable(t, x) && IsConst(t, c) && x < c
    && t.nodes[c].key == t.nodes[x].key && t.nodes[c].user == t.nodes[x].user
  }

  ghost predicate MutuallyInverse(t: Table, c: nat) {
    c in t.mutMap && t.mutMap[c] in t.constMap && t.constMap[t.mutMap[c]] == c && ConstCopy(t, c, t.mutMap[c])
  }

  /** The two maps are inverse to each other, but for the const types that are still being made. */
  ghost predicate ConstsPaired(t: Table, pending: set<nat>) {
    && (forall x <- t.constMap :: Copied(t, x, t.constMap[x]))
    && (forall x <- t.constMap ::
        t.constMap[x] in pending
        || (t.constMap[x] in t.mutMap && t.mutMap[t.constMap[x]] == x))
    && (forall x, y | x in t.constMap && y in t.constMap && t.constMap[x] == t.constMap[y] :: x == y)
    && (forall c: nat | IsConst(t, c) && c !in pending :: MutuallyInverse(t, c))
    && (forall c <- t.mutMap :: IsConst(t, c) && c !in pending)
    && (forall c <- pending :: IsConst(t, c) && c !in t.mutMap)
  }

  /**
   Ranks that show by-value containment to be well founded.  Rank 0 is for the types without a size, and
   a const type has the rank of the type it is a copy of.
   */
  ghost predicate Ranked(t: Table, ranks: seq<nat>) {
    && |ranks| == |t.nodes|
    && (forall i: nat | IsMutable(t, i) :: ranks[i] == 0 <==> IsUnsized(t.nodes[i]))
    && (forall x <- t.constMap :: IsMutable(t, x) && IsConst(t, t.constMap[x]) && ranks[t.constMap[x]] == ranks[x])
    && (forall i | 0 <= i < |t.nodes| :: HeldBelow(t, ranks, i))
  }

  ghost predicate HeldBelow(t: Table, ranks: seq<nat>, i: nat)
    requires i < |t.nodes| == |ranks|
  {
    var held := Held(t.nodes[i]);
    forall k | 0 <= k < |held| :: HasRankBelow(ranks, held[k], ranks[i])
  }

  predicate HasRankBelow(ranks: seq<nat>, h: nat, rank: nat) {
    h < |ranks| && 0 < ranks[h] < rank
  }

  ghost predicate Canonical(t: Table) {
    InternedOnce(t) && ConstsPaired(t, {})
  }

  // ---------------------------------------------------------------- what a type means

  /** A type written out. */
  datatype TypeTree =
    | Basic(b: Builtin)
    | ArrayOf(element: TypeTree, size: nat)
    | PointerTo(to: TypeTree)
    | ReferenceTo(to: TypeTree)
    | CopyRefTo(to: TypeTree)
    | FunctionOf(result: TypeTree, params: seq<TypeTree>)
    | Named(name: string)
    | ConstOf(t: TypeTree)

  function Tree(t: Table, i: nat): TypeTree
    requires Canonical(t) && i < |t.nodes|
    decreases i
  {
    var n := t.nodes[i];
    if n.isConst then
      assert MutuallyInverse(t, i) && Copied(t, t.mutMap[i], t.constMap[t.mutMap[i]]);
      ConstOf(Tree(t, t.mutMap[i]))
    else
      assert Filed(t, i);
      match n.key
      case BuiltinKey(b) => Basic(b)
      case ArrayKey(element, size) => ArrayOf(Tree(t, element), size)
      case PointerKey(to) => PointerTo(Tree(t, to))
      case ReferenceKey(to) => ReferenceTo(Tree(t, to))
      case CopyRefKey(to) => CopyRefTo(Tree(t, to))
      case FunctionKey(result, params) => FunctionOf(Tree(t, result),
                                                     seq(|params|, k requires 0 <= k < |params| => Tree(t, params[k])))
      case UserKey(name) => Named(name)
  }

  /** Equal types are one type: comparing pointers compares types. */
  lemma {:induction false} EqualTreesAreOneType(t: Table, a: nat, b: nat)
    requires Canonical(t) && a < |t.nodes| && b < |t.nodes| && Tree(t, a) == Tree(t, b)
    ensures a == b
    decreases a
  {
    if IsConst(t, a) {
      assert MutuallyInverse(t, a) && MutuallyInverse(t, b);
      assert Copied(t, t.mutMap[a], a);
      EqualTreesAreOneType(t, t.mutMap[a], t.mutMap[b]);
    } else {
      assert Filed(t, a) && Filed(t, b);
      match t.nodes[a].key
      case FunctionKey(result, params) =>
        var others := t.nodes[b].key.params;
        EqualTreesAreOneType(t, result, t.nodes[b].key.result);
        assert |params| == |Tree(t, a).params| == |others|;
        forall k | 0 <= k < |params| ensures params[k] == others[k] {
          assert Tree(t, a).params[k] == Tree(t, params[k]) && Tree(t, b).params[k] == Tree(t, others[k]);
          EqualTreesAreOneType(t, params[k], others[k]);
        }
        assert params == others;
      case BuiltinKey(_) =>
      case UserKey(_) =>
      case _ => EqualTreesAreOneType(t, SubtypeOf(t.nodes[a].key), SubtypeOf(t.nodes[b].key));
    }
  }

  // ---------------------------------------------------------------- equality but for const

  function GetMutable(t: Table, i: nat): (m: nat)
    requires Canonical(t) && i < |t.nodes|
    ensures IsMutable(t, m)
    ensures Tree(t, i) == if IsConst(t, i) then ConstOf(Tree(t, m)) else Tree(t, m)
  {
    if t.nodes[i].isConst then
      assert MutuallyInverse(t, i) && Copied(t, t.mutMap[i], i);
      t.mutMap[i]
    else i
  }

  /** Const taken away at the top, and through pointers and arrays. */
  function Erase(tree: TypeTree): TypeTree {
    match tree
    case ConstOf(inner) => Erase(inner)
    case PointerTo(to) => PointerTo(Erase(to))
    case ArrayOf(element, size) => ArrayOf(Erase(element), size)
    case _ => tree
  }

  predicate IsPointer(n: Node) {
    n.key.PointerKey?
  }

  predicate IsArray(n: Node) {
    n.key.ArrayKey?
  }

  function SizeOf(n: Node): nat {
    if n.key.ArrayKey? then n.key.size else 0
  }

  /** What a const type is a copy of. */
  lemma CopyFacts(t: Table, c: nat)
    requires Canonical(t) && IsConst(t, c)
    ensures MutuallyInverse(t, c) && Copied(t, t.mutMap[c], c) && Filed(t, t.mutMap[c])
  {
    assert MutuallyInverse(t, c);
    assert Copied(t, t.mutMap[c], c);
  }

  /** What stands below a pointer or an array, const or not. */
  lemma ErasedSubtype(t: Table, i: nat)
    requires Canonical(t) && i < |t.nodes| && (IsPointer(t.nodes[i]) || IsArray(t.nodes[i]))
    ensures var n := t.nodes[i];
      && n.subtype < |t.nodes|
      && Erase(Tree(t, i)) == (if IsPointer(n) then PointerTo(Erase(Tree(t, n.subtype)))
                               else ArrayOf(Erase(Tree(t, n.subtype)), n.key.size))
  {
    hide InternedOnce, ConstsPaired;
    if IsConst(t, i) {
      CopyFacts(t, i);
      var element := t.nodes[t.mutMap[i]].subtype;
      if IsArray(t.nodes[i]) && !IsConst(t, element) {
        ConstIsCopy(t, element);
        CopyFacts(t, t.constMap[element]);
      }
    } else {
      FiledThere(t, i);
    }
  }

  lemma ConstIsCopy(t: Table, x: nat)
    requires Canonical(t) && x in t.constMap
    ensures Copied(t, x, t.constMap[x]) && t.constMap[x] in t.mutMap && t.mutMap[t.constMap[x]] == x
  {
    assert Copied(t, x, t.constMap[x]);
  }

  lemma FiledThere(t: Table, i: nat)
    requires Canonical(t) && IsMutable(t, i)
    ensures Filed(t, i)
  {
  }

  /** Whether two types differ only in const. */
  predicate IsConstEQ(t: Table, l: nat, r: nat)
    requires Canonical(t) && l < |t.nodes| && r < |t.nodes|
    decreases Erase(Tree(t, l))
  {
    var m, n := t.nodes[l], t.nodes[r];
    if (IsPointer(m) && IsPointer(n)) || (IsArray(m) && IsArray(n)) then
      ErasedSubtype(t, l);
      ErasedSubtype(t, r);
      SizeOf(m) == SizeOf(n) && IsConstEQ(t, m.subtype, n.subtype)
    else
      GetMutable(t, l) == GetMutable(t, r)
  }

  /** They do exactly when they are equal once const is erased. */
  lemma {:induction false} ConstEQIsErasedEquality(t: Table, l: nat, r: nat)
    requires Canonical(t) && l < |t.nodes| && r < |t.nodes|
    ensures IsConstEQ(t, l, r) <==> Erase(Tree(t, l)) == Erase(Tree(t, r))
    decreases Erase(Tree(t, l))
  {
    var m, n := t.nodes[l], t.nodes[r];
    if (IsPointer(m) && IsPointer(n)) || (IsArray(m) && IsArray(n)) {
      ErasedSubtype(t, l);
      ErasedSubtype(t, r);
      ConstEQIsErasedEquality(t, m.subtype, n.subtype);
    } else {
      ErasedTop(t, l);
      ErasedTop(t, r);
      var a, b := GetMutable(t, l), GetMutable(t, r);
      if Tree(t, a) == Tree(t, b) { EqualTreesAreOneType(t, a, b); }
    }
  }

  lemma ErasedTop(t: Table, i: nat)
    requires Canonical(t) && i < |t.nodes|
    ensures var n, tree := t.nodes[i], Erase(Tree(t, i));
      && (IsPointer(n) <==> tree.PointerTo?) && (IsArray(n) <==> tree.ArrayOf?)
      && (!IsPointer(n) && !IsArray(n) ==> tree == Tree(t, GetMutable(t, i)))
      && t.nodes[GetMutable(t, i)].key == n.key
  {
    if IsConst(t, i) {
      assert MutuallyInverse(t, i) && Copied(t, t.mutMap[i], i) && Filed(t, t.mutMap[i]);
    } else {
      assert Filed(t, i);
    }
  }

  /**
   Told by the table: const at the top makes no difference; pointers and arrays of one length are compared by what
   they point to or hold; any other two types have to be one.
   */
  lemma ConstEQExactly(t: Table, l: nat, r: nat)
    requires Canonical(t) && l < |t.nodes| && r < |t.nodes|
    ensures l in t.constMap ==>
      t.constMap[l] < |t.nodes| && (IsConstEQ(t, t.constMap[l], r) <==> IsConstEQ(t, l, r))
    ensures IsMutable(t, l) && IsMutable(t, r) ==>
      match (t.nodes[l].key, t.nodes[r].key)
      case (PointerKey(a), PointerKey(b)) =>
        a < |t.nodes| && b < |t.nodes| && (IsConstEQ(t, l, r) <==> IsConstEQ(t, a, b))
      case (ArrayKey(a, n), ArrayKey(b, m)) =>
        a < |t.nodes| && b < |t.nodes| && (IsConstEQ(t, l, r) <==> n == m && IsConstEQ(t, a, b))
      case _ => IsConstEQ(t, l, r) <==> l == r
  {
    hide Erase, InternedOnce, ConstsPaired;
    if l in t.constMap {
      ConstIsCopy(t, l);
      ErasedConst(t, l);
      ConstEQIsErasedEquality(t, t.constMap[l], r);
      ConstEQIsErasedEquality(t, l, r);
    }
    if IsMutable(t, l) && IsMutable(t, r) {
      FiledThere(t, l);
      FiledThere(t, r);
    }
  }

  lemma ErasedConst(t: Table, x: nat)
    requires Canonical(t) && x in t.constMap
    ensures t.constMap[x] < |t.nodes| && x < |t.nodes| && Erase(Tree(t, t.constMap[x])) == Erase(Tree(t, x))
  {
    ConstIsCopy(t, x);
  }

  lemma ConstEQIsEquivalence(t: Table, a: nat, b: nat, c: nat)
    requires Canonical(t) && a < |t.nodes| && b < |t.nodes| && c < |t.nodes|
    ensures IsConstEQ(t, a, a)
    ensures IsConstEQ(t, a, b) ==> IsConstEQ(t, b, a)
    ensures IsConstEQ(t, a, b) && IsConstEQ(t, b, c) ==> IsConstEQ(t, a, c)
  {
    ConstEQIsErasedEquality(t, a, a);
    ConstEQIsErasedEquality(t, a, b);
    ConstEQIsErasedEquality(t, b, a);
    ConstEQIsErasedEquality(t, b, c);
    ConstEQIsErasedEquality(t, a, c);
  }

  /**
   Const on an array and const on its elements make one type of two names: their elements are the same
   const type, and they differ only in const, but they are two types.
   */
  lemma ConstArraysStayTwo(t: Table, a: nat, b: nat, element: TypeTree, size: nat)
    requires Canonical(t) && a < |t.nodes| && b < |t.nodes|
    requires Tree(t, a) == ConstOf(ArrayOf(element, size)) && Tree(t, b) == ConstOf(ArrayOf(ConstOf(element), size))
    ensures a != b && IsConstEQ(t, a, b) && t.nodes[a].subtype == t.nodes[b].subtype
  {
    hide InternedOnce, ConstsPaired, IsConstEQ, Tree;
    TopIsConst(t, a);
    TopIsConst(t, b);
    ElementOfConstArray(t, a);
    ElementOfConstArray(t, b);
    EqualTreesAreOneType(t, t.nodes[a].subtype, t.nodes[b].subtype);
    assert Erase(ArrayOf(ConstOf(element), size)) == ArrayOf(Erase(element), size) == Erase(ArrayOf(element, size));
    ConstEQIsErasedEquality(t, a, b);
  }

  lemma TopIsConst(t: Table, a: nat)
    requires Canonical(t) && a < |t.nodes|
    ensures IsConst(t, a) <==> Tree(t, a).ConstOf?
    ensures IsConst(t, a) ==> !Tree(t, a).t.ConstOf?
  {
    if IsConst(t, a) {
      assert MutuallyInverse(t, a) && Copied(t, t.mutMap[a], a);
    }
  }

  lemma ElementOfConstArray(t: Table, a: nat)
    requires Canonical(t) && IsConst(t, a) && Tree(t, a).ConstOf? && Tree(t, a).t.ArrayOf?
    ensures t.nodes[a].subtype < |t.nodes|
    ensures
      var element := Tree(t, a).t.element;
      && Tree(t, t.nodes[a].subtype) == (if element.ConstOf? then element else ConstOf(element))
      && (element.ConstOf? ==> !element.t.ConstOf?)
  {
    var x := t.mutMap[a];
    assert MutuallyInverse(t, a) && Copied(t, x, a) && Filed(t, x);
    var inner := t.nodes[x].subtype;
    TopIsConst(t, inner);
    if !IsConst(t, inner) {
      var c := t.constMap[inner];
      assert Copied(t, inner, c) && MutuallyInverse(t, c);
    }
  }

  // ---------------------------------------------------------------- by-value containment

  /** Each type of the path holds the next one by value. */
  predicate ContainmentPath(t: Table, path: seq<nat>) {
    && path != []
    && (forall i | 0 <= i < |path| :: path[i] < |t.nodes|)
    && (forall i | 0 <= i < |path| - 1 :: path[i + 1] in Held(t.nodes[path[i]]))
  }

  /** No type holds itself by value, however far down: paths are at most as long as ranks are high. */
  lemma {:induction false} ContainmentIsWellFounded(t: Table, ranks: seq<nat>, path: seq<nat>)
    requires Ranked(t, ranks) && ContainmentPath(t, path)
    ensures |path| <= ranks[path[0]] + 1
    ensures forall i | 0 < i < |path| :: path[i] != path[0] && ranks[path[i]] < ranks[path[0]]
  {
    if |path| > 1 {
      assert HeldBelow(t, ranks, path[0]) && path[0 + 1] in Held(t.nodes[path[0]]);
      assert HasRankBelow(ranks, path[1], ranks[path[0]]);
      var rest := path[1..];
      forall i | 0 <= i < |rest| - 1 ensures rest[i + 1] in Held(t.nodes[rest[i]]) {
        assert path[(i + 1) + 1] in Held(t.nodes[path[i + 1]]);
      }
      ContainmentIsWellFounded(t, ranks, rest);
      assert forall i | 1 < i < |path| :: path[i] == rest[i - 1];
    }
  }
}
