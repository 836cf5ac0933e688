/** Numeric types: the common type of two operands, casts between integers, and compound assignment. */
module Numeric {
  datatype NumType = IntType(width: nat, unsigned: bool) | FloatType(isDouble: bool)

  const BoolType := IntType(1, true)
  const Int32 := IntType(32, false)

  predicate IsNumeric(t: NumType) {
    t.FloatType? || t == BoolType || t.width == 8 || t.width == 16 || t.width == 32 || t.width == 64
  }

  predicate IsInt(t: NumType) {
    t.IntType? && IsNumeric(t)
  }

  /** The number of bits without the sign. */
  function Bits(t: NumType): int
    requires t.IntType?
  {
    t.width - (if t.unsigned then 0 else 1)
  }

  function NumericConv(l: NumType, r: NumType, int32min: bool): NumType {
    if l.FloatType? || r.FloatType? then
      FloatType((l.FloatType? && l.isDouble) || (r.FloatType? && r.isDouble))
    else if Bits(l) > Bits(r) then
      if int32min && Bits(l) < 31 then Int32 else l
    else
      if int32min && Bits(r) < 31 then Int32 else r
  }

  // ---------------------------------------------------------------- a join

  /** The order of the numeric types: integers by their bits, then the floating types. */
  function Rank(t: NumType): int {
    if t.FloatType? then (if t.isDouble then 66 else 65) else Bits(t)
  }

  /** The common type is the upper of the two, and with `int32min` the upper of the three. */
  lemma ConvIsJoin(l: NumType, r: NumType, t: NumType)
    requires IsNumeric(l) && IsNumeric(r) && IsNumeric(t)
    ensures var c := NumericConv(l, r, false);
      IsNumeric(c) && (Rank(c) <= Rank(t) <==> Rank(l) <= Rank(t) && Rank(r) <= Rank(t))
    ensures var c := NumericConv(l, r, true);
      l.IntType? && r.IntType?
      ==> IsNumeric(c) && (Rank(c) <= Rank(t) <==> Rank(l) <= Rank(t) && Rank(r) <= Rank(t) && Rank(Int32) <= Rank(t))
    ensures Rank(l) == Rank(r) ==> l == r
  {
  }

  function Max(a: int, b: int): int {
    if a < b then b else a
  }

  lemma ConvRank(l: NumType, r: NumType, int32min: bool)
    requires IsNumeric(l) && IsNumeric(r)
    ensures var c := NumericConv(l, r, int32min);
      IsNumeric(c) && Rank(c) == Max(Max(Rank(l), Rank(r)), if int32min then 31 else 0)
  {
  }

  lemma SameRank(l: NumType, r: NumType)
    requires IsNumeric(l) && IsNumeric(r) && Rank(l) == Rank(r)
    ensures l == r
  {
  }

  lemma ConvLaws(a: NumType, b: NumType, c: NumType, min: bool)
    requires IsNumeric(a) && IsNumeric(b) && IsNumeric(c)
    ensures NumericConv(a, a, false) == a
    ensures NumericConv(a, b, min) == NumericConv(b, a, min)
    ensures NumericConv(NumericConv(a, b, min), c, min) == NumericConv(a, NumericConv(b, c, min), min)
    ensures NumericConv(a, b, true) == NumericConv(NumericConv(a, b, false), Int32, false)
  {
    hide NumericConv, IsNumeric, Rank;
    ConvRank(a, b, min);
    ConvRank(b, a, min);
    SameRank(NumericConv(a, b, min), NumericConv(b, a, min));
    ConvRank(NumericConv(a, b, min), c, min);
    ConvRank(b, c, min);
    ConvRank(a, NumericConv(b, c, min), min);
    SameRank(NumericConv(NumericConv(a, b, min), c, min), NumericConv(a, NumericConv(b, c, min), min));
    RanksAtEnds(a);
    ConvRank(a, a, false);
    SameRank(NumericConv(a, a, false), a);
    ConvRank(a, b, true);
    ConvRank(a, b, false);
    ConvRank(NumericConv(a, b, false), Int32, false);
    SameRank(NumericConv(a, b, true), NumericConv(NumericConv(a, b, false), Int32, false));
  }

  lemma RanksAtEnds(a: NumType)
    requires IsNumeric(a)
    ensures Rank(a) > 0 && IsNumeric(Int32) && Rank(Int32) == 31
  {
  }

  // ---------------------------------------------------------------- values and casts

  function Pow(width: nat): nat {
    if width == 1 then 2
    else if width == 8 then 0x100
    else if width == 16 then 0x1_0000
    else if width == 32 then 0x1_0000_0000
    else 0x1_0000_0000_0000_0000
  }

  /** The bits of a value of the type. */
  predicate IsRaw(t: NumType, raw: int) {
    IsInt(t) && 0 <= raw < Pow(t.width)
  }

  /** The number that the bits stand for. */
  function Value(t: NumType, raw: int): int
    requires IsRaw(t, raw)
  {
    if t.unsigned || raw < Pow(t.width) / 2 then raw else raw - Pow(t.width)
  }

  /** It is the one number in the range of the type that is equal to the bits modulo the width. */
  lemma ValueExactly(t: NumType, raw: int, v: int)
    requires IsRaw(t, raw)
    ensures
      var least := if t.unsigned then 0 else -(Pow(t.width) / 2);
      v == Value(t, raw) <==> least <= v < least + Pow(t.width) && v % Pow(t.width) == raw
  {
    var m := Pow(t.width);
    if v % m == raw {
      assert v == (v / m) * m + raw;
      var q := v / m;
      if q >= 1 { AtLeast(q, m); }
      if q <= -2 { AtLeast(-q - 1, m); }
    }
    if v == Value(t, raw) { ModIs(v, if v == raw then 0 else -1, raw, m); }
  }

  /** Zero extension, sign extension or truncation, by the type that is cast from. */
  function NumericCast(from: NumType, to: NumType, raw: int): int
    requires IsRaw(from, raw) && IsInt(to)
  {
    if to.width > from.width then
      if from.unsigned || raw < Pow(from.width) / 2 then raw else raw + Pow(to.width) - Pow(from.width)
    else if to.width < from.width then raw % Pow(to.width)
    else raw
  }

  /** The cast of an assignment: to bool, whether the value is not zero. */
  function CastTo(from: NumType, to: NumType, raw: int): int
    requires IsRaw(from, raw) && IsInt(to)
  {
    if from == to then raw
    else if to == BoolType then (if raw != 0 then 1 else 0)
    else NumericCast(from, to, raw)
  }

  lemma ModOfDifference(a: int, b: int, q: int, m: nat)
    requires m > 0 && a == b + q * m
    ensures a % m == b % m
  {
    var r := b - (b / m) * m;
    assert b == (b / m) * m + b % m;
    assert a == ((b / m) + q) * m + b % m;
    ModIs(a, (b / m) + q, b % m, m);
  }

  lemma ModIs(a: int, q: int, r: int, m: nat)
    requires m > 0 && 0 <= r < m && a == q * m + r
    ensures a % m == r
  {
    Divided(a, m);
    Distinct(a / m, a % m, q, r, m);
  }

  lemma Divided(a: int, m: nat)
    requires m > 0
    ensures a == (a / m) * m + a % m && 0 <= a % m < m
  {
  }

  /** Quotient and remainder are unique. */
  lemma Distinct(k: int, s: int, q: int, r: int, m: nat)
    requires 0 <= r < m && 0 <= s < m && k * m + s == q * m + r
    ensures r == s
  {
    var d := q - k;
    assert d * m == s - r;
    assert (-d) * m == -(d * m);
    if d >= 1 { AtLeast(d, m); }
    if d <= -1 { AtLeast(-d, m); }
  }

  lemma AtLeast(d: int, m: nat)
    requires d >= 1
    ensures d * m >= m
  {
  }

  /** A cast keeps the value modulo the width of the type that is cast to. */
  lemma CastKeepsValue(from: NumType, to: NumType, raw: int)
    requires IsRaw(from, raw) && IsInt(to)
    ensures IsRaw(to, NumericCast(from, to, raw))
    ensures NumericCast(from, to, raw) == Value(from, raw) % Pow(to.width)
    ensures IsRaw(to, CastTo(from, to, raw))
    ensures to != BoolType ==> CastTo(from, to, raw) == Value(from, raw) % Pow(to.width)
    ensures to == BoolType ==> (CastTo(from, to, raw) == 1 <==> Value(from, raw) != 0)
  {
    var v, m := Value(from, raw), Pow(to.width);
    if to.width < from.width {
      var q := Quotient(from.width, to.width);
      ModOfDifference(raw, v, if v == raw then 0 else q, m);
    } else {
      var n := NumericCast(from, to, raw);
      PowsRise(from.width, to.width);
      ModIs(v, if v == n then 0 else -1, n, m);
    }
  }

  /** How often the smaller power goes into the larger one. */
  lemma Quotient(wide: nat, narrow: nat) returns (q: nat)
    requires IsInt(IntType(wide, true)) && IsInt(IntType(narrow, true)) && narrow < wide
    ensures Pow(wide) == q * Pow(narrow)
  {
    q := Pow(wide) / Pow(narrow);
  }

  lemma PowsRise(a: nat, b: nat)
    requires IsInt(IntType(a, true)) && IsInt(IntType(b, true)) && a <= b
    ensures Pow(a) <= Pow(b)
  {
  }

  predicate KeepsAllValues(from: NumType, to: NumType)
    requires IsInt(from) && IsInt(to)
  {
    forall raw | 0 <= raw < Pow(from.width) :: CastKeeps(from, to, raw)
  }

  predicate CastKeeps(from: NumType, to: NumType, raw: int)
    requires IsRaw(from, raw) && IsInt(to)
  {
    CastKeepsValue(from, to, raw);
    Value(to, CastTo(from, to, raw)) == Value(from, raw)
  }

  /** All values are kept exactly by the casts up the order that do not lose a sign. */
  lemma CastsUpKeepValues(from: NumType, to: NumType)
    requires IsInt(from) && IsInt(to)
    ensures KeepsAllValues(from, to) <==> Bits(from) <= Bits(to) && (from.unsigned || !to.unsigned)
  {
    var most, half := Pow(from.width) - 1, Pow(from.width) / 2 - 1;
    if KeepsAllValues(from, to) {
      assert CastKeeps(from, to, most) && (half >= 0 ==> CastKeeps(from, to, half));
    } else if Bits(from) <= Bits(to) && (from.unsigned || !to.unsigned) {
      forall raw | 0 <= raw < Pow(from.width) ensures CastKeeps(from, to, raw) { CastKeepsValue(from, to, raw); }
    }
  }

  // ---------------------------------------------------------------- compound assignment

  datatype Op = Add | Sub | Mul

  function Apply(op: Op, a: int, b: int): int {
    match op
    case Add => a + b
    case Sub => a - b
    case Mul => a * b
  }

  /** The type in which two operands are combined: their own, if it is the same. */
  function OperationType(l: NumType, r: NumType): NumType {
    if l == r then l else NumericConv(l, r, true)
  }

  /** Both operands are cast to the common type, where the operation wraps around. */
  function BinaryOp(op: Op, lt: NumType, l: int, rt: NumType, r: int): (raw: int)
    requires IsRaw(lt, l) && IsRaw(rt, r)
    ensures IsRaw(OperationType(lt, rt), raw)
  {
    var t := OperationType(lt, rt);
    CastKeepsValue(lt, t, l);
    CastKeepsValue(rt, t, r);
    Apply(op, CastTo(lt, t, l), CastTo(rt, t, r)) % Pow(t.width)
  }

  /** What `x op= y` stores in `x`. */
  function Stored(op: Op, xt: NumType, x: int, yt: NumType, y: int): int
    requires IsRaw(xt, x) && IsRaw(yt, y)
  {
    CastTo(OperationType(xt, yt), xt, BinaryOp(op, xt, x, yt, y))
  }

  /** The operation on values that are equal modulo `m` gives values that are. */
  lemma ApplyModulo(op: Op, a: int, b: int, c: int, d: int, m: nat)
    requires m > 0 && a == c % m && b == d % m
    ensures Apply(op, a, b) % m == Apply(op, c, d) % m
  {
    var p, q := c / m, d / m;
    assert c == p * m + a && d == q * m + b;
    match op
    case Add =>
      assert c + d == (a + b) + (p + q) * m;
      ModOfDifference(c + d, a + b, p + q, m);
    case Sub =>
      assert c - d == (a - b) + (p - q) * m;
      ModOfDifference(c - d, a - b, p - q, m);
    case Mul =>
      var k := p * q * m + p * b + a * q;
      assert c * d == (p * m + a) * (q * m + b);
      assert (p * m + a) * (q * m + b) == p * m * (q * m) + p * m * b + a * (q * m) + a * b;
      assert c * d == a * b + k * m;
      ModOfDifference(c * d, a * b, k, m);
  }

  /** Computing in a wider type and cutting off afterwards is computing modulo the narrower one. */
  lemma CutOff(n: int, wide: nat, narrow: nat)
    requires wide == 8 || wide == 16 || wide == 32 || wide == 64
    requires narrow == 8 || narrow == 16 || narrow == 32 || narrow == 64
    requires narrow <= wide
    ensures (n % Pow(wide)) % Pow(narrow) == n % Pow(narrow)
  {
    var big, small := Pow(wide), Pow(narrow);
    var factor := big / small;
    assert big == factor * small;
    var q := n / big;
    assert n == n % big + q * big;
    assert q * big == (q * factor) * small;
    ModOfDifference(n, n % big, q * factor, small);
  }

  /** `x op= y` stores the result of the operation modulo the width of `x`, whatever the integer type of `y`. */
  lemma CompoundAssignment(op: Op, xt: NumType, x: int, yt: NumType, y: int)
    requires IsRaw(xt, x) && IsRaw(yt, y)
    ensures
      var a, b := Value(xt, x), Value(yt, y);
      var exact := match op case Add => a + b case Sub => a - b case Mul => a * b;
      var stored := Stored(op, xt, x, yt, y);
      && (xt != BoolType ==> stored == exact % Pow(xt.width))
      && (xt == BoolType && yt == BoolType ==> stored == exact % 2)
      && (xt == BoolType && yt != BoolType ==> (stored == 1 <==> exact % Pow(OperationType(xt, yt).width) != 0))
  {
    var t := OperationType(xt, yt);
    var m := Pow(t.width);
    CastKeepsValue(xt, t, x);
    CastKeepsValue(yt, t, y);
    if t != BoolType {
      ApplyModulo(op, CastTo(xt, t, x), CastTo(yt, t, y), Value(xt, x), Value(yt, y), m);
      var result := BinaryOp(op, xt, x, yt, y);
      assert result == Apply(op, Value(xt, x), Value(yt, y)) % m;
      CastKeepsValue(t, xt, result);
      if xt != BoolType {
        assert xt.width <= t.width;
        CutOff(Apply(op, Value(xt, x), Value(yt, y)), t.width, xt.width);
      }
    }
  }
}
