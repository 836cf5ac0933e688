/** The number of bytes that `new` asks for. */
module NewSizes {
  import opened Options
  import opened Numeric

  const Int64 := IntType(64, false)

  /** The length of an array type under `new`: none, a constant, or a value computed at run time. */
  datatype Length = Missing | Constant(n: int) | Runtime(t: NumType, raw: int)

  datatype NewType = Element(allocSize: nat) | ArrayOf(element: NewType, length: Length)

  predicate WellTyped(t: NewType) {
    match t
    case Element(size) => size < Pow(64)
    case ArrayOf(element, length) =>
      && WellTyped(element)
      && (length.Runtime? ==> IsRaw(length.t, length.raw))
      && (length.Constant? ==> -0x8000_0000_0000_0000 <= length.n < 0x8000_0000_0000_0000)
  }

  /** A constant length that is not positive is an error. */
  predicate IsError(t: NewType) {
    t.ArrayOf? && (IsError(t.element) || (t.length.Constant? && t.length.n <= 0))
  }

  function ConstantLengths(t: NewType): seq<int> {
    if t.Element? then []
    else ConstantLengths(t.element) + (if t.length.Constant? then [t.length.n] else [])
  }

  lemma {:induction false} ErrorsExactly(t: NewType)
    ensures IsError(t) <==> exists n <- ConstantLengths(t) :: n <= 0
  {
    if t.ArrayOf? {
      ErrorsExactly(t.element);
      if t.length.Constant? { assert t.length.n in ConstantLengths(t); }
      assert forall n <- ConstantLengths(t.element) :: n in ConstantLengths(t);
    }
  }

  function Lengths(length: Length): int
    requires length.Runtime? ==> IsRaw(length.t, length.raw)
  {
    match length
    case Missing => 1
    case Constant(n) => n
    case Runtime(t, raw) => Value(t, raw)
  }

  /** The size of the element, times all the lengths. */
  function Product(t: NewType): int
    requires WellTyped(t)
  {
    match t
    case Element(size) => size
    case ArrayOf(element, length) => Product(element) * Lengths(length)
  }

  datatype RValue = RValue(t: NumType, raw: int)

  predicate IsBytes(v: RValue) {
    v.t.IntType? && v.t.width == 64 && IsRaw(v.t, v.raw)
  }

  /** The length that the outermost array type leaves behind: a constant as 64 bits, a computed one in its own type. */
  function OuterLength(t: NewType): (v: RValue)
    requires WellTyped(t)
    ensures IsRaw(v.t, v.raw)
    ensures t.ArrayOf? && !IsError(t) && !t.length.Missing? ==> Value(v.t, v.raw) == Lengths(t.length)
  {
    match t
    case Element(_) => RValue(Int32, 1)
    case ArrayOf(element, Missing) => OuterLength(element)
    case ArrayOf(_, Constant(n)) => if n > 0 then RValue(Int64, n) else RValue(Int64, 0)
    case ArrayOf(_, Runtime(length, raw)) => RValue(length, raw)
  }

  class DataTypeNew {
    var sizeBytes: RValue
    var sizeArr: RValue

    constructor ()
    {
      sizeBytes, sizeArr := RValue(Int64, 0), RValue(Int64, 0);
    }

    method SetSize(size: RValue)
      requires IsBytes(sizeBytes) && IsRaw(size.t, size.raw)
      modifies this
      ensures sizeArr == size && IsBytes(sizeBytes)
      ensures sizeBytes.raw == (old(sizeBytes.raw) * Value(size.t, size.raw)) % Pow(64)
    {
      sizeArr := size;
      BytesTimes(sizeBytes, size);
      sizeBytes := RValue(OperationType(sizeBytes.t, size.t),
                          BinaryOp(Mul, sizeBytes.t, sizeBytes.raw, size.t, size.raw));
    }

    /** Computes the bytes modulo the width of an address, and leaves the outermost length behind. */
    method Visit(t: NewType) returns (ok: bool)
      requires WellTyped(t)
      modifies this
      ensures ok <==> !IsError(t)
      ensures ok <==> forall n <- ConstantLengths(t) :: n > 0
      ensures ok ==> IsBytes(sizeBytes) && sizeBytes.raw == Product(t) % Pow(64)
      ensures ok ==> sizeArr == OuterLength(t)
      decreases t
    {
      ErrorsExactly(t);
      if t.Element? {
        sizeBytes := RValue(Int64, t.allocSize);
        sizeArr := RValue(Int32, 1);
        return true;
      }
      ok := Visit(t.element);
      if !ok { return; }
      ghost var p := Product(t.element);
      if t.length.Constant? {
        if t.length.n <= 0 { return false; }
        SetSize(RValue(Int64, t.length.n));
        TimesModulo(p, t.length.n);
      } else if t.length.Runtime? {
        SetSize(RValue(t.length.t, t.length.raw));
        TimesModulo(p, Lengths(t.length));
      }
    }
  }

  lemma TimesModulo(p: int, n: int)
    ensures ((p % Pow(64)) * n) % Pow(64) == (p * n) % Pow(64)
  {
    ApplyModulo(Mul, p % Pow(64), n % Pow(64), p, n, Pow(64));
    ApplyModulo(Mul, p % Pow(64), n % Pow(64), p % Pow(64), n, Pow(64));
  }

  /** A product with 64 bits does not care for the sign of its operands. */
  lemma BytesTimes(bytes: RValue, size: RValue)
    requires IsBytes(bytes) && IsRaw(size.t, size.raw)
    ensures OperationType(bytes.t, size.t).IntType? && OperationType(bytes.t, size.t).width == 64
    ensures BinaryOp(Mul, bytes.t, bytes.raw, size.t, size.raw) == (bytes.raw * Value(size.t, size.raw)) % Pow(64)
  {
    var t := OperationType(bytes.t, size.t);
    var a, b := CastTo(bytes.t, t, bytes.raw), CastTo(size.t, t, size.raw);
    CastKeepsValue(bytes.t, t, bytes.raw);
    CastKeepsValue(size.t, t, size.raw);
    ApplyModulo(Mul, a, b, bytes.raw, Value(size.t, size.raw), Pow(64));
  }
}
