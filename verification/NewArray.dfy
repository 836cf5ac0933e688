/**
 Arrays made by `new`: the bytes that are asked for, and the elements that are constructed in them.

 Both come from one length: the bytes from its value, the loop's end from its bits.
 */
module NewArrays {
  import opened Options
  import opened Numeric
  import opened NewSizes
  import Arrays = ArrayLoops

  /** The type of an array of a class, under `new`; elements have `size` bytes. */
  function ArrayType(size: nat, length: Length): NewType {
    ArrayOf(Element(size), length)
  }

  /**
   Computes the bytes, and emits the constructor loop for the elements; `array_` is the register of the memory
   that was asked for, `count` the one of the length.
   */
  method NewExpression(runner: DataTypeNew, emitter: Arrays.Emitter, size: nat, length: Length, array_: nat, count: nat)
    returns (ok: bool)
    requires WellTyped(ArrayType(size, length)) && emitter.Valid()
    modifies runner, emitter
    ensures ok <==> (length.Constant? ==> length.n > 0)
    ensures ok ==> IsBytes(runner.sizeBytes) && runner.sizeBytes.raw == (size * Lengths(length)) % Pow(64)
    ensures ok ==> runner.sizeArr == OuterLength(ArrayType(size, length)) && emitter.Valid()
    ensures ok ==>
      emitter.code == Arrays.WithConstructorLoop(old(emitter.code), old(emitter.currBlock), old(emitter.nextBlock),
                                                 old(emitter.nextReg), array_, count, runner.sizeArr.t.width)
  {
    ok := runner.Visit(ArrayType(size, length));
    if ok { emitter.CallConstructor(array_, count, runner.sizeArr.t.width); }
  }

  /**
   What the emitted code does with the memory.  It constructs exactly the elements that were asked for if and only if
   there is one or they have a size, and the length is reached; and it stays within the bytes that were asked for if
   and only if the length is reached.
   */
  lemma NewArrayRuns(size: nat, length: Length, code: Arrays.Code, start: nat, block: nat, reg: nat, array_: nat,
                     count: nat, from: nat, before: Arrays.Machine, m: Arrays.Machine)
    returns (k: nat)
    requires WellTyped(ArrayType(size, length)) && !IsError(ArrayType(size, length))
    requires start in code && m == Arrays.ExecAll(code[start].insts, from, size, before) && start < block
    requires array_ < reg && count < reg && 0 <= Arrays.Reg(m, array_) < Arrays.SPACE
    requires Arrays.Reg(m, count) == OuterLength(ArrayType(size, length)).raw
    requires Lengths(length) >= 1 && Lengths(length) * size < Arrays.SPACE
    ensures
      var width := OuterLength(ArrayType(size, length)).t.width;
      var whole := Arrays.WithConstructorLoop(code, start, block, reg, array_, count, width);
      var r := Arrays.Run(whole, start, from, size, before, k + 1);
      r.Some? && r.value.trace == m.trace + Arrays.Elements(Arrays.Reg(m, array_), size, 0, k)
    ensures
      var v, bytes := OuterLength(ArrayType(size, length)), (size * Lengths(length)) % Pow(64);
      && bytes == size * Lengths(length)
      && (k == Lengths(length) <==> (size > 0 || Lengths(length) == 1) && Arrays.Reaches(v.t, v.raw, size))
      && (k * size <= bytes <==> Arrays.Reaches(v.t, v.raw, size))
    ensures !length.Runtime? ==> (k == Lengths(length) <==> size > 0 || Lengths(length) == 1)
  {
    hide Arrays.Run, Arrays.ExecAll, Arrays.WithConstructorLoop, Arrays.Elements, Arrays.Reaches;
    var v, n := OuterLength(ArrayType(size, length)), Lengths(length);
    k := Arrays.ConstructorRuns(code, start, block, reg, array_, count, v.t, from, size, before, m, n);
    Within(k, n, size);
    FixedLengthsReached(size, length);
  }

  /** Lengths that are not computed at run time are reached, and so is any if elements have no size. */
  lemma FixedLengthsReached(size: nat, length: Length)
    requires WellTyped(ArrayType(size, length)) && !IsError(ArrayType(size, length))
    ensures
      var v := OuterLength(ArrayType(size, length));
      !length.Runtime? || size == 0 ==> Arrays.Reaches(v.t, v.raw, size)
  {
  }

  lemma Within(k: nat, n: nat, size: nat)
    ensures size > 0 && k > n ==> k * size > n * size
    ensures size > 0 && k == n ==> k * size <= n * size
    ensures size == 0 ==> k * size == 0 && n * size == 0
    ensures size * n == n * size
  {
    if size > 0 && k > n { AtLeast(k - n, size); }
  }

  /** An unsigned length with its top bit set is too short for the loop: 200 objects of 8 bytes, for a `uint8`. */
  lemma NarrowLengthOverruns(code: Arrays.Code, start: nat, block: nat, reg: nat, array_: nat, count: nat, from: nat,
                             before: Arrays.Machine, m: Arrays.Machine)
    returns (k: nat)
    requires start in code && m == Arrays.ExecAll(code[start].insts, from, 8, before) && start < block
    requires array_ < reg && count < reg && 0 <= Arrays.Reg(m, array_) < Arrays.SPACE && Arrays.Reg(m, count) == 200
    ensures
      var length := Runtime(IntType(8, true), 200);
      && WellTyped(ArrayType(8, length)) && !IsError(ArrayType(8, length)) && Lengths(length) == 200
      && OuterLength(ArrayType(8, length)) == RValue(IntType(8, true), 200)
    ensures
      var whole := Arrays.WithConstructorLoop(code, start, block, reg, array_, count, 8);
      var r := Arrays.Run(whole, start, from, 8, before, k + 1);
      r.Some? && r.value.trace == m.trace + Arrays.Elements(Arrays.Reg(m, array_), 8, 0, k)
    ensures k == 0x2000_0000_0000_0000 - 56
  {
    hide Arrays.Run, Arrays.ExecAll, Arrays.WithConstructorLoop;
    k := Arrays.ConstructorHits(code, start, block, reg, array_, count, 8, from, 8, before, m);
    var last := 0x2000_0000_0000_0000 - 56;
    assert Arrays.Hits(8, -56, last);
    assert forall j | 0 < j < last :: !Arrays.Hits(8, -56, j);
  }
}
