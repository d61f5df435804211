/**
 * The problem generator: one arithmetic problem from a category and the
 * numeric policy. The random source is abstract: every `range(min, max)`
 * call of the generator consumes one natural-number draw, and the problem's
 * random identifier is supplied as an opaque string.
 */
module MathUtils {
  import opened Types
  import opened Decimal

  /** Digit widths forwarded for long multiplication (`longMulti.m1`, `longMulti.m2`). */
  datatype LongMulti = LongMulti(m1: int, m2: int)

  datatype GeneratorOptions = GeneratorOptions(
    allowNegatives: bool,
    wholeNumberDivision: bool,
    longMulti: LongMulti)

  /** The random input of one generator call: the two range draws and the problem id. */
  datatype Rolls = Rolls(first: nat, second: nat, id: string)

  /**
   * `range(lo, hi)`: an integer of [lo, hi] chosen by the draw `roll`.
   * The uniform float draw of the source becomes an arbitrary natural number.
   */
  function Range(lo: int, hi: int, roll: nat): (r: int)
    requires lo <= hi
    ensures lo <= r <= hi
  {
    lo + roll % (hi - lo + 1)
  }

  /** No value of the range is out of reach of the draw. */
  lemma RangeReachesEveryValue(lo: int, hi: int, v: int)
    requires lo <= v <= hi
    ensures Range(lo, hi, v - lo) == v
  {
  }

  /** `n` has exactly `d` decimal digits. */
  predicate HasDigits(n: int, d: int) {
    d >= 1 && Pow10(d - 1) <= n <= Pow10(d) - 1
  }

  /** `range(10^(d-1), 10^d - 1)`: a number with exactly `d` digits. */
  function DrawDigits(d: int, roll: nat): (n: int)
    requires d >= 1
    ensures HasDigits(n, d)
  {
    Range(Pow10(d - 1), Pow10(d) - 1, roll)
  }

  /** The smallest divisor: `Math.max(2, 10^(d-1))`. */
  function DivisorLow(d: int): (lo: nat)
    requires d >= 1
    ensures lo >= 2 && lo >= Pow10(d - 1)
    ensures lo == 2 || lo == Pow10(d - 1)
  {
    if Pow10(d - 1) > 2 then Pow10(d - 1) else 2
  }

  /** The divisor draw: `range(max(2, 10^(d-1)), 10^d - 1)`. */
  function DrawDivisor(d: int, roll: nat): (n2: int)
    requires d >= 1
    ensures 2 <= n2 <= Pow10(d) - 1 && Pow10(d - 1) <= n2
  {
    assert Pow10(d) == 10 * Pow10(d - 1);
    Range(DivisorLow(d), Pow10(d) - 1, roll)
  }

  /** The largest whole-number quotient: `Math.floor((10^d - 1) / n2)`. */
  function QuotientMax(d: int, n2: int): (q: int)
    requires d >= 1 && n2 >= 1
    ensures q * n2 <= Pow10(d) - 1 < (q + 1) * n2
  {
    (Pow10(d) - 1) / n2
  }

  /**
   * What the generator needs of its inputs: digit widths of at least one
   * where a width is used, and, for whole-number division, a quotient range
   * [2, QuotientMax] that is not empty for the divisor drawn.
   */
  predicate CanGenerate(subtype: ProblemSubtype, options: GeneratorOptions, rolls: Rolls) {
    match subtype.operation
    case Addition => subtype.digitsTop >= 1 && subtype.digitsBottom >= 1
    case Subtraction => subtype.digitsTop >= 1 && subtype.digitsBottom >= 1
    case Multiplication =>
      subtype.id == "mul_long" ==> options.longMulti.m1 >= 1 && options.longMulti.m2 >= 1
    case Division =>
      && subtype.digitsTop >= 1
      && subtype.digitsBottom >= 1
      && (options.wholeNumberDivision ==>
            QuotientMax(subtype.digitsTop, DrawDivisor(subtype.digitsBottom, rolls.first)) >= 2)
  }

  /**
   * A category the generator can serve for every draw: the conditions of
   * CanGenerate with the quotient range checked against the largest
   * divisor, 10^digitsBottom - 1, which leaves the smallest quotient range.
   */
  predicate Feasible(subtype: ProblemSubtype, options: GeneratorOptions) {
    match subtype.operation
    case Addition => subtype.digitsTop >= 1 && subtype.digitsBottom >= 1
    case Subtraction => subtype.digitsTop >= 1 && subtype.digitsBottom >= 1
    case Multiplication =>
      subtype.id == "mul_long" ==> options.longMulti.m1 >= 1 && options.longMulti.m2 >= 1
    case Division =>
      && subtype.digitsTop >= 1
      && subtype.digitsBottom >= 1
      && (options.wholeNumberDivision ==>
            QuotientMax(subtype.digitsTop, Pow10(subtype.digitsBottom) - 1) >= 2)
  }

  /** A feasible category never meets an empty range, whatever the draws. */
  lemma FeasibleCanGenerate(subtype: ProblemSubtype, options: GeneratorOptions, rolls: Rolls)
    requires Feasible(subtype, options)
    ensures CanGenerate(subtype, options, rolls)
  {
    if subtype.operation == Division && options.wholeNumberDivision {
      var dt, db := subtype.digitsTop, subtype.digitsBottom;
      var top, widest := Pow10(dt) - 1, Pow10(db) - 1;
      var n2 := DrawDivisor(db, rolls.first);
      var q := QuotientMax(dt, widest);
      MultiplyMonotone(widest, 2, q);
      QuotientAtLeastTwo(top, n2, widest);
    }
  }

  lemma QuotientAtLeastTwo(top: int, n2: int, widest: int)
    requires 1 <= n2 <= widest && 2 * widest <= top
    ensures top / n2 >= 2
  {
    DivMod(top, n2);
  }

  /**
   * The answer is the true result of the operation on the operands; for
   * division, answer * num2 + remainder == num1 with 0 <= remainder < num2,
   * and no remainder field only when the division is exact.
   */
  predicate IsCorrect(p: MathProblem) {
    && p.answer.NumberAnswer?
    && match p.operation
       case Addition => p.answer.value == p.num1 + p.num2 && p.remainder == None
       case Subtraction => p.answer.value == p.num1 - p.num2 && p.remainder == None
       case Multiplication => p.answer.value == p.num1 * p.num2 && p.remainder == None
       case Division =>
         && p.num2 > 0
         && (p.remainder.None? ==> p.answer.value * p.num2 == p.num1)
         && (p.remainder.Some? ==>
               && 0 <= p.remainder.value < p.num2
               && p.answer.value * p.num2 + p.remainder.value == p.num1)
  }

  /** `generateProblem(subtype, options)`. */
  function GenerateProblem(subtype: ProblemSubtype, options: GeneratorOptions, rolls: Rolls): (p: MathProblem)
    requires CanGenerate(subtype, options, rolls)
    ensures p.id == rolls.id && p.operation == subtype.operation && p.subtype == subtype.id
    ensures IsCorrect(p)
  {
    match subtype.operation
    case Addition =>
      var n1 := DrawDigits(subtype.digitsTop, rolls.first);
      var n2 := DrawDigits(subtype.digitsBottom, rolls.second);
      MathProblem(rolls.id, n1, n2, Addition, NumberAnswer(n1 + n2), None, subtype.id)
    case Subtraction =>
      var a := DrawDigits(subtype.digitsTop, rolls.first);
      var b := DrawDigits(subtype.digitsBottom, rolls.second);
      var (n1, n2) := if !options.allowNegatives && a < b then (b, a) else (a, b);
      MathProblem(rolls.id, n1, n2, Subtraction, NumberAnswer(n1 - n2), None, subtype.id)
    case Multiplication =>
      var (n1, n2) :=
        if subtype.id == "mul_1" then
          (Range(2, 5, rolls.first), Range(2, 5, rolls.second))
        else if subtype.id == "mul_2" then
          (Range(2, 12, rolls.first), Range(2, 12, rolls.second))
        else if subtype.id == "mul_long" then
          (DrawDigits(options.longMulti.m1, rolls.first), DrawDigits(options.longMulti.m2, rolls.second))
        else
          (Range(2, 12, rolls.first), Range(2, 12, rolls.second));
      MathProblem(rolls.id, n1, n2, Multiplication, NumberAnswer(n1 * n2), None, subtype.id)
    case Division =>
      var n2 := DrawDivisor(subtype.digitsBottom, rolls.first);
      if options.wholeNumberDivision then
        var result := Range(2, QuotientMax(subtype.digitsTop, n2), rolls.second);
        assert n2 * result == result * n2;
        MathProblem(rolls.id, n2 * result, n2, Division, NumberAnswer(result), None, subtype.id)
      else
        var n1 := DrawDigits(subtype.digitsTop, rolls.second);
        DivMod(n1, n2);
        MathProblem(rolls.id, n1, n2, Division, NumberAnswer(n1 / n2), Some(n1 % n2), subtype.id)
  }

  /** Addition: both operands have exactly the category's digit counts, written out in that many digits. */
  lemma AdditionOperands(subtype: ProblemSubtype, options: GeneratorOptions, rolls: Rolls)
    requires subtype.operation == Addition && CanGenerate(subtype, options, rolls)
    ensures var p := GenerateProblem(subtype, options, rolls);
      && HasDigits(p.num1, subtype.digitsTop) && HasDigits(p.num2, subtype.digitsBottom)
      && |IntToString(p.num1)| == subtype.digitsTop
      && |IntToString(p.num2)| == subtype.digitsBottom
      && p.answer.value == p.num1 + p.num2
  {
    var p := GenerateProblem(subtype, options, rolls);
    NatToStringLength(p.num1, subtype.digitsTop);
    NatToStringLength(p.num2, subtype.digitsBottom);
  }

  /**
   * Subtraction: the operands are the two draws; without negatives they are
   * ordered so that the answer is not negative, with negatives they keep
   * the order in which they were drawn.
   */
  lemma SubtractionOperands(subtype: ProblemSubtype, options: GeneratorOptions, rolls: Rolls)
    requires subtype.operation == Subtraction && CanGenerate(subtype, options, rolls)
    ensures var p := GenerateProblem(subtype, options, rolls);
      var a := DrawDigits(subtype.digitsTop, rolls.first);
      var b := DrawDigits(subtype.digitsBottom, rolls.second);
      && multiset{p.num1, p.num2} == multiset{a, b}
      && p.answer.value == p.num1 - p.num2
      && (!options.allowNegatives ==> p.num1 >= p.num2 && p.answer.value >= 0)
      && (options.allowNegatives ==> p.num1 == a && p.num2 == b)
  {
  }

  /**
   * Multiplication: `mul_1` draws from [2, 5], `mul_long` from the widths
   * in the options (not the category's), any other id from [2, 12].
   */
  lemma MultiplicationOperands(subtype: ProblemSubtype, options: GeneratorOptions, rolls: Rolls)
    requires subtype.operation == Multiplication && CanGenerate(subtype, options, rolls)
    ensures var p := GenerateProblem(subtype, options, rolls);
      && p.answer.value == p.num1 * p.num2
      && (subtype.id == "mul_1" ==> 2 <= p.num1 <= 5 && 2 <= p.num2 <= 5)
      && (subtype.id == "mul_long" ==>
            HasDigits(p.num1, options.longMulti.m1) && HasDigits(p.num2, options.longMulti.m2))
      && (subtype.id != "mul_1" && subtype.id != "mul_long" ==>
            2 <= p.num1 <= 12 && 2 <= p.num2 <= 12)
  {
  }

  /** Division never divides by zero or one: the divisor has the bottom width and is at least 2. */
  lemma DivisorBounds(subtype: ProblemSubtype, options: GeneratorOptions, rolls: Rolls)
    requires subtype.operation == Division && CanGenerate(subtype, options, rolls)
    ensures var p := GenerateProblem(subtype, options, rolls);
      && 2 <= p.num2 <= Pow10(subtype.digitsBottom) - 1
      && Pow10(subtype.digitsBottom - 1) <= p.num2
  {
  }

  /**
   * Whole-number division: the dividend is an exact multiple of the divisor,
   * the quotient is at least 2, the dividend has at most `digitsTop` digits
   * and no remainder is recorded.
   */
  lemma WholeNumberDivision(subtype: ProblemSubtype, options: GeneratorOptions, rolls: Rolls)
    requires subtype.operation == Division && options.wholeNumberDivision
    requires CanGenerate(subtype, options, rolls)
    ensures var p := GenerateProblem(subtype, options, rolls);
      && p.num1 == p.num2 * p.answer.value
      && p.num1 % p.num2 == 0 && p.num1 / p.num2 == p.answer.value
      && p.answer.value >= 2
      && p.num1 <= Pow10(subtype.digitsTop) - 1
      && p.remainder == None
  {
    var p := GenerateProblem(subtype, options, rolls);
    var q := QuotientMax(subtype.digitsTop, p.num2);
    assert p.answer.value <= q;
    MultiplyMonotone(p.num2, p.answer.value, q);
    ExactQuotient(p.num1, p.num2, p.answer.value);
  }

  lemma MultiplyMonotone(k: int, a: int, b: int)
    requires k >= 0 && a <= b
    ensures k * a <= k * b
  {
  }

  lemma ExactQuotient(n: int, d: int, q: int)
    requires d > 0 && n == d * q
    ensures n % d == 0 && n / d == q
  {
    var m, r := n / d, n % d;
    assert d * q == d * m + r;
    if q > m {
      MultiplyMonotone(d, m + 1, q);
      assert false;
    } else if q < m {
      MultiplyMonotone(d, q, m - 1);
      assert false;
    }
  }

  lemma DivMod(n: int, d: int)
    requires d > 0
    ensures (n / d) * d + n % d == n && 0 <= n % d < d
  {
  }

  /**
   * Remainder division: quotient and remainder of a dividend of `digitsTop`
   * digits, with the remainder recorded even when it is zero.
   */
  lemma RemainderDivision(subtype: ProblemSubtype, options: GeneratorOptions, rolls: Rolls)
    requires subtype.operation == Division && !options.wholeNumberDivision
    requires CanGenerate(subtype, options, rolls)
    ensures var p := GenerateProblem(subtype, options, rolls);
      && HasDigits(p.num1, subtype.digitsTop)
      && p.remainder.Some?
      && p.num1 == p.answer.value * p.num2 + p.remainder.value
      && 0 <= p.remainder.value < p.num2
      && (p.remainder.value == 0 <==> p.num1 % p.num2 == 0)
  {
  }
}
