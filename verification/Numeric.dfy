/** Which int and Decimal values NUMERIC(p, s) takes
    (task_core/db/values.py, _validate_numeric_value). */
module Numeric {
  import opened Values

  function Abs(x: real): real { if x < 0.0 then -x else x }

  /** x * 10^e */
  function Shift(x: real, e: int): real
    decreases if e < 0 then -e else e
  {
    if e == 0 then x
    else if e > 0 then 10.0 * Shift(x, e - 1)
    else Shift(x, e + 1) / 10.0
  }

  predicate IsWhole(x: real) { x == x.Floor as real }

  function Coefficient(digits: seq<int>): int {
    if digits == [] then 0
    else 10 * Coefficient(digits[..|digits| - 1]) + digits[|digits| - 1]
  }

  /** The canonical digit tuple of Decimal(n). */
  function DigitsOf(n: nat): (r: seq<int>)
    ensures CanonicalDigits(r) && Coefficient(r) == n && (r[0] == 0 <==> n == 0)
  {
    if n < 10 then [n]
    else
      var front := DigitsOf(n / 10);
      assert (front + [n % 10])[..|front|] == front;
      front + [n % 10]
  }

  /** The number an int or a finite Decimal denotes. */
  function NumberOf(v: Value): real
    requires v.Int? || (v.Dec? && v.d.Finite?)
  {
    match v
    case Int(n) => n as real
    case Dec(d) =>
      var magnitude := Shift(Coefficient(d.digits) as real, d.exponent);
      if d.negative then -magnitude else magnitude
  }

  function ToTuple(v: Value): (d: Decimal)
    requires v.Int? || v.Dec?
    ensures v.Int? ==> d.Finite?
  {
    match v
    case Int(n) => Finite(n < 0, DigitsOf(if n < 0 then -n else n), 0)
    case Dec(d) => d
  }

  /** The declared shapes the type check lets through
      (task_core/db/values.py, lines 398-422). */
  predicate DeclarableNumeric(precision: Option<int>, scale: Option<int>) {
    && (precision.Some? ==> 1 <= precision.value <= 1000)
    && (scale.Some? ==> precision.Some? && 0 <= scale.value <= precision.value)
  }

  function EffectiveScale(precision: Option<int>, scale: Option<int>): (r: Option<int>)
    ensures precision.Some? ==> r == Some(if scale.Some? then scale.value else 0)
  {
    if scale.Some? then scale else if precision.Some? then Some(0) else None
  }

  /** Exactly representable in NUMERIC(precision, scale). */
  predicate Representable(v: Value, precision: Option<int>, scale: Option<int>) {
    && (v.Int? || (v.Dec? && v.d.Finite?))
    && (precision.Some? ==>
          var s := if scale.Some? then scale.value else 0;
          IsWhole(Shift(NumberOf(v), s)) && Abs(NumberOf(v)) < Shift(1.0, precision.value - s))
  }

  lemma ShiftStep(x: real, e: int)
    ensures Shift(x, e + 1) == 10.0 * Shift(x, e)
  {
  }

  /** Shift(x, e) is multiplication by the power it names. */
  lemma {:induction false} ShiftIsProduct(x: real, e: int)
    ensures Shift(x, e) == x * Shift(1.0, e)
    decreases if e < 0 then -e else e
  {
    if e > 0 {
      ShiftIsProduct(x, e - 1);
    } else if e < 0 {
      ShiftIsProduct(x, e + 1);
    }
  }

  lemma {:induction false} ShiftAdd(x: real, a: int, b: nat)
    ensures Shift(Shift(x, a), b) == Shift(x, a + b)
  {
    if b > 0 {
      ShiftAdd(x, a, b - 1);
      ShiftStep(x, a + b - 1);
    }
  }

  lemma {:induction false} ShiftOrder(x: real, y: real, e: int)
    ensures x < y <==> Shift(x, e) < Shift(y, e)
    decreases if e < 0 then -e else e
  {
    if e > 0 {
      ShiftOrder(x, y, e - 1);
    } else if e < 0 {
      ShiftOrder(x, y, e + 1);
    }
  }

  lemma {:induction false} ShiftNegate(x: real, e: int)
    ensures Shift(-x, e) == -Shift(x, e)
    decreases if e < 0 then -e else e
  {
    if e > 0 {
      ShiftNegate(x, e - 1);
    } else if e < 0 {
      ShiftNegate(x, e + 1);
    }
  }

  lemma {:induction false} ShiftZero(e: int)
    ensures Shift(0.0, e) == 0.0
    decreases if e < 0 then -e else e
  {
    if e > 0 {
      ShiftZero(e - 1);
    } else if e < 0 {
      ShiftZero(e + 1);
    }
  }

  lemma {:induction false} PowerMonotone(a: int, b: int)
    requires a <= b
    ensures Shift(1.0, a) <= Shift(1.0, b)
    decreases b - a
  {
    if a < b {
      PowerMonotone(a, b - 1);
      ShiftStep(1.0, b - 1);
      ShiftZero(b - 1);
      ShiftOrder(0.0, 1.0, b - 1);
    }
  }

  function IntShift(c: int, m: nat): int {
    if m == 0 then c else 10 * IntShift(c, m - 1)
  }

  lemma {:induction false} ShiftInt(c: int, m: nat)
    ensures Shift(c as real, m) == IntShift(c, m) as real
  {
    if m > 0 {
      ShiftInt(c, m - 1);
    }
  }

  /** A coefficient not divisible by ten is whole only at a non-negative power. */
  lemma WholeIff(c: int, e: int)
    requires e >= 0 || c % 10 != 0
    ensures IsWhole(Shift(c as real, e)) <==> e >= 0
  {
    if e >= 0 {
      ShiftInt(c, e);
    } else {
      var x := Shift(c as real, e);
      ShiftAdd(c as real, e, -e);
      if IsWhole(x) {
        ShiftInt(x.Floor, -e);
      }
    }
  }

  /** n digits with a non-zero lead lie between two neighbouring powers. */
  lemma {:induction false} CoefficientRange(digits: seq<int>)
    requires CanonicalDigits(digits) && digits[0] != 0
    ensures Shift(1.0, |digits| - 1) <= Coefficient(digits) as real < Shift(1.0, |digits|)
  {
    var n := |digits|;
    var front := digits[..n - 1];
    ShiftStep(1.0, n - 1);
    if n > 1 {
      CoefficientRange(front);
      ShiftStep(1.0, n - 2);
      ShiftInt(1, n - 1);
      assert Coefficient(front) < IntShift(1, n - 1);
    } else {
      assert Coefficient(front) == 0;
      assert Coefficient(digits) == digits[0];
    }
  }

  lemma MagnitudeBelow(digits: seq<int>, e: int, q: int)
    requires CanonicalDigits(digits) && digits[0] != 0
    ensures Shift(Coefficient(digits) as real, e) < Shift(1.0, q) <==> |digits| + e <= q
  {
    var n := |digits|;
    var c := Coefficient(digits) as real;
    CoefficientRange(digits);
    ShiftOrder(c, Shift(1.0, n), e);
    ShiftOrder(c, Shift(1.0, n - 1), e);
    ShiftCommute(n, e);
    ShiftCommute(n - 1, e);
    if n + e <= q {
      PowerMonotone(n + e, q);
    } else {
      PowerMonotone(q, n + e - 1);
    }
  }

  lemma {:induction false} ShiftCommute(n: nat, e: int)
    ensures Shift(Shift(1.0, n), e) == Shift(1.0, n + e)
    decreases if e < 0 then -e else e
  {
    if e > 0 {
      ShiftCommute(n, e - 1);
      ShiftStep(1.0, n + e - 1);
    } else if e < 0 {
      ShiftCommute(n, e + 1);
      ShiftStep(1.0, n + e);
    }
  }

  lemma {:induction false} ShiftTenfold(x: real, e: int)
    ensures Shift(10.0 * x, e) == Shift(x, e + 1)
    decreases if e < 0 then -e else e
  {
    if e > 0 {
      ShiftTenfold(x, e - 1);
      ShiftStep(x, e);
    } else if e < 0 {
      ShiftTenfold(x, e + 1);
      ShiftStep(x, e + 1);
    } else {
      ShiftStep(x, 0);
    }
  }

  /** Dropping a trailing fractional zero keeps the number. */
  lemma DropTrailingZero(digits: seq<int>, e: int)
    requires |digits| > 0 && digits[|digits| - 1] == 0
    ensures Shift(Coefficient(digits) as real, e)
         == Shift(Coefficient(digits[..|digits| - 1]) as real, e + 1)
  {
    ShiftTenfold(Coefficient(digits[..|digits| - 1]) as real, e);
  }

  lemma {:induction false} CoefficientNonNegative(digits: seq<int>)
    requires forall i | 0 <= i < |digits| :: 0 <= digits[i] <= 9
    ensures Coefficient(digits) >= 0
  {
    if digits != [] {
      CoefficientNonNegative(digits[..|digits| - 1]);
    }
  }

  lemma MagnitudeOfTuple(v: Value, d: Decimal)
    requires v.Int? || (v.Dec? && v.d.Finite?)
    requires d == ToTuple(v)
    ensures Abs(NumberOf(v)) == Shift(Coefficient(d.digits) as real, d.exponent)
  {
    var c := Coefficient(d.digits) as real;
    CoefficientNonNegative(d.digits);
    ShiftZero(d.exponent);
    ShiftOrder(c, 0.0, d.exponent);
    assert v.Int? ==> Shift(c, 0) == c;
  }

  lemma WholeSign(x: real)
    ensures IsWhole(-x) <==> IsWhole(x)
  {
    if IsWhole(x) {
      assert -x == (-(x.Floor)) as real;
    }
    if IsWhole(-x) {
      assert x == (-((-x).Floor)) as real;
    }
  }

  /** The trimmed tuple decides both halves of representability. */
  lemma TrimmedDecides(x: real, digits: seq<int>, e: int, precision: int, s: nat)
    requires CanonicalDigits(digits) && digits[0] != 0
    requires e >= 0 || digits[|digits| - 1] != 0
    requires Abs(x) == Shift(Coefficient(digits) as real, e)
    ensures IsWhole(Shift(x, s)) <==> -e <= s
    ensures Abs(x) < Shift(1.0, precision - s) <==> |digits| + e <= precision - s
  {
    var c := Coefficient(digits);
    ShiftAdd(c as real, e, s);
    assert e + s >= 0 || c % 10 != 0;
    WholeIff(c, e + s);
    WholeSign(Shift(c as real, e + s));
    ShiftNegate(Abs(x), s);
    MagnitudeBelow(digits, e, precision - s);
  }

  lemma ZeroRepresentable(v: Value, precision: Option<int>, scale: Option<int>)
    requires v.Int? || (v.Dec? && v.d.Finite?)
    requires ToTuple(v).digits == [0]
    ensures Representable(v, precision, scale)
  {
    MagnitudeOfTuple(v, ToTuple(v));
    assert Coefficient([0]) == 0;
    ShiftZero(ToTuple(v).exponent);
    if precision.Some? {
      var s := EffectiveScale(precision, scale).value;
      ShiftZero(s);
      ShiftZero(precision.value - s);
      ShiftOrder(0.0, 1.0, precision.value - s);
    }
  }

  function Max(a: int, b: int): int { if a < b then b else a }

  /** Drop trailing fractional zeroes; the number stays. */
  method TrimZeros(tuple: seq<int>, power: int) returns (digits: seq<int>, exponent: int)
    requires CanonicalDigits(tuple) && tuple[0] != 0
    ensures CanonicalDigits(digits) && digits[0] != 0
    ensures Shift(Coefficient(digits) as real, exponent) == Shift(Coefficient(tuple) as real, power)
    ensures exponent >= 0 || digits[|digits| - 1] != 0
  {
    digits, exponent := tuple, power;
    while exponent < 0 && digits != [] && digits[|digits| - 1] == 0
      invariant CanonicalDigits(digits) && digits[0] != 0
      invariant Shift(Coefficient(digits) as real, exponent) == Shift(Coefficient(tuple) as real, power)
    {
      DropTrailingZero(digits, exponent);
      digits := digits[..|digits| - 1];
      exponent := exponent + 1;
    }
  }

  /** The digit counts decide it. */
  lemma CountsDecide(v: Value, precision: Option<int>, scale: Option<int>, digits: seq<int>, e: int)
    requires (v.Int? || (v.Dec? && v.d.Finite?)) && DeclarableNumeric(precision, scale) && precision.Some?
    requires CanonicalDigits(digits) && digits[0] != 0 && (e >= 0 || digits[|digits| - 1] != 0)
    requires Shift(Coefficient(digits) as real, e) == Shift(Coefficient(ToTuple(v).digits) as real, ToTuple(v).exponent)
    ensures var s := if scale.Some? then scale.value else 0;
      Representable(v, precision, scale) <==> -e <= s && |digits| + e <= precision.value - s
  {
    MagnitudeOfTuple(v, ToTuple(v));
    TrimmedDecides(NumberOf(v), digits, e, precision.value, if scale.Some? then scale.value else 0);
  }

  /** Accepts exactly the values NUMERIC(precision, scale) represents without
      rounding, for every coefficient and exponent. */
  method ValidateNumeric(v: Value, precision: Option<int>, scale: Option<int>) returns (accepted: bool)
    requires DeclarableNumeric(precision, scale)
    ensures accepted <==> Representable(v, precision, scale)
  {
    if !v.Int? && !v.Dec? {
      return false;
    }
    var d := ToTuple(v);
    if !d.Finite? {
      return false;
    }
    var effectiveScale := EffectiveScale(precision, scale);
    var fractionalDigits, integerDigits := 0, 0;
    if d.digits == [0] {
      ZeroRepresentable(v, precision, scale);
    } else {
      var digits, exponent := TrimZeros(d.digits, d.exponent);
      fractionalDigits := Max(-exponent, 0);
      integerDigits := Max(|digits| + exponent, 0);
      if precision.Some? {
        CountsDecide(v, precision, scale, digits, exponent);
      }
    }
    if effectiveScale.Some? && fractionalDigits > effectiveScale.value {
      return false;
    }
    if precision.Some? {
      var capacity := precision.value - (if effectiveScale.Some? then effectiveScale.value else 0);
      if integerDigits > capacity {
        return false;
      }
    }
    return true;
  }
}
