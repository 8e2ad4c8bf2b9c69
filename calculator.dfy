/**
 * The four calculator operations of main.py, `add`, `subtract`, `multiply`
 * and `divide`, each a single Python operator applied to two values.
 *
 * The values come straight out of the decoded tool-call arguments, so they
 * can be any JSON value; Python's operators decide what happens. On two
 * numbers the result is `int` when both are `int` (or `bool`) and `float`
 * otherwise; `/` always gives a `float`. Floats are exact reals here.
 */
module Calculator {
  import opened PyData

  /** The string `divide` returns instead of dividing by zero. */
  const DivByZeroText := "Error: Division by zero"

  /** Python `s * n` on a sequence: `s` repeated `n` times, empty when `n <= 0`. */
  function Repeat<T>(s: seq<T>, n: int): (r: seq<T>)
    ensures |r| == if n <= 0 then 0 else |s| * n
    decreases n
  {
    if n <= 0 then []
    else
      assert |s| + |s| * (n - 1) == |s| * n;
      s + Repeat(s, n - 1)
  }

  /** Copy `i` of a repeated sequence holds the elements of the original in order. */
  lemma {:induction false} RepeatAt<T>(s: seq<T>, n: int, i: int, j: int)
    requires 0 <= i < n && 0 <= j < |s|
    ensures i * |s| + j < |Repeat(s, n)| && Repeat(s, n)[i * |s| + j] == s[j]
    decreases n
  {
    assert Repeat(s, n) == s + Repeat(s, n - 1);
    if i > 0 {
      RepeatAt(s, n - 1, i - 1, j);
      assert (i - 1) * |s| + j + |s| == i * |s| + j;
    }
  }

  /** The number a Python arithmetic operator yields: `int` when both operands
      are integral, `float` otherwise. */
  function NumberOf(integral: bool, whole: int, exact: real): Json {
    if integral then Int(whole) else Float(exact)
  }

  /** `add(a, b)`, i.e. `a + b`: numbers add, strings and lists concatenate,
      any other pair is a TypeError. */
  function Add(a: Json, b: Json): (r: Py<Json>)
    ensures r.Ok? <==> (IsNumber(a) && IsNumber(b)) || (a.Str? && b.Str?) || (a.Arr? && b.Arr?)
    ensures IsNumber(a) && IsNumber(b) ==>
              r.Ok? && (r.value.Int? || r.value.Float?) && NumberValue(r.value) == NumberValue(a) + NumberValue(b)
              && (r.value.Int? <==> IsIntegral(a) && IsIntegral(b))
    ensures a.Str? && b.Str? ==> r == Ok(Str(a.s + b.s))
    ensures a.Arr? && b.Arr? ==> r == Ok(Arr(a.items + b.items))
    ensures r.Raise? ==> r.error == TypeError
  {
    if IsNumber(a) && IsNumber(b) then
      var integral := IsIntegral(a) && IsIntegral(b);
      Ok(NumberOf(integral, if integral then IntValue(a) + IntValue(b) else 0,
                  NumberValue(a) + NumberValue(b)))
    else
      match (a, b)
      case (Str(s), Str(t)) => Ok(Str(s + t))
      case (Arr(xs), Arr(ys)) => Ok(Arr(xs + ys))
      case _ => Raise(TypeError)
  }

  /** `subtract(a, b)`, i.e. `a - b`: only numbers can be subtracted. */
  function Subtract(a: Json, b: Json): (r: Py<Json>)
    ensures r.Ok? <==> IsNumber(a) && IsNumber(b)
    ensures r.Ok? ==>
              (r.value.Int? || r.value.Float?) && NumberValue(r.value) == NumberValue(a) - NumberValue(b)
              && (r.value.Int? <==> IsIntegral(a) && IsIntegral(b))
    ensures r.Raise? ==> r.error == TypeError
  {
    if IsNumber(a) && IsNumber(b) then
      var integral := IsIntegral(a) && IsIntegral(b);
      Ok(NumberOf(integral, if integral then IntValue(a) - IntValue(b) else 0,
                  NumberValue(a) - NumberValue(b)))
    else
      Raise(TypeError)
  }

  /** True when Python `a * b` repeats the sequence `a` a whole number `b` of times. */
  predicate Repeats(a: Json, b: Json) {
    (a.Str? || a.Arr?) && IsIntegral(b)
  }

  function RepeatValue(a: Json, n: int): Json
    requires a.Str? || a.Arr?
  {
    if a.Str? then Str(Repeat(a.s, n)) else Arr(Repeat(a.items, n))
  }

  /** `multiply(a, b)`, i.e. `a * b`: numbers multiply, a string or list times an
      integer (in either order) is repeated, any other pair is a TypeError. */
  function Multiply(a: Json, b: Json): (r: Py<Json>)
    ensures r.Ok? <==> (IsNumber(a) && IsNumber(b)) || Repeats(a, b) || Repeats(b, a)
    ensures IsNumber(a) && IsNumber(b) ==>
              r.Ok? && (r.value.Int? || r.value.Float?) && NumberValue(r.value) == NumberValue(a) * NumberValue(b)
              && (r.value.Int? <==> IsIntegral(a) && IsIntegral(b))
    ensures Repeats(a, b) ==> r == Ok(RepeatValue(a, IntValue(b)))
    ensures Repeats(b, a) ==> r == Ok(RepeatValue(b, IntValue(a)))
    ensures r.Raise? ==> r.error == TypeError
  {
    if IsNumber(a) && IsNumber(b) then
      var integral := IsIntegral(a) && IsIntegral(b);
      Ok(NumberOf(integral, if integral then IntValue(a) * IntValue(b) else 0,
                  NumberValue(a) * NumberValue(b)))
    else if Repeats(a, b) then
      Ok(RepeatValue(a, IntValue(b)))
    else if Repeats(b, a) then
      Ok(RepeatValue(b, IntValue(a)))
    else
      Raise(TypeError)
  }

  /** Python's `b != 0`: only a number can equal 0 (`False` and `0.0` do). */
  predicate IsZero(b: Json)
    ensures IsZero(b) <==> b in {Bool(false), Int(0), Float(0.0)}
  {
    IsNumber(b) && NumberValue(b) == 0.0
  }

  /** `divide(a, b)`, i.e. `a / b if b != 0 else "Error: Division by zero"`.
      The zero test comes first, so a zero divisor yields the sentinel whatever
      `a` is; otherwise `/` needs two numbers and always gives a float. */
  function Divide(a: Json, b: Json): (r: Py<Json>)
    ensures IsZero(b) ==> r == Ok(Str(DivByZeroText))
    ensures !IsZero(b) ==> (r.Ok? <==> IsNumber(a) && IsNumber(b))
    ensures !IsZero(b) && r.Ok? ==> r.value == Float(NumberValue(a) / NumberValue(b))
    ensures r.Raise? ==> r.error == TypeError
  {
    if IsZero(b) then Ok(Str(DivByZeroText))
    else if IsNumber(a) && IsNumber(b) then Ok(Float(NumberValue(a) / NumberValue(b)))
    else Raise(TypeError)
  }

  /** On two numbers none of the four operations raises, and `divide` returns a
      number unless the divisor is zero. */
  lemma NumbersNeverRaise(a: Json, b: Json)
    requires IsNumber(a) && IsNumber(b)
    ensures Add(a, b).Ok? && Subtract(a, b).Ok? && Multiply(a, b).Ok? && Divide(a, b).Ok?
    ensures IsNumber(Divide(a, b).value) <==> NumberValue(b) != 0.0
  {
  }

  /** A float result of `divide`, multiplied back by the divisor, gives the
      dividend (in exact arithmetic; floats are exact reals here). */
  lemma DivideInvertsMultiply(a: Json, b: Json)
    requires IsNumber(a) && IsNumber(b) && !IsZero(b)
    ensures Divide(a, b).Ok? && Multiply(Divide(a, b).value, b).Ok?
    ensures NumberValue(Multiply(Divide(a, b).value, b).value) == NumberValue(a)
  {
  }

  /** `subtract` is `add` of the negated second operand, and so order-sensitive. */
  lemma SubtractIsAddNegated(a: Json, b: Json)
    requires IsNumber(a) && IsNumber(b)
    ensures NumberValue(Subtract(a, b).value) == NumberValue(Add(a, Float(-NumberValue(b))).value)
    ensures NumberValue(Subtract(a, b).value) == -NumberValue(Subtract(b, a).value)
  {
  }

  /** The unit tests' cases (test_main.py): integers stay integers, `/` gives a float. */
  lemma TestCases()
    ensures Add(Int(2), Int(3)) == Ok(Int(5))
    ensures Add(Int(-1), Int(1)) == Ok(Int(0))
    ensures Add(Int(0), Int(0)) == Ok(Int(0))
    ensures Subtract(Int(5), Int(3)) == Ok(Int(2))
    ensures Subtract(Int(3), Int(5)) == Ok(Int(-2))
    ensures Subtract(Int(0), Int(0)) == Ok(Int(0))
    ensures Multiply(Int(2), Int(3)) == Ok(Int(6))
    ensures Multiply(Int(-1), Int(5)) == Ok(Int(-5))
    ensures Multiply(Int(0), Int(10)) == Ok(Int(0))
    ensures Divide(Int(6), Int(3)) == Ok(Float(2.0))
    ensures Divide(Int(5), Int(2)) == Ok(Float(2.5))
    ensures Divide(Int(5), Int(0)) == Ok(Str(DivByZeroText))
  {
  }
}
