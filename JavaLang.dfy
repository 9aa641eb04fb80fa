/** The few Java language facts the engine relies on: the exceptions it throws,
    32-bit `int` arithmetic and truncating integer division. */
module JavaLang {

  /** The unchecked exceptions the core can raise. */
  datatype Exception =
    | IllegalArgument   // malformed geometry input (Vecs.vec2Array)
    | IllegalState      // setupRelative after the body exists
    | Arithmetic        // integer division by zero (FrameThread.start)

  /** A `void` Java call: it returns normally or throws. */
  datatype Outcome = Pass | Fail(error: Exception)

  /** A value-returning Java call: it returns a value or throws. */
  datatype Result<T> = Ok(value: T) | Err(error: Exception)

  /** A nullable reference. */
  datatype Option<T> = None | Some(value: T)

  const MinInt32: int := -0x8000_0000
  const MaxInt32: int := 0x7fff_ffff

  /** Java's `int`. */
  newtype int32 = x: int | -0x8000_0000 <= x < 0x8000_0000

  /** Two's-complement wrap-around of a mathematical integer into the `int` range. */
  function Wrap32(x: int): (r: int32)
    ensures (r as int - x) % 0x1_0000_0000 == 0
    ensures MinInt32 <= x <= MaxInt32 ==> r as int == x
  {
    var m := (x - MinInt32) % 0x1_0000_0000;
    (m + MinInt32) as int32
  }

  /** Java's `int + int`. */
  function Add32(a: int32, b: int32): (r: int32)
    ensures MinInt32 <= a as int + b as int <= MaxInt32 ==> r as int == a as int + b as int
  {
    Wrap32(a as int + b as int)
  }

  /** Java's integer `/`: truncates toward zero (Dafny's `/` is Euclidean).
      A zero divisor throws ArithmeticException. */
  function JavaDiv(a: int, b: int): (r: Result<int>)
    ensures r.Err? <==> b == 0
    ensures r.Ok? && a >= 0 && b > 0 ==> r.value == a / b
    ensures r.Ok? && a >= 0 && b < 0 ==> r.value == -(a / -b)
    ensures r.Ok? && a < 0 && b > 0 ==> r.value == -(-a / b)
    ensures r.Ok? && a < 0 && b < 0 ==> r.value == -a / -b
  {
    if b == 0 then Err(Arithmetic)
    else
      var q := (if a >= 0 then a else -a) / (if b >= 0 then b else -b);
      Ok(if (a >= 0) == (b > 0) then q else -q)
  }

  /** Java's integer `%`: the remainder of the truncating division, so it takes the sign of the
      dividend. A zero divisor throws ArithmeticException. */
  function JavaRem(a: int, b: int): (r: Result<int>)
    ensures r.Err? <==> b == 0
    ensures r.Ok? && a >= 0 && b > 0 ==> r.value == a % b
    ensures r.Ok? ==> (a >= 0 ==> 0 <= r.value) && (a <= 0 ==> r.value <= 0)
    ensures r.Ok? ==> -(if b >= 0 then b else -b) < r.value < (if b >= 0 then b else -b)
  {
    if b == 0 then Err(Arithmetic) else Ok(a - b * JavaDiv(a, b).value)
  }
}
