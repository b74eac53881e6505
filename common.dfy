/** Shared value types: optional values, results, JavaScript truthiness and a
    minimal JSON value for fields the client passes through untouched. */
module Common {

  /** `None` stands for JavaScript's `null`/`undefined` where the code does not
      tell the two apart. */
  datatype Option<+T> = None | Some(value: T) {
    /** The `??` operator. */
    function GetOr(default: T): T {
      match this
      case Some(v) => v
      case None => default
    }
  }

  datatype Result<+T, +E> = Ok(value: T) | Err(error: E)

  /** A context hook: the provider's value, or the error thrown when the
      component is rendered outside its provider. */
  function FromProvider<T>(ctx: Option<T>, message: string): (r: Result<T, string>)
    ensures ctx.None? <==> r.Err?
    ensures ctx.None? ==> r == Err(message)
    ensures ctx.Some? ==> r == Ok(ctx.value)
  {
    match ctx
    case None => Err(message)
    case Some(c) => Ok(c)
  }

  /** A string is truthy in JavaScript when it is present and non-empty. */
  predicate Truthy(s: Option<string>) {
    s.Some? && s.value != ""
  }

  /** The `||` operator applied to an optional string and a string default. */
  function OrElse(s: Option<string>, default: string): (r: string)
    ensures Truthy(s) ==> r == s.value
    ensures !Truthy(s) ==> r == default
  {
    if Truthy(s) then s.value else default
  }

  /** JavaScript's `%`, which truncates toward zero (Dafny's `%` is Euclidean). */
  function JsRem(a: int, n: int): (r: int)
    requires n > 0
    ensures a >= 0 ==> 0 <= r < n
    ensures a < 0 ==> -n < r <= 0
    ensures (a - r) % n == 0
  {
    if a >= 0 then
      MultipleMod(a / n, n);
      assert a - a % n == (a / n) * n;
      a % n
    else
      var m := (-a) % n;
      MultipleMod(-((-a) / n), n);
      assert a + m == (-((-a) / n)) * n;
      -m
  }

  /** Whole multiples of `n` leave no remainder. */
  lemma MultipleMod(k: int, n: int)
    requires n > 0
    ensures (k * n) % n == 0
  {
    var q, r := (k * n) / n, (k * n) % n;
    assert k * n == q * n + r && 0 <= r < n;
    assert (k - q) * n == r;
    NonZeroMultiple(k - q, n);
  }

  /** A non-zero multiple of `n` is at least `n` away from zero. */
  lemma NonZeroMultiple(d: int, n: int)
    requires n > 0
    ensures d == 0 || d * n >= n || d * n <= -n
  {
    if d > 0 {
      PositiveMultiple(d, n);
    } else if d < 0 {
      PositiveMultiple(-d, n);
      assert d * n == -((-d) * n);
    }
  }

  lemma {:induction false} PositiveMultiple(d: nat, n: int)
    requires n > 0 && d >= 1
    ensures d * n >= n
    decreases d
  {
    if d > 1 {
      PositiveMultiple(d - 1, n);
      assert d * n == (d - 1) * n + n;
    }
  }

  /** A JSON value, for result fields the client forwards without reading them. */
  datatype Json =
    | JNull
    | JBool(b: bool)
    | JNum(n: real)
    | JStr(s: string)
    | JArr(items: seq<Json>)
    | JObj(fields: seq<(string, Json)>)
}
