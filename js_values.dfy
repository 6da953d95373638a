/** JavaScript value conventions shared by every module of the model:
    nullable values, truthiness, and Math.round applied to an exact ratio. */
module JsValues {

  /** A value that may be null or undefined. */
  datatype Option<T> = None | Some(value: T)

  /** `x || fallback`: the fallback when the option is empty. */
  function GetOr<T>(o: Option<T>, fallback: T): T {
    match o
    case Some(v) => v
    case None => fallback
  }

  /** JavaScript truthiness of a nullable string: neither null nor "". */
  predicate TruthyText(o: Option<string>) {
    o.Some? && o.value != ""
  }

  /** JavaScript truthiness of a nullable integer: neither null nor 0. */
  predicate TruthyInt(o: Option<int>) {
    o.Some? && o.value != 0
  }

  /** JavaScript truthiness of a nullable number: neither null nor 0. */
  predicate TruthyReal(o: Option<real>) {
    o.Some? && o.value != 0.0
  }

  /** `list?.length` is truthy: the list exists and is non-empty. */
  predicate NonEmptyList<T>(o: Option<seq<T>>) {
    o.Some? && |o.value| > 0
  }

  /** `s || null`: the empty string is sent as null. */
  function NullIfEmpty(s: string): (r: Option<string>)
    ensures r.None? <==> s == ""
    ensures r.Some? ==> r.value == s
  {
    if s == "" then None else Some(s)
  }

  /** `v || ""` on a nullable string: null (and "") read back as "". */
  function EmptyIfNull(o: Option<string>): (r: string)
    ensures o.None? ==> r == ""
    ensures o.Some? ==> r == o.value
  {
    match o
    case Some(s) => s
    case None => ""
  }

  /** Math.round(a / b) for b > 0: the integer r with r <= a/b + 1/2 < r + 1,
      so halves round up. */
  function RoundDiv(a: int, b: int): (r: int)
    requires b > 0
    ensures 2 * b * r <= 2 * a + b < 2 * b * r + 2 * b
  {
    (2 * a + b) / (2 * b)
  }

  /** A whole ratio rounds to itself. */
  lemma RoundDivOfMultiple(x: int, d: int)
    requires d > 0
    ensures RoundDiv(x * d, d) == x
  {
    var r := RoundDiv(x * d, d);
    if r > x {
      MulMonotone(2 * d, x + 1, r);
      assert false;
    } else if r < x {
      MulMonotone(2 * d, r + 1, x);
      assert false;
    }
  }

  /** Rounding is monotone in the numerator. */
  lemma RoundDivMonotone(x: int, y: int, d: int)
    requires d > 0 && x <= y
    ensures RoundDiv(x, d) <= RoundDiv(y, d)
  {
    var rx, ry := RoundDiv(x, d), RoundDiv(y, d);
    if rx > ry {
      MulMonotone(2 * d, ry + 1, rx);
      assert false;
    }
  }

  lemma MulMonotone(k: int, a: int, b: int)
    requires k > 0 && a <= b
    ensures k * a <= k * b
  {
  }

  lemma {:induction false} RoundDivBounds(a: int, b: int)
    requires b > 0 && 0 <= a <= b * 100
    ensures 0 <= RoundDiv(a, b) <= 100
  {
    RoundDivOfMultiple(0, b);
    RoundDivOfMultiple(100, b);
    assert 100 * b == b * 100;
    RoundDivMonotone(0, a, b);
    RoundDivMonotone(a, 100 * b, b);
  }
}
