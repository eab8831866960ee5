/**
 * The slice of JavaScript's value model that the editor relies on: plain objects are
 * maps from property names to values, so `{...a, ...b}` is map union `a + b` and
 * `key in obj` is map membership.  Numbers are exact reals; the one non-finite number
 * the element code can produce (NaN from `undefined + 20`) is its own constructor.
 */
module JsValues {

  /**
   * Property names. The element schema's own names are constructors (nested objects such
   * as `fill`, `stroke` and `shadow` reuse them); any other property is `Other(name)`.
   */
  datatype Key =
    | Id | Type | Name | X | Y | Width | Height | Rotation | ScaleX | ScaleY
    | Opacity | Visible | Locked | ZIndex
    | Content | FontSize | FontFamily | FontWeight | Color | Align | LineHeight | LetterSpacing
    | Shadow | OffsetX | OffsetY | Blur | Spread
    | Src | Fit | BorderRadius | Filters | Brightness | Contrast | Saturation
    | ShapeType | Fill | Stroke | Style | Children
    | Other(name: string)

  datatype Value =
    | Undef
    | Null
    | Bool(b: bool)
    | Num(n: real)
    | NaN
    | Str(s: string)
    | Obj(fields: map<Key, Value>)
    | Arr(items: seq<Value>)

  /** A plain JavaScript object. */
  type Record = map<Key, Value>

  /** `obj[key]`: an own property, or `undefined`. */
  function Get(m: Record, key: Key): Value
  {
    if key in m then m[key] else Undef
  }

  /** `obj.key !== undefined`. */
  predicate Present(m: Record, key: Key)
  {
    key in m && m[key] != Undef
  }

  /** JavaScript truthiness (the test of `if (v)`, `v || d`, `!v`). */
  predicate Truthy(v: Value)
  {
    match v
    case Undef => false
    case Null => false
    case Bool(b) => b
    case Num(n) => n != 0.0
    case NaN => false
    case Str(s) => s != ""
    case Obj(_) => true
    case Arr(_) => true
  }

  predicate Nullish(v: Value)
  {
    v == Undef || v == Null
  }

  /** `v ?? d` */
  function Coalesce(v: Value, d: Value): (r: Value)
    ensures !Nullish(v) ==> r == v
    ensures Nullish(v) ==> r == d
  {
    if Nullish(v) then d else v
  }

  /** `v || d` */
  function OrElse(v: Value, d: Value): (r: Value)
    ensures Truthy(v) ==> r == v
    ensures !Truthy(v) ==> r == d
  {
    if Truthy(v) then v else d
  }

  /**
   * `v + n` for a number `n`, as `newElement.x += offset` evaluates it: numbers add, `null`
   * counts as 0, booleans as 0/1, anything else gives NaN. A string would concatenate in
   * JavaScript (`'5' + 20` is '520'); number formatting is not modelled, so strings are
   * outside this model and give NaN too.
   */
  function AddNumber(v: Value, n: real): (r: Value)
    ensures v.Num? ==> r == Num(v.n + n)
    ensures (v == Undef || v == NaN) ==> r == NaN
  {
    match v
    case Num(a) => Num(a + n)
    case Null => Num(n)
    case Bool(b) => Num((if b then 1.0 else 0.0) + n)
    case _ => NaN
  }

  /** `Math.round` on a finite number: the nearest integer, halves rounded up. */
  function Round(x: real): (r: int)
    ensures r as real - 0.5 <= x < r as real + 0.5
  {
    (x + 0.5).Floor
  }

  function MinReal(a: real, b: real): (r: real)
    ensures r <= a && r <= b && (r == a || r == b)
  {
    if a <= b then a else b
  }

  function MaxReal(a: real, b: real): (r: real)
    ensures r >= a && r >= b && (r == a || r == b)
  {
    if a >= b then a else b
  }
}

/**
 * JavaScript numbers where division by zero, infinities and NaN are reachable
 * (the zoom slider, CSS length parsing).
 */
module JsNumbers {
  import JsValues

  datatype Number = Finite(r: real) | PosInf | NegInf | NotANumber

  /** `a / b` */
  function Divide(a: real, b: real): (q: Number)
    ensures b != 0.0 ==> q == Finite(a / b)
    ensures b == 0.0 ==> (q == NotANumber <==> a == 0.0)
  {
    if b != 0.0 then Finite(a / b)
    else if a > 0.0 then PosInf
    else if a < 0.0 then NegInf
    else NotANumber
  }

  predicate LessThan(a: Number, b: Number)
  {
    match (a, b)
    case (Finite(x), Finite(y)) => x < y
    case (NegInf, Finite(_)) => true
    case (NegInf, PosInf) => true
    case (Finite(_), PosInf) => true
    case _ => false
  }

  /** `Math.min(a, b)`: NaN if either argument is NaN. */
  function Min(a: Number, b: Number): (m: Number)
    ensures (a == NotANumber || b == NotANumber) <==> m == NotANumber
    ensures m != NotANumber ==> (m == a || m == b) && !LessThan(a, m) && !LessThan(b, m)
  {
    if a == NotANumber || b == NotANumber then NotANumber
    else if LessThan(b, a) then b
    else a
  }

  /** `Math.max(a, b)`: NaN if either argument is NaN. */
  function Max(a: Number, b: Number): (m: Number)
    ensures (a == NotANumber || b == NotANumber) <==> m == NotANumber
    ensures m != NotANumber ==> (m == a || m == b) && !LessThan(m, a) && !LessThan(m, b)
  {
    if a == NotANumber || b == NotANumber then NotANumber
    else if LessThan(a, b) then b
    else a
  }

  /** `Math.round`: finite values round half up, the others pass through. */
  function Round(a: Number): (r: Number)
    ensures a.Finite? ==> r == Finite(JsValues.Round(a.r) as real)
    ensures !a.Finite? ==> r == a
  {
    match a
    case Finite(x) => Finite(JsValues.Round(x) as real)
    case _ => a
  }
}
