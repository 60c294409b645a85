/** The JavaScript values the engine passes around, with the few runtime
    operations it relies on: `typeof`, property reads, and conversion to text. */
module JsValues {

  datatype Option<T> = None | Some(value: T)

  /** A settled promise, or a call that either returns or throws. */
  datatype Result<T> = Ok(value: T) | Err(error: string)

  /** A call whose only observable effect is that it returned or threw. */
  datatype Outcome = Pass | Fail(error: string)

  /** A promise that settles, or one that never does (a race over no promises). */
  datatype Settlement<T> = Settled(result: Result<T>) | NeverSettles

  /** A JavaScript value. Numbers are integers; a function is known only by
      its identity, so `===` on functions is equality of `id`. */
  datatype JsValue =
    | Undefined
    | Null
    | Bool(b: bool)
    | Num(n: int)
    | Str(s: string)
    | Arr(items: seq<JsValue>)
    | Obj(fields: map<string, JsValue>)
    | Func(id: nat)

  /** `v === null || v === undefined` */
  predicate Nullish(v: JsValue) {
    v.Undefined? || v.Null?
  }

  /** The `typeof` operator. */
  function TypeOf(v: JsValue): string {
    match v
    case Undefined => "undefined"
    case Null => "object"
    case Bool(_) => "boolean"
    case Num(_) => "number"
    case Str(_) => "string"
    case Arr(_) => "object"
    case Obj(_) => "object"
    case Func(_) => "function"
  }

  /** Reading `v[key]` for the field names the engine uses (`method`, `name`,
      `data`, `hash`, `meta`, `value`, `__type`): only an object has them as
      own fields, and reading any field of null or undefined throws. */
  function GetProp(v: JsValue, key: string): (r: Result<JsValue>)
    ensures r.Err? <==> Nullish(v)
  {
    match v
    case Undefined => Err("TypeError: cannot read properties of undefined")
    case Null => Err("TypeError: cannot read properties of null")
    case Obj(fields) => Ok(if key in fields then fields[key] else Undefined)
    case _ => Ok(Undefined)
  }

  /** The fields of an object, or none for any other value. */
  function FieldsOf(v: JsValue): map<string, JsValue> {
    if v.Obj? then v.fields else map[]
  }

  predicate IsDigit(c: char) {
    '0' <= c <= '9'
  }

  predicate AllDigits(s: string) {
    forall i :: 0 <= i < |s| ==> IsDigit(s[i])
  }

  /** A digit string that names an array index: no leading zero except "0" itself. */
  predicate Canonical(s: string) {
    |s| > 0 && (s[0] != '0' || |s| == 1)
  }

  function DigitChar(d: nat): (c: char)
    requires d < 10
    ensures IsDigit(c)
  {
    "0123456789"[d]
  }

  /** The number a digit string denotes. */
  function DigitsValue(s: string): nat
    requires AllDigits(s)
  {
    if s == [] then 0
    else DigitsValue(s[..|s| - 1]) * 10 + (s[|s| - 1] as int - '0' as int)
  }

  /** Decimal notation of a natural number. */
  function Decimal(n: nat): (s: string)
    ensures |s| > 0 && AllDigits(s)
  {
    if n < 10 then [DigitChar(n)] else Decimal(n / 10) + [DigitChar(n % 10)]
  }

  /** Decimal notation is canonical and denotes the number it was made from. */
  lemma {:induction false} DecimalRoundTrip(n: nat)
    ensures Canonical(Decimal(n)) && DigitsValue(Decimal(n)) == n
  {
    if n >= 10 {
      DecimalRoundTrip(n / 10);
      var s := Decimal(n);
      assert s[..|s| - 1] == Decimal(n / 10);
      assert s[0] == Decimal(n / 10)[0];
    }
  }

  /** `String(v)`: the conversion a template substitution or a storage write
      applies. A function converts to a fixed marker instead of its source text. */
  function ToString(v: JsValue): string {
    match v
    case Undefined => "undefined"
    case Null => "null"
    case Bool(b) => if b then "true" else "false"
    case Num(n) => if n < 0 then "-" + Decimal(-n) else Decimal(n)
    case Str(s) => s
    case Arr(items) => Join(items)
    case Obj(_) => "[object Object]"
    case Func(_) => "function"
  }

  /** `Array.prototype.join` with ",": null and undefined elements become "". */
  function Join(items: seq<JsValue>): string
    decreases items
  {
    if items == [] then ""
    else
      var head := if Nullish(items[0]) then "" else ToString(items[0]);
      if |items| == 1 then head else head + "," + Join(items[1..])
  }
}
