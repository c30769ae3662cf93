/**
 * The JavaScript values the view-link builder receives, and the three
 * operations of the language it relies on: `typeof`, truthiness (`!x`) and
 * the conversion to a string done by template literals and `String(x)`.
 */
module JsValues {

  /**
   * A duck-typed JavaScript value. Numbers are integers; an object is its
   * own enumerable entries in `Object.entries` order.
   */
  datatype JsVal =
    | Undefined
    | Null
    | Bool(b: bool)
    | Num(n: int)
    | Str(s: string)
    | Arr(items: seq<JsVal>)
    | Obj(entries: seq<(string, JsVal)>)

  /** The `typeof` operator. */
  function TypeOf(v: JsVal): string
  {
    match v
    case Undefined => "undefined"
    case Null => "object"
    case Bool(_) => "boolean"
    case Num(_) => "number"
    case Str(_) => "string"
    case Arr(_) => "object"
    case Obj(_) => "object"
  }

  /** `Array.isArray`. */
  predicate IsArray(v: JsVal)
  {
    v.Arr?
  }

  /** The values for which `!v` is false. */
  predicate Truthy(v: JsVal)
  {
    match v
    case Undefined => false
    case Null => false
    case Bool(b) => b
    case Num(n) => n != 0
    case Str(s) => s != ""
    case Arr(_) => true
    case Obj(_) => true
  }

  /** The first entry named `key`, or undefined. */
  function Lookup(entries: seq<(string, JsVal)>, key: string): (r: JsVal)
    ensures !r.Undefined? ==> (key, r) in entries
    ensures (forall e :: e in entries ==> e.0 != key) ==> r.Undefined?
    ensures forall i ::
      (0 <= i < |entries| && entries[i].0 == key && forall j :: 0 <= j < i ==> entries[j].0 != key)
      ==> r == entries[i].1
  {
    if entries == [] then Undefined
    else if entries[0].0 == key then entries[0].1
    else Lookup(entries[1..], key)
  }

  /**
   * The property read `v[key]`. The model reads own properties of objects
   * only: on any other value (where JavaScript would find string characters,
   * array elements, `length` or prototype members) the read gives undefined.
   */
  function Property(v: JsVal, key: string): (r: JsVal)
    ensures !r.Undefined? ==> v.Obj? && (key, r) in v.entries
    ensures !v.Obj? ==> r.Undefined?
    ensures v.Obj? ==> forall i ::
      (0 <= i < |v.entries| && v.entries[i].0 == key && forall j :: 0 <= j < i ==> v.entries[j].0 != key)
      ==> r == v.entries[i].1
  {
    if v.Obj? then Lookup(v.entries, key) else Undefined
  }

  /** The value of a string of decimal digits, read from the left. */
  function DigitsValue(s: string): nat
    requires forall i :: 0 <= i < |s| ==> '0' <= s[i] <= '9'
  {
    if s == [] then 0
    else DigitsValue(s[..|s| - 1]) * 10 + (s[|s| - 1] as int - '0' as int)
  }

  /** The shortest decimal digits of a natural number: no leading zero, and their value is `n`. */
  function Decimal(n: nat): (r: string)
    ensures |r| > 0
    ensures forall i :: 0 <= i < |r| ==> '0' <= r[i] <= '9'
    ensures |r| > 1 ==> r[0] != '0'
    ensures DigitsValue(r) == n
  {
    var digit := "0123456789"[n % 10];
    if n < 10 then [digit]
    else
      var r := Decimal(n / 10) + [digit];
      assert r[..|r| - 1] == Decimal(n / 10);
      r
  }

  /**
   * The string conversion done by `${v}` and `String(v)`. Numbers print in
   * plain decimal notation at every magnitude.
   */
  function Stringify(v: JsVal): (r: string)
    ensures v.Str? ==> r == v.s
    ensures v.Num? && v.n >= 0 ==> r == Decimal(v.n) && DigitsValue(r) == v.n
    ensures v.Num? && v.n < 0 ==> |r| > 1 && r[0] == '-' && r[1..] == Decimal(-v.n)
    ensures v.Arr? && v.items == [] ==> r == ""
    ensures v.Obj? ==> r == "[object Object]"
    decreases v, 1, 0
  {
    match v
    case Undefined => "undefined"
    case Null => "null"
    case Bool(b) => if b then "true" else "false"
    case Num(n) => if n < 0 then "-" + Decimal(-n) else Decimal(n)
    case Str(s) => s
    case Arr(_) => JoinElements(v, 0)
    case Obj(_) => "[object Object]"
  }

  /**
   * `Array.prototype.join` with its default separator `,` over the elements
   * of `a` from index `i` on; null and undefined elements give "".
   */
  function JoinElements(a: JsVal, i: nat): string
    requires a.Arr? && i <= |a.items|
    decreases a, 0, |a.items| - i
  {
    if i == |a.items| then ""
    else
      var e := a.items[i];
      var text := if e.Undefined? || e.Null? then "" else Stringify(e);
      if i + 1 == |a.items| then text else text + "," + JoinElements(a, i + 1)
  }
}
