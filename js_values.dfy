/** The JavaScript values the tools read and write (everything in the JSON documents and
    in the tool parameters), with the coercions the source relies on: truthiness,
    property reads, object spread and string conversion. */
module JsValues {

  datatype Option<+T> = None | Some(value: T)

  datatype Result<+T, +E> = Ok(value: T) | Err(error: E)

  /** A JavaScript value. Numbers are modelled as integers; objects as maps from
      property name to value (property order is not modelled). */
  datatype Value =
    | Undefined
    | Null
    | Bool(b: bool)
    | Num(n: int)
    | Str(s: string)
    | Arr(items: seq<Value>)
    | Obj(fields: map<string, Value>)

  /** A plain object: own enumerable properties. */
  type Object = map<string, Value>

  /** Not an array or object. */
  predicate IsPrimitive(v: Value) {
    !(v.Arr? || v.Obj?)
  }

  /** `a === b` (and `Set` membership) over values parsed from JSON documents and tool
      parameters: primitives compare by value, and two arrays or objects are never the
      same reference. */
  predicate StrictEquals(a: Value, b: Value) {
    a == b && IsPrimitive(a)
  }

  /** `!!v` */
  predicate Truthy(v: Value) {
    match v
    case Undefined => false
    case Null => false
    case Bool(b) => b
    case Num(n) => n != 0
    case Str(s) => s != ""
    case Arr(_) => true
    case Obj(_) => true
  }

  /** `v === null || v === undefined` */
  predicate IsNullish(v: Value) {
    v.Undefined? || v.Null?
  }

  /** `typeof v === 'object'` (null, arrays and objects). */
  predicate IsTypeofObject(v: Value) {
    v.Null? || v.Arr? || v.Obj?
  }

  /** `a || b` */
  function Or(a: Value, b: Value): (r: Value)
    ensures Truthy(a) ==> r == a
    ensures !Truthy(a) ==> r == b
  {
    if Truthy(a) then a else b
  }

  /** `o[k]` on a plain object: `undefined` when the property is absent. */
  function Get(o: Object, k: string): (r: Value)
    ensures k in o ==> r == o[k]
    ensures k !in o ==> r == Undefined
  {
    if k in o then o[k] else Undefined
  }

  /** `v[k]` for a named property `k`: objects answer with their own property,
      every other value has none of the names the tools read. */
  function Prop(v: Value, k: string): (r: Value)
    ensures v.Obj? ==> r == Get(v.fields, k)
    ensures !v.Obj? ==> r == Undefined
  {
    if v.Obj? then Get(v.fields, k) else Undefined
  }

  /** The own properties `{...v}` copies: an object's fields, nothing for any other value. */
  function SpreadProps(v: Value): (r: Object)
    ensures v.Obj? ==> r == v.fields
    ensures !v.Obj? ==> r == map[]
  {
    if v.Obj? then v.fields else map[]
  }

  /** `v[k] = x`: an object gains or replaces the property; a write on any other
      value is not kept (lost on a primitive, and not serialised on an array). */
  function PutProp(v: Value, k: string, x: Value): (r: Value)
    ensures v.Obj? ==> r == Obj(v.fields[k := x])
    ensures !v.Obj? ==> r == v
  {
    if v.Obj? then Obj(v.fields[k := x]) else v
  }

  /** A second write to the same property overwrites the first. */
  lemma PutPropTwice(v: Value, k: string, x: Value, y: Value)
    ensures PutProp(PutProp(v, k, x), k, y) == PutProp(v, k, y)
  {
    if v.Obj? {
      assert v.fields[k := x][k := y] == v.fields[k := y];
    }
  }

  function DigitChar(d: int): char
    requires 0 <= d < 10
  {
    "0123456789"[d]
  }

  /** Decimal digits of a natural number. */
  function NatToString(n: nat): (r: string)
    ensures |r| >= 1
    decreases n
  {
    if n < 10 then [DigitChar(n)] else NatToString(n / 10) + [DigitChar(n % 10)]
  }

  /** `String(v)` as used by template literals and by `URLSearchParams.append`. */
  function JsString(v: Value): string
    decreases v
  {
    match v
    case Undefined => "undefined"
    case Null => "null"
    case Bool(b) => if b then "true" else "false"
    case Num(n) => if n < 0 then "-" + NatToString(-n) else NatToString(n)
    case Str(s) => s
    case Arr(items) => JoinElements(v, items)
    case Obj(_) => "[object Object]"
  }

  /** `Array.prototype.join(',')`, where `null` and `undefined` elements print as empty. */
  function JoinElements(ghost whole: Value, items: seq<Value>): string
    requires forall x :: x in items ==> x < whole
    decreases whole, |items|
  {
    if items == [] then ""
    else
      assert items[0] in items;
      assert forall x :: x in items[1..] ==> x in items;
      var first := if IsNullish(items[0]) then "" else JsString(items[0]);
      if |items| == 1 then first else first + "," + JoinElements(whole, items[1..])
  }

  /** The encodings the source delegates to the runtime: `JSON.parse` (None when the text
      is not JSON), `JSON.stringify`, and `URLSearchParams(...).toString()` over
      name/value pairs. They are parameters of the model, not re-implemented. */
  datatype Codec = Codec(
    parse: string -> Option<Value>,
    stringify: Value -> string,
    formEncode: map<string, string> -> string)

  /** `try { JSON.parse(s); true } catch { false }` */
  predicate IsJson(codec: Codec, s: string) {
    codec.parse(s).Some?
  }

  /** The pairs `URLSearchParams.append` receives from `Object.entries(o)` when
      `null` and `undefined` values are skipped. */
  function NonNullPairs(o: Object): (r: map<string, string>)
    ensures forall k :: k in r <==> k in o && !IsNullish(o[k])
    ensures forall k :: k in r ==> r[k] == JsString(o[k])
  {
    map k | k in o && !IsNullish(o[k]) :: JsString(o[k])
  }

  /** The pairs `new URLSearchParams(o)` takes from an object: every property, stringified. */
  function AllPairs(o: Object): (r: map<string, string>)
    ensures r.Keys == o.Keys
    ensures forall k :: k in r ==> r[k] == JsString(o[k])
  {
    map k | k in o :: JsString(o[k])
  }
}
