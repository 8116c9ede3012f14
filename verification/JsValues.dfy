/** JavaScript values as JSON.parse yields them, and the few operations the usage code performs on them. */
module JsValues {

  datatype Js =
    | Undefined
    | Null
    | Bool(flag: bool)
    | Num(value: real)
    | Infinite(negative: bool)
    | Str(text: string)
    | Arr(items: seq<Js>)
    | Obj(fields: map<string, Js>)

  /** Optional property access: anything but an object has none of the properties read here. */
  function Get(v: Js, name: string): Js {
    if v.Obj? && name in v.fields then v.fields[name] else Undefined
  }

  predicate Nullish(v: Js) {
    v.Undefined? || v.Null?
  }

  /** v ?? w */
  function Or(v: Js, w: Js): Js {
    if Nullish(v) then w else v
  }

  predicate Truthy(v: Js) {
    match v
    case Undefined => false
    case Null => false
    case Bool(flag) => flag
    case Num(value) => value != 0.0
    case Str(text) => text != ""
    case _ => true
  }

  /** The single sanitizer of every reported count: a finite non-negative number, or zero. */
  function SanitizeCount(v: Js): (r: real)
    ensures r >= 0.0
    ensures v.Num? && v.value >= 0.0 ==> r == v.value
  {
    if v.Num? && v.value >= 0.0 then v.value else 0.0
  }

  /** The canonical usage object: provider-reported fields, unsanitized until they are priced. */
  datatype Usage = Usage(input: Js, output: Js, write: Js, read: Js, write1h: Js)
}
