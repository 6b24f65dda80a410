/** The few JavaScript value semantics the screen's code depends on: a property
    read that finds nothing yields `undefined`, and `===` between values of
    different types is false. Props are passed by name, so a component that reads
    a prop under a name its parent did not use sees `undefined`. */
module Js {

  datatype Option<+T> = None | Some(value: T)

  /** A JavaScript value, as far as this screen uses values. A function value
      is known by the name of the binding it came from (a state setter). */
  datatype JsValue =
    | Undefined
    | Bool(b: bool)
    | Number(n: int)
    | Str(s: string)
    | Object(fields: map<string, JsValue>)
    | Function(name: string)
  {
    /** Objects and functions are compared by identity, which is not modelled. */
    predicate IsReference() {
      Object? || Function?
    }
  }

  /** `v.key`: an own property of an object, otherwise `undefined`. Booleans,
      numbers and strings have no own properties the screen reads. */
  function Member(v: JsValue, key: string): JsValue
  {
    if v.Object? && key in v.fields then v.fields[key] else Undefined
  }

  /** `a === b`, except between two references (identity is not modelled). */
  function StrictEquals(a: JsValue, b: JsValue): (r: bool)
    requires !(a.IsReference() && b.IsReference())
    ensures r ==> a == b
    ensures !a.IsReference() && a == b ==> r
  {
    !a.IsReference() && !b.IsReference() && a == b
  }

  /** The props object a component receives: named values. */
  type Props = map<string, JsValue>

  /** `props.key`. */
  function Prop(props: Props, key: string): JsValue
  {
    if key in props then props[key] else Undefined
  }
}
