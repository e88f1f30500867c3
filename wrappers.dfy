/** Option type shared by the model: a value that may be absent (JavaScript `undefined`). */
module Wrappers {

  datatype Option<T> = None | Some(value: T)

  /** The set holding the value of `o`, empty when there is none. */
  function OptionSet<T(!new)>(o: Option<T>): (r: set<T>)
    ensures |r| <= 1
    ensures forall x :: x in r <==> o == Some(x)
  {
    if o.Some? then {o.value} else {}
  }
}
