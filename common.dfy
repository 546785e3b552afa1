/** Small value types shared by the server and the browser model. */
module Common {

  /** A value that may be SQL NULL, a missing JSON field or an absent URL parameter. */
  datatype Option<+T> = None | Some(value: T)

  /** The outcome of an operation that may fail with a message (a rejected promise, a thrown error). */
  datatype Result<+T> = Ok(value: T) | Err(message: string)

  /** JavaScript truthiness of a string that may be null or undefined: present and non-empty. */
  predicate Truthy(s: Option<string>)
    ensures Truthy(s) <==> s != None && s != Some("")
  {
    s.Some? && s.value != ""
  }

  /** The `a || b` fallback of two nullable strings: `a` when it is truthy, else `b`. */
  function OrElse(a: Option<string>, b: Option<string>): (r: Option<string>)
    ensures Truthy(a) ==> r == a
    ensures !Truthy(a) ==> r == b
    ensures Truthy(r) <==> Truthy(a) || Truthy(b)
  {
    if Truthy(a) then a else b
  }

  /** The `a || fallback` of a nullable string and a non-empty literal. */
  function Label(a: Option<string>, fallback: string): (r: string)
    ensures Truthy(a) ==> r == a.value
    ensures !Truthy(a) ==> r == fallback
    ensures fallback != "" ==> r != ""
  {
    if Truthy(a) then a.value else fallback
  }
}
