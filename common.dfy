/** Small shared vocabulary: optional values, the outcome of a network call
    (handed to the model as an input) and integer clamps. */
module Common {

  /** A value that may be absent (JavaScript `null` / `undefined`). */
  datatype Option<+T> = None | Some(value: T)

  /** What an awaited `axios.get` / `api.get` produced: a response body, or a
      rejected promise carrying the error's message. */
  datatype Response<+T> = Received(body: T) | Failed(message: string)

  function Min(a: int, b: int): (r: int)
    ensures r <= a && r <= b && (r == a || r == b)
  {
    if a <= b then a else b
  }

  function Max(a: int, b: int): (r: int)
    ensures r >= a && r >= b && (r == a || r == b)
  {
    if a >= b then a else b
  }
}
