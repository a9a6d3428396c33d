/**
  What the pages see of the network. Every request is `await fetch(...)`
  followed, on most paths, by `await res.json()`; the model replaces both by
  an outcome value handed to the step that continues after the `await`.
 */
module Transport {

  datatype Option<+T> = None | Some(value: T)

  /** The result of `await res.json()`: the body was not JSON (the promise
      rejects), or it parsed to a value. */
  datatype Body<+T> = Malformed | Parsed(value: T)

  /** What a request produced: `fetch` rejected (network failure), or it
      resolved with an HTTP status, whatever that status is, and a body. */
  datatype Response<+T> = Rejected | Resolved(status: int, body: Body<T>)

  /** A parsed JSON value that the page reads one property of
      (`data.content`, `const { results } = data`): either `null`, on which
      reading a property throws, or any other value, which carries the
      property or lacks it. */
  datatype Reply<+T> = NullReply | Value(field: Option<T>)

  /** `Response.ok`: the status is in the range 200-299. */
  predicate IsOk(status: int) {
    200 <= status <= 299
  }
}
