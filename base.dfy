/** Small shared vocabulary: optional values, the outcome of a call to the
    remote API, and where the browser is sent after a handler runs. */
module Base {

  datatype Option<T> = None | Some(value: T)

  /** What an awaited API call produced: the response body, or the rejection
      (an exception carrying a message; "" when it had none). */
  datatype Outcome<T> = Ok(value: T) | Failed(message: string)

  /** The effect of a client-side handler on the router: stay, or navigate to a
      path with an ordered list of query parameters and an optional `from`
      pathname carried in the location state. */
  datatype Nav = Stay | NavigateTo(path: string, query: seq<(string, string)>, from: Option<string>)

  function Go(path: string): Nav
  {
    NavigateTo(path, [], None)
  }

  /** Record the error `e`, if there is one, under `key` in a dictionary of
      per-field errors. */
  function Put(m: map<string, string>, key: string, e: Option<string>): map<string, string>
  {
    if e.Some? then m[key := e.value] else m
  }

  /** "Clear error when user starts typing": only a non-empty message under
      the edited key is blanked. */
  function ClearedError(errors: map<string, string>, field: string): (r: map<string, string>)
    ensures r.Keys == errors.Keys
    ensures forall k :: k in errors && k != field ==> r[k] == errors[k]
    ensures field in errors ==> r[field] == ""
  {
    if field in errors && errors[field] != "" then errors[field := ""] else errors
  }
}
