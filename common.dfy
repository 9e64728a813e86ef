/** Failure-carrying results shared by every module, and the kinds of
    exception the modelled Python code can raise. */
module Common {

  datatype Option<+T> = None | Some(value: T)

  /** The exceptions the scraper's code raises.  Each one is the Python
      exception a line of the source would raise. */
  datatype Error =
    | AssertionError    // a failed `assert` inside a `validate` method
    | TypeError         // wrong argument count for RatingBreakdown, `len` of a type
    | ValueError        // `int()` of a non-number, unpacking the wrong number of values
    | IndexError        // `xs[k]` past the end of a list
    | KeyError          // a missing HTML attribute in `attrs[...]`
    | AttributeError    // `.text`, `.attrs` or `.strong` reached through a missing element
    | RequestFailed     // a non-OK HTTP status (make_request raises while reporting it)
    | ConnectionFailed  // the HTTP transport itself raised
    | LoginFailed       // the browser login flow raised
    | RepliesExhausted  // the scripted transport has no reply left (bound of the model)

  datatype Result<+T> = Ok(value: T) | Err(error: Error)

  datatype Outcome = Pass | Fail(error: Error)

  /** `acc` followed by the list in `r`, or the error of `r`. */
  function Then<T>(acc: seq<T>, r: Result<seq<T>>): Result<seq<T>>
  {
    match r
    case Ok(xs) => Ok(acc + xs)
    case Err(e) => Err(e)
  }

  lemma ThenNil<T>(r: Result<seq<T>>)
    ensures Then([], r) == r
  {
    match r
    case Ok(xs) => assert [] + xs == xs;
    case Err(_) =>
  }

  /** Prepending in two steps is prepending the concatenation. */
  lemma ThenThen<T>(a: seq<T>, b: seq<T>, r: Result<seq<T>>)
    ensures Then(a, Then(b, r)) == Then(a + b, r)
  {
    match r
    case Ok(xs) => assert a + (b + xs) == (a + b) + xs;
    case Err(_) =>
  }
}
