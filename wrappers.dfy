/** Failure-carrying values shared by every module of the model.

    The original program signals failure by raising Python exceptions; the model
    makes each such exception an `Error` value, returned in a `Result` (a value or
    an error) or an `Outcome` (normal return or an error). */
module Wrappers {

  datatype Option<+T> = None | Some(value: T)

  /** The Python exceptions the modelled code can raise or let through. */
  datatype Error =
    | KeyError(key: string)           // dict.pop, dict[...] or Enum[...] on a missing key
    | AttributeError(name: string)    // reading an attribute the object does not have
    | TypeError                       // a value of the wrong type, e.g. open(None)
    | FileNotFound(path: string)      // open(path, "r") on a file that does not exist
    | DecodeError                     // a UnicodeDecodeError or a JSONDecodeError
    | SerializeError                  // json.dumps could not serialize a value
    | SdkError                        // a call into the world-server SDK raised
    | ZeroDivisionError               // `index % 0`

  datatype Result<+T> = Ok(value: T) | Err(error: Error)

  /** How a call that returns nothing ended: normally, or by raising. */
  datatype Outcome = Pass | Fail(error: Error)

  /** A finite lazy sequence, as a Python generator is seen by the loop that
      drains it: it yields `items` in order and then either stops (`fault` is
      None) or raises `fault`. */
  datatype Stream<T> = Stream(items: seq<T>, fault: Option<Error>)

  /** The outcome of letting an optional error propagate. */
  function Propagate(raised: Option<Error>): (o: Outcome)
    ensures o.Pass? <==> raised.None?
    ensures raised.Some? ==> o == Fail(raised.value)
  {
    match raised
    case None => Pass
    case Some(e) => Fail(e)
  }
}
