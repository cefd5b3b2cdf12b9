/** The part of the inbound HTTP request the validator looks at: the POST parameter bag. */
module HttpRequest {
  import opened Wrappers
  import opened Exceptions

  /** A PHP scalar: `is_scalar` holds of exactly these. Floats are modelled as reals. */
  datatype ScalarValue =
    | BoolScalar(b: bool)
    | IntScalar(i: int)
    | FloatScalar(f: real)
    | StringScalar(s: string)

  /**
   * A PHP value as the parameter bag may hand it out. An object carries the result of its
   * `__toString` method when it has one (`None`: the method does not exist).
   */
  datatype FieldValue =
    | Null
    | Scalar(scalar: ScalarValue)
    | ArrayValue(items: seq<FieldValue>)
    | ObjectValue(toString: Option<string>)

  /** One entry of the bag: a stored value, or a value whose reading raises a request-level error. */
  datatype BagEntry = Stored(value: FieldValue) | Refused(error: RequestError)

  /** A request, reduced to its POST parameters (`$request->request`). */
  datatype Request = Request(request: map<string, BagEntry>)

  /** `$bag->get($key)`: the stored value, `null` for an absent key, or the request-level error. */
  function Get(bag: map<string, BagEntry>, key: string): (r: Result<FieldValue, RequestError>)
    ensures key !in bag ==> r == Success(Null)
  {
    if key !in bag then Success(Null)
    else match bag[key]
      case Stored(v) => Success(v)
      case Refused(e) => Failure(e)
  }
}
