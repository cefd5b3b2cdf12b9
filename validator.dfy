/**
 * `CloudflareTurnstileCaptchaValidator`: reads the Turnstile response token from the current request,
 * has the client verify it, records a violation on rejection or failure, and lets the error manager
 * decide whether a failure propagates.
 */
module CaptchaValidator {
  import opened Wrappers
  import opened Exceptions
  import opened HttpRequest
  import opened ErrorManager

  /** Name of the POST field the Turnstile widget fills in. */
  const TokenField := "cf-turnstile-response"

  /** Class name the constraint must have (reported by `UnexpectedTypeException`). */
  const CaptchaConstraintClass := "CloudflareTurnstileCaptcha"

  const InvalidRequestMessage := "Invalid incoming request. Please check the provided request."
  const NotUniqueMessage := "Invalid Cloudflare Turnstile response. Captcha must be unique."

  /** The constraint handed to `validate`: the captcha constraint with its message, or any other constraint. */
  datatype Constraint = CloudflareTurnstileCaptcha(message: string) | OtherConstraint

  /** What the client's `verify` does with a token: return a boolean, or throw a bundle failure. */
  datatype Verdict = Verified(success: bool) | Raises(failure: Failure)

  /** Values the token check lets through: null, a scalar, or an object with a string conversion. */
  predicate IsTokenShape(v: FieldValue)
  {
    match v
    case Null => true
    case Scalar(_) => true
    case ArrayValue(_) => false
    case ObjectValue(toString) => toString.Some?
  }

  // PHP's `is_scalar`, `is_object` and `method_exists($v, '__toString')`, as the shape check in
  // GetProvidedCaptchaResponseToken uses them.
  predicate IsScalar(v: FieldValue) { v.Scalar? }
  predicate IsObject(v: FieldValue) { v.ObjectValue? }
  predicate HasToStringMethod(v: FieldValue) { v.ObjectValue? && v.toString.Some? }

  /**
   * `getProvidedCaptchaResponseToken`: the token read from the current request, unchanged, or the
   * `InvalidResponse` failure it throws.
   */
  function GetProvidedCaptchaResponseToken(currentRequest: Option<Request>): (r: Result<FieldValue, Failure>)
    ensures r.Failure? ==> r.error.InvalidResponse?
    ensures currentRequest.None? ==> r == Failure(InvalidResponse(InvalidRequestMessage, None))
    ensures currentRequest.Some? && Get(currentRequest.value.request, TokenField).Failure? ==>
      r == Failure(InvalidResponse(NotUniqueMessage, Some(Get(currentRequest.value.request, TokenField).error)))
    ensures r.Success? <==>
      currentRequest.Some? && Get(currentRequest.value.request, TokenField).Success? &&
      IsTokenShape(Get(currentRequest.value.request, TokenField).value)
    ensures r.Success? ==> r.value == Get(currentRequest.value.request, TokenField).value
    ensures r.Failure? && r.error.previous.None? && currentRequest.Some? ==> r.error.message == NotUniqueMessage
  {
    match currentRequest
    case None => Failure(InvalidResponse(InvalidRequestMessage, None))
    case Some(request) =>
      match Get(request.request, TokenField)
      case Failure(e) => Failure(InvalidResponse(NotUniqueMessage, Some(e)))
      case Success(token) =>
        if !token.Null? && !IsScalar(token) && !(IsObject(token) && HasToStringMethod(token)) then
          Failure(InvalidResponse(NotUniqueMessage, None))
        else
          Success(token)
  }

  /**
   * Everything one `validate` call does: the violations it adds to the context, the token it hands to
   * the client (`None`: the client is not called), the failure it hands to the error manager
   * (`None`: the manager is not consulted), and what it lets escape.
   */
  datatype Outcome = Outcome(
    added: seq<string>,
    verifiedToken: Option<FieldValue>,
    gated: Option<Failure>,
    raised: Option<Raised>)

  /** The catch block: one violation, then the error manager's decision. */
  function Caught(message: string, verifiedToken: Option<FieldValue>, e: Failure,
                  manager: CloudflareTurnstileErrorManager): (o: Outcome)
    ensures o.added == [message] && o.verifiedToken == verifiedToken && o.gated == Some(e)
    ensures o.raised.Some? <==> manager.explicitErrors
    ensures o.raised.Some? ==> o.raised.value == Turnstile(e)
  {
    var thrown := ThrowIfExplicitErrorsEnabled(manager, e);
    Outcome([message], verifiedToken, Some(e), if thrown.Some? then Some(Turnstile(thrown.value)) else None)
  }

  /** `validate` as a function of the constraint, the current request, the client and the error manager. */
  function ValidateOutcome(constraint: Constraint, currentRequest: Option<Request>,
                           respond: FieldValue -> Verdict, manager: CloudflareTurnstileErrorManager): (o: Outcome)
    // at most one violation, and it carries the constraint's message
    ensures |o.added| <= 1
    ensures o.added != [] ==> constraint.CloudflareTurnstileCaptcha? && o.added == [constraint.message]
    // the client sees exactly the extracted tokens, never an array or an object without __toString
    ensures o.verifiedToken.Some? <==>
      constraint.CloudflareTurnstileCaptcha? && GetProvidedCaptchaResponseToken(currentRequest).Success?
    ensures o.verifiedToken.Some? ==> o.verifiedToken.value == GetProvidedCaptchaResponseToken(currentRequest).value
    ensures o.verifiedToken.Some? ==> IsTokenShape(o.verifiedToken.value)
    // no violation exactly when the constraint is foreign or the client accepted the token
    ensures o.added == [] <==>
      !constraint.CloudflareTurnstileCaptcha? ||
      (o.verifiedToken.Some? && respond(o.verifiedToken.value) == Verified(true))
    // the error manager is consulted exactly on a failure, and only after a violation is recorded
    ensures o.gated.Some? <==>
      constraint.CloudflareTurnstileCaptcha? &&
      (GetProvidedCaptchaResponseToken(currentRequest).Failure? ||
       (o.verifiedToken.Some? && respond(o.verifiedToken.value).Raises?))
    ensures o.gated.Some? ==> o.added != []
    // the failure handed to the error manager is the extraction failure, or else the client's own
    ensures o.gated.Some? ==>
      o.gated.value == if o.verifiedToken.None? then GetProvidedCaptchaResponseToken(currentRequest).error
                       else respond(o.verifiedToken.value).failure
    // something escapes exactly for a foreign constraint, or for a failure under explicit errors
    ensures o.raised.Some? <==>
      !constraint.CloudflareTurnstileCaptcha? || (o.gated.Some? && manager.explicitErrors)
    ensures o.raised.Some? && constraint.CloudflareTurnstileCaptcha? ==> o.raised == Some(Turnstile(o.gated.value))
  {
    if !constraint.CloudflareTurnstileCaptcha? then
      Outcome([], None, None, Some(UnexpectedType(CaptchaConstraintClass)))
    else
      match GetProvidedCaptchaResponseToken(currentRequest)
      case Failure(e) => Caught(constraint.message, None, e, manager)
      case Success(token) =>
        match respond(token)
        case Verified(success) =>
          Outcome(if success then [] else [constraint.message], Some(token), None, None)
        case Raises(e) => Caught(constraint.message, Some(token), e, manager)
  }

  /** The validation context; only the violation list it accumulates is modelled. */
  class ExecutionContext {
    var violations: seq<string>

    constructor ()
      ensures violations == []
    {
      violations := [];
    }

    /** `buildViolation($message)->addViolation()`. */
    method AddViolation(message: string)
      modifies this
      ensures violations == old(violations) + [message]
    {
      violations := violations + [message];
    }
  }

  /**
   * The verification client. Its HTTP exchange is not modelled: `respond` says what `verify`
   * returns or throws for each token, and `calls` records the tokens it was asked about.
   */
  class CloudflareTurnstileClient {
    const respond: FieldValue -> Verdict
    ghost var calls: seq<FieldValue>

    constructor (respond: FieldValue -> Verdict)
      ensures this.respond == respond && calls == []
    {
      this.respond := respond;
      calls := [];
    }

    method Verify(token: FieldValue) returns (verdict: Verdict)
      modifies this
      ensures calls == old(calls) + [token]
      ensures verdict == respond(token)
    {
      calls := calls + [token];
      verdict := respond(token);
    }
  }

  class CloudflareTurnstileCaptchaValidator {
    /** What the request stack's `getCurrentRequest()` yields. */
    const currentRequest: Option<Request>
    const errorManager: CloudflareTurnstileErrorManager
    const client: CloudflareTurnstileClient
    /** Set by the framework's `initialize` before `validate` is called. */
    var context: ExecutionContext?

    constructor (currentRequest: Option<Request>, errorManager: CloudflareTurnstileErrorManager,
                 client: CloudflareTurnstileClient)
      ensures this.currentRequest == currentRequest && this.errorManager == errorManager
      ensures this.client == client && context == null
    {
      this.currentRequest := currentRequest;
      this.errorManager := errorManager;
      this.client := client;
      context := null;
    }

    method Initialize(context: ExecutionContext)
      modifies this
      ensures this.context == context
    {
      this.context := context;
    }

    /**
     * `validate($value, $constraint)`. The value is not looked at: the token comes from the request.
     * Returns what escapes the call (`None`: it returns normally).
     */
    method Validate(value: FieldValue, constraint: Constraint) returns (raised: Option<Raised>)
      requires context != null
      modifies context, client
      ensures var o := ValidateOutcome(constraint, currentRequest, client.respond, errorManager);
        && context.violations == old(context.violations) + o.added
        && client.calls == old(client.calls) + (if o.verifiedToken.Some? then [o.verifiedToken.value] else [])
        && raised == o.raised
    {
      if !constraint.CloudflareTurnstileCaptcha? {
        return Some(UnexpectedType(CaptchaConstraintClass));
      }
      var caught: Option<Failure> := None;
      var token := GetProvidedCaptchaResponseToken(currentRequest);
      if token.Failure? {
        caught := Some(token.error);
      } else {
        var verdict := client.Verify(token.value);
        match verdict
        case Verified(success) =>
          if !success {
            context.AddViolation(constraint.message);
          }
        case Raises(e) =>
          caught := Some(e);
      }
      raised := None;
      if caught.Some? {
        context.AddViolation(constraint.message);
        var thrown := ThrowIfExplicitErrorsEnabled(errorManager, caught.value);
        if thrown.Some? {
          raised := Some(Turnstile(thrown.value));
        }
      }
    }
  }
}
