/**
 * The validator's unit-test scenarios, and a repeated call, stated as methods that call `Validate`
 * on fresh objects. Each returns the violations left in the context and what escaped.
 */
module ValidatorScenarios {
  import opened Wrappers
  import opened Exceptions
  import opened HttpRequest
  import opened ErrorManager
  import opened CaptchaValidator

  /** The message of a default `CloudflareTurnstileCaptcha` constraint. */
  const RejectedCaptcha := "rejected_captcha"

  /** The value the tests pass as the validated value. */
  const EmptyValue := Scalar(StringScalar(""))

  /** A fresh context, a validator over it, and one `validate` call with a captcha constraint. */
  method ValidateOnce(currentRequest: Option<Request>, explicitErrors: bool, respond: FieldValue -> Verdict)
    returns (violations: seq<string>, raised: Option<Raised>, ghost calls: seq<FieldValue>)
    ensures var o := ValidateOutcome(CloudflareTurnstileCaptcha(RejectedCaptcha), currentRequest, respond,
                                     CloudflareTurnstileErrorManager(explicitErrors));
      && violations == o.added && raised == o.raised
      && calls == (if o.verifiedToken.Some? then [o.verifiedToken.value] else [])
  {
    var client := new CloudflareTurnstileClient(respond);
    var validator := new CloudflareTurnstileCaptchaValidator(currentRequest, CloudflareTurnstileErrorManager(explicitErrors), client);
    var context := new ExecutionContext();
    validator.Initialize(context);
    raised := validator.Validate(EmptyValue, CloudflareTurnstileCaptcha(RejectedCaptcha));
    violations := context.violations;
    calls := client.calls;
  }

  /** The request carries `true` as the token and the service answers success: no violation. */
  method SuccessfulCaptchaValidation() returns (violations: seq<string>, raised: Option<Raised>)
    ensures violations == [] && raised == None
  {
    var request := Request(map[TokenField := Stored(Scalar(BoolScalar(true)))]);
    ghost var calls;
    violations, raised, calls := ValidateOnce(Some(request), false, _ => Verified(true));
  }

  /** An empty request (the token reads as null) and the service answers failure: one violation. */
  method UnsuccessfulCaptchaValidation() returns (violations: seq<string>, raised: Option<Raised>, ghost calls: seq<FieldValue>)
    ensures violations == [RejectedCaptcha] && raised == None
    ensures calls == [Null]
  {
    violations, raised, calls := ValidateOnce(Some(Request(map[])), false, _ => Verified(false));
  }

  /** A constraint of another type: `UnexpectedTypeException`, no violation. */
  method InvalidCaptchaConstraintThrowsException() returns (violations: seq<string>, raised: Option<Raised>)
    ensures violations == [] && raised == Some(UnexpectedType(CaptchaConstraintClass))
  {
    var client := new CloudflareTurnstileClient(_ => Verified(true));
    var validator := new CloudflareTurnstileCaptchaValidator(Some(Request(map[])), CloudflareTurnstileErrorManager(false), client);
    var context := new ExecutionContext();
    validator.Initialize(context);
    raised := validator.Validate(EmptyValue, OtherConstraint);
    violations := context.violations;
  }

  /** The field reads as an array and explicit errors are on: one violation, then `InvalidResponse`. */
  method InvalidCaptchaResponse() returns (violations: seq<string>, raised: Option<Raised>, ghost calls: seq<FieldValue>)
    ensures violations == [RejectedCaptcha]
    ensures raised == Some(Turnstile(InvalidResponse(NotUniqueMessage, None)))
    ensures calls == []
  {
    var request := Request(map[TokenField := Stored(ArrayValue([]))]);
    violations, raised, calls := ValidateOnce(Some(request), true, _ => Verified(true));
  }

  /**
   * Reading the field raises a request-level error and explicit errors are on: one violation, then
   * `InvalidResponse` wrapping that error.
   */
  method InvalidCloudflareTurnstileRequest() returns (violations: seq<string>, raised: Option<Raised>, ghost calls: seq<FieldValue>)
    ensures violations == [RejectedCaptcha]
    ensures raised == Some(Turnstile(InvalidResponse(NotUniqueMessage, Some(RequestError("")))))
    ensures calls == []
  {
    var request := Request(map[TokenField := Refused(RequestError(""))]);
    violations, raised, calls := ValidateOnce(Some(request), true, _ => Verified(true));
  }

  /** The client throws an API failure and explicit errors are off: one violation, nothing escapes. */
  method InvalidCaptchaClientValidation() returns (violations: seq<string>, raised: Option<Raised>)
    ensures violations == [RejectedCaptcha] && raised == None
  {
    ghost var calls;
    violations, raised, calls := ValidateOnce(Some(Request(map[])), false, _ => Raises(ApiFailure("InvalidCaptchaClientValidation")));
  }

  /** The same failing client with explicit errors on: the API failure escapes after the violation. */
  method InvalidCaptchaClientValidationExplicit() returns (violations: seq<string>, raised: Option<Raised>)
    ensures violations == [RejectedCaptcha]
    ensures raised == Some(Turnstile(ApiFailure("InvalidCaptchaClientValidation")))
  {
    ghost var calls;
    violations, raised, calls := ValidateOnce(Some(Request(map[])), true, _ => Raises(ApiFailure("InvalidCaptchaClientValidation")));
  }

  /** No current request and explicit errors off: one violation, nothing escapes, the client is not called. */
  method MissingRequest() returns (violations: seq<string>, raised: Option<Raised>, ghost calls: seq<FieldValue>)
    ensures violations == [RejectedCaptcha] && raised == None && calls == []
  {
    violations, raised, calls := ValidateOnce(None, false, _ => Verified(true));
  }

  /**
   * Two `validate` calls on one validator and one context, with the same constraint: both let the
   * same thing escape, the context gains the same violations twice, and the client is asked about
   * the same token twice (or not at all). The client answers a token the same way each time.
   */
  method ValidateTwice(constraint: Constraint, currentRequest: Option<Request>, explicitErrors: bool,
                       respond: FieldValue -> Verdict)
    returns (first: Option<Raised>, second: Option<Raised>, violations: seq<string>, ghost calls: seq<FieldValue>)
    ensures var o := ValidateOutcome(constraint, currentRequest, respond, CloudflareTurnstileErrorManager(explicitErrors));
      && first == o.raised && second == first
      && violations == o.added + o.added
      && calls == (if o.verifiedToken.Some? then [o.verifiedToken.value, o.verifiedToken.value] else [])
  {
    var client := new CloudflareTurnstileClient(respond);
    var validator := new CloudflareTurnstileCaptchaValidator(currentRequest, CloudflareTurnstileErrorManager(explicitErrors), client);
    var context := new ExecutionContext();
    validator.Initialize(context);
    first := validator.Validate(EmptyValue, constraint);
    second := validator.Validate(EmptyValue, constraint);
    violations := context.violations;
    calls := client.calls;
  }
}
