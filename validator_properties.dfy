/** What one `validate` call does on each of its paths, stated over `ValidateOutcome`. */
module ValidatorProperties {
  import opened Wrappers
  import opened Exceptions
  import opened HttpRequest
  import opened ErrorManager
  import opened CaptchaValidator

  /** A constraint of the wrong type is refused before the token is read or the client is called. */
  lemma ForeignConstraintIsRefusedFirst(constraint: Constraint, currentRequest: Option<Request>,
                                        respond: FieldValue -> Verdict, manager: CloudflareTurnstileErrorManager)
    requires !constraint.CloudflareTurnstileCaptcha?
    ensures ValidateOutcome(constraint, currentRequest, respond, manager)
         == Outcome([], None, None, Some(UnexpectedType(CaptchaConstraintClass)))
  {
  }

  /** An accepted token: no violation, the error manager is not consulted, nothing escapes. */
  lemma AcceptedTokenAddsNothing(message: string, currentRequest: Option<Request>,
                                 respond: FieldValue -> Verdict, manager: CloudflareTurnstileErrorManager)
    requires GetProvidedCaptchaResponseToken(currentRequest).Success?
    requires respond(GetProvidedCaptchaResponseToken(currentRequest).value) == Verified(true)
    ensures var o := ValidateOutcome(CloudflareTurnstileCaptcha(message), currentRequest, respond, manager);
      o.added == [] && o.gated == None && o.raised == None
  {
  }

  /** A rejected token: exactly one violation and no error, whatever the policy flag says. */
  lemma RejectedTokenIsNotAFault(message: string, currentRequest: Option<Request>,
                                 respond: FieldValue -> Verdict, manager: CloudflareTurnstileErrorManager)
    requires GetProvidedCaptchaResponseToken(currentRequest).Success?
    requires respond(GetProvidedCaptchaResponseToken(currentRequest).value) == Verified(false)
    ensures var o := ValidateOutcome(CloudflareTurnstileCaptcha(message), currentRequest, respond, manager);
      o.added == [message] && o.gated == None && o.raised == None
  {
  }

  /** No current request: one violation, and the `InvalidResponse` escapes iff explicit errors are on. */
  lemma MissingRequestFails(message: string, respond: FieldValue -> Verdict,
                            manager: CloudflareTurnstileErrorManager)
    ensures var o := ValidateOutcome(CloudflareTurnstileCaptcha(message), None, respond, manager);
      var e := InvalidResponse(InvalidRequestMessage, None);
      && o.added == [message] && o.verifiedToken == None && o.gated == Some(e)
      && o.raised == (if manager.explicitErrors then Some(Turnstile(e)) else None)
  {
  }

  /**
   * Reading the field raises a request-level error: it is wrapped as the previous exception of an
   * `InvalidResponse`, the client is not called, one violation is added, and the failure escapes iff
   * explicit errors are on.
   */
  lemma RequestErrorIsWrapped(message: string, request: Request, error: RequestError,
                              respond: FieldValue -> Verdict, manager: CloudflareTurnstileErrorManager)
    requires TokenField in request.request && request.request[TokenField] == Refused(error)
    ensures var o := ValidateOutcome(CloudflareTurnstileCaptcha(message), Some(request), respond, manager);
      var e := InvalidResponse(NotUniqueMessage, Some(error));
      && o.added == [message] && o.verifiedToken == None && o.gated == Some(e)
      && o.raised == (if manager.explicitErrors then Some(Turnstile(e)) else None)
  {
  }

  /**
   * The shape check: null, a scalar, or an object with `__toString` is handed back unchanged;
   * an absent field reads as null; anything else is an `InvalidResponse` without a previous exception.
   */
  lemma ShapeCheck(request: Request)
    requires TokenField !in request.request || request.request[TokenField].Stored?
    ensures var v := if TokenField in request.request then request.request[TokenField].value else Null;
      GetProvidedCaptchaResponseToken(Some(request))
        == if IsTokenShape(v) then Success(v) else Failure(InvalidResponse(NotUniqueMessage, None))
  {
  }

  /** A value of the wrong shape never reaches the client; the failure escapes iff explicit errors are on. */
  lemma MalformedTokenNeverReachesClient(message: string, request: Request,
                                         respond: FieldValue -> Verdict, manager: CloudflareTurnstileErrorManager)
    requires TokenField in request.request && request.request[TokenField].Stored?
    requires !IsTokenShape(request.request[TokenField].value)
    ensures var o := ValidateOutcome(CloudflareTurnstileCaptcha(message), Some(request), respond, manager);
      var e := InvalidResponse(NotUniqueMessage, None);
      && o.added == [message] && o.verifiedToken == None && o.gated == Some(e)
      && o.raised == (if manager.explicitErrors then Some(Turnstile(e)) else None)
  {
  }

  /** The client throws: one violation, and the same failure escapes iff explicit errors are on. */
  lemma ClientFailureEscapesIffExplicit(message: string, currentRequest: Option<Request>,
                                        respond: FieldValue -> Verdict, manager: CloudflareTurnstileErrorManager)
    requires GetProvidedCaptchaResponseToken(currentRequest).Success?
    requires respond(GetProvidedCaptchaResponseToken(currentRequest).value).Raises?
    ensures var o := ValidateOutcome(CloudflareTurnstileCaptcha(message), currentRequest, respond, manager);
      var e := respond(GetProvidedCaptchaResponseToken(currentRequest).value).failure;
      && o.added == [message] && o.gated == Some(e)
      && o.raised == (if manager.explicitErrors then Some(Turnstile(e)) else None)
  {
  }
}
