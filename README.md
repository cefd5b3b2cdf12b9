# Cloudflare Turnstile captcha validator — a Dafny model

This project models the captcha validator of the Cloudflare Turnstile bundle for Symfony,
`CloudflareTurnstileCaptchaValidator`. The validator works in four steps:

1. It reads the `cf-turnstile-response` field from the current request.
2. It rejects token values that are not null, a scalar, or an object with `__toString`.
3. It asks the verification client to verify the token.
4. It records a violation with the constraint's message when the token is rejected or a bundle failure (`CloudflareTurnstileException`) occurs. After recording it, the error manager decides whether the failure propagates: it does only when "explicit errors" are enabled.

Files:

- `wrappers.dfy`: `Option` and `Result`.
- `exceptions.dfy`: the request-level error, the bundle's failure kinds (`InvalidResponse`, `ApiFailure`, the base class) and what `validate` can raise.
- `http_request.dfy`: PHP values as the request's parameter bag hands them out. A missing field reads as null, and an entry can raise a request-level error.
- `error_manager.dfy`: the error-policy gate.
- `validator.dfy`: token extraction, and `validate` as a function (`ValidateOutcome`) and as a method of the validator class. The method appends to the execution context's violation list and calls the client.
- `validator_properties.dfy`: lemmas, one per path through `validate`.
- `validation_run.dfy`: several `validate` calls on one context, the way the framework uses a validator. The lemmas show that violations recorded earlier stay in place and do not change later calls, that each call adds at most one violation, and that a series stops at the first raised error with that call's violation recorded last.
- `validator_scenarios.dfy`: the unit-test scenarios, and two calls on one validator and context, stated as methods that call `Validate` on fresh objects.

A token of the wrong shape fails before the client is called, so the client's answer never applies to it; with explicit errors on, `InvalidResponse` escapes.

## Model

| member | source | states |
|---|---|---|
| `ErrorManager.ThrowIfExplicitErrorsEnabled` | tests/Unit/ErrorManager/CloudflareTurnstileErrorManagerTest.php:15-29 | The failure propagates if and only if the explicit-errors flag is set, and it propagates unchanged |
| `CaptchaValidator.GetProvidedCaptchaResponseToken` | src/Validator/CloudflareTurnstileCaptchaValidator.php:77-96 | Every failure is an `InvalidResponse`. No current request gives the "invalid incoming request" message with no previous exception. A request-level error while reading the field is wrapped as the previous exception. Success holds exactly when a request exists, the field can be read and its value has an accepted shape; the value is then returned unchanged |
| `CaptchaValidator.ValidateOutcome` | src/Validator/CloudflareTurnstileCaptchaValidator.php:52-68 | At most one violation, carrying the constraint's message. The client is called exactly when extraction succeeds, with exactly the extracted token, so never with an array or a non-stringable object. There is no violation exactly when the constraint is foreign or the client accepted. The error manager is consulted exactly on a failure, always after a violation, and is handed the extraction failure or else the client's own failure. Something escapes exactly for a foreign constraint, or for a failure when explicit errors are on, and then it is the same failure |
| `CaptchaValidator.Caught` | src/Validator/CloudflareTurnstileCaptchaValidator.php:64-66 | The catch block adds exactly one violation with the constraint's message and hands the failure to the error manager; the same failure escapes if and only if explicit errors are on |
| `CaptchaValidator.ExecutionContext.AddViolation` | src/Validator/CloudflareTurnstileCaptchaValidator.php:62 | Appends exactly one violation with the given message to the context |
| `CaptchaValidator.CloudflareTurnstileClient.Verify` | src/Validator/CloudflareTurnstileCaptchaValidator.php:61 | Records the token the client is asked about and returns the client's verdict for it |
| `CaptchaValidator.CloudflareTurnstileCaptchaValidator.constructor` | src/Validator/CloudflareTurnstileCaptchaValidator.php:36-41 | Stores the current request, the error manager and the client; no context is set until the framework initializes the validator |
| `CaptchaValidator.CloudflareTurnstileCaptchaValidator.Validate` | src/Validator/CloudflareTurnstileCaptchaValidator.php:52-68 | Adds to the context exactly the violations `ValidateOutcome` lists, calls the client with exactly the token it lists (or not at all), and raises exactly what it lists |
| `ValidatorProperties.ForeignConstraintIsRefusedFirst` | src/Validator/CloudflareTurnstileCaptchaValidator.php:54-56 | A non-captcha constraint raises `UnexpectedTypeException`. No violation is added, the client is not called and the error manager is not consulted |
| `ValidatorProperties.AcceptedTokenAddsNothing` | src/Validator/CloudflareTurnstileCaptchaValidator.php:61-63 | If the client accepts the token, there is no violation, the error manager is not consulted and nothing escapes |
| `ValidatorProperties.RejectedTokenIsNotAFault` | src/Validator/CloudflareTurnstileCaptchaValidator.php:61-62 | If the client rejects the token, exactly one violation with the constraint's message is added, and nothing escapes under either flag value |
| `ValidatorProperties.MissingRequestFails` | src/Validator/CloudflareTurnstileCaptchaValidator.php:80-84 | With no current request: one violation, the client is not called, and the "invalid incoming request" `InvalidResponse` escapes if and only if explicit errors are on |
| `ValidatorProperties.RequestErrorIsWrapped` | src/Validator/CloudflareTurnstileCaptchaValidator.php:86-87 | A request-level error becomes an `InvalidResponse` that wraps it. The client is not called, one violation is added, and the failure escapes if and only if explicit errors are on |
| `ValidatorProperties.ShapeCheck` | src/Validator/CloudflareTurnstileCaptchaValidator.php:91-95 | A readable field (a missing field reads as null) is returned unchanged if it is null, a scalar or a stringable object; otherwise the result is `InvalidResponse` with no previous exception |
| `ValidatorProperties.MalformedTokenNeverReachesClient` | src/Validator/CloudflareTurnstileCaptchaValidator.php:91-93 | A wrongly shaped value is never passed to the client. It gives one violation, and `InvalidResponse` escapes if and only if explicit errors are on |
| `ValidatorProperties.ClientFailureEscapesIffExplicit` | src/Validator/CloudflareTurnstileCaptchaValidator.php:64-66 | A failure thrown by the client gives one violation and goes to the error manager. The same failure escapes if and only if explicit errors are on |
| `ValidationRun.RunKeepsEarlierViolations` | src/Validator/CloudflareTurnstileCaptchaValidator.php:58-67 | Over a series of `validate` calls on one context, violations recorded earlier stay in front. What the series adds and raises does not depend on them |
| `ValidationRun.RunStopsAtFirstRaise` | src/Validator/CloudflareTurnstileCaptchaValidator.php:58-67 | Each call adds at most one violation, and existing violations are kept. Every call is made unless one raises; the series stops right after the first call that raises. When that error is a bundle failure, the last violation recorded is that call's message |
| `ValidationRun.RepeatedValidationAgrees` | src/Validator/CloudflareTurnstileCaptchaValidator.php:52-68 | Given a client that answers a token the same way each time, two calls with the same inputs give the same result: the same violations, added twice, unless the first call raises |
| `ValidatorScenarios.SuccessfulCaptchaValidation` | tests/Unit/Validator/CloudflareTurnstileCaptchaValidatorTest.php:85-100 | A `true` token that the service accepts gives no violation and nothing escapes |
| `ValidatorScenarios.UnsuccessfulCaptchaValidation` | tests/Unit/Validator/CloudflareTurnstileCaptchaValidatorTest.php:102-113 | An empty request passes null to the client. If the client rejects it, the result is one `rejected_captcha` violation and nothing escapes |
| `ValidatorScenarios.InvalidCaptchaConstraintThrowsException` | tests/Unit/Validator/CloudflareTurnstileCaptchaValidatorTest.php:117-122 | A foreign constraint raises `UnexpectedTypeException` and adds no violation |
| `ValidatorScenarios.InvalidCaptchaResponse` | tests/Unit/Validator/CloudflareTurnstileCaptchaValidatorTest.php:124-165 | An array token with explicit errors on gives one violation, then `InvalidResponse`. The client is never called |
| `ValidatorScenarios.InvalidCloudflareTurnstileRequest` | tests/Unit/Validator/CloudflareTurnstileCaptchaValidatorTest.php:170-197 | A request-level error with explicit errors on gives one violation, then `InvalidResponse` wrapping that error. The client is never called |
| `ValidatorScenarios.InvalidCaptchaClientValidation` | tests/Unit/Validator/CloudflareTurnstileCaptchaValidatorTest.php:199-211 | An API failure from the client with explicit errors off gives one violation and nothing escapes |
| `ValidatorScenarios.InvalidCaptchaClientValidationExplicit` | src/Validator/CloudflareTurnstileCaptchaValidator.php:64-66 | An API failure from the client with explicit errors on gives one violation, then the same API failure |
| `ValidatorScenarios.ValidateTwice` | src/Validator/CloudflareTurnstileCaptchaValidator.php:52-68 | Two `Validate` calls on one validator and one context, with a client that answers a token the same way each time, let the same thing escape; the context gains the call's violations twice, and the client is asked about the same token twice or not at all |
| `ValidatorScenarios.MissingRequest` | src/Validator/CloudflareTurnstileCaptchaValidator.php:80-84 | No current request with explicit errors off gives one violation, nothing escapes, and the client is never called |

## Left out

- The verification client's HTTP exchange with the remote endpoint (payload, secret key, extra parameters, JSON parsing) is not part of this model. The client is an oracle (`respond`) that returns a boolean or throws a bundle failure for each token. Exceptions from the client outside the `CloudflareTurnstileException` family are not modelled.
- The error manager's source is not part of this model. Its behaviour is taken from its unit tests: re-raise if and only if the flag is set.
- Symfony's `RequestStack` is modelled only as the optional request it yields. `InputBag`/`ParameterBag` are modelled as a map from field names to stored values or request-level errors. The rule that decides which values make the bag raise (Symfony 6 refuses non-scalars, Symfony 5 returns them) is not modelled: both behaviours can be given as input.
- The violation builder, translation of the message, and the constraint class's own definition are not modelled. The message `rejected_captcha` used by the scenarios is the default from the unit tests.
- PHP type reflection (`is_scalar`, `is_object`, `method_exists`) is replaced by the tags of `FieldValue`. Floats are modelled as reals, without NaN or infinities.
- The validated `$value` argument is taken by `Validate` but is never read, as in the source.
- The framework's loop over constraints is not part of the source. `ValidationRun` models calls made with one error manager and one client on one context. Each call's inputs are a constraint and the current request.
- The validator class fixes the request stack's current request for its lifetime, whereas `ValidationRun` lets the current request change between calls (the request stack may be pushed to between them). The class does not model a request stack that changes under a live validator.
- `ValidationRun.RepeatedValidationAgrees` and `ValidatorScenarios.ValidateTwice` assume the remote service answers a given token the same way on every call, because the client oracle is one fixed function of the token. The source makes a network call per `verify`, which may answer the same token differently on two calls (a transport failure, then success); the model does not capture that.
- Concurrency, timeouts and retries belong to the transport and are not modelled.
