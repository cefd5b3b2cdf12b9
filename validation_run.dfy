/**
 * The framework calls `validate` once per constraint, all on one execution context, and a raised
 * error ends the whole validation. These lemmas show that the validator keeps no state of its own
 * between calls: violations recorded earlier are kept and do not influence later calls.
 */
module ValidationRun {
  import opened Wrappers
  import opened Exceptions
  import opened HttpRequest
  import opened ErrorManager
  import opened CaptchaValidator

  /** The inputs of one `validate` call that can change between calls of one validator. */
  datatype Attempt = Attempt(constraint: Constraint, currentRequest: Option<Request>)

  /** The context's violations after the run, what escaped, and how many calls were made. */
  datatype RunResult = RunResult(violations: seq<string>, raised: Option<Raised>, performed: nat)

  function OutcomeOf(a: Attempt, respond: FieldValue -> Verdict, manager: CloudflareTurnstileErrorManager): (o: Outcome)
  {
    ValidateOutcome(a.constraint, a.currentRequest, respond, manager)
  }

  /** Validate each attempt in turn on a context holding `violations`, stopping at the first raised error. */
  function Run(respond: FieldValue -> Verdict, manager: CloudflareTurnstileErrorManager,
               violations: seq<string>, attempts: seq<Attempt>): (r: RunResult)
    decreases |attempts|
  {
    if attempts == [] then RunResult(violations, None, 0)
    else
      var o := OutcomeOf(attempts[0], respond, manager);
      if o.raised.Some? then RunResult(violations + o.added, o.raised, 1)
      else
        var rest := Run(respond, manager, violations + o.added, attempts[1..]);
        RunResult(rest.violations, rest.raised, rest.performed + 1)
  }

  /** Violations already in the context stay in front, and do not change what the run does. */
  lemma {:induction false} RunKeepsEarlierViolations(respond: FieldValue -> Verdict,
                                                     manager: CloudflareTurnstileErrorManager,
                                                     violations: seq<string>, attempts: seq<Attempt>)
    ensures var first := Run(respond, manager, [], attempts);
      Run(respond, manager, violations, attempts)
        == RunResult(violations + first.violations, first.raised, first.performed)
    decreases |attempts|
  {
    if attempts != [] {
      var o := OutcomeOf(attempts[0], respond, manager);
      if o.raised.None? {
        RunKeepsEarlierViolations(respond, manager, violations + o.added, attempts[1..]);
        RunKeepsEarlierViolations(respond, manager, o.added, attempts[1..]);
        assert [] + o.added == o.added;
        var tail := Run(respond, manager, [], attempts[1..]).violations;
        assert (violations + o.added) + tail == violations + (o.added + tail);
      }
    }
  }

  /**
   * Each call adds at most one violation; the run makes every call unless one raises, and then it
   * stops right after it, with that call's violation as the last one recorded.
   */
  lemma {:induction false} RunStopsAtFirstRaise(respond: FieldValue -> Verdict,
                                                manager: CloudflareTurnstileErrorManager,
                                                violations: seq<string>, attempts: seq<Attempt>)
    ensures var r := Run(respond, manager, violations, attempts);
      && r.performed <= |attempts|
      && |violations| <= |r.violations| <= |violations| + r.performed
      && r.violations[..|violations|] == violations
      && (r.raised.None? ==> r.performed == |attempts|)
      && (r.raised.Some? ==>
            && 1 <= r.performed
            && (forall i :: 0 <= i < r.performed - 1 ==> OutcomeOf(attempts[i], respond, manager).raised.None?)
            && r.raised == OutcomeOf(attempts[r.performed - 1], respond, manager).raised)
      && (r.raised.Some? && r.raised.value.Turnstile? ==>
            && attempts[r.performed - 1].constraint.CloudflareTurnstileCaptcha?
            && |r.violations| > |violations|
            && r.violations[|r.violations| - 1] == attempts[r.performed - 1].constraint.message)
    decreases |attempts|
  {
    if attempts != [] {
      var o := OutcomeOf(attempts[0], respond, manager);
      if o.raised.None? {
        RunStopsAtFirstRaise(respond, manager, violations + o.added, attempts[1..]);
        var r := Run(respond, manager, violations, attempts);
        assert r.violations[..|violations|] == (r.violations[..|violations + o.added|])[..|violations|];
        if r.raised.Some? {
          forall i | 0 <= i < r.performed - 1
            ensures OutcomeOf(attempts[i], respond, manager).raised.None?
          {
            if i > 0 {
              assert attempts[i] == attempts[1..][i - 1];
            }
          }
          assert attempts[r.performed - 1] == attempts[1..][r.performed - 2];
        }
      }
    }
  }

  /** Validating the same inputs twice gives the same result both times. */
  lemma RepeatedValidationAgrees(respond: FieldValue -> Verdict, manager: CloudflareTurnstileErrorManager,
                                 violations: seq<string>, a: Attempt)
    ensures var o := OutcomeOf(a, respond, manager);
      Run(respond, manager, violations, [a, a])
        == if o.raised.Some? then RunResult(violations + o.added, o.raised, 1)
           else RunResult(violations + o.added + o.added, None, 2)
  {
    var o := OutcomeOf(a, respond, manager);
    assert [a, a][1..] == [a];
    if o.raised.None? {
      assert Run(respond, manager, violations + o.added, [a])
          == RunResult(violations + o.added + o.added, None, 1);
    }
  }
}
