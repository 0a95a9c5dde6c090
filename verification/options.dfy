/** The verification policy handed to the validator, reduced to the fields
    that validation reads. Timestamps and durations are whole seconds since
    the Unix epoch. */
module Options {
  import opened Wrappers

  /** Clock-skew allowance used when the policy does not set one. */
  const DEFAULT_TIME_TOLERANCE_SECS: nat := 900

  datatype VerificationOptions = VerificationOptions(
    rejectBefore: Option<nat>,
    acceptFuture: bool,
    requiredSubject: Option<string>,
    requiredIssuer: Option<string>,
    requiredAudiences: Option<set<string>>,
    requiredNonce: Option<string>,
    timeTolerance: Option<nat>,
    maxValidity: Option<nat>
  )

  /** A policy that requires nothing and uses the default tolerance. */
  const DefaultOptions := VerificationOptions(None, false, None, None, None, None, None, None)

  /** The tolerance in force: the policy's own, or the default when unset. */
  function TimeTolerance(options: VerificationOptions): (t: nat)
    ensures options.timeTolerance.None? ==> t == DEFAULT_TIME_TOLERANCE_SECS
    ensures options.timeTolerance.Some? ==> t == options.timeTolerance.value
  {
    match options.timeTolerance
    case Some(t) => t
    case None => DEFAULT_TIME_TOLERANCE_SECS
  }
}
