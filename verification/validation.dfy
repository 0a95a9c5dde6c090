/** Validation of a decoded claim set against a verification policy at a
    given instant `now` (seconds since the Unix epoch). The checks run in a
    fixed order and the first one that fails decides the error. */
module Validation {
  import opened Wrappers
  import opened Errors
  import opened Options
  import opened Audience
  import opened Claims

  /** One identity requirement (issuer, subject or nonce): an absent claim
      and a different claim are reported with different errors. */
  function RequireMatch(required: Option<string>, actual: Option<string>, missing: JWTError, mismatch: JWTError): (r: Result<(), JWTError>)
    ensures r.Success? <==> required.None? || actual == required
    ensures required.Some? && actual.None? ==> r == Failure(missing)
    ensures required.Some? && actual.Some? && actual != required ==> r == Failure(mismatch)
  {
    match required
    case None => Success(())
    case Some(req) =>
      match actual
      case Some(a) => Need(a == req, mismatch)
      case None => Failure(missing)
  }

  /** The audience requirement: every required audience must be a recipient
      of the token. An empty requirement never fails. */
  function RequireAudiences(required: Option<set<string>>, present: Option<Audiences>): (r: Result<(), JWTError>)
    ensures r.Success? <==> required.None? || required.value == {} || (present.Some? && required.value <= Recipients(present.value))
    ensures r == Failure(RequiredAudiencesMissing) <==> required.Some? && required.value != {} && present.None?
    ensures r == Failure(RequiredAudiencesMismatch) <==> required.Some? && present.Some? && !(required.value <= Recipients(present.value))
  {
    match required
    case None => Success(())
    case Some(req) =>
      match present
      case Some(aud) => Need(req <= Recipients(aud), RequiredAudiencesMismatch)
      case None => if req != {} then Failure(RequiredAudiencesMissing) else Success(())
  }

  /** The loop that checks the required audiences one by one against the
      token's recipients, stopping at the first one missing. */
  method AllRequiredPresent(required: set<string>, recipients: set<string>) returns (ok: bool)
    ensures ok <==> required <= recipients
  {
    var remaining := required;
    while remaining != {}
      invariant remaining <= required
      invariant required - remaining <= recipients
      decreases |remaining|
    {
      var a :| a in remaining;
      if a !in recipients {
        return false;
      }
      remaining := remaining - {a};
    }
    return true;
  }

  /** The validator, in the order of its checks. */
  function Validate<C>(claims: JWTClaims<C>, options: VerificationOptions, now: nat): (r: Result<(), JWTError>)
    ensures r.Success? <==> Accepts(claims, options, now)
    ensures r.Failure? ==> r.error != TooManyAudiences
    ensures options.rejectBefore.Some? && now > options.rejectBefore.value ==> r == Failure(OldTokenReused)
  {
    var tolerance := TimeTolerance(options);
    var _ :- if options.rejectBefore.Some? then Need(now <= options.rejectBefore.value, OldTokenReused) else Success(());
    var _ :- if claims.issuedAt.Some? then
               var issued := claims.issuedAt.value;
               var _ :- Need(issued <= now + tolerance, ClockDrift);
               if options.maxValidity.Some? then
                 Need(now <= issued || now - issued <= options.maxValidity.value, TokenIsTooOld)
               else Success(())
             else Success(());
    var _ :- if !options.acceptFuture && claims.invalidBefore.Some? then
               Need(now >= claims.invalidBefore.value, TokenNotValidYet)
             else Success(());
    var _ :- if claims.expiresAt.Some? then
               Need(now - tolerance <= claims.expiresAt.value, TokenHasExpired)
             else Success(());
    var _ :- RequireMatch(options.requiredIssuer, claims.issuer, RequiredIssuerMissing, RequiredIssuerMismatch);
    var _ :- RequireMatch(options.requiredSubject, claims.subject, RequiredSubjectMissing, RequiredSubjectMismatch);
    var _ :- RequireMatch(options.requiredNonce, claims.nonce, RequiredNonceMissing, RequiredNonceMismatch);
    var _ :- RequireAudiences(options.requiredAudiences, claims.audiences);
    Success(())
  }

  // Declarative conditions, one per check, stated independently of order.

  predicate NotRevoked(options: VerificationOptions, now: nat) {
    options.rejectBefore.None? || now <= options.rejectBefore.value
  }

  /** The token was not issued further in the future than the tolerance allows. */
  predicate NoClockDrift<C>(claims: JWTClaims<C>, options: VerificationOptions, now: nat) {
    claims.issuedAt.None? || claims.issuedAt.value <= now + TimeTolerance(options)
  }

  /** The token is no older than the maximum validity (a token issued in
      the future has age zero). */
  predicate YoungEnough<C>(claims: JWTClaims<C>, options: VerificationOptions, now: nat) {
    claims.issuedAt.None? || options.maxValidity.None? || now <= claims.issuedAt.value + options.maxValidity.value
  }

  predicate AlreadyValid<C>(claims: JWTClaims<C>, options: VerificationOptions, now: nat) {
    options.acceptFuture || claims.invalidBefore.None? || claims.invalidBefore.value <= now
  }

  predicate NotExpired<C>(claims: JWTClaims<C>, options: VerificationOptions, now: nat) {
    claims.expiresAt.None? || now <= claims.expiresAt.value + TimeTolerance(options)
  }

  /** All time-based checks pass. */
  predicate Timely<C>(claims: JWTClaims<C>, options: VerificationOptions, now: nat) {
    && NotRevoked(options, now)
    && NoClockDrift(claims, options, now)
    && YoungEnough(claims, options, now)
    && AlreadyValid(claims, options, now)
    && NotExpired(claims, options, now)
  }

  predicate Matches(required: Option<string>, actual: Option<string>) {
    required.None? || actual == required
  }

  predicate AudiencesSatisfied(required: Option<set<string>>, present: Option<Audiences>) {
    || required.None?
    || required.value == {}
    || (present.Some? && forall a :: a in required.value ==> a in Recipients(present.value))
  }

  /** The claim set meets every requirement of the policy at `now`. */
  predicate Accepts<C>(claims: JWTClaims<C>, options: VerificationOptions, now: nat) {
    && Timely(claims, options, now)
    && Matches(options.requiredIssuer, claims.issuer)
    && Matches(options.requiredSubject, claims.subject)
    && Matches(options.requiredNonce, claims.nonce)
    && AudiencesSatisfied(options.requiredAudiences, claims.audiences)
  }
}
