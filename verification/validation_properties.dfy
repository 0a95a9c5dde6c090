/** What the validator promises: which error each check reports, that the
    first failing check wins, and the validity window of a fresh claim set. */
module ValidationProperties {
  import opened Wrappers
  import opened Errors
  import opened Options
  import opened Audience
  import opened Claims
  import opened Validation

  /** A `reject_before` cutoff in the past rejects the token whatever it contains. */
  lemma OldTokenReusedIff<C>(claims: JWTClaims<C>, options: VerificationOptions, now: nat)
    ensures Validate(claims, options, now) == Failure(OldTokenReused) <==> !NotRevoked(options, now)
  {
  }

  lemma ClockDriftIff<C>(claims: JWTClaims<C>, options: VerificationOptions, now: nat)
    ensures Validate(claims, options, now) == Failure(ClockDrift) <==>
      NotRevoked(options, now) && claims.issuedAt.Some? && claims.issuedAt.value > now + TimeTolerance(options)
  {
  }

  lemma TokenIsTooOldIff<C>(claims: JWTClaims<C>, options: VerificationOptions, now: nat)
    ensures Validate(claims, options, now) == Failure(TokenIsTooOld) <==>
      && NotRevoked(options, now)
      && NoClockDrift(claims, options, now)
      && claims.issuedAt.Some? && options.maxValidity.Some?
      && now > claims.issuedAt.value
      && now - claims.issuedAt.value > options.maxValidity.value
  {
  }

  /** A token issued at or after `now` is never too old. */
  lemma FutureTokenNeverTooOld<C>(claims: JWTClaims<C>, options: VerificationOptions, now: nat)
    requires claims.issuedAt.Some? && now <= claims.issuedAt.value
    ensures Validate(claims, options, now) != Failure(TokenIsTooOld)
  {
  }

  lemma TokenNotValidYetIff<C>(claims: JWTClaims<C>, options: VerificationOptions, now: nat)
    ensures Validate(claims, options, now) == Failure(TokenNotValidYet) <==>
      && NotRevoked(options, now)
      && NoClockDrift(claims, options, now)
      && YoungEnough(claims, options, now)
      && !options.acceptFuture
      && claims.invalidBefore.Some? && now < claims.invalidBefore.value
  {
  }

  /** With `accept_future` the not-before claim plays no part at all. */
  lemma AcceptFutureIgnoresNotBefore<C>(claims: JWTClaims<C>, options: VerificationOptions, now: nat)
    requires options.acceptFuture
    ensures Validate(claims, options, now) == Validate(claims.(invalidBefore := None), options, now)
  {
  }

  /** Expiry is inclusive: the token is accepted up to `expires_at + tolerance`. */
  lemma TokenHasExpiredIff<C>(claims: JWTClaims<C>, options: VerificationOptions, now: nat)
    ensures Validate(claims, options, now) == Failure(TokenHasExpired) <==>
      && NotRevoked(options, now)
      && NoClockDrift(claims, options, now)
      && YoungEnough(claims, options, now)
      && AlreadyValid(claims, options, now)
      && claims.expiresAt.Some? && now > claims.expiresAt.value + TimeTolerance(options)
  {
  }

  /** Once the time checks pass, a required issuer gives three outcomes:
      missing, mismatch, or the requirement is as good as absent. */
  lemma IssuerOutcomes<C>(claims: JWTClaims<C>, options: VerificationOptions, now: nat)
    requires Timely(claims, options, now) && options.requiredIssuer.Some?
    ensures claims.issuer.None? ==> Validate(claims, options, now) == Failure(RequiredIssuerMissing)
    ensures claims.issuer.Some? && claims.issuer != options.requiredIssuer ==>
      Validate(claims, options, now) == Failure(RequiredIssuerMismatch)
    ensures claims.issuer == options.requiredIssuer ==>
      Validate(claims, options, now) == Validate(claims, options.(requiredIssuer := None), now)
  {
  }

  lemma SubjectOutcomes<C>(claims: JWTClaims<C>, options: VerificationOptions, now: nat)
    requires Timely(claims, options, now) && Matches(options.requiredIssuer, claims.issuer)
    requires options.requiredSubject.Some?
    ensures claims.subject.None? ==> Validate(claims, options, now) == Failure(RequiredSubjectMissing)
    ensures claims.subject.Some? && claims.subject != options.requiredSubject ==>
      Validate(claims, options, now) == Failure(RequiredSubjectMismatch)
    ensures claims.subject == options.requiredSubject ==>
      Validate(claims, options, now) == Validate(claims, options.(requiredSubject := None), now)
  {
  }

  lemma NonceOutcomes<C>(claims: JWTClaims<C>, options: VerificationOptions, now: nat)
    requires Timely(claims, options, now)
    requires Matches(options.requiredIssuer, claims.issuer) && Matches(options.requiredSubject, claims.subject)
    requires options.requiredNonce.Some?
    ensures claims.nonce.None? ==> Validate(claims, options, now) == Failure(RequiredNonceMissing)
    ensures claims.nonce.Some? && claims.nonce != options.requiredNonce ==>
      Validate(claims, options, now) == Failure(RequiredNonceMismatch)
    ensures claims.nonce == options.requiredNonce ==>
      Validate(claims, options, now) == Validate(claims, options.(requiredNonce := None), now)
  {
  }

  /** The audience check comes last: an empty requirement never fails, a
      non-empty one fails as missing without an audience claim, and as a
      mismatch exactly when some required audience is not a recipient. */
  lemma AudienceOutcomes<C>(claims: JWTClaims<C>, options: VerificationOptions, now: nat)
    requires Timely(claims, options, now)
    requires Matches(options.requiredIssuer, claims.issuer) && Matches(options.requiredSubject, claims.subject)
    requires Matches(options.requiredNonce, claims.nonce)
    ensures options.requiredAudiences.None? || options.requiredAudiences.value == {} ==>
      Validate(claims, options, now) == Success(())
    ensures options.requiredAudiences.Some? && options.requiredAudiences.value != {} && claims.audiences.None? ==>
      Validate(claims, options, now) == Failure(RequiredAudiencesMissing)
    ensures options.requiredAudiences.Some? && claims.audiences.Some? ==>
      (Validate(claims, options, now) == Failure(RequiredAudiencesMismatch) <==>
       exists a :: a in options.requiredAudiences.value && a !in Recipients(claims.audiences.value))
  {
  }

  /** A fresh claim set checked against the default policy: too far in the
      future is clock drift, before its creation it is not valid yet, after
      its lifetime plus the default tolerance it has expired, and in between
      it is accepted. */
  lemma FreshClaimsVerdict<C>(custom: C, validFor: nat, created: nat, now: nat)
    ensures Validate(WithCustomClaims(custom, validFor, created), DefaultOptions, now) ==
      if created > now + DEFAULT_TIME_TOLERANCE_SECS then Failure(ClockDrift)
      else if now < created then Failure(TokenNotValidYet)
      else if now > created + validFor + DEFAULT_TIME_TOLERANCE_SECS then Failure(TokenHasExpired)
      else Success(())
  {
  }

  /** The window in which a claim set from `Create` passes the default policy. */
  lemma CreatedClaimsValidWindow(validFor: nat, created: nat, now: nat)
    ensures Validate(Create(validFor, created), DefaultOptions, now).Success? <==>
      created <= now <= created + validFor + DEFAULT_TIME_TOLERANCE_SECS
  {
  }
}
