/** Concrete claim sets built with the builders, with their verdicts proved. */
module Scenarios {
  import opened Wrappers
  import opened Errors
  import opened Options
  import opened Audience
  import opened Claims
  import opened Validation

  /** The standard claims set by a builder chain are the values given, and
      the audiences keep the set form in the default mode. */
  lemma StandardClaimsAreSet(created: nat)
    ensures var r := WithAudiences(Create(600, created), {"audience1", "audience2"});
      && r.Success?
      && var claims := WithSubject(WithNonce(WithJwtId(WithIssuer(r.value, "issuer"), "jwt_id"), "nonce"), "subject");
      && claims.audiences == Some(AsSet({"audience1", "audience2"}))
      && claims.issuer == Some("issuer")
      && claims.jwtId == Some("jwt_id")
      && claims.nonce == Some("nonce")
      && claims.subject == Some("subject")
  {
  }

  function ServiceClaims(created: nat): (r: Result<JWTClaims<NoCustomClaims>, JWTError>)
    ensures r.Success? && r.value.audiences == Some(AsSet({"aud-1", "aud-2"}))
  {
    WithAudiences(WithSubject(WithIssuer(Create(600, created), "svc-a"), "user-1"), {"aud-1", "aud-2"})
  }

  /** Ten seconds after creation the issuer and one of the two audiences
      are accepted; an audience the token does not name is a mismatch. */
  lemma ServiceClaimsScenario(created: nat)
    ensures var options := DefaultOptions.(requiredIssuer := Some("svc-a"), requiredAudiences := Some({"aud-1"}));
      Validate(ServiceClaims(created).value, options, created + 10) == Success(())
    ensures var options := DefaultOptions.(requiredIssuer := Some("svc-a"), requiredAudiences := Some({"aud-3"}));
      Validate(ServiceClaims(created).value, options, created + 10) == Failure(RequiredAudiencesMismatch)
  {
  }

  /** A claim set valid for zero seconds, checked twenty minutes later with
      the default tolerance of fifteen minutes, has expired. */
  lemma ZeroLifetimeExpires(created: nat)
    ensures Validate(Create(0, created), DefaultOptions, created + 1200) == Failure(TokenHasExpired)
  {
  }

  /** A required issuer: absent is reported as missing, a different one as a mismatch. */
  lemma IssuerMissingVersusMismatch(created: nat)
    ensures var options := DefaultOptions.(requiredIssuer := Some("x"));
      && Validate(Create(600, created), options, created) == Failure(RequiredIssuerMissing)
      && Validate(WithIssuer(Create(600, created), "y"), options, created) == Failure(RequiredIssuerMismatch)
  {
  }

  /** Two audiences cannot be switched to the string form; one can, and it
      comes back as the same set. */
  lemma AudienceModeSwitch(created: nat)
    ensures var c := WithAudiences(Create(600, created), {"a", "b"}).value;
      AudiencesAsString(c, true) == Failure(TooManyAudiences)
    ensures var c := WithAudiences(Create(600, created), {"a"}).value;
      && AudiencesAsString(c, true).Success?
      && AudiencesAsString(c, true).value.audiences == Some(AsString("a"))
      && AudiencesAsString(AudiencesAsString(c, true).value, false) == Success(c)
  {
  }
}
