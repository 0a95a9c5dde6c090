/** The claim set of a JSON Web Token (section 4.1 of RFC 7519), its two
    constructors and its builder operations. Every builder consumes the
    claim set and returns the updated one, so each is a pure function here.
    `C` is the application's custom payload, carried but never inspected. */
module Claims {
  import opened Wrappers
  import opened Errors
  import opened Audience

  /** The payload used when no application-defined claims are needed. */
  datatype NoCustomClaims = NoCustomClaims

  datatype JWTClaims<C> = JWTClaims(
    issuedAt: Option<nat>,
    expiresAt: Option<nat>,
    invalidBefore: Option<nat>,
    issuer: Option<string>,
    subject: Option<string>,
    audiences: Option<Audiences>,
    /** Not part of the wire form: which audience representation to produce. */
    audiencesAsString: bool,
    jwtId: Option<string>,
    nonce: Option<string>,
    custom: C
  )

  /** The audience value, if any, is in the representation the mode flag selects. */
  predicate RepresentationFollowsMode<C>(c: JWTClaims<C>) {
    c.audiences.None? || IsString(c.audiences.value) == c.audiencesAsString
  }

  /** A fresh claim set stamped at `now`, valid for `validFor` seconds. */
  function WithCustomClaims<C>(custom: C, validFor: nat, now: nat): (c: JWTClaims<C>)
    ensures c.issuedAt == Some(now) && c.invalidBefore == c.issuedAt
    ensures c.expiresAt.Some? && c.expiresAt.value - c.issuedAt.value == validFor
    ensures c.issuer.None? && c.subject.None? && c.audiences.None? && c.jwtId.None? && c.nonce.None?
    ensures !c.audiencesAsString && RepresentationFollowsMode(c)
    ensures c.custom == custom
  {
    JWTClaims(
      issuedAt := Some(now),
      expiresAt := Some(now + validFor),
      invalidBefore := Some(now),
      issuer := None,
      subject := None,
      audiences := None,
      audiencesAsString := false,
      jwtId := None,
      nonce := None,
      custom := custom)
  }

  /** A fresh claim set without custom data: the same timestamps as
      `WithCustomClaims`, with the empty payload. */
  function Create(validFor: nat, now: nat): (c: JWTClaims<NoCustomClaims>)
    ensures c == WithCustomClaims(NoCustomClaims, validFor, now)
    ensures c.issuedAt == c.invalidBefore == Some(now)
    ensures c.expiresAt == Some(now + validFor)
  {
    JWTClaims(
      issuedAt := Some(now),
      expiresAt := Some(now + validFor),
      invalidBefore := Some(now),
      issuer := None,
      subject := None,
      audiences := None,
      audiencesAsString := false,
      jwtId := None,
      nonce := None,
      custom := NoCustomClaims)
  }

  /** Each simple setter sets its own field and leaves every other field
      as it was: restoring the old value of that one field gives back the
      input. */

  function InvalidBefore<C>(c: JWTClaims<C>, timestamp: nat): (r: JWTClaims<C>)
    ensures r.invalidBefore == Some(timestamp)
    ensures r.(invalidBefore := c.invalidBefore) == c
  {
    c.(invalidBefore := Some(timestamp))
  }

  function WithIssuer<C>(c: JWTClaims<C>, issuer: string): (r: JWTClaims<C>)
    ensures r.issuer == Some(issuer)
    ensures r.(issuer := c.issuer) == c
  {
    c.(issuer := Some(issuer))
  }

  function WithSubject<C>(c: JWTClaims<C>, subject: string): (r: JWTClaims<C>)
    ensures r.subject == Some(subject)
    ensures r.(subject := c.subject) == c
  {
    c.(subject := Some(subject))
  }

  function WithJwtId<C>(c: JWTClaims<C>, jwtId: string): (r: JWTClaims<C>)
    ensures r.jwtId == Some(jwtId)
    ensures r.(jwtId := c.jwtId) == c
  {
    c.(jwtId := Some(jwtId))
  }

  function WithNonce<C>(c: JWTClaims<C>, nonce: string): (r: JWTClaims<C>)
    ensures r.nonce == Some(nonce)
    ensures r.(nonce := c.nonce) == c
  {
    c.(nonce := Some(nonce))
  }

  /** The simple setters keep the audience representation consistent with the mode. */
  lemma SettersKeepRepresentation<C>(c: JWTClaims<C>, s: string, t: nat)
    requires RepresentationFollowsMode(c)
    ensures RepresentationFollowsMode(InvalidBefore(c, t))
    ensures RepresentationFollowsMode(WithIssuer(c, s))
    ensures RepresentationFollowsMode(WithSubject(c, s))
    ensures RepresentationFollowsMode(WithJwtId(c, s))
    ensures RepresentationFollowsMode(WithNonce(c, s))
  {
  }

  /** Bring the audience value into the representation the mode selects.
      The operation mutates the claim set and reports an outcome, so it
      returns both; on failure the claim set comes back untouched. */
  function ConvertAudiencesFormat<C>(c: JWTClaims<C>): (r: (JWTClaims<C>, Result<(), JWTError>))
    ensures r.1.Failure? <==> c.audiencesAsString && c.audiences.Some? && c.audiences.value.AsSet? && |c.audiences.value.members| > 1
    ensures r.1.Failure? ==> r.1.error == TooManyAudiences && r.0 == c
    ensures r.1.Success? ==> RepresentationFollowsMode(r.0)
    ensures r.1.Success? ==> (r.0.audiences.None? <==> c.audiences.None?)
    ensures r.1.Success? ==> r.0.audiences == Reformat(c.audiences, c.audiencesAsString).value
    ensures r.0.(audiences := c.audiences) == c
    ensures RepresentationFollowsMode(c) ==> r == (c, Success(()))
  {
    match Reformat(c.audiences, c.audiencesAsString)
    case Failure(e) => (c, Failure(e))
    case Success(aud) => (c.(audiences := aud), Success(()))
  }

  /** A second conversion right after a successful one is a no-op. */
  lemma ConvertAudiencesFormatIdempotent<C>(c: JWTClaims<C>)
    requires ConvertAudiencesFormat(c).1.Success?
    ensures ConvertAudiencesFormat(ConvertAudiencesFormat(c).0) == (ConvertAudiencesFormat(c).0, Success(()))
  {
  }

  /** Select the audience representation and convert the current value to
      it. Fails, returning no claim set, exactly when the conversion fails. */
  function AudiencesAsString<C>(c: JWTClaims<C>, serializeAsString: bool): (r: Result<JWTClaims<C>, JWTError>)
    ensures r.Failure? <==> serializeAsString && c.audiences.Some? && c.audiences.value.AsSet? && |c.audiences.value.members| > 1
    ensures r.Failure? ==> r.error == TooManyAudiences
    ensures r.Success? ==> r.value.audiencesAsString == serializeAsString && RepresentationFollowsMode(r.value)
    ensures r.Success? ==> r.value.(audiences := c.audiences, audiencesAsString := c.audiencesAsString) == c
    ensures r.Success? ==> (r.value.audiences.None? <==> c.audiences.None?)
    ensures r.Success? ==> r.value.audiences == Reformat(c.audiences, serializeAsString).value
  {
    var (converted, status) := ConvertAudiencesFormat(c.(audiencesAsString := serializeAsString));
    var _ :- status;
    Success(converted)
  }

  /** Switching a set-mode claim set to string mode and back gives back the
      same claim set, for any audience set of at most one element other
      than `{""}`. */
  lemma AudienceModeRoundTrip<C>(c: JWTClaims<C>)
    requires !c.audiencesAsString && c.audiences.Some? && c.audiences.value.AsSet?
    requires |c.audiences.value.members| <= 1 && c.audiences.value.members != {""}
    ensures AudiencesAsString(c, true).Success?
    ensures AudiencesAsString(AudiencesAsString(c, true).value, false) == Success(c)
  {
  }

  /** Replace the audiences by the given set, then convert it to the
      representation the current mode selects. */
  function WithAudiences<C>(c: JWTClaims<C>, audiences: set<string>): (r: Result<JWTClaims<C>, JWTError>)
    ensures r.Failure? <==> c.audiencesAsString && |audiences| > 1
    ensures r.Failure? ==> r.error == TooManyAudiences
    ensures r.Success? && !c.audiencesAsString ==> r.value.audiences == Some(AsSet(audiences))
    ensures r.Success? && c.audiencesAsString ==>
      r.value.audiences.Some? && r.value.audiences.value.AsString? &&
      (audiences == {} ==> r.value.audiences.value.text == "") &&
      (audiences != {} ==> audiences == {r.value.audiences.value.text})
    ensures r.Success? ==> RepresentationFollowsMode(r.value) && r.value.(audiences := c.audiences) == c
  {
    var (converted, status) := ConvertAudiencesFormat(c.(audiences := Some(AsSet(audiences))));
    var _ :- status;
    Success(converted)
  }
}
