/** The error variants the claim set raises. The full error type of the
    library is larger; only the variants used by validation and by the
    audience conversion are declared. */
module Errors {

  datatype JWTError =
    | OldTokenReused
    | ClockDrift
    | TokenIsTooOld
    | TokenNotValidYet
    | TokenHasExpired
    | RequiredIssuerMismatch
    | RequiredIssuerMissing
    | RequiredSubjectMismatch
    | RequiredSubjectMissing
    | RequiredNonceMismatch
    | RequiredNonceMissing
    | RequiredAudiencesMismatch
    | RequiredAudiencesMissing
    | TooManyAudiences
}
