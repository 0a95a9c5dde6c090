# JWT claim set and validator, modelled in Dafny

This project models the claim set of a JSON Web Token (section 4.1 of RFC 7519)
as implemented by the `jwt-simple` Rust crate in `src/claims.rs`:

- the claim record `JWTClaims<C>` with its optional timestamps (`iat`, `exp`,
  `nbf`), identity claims (`iss`, `sub`, `jti`, `nonce`), audiences and an
  opaque custom payload `C`;
- the `Audiences` union (a set of recipients, or a single string) and the
  conversion between the two forms that the `audiences_as_string` mode drives;
- the two constructors and the fluent builders, each a pure function from
  claim set to claim set (or to a `Result` for the two fallible ones);
- the validator, a pure function of the claims, the verification policy and
  the current time `now`, which reports the first failing check.

Timestamps and durations are whole seconds since the Unix epoch (`nat`).
Audiences are `set<string>`. The clock is not read: `now` is a parameter of
every operation that stamps or checks a time.

Layout: `wrappers.dfy` (Option/Result), `errors.dfy` (the error variants used),
`options.dfy` (the verification policy), `audience.dfy` (the audience union and
its conversion), `claims.dfy` (record, constructors, builders), `validation.dfy`
(the validator and a declarative statement of what it accepts),
`validation_properties.dfy` (ordering and outcome lemmas), `scenarios.dfy`
(concrete builder chains and the verdicts proved for them).

Two behaviours of the code are worth knowing:

- `reject_before` is compared with the current time, not with `iat`: once
  `now` is past the cutoff every token is refused with `OldTokenReused`.
- The validator reads `AsString("")` as the recipient set `{""}`, while the
  conversion to set form reads `""` as the empty set. For the same reason the
  set `{""}` does not survive set form → string form → set form: it comes back
  empty (`Audience.SetRoundTrip` states exactly when the round trip holds).

## Model

| member | source | states |
|---|---|---|
| `Wrappers.Need` | src/claims.rs:114 | The `ensure!` macro: succeeds iff the condition holds, and otherwise fails with the given error. |
| `Options.TimeTolerance` | src/claims.rs:109-111 | The tolerance is the policy's own when set and `DEFAULT_TIME_TOLERANCE_SECS` (900 s, line 11) otherwise. |
| `Audience.IsSet` | src/claims.rs:26-31 | `is_set` holds exactly for the set variant. |
| `Audience.IsString` | src/claims.rs:33-35 | `is_string` holds exactly for the string variant and is always the negation of `is_set`. |
| `Audience.SoleMember` | src/claims.rs:213-219 | For a set of at most one element: the empty set yields `""`, a one-element set yields its element. |
| `Audience.SetToString` | src/claims.rs:209-219 | Set to string fails with `TooManyAudiences` iff the set has more than one element; otherwise the string is `""` for the empty set and the sole element for a singleton. |
| `Audience.StringToSet` | src/claims.rs:226-232 | String to set never fails; `""` becomes the empty set and any other string its one-element set. |
| `Audience.Reformat` | src/claims.rs:203-234 | Fails (with `TooManyAudiences`) iff string mode meets a set of more than one element; on success an absent value stays absent, a value already in the mode's representation is untouched, a set of at most one element becomes `""` (empty set) or its sole element, and a string becomes `{}` (for `""`) or its one-element set. |
| `Audience.ReformatIdempotent` | src/claims.rs:202-237 | A second conversion after a successful one changes nothing. |
| `Audience.SetRoundTrip` | src/claims.rs:207-232 | A set of at most one element converts to string form, and converting back restores it iff the set is not `{""}`. |
| `Audience.StringRoundTrip` | src/claims.rs:207-232 | A string converted to set form and back is always the same string. |
| `Audience.EmptyCorrespondence` | src/claims.rs:213-231 | The empty set maps to `""` and `""` maps back to the empty set. |
| `Audience.Recipients` | src/claims.rs:163-170 | The validator treats a set as itself and a string `a` as `{a}`. |
| `Claims.WithCustomClaims` | src/claims.rs:301-318 | A fresh claim set has `iat = nbf = now`, `exp - iat = valid_for`, no other standard claim, set mode, and the given payload. |
| `Claims.Create` | src/claims.rs:284-298 | `create` is `with_custom_claims` with the empty payload: `iat = nbf = now` and `exp = now + valid_for`. |
| `Claims.InvalidBefore` | src/claims.rs:185-188 | Sets `nbf` to the timestamp; every other field is unchanged. |
| `Claims.WithIssuer` | src/claims.rs:191-194 | Sets `iss`; every other field is unchanged. |
| `Claims.WithSubject` | src/claims.rs:197-200 | Sets `sub`; every other field is unchanged. |
| `Claims.WithJwtId` | src/claims.rs:258-261 | Sets `jti`; every other field is unchanged. |
| `Claims.WithNonce` | src/claims.rs:264-267 | Sets `nonce`; every other field is unchanged. |
| `Claims.SettersKeepRepresentation` | src/claims.rs:185-267 | The simple setters preserve "the audience representation follows the mode". |
| `Claims.ConvertAudiencesFormat` | src/claims.rs:202-237 | Fails with `TooManyAudiences` iff string mode meets a set of more than one element, and then leaves the claim set untouched; on success the representation follows the mode and `audiences` holds the converted value; only `audiences` ever changes. |
| `Claims.ConvertAudiencesFormatIdempotent` | src/claims.rs:202-237 | Converting again after a successful conversion is a successful no-op. |
| `Claims.AudiencesAsString` | src/claims.rs:242-246 | Fails (returning no claim set) iff the new mode is string and the current value is a set of more than one element; on success the mode is the one asked for, the audiences hold the current value converted to that mode, and nothing but mode and audiences changes. |
| `Claims.AudienceModeRoundTrip` | src/claims.rs:242-246 | For any set-mode claim set whose audience set has at most one element and is not `{""}`, switching to string mode and back gives back the same claim set. |
| `Claims.WithAudiences` | src/claims.rs:249-255 | Fails iff the mode is string and the set has more than one element; in set mode the stored value is exactly `AsSet(audiences)`; in string mode it is the string form of the set. |
| `Validation.RequireMatch` | src/claims.rs:136-159 | An identity requirement passes iff it is unset or the claim equals it; an absent claim gives the "missing" error and a different claim the "mismatch" error. |
| `Validation.RequireAudiences` | src/claims.rs:160-179 | Passes iff there is no requirement, it is empty, or every required audience is a recipient; `RequiredAudiencesMissing` iff a non-empty requirement meets no audience claim; `RequiredAudiencesMismatch` iff some required audience is not a recipient. |
| `Validation.AllRequiredPresent` | src/claims.rs:171-176 | The loop over the required audiences succeeds iff every one of them is among the recipients. |
| `Validation.Validate` | src/claims.rs:107-182 | Accepts iff every check holds (`Accepts`); never reports `TooManyAudiences`; a past `reject_before` yields `OldTokenReused` whatever the claims. |
| `ValidationProperties.OldTokenReusedIff` | src/claims.rs:113-115 | `OldTokenReused` iff a cutoff is set and `now` is past it. |
| `ValidationProperties.ClockDriftIff` | src/claims.rs:116-117 | `ClockDrift` iff the cutoff passes and `iat > now + tolerance`. |
| `ValidationProperties.TokenIsTooOldIff` | src/claims.rs:118-123 | `TokenIsTooOld` iff the earlier checks pass, `iat` and `max_validity` are set, `now > iat` and `now - iat > max_validity`. |
| `ValidationProperties.FutureTokenNeverTooOld` | src/claims.rs:119-122 | A token issued at or after `now` is never reported too old. |
| `ValidationProperties.TokenNotValidYetIff` | src/claims.rs:125-129 | `TokenNotValidYet` iff the earlier checks pass, `accept_future` is off, `nbf` is set and `now < nbf`. |
| `ValidationProperties.AcceptFutureIgnoresNotBefore` | src/claims.rs:125-129 | With `accept_future` the verdict is the same as for the claim set without `nbf`. |
| `ValidationProperties.TokenHasExpiredIff` | src/claims.rs:130-134 | `TokenHasExpired` iff the earlier checks pass, `exp` is set and `now > exp + tolerance` (the boundary is accepted). |
| `ValidationProperties.IssuerOutcomes` | src/claims.rs:136-142 | After the time checks, a required issuer gives `RequiredIssuerMissing` when absent, `RequiredIssuerMismatch` when different, and otherwise the verdict without the requirement. |
| `ValidationProperties.SubjectOutcomes` | src/claims.rs:143-152 | The same three outcomes for the subject, once the issuer check passes. |
| `ValidationProperties.NonceOutcomes` | src/claims.rs:153-159 | The same three outcomes for the nonce, once issuer and subject pass. |
| `ValidationProperties.AudienceOutcomes` | src/claims.rs:160-179 | After all other checks: an empty or unset requirement accepts; a non-empty one without audience claim is missing; otherwise a mismatch iff some required audience is not a recipient. |
| `ValidationProperties.FreshClaimsVerdict` | src/claims.rs:301-318 | A fresh claim set under the default policy is clock drift more than 900 s before creation, not valid yet before creation, expired after `valid_for + 900` s, and accepted in between. |
| `ValidationProperties.CreatedClaimsValidWindow` | src/claims.rs:284-298 | A claim set from `create(d)` at `t0` passes the default policy iff `t0 <= now <= t0 + d + 900`. |
| `Scenarios.StandardClaimsAreSet` | src/claims.rs:326-344 | The builder chain of the unit test stores exactly the given audiences (as a set), issuer, JWT id, nonce and subject. |
| `Scenarios.ServiceClaimsScenario` | src/claims.rs:160-179 | A token for `{aud-1, aud-2}` from issuer `svc-a` passes a policy requiring `svc-a` and `aud-1` ten seconds after creation, and fails with `RequiredAudiencesMismatch` when `aud-3` is required. |
| `Scenarios.ZeroLifetimeExpires` | src/claims.rs:130-134 | A zero-lifetime token checked 1200 s later with the default tolerance has expired. |
| `Scenarios.IssuerMissingVersusMismatch` | src/claims.rs:136-142 | No issuer against a required `x` is missing; issuer `y` is a mismatch. |
| `Scenarios.AudienceModeSwitch` | src/claims.rs:242-255 | Two audiences cannot switch to string mode; one can, becomes its string, and switching back restores the claim set. |

## Left out

- `create_nonce` (src/claims.rs:270-277): it draws 24 random bytes from a thread-local generator and base64-encodes them; randomness and the encoder are outside the model.
- `Clock::now_since_epoch`: the current time is a parameter (`now`) of the constructors and of the validator.
- Serialization: the serde attributes, the wire names (`iat`, `exp`, …), the `unix_timestamp` encoding and the flattening of custom claims into the same JSON object are not modelled; the custom payload is an opaque type parameter.
- Time representation: coarsetime's fixed-point `UnixTimeStamp`/`Duration` are modelled as whole seconds, and unbounded, so the overflow of `now + time_tolerance` or `now + valid_for` on 64 bits is not modelled.
- Validation.Validate: line 132 computes `now - time_tolerance` on unsigned values; the model subtracts integers, which is the same test as `now <= expires_at + tolerance`. The two differ only when `now` is smaller than the tolerance, where the unsigned subtraction underflows.
- `VerificationOptions`: `src/common.rs` is not part of this model; only the fields the validator reads are declared, and `Options.DefaultOptions` takes the defaults to be "no requirement, tolerance unset, `accept_future` off".
- Errors: `src/error.rs` is not part of this model; only the variants the claim set raises are declared.
- Setters taking `impl ToString` and `with_audiences` taking a `HashSet<impl ToString>` are modelled on `string` and `set<string>` directly.
