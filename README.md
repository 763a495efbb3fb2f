# oauth2-proxy claim resolution, modelled in Dafny

This project models how oauth2-proxy's OIDC-based providers turn a verified ID
token into a session.

**The claim extractor** (`pkg/providers/util/claim_extractor.go`) holds two maps:
- the claims decoded from the token;
- a profile map, fetched lazily from the provider's profile endpoint.

It answers claim lookups from the token first and from the profile second. It
coerces raw JSON claim values into a string, a list of strings, or a boolean
destination.

**The provider data layer** (`providers/provider_data.go`) does the following:
- pulls `sub`, the configured email claim, the configured groups claim and
  `preferred_username` through one extractor into a fresh session;
- applies the `email_verified` policy;
- checks a token's `nonce` against the session;
- holds the small configuration helpers `defaultURL`, `setProviderDefaults`,
  `SetAllowedGroups`, `GetClientSecret` and `getAuthorizationHeader`.

Files:

- `wrappers.dfy`: `Option` (Go's nil) and `Result` (Go's `(value, error)`).
- `claim_extractor.dfy` (module `ClaimExtraction`), containing:
  - the JSON value type;
  - the library conversions as function-valued parameters (`Conversions`);
  - the coercion functions, plus the methods `ToStringSlice` and `CoerceClaim`
    that mirror the Go loop and the write through the destination pointer;
  - the one-call transition `GetClaimStep` and the memo-free reference lookup
    `Resolve`;
  - the class `ClaimExtractor`, whose `profileClaims` field is reassigned in
    place and whose ghost `requests` counter counts profile requests.
- `claim_extractor_proofs.dfy`: `Run`, the fold of `GetClaimStep` over any
  sequence of lookups, and the lemmas about it. It also holds the lemmas about
  coercion.
- `provider_data.dfy` (module `Providers`), containing:
  - the class `ProviderData` with its helpers;
  - the class `SessionState`, filled field by field;
  - the reference function `Assemble` for `buildSessionFromClaims`, built from
    `Collect` and `CheckEmailVerified`;
  - the methods `FillSession`, `BuildSessionFromClaims` and `CheckNonce`.
- `provider_data_proofs.dfy`: the `email_verified` policy, where each session
  field comes from, worked examples, and the nonce check.

The library conversions and the profile endpoint are abstract.
- **Conversions:** `Lawful` is the only constraint placed on them. It says that
  a JSON string converts to itself and that a JSON boolean is its own truth
  value. Every property that needs more than what the Go code itself shows
  takes `Lawful` as a precondition.
- **Profile endpoint:** represented by a fixed `ProfileResponse` per extractor.
  The response is a JSON object, a JSON `null`, or a failed request.

## Model

| member | source | states |
|---|---|---|
| ClaimExtraction.ToString | pkg/providers/util/claim_extractor.go:150-160 | the native string form wins when `cast.ToStringE` accepts the value, otherwise the JSON text; an error exactly when both conversions fail, carrying the marshal error |
| ClaimExtraction.SliceValues | pkg/providers/util/claim_extractor.go:127-135 | an array yields its own items; any other non-null value becomes a one-element list |
| ClaimExtraction.StringsOf | pkg/providers/util/claim_extractor.go:137-145 | on success the list has the input's length and entry i is `toString` of element i; on failure the error names the first element that fails |
| ClaimExtraction.ToStringSlice | pkg/providers/util/claim_extractor.go:126-146 | the loop of appends yields exactly `StringSliceOf`: same length, order kept, element-wise `toString`, and a failure exists exactly when some element fails |
| ClaimExtraction.Coerce | pkg/providers/util/claim_extractor.go:104-124 | a string destination gets `toString`, a list destination gets `toStringSlice`, a bool destination always succeeds with `cast.ToBool`, any other destination is an unknown-type error; the destination's shape never changes |
| ClaimExtraction.CoerceClaim | pkg/providers/util/claim_extractor.go:104-124 | writes the coerced value only on success and leaves the destination untouched on error; a bool destination never errors |
| ClaimExtraction.FetchProfile | pkg/providers/util/claim_extractor.go:67-87 | without a URL or without headers the result is an empty map and no request; otherwise the decoded body, nil for a JSON null, or exactly when the request fails a profile-request error carrying its reason |
| ClaimExtraction.LookupIn | pkg/providers/util/claim_extractor.go:60-64 | found exactly when the profile map is set and holds the claim, with its value; otherwise not found and no error |
| ClaimExtraction.GetClaimStep | pkg/providers/util/claim_extractor.go:42-65 | an empty name is a no-op; token claims win and touch nothing; a request goes out exactly on a token miss while the profile is unset and a request is possible; a cached map is never replaced; a failed fetch is an error and leaves the profile unset; a map fetched without error becomes the profile field; a claim present in the profile map (fetched now or cached) is found there |
| ClaimExtraction.Resolve | pkg/providers/util/claim_extractor.go:42-87 | reference lookup without memoisation: the empty name is missing, token claims win, an error exactly when the profile request fails, without an endpoint a token miss is missing, and otherwise a token miss is looked up in the fetched map |
| ClaimExtraction.StepAgreesWithResolve | pkg/providers/util/claim_extractor.go:51-62 | from a state whose cache agrees with the endpoint, one lookup returns the reference result and keeps the cache consistent |
| ClaimExtraction.IntoTarget | pkg/providers/util/claim_extractor.go:89-102 | (false, nil) exactly when the claim is absent; true exactly when found and coerced; the destination changes only on true; lookup errors are wrapped with the claim name; coercion errors are wrapped without it |
| ClaimExtraction.ClaimExtractor.constructor | pkg/providers/util/claim_extractor.go:19-25 | a fresh extractor has the given token claims and endpoint, an unset profile and no requests |
| ClaimExtraction.ClaimExtractor.GetProfileClaims | pkg/providers/util/claim_extractor.go:67-87 | returns `FetchProfile` of the endpoint and counts one request exactly when a URL and headers are present |
| ClaimExtraction.ClaimExtractor.GetClaim | pkg/providers/util/claim_extractor.go:42-65 | result, new profile field and request count follow `GetClaimStep`; the result equals the memo-free `Resolve` |
| ClaimExtraction.ClaimExtractor.GetClaimInto | pkg/providers/util/claim_extractor.go:89-102 | the outcome and the destination's new content are `IntoTarget` of the reference lookup, and the extractor state moves as in one `GetClaim` |
| ClaimExtraction.NewClaimExtractor | pkg/providers/util/claim_extractor.go:19-32 | fails exactly when the token's claims cannot be decoded; otherwise a fresh, consistent extractor with an unset profile |
| ClaimExtractionProofs.Run | pkg/providers/util/claim_extractor.go:42-65 | a sequence of lookups yields one result per claim |
| ClaimExtractionProofs.CachedProfileIsFinal | pkg/providers/util/claim_extractor.go:51-58 | once the profile map is cached, no later lookup sends a request or changes it |
| ClaimExtractionProofs.ObjectProfileFetchedAtMostOnce | pkg/providers/util/claim_extractor.go:51-58 | when the endpoint answers with a JSON object, any number of lookups sends at most one request |
| ClaimExtractionProofs.TokenClaimsNeverFetch | pkg/providers/util/claim_extractor.go:47-49 | lookups of claims the token carries send no request, leave the profile field alone and return the token's value |
| ClaimExtractionProofs.NoEndpointNeverRequests | pkg/providers/util/claim_extractor.go:70-76 | without a profile URL or headers no lookup ever sends a request and every token miss is not found |
| ClaimExtractionProofs.UncachedProfileRefetchesOnEveryMiss | pkg/providers/util/claim_extractor.go:51-58 | after a JSON null body or a failed request the profile stays unset, and every token miss sends another request |
| ClaimExtractionProofs.RunAgreesWithResolve | pkg/providers/util/claim_extractor.go:42-65 | caching never changes an answer: every result of any lookup sequence equals the memo-free reference lookup |
| ClaimExtractionProofs.LookupAll | pkg/providers/util/claim_extractor.go:42-65 | lookups performed one after another on one extractor produce the results, final profile and request count of `Run` |
| ClaimExtractionProofs.StringCoercesToItself | pkg/providers/util/claim_extractor.go:106-111 | a string claim coerced into a string destination is itself |
| ClaimExtractionProofs.StringListRoundTrip | pkg/providers/util/claim_extractor.go:126-146 | a JSON array of strings coerced into a list is the same list in the same order (empty in, empty out) |
| ClaimExtractionProofs.ScalarBecomesSingleton | pkg/providers/util/claim_extractor.go:131-132 | a non-array, non-null value becomes a one-element list of its string form, or fails with that element's error |
| ClaimExtractionProofs.ListCoercionIsElementwise | pkg/providers/util/claim_extractor.go:137-145 | list coercion of an array succeeds exactly when every element converts, keeping length and order |
| Providers.DefaultUrl | providers/provider_data.go:104-115 | a set, non-empty URL is kept; otherwise the default when given; otherwise an empty URL; an empty result means neither was usable |
| Providers.SessionState.constructor | providers/provider_data.go:147 | a fresh session has every field at its zero value |
| Providers.SessionState.Store | pkg/providers/util/claim_extractor.go:111-119 | the write through a field pointer sets that field and leaves the others unchanged |
| Providers.ClaimTargets | providers/provider_data.go:158-164 | the map literal's keys are the four claim names; each field's claim is a key; every key maps to a field whose claim it is; equal names collapse and the later entry of the literal wins (`preferred_username` always keeps its field, the groups claim unless it is `preferred_username`, and so on) |
| Providers.FieldOutcome | providers/provider_data.go:158-168 | a field's lookup outcome keeps the destination's shape, and a not-found lookup leaves the zero value |
| Providers.Collect | providers/provider_data.go:158-168 | succeeds exactly when all four lookups succeed, and then each field holds its lookup's content; any failure is a claim error |
| Providers.CheckEmailVerified | providers/provider_data.go:170-183 | success returns the collected fields unchanged; an unverified failure happens only when verification is enforced and carries the session's email |
| Providers.Assemble | providers/provider_data.go:146-185 | an unverified-email failure happens only when verification is enforced |
| Providers.TokenNonce | providers/provider_data.go:202-205 | a missing `nonce` reads as ""; a convertible one reads as its string form; one that cannot be converted is the coercion error GetClaimInto reports |
| Providers.NonceOutcome | providers/provider_data.go:197-211 | no error exactly when the claims decode, the nonce is readable and the session accepts it; a mismatch error exactly when it is readable and rejected |
| Providers.FillSession | providers/provider_data.go:158-168 | looking the four entries up in any order fills the session with `Collect`'s fields, and fails exactly when `Collect` fails, with the error of some failing field; a profile map cached beforehand is kept and no request is sent |
| Providers.ProviderData.constructor | providers/provider_data.go:26-54 | a zero-valued provider configuration |
| Providers.ProviderData.GetClientSecret | providers/provider_data.go:59-71 | the inline secret when it is non-empty or no file is configured; otherwise the file's content; the only error is the generic unreadable-file error, exactly when the read fails |
| Providers.ProviderData.SetAllowedGroups | providers/provider_data.go:75-80 | the allowed groups become exactly the set of the given groups (empty input gives the empty set) |
| Providers.ProviderData.SetProviderDefaults | providers/provider_data.go:91-101 | the name is always overwritten; every URL is defaulted; the scope is filled only when empty; nothing else changes |
| Providers.ProviderData.AuthorizationHeader | providers/provider_data.go:213-218 | headers exist only when a header function is set and the access token is non-empty, and then they are that function's result |
| Providers.ProviderData.GetClaimExtractor | providers/provider_data.go:187-194 | an extractor over the token's claims, the profile URL and the access token's headers; a decoding failure is wrapped |
| Providers.ProviderData.BuildSessionFromClaims | providers/provider_data.go:146-185 | no token gives an empty session; an undecodable token is an init error; otherwise it succeeds exactly when `Assemble` does, with `Assemble`'s fields; once the four claims are collected any error is exactly `Assemble`'s (the unverified email, or the wrapped `email_verified` lookup error); a failing claim lookup reports the error of one of the four fields |
| Providers.ProviderData.CheckNonce | providers/provider_data.go:197-211 | the outcome is exactly `NonceOutcome` of the token's payload |
| ProvidersProofs.UnverifiedExactlyWhenExplicitFalse | providers/provider_data.go:170-183 | after the four claims, assembly fails as unverified exactly when the email claim is `email`, unverified emails are not allowed, `email_verified` exists and reads false |
| ProvidersProofs.AbsentEmailVerifiedNeverFails | providers/provider_data.go:170-183 | an absent `email_verified` leaves the collected session as the result, whatever the policy |
| ProvidersProofs.EmailVerifiedErrorAborts | providers/provider_data.go:174-178 | an error looking `email_verified` up aborts assembly even when verification is not enforced |
| ProvidersProofs.FieldsComeFromTheirClaims | providers/provider_data.go:158-168 | with distinct claim names, User comes from `sub`, Email from the email claim, Groups from the groups claim and PreferredUsername from `preferred_username`; absent claims leave zero values |
| ProvidersProofs.EmailClaimNamedSubLeavesUserEmpty | providers/provider_data.go:158-164 | an email claim named `sub` collapses the map literal: the `sub` claim fills Email and User stays empty |
| ProvidersProofs.ExampleCollects | providers/provider_data.go:158-168 | claims `sub: u1`, `email: a@example.com`, `groups: [g1, g2]` without a profile endpoint collect into that session |
| ProvidersProofs.ExplicitlyUnverifiedEmailFails | providers/provider_data.go:170-183 | the same claims with `email_verified: false` fail as unverified for a@example.com |
| ProvidersProofs.OmittedEmailVerifiedSucceeds | providers/provider_data.go:146-185 | the same claims without `email_verified` yield the session u1 / a@example.com / [g1, g2] |
| ProvidersProofs.NonceLookupNeverRequests | providers/provider_data.go:198 | the nonce check's extractor has no request headers, so a nonce missing from the token is not found and no request is possible |
| ProvidersProofs.NonceClaimIsCompared | providers/provider_data.go:202-209 | a string nonce claim is compared as it is, and a missing one is compared as "" |
| ProvidersProofs.NonceExample | providers/provider_data.go:207-209 | a session nonce "abc123" accepts the token nonce "abc123" and rejects "xyz" with a mismatch |
| ProvidersProofs.DefaultUrlIdempotent | providers/provider_data.go:104-115 | defaulting an already-defaulted URL with the same default changes nothing |

## Behaviour worth knowing

- **The profile fetch can happen more than once.** The comment at
  claim_extractor.go:71-72 gives the intent of the empty map returned when no
  request can be made: "so that we don't attempt to populate the profile claims
  again". That holds for the empty map, but the code only assigns
  `profileClaims` after a fetch without error (claim_extractor.go:51-58).
  So after a failed request, or after a body of JSON `null` (which decodes to a
  nil map), the field stays unset and the next token miss sends another request.
  The model follows the code:
  - `ObjectProfileFetchedAtMostOnce` proves the at-most-once bound only when
    the endpoint answers with an object;
  - `UncachedProfileRefetchesOnEveryMiss` proves that otherwise every miss
    sends a request.

## Left out

- The HTTP profile request and its context: the answer is the abstract `ProfileResponse`, and cancellation is not modelled. A repeated request is assumed to get the same answer.
- OIDC token verification (`verifyIDToken`) and the decoding of the token's claims: a token is its decoding outcome (`IdToken.payload`).
- The internals of `cast.ToStringE`, `cast.ToBool`, `cast.ToSlice` and `json.Marshal`: they are parameters, constrained only by `Lawful`. JSON numbers keep their literal text and are never computed on.
- ClaimExtractionProofs.StringCoercesToItself: the claim that the JSON text of an object decodes back to an equal object is not stated, because `json.Marshal` is abstract.
- `ioutil.ReadFile` and `logger.Errorf` in `GetClientSecret`: the read is the `readFile` parameter, and the logging is dropped.
- `sessions.SessionState.CheckNonce`: it is not part of this model. The session's comparison is the `nonceMatches` parameter.
- Providers.ProviderData.CheckNonce: takes a token that is present. The Go code would dereference a nil token.
- Providers.FillSession: when several of the four lookups would fail, it promises the error of one of them, not which one. Go's map iteration order is random, so which failing claim is reached first is not determined. `Collect` picks the first in literal order only to have a definite value.
- Providers.ProviderData.BuildSessionFromClaims: for the same reason, when one of the four claim lookups of the loop fails it promises the error of some failing field, not the particular one. The later `email_verified` lookup is not affected.
- Providers.DefaultUrl: returns a value, so the aliasing between the provider's field and the default's pointer is not modelled.
- `ProviderData` fields that none of the modelled operations read (`ProtectedResource`, `AcrValues`, `ApprovalPrompt`, `ClientID`, `Prompt`, `Verifier`) and the `Data` accessor are not part of this model.
