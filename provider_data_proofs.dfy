/**
 * Properties of session assembly and of the nonce check.
 */
module ProvidersProofs {
  import opened Wrappers
  import CE = ClaimExtraction
  import opened Providers
  import ClaimExtractionProofs

  /** The lookup of `email_verified` that assembly always performs. */
  function EmailVerifiedLookup(tokens: CE.ClaimMap, e: CE.Endpoint): (l: CE.Lookup) {
    CE.Resolve(tokens, e, "email_verified")
  }

  /** Once the four claims are collected, assembly fails as unverified exactly
      when verification is enforced and `email_verified` is present and reads
      as false; the error carries the resolved email. */
  lemma UnverifiedExactlyWhenExplicitFalse(cv: CE.Conversions, tokens: CE.ClaimMap, e: CE.Endpoint, pol: ClaimPolicy)
    requires Collect(cv, tokens, e, pol).Ok?
    ensures var r := Assemble(cv, tokens, e, pol);
            var l := EmailVerifiedLookup(tokens, e);
            (r.Err? && r.error.EmailNotVerified?)
              <==> (VerifyEmail(pol) && l.Found? && !cv.toBool(l.value))
    ensures var r := Assemble(cv, tokens, e, pol);
            r.Err? && r.error.EmailNotVerified? ==> r.error.email == Collect(cv, tokens, e, pol).value.email
  {
    var l := EmailVerifiedLookup(tokens, e);
    if l.Found? {
      assert CE.Coerce(cv, l.value, CE.BoolTarget(false)) == Ok(CE.BoolTarget(cv.toBool(l.value)));
    }
  }

  /** An absent `email_verified` never makes assembly fail: the result is
      exactly the collected session, whatever the policy. */
  lemma AbsentEmailVerifiedNeverFails(cv: CE.Conversions, tokens: CE.ClaimMap, e: CE.Endpoint, pol: ClaimPolicy)
    requires EmailVerifiedLookup(tokens, e).Missing?
    ensures Assemble(cv, tokens, e, pol) == Collect(cv, tokens, e, pol)
  {
  }

  /** An error while looking `email_verified` up aborts assembly even when
      verification is not enforced. */
  lemma EmailVerifiedErrorAborts(cv: CE.Conversions, tokens: CE.ClaimMap, e: CE.Endpoint, pol: ClaimPolicy)
    requires Collect(cv, tokens, e, pol).Ok?
    requires EmailVerifiedLookup(tokens, e).Failed?
    ensures Assemble(cv, tokens, e, pol)
            == Err(ClaimFailed(CE.ClaimUnavailable("email_verified", EmailVerifiedLookup(tokens, e).error)))
  {
  }

  /** The four claim names are pairwise distinct, so every entry of the map
      literal survives. */
  predicate DistinctClaims(pol: ClaimPolicy) {
    && pol.emailClaim != "sub" && pol.emailClaim != "preferred_username"
    && pol.groupsClaim != "sub" && pol.groupsClaim != "preferred_username"
    && pol.emailClaim != pol.groupsClaim
  }

  /** A string field: the claim's string form when found, "" when absent. */
  predicate StringFieldFrom(cv: CE.Conversions, tokens: CE.ClaimMap, e: CE.Endpoint, claim: string, value: string) {
    var l := CE.Resolve(tokens, e, claim);
    && (l.Found? ==> CE.ToString(cv, l.value) == Ok(value))
    && (!l.Found? ==> value == "")
  }

  /** With distinct claim names, a successful session takes User from `sub`,
      Email from the email claim, Groups from the groups claim and
      PreferredUsername from `preferred_username`; absent claims leave the
      zero value. */
  lemma FieldsComeFromTheirClaims(cv: CE.Conversions, tokens: CE.ClaimMap, e: CE.Endpoint, pol: ClaimPolicy)
    requires DistinctClaims(pol)
    requires Assemble(cv, tokens, e, pol).Ok?
    ensures var s := Assemble(cv, tokens, e, pol).value;
            && StringFieldFrom(cv, tokens, e, "sub", s.user)
            && StringFieldFrom(cv, tokens, e, pol.emailClaim, s.email)
            && StringFieldFrom(cv, tokens, e, "preferred_username", s.preferredUsername)
            && (CE.Resolve(tokens, e, pol.groupsClaim).Found? ==>
                  CE.StringSliceOf(cv, CE.Resolve(tokens, e, pol.groupsClaim).value) == Ok(s.groups))
            && (!CE.Resolve(tokens, e, pol.groupsClaim).Found? ==> s.groups == [])
  {
    var t := ClaimTargets(pol);
    assert t["sub"] == UserField;
    assert t[pol.emailClaim] == EmailField;
    assert t[pol.groupsClaim] == GroupsField;
    assert t["preferred_username"] == PreferredUsernameField;
    var s := Collect(cv, tokens, e, pol).value;
    forall f ensures FieldTarget(s, f) == FieldOutcome(cv, tokens, e, pol, f).1 {
    }
    assert FieldTarget(s, UserField) == FieldOutcome(cv, tokens, e, pol, UserField).1;
    assert FieldTarget(s, EmailField) == FieldOutcome(cv, tokens, e, pol, EmailField).1;
    assert FieldTarget(s, GroupsField) == FieldOutcome(cv, tokens, e, pol, GroupsField).1;
    assert FieldTarget(s, PreferredUsernameField) == FieldOutcome(cv, tokens, e, pol, PreferredUsernameField).1;
  }

  /** When the email claim is configured as `sub`, the later map entry wins:
      the `sub` claim fills Email and User stays empty. */
  lemma EmailClaimNamedSubLeavesUserEmpty(cv: CE.Conversions, tokens: CE.ClaimMap, e: CE.Endpoint, pol: ClaimPolicy)
    requires pol.emailClaim == "sub" && pol.groupsClaim != "sub"
    requires Assemble(cv, tokens, e, pol).Ok?
    ensures Assemble(cv, tokens, e, pol).value.user == ""
    ensures StringFieldFrom(cv, tokens, e, "sub", Assemble(cv, tokens, e, pol).value.email)
  {
    var t := ClaimTargets(pol);
    assert t["sub"] == EmailField;
    var s := Collect(cv, tokens, e, pol).value;
    assert FieldTarget(s, UserField) == FieldOutcome(cv, tokens, e, pol, UserField).1;
    assert FieldTarget(s, EmailField) == FieldOutcome(cv, tokens, e, pol, EmailField).1;
  }

  // ---------------------------------------------------------------------------
  // Worked examples: a token with sub, email and groups, no profile endpoint
  // ---------------------------------------------------------------------------

  const StandardPolicy := ClaimPolicy(OIDCEmailClaim, OIDCGroupsClaim, false)

  function ExampleClaims(): (m: CE.ClaimMap)
    ensures m.Keys == {"sub", "email", "groups"}
  {
    map["sub" := CE.Str("u1"), "email" := CE.Str("a@example.com"),
        "groups" := ClaimExtractionProofs.StringArray(["g1", "g2"])]
  }

  /** The example claims collect into User u1, Email a@example.com and
      Groups [g1, g2]. */
  lemma ExampleCollects(cv: CE.Conversions, tokens: CE.ClaimMap, e: CE.Endpoint)
    requires CE.Lawful(cv)
    requires !CE.RequestPossible(e)
    requires forall c :: c in ExampleClaims() ==> c in tokens && tokens[c] == ExampleClaims()[c]
    requires "preferred_username" !in tokens
    ensures Collect(cv, tokens, e, StandardPolicy) == Ok(SessionFields("u1", "a@example.com", ["g1", "g2"], ""))
  {
    var pol := StandardPolicy;
    assert cv.toStringE(CE.Str("u1")) == Some("u1");
    assert cv.toStringE(CE.Str("a@example.com")) == Some("a@example.com");
    ClaimExtractionProofs.StringListRoundTrip(cv, ["g1", "g2"]);
    var t := ClaimTargets(pol);
    assert t["sub"] == UserField;
    assert t["email"] == EmailField;
    assert t["groups"] == GroupsField;
    assert t["preferred_username"] == PreferredUsernameField;
    assert FieldOutcome(cv, tokens, e, pol, UserField) == (Ok(true), CE.StringTarget("u1"));
    assert FieldOutcome(cv, tokens, e, pol, EmailField) == (Ok(true), CE.StringTarget("a@example.com"));
    assert FieldOutcome(cv, tokens, e, pol, GroupsField) == (Ok(true), CE.StringListTarget(["g1", "g2"]));
    assert FieldOutcome(cv, tokens, e, pol, PreferredUsernameField) == (Ok(false), CE.StringTarget(""));
  }

  /** With `email_verified: false` and the standard email claim enforced,
      assembly fails as unverified and yields no session. */
  lemma ExplicitlyUnverifiedEmailFails(cv: CE.Conversions, e: CE.Endpoint)
    requires CE.Lawful(cv)
    requires !CE.RequestPossible(e)
    ensures Assemble(cv, ExampleClaims()["email_verified" := CE.Bool(false)], e, StandardPolicy)
            == Err(EmailNotVerified("a@example.com"))
  {
    var tokens := ExampleClaims()["email_verified" := CE.Bool(false)];
    ExampleCollects(cv, tokens, e);
    assert cv.toBool(CE.Bool(false)) == false;
    UnverifiedExactlyWhenExplicitFalse(cv, tokens, e, StandardPolicy);
  }

  /** Without `email_verified` the same claims assemble into a session. */
  lemma OmittedEmailVerifiedSucceeds(cv: CE.Conversions, e: CE.Endpoint)
    requires CE.Lawful(cv)
    requires !CE.RequestPossible(e)
    ensures Assemble(cv, ExampleClaims(), e, StandardPolicy)
            == Ok(SessionFields("u1", "a@example.com", ["g1", "g2"], ""))
  {
    ExampleCollects(cv, ExampleClaims(), e);
    AbsentEmailVerifiedNeverFails(cv, ExampleClaims(), e, StandardPolicy);
  }

  // ---------------------------------------------------------------------------
  // Nonce
  // ---------------------------------------------------------------------------

  /** A string nonce claim is compared as it is; a missing one is compared as "". */
  lemma NonceClaimIsCompared(cv: CE.Conversions, nonceMatches: string -> bool, tokens: CE.ClaimMap)
    requires CE.Lawful(cv)
    requires "nonce" in tokens ==> tokens["nonce"].Str?
    ensures var n := if "nonce" in tokens then tokens["nonce"].s else "";
            NonceOutcome(cv, nonceMatches, Ok(tokens)) == (if nonceMatches(n) then None else Some(NonceMismatch))
  {
    if "nonce" in tokens {
      assert cv.toStringE(tokens["nonce"]) == Some(tokens["nonce"].s);
    }
  }

  /** checkNonce builds its extractor with an empty access token, so there are
      no request headers and the nonce lookup can never reach the profile
      endpoint: a nonce missing from the token is simply not found. */
  lemma NonceLookupNeverRequests(p: ProviderData, tokens: CE.ClaimMap, response: CE.ProfileResponse)
    ensures var e := CE.Endpoint(p.profileURL, p.AuthorizationHeader(""), response);
            && !CE.RequestPossible(e)
            && ("nonce" !in tokens ==> CE.Resolve(tokens, e, "nonce") == CE.Missing)
  {
  }

  /** A session nonce "abc123" accepts a token nonce "abc123" and rejects "xyz". */
  lemma NonceExample(cv: CE.Conversions)
    requires CE.Lawful(cv)
    ensures NonceOutcome(cv, s => s == "abc123", Ok(map["nonce" := CE.Str("abc123")])) == None
    ensures NonceOutcome(cv, s => s == "abc123", Ok(map["nonce" := CE.Str("xyz")])) == Some(NonceMismatch)
  {
    NonceClaimIsCompared(cv, s => s == "abc123", map["nonce" := CE.Str("abc123")]);
    NonceClaimIsCompared(cv, s => s == "abc123", map["nonce" := CE.Str("xyz")]);
  }

  // ---------------------------------------------------------------------------
  // Configuration helpers
  // ---------------------------------------------------------------------------

  /** Defaulting a URL twice changes nothing: a second setProviderDefaults
      with the same defaults leaves the URLs as they are. */
  lemma DefaultUrlIdempotent(u: Option<CE.Url>, d: Option<CE.Url>)
    ensures DefaultUrl(Some(DefaultUrl(u, d)), d) == DefaultUrl(u, d)
  {
  }
}
