/**
 * Provider configuration helpers and the assembly of a session from the claims
 * of a verified ID token: four named claims pulled through a claim extractor,
 * the `email_verified` policy, and the nonce check.
 */
module Providers {
  import opened Wrappers
  import CE = ClaimExtraction

  const OIDCEmailClaim := "email"
  const OIDCGroupsClaim := "groups"

  /** The errors this layer creates or passes on. */
  datatype Error =
    | ClientSecretUnreadable                 // could not read client secret file (no file name)
    | ExtractorInitFailed(cause: CE.Error)   // could not initialise claim extractor
    | ClaimFailed(cause: CE.Error)           // an error of GetClaimInto, passed on as it is
    | EmailNotVerified(email: string)        // email in id_token isn't verified
    | NonceClaimsUnavailable(inner: Error)   // id_token claims extraction failed
    | NonceUnreadable(cause: CE.Error)       // could not extract nonce from ID Token
    | NonceMismatch                          // id_token nonce claim does not match the session nonce

  // ---------------------------------------------------------------------------
  // Configuration helpers
  // ---------------------------------------------------------------------------

  /** A provider's built-in defaults. */
  datatype ProviderDefaults = ProviderDefaults(
    name: string,
    loginURL: Option<CE.Url>,
    redeemURL: Option<CE.Url>,
    profileURL: Option<CE.Url>,
    validateURL: Option<CE.Url>,
    scope: string)

  /** defaultURL: keep a configured URL that renders non-empty, otherwise the
      default when there is one, otherwise an empty URL; never nil. */
  function DefaultUrl(u: Option<CE.Url>, d: Option<CE.Url>): (r: CE.Url)
    ensures u.Some? && u.value.text != "" ==> r == u.value
    ensures (u.None? || u.value.text == "") && d.Some? ==> r == d.value
    ensures r.text != "" ==> (u.Some? && r == u.value) || (d.Some? && r == d.value)
    ensures r.text == "" ==> (u.None? || u.value.text == "") && (d.Some? ==> d.value.text == "")
  {
    if u.Some? && u.value.text != "" then u.value
    else if d.Some? then d.value
    else CE.Url("")
  }

  // ---------------------------------------------------------------------------
  // Sessions
  // ---------------------------------------------------------------------------

  /** The session fields this layer fills in. */
  datatype SessionField = UserField | EmailField | GroupsField | PreferredUsernameField

  datatype SessionFields = SessionFields(user: string, email: string, groups: seq<string>, preferredUsername: string)

  const EmptySession := SessionFields("", "", [], "")

  /** Field f of a session record, as a destination. */
  function FieldTarget(fields: SessionFields, f: SessionField): (t: CE.Target)
    ensures CE.SameShape(t, ZeroTarget(f))
  {
    match f
    case UserField => CE.StringTarget(fields.user)
    case EmailField => CE.StringTarget(fields.email)
    case GroupsField => CE.StringListTarget(fields.groups)
    case PreferredUsernameField => CE.StringTarget(fields.preferredUsername)
  }

  /** The destination shape of a session field, holding its zero value. */
  function ZeroTarget(f: SessionField): (t: CE.Target)
    ensures f == GroupsField ==> t == CE.StringListTarget([])
    ensures f != GroupsField ==> t == CE.StringTarget("")
  {
    if f == GroupsField then CE.StringListTarget([]) else CE.StringTarget("")
  }

  /** The session record under construction. */
  class SessionState {
    var user: string
    var email: string
    var groups: seq<string>
    var preferredUsername: string

    constructor ()
      ensures Fields() == EmptySession
    {
      user, email, groups, preferredUsername := "", "", [], "";
    }

    function Fields(): (f: SessionFields)
      reads this
    {
      SessionFields(user, email, groups, preferredUsername)
    }

    /** A field seen as the destination a pointer to it would be. */
    function Get(f: SessionField): (t: CE.Target)
      reads this
      ensures CE.SameShape(t, ZeroTarget(f))
    {
      FieldTarget(Fields(), f)
    }

    /** The write a coercion makes through a pointer to field f. */
    method Store(f: SessionField, t: CE.Target)
      requires CE.SameShape(t, ZeroTarget(f))
      modifies this
      ensures Get(f) == t
      ensures forall g :: g != f ==> Get(g) == old(Get(g))
    {
      match f {
        case UserField => user := t.s;
        case EmailField => email := t.s;
        case GroupsField => groups := t.items;
        case PreferredUsernameField => preferredUsername := t.s;
      }
    }
  }

  /** The configuration that decides which claims fill the session and whether
      `email_verified` is enforced. */
  datatype ClaimPolicy = ClaimPolicy(emailClaim: string, groupsClaim: string, allowUnverifiedEmail: bool)

  /** The claim name listed for each field in buildSessionFromClaims. */
  function ClaimOf(pol: ClaimPolicy, f: SessionField): (claim: string) {
    match f
    case UserField => "sub"
    case EmailField => pol.emailClaim
    case GroupsField => pol.groupsClaim
    case PreferredUsernameField => "preferred_username"
  }

  /** The map literal of buildSessionFromClaims: claim name to destination field.
      Equal names collapse and the later entry wins, as in Go. */
  function ClaimTargets(pol: ClaimPolicy): (t: map<string, SessionField>)
    ensures t.Keys == {"sub", pol.emailClaim, pol.groupsClaim, "preferred_username"}
    ensures forall f :: ClaimOf(pol, f) in t
    ensures forall c :: c in t ==> ClaimOf(pol, t[c]) == c
    // later entries of the literal overwrite earlier ones with the same name
    ensures t["preferred_username"] == PreferredUsernameField
    ensures pol.groupsClaim != "preferred_username" ==> t[pol.groupsClaim] == GroupsField
    ensures pol.emailClaim != pol.groupsClaim && pol.emailClaim != "preferred_username" ==>
              t[pol.emailClaim] == EmailField
    ensures pol.groupsClaim != "sub" && pol.emailClaim != "sub" ==> t["sub"] == UserField
  {
    map["sub" := UserField][pol.emailClaim := EmailField][pol.groupsClaim := GroupsField]["preferred_username" := PreferredUsernameField]
  }

  /** Whether `email_verified` is enforced: only for the standard email claim,
      and only when unverified emails are not allowed. */
  predicate VerifyEmail(pol: ClaimPolicy) {
    pol.emailClaim == OIDCEmailClaim && !pol.allowUnverifiedEmail
  }

  /** The GetClaimInto outcome that fills field f: the lookup of its claim when
      the map literal kept that entry, otherwise nothing and the zero value. */
  function FieldOutcome(cv: CE.Conversions, tokens: CE.ClaimMap, e: CE.Endpoint, pol: ClaimPolicy, f: SessionField)
    : (o: (Result<bool, CE.Error>, CE.Target))
    ensures CE.SameShape(o.1, ZeroTarget(f))
    ensures o.0.Ok? && !o.0.value ==> o.1 == ZeroTarget(f)
  {
    var claim := ClaimOf(pol, f);
    if ClaimTargets(pol)[claim] == f
    then CE.IntoTarget(cv, claim, CE.Resolve(tokens, e, claim), ZeroTarget(f))
    else (Ok(false), ZeroTarget(f))
  }

  /** The four fields of buildSessionFromClaims, or the error of the first
      failing lookup in the order the map literal lists them. */
  function Collect(cv: CE.Conversions, tokens: CE.ClaimMap, e: CE.Endpoint, pol: ClaimPolicy)
    : (r: Result<SessionFields, Error>)
    ensures r.Ok? <==> forall f :: FieldOutcome(cv, tokens, e, pol, f).0.Ok?
    ensures r.Ok? ==> forall f :: FieldTarget(r.value, f) == FieldOutcome(cv, tokens, e, pol, f).1
    ensures r.Err? ==> r.error.ClaimFailed?
  {
    var u := FieldOutcome(cv, tokens, e, pol, UserField);
    var m := FieldOutcome(cv, tokens, e, pol, EmailField);
    var g := FieldOutcome(cv, tokens, e, pol, GroupsField);
    var p := FieldOutcome(cv, tokens, e, pol, PreferredUsernameField);
    if u.0.Err? then Err(ClaimFailed(u.0.error))
    else if m.0.Err? then Err(ClaimFailed(m.0.error))
    else if g.0.Err? then Err(ClaimFailed(g.0.error))
    else if p.0.Err? then Err(ClaimFailed(p.0.error))
    else Ok(SessionFields(u.1.s, m.1.s, g.1.items, p.1.s))
  }

  /** The `email_verified` step: always looked up as a boolean; an error aborts,
      and an explicit false fails only when verification is enforced. */
  function CheckEmailVerified(cv: CE.Conversions, tokens: CE.ClaimMap, e: CE.Endpoint, pol: ClaimPolicy,
                              fields: SessionFields)
    : (r: Result<SessionFields, Error>)
    ensures r.Ok? ==> r.value == fields
    ensures r.Err? && r.error.EmailNotVerified? ==> VerifyEmail(pol) && r.error.email == fields.email
  {
    var verified := CE.IntoTarget(cv, "email_verified", CE.Resolve(tokens, e, "email_verified"), CE.BoolTarget(false));
    if verified.0.Err? then Err(ClaimFailed(verified.0.error))
    else if VerifyEmail(pol) && verified.0.value && !verified.1.b then Err(EmailNotVerified(fields.email))
    else Ok(fields)
  }

  /** The session buildSessionFromClaims produces from a token's claims and a
      profile endpoint, or the error it reports. */
  function Assemble(cv: CE.Conversions, tokens: CE.ClaimMap, e: CE.Endpoint, pol: ClaimPolicy)
    : (r: Result<SessionFields, Error>)
    ensures r.Err? && r.error.EmailNotVerified? ==> VerifyEmail(pol)
  {
    match Collect(cv, tokens, e, pol)
    case Err(err) => Err(err)
    case Ok(fields) => CheckEmailVerified(cv, tokens, e, pol, fields)
  }

  /** The content of field f once the claims in `done` have been processed. */
  ghost function Progress(cv: CE.Conversions, tokens: CE.ClaimMap, e: CE.Endpoint, pol: ClaimPolicy,
                          f: SessionField, done: set<string>): (t: CE.Target)
  {
    if ClaimOf(pol, f) in done then FieldOutcome(cv, tokens, e, pol, f).1 else ZeroTarget(f)
  }

  /** Processing one more claim of the map literal: its field is still zero,
      its GetClaimInto outcome is that field's outcome, and only that field
      moves on. */
  lemma ProgressStep(cv: CE.Conversions, tokens: CE.ClaimMap, e: CE.Endpoint, pol: ClaimPolicy,
                     done: set<string>, claim: string)
    requires claim in ClaimTargets(pol) && claim !in done
    ensures var f := ClaimTargets(pol)[claim];
            && Progress(cv, tokens, e, pol, f, done) == ZeroTarget(f)
            && FieldOutcome(cv, tokens, e, pol, f)
               == CE.IntoTarget(cv, claim, CE.Resolve(tokens, e, claim), ZeroTarget(f))
            && Progress(cv, tokens, e, pol, f, done + {claim}) == FieldOutcome(cv, tokens, e, pol, f).1
            && forall g :: g != f ==> Progress(cv, tokens, e, pol, g, done + {claim})
                                      == Progress(cv, tokens, e, pol, g, done)
  {
    var f := ClaimTargets(pol)[claim];
    forall g | g != f
      ensures Progress(cv, tokens, e, pol, g, done + {claim}) == Progress(cv, tokens, e, pol, g, done)
    {
      if ClaimOf(pol, g) == claim {
        assert ClaimTargets(pol)[ClaimOf(pol, g)] != g;
      }
    }
  }

  /** The token's `nonce` claim as a string; a missing claim reads as "". */
  function TokenNonce(cv: CE.Conversions, tokens: CE.ClaimMap): (r: Result<string, CE.Error>)
    ensures "nonce" !in tokens ==> r == Ok("")
    ensures "nonce" in tokens && CE.ToString(cv, tokens["nonce"]).Ok? ==> r == CE.ToString(cv, tokens["nonce"])
    ensures "nonce" in tokens && CE.ToString(cv, tokens["nonce"]).Err? ==>
              r == Err(CE.CoercionFailed(CE.NotAString(CE.ToString(cv, tokens["nonce"]).error)))
  {
    if "nonce" !in tokens then Ok("")
    else
      match CE.ToString(cv, tokens["nonce"])
      case Ok(s) => Ok(s)
      case Err(e) => Err(CE.CoercionFailed(CE.NotAString(e)))
  }

  /** The outcome of checkNonce for a token payload, where `nonceMatches` is
      the session's nonce comparison. */
  function NonceOutcome(cv: CE.Conversions, nonceMatches: string -> bool, payload: Result<CE.ClaimMap, string>)
    : (r: Option<Error>)
    ensures r.None? <==> (payload.Ok? && TokenNonce(cv, payload.value).Ok?
                          && nonceMatches(TokenNonce(cv, payload.value).value))
    ensures r == Some(NonceMismatch) <==> (payload.Ok? && TokenNonce(cv, payload.value).Ok?
                                          && !nonceMatches(TokenNonce(cv, payload.value).value))
  {
    match payload
    case Err(reason) => Some(NonceClaimsUnavailable(ExtractorInitFailed(CE.ClaimsUndecodable(reason))))
    case Ok(tokens) =>
      match TokenNonce(cv, tokens)
      case Err(e) => Some(NonceUnreadable(e))
      case Ok(n) => if nonceMatches(n) then None else Some(NonceMismatch)
  }

  /** The loop of buildSessionFromClaims: each entry of the map literal, in
      any order, looked up into its session field; the first error stops it. */
  method FillSession(cv: CE.Conversions, extractor: CE.ClaimExtractor, pol: ClaimPolicy, ss: SessionState)
    returns (failed: Option<Error>)
    requires extractor.Valid()
    requires ss.Fields() == EmptySession
    modifies extractor, ss
    ensures extractor.Valid()
    // a profile map cached before the lookups is kept and no request is sent
    ensures old(extractor.profileClaims).Some? ==>
              extractor.profileClaims == old(extractor.profileClaims) && extractor.requests == old(extractor.requests)
    ensures var want := Collect(cv, extractor.tokenClaims, extractor.endpoint, pol);
            && (failed.None? <==> want.Ok?)
            && (failed.None? ==> ss.Fields() == want.value)
            && (failed.Some? ==> failed.value.ClaimFailed?)
            // the error is that of some failing field, whichever the order reached first
            && (failed.Some? ==> exists f :: FieldOutcome(cv, extractor.tokenClaims, extractor.endpoint, pol, f).0
                                             == Err(failed.value.cause))
  {
    ghost var tokens, e := extractor.tokenClaims, extractor.endpoint;
    var targets := ClaimTargets(pol);
    var remaining := targets.Keys;
    while remaining != {}
      invariant remaining <= targets.Keys
      invariant extractor.Valid()
      invariant old(extractor.profileClaims).Some? ==>
                  extractor.profileClaims == old(extractor.profileClaims) && extractor.requests == old(extractor.requests)
      invariant forall c :: c in targets.Keys - remaining ==> FieldOutcome(cv, tokens, e, pol, targets[c]).0.Ok?
      invariant forall f :: ss.Get(f) == Progress(cv, tokens, e, pol, f, targets.Keys - remaining)
      decreases remaining
    {
      var claim :| claim in remaining;
      var f := targets[claim];
      ProgressStep(cv, tokens, e, pol, targets.Keys - remaining, claim);
      var found, out := extractor.GetClaimInto(cv, claim, ss.Get(f));
      if found.Err? {
        assert FieldOutcome(cv, tokens, e, pol, f).0 == found;
        return Some(ClaimFailed(found.error));
      }
      if found.value {
        ss.Store(f, out);
      }
      assert targets.Keys - (remaining - {claim}) == (targets.Keys - remaining) + {claim};
      remaining := remaining - {claim};
    }
    assert forall f :: FieldOutcome(cv, tokens, e, pol, f).0.Ok? by {
      forall f ensures FieldOutcome(cv, tokens, e, pol, f).0.Ok? {
        assert targets[ClaimOf(pol, f)] == f || FieldOutcome(cv, tokens, e, pol, f).0 == Ok(false);
      }
    }
    var c := Collect(cv, tokens, e, pol).value;
    forall f ensures FieldTarget(ss.Fields(), f) == FieldTarget(c, f) {
      assert ss.Get(f) == Progress(cv, tokens, e, pol, f, targets.Keys);
    }
    assert FieldTarget(c, UserField) == FieldTarget(ss.Fields(), UserField);
    assert FieldTarget(c, EmailField) == FieldTarget(ss.Fields(), EmailField);
    assert FieldTarget(c, GroupsField) == FieldTarget(ss.Fields(), GroupsField);
    assert FieldTarget(c, PreferredUsernameField) == FieldTarget(ss.Fields(), PreferredUsernameField);
    failed := None;
  }

  // ---------------------------------------------------------------------------
  // Provider data
  // ---------------------------------------------------------------------------

  /** The configuration every OAuth2 provider carries. */
  class ProviderData {
    var providerName: string
    var loginURL: Option<CE.Url>
    var redeemURL: Option<CE.Url>
    var profileURL: Option<CE.Url>
    var validateURL: Option<CE.Url>
    var clientSecret: string
    var clientSecretFile: string
    var scope: string
    var allowUnverifiedEmail: bool
    var emailClaim: string
    var groupsClaim: string
    /** The keys of Go's AllowedGroups map (a set of group names). */
    var allowedGroups: set<string>
    /** Maps an access token to the headers of an authorised profile request. */
    var authorizationHeaderFunc: Option<string -> Option<CE.Headers>>

    /** The zero value of the configuration. */
    constructor ()
      ensures providerName == "" && scope == "" && clientSecret == "" && clientSecretFile == ""
      ensures loginURL.None? && redeemURL.None? && profileURL.None? && validateURL.None?
      ensures !allowUnverifiedEmail && emailClaim == "" && groupsClaim == ""
      ensures allowedGroups == {} && authorizationHeaderFunc.None?
    {
      providerName, scope, clientSecret, clientSecretFile := "", "", "", "";
      loginURL, redeemURL, profileURL, validateURL := None, None, None, None;
      allowUnverifiedEmail, emailClaim, groupsClaim := false, "", "";
      allowedGroups, authorizationHeaderFunc := {}, None;
    }

    function Policy(): (pol: ClaimPolicy)
      reads this
    {
      ClaimPolicy(emailClaim, groupsClaim, allowUnverifiedEmail)
    }

    /** GetClientSecret: the inline secret unless it is empty and a file is
        configured; then the file's content, or a generic error that does not
        carry the file name. `readFile` stands for reading a file. */
    function GetClientSecret(readFile: string -> Result<string, string>): (r: Result<string, Error>)
      reads this
      ensures clientSecret != "" || clientSecretFile == "" ==> r == Ok(clientSecret)
      ensures r.Err? <==> clientSecret == "" && clientSecretFile != "" && readFile(clientSecretFile).Err?
      ensures r.Err? ==> r.error == ClientSecretUnreadable
      ensures r.Ok? && clientSecret == "" && clientSecretFile != "" ==> r.value == readFile(clientSecretFile).value
    {
      if clientSecret != "" || clientSecretFile == "" then Ok(clientSecret)
      else
        match readFile(clientSecretFile)
        case Err(_) => Err(ClientSecretUnreadable)
        case Ok(content) => Ok(content)
    }

    /** SetAllowedGroups: the allowed groups become exactly the given groups. */
    method SetAllowedGroups(groups: seq<string>)
      modifies this`allowedGroups
      ensures allowedGroups == set g | g in groups
    {
      allowedGroups := {};
      for i := 0 to |groups|
        invariant allowedGroups == set g | g in groups[..i]
      {
        assert groups[..i + 1] == groups[..i] + [groups[i]];
        allowedGroups := allowedGroups + {groups[i]};
      }
      assert groups[..|groups|] == groups;
    }

    /** setProviderDefaults: the name is always replaced, each URL is defaulted,
        and the scope is filled in only when empty. */
    method SetProviderDefaults(d: ProviderDefaults)
      modifies this`providerName, this`loginURL, this`redeemURL, this`profileURL, this`validateURL, this`scope
      ensures providerName == d.name
      ensures loginURL == Some(DefaultUrl(old(loginURL), d.loginURL))
      ensures redeemURL == Some(DefaultUrl(old(redeemURL), d.redeemURL))
      ensures profileURL == Some(DefaultUrl(old(profileURL), d.profileURL))
      ensures validateURL == Some(DefaultUrl(old(validateURL), d.validateURL))
      ensures scope == if old(scope) == "" then d.scope else old(scope)
    {
      providerName := d.name;
      loginURL := Some(DefaultUrl(loginURL, d.loginURL));
      redeemURL := Some(DefaultUrl(redeemURL, d.redeemURL));
      profileURL := Some(DefaultUrl(profileURL, d.profileURL));
      validateURL := Some(DefaultUrl(validateURL, d.validateURL));
      if scope == "" {
        scope := d.scope;
      }
    }

    /** getAuthorizationHeader: headers only when a header function is set and
        the access token is non-empty. */
    function AuthorizationHeader(accessToken: string): (h: Option<CE.Headers>)
      reads this
      ensures h.Some? ==> authorizationHeaderFunc.Some? && accessToken != ""
      ensures authorizationHeaderFunc.Some? && accessToken != "" ==> h == authorizationHeaderFunc.value(accessToken)
    {
      if authorizationHeaderFunc.Some? && accessToken != "" then authorizationHeaderFunc.value(accessToken)
      else None
    }

    /** getClaimExtractor: an extractor over the token's claims and this
        provider's profile URL, with headers for the access token. */
    method GetClaimExtractor(idToken: CE.IdToken, accessToken: string, response: CE.ProfileResponse)
      returns (r: Result<CE.ClaimExtractor, Error>)
      ensures r.Err? <==> idToken.payload.Err?
      ensures r.Err? ==> r.error == ExtractorInitFailed(CE.ClaimsUndecodable(idToken.payload.error))
      ensures r.Ok? ==> && fresh(r.value) && r.value.Valid()
                        && r.value.tokenClaims == idToken.payload.value
                        && r.value.endpoint == CE.Endpoint(profileURL, AuthorizationHeader(accessToken), response)
                        && r.value.profileClaims.None? && r.value.requests == 0
    {
      var made := CE.NewClaimExtractor(idToken, profileURL, AuthorizationHeader(accessToken), response);
      if made.Err? {
        return Err(ExtractorInitFailed(made.error));
      }
      r := Ok(made.value);
    }

    /** buildSessionFromClaims: a fresh session filled from the token's claims
        in any order of the four lookups, then the `email_verified` policy.
        `response` is what the profile endpoint answers if it is asked. */
    method BuildSessionFromClaims(cv: CE.Conversions, idToken: Option<CE.IdToken>, accessToken: string,
                                  response: CE.ProfileResponse)
      returns (r: Result<SessionState, Error>)
      ensures r.Ok? ==> fresh(r.value)
      ensures idToken.None? ==> r.Ok? && r.value.Fields() == EmptySession
      ensures idToken.Some? && idToken.value.payload.Err? ==>
                r == Err(ExtractorInitFailed(CE.ClaimsUndecodable(idToken.value.payload.error)))
      ensures idToken.Some? && idToken.value.payload.Ok? ==>
                var tokens := idToken.value.payload.value;
                var e := CE.Endpoint(profileURL, AuthorizationHeader(accessToken), response);
                var want := Assemble(cv, tokens, e, Policy());
                && (r.Ok? <==> want.Ok?)
                && (r.Ok? ==> r.value.Fields() == want.value)
                && (want.Err? && want.error.EmailNotVerified? ==> r == Err(want.error))
                // once the four claims are collected, the error is exactly Assemble's
                && ((Collect(cv, tokens, e, Policy()).Ok? && r.Err?) ==> r == Err(want.error))
                // a failing claim lookup reports the error of one of the four fields
                && (Collect(cv, tokens, e, Policy()).Err? ==>
                      && r.Err? && r.error.ClaimFailed?
                      && exists f :: FieldOutcome(cv, tokens, e, Policy(), f).0 == Err(r.error.cause))
    {
      var ss := new SessionState();
      if idToken.None? {
        return Ok(ss);
      }
      var made := GetClaimExtractor(idToken.value, accessToken, response);
      if made.Err? {
        return Err(made.error);
      }
      var extractor := made.value;
      var pol := Policy();
      var failed := FillSession(cv, extractor, pol, ss);
      if failed.Some? {
        return Err(failed.value);
      }
      var exists_, verified := extractor.GetClaimInto(cv, "email_verified", CE.BoolTarget(false));
      if exists_.Err? {
        return Err(ClaimFailed(exists_.error));
      }
      if VerifyEmail(pol) && exists_.value && !verified.b {
        return Err(EmailNotVerified(ss.email));
      }
      r := Ok(ss);
    }

    /** checkNonce: the token's `nonce` claim (read without any profile request)
        compared by the session's nonce check. */
    method CheckNonce(cv: CE.Conversions, nonceMatches: string -> bool, idToken: CE.IdToken,
                      response: CE.ProfileResponse)
      returns (err: Option<Error>)
      ensures err == NonceOutcome(cv, nonceMatches, idToken.payload)
    {
      var made := GetClaimExtractor(idToken, "", response);
      if made.Err? {
        return Some(NonceClaimsUnavailable(made.error));
      }
      var found, nonce := made.value.GetClaimInto(cv, "nonce", CE.StringTarget(""));
      if found.Err? {
        return Some(NonceUnreadable(found.error));
      }
      if !nonceMatches(nonce.s) {
        return Some(NonceMismatch);
      }
      err := None;
    }
  }
}
