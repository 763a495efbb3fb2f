/**
 * Claim resolution for one authentication event: the claims decoded from a
 * verified ID token, a lazily fetched profile document that is consulted only
 * when the token lacks a claim, and the coercion of a raw claim value into a
 * string, a list of strings or a boolean destination.
 */
module ClaimExtraction {
  import opened Wrappers

  /** A decoded JSON value, as Go's encoding/json leaves it in an interface{}.
      Go decodes numbers into float64; here a number keeps its literal text and
      is never computed on. */
  datatype Json =
    | Null
    | Bool(b: bool)
    | Num(literal: string)
    | Str(s: string)
    | Arr(items: seq<Json>)
    | Obj(fields: map<string, Json>)

  type ClaimMap = map<string, Json>

  /** HTTP request headers: a header name and its values. */
  type Headers = map<string, seq<string>>

  /** A parsed URL, represented by the text its String() method renders. */
  datatype Url = Url(text: string)

  /** A verified ID token: decoding its claim payload either yields a claim map
      or fails with the decoder's message. */
  datatype IdToken = IdToken(payload: Result<ClaimMap, string>)

  /** The library conversions the extractor calls but whose code is not part of
      this model: cast.ToStringE (None for its error), json.Marshal,
      cast.ToBool and cast.ToSlice. */
  datatype Conversions = Conversions(
    toStringE: Json -> Option<string>,
    marshal: Json -> Result<string, string>,
    toBool: Json -> bool,
    toSlice: Json -> seq<Json>)

  /** The only facts about the libraries that the model relies on: a string
      converts to itself, and a boolean is its own truth value. */
  ghost predicate Lawful(cv: Conversions) {
    && (forall s: string :: cv.toStringE(Str(s)) == Some(s))
    && (forall b: bool :: cv.toBool(Bool(b)) == b)
  }

  /** The errors of the claim extractor, one constructor per error the Go code
      creates or wraps. */
  datatype Error =
    | ClaimsUndecodable(reason: string)             // failed to extract claims from ID Token
    | ProfileRequestFailed(reason: string)          // error making request to profile URL
    | ProfileFetchFailed(cause: Error)              // failed to fetch claims from profile URL
    | ClaimUnavailable(claim: string, cause: Error) // could not get claim
    | CoercionFailed(cause: Error)                  // could not coerce claim
    | NotAString(cause: Error)                      // could not convert value to string
    | NotAStringList(cause: Error)                  // could not convert value to string slice
    | UnknownDestination(typeName: string)          // unknown type for destination
    | SliceEntryFailed(entry: Json, cause: Error)   // could not convert slice entry to string
    | MarshalFailed(reason: string)                 // the error json.Marshal returned

  // ---------------------------------------------------------------------------
  // Coercion
  // ---------------------------------------------------------------------------

  /** toString: the value's native string form when cast accepts it, otherwise
      its JSON text. */
  function ToString(cv: Conversions, value: Json): (r: Result<string, Error>)
    ensures cv.toStringE(value).Some? ==> r == Ok(cv.toStringE(value).value)
    ensures r.Err? <==> cv.toStringE(value).None? && cv.marshal(value).Err?
    ensures r.Err? ==> r.error == MarshalFailed(cv.marshal(value).error)
    ensures r.Ok? && cv.toStringE(value).None? ==> r.value == cv.marshal(value).value
  {
    match cv.toStringE(value)
    case Some(s) => Ok(s)
    case None =>
      match cv.marshal(value)
      case Ok(text) => Ok(text)
      case Err(reason) => Err(MarshalFailed(reason))
  }

  /** The elements toStringSlice walks over: an array's own items, nil through
      cast.ToSlice, and any other value as a one-element list. */
  function SliceValues(cv: Conversions, value: Json): (items: seq<Json>)
    ensures value.Arr? ==> items == value.items
    ensures !value.Arr? && !value.Null? ==> items == [value]
  {
    match value
    case Arr(items) => items
    case Null => cv.toSlice(value)
    case _ => [value]
  }

  /** Index i holds the first element of items that toString rejects. */
  ghost predicate FirstFailure(cv: Conversions, items: seq<Json>, i: int) {
    && 0 <= i < |items|
    && ToString(cv, items[i]).Err?
    && forall j :: 0 <= j < i ==> ToString(cv, items[j]).Ok?
  }

  /** The string list of toStringSlice's loop: every element converted, in
      order, or the error of the first element that fails. */
  function StringsOf(cv: Conversions, items: seq<Json>): (r: Result<seq<string>, Error>)
    ensures r.Ok? ==> |r.value| == |items|
    ensures r.Ok? ==> forall i :: 0 <= i < |items| ==> ToString(cv, items[i]) == Ok(r.value[i])
    ensures r.Err? ==> exists i :: FirstFailure(cv, items, i)
                                && r.error == SliceEntryFailed(items[i], ToString(cv, items[i]).error)
    decreases |items|
  {
    if items == [] then Ok([])
    else
      var init, last := items[..|items| - 1], items[|items| - 1];
      assert forall j :: 0 <= j < |init| ==> init[j] == items[j];
      match StringsOf(cv, init)
      case Err(e) => Err(e)
      case Ok(out) =>
        match ToString(cv, last)
        case Err(e) =>
          assert FirstFailure(cv, items, |init|);
          Err(SliceEntryFailed(last, e))
        case Ok(s) => Ok(out + [s])
  }

  /** The list toStringSlice produces for a claim value. */
  function StringSliceOf(cv: Conversions, value: Json): (r: Result<seq<string>, Error>) {
    StringsOf(cv, SliceValues(cv, value))
  }

  /** toStringSlice: collect toString of each element, failing on the first
      element that cannot be converted. */
  method ToStringSlice(cv: Conversions, value: Json) returns (r: Result<seq<string>, Error>)
    ensures r == StringSliceOf(cv, value)
    ensures r.Ok? ==> |r.value| == |SliceValues(cv, value)|
    ensures r.Ok? ==> forall i :: 0 <= i < |r.value| ==>
                        ToString(cv, SliceValues(cv, value)[i]) == Ok(r.value[i])
    ensures r.Err? ==> exists i :: FirstFailure(cv, SliceValues(cv, value), i)
  {
    var items: seq<Json>;
    match value {
      case Arr(vs) => items := vs;
      case Null => items := cv.toSlice(value);
      case _ => items := [value];
    }
    var out: seq<string> := [];
    var i := 0;
    while i < |items|
      invariant 0 <= i <= |items|
      invariant StringsOf(cv, items[..i]) == Ok(out)
    {
      var s := ToString(cv, items[i]);
      assert items[..i + 1][..i] == items[..i];
      if s.Err? {
        return Err(SliceEntryFailed(items[i], s.error));
      }
      out := out + [s.value];
      i := i + 1;
    }
    assert items[..i] == items;
    r := Ok(out);
  }

  /** The destination a caller hands to GetClaimInto: a *string, a *[]string,
      a *bool, or a pointer of any other type (named by its type). The payload
      is the value the destination currently holds. */
  datatype Target =
    | StringTarget(s: string)
    | StringListTarget(items: seq<string>)
    | BoolTarget(b: bool)
    | OtherTarget(typeName: string)

  predicate SameShape(a: Target, b: Target) {
    || (a.StringTarget? && b.StringTarget?)
    || (a.StringListTarget? && b.StringListTarget?)
    || (a.BoolTarget? && b.BoolTarget?)
    || (a.OtherTarget? && b.OtherTarget?)
  }

  /** coerceClaim: the new content of the destination, or the error. */
  function Coerce(cv: Conversions, value: Json, dst: Target): (r: Result<Target, Error>)
    ensures r.Ok? ==> SameShape(r.value, dst)
    ensures dst.StringTarget? ==>
              r == (match ToString(cv, value)
                    case Ok(s) => Ok(StringTarget(s))
                    case Err(e) => Err(NotAString(e)))
    ensures dst.StringListTarget? ==>
              r == (match StringSliceOf(cv, value)
                    case Ok(l) => Ok(StringListTarget(l))
                    case Err(e) => Err(NotAStringList(e)))
    ensures dst.BoolTarget? ==> r == Ok(BoolTarget(cv.toBool(value)))
    ensures dst.OtherTarget? ==> r == Err(UnknownDestination(dst.typeName))
  {
    match dst
    case StringTarget(_) =>
      (match ToString(cv, value)
       case Ok(s) => Ok(StringTarget(s))
       case Err(e) => Err(NotAString(e)))
    case StringListTarget(_) =>
      (match StringSliceOf(cv, value)
       case Ok(l) => Ok(StringListTarget(l))
       case Err(e) => Err(NotAStringList(e)))
    case BoolTarget(_) => Ok(BoolTarget(cv.toBool(value)))
    case OtherTarget(name) => Err(UnknownDestination(name))
  }

  /** coerceClaim, writing through the destination: on success `out` is the
      written content, on failure the destination is returned untouched. */
  method CoerceClaim(cv: Conversions, value: Json, dst: Target) returns (err: Option<Error>, out: Target)
    ensures err.None? <==> Coerce(cv, value, dst).Ok?
    ensures err.None? ==> out == Coerce(cv, value, dst).value
    ensures err.Some? ==> out == dst && err.value == Coerce(cv, value, dst).error
    ensures dst.BoolTarget? ==> err.None?
    ensures SameShape(out, dst)
  {
    out := dst;
    match dst {
      case StringTarget(_) =>
        var str := ToString(cv, value);
        if str.Err? {
          return Some(NotAString(str.error)), dst;
        }
        out := StringTarget(str.value);
      case StringListTarget(_) =>
        var strs := ToStringSlice(cv, value);
        if strs.Err? {
          return Some(NotAStringList(strs.error)), dst;
        }
        out := StringListTarget(strs.value);
      case BoolTarget(_) =>
        out := BoolTarget(cv.toBool(value));
      case OtherTarget(name) =>
        return Some(UnknownDestination(name)), dst;
    }
    err := None;
  }

  // ---------------------------------------------------------------------------
  // Profile claims and lookup
  // ---------------------------------------------------------------------------

  /** What the profile endpoint answers when it is asked: a JSON object, a JSON
      `null` body (which leaves Go's map nil), or a failed request. */
  datatype ProfileResponse =
    | ProfileBody(claims: ClaimMap)
    | NullBody
    | RequestFailed(reason: string)

  /** The extractor's profile configuration; `headers == None` is a nil header map. */
  datatype Endpoint = Endpoint(url: Option<Url>, headers: Option<Headers>, response: ProfileResponse)

  /** A profile request is issued only when both a URL and headers are present. */
  predicate RequestPossible(e: Endpoint) {
    e.url.Some? && e.headers.Some?
  }

  /** getProfileClaims: the profile map (None for a nil map) or the error. */
  function FetchProfile(e: Endpoint): (r: Result<Option<ClaimMap>, Error>)
    ensures !RequestPossible(e) ==> r == Ok(Some(map[]))
    ensures r.Err? <==> RequestPossible(e) && e.response.RequestFailed?
    ensures r.Err? ==> r.error == ProfileRequestFailed(e.response.reason)
    ensures r == Ok(None) <==> RequestPossible(e) && e.response.NullBody?
    ensures RequestPossible(e) && e.response.ProfileBody? ==> r == Ok(Some(e.response.claims))
  {
    if e.url.None? || e.headers.None? then Ok(Some(map[]))
    else
      match e.response
      case ProfileBody(m) => Ok(Some(m))
      case NullBody => Ok(None)
      case RequestFailed(reason) => Err(ProfileRequestFailed(reason))
  }

  /** The outcome of GetClaim: the value (possibly JSON null) when found,
      not found, or the error. */
  datatype Lookup = Found(value: Json) | Missing | Failed(error: Error)

  /** Indexing a possibly nil profile map. */
  function LookupIn(profile: Option<ClaimMap>, claim: string): (r: Lookup)
    ensures r.Found? <==> profile.Some? && claim in profile.value
    ensures r.Found? ==> r.value == profile.value[claim]
    ensures !(profile.Some? && claim in profile.value) ==> r == Missing
  {
    if profile.Some? && claim in profile.value then Found(profile.value[claim]) else Missing
  }

  /** One GetClaim call on an extractor whose profile field holds `profile`:
      its result, the profile field afterwards, and whether a request went out. */
  datatype Step = Step(result: Lookup, profile: Option<ClaimMap>, requested: bool)

  function GetClaimStep(tokens: ClaimMap, e: Endpoint, profile: Option<ClaimMap>, claim: string): (st: Step)
    // an empty name is a no-op
    ensures claim == "" ==> st == Step(Missing, profile, false)
    // token claims take precedence and never touch the profile
    ensures claim != "" && claim in tokens ==> st == Step(Found(tokens[claim]), profile, false)
    // a cached profile map is never replaced or refetched
    ensures profile.Some? ==> st.profile == profile && !st.requested
    // a request goes out only on a token miss while the profile is unset
    ensures st.requested <==> claim != "" && claim !in tokens && profile.None? && RequestPossible(e)
    // a failed fetch is an error and leaves the profile unset
    ensures st.result.Failed? <==> claim != "" && claim !in tokens && profile.None? && FetchProfile(e).Err?
    ensures st.result.Failed? ==> st.profile.None?
    // a claim found outside the token claims comes from the profile map now cached
    ensures st.result.Found? && claim !in tokens ==> st.result == LookupIn(st.profile, claim)
    // a fetch without error becomes the profile field and is consulted
    ensures claim != "" && claim !in tokens && profile.None? && FetchProfile(e).Ok? ==>
              st.profile == FetchProfile(e).value && st.result == LookupIn(st.profile, claim)
    // with a cached map, the claim is looked up there
    ensures claim != "" && claim !in tokens && profile.Some? ==> st.result == LookupIn(profile, claim)
  {
    if claim == "" then Step(Missing, profile, false)
    else if claim in tokens then Step(Found(tokens[claim]), profile, false)
    else if profile.None? then
      match FetchProfile(e)
      case Err(err) => Step(Failed(ProfileFetchFailed(err)), None, RequestPossible(e))
      case Ok(fetched) => Step(LookupIn(fetched, claim), fetched, RequestPossible(e))
    else Step(LookupIn(profile, claim), profile, false)
  }

  /** The profile field is either unset or holds exactly what getProfileClaims
      returns for this endpoint. */
  predicate Consistent(e: Endpoint, profile: Option<ClaimMap>) {
    profile.Some? ==> FetchProfile(e) == Ok(profile)
  }

  /** A reference definition of claim lookup without any memoisation: the
      token claims, else whatever the profile document holds. */
  function Resolve(tokens: ClaimMap, e: Endpoint, claim: string): (r: Lookup)
    ensures claim == "" ==> r == Missing
    ensures claim != "" && claim in tokens ==> r == Found(tokens[claim])
    ensures r.Failed? <==> claim != "" && claim !in tokens && RequestPossible(e) && e.response.RequestFailed?
    ensures claim !in tokens && !RequestPossible(e) ==> r == Missing
    ensures claim != "" && claim !in tokens && FetchProfile(e).Ok? ==> r == LookupIn(FetchProfile(e).value, claim)
  {
    if claim == "" then Missing
    else if claim in tokens then Found(tokens[claim])
    else
      match FetchProfile(e)
      case Err(err) => Failed(ProfileFetchFailed(err))
      case Ok(fetched) => LookupIn(fetched, claim)
  }

  /** Memoisation is invisible: from any consistent state one GetClaim step
      gives the reference result and leaves a consistent state. */
  lemma StepAgreesWithResolve(tokens: ClaimMap, e: Endpoint, profile: Option<ClaimMap>, claim: string)
    requires Consistent(e, profile)
    ensures GetClaimStep(tokens, e, profile, claim).result == Resolve(tokens, e, claim)
    ensures Consistent(e, GetClaimStep(tokens, e, profile, claim).profile)
  {
  }

  /** GetClaimInto for a given lookup outcome: whether the claim was found (or
      the error) and the destination's content afterwards. */
  function IntoTarget(cv: Conversions, claim: string, l: Lookup, dst: Target): (o: (Result<bool, Error>, Target))
    ensures SameShape(o.1, dst)
    ensures o.0 == Ok(false) <==> l.Missing?
    ensures o.0 != Ok(true) ==> o.1 == dst
    ensures o.0 == Ok(true) <==> l.Found? && Coerce(cv, l.value, dst).Ok?
    ensures o.0 == Ok(true) ==> o.1 == Coerce(cv, l.value, dst).value
    ensures l.Failed? ==> o.0 == Err(ClaimUnavailable(claim, l.error))
    ensures l.Found? && Coerce(cv, l.value, dst).Err? ==> o.0 == Err(CoercionFailed(Coerce(cv, l.value, dst).error))
  {
    match l
    case Failed(e) => (Err(ClaimUnavailable(claim, e)), dst)
    case Missing => (Ok(false), dst)
    case Found(v) =>
      match Coerce(cv, v, dst)
      case Err(e) => (Err(CoercionFailed(e)), dst)
      case Ok(t) => (Ok(true), t)
  }

  /** The claim extractor of one authentication event. */
  class ClaimExtractor {
    const tokenClaims: ClaimMap
    const endpoint: Endpoint
    /** The lazily populated profile claims; None while unset (nil). */
    var profileClaims: Option<ClaimMap>
    /** The number of requests sent to the profile endpoint so far. */
    ghost var requests: nat

    ghost predicate Valid()
      reads this
    {
      Consistent(endpoint, profileClaims)
    }

    constructor (tokenClaims: ClaimMap, endpoint: Endpoint)
      ensures Valid()
      ensures this.tokenClaims == tokenClaims && this.endpoint == endpoint
      ensures profileClaims.None? && requests == 0
    {
      this.tokenClaims := tokenClaims;
      this.endpoint := endpoint;
      profileClaims := None;
      requests := 0;
    }

    /** getProfileClaims: an empty map without any request when the URL or the
        headers are missing; otherwise one request and its decoded body. */
    method GetProfileClaims() returns (r: Result<Option<ClaimMap>, Error>)
      modifies this`requests
      ensures r == FetchProfile(endpoint)
      ensures requests == old(requests) + (if RequestPossible(endpoint) then 1 else 0)
    {
      if endpoint.url.None? || endpoint.headers.None? {
        return Ok(Some(map[]));
      }
      requests := requests + 1;
      match endpoint.response {
        case ProfileBody(m) => r := Ok(Some(m));
        case NullBody => r := Ok(None);
        case RequestFailed(reason) => r := Err(ProfileRequestFailed(reason));
      }
    }

    /** GetClaim: token claims first; on a miss, fetch the profile once while it
        is unset, then look the claim up there. */
    method GetClaim(claim: string) returns (r: Lookup)
      requires Valid()
      modifies this`profileClaims, this`requests
      ensures Valid()
      ensures var st := GetClaimStep(tokenClaims, endpoint, old(profileClaims), claim);
              && r == st.result
              && profileClaims == st.profile
              && requests == old(requests) + (if st.requested then 1 else 0)
      ensures r == Resolve(tokenClaims, endpoint, claim)
    {
      if claim == "" {
        return Missing;
      }
      if claim in tokenClaims {
        return Found(tokenClaims[claim]);
      }
      if profileClaims.None? {
        var fetched := GetProfileClaims();
        if fetched.Err? {
          return Failed(ProfileFetchFailed(fetched.error));
        }
        profileClaims := fetched.value;
      }
      r := LookupIn(profileClaims, claim);
    }

    /** GetClaimInto: look the claim up and, when found, coerce it into the
        destination; the destination changes only when `found == Ok(true)`. */
    method GetClaimInto(cv: Conversions, claim: string, dst: Target) returns (found: Result<bool, Error>, out: Target)
      requires Valid()
      modifies this`profileClaims, this`requests
      ensures Valid()
      ensures (found, out) == IntoTarget(cv, claim, Resolve(tokenClaims, endpoint, claim), dst)
      ensures var st := GetClaimStep(tokenClaims, endpoint, old(profileClaims), claim);
              && profileClaims == st.profile
              && requests == old(requests) + (if st.requested then 1 else 0)
    {
      out := dst;
      var value := GetClaim(claim);
      match value {
        case Failed(e) =>
          return Err(ClaimUnavailable(claim, e)), dst;
        case Missing =>
          return Ok(false), dst;
        case Found(v) =>
          var err, written := CoerceClaim(cv, v, dst);
          if err.Some? {
            return Err(CoercionFailed(err.value)), dst;
          }
          out := written;
      }
      found := Ok(true);
    }
  }

  /** NewClaimExtractor: decode the token's claims and start with the profile unset. */
  method NewClaimExtractor(idToken: IdToken, profileURL: Option<Url>, headers: Option<Headers>,
                           response: ProfileResponse)
    returns (r: Result<ClaimExtractor, Error>)
    ensures r.Err? <==> idToken.payload.Err?
    ensures r.Err? ==> r.error == ClaimsUndecodable(idToken.payload.error)
    ensures r.Ok? ==> && fresh(r.value) && r.value.Valid()
                      && r.value.tokenClaims == idToken.payload.value
                      && r.value.endpoint == Endpoint(profileURL, headers, response)
                      && r.value.profileClaims.None? && r.value.requests == 0
  {
    match idToken.payload {
      case Err(reason) =>
        r := Err(ClaimsUndecodable(reason));
      case Ok(claims) =>
        var x := new ClaimExtractor(claims, Endpoint(profileURL, headers, response));
        r := Ok(x);
    }
  }
}
