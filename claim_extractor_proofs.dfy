/**
 * Properties of the claim extractor over any sequence of lookups, and of the
 * coercion layer.
 */
module ClaimExtractionProofs {
  import opened Wrappers
  import opened ClaimExtraction

  /** What a sequence of GetClaim calls on one extractor yields: the results in
      order, the profile field at the end, and the number of profile requests. */
  datatype Trace = Trace(results: seq<Lookup>, profile: Option<ClaimMap>, requests: nat)

  function Run(tokens: ClaimMap, e: Endpoint, profile: Option<ClaimMap>, claims: seq<string>): (t: Trace)
    ensures |t.results| == |claims|
    decreases |claims|
  {
    if claims == [] then Trace([], profile, 0)
    else
      var st := GetClaimStep(tokens, e, profile, claims[0]);
      var rest := Run(tokens, e, st.profile, claims[1..]);
      Trace([st.result] + rest.results, rest.profile, rest.requests + (if st.requested then 1 else 0))
  }

  /** The number of lookups that miss the token claims (empty names aside). */
  function Misses(tokens: ClaimMap, claims: seq<string>): (n: nat)
    ensures n <= |claims|
  {
    if claims == [] then 0
    else (if claims[0] != "" && claims[0] !in tokens then 1 else 0) + Misses(tokens, claims[1..])
  }

  /** Once the profile map is cached, no lookup sends a request or changes it. */
  lemma {:induction false} CachedProfileIsFinal(tokens: ClaimMap, e: Endpoint, m: ClaimMap, claims: seq<string>)
    ensures Run(tokens, e, Some(m), claims).requests == 0
    ensures Run(tokens, e, Some(m), claims).profile == Some(m)
    decreases |claims|
  {
    if claims != [] {
      CachedProfileIsFinal(tokens, e, m, claims[1..]);
    }
  }

  /** When the endpoint answers with a JSON object, however many lookups miss
      the token claims, at most one request is sent. */
  lemma {:induction false} ObjectProfileFetchedAtMostOnce(tokens: ClaimMap, e: Endpoint, claims: seq<string>)
    requires e.response.ProfileBody?
    ensures Run(tokens, e, None, claims).requests <= 1
    decreases |claims|
  {
    if claims != [] {
      var st := GetClaimStep(tokens, e, None, claims[0]);
      if st.profile.Some? {
        CachedProfileIsFinal(tokens, e, st.profile.value, claims[1..]);
      } else {
        ObjectProfileFetchedAtMostOnce(tokens, e, claims[1..]);
      }
    }
  }

  /** Lookups of claims that the token carries (or of the empty name) never
      send a request and never touch the profile field. */
  lemma {:induction false} TokenClaimsNeverFetch(tokens: ClaimMap, e: Endpoint, profile: Option<ClaimMap>, claims: seq<string>)
    requires forall i :: 0 <= i < |claims| ==> claims[i] == "" || claims[i] in tokens
    ensures Run(tokens, e, profile, claims).requests == 0
    ensures Run(tokens, e, profile, claims).profile == profile
    ensures forall i :: 0 <= i < |claims| && claims[i] != "" ==>
              Run(tokens, e, profile, claims).results[i] == Found(tokens[claims[i]])
    decreases |claims|
  {
    if claims != [] {
      TokenClaimsNeverFetch(tokens, e, profile, claims[1..]);
      var t := Run(tokens, e, profile, claims);
      forall i | 0 <= i < |claims| && claims[i] != ""
        ensures t.results[i] == Found(tokens[claims[i]])
      {
        if i > 0 {
          assert claims[1..][i - 1] == claims[i];
        }
      }
    }
  }

  /** Without a profile URL or without request headers no request is ever sent,
      and every claim the token lacks is simply not found. */
  lemma {:induction false} NoEndpointNeverRequests(tokens: ClaimMap, e: Endpoint, profile: Option<ClaimMap>, claims: seq<string>)
    requires !RequestPossible(e)
    requires Consistent(e, profile)
    ensures Run(tokens, e, profile, claims).requests == 0
    ensures forall i :: 0 <= i < |claims| && claims[i] !in tokens ==>
              Run(tokens, e, profile, claims).results[i] == Missing
    decreases |claims|
  {
    if claims != [] {
      var st := GetClaimStep(tokens, e, profile, claims[0]);
      NoEndpointNeverRequests(tokens, e, st.profile, claims[1..]);
      var t := Run(tokens, e, profile, claims);
      forall i | 0 <= i < |claims| && claims[i] !in tokens
        ensures t.results[i] == Missing
      {
        if i > 0 {
          assert claims[1..][i - 1] == claims[i];
        }
      }
    }
  }

  /** A JSON null profile body or a failed request leaves the profile unset, so
      every later lookup that misses the token claims sends a new request. */
  lemma {:induction false} UncachedProfileRefetchesOnEveryMiss(tokens: ClaimMap, e: Endpoint, claims: seq<string>)
    requires RequestPossible(e)
    requires e.response.NullBody? || e.response.RequestFailed?
    ensures Run(tokens, e, None, claims).requests == Misses(tokens, claims)
    ensures Run(tokens, e, None, claims).profile == None
    decreases |claims|
  {
    if claims != [] {
      UncachedProfileRefetchesOnEveryMiss(tokens, e, claims[1..]);
    }
  }

  /** Every result of a sequence of lookups equals the memo-free reference
      lookup: caching the profile never changes what a lookup returns. */
  lemma {:induction false} RunAgreesWithResolve(tokens: ClaimMap, e: Endpoint, profile: Option<ClaimMap>, claims: seq<string>)
    requires Consistent(e, profile)
    ensures Consistent(e, Run(tokens, e, profile, claims).profile)
    ensures forall i :: 0 <= i < |claims| ==>
              Run(tokens, e, profile, claims).results[i] == Resolve(tokens, e, claims[i])
    decreases |claims|
  {
    if claims != [] {
      StepAgreesWithResolve(tokens, e, profile, claims[0]);
      var st := GetClaimStep(tokens, e, profile, claims[0]);
      RunAgreesWithResolve(tokens, e, st.profile, claims[1..]);
      var t := Run(tokens, e, profile, claims);
      forall i | 0 <= i < |claims|
        ensures t.results[i] == Resolve(tokens, e, claims[i])
      {
        if i > 0 {
          assert claims[1..][i - 1] == claims[i];
        }
      }
    }
  }

  /** A client performing lookups one after another on one extractor follows
      Run exactly: the results, the final profile field and the request count. */
  method LookupAll(x: ClaimExtractor, claims: seq<string>) returns (results: seq<Lookup>)
    requires x.Valid()
    modifies x
    ensures x.Valid()
    ensures var t := Run(x.tokenClaims, x.endpoint, old(x.profileClaims), claims);
            && results == t.results
            && x.profileClaims == t.profile
            && x.requests == old(x.requests) + t.requests
  {
    results := [];
    var i := 0;
    while i < |claims|
      invariant 0 <= i <= |claims|
      invariant x.Valid()
      invariant var t := Run(x.tokenClaims, x.endpoint, old(x.profileClaims), claims[..i]);
                && results == t.results
                && x.profileClaims == t.profile
                && x.requests == old(x.requests) + t.requests
    {
      RunSplit(x.tokenClaims, x.endpoint, old(x.profileClaims), claims[..i + 1]);
      assert claims[..i + 1][..i] == claims[..i];
      var r := x.GetClaim(claims[i]);
      results := results + [r];
      i := i + 1;
    }
    assert claims[..i] == claims;
  }

  /** Run over a sequence is Run over all but its last element followed by one step. */
  lemma {:induction false} RunSplit(tokens: ClaimMap, e: Endpoint, profile: Option<ClaimMap>, claims: seq<string>)
    requires claims != []
    ensures var init := claims[..|claims| - 1];
            var t := Run(tokens, e, profile, init);
            var st := GetClaimStep(tokens, e, t.profile, claims[|claims| - 1]);
            Run(tokens, e, profile, claims)
              == Trace(t.results + [st.result], st.profile, t.requests + (if st.requested then 1 else 0))
    decreases |claims|
  {
    if |claims| > 1 {
      var st0 := GetClaimStep(tokens, e, profile, claims[0]);
      RunSplit(tokens, e, st0.profile, claims[1..]);
      assert claims[1..][..|claims[1..]| - 1] == claims[..|claims| - 1][1..];
    }
  }

  // ---------------------------------------------------------------------------
  // Coercion
  // ---------------------------------------------------------------------------

  /** The JSON array of the given strings, as a provider would send a groups claim. */
  function StringArray(ss: seq<string>): (v: Json)
    ensures v.Arr? && |v.items| == |ss|
    ensures forall i :: 0 <= i < |ss| ==> v.items[i] == Str(ss[i])
  {
    Arr(seq(|ss|, i requires 0 <= i < |ss| => Str(ss[i])))
  }

  /** A string claim coerced into a string destination is itself. */
  lemma StringCoercesToItself(cv: Conversions, s: string, dst: Target)
    requires Lawful(cv)
    requires dst.StringTarget?
    ensures Coerce(cv, Str(s), dst) == Ok(StringTarget(s))
  {
    assert cv.toStringE(Str(s)) == Some(s);
  }

  /** A list-of-strings claim coerced into a string-list destination is the
      same list, in the same order. */
  lemma {:induction false} StringListRoundTrip(cv: Conversions, ss: seq<string>)
    requires Lawful(cv)
    ensures StringSliceOf(cv, StringArray(ss)) == Ok(ss)
  {
    var items := StringArray(ss).items;
    forall i | 0 <= i < |items| ensures ToString(cv, items[i]) == Ok(ss[i]) {
      assert cv.toStringE(Str(ss[i])) == Some(ss[i]);
    }
    var r := StringsOf(cv, items);
    assert r.Ok?;
    assert r.value == ss;
  }

  /** A non-null, non-array value coerced into a list becomes a one-element
      list holding its string form, or fails with that element's error. */
  lemma ScalarBecomesSingleton(cv: Conversions, v: Json)
    requires !v.Arr? && !v.Null?
    ensures ToString(cv, v).Ok? ==> StringSliceOf(cv, v) == Ok([ToString(cv, v).value])
    ensures ToString(cv, v).Err? ==> StringSliceOf(cv, v) == Err(SliceEntryFailed(v, ToString(cv, v).error))
  {
    var items := SliceValues(cv, v);
    assert items == [v];
    assert items[..|items| - 1] == [];
    assert StringsOf(cv, []) == Ok([]);
    if ToString(cv, v).Ok? {
      var str := ToString(cv, v).value;
      assert StringsOf(cv, items) == Ok([] + [str]);
      assert [] + [str] == [str];
      assert StringSliceOf(cv, v) == StringsOf(cv, items);
    }
  }

  /** List coercion keeps the array's length and order element by element, and
      one unconvertible element fails the whole list. */
  lemma ListCoercionIsElementwise(cv: Conversions, items: seq<Json>)
    ensures StringSliceOf(cv, Arr(items)).Ok? <==> forall i :: 0 <= i < |items| ==> ToString(cv, items[i]).Ok?
    ensures StringSliceOf(cv, Arr(items)).Ok? ==>
              && |StringSliceOf(cv, Arr(items)).value| == |items|
              && forall i :: 0 <= i < |items| ==> StringSliceOf(cv, Arr(items)).value[i] == ToString(cv, items[i]).value
  {
    var r := StringsOf(cv, items);
    if r.Err? {
      var i :| FirstFailure(cv, items, i);
    }
  }
}
