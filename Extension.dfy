/** `gPodderExtension._handle_oauth_redirect`: the checks on the
    authorization response of section 4.1.2 of RFC 6749 (and the `state`
    check of its section 10.12) before the code is exchanged. */
module Extension {
  import opened Json
  import Cache
  import Api

  /** What `parse_qs` makes of the redirect's query: every present key has
      at least one value, and no value is blank, since blank values are
      dropped (and a key left without values is dropped with them). */
  predicate WellFormedQuery(query: map<string, seq<string>>) {
    forall k :: k in query ==> query[k] != [] && forall j :: 0 <= j < |query[k]| ==> query[k][j] != ""
  }

  /** The branch `_handle_oauth_redirect` takes. */
  datatype Decision =
    | Reject              // state missing or different, or `error` present
    | MissingCode         // valid, but `authorization_code` is never bound
    | Exchange(code: string)

  /** `sessionState` is `_oauth_state`; when the query carries a `state`,
      `generate_state` runs and draws `drawnState` if nothing is stored. */
  function Decide(query: map<string, seq<string>>, sessionState: Option<string>, drawnState: string): (d: Decision)
    requires WellFormedQuery(query)
    ensures "state" !in query ==> d == Reject
    ensures "state" in query && query["state"][0] != Api.Memoise(sessionState, drawnState).value ==> d == Reject
    ensures "error" in query ==> d == Reject
    ensures d.Exchange? <==>
              && "state" in query && query["state"][0] == Api.Memoise(sessionState, drawnState).value
              && "error" !in query && "code" in query
    ensures d.Exchange? ==> d.code == query["code"][0] && d.code != ""
    ensures d == MissingCode <==>
              && "state" in query && query["state"][0] == Api.Memoise(sessionState, drawnState).value
              && "error" !in query && "code" !in query
  {
    var stateMatches := "state" in query && query["state"][0] == Api.Memoise(sessionState, drawnState).value;
    if !stateMatches || "error" in query then Reject
    else if "code" !in query then MissingCode
    else Exchange(query["code"][0])
  }

  /** With a stored state, the draw is irrelevant: only the stored value is
      accepted. */
  lemma StoredStateDecides(query: map<string, seq<string>>, stored: string, d1: string, d2: string)
    requires WellFormedQuery(query) && stored != ""
    ensures Decide(query, Some(stored), d1) == Decide(query, Some(stored), d2)
    ensures Decide(query, Some(stored), d1).Exchange? ==> query["state"][0] == stored
  {
  }

  datatype RedirectOutcome =
    | Rejected
    | Exchanged
    | Failed(error: Error)

  /** `_handle_oauth_redirect` for the parsed query of the redirect URI.
      `response` is the token endpoint's answer to the code exchange. */
  method HandleOAuthRedirect(session: Api.OAuthSession, cache: Cache.CacheHandler,
                             query: map<string, seq<string>>, drawnState: string, drawnVerifier: string,
                             response: map<string, Json>, now: int)
      returns (outcome: RedirectOutcome)
    requires WellFormedQuery(query) && cache.Valid()
    modifies session, cache
    ensures cache.Valid() && cache.Podcasts() == old(cache.Podcasts())
    ensures cache.cacheInfo == old(cache.cacheInfo)[Cache.UserKey := JObj(cache.GetUser())]
    ensures var d := Decide(query, old(session.oauthState), drawnState);
            match d
            case Reject => outcome == Rejected
            case MissingCode => outcome == Failed(UnboundLocalError("authorization_code"))
            case Exchange(_) =>
              match Cache.MergeUserInfo(old(cache.GetUser()), response, now)
              case Ok(u) => outcome == Exchanged && cache.GetUser() == u && cache.saves == old(cache.saves) + 1
                            && session.verifier == None && session.oauthState == None
              case Err(e) => outcome == Failed(e)
                             && cache.GetUser() == Cache.CopyTokenFields(old(cache.GetUser()), response)
                             && cache.saves == old(cache.saves)
                             && session.verifier == Api.Memoise(old(session.verifier), drawnVerifier).stored
                             && session.oauthState == Api.Memoise(old(session.oauthState), drawnState).stored
    // no exchange: the stored credential is untouched
    ensures !Decide(query, old(session.oauthState), drawnState).Exchange? ==>
              cache.cacheInfo == old(cache.cacheInfo) && cache.saves == old(cache.saves)
              && session.verifier == old(session.verifier)
    ensures !Decide(query, old(session.oauthState), drawnState).Exchange? ==>
              session.oauthState == if "state" in query then Api.Memoise(old(session.oauthState), drawnState).stored
                                    else old(session.oauthState)
  {
    var isValid := true;
    if "state" in query {
      var expected := session.GenerateState(drawnState);
      if query["state"][0] != expected {
        isValid := false;
      }
    } else {
      isValid := false;
    }
    if "error" in query {
      isValid := false;
    }
    if !isValid {
      return Rejected;
    }
    if "code" !in query {
      return Failed(UnboundLocalError("authorization_code"));
    }
    var authorizationCode := query["code"][0];
    // `if authorization_code:` always holds: blank values never reach the query
    assert authorizationCode != "";
    var r := session.RequestAccessToken(cache, drawnVerifier, response, now);
    outcome := if r.Ok? then Exchanged else Failed(r.error);
  }
}
