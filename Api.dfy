/** `SpotifyAPI`: the episode-limit rule, the token logic (expiry, the fast
    path and the refresh-token grant of section 6 of RFC 6749) and the
    OAuth/PKCE session fields `_verifier` and `_oauth_state`. The network is
    not modelled: each token-endpoint response is an input. */
module Api {
  import opened Json
  import Strings
  import Cache

  /** 50 episodes per request is the upstream maximum. */
  const LimitMax := 50

  /** The `limit` that `get_show_episodes` requests: 0 means the maximum,
      anything else is clamped to [1, 50]. */
  function RequestLimit(maxEpisodes: int): (r: int)
    ensures 1 <= r <= LimitMax
    ensures maxEpisodes == 0 ==> r == LimitMax
    ensures 1 <= maxEpisodes <= LimitMax ==> r == maxEpisodes
    ensures maxEpisodes > LimitMax ==> r == LimitMax
    ensures maxEpisodes < 0 ==> r == 1
  {
    if maxEpisodes == 0 then LimitMax
    else if maxEpisodes > LimitMax then LimitMax
    else if maxEpisodes < 1 then 1
    else maxEpisodes
  }

  /** `is_token_expired` at the clock reading `now` (already truncated to
      whole seconds). An absent `expires_at` means expired; otherwise the
      boundary is inclusive. `int(expires_at)` may raise. */
  function IsTokenExpired(user: map<string, Json>, now: int): (r: Result<bool>)
    ensures "expires_at" !in user ==> r == Ok(true)
    ensures "expires_at" in user ==> (r.Ok? <==> IntOf(user["expires_at"]).Ok?)
    ensures "expires_at" in user && r.Ok? ==> (r.value <==> now >= IntOf(user["expires_at"]).value)
  {
    if "expires_at" !in user then Ok(true)
    else
      match IntOf(user["expires_at"])
      case Ok(t) => Ok(now >= t)
      case Err(e) => Err(e)
  }

  /** Expiry is monotone in time: once expired, a token stays expired. */
  lemma ExpiredStaysExpired(user: map<string, Json>, now: int, later: int)
    requires now <= later
    requires IsTokenExpired(user, now) == Ok(true)
    ensures IsTokenExpired(user, later) == Ok(true)
  {
  }

  /** The outcome of one `get_token` call: what it returns, whether it
      posted a refresh request, the user map it leaves behind and whether
      that map was written to the cache file. */
  datatype TokenStep = TokenStep(result: Result<Option<Json>>, exchanged: bool, user: map<string, Json>, saved: bool)

  /** `get_token` on the stored user map. `response` is what the token
      endpoint answers to the refresh request, were one sent. */
  function Token(user: map<string, Json>, now: int, response: map<string, Json>): (s: TokenStep)
    // fast path: no exchange exactly when the token is fresh and present
    ensures !s.exchanged && s.result.Ok? <==> IsTokenExpired(user, now) == Ok(false) && "access_token" in user
    ensures IsTokenExpired(user, now) == Ok(false) && "access_token" in user ==>
              s.result == Ok(Some(user["access_token"])) && s.user == user
    // errors raised before any exchange
    ensures IsTokenExpired(user, now).Err? ==> s == TokenStep(Err(IsTokenExpired(user, now).error), false, user, false)
    ensures s.exchanged ==> "refresh_token" in user
    ensures !s.exchanged ==> s.user == user
    ensures !s.exchanged && s.result.Err? && IsTokenExpired(user, now).Ok? ==> s.result == Err(KeyError("refresh_token"))
    // refresh outcome
    ensures s.exchanged && "access_token" !in response ==> s.result == Ok(None) && s.user == user
    ensures s.exchanged && "access_token" in response ==>
              match Cache.MergeUserInfo(user, response, now)
              case Ok(u) => s.result == Ok(Some(response["access_token"])) && s.user == u
              case Err(e) => s.result == Err(e) && s.user == Cache.CopyTokenFields(user, response)
    // only a completed merge reaches `save_cache_file`
    ensures s.saved <==> s.exchanged && "access_token" in response && Cache.MergeUserInfo(user, response, now).Ok?
  {
    match IsTokenExpired(user, now)
    case Err(e) => TokenStep(Err(e), false, user, false)
    case Ok(expired) =>
      if !expired && "access_token" in user then TokenStep(Ok(Some(user["access_token"])), false, user, false)
      else if "refresh_token" !in user then TokenStep(Err(KeyError("refresh_token")), false, user, false)
      else if "access_token" !in response then TokenStep(Ok(None), true, user, false)
      else
        match Cache.MergeUserInfo(user, response, now)
        case Ok(u) => TokenStep(Ok(Some(response["access_token"])), true, u, true)
        case Err(e) => TokenStep(Err(e), true, Cache.CopyTokenFields(user, response), false)
  }

  /** A refresh leaves the credential usable: after a successful refresh
      whose response carries `expires_in`, the stored token is the new one
      and is not expired at the moment of the refresh, provided its lifetime
      is positive. */
  lemma RefreshedTokenIsFresh(user: map<string, Json>, now: int, response: map<string, Json>)
    requires Token(user, now, response).exchanged
    requires Token(user, now, response).result.Ok? && Token(user, now, response).result.value.Some?
    requires "expires_in" in response && IntOf(response["expires_in"]).Ok? && IntOf(response["expires_in"]).value > 0
    ensures var u := Token(user, now, response).user;
            "access_token" in u && u["access_token"] == response["access_token"] &&
            IsTokenExpired(u, now) == Ok(false) &&
            Token(u, now, response) == TokenStep(Ok(Some(response["access_token"])), false, u, false)
  {
  }

  /** `get_token` against the cache handler: only the user entry changes,
      and it is saved exactly when a refresh was merged. A refresh that is
      answered without `access_token` leaves the cache untouched. */
  method GetToken(cache: Cache.CacheHandler, now: int, response: map<string, Json>)
      returns (r: Result<Option<Json>>, exchanged: bool)
    requires cache.Valid()
    modifies cache
    ensures cache.Valid() && cache.Podcasts() == old(cache.Podcasts())
    ensures var s := Token(old(cache.GetUser()), now, response);
            r == s.result && exchanged == s.exchanged && cache.GetUser() == s.user
            && cache.saves == old(cache.saves) + (if s.saved then 1 else 0)
    ensures cache.cacheInfo == old(cache.cacheInfo)[Cache.UserKey := JObj(cache.GetUser())]
    ensures !exchanged || r == Ok(None) ==> cache.cacheInfo == old(cache.cacheInfo) && cache.saves == old(cache.saves)
  {
    var user := cache.GetUser();
    var expired := IsTokenExpired(user, now);
    if expired.Err? {
      return Err(expired.error), false;
    }
    if !expired.value && "access_token" in user {
      return Ok(Some(user["access_token"])), false;
    }
    if "refresh_token" !in user {
      return Err(KeyError("refresh_token")), false;
    }
    exchanged := true;
    if "access_token" !in response {
      return Ok(None), exchanged;
    }
    var stored := cache.SetUserInfo(response, now);
    if stored.Err? {
      return Err(stored.error), exchanged;
    }
    r := Ok(Some(response["access_token"]));
  }

  /** What the Web API answers to one request: the decoded JSON body and
      the two validator headers (`None` when the header is absent). */
  datatype Reply = Reply(body: Json, etag: Option<string>, lastModified: Option<string>)

  /** The clock reading and the two network answers one `do_api_request`
      call may see: the token endpoint's answer to a refresh, were one
      sent, and the Web API's reply. */
  datatype Remote = Remote(now: int, tokenReply: map<string, Json>, reply: Reply)

  /** `if etag:` on a header value. */
  predicate Present(h: Option<string>) {
    h.Some? && h.value != ""
  }

  /** The `_headers` object `do_api_request` builds. */
  function Validators(reply: Reply): map<string, Json> {
    var h := if Present(reply.etag) then map["etag" := JStr(reply.etag.value)] else map[];
    if Present(reply.lastModified) then h["last_modified" := JStr(reply.lastModified.value)] else h
  }

  /** The body with `_headers` set: a non-object body does not take item
      assignment; an object keeps every other key and gets exactly the
      present validators, `last-modified` stored as `last_modified`. */
  function WithValidators(reply: Reply): (r: Result<Json>)
    ensures r.Ok? <==> reply.body.JObj?
    ensures r.Err? ==> r.error == TypeError
    ensures r.Ok? ==> r.value.JObj? && r.value.fields.Keys == reply.body.fields.Keys + {"_headers"}
    ensures r.Ok? ==> forall k :: k in reply.body.fields && k != "_headers" ==> r.value.fields[k] == reply.body.fields[k]
    ensures r.Ok? ==>
              var h := r.value.fields["_headers"];
              && h.JObj? && h.fields.Keys <= {"etag", "last_modified"}
              && ("etag" in h.fields <==> Present(reply.etag))
              && ("last_modified" in h.fields <==> Present(reply.lastModified))
              && (Present(reply.etag) ==> h.fields["etag"] == JStr(reply.etag.value))
              && (Present(reply.lastModified) ==> h.fields["last_modified"] == JStr(reply.lastModified.value))
  {
    if !reply.body.JObj? then Err(TypeError)
    else Ok(JObj(reply.body.fields["_headers" := JObj(Validators(reply))]))
  }

  /** Whether `do_api_request` sends its request after `get_token` returned
      `token`: a falsy token stops it, and `'Bearer ' + token` raises on
      anything but a string. */
  function Authorized(token: Result<Option<Json>>): (r: Result<bool>)
    ensures token.Err? ==> r == Err(token.error)
    ensures r == Ok(true) <==> token.Ok? && token.value.Some? && token.value.value.JStr? && token.value.value.s != ""
    ensures token.Ok? && (token.value.None? || !Truthy(token.value.value)) ==> r == Ok(false)
    ensures token.Ok? && r.Err? ==> r.error == TypeError
  {
    match token
    case Err(e) => Err(e)
    case Ok(None) => Ok(false)
    case Ok(Some(v)) => if !Truthy(v) then Ok(false) else if v.JStr? then Ok(true) else Err(TypeError)
  }

  /** What `do_api_request` returns, `JNull` standing for `None`: `None`
      exactly when no usable token came back, and otherwise the reply's
      body with its validators. */
  function ApiResponse(token: Result<Option<Json>>, reply: Reply): (r: Result<Json>)
    ensures r == Ok(JNull) <==> Authorized(token) == Ok(false)
    ensures r.Err? <==> Authorized(token).Err? || (Authorized(token) == Ok(true) && !reply.body.JObj?)
    ensures r.Ok? && r.value != JNull ==> r == WithValidators(reply)
  {
    match Authorized(token)
    case Err(e) => Err(e)
    case Ok(send) => if send then WithValidators(reply) else Ok(JNull)
  }

  /** `do_api_request`: `get_token`, then the request. Only the user entry
      of the cache changes, as `get_token` changes it. */
  method DoApiRequest(cache: Cache.CacheHandler, remote: Remote) returns (r: Result<Json>, exchanged: bool)
    requires cache.Valid()
    modifies cache
    ensures cache.Valid()
    ensures var s := Token(old(cache.GetUser()), remote.now, remote.tokenReply);
            exchanged == s.exchanged && cache.GetUser() == s.user
            && cache.saves == old(cache.saves) + (if s.saved then 1 else 0)
            && r == ApiResponse(s.result, remote.reply)
    ensures cache.cacheInfo == old(cache.cacheInfo)[Cache.UserKey := JObj(cache.GetUser())]
  {
    var token;
    token, exchanged := GetToken(cache, remote.now, remote.tokenReply);
    if token.Err? {
      return Err(token.error), exchanged;
    }
    if token.value.None? || !Truthy(token.value.value) {
      return Ok(JNull), exchanged;
    }
    if !token.value.value.JStr? {
      return Err(TypeError), exchanged;
    }
    r := WithValidators(remote.reply);
  }

  /** The memoisation of `generate_code_verifier` and `generate_state`: a
      truthy stored value is returned as it is; otherwise `drawn` (what
      `secrets.token_urlsafe` returns) is stored and returned. */
  datatype Memo = Memo(value: string, stored: Option<string>)

  function Memoise(current: Option<string>, drawn: string): (m: Memo)
    ensures m.stored == Some(m.value)
    ensures current.Some? && current.value != "" ==> m.value == current.value
    ensures !(current.Some? && current.value != "") ==> m.value == drawn
  {
    if current.Some? && current.value != "" then Memo(current.value, current) else Memo(drawn, Some(drawn))
  }

  /** Repeated generation returns the first value, whatever later draws are,
      as long as the first draw is non-empty (`token_urlsafe` never returns
      an empty string). */
  lemma MemoiseIsStable(current: Option<string>, first: string, later: string)
    requires first != ""
    ensures var m := Memoise(current, first);
            Memoise(m.stored, later) == m
  {
  }

  /** The challenge of section 4.2 of RFC 7636: `encoded` is the base64url
      text of the SHA-256 digest of the verifier (foreign); the padding
      `=` characters are then removed. */
  function CodeChallenge(encoded: string): (c: string)
    ensures '=' !in c
    ensures '=' !in encoded ==> c == encoded
  {
    Strings.RemoveAll(encoded, '=')
  }

  /** The `=` padding a base64url text may end with. */
  predicate IsPadding(pad: string) {
    forall i :: 0 <= i < |pad| ==> pad[i] == '='
  }

  /** Stripping the padding recovers the unpadded text, which is what
      section 4.2 of RFC 7636 asks `code_challenge` to be. */
  lemma ChallengeStripsPadding(text: string, pad: string)
    requires '=' !in text && IsPadding(pad)
    ensures CodeChallenge(text + pad) == text
  {
    Strings.RemoveAllAppend(text, pad, '=');
    Strings.RemoveAllOnly(pad, '=');
  }

  const ClientId := "afe692b6116c4eeca210be215bc88d62"
  const RedirectUri := "gpodder://spotify-extension/callback/"

  /** The authorization URL without challenge and state; the redirect URI
      is percent-encoded as `quote` does with the given safe characters. */
  const OAuthBase := "https://accounts.spotify.com/authorize?response_type=code&client_id=" + ClientId
    + "&redirect_uri=gpodder%3A%2F%2Fspotify-extension%2Fcallback%2F&code_challenge_method=S256"

  /** The class-level OAuth fields of `SpotifyAPI`. */
  class OAuthSession {
    var verifier: Option<string>
    var oauthState: Option<string>

    /** The module-level `reset_oauth_temp_data()` at import time. */
    constructor ()
      ensures verifier == None && oauthState == None
    {
      verifier := None;
      oauthState := None;
    }

    /** `generate_code_verifier`. */
    method GenerateCodeVerifier(drawn: string) returns (v: string)
      modifies this
      ensures Memo(v, verifier) == Memoise(old(verifier), drawn)
      ensures oauthState == old(oauthState)
    {
      if verifier.Some? && verifier.value != "" {
        return verifier.value;
      }
      verifier := Some(drawn);
      v := drawn;
    }

    /** `generate_state`. */
    method GenerateState(drawn: string) returns (s: string)
      modifies this
      ensures Memo(s, oauthState) == Memoise(old(oauthState), drawn)
      ensures verifier == old(verifier)
    {
      if oauthState.Some? && oauthState.value != "" {
        return oauthState.value;
      }
      oauthState := Some(drawn);
      s := drawn;
    }

    /** `reset_oauth_temp_data`. */
    method Reset()
      modifies this
      ensures verifier == None && oauthState == None
    {
      oauthState := None;
      verifier := None;
    }

    /** `build_oauth_url`. `encode` stands for base64url of SHA-256. */
    method BuildOAuthUrl(encode: string -> string, drawnVerifier: string, drawnState: string) returns (url: string)
      modifies this
      ensures verifier == Memoise(old(verifier), drawnVerifier).stored
      ensures oauthState == Memoise(old(oauthState), drawnState).stored
      ensures url == OAuthBase + "&code_challenge=" + CodeChallenge(encode(verifier.value))
                     + "&state=" + oauthState.value
    {
      var v := GenerateCodeVerifier(drawnVerifier);
      var challenge := CodeChallenge(encode(v));
      var s := GenerateState(drawnState);
      url := OAuthBase + "&code_challenge=" + challenge + "&state=" + s;
    }

    /** `request_access_token`: the verifier is read (drawing one if none is
        stored), the exchange `response` is merged into the cache, and then
        verifier and state are forgotten. If the merge raises, the reset is
        not reached. */
    method RequestAccessToken(cache: Cache.CacheHandler, drawnVerifier: string,
                              response: map<string, Json>, now: int) returns (r: Result<()>)
      requires cache.Valid()
      modifies this, cache
      ensures cache.Valid() && cache.Podcasts() == old(cache.Podcasts())
      ensures r.Ok? <==> Cache.MergeUserInfo(old(cache.GetUser()), response, now).Ok?
      ensures r.Ok? ==> cache.GetUser() == Cache.MergeUserInfo(old(cache.GetUser()), response, now).value
      ensures r.Ok? ==> verifier == None && oauthState == None
      ensures r.Err? ==> r.error == Cache.MergeUserInfo(old(cache.GetUser()), response, now).error
                         && cache.GetUser() == Cache.CopyTokenFields(old(cache.GetUser()), response)
      ensures r.Err? ==> verifier == Memoise(old(verifier), drawnVerifier).stored && oauthState == old(oauthState)
      ensures cache.saves == old(cache.saves) + (if r.Ok? then 1 else 0)
      ensures cache.cacheInfo == old(cache.cacheInfo)[Cache.UserKey := JObj(cache.GetUser())]
    {
      var v := GenerateCodeVerifier(drawnVerifier);
      r := cache.SetUserInfo(response, now);
      if r.Ok? {
        Reset();
      }
    }
  }

  /** The life cycle of one authorization attempt: the verifier is stable
      until the code exchange succeeds, and the next attempt draws anew. */
  method VerifierLifecycle(session: OAuthSession, cache: Cache.CacheHandler, first: string, second: string,
                           third: string, response: map<string, Json>, now: int)
      returns (v1: string, v2: string, v3: string)
    requires cache.Valid() && session.verifier == None && first != ""
    requires Cache.MergeUserInfo(cache.GetUser(), response, now).Ok?
    modifies session, cache
    ensures v1 == v2 == first && v3 == third
  {
    v1 := session.GenerateCodeVerifier(first);
    v2 := session.GenerateCodeVerifier(second);
    var r := session.RequestAccessToken(cache, second, response, now);
    v3 := session.GenerateCodeVerifier(third);
  }
}
