# Spotify feed extension for gPodder — a Dafny model of its core

The extension turns a Spotify show URL into a podcast feed for gPodder. Its
core is small: a cache document holding show metadata and the user's
credential, the token logic that returns a stored access token or refreshes
it with the refresh-token grant (section 6 of RFC 6749), the OAuth/PKCE
session state (`_verifier`, `_oauth_state`, section 4.2 of RFC 7636 for the
challenge), the check of the authorization redirect (sections 4.1.2 and
10.12 of RFC 6749), show-URL parsing, the episode-limit clamp and the
adapter that splits a page of episodes into new records and seen ids.

Modules, following the classes of `spotify.py`:

- `Json` — decoded JSON values, Python truthiness, `v[key]`, `v[i]`,
  `key in v`, `int(v)`; a raised exception is an `Err` of its kind. As in
  Python, `v[i]` gives an element of a list or a one-character string of a
  string, raises `IndexError` past the end, raises `KeyError` on an object
  (`IntKeyError`) and `TypeError` on anything else; `in` on a value that is
  neither object, list nor string raises `TypeError`.
- `Strings` — `startswith` and `replace` as `spotify.py` uses them.
- `Cache` — `SpotifyCacheHandler` as the class `CacheHandler`, whose field
  `cacheInfo` is the document and whose invariant `Valid()` strengthens
  what `load` establishes (both `podcasts` and `user` exist) by also
  requiring `podcasts`, `user` and every cached show to be objects. Writing the file
  is the ghost counter `saves`. `GetUser` models `get_user`.
- `Api` — `SpotifyAPI`: the limit clamp, expiry, `get_token` (as the pure
  `Token` and the method `GetToken` tied to it), `do_api_request` (the
  method `DoApiRequest`, specified by `ApiResponse`), the memoised verifier
  and state (class `OAuthSession`), the challenge, `build_oauth_url` and
  `request_access_token`.
- `Feed` — `SpotifyFeed`: `extract_show_id`, `handle_url`,
  `get_new_episodes` with `get_show_episodes`, the read-through accessors
  with `get_show_info` (all three specified by `ReadThroughEffect` on the
  cache document) and the ETag / Last-Modified lookups.
- `Extension` — `gPodderExtension._handle_oauth_redirect`.

The clock (`now`), every random draw (`drawn…`), every token-endpoint
response, every Web API reply (its decoded body and its two validator
headers, `Api.Reply`) and the base64url-of-SHA-256 encoder are parameters;
`Api.Remote` bundles the clock and the two answers one request may see.
Two flags report the path a method took: `exchanged` says whether `get_token`
posted a refresh request, and `requested` says whether a read-through
missed the cache and called `do_api_request`. Whether a random draw was
used is not reported; the stored value that `Memoise` describes shows it.

The model follows the code in five places where its behaviour may be unexpected:

- A redirect that passes the state and error checks but carries no `code`
  does not log and abort: `authorization_code` is never bound and the
  handler raises `UnboundLocalError`. `HandleOAuthRedirect` returns
  `Failed(UnboundLocalError("authorization_code"))`. An empty `code=` ends
  the same way, because `parse_qs` drops blank values; the branch that logs
  a missing code (spotify.py:742-743) cannot be reached.
- A read-through whose `do_api_request` returns `None` (no usable token)
  stores nothing: `set_podcast_info` raises `AttributeError` on `None.pop`.
  A list body already raises `TypeError` in `do_api_request`, when
  `_headers` is assigned.
- `extract_show_id` does not strip a leading prefix. It removes every
  occurrence of the prefix, then every `/`. `Stripped` models both steps.
- `generate_state` runs inside the redirect check. When no state is pending,
  it draws a fresh one and compares the query's state with that.
- `set_user_info` copies the token fields before `int(expires_in)` can raise.
  If it raises, those fields are already stored and nothing is saved.

## Model

| member | source | states |
|---|---|---|
| Feed.ExtractShowId | spotify.py:669-689 | a result is non-empty and holds no `/`; it is only given for a string with the show prefix; for such a string it is `None` exactly when nothing is left after removing every prefix occurrence and every `/`, and otherwise it is that remainder |
| Feed.Stripped | spotify.py:683-684 | the remainder holds no `/` and is never longer than the URL |
| Feed.CanonicalShowUrl | spotify.py:677-689 | `https://open.spotify.com/show/<id>` and the same URL with a trailing `/` yield exactly `<id>` when `<id>` is non-empty and contains no `/` |
| Strings.ReplaceAll | spotify.py:683 | a replacement no longer than the pattern (here the empty one) never lengthens the string |
| Strings.ReplaceAbsent | spotify.py:683 | `replace` of a pattern that occurs nowhere leaves the string unchanged |
| Strings.RemoveAll | spotify.py:684 | `replace('/', '')` leaves no `/`, never lengthens, and leaves a string without `/` alone |
| Strings.RemoveAllAppend | spotify.py:684 | removal works piecewise on a concatenation, so every other character is kept in order |
| Strings.RemoveTrailing | spotify.py:684 | removing `c` from a string that holds it only as a final character drops exactly that character |
| Feed.HandleUrl | spotify.py:654-666 | a feed exists exactly for URLs with a show id and carries that id and the episode limit |
| Api.RequestLimit | spotify.py:117-125 | the limit is always in [1, 50]; 0 and anything above 50 give 50, anything in [1, 50] is kept, negatives give 1 |
| Api.IsTokenExpired | spotify.py:190-213 | absent `expires_at` means expired; otherwise expired exactly when `now >= int(expires_at)`, and an unconvertible `expires_at` raises |
| Api.ExpiredStaysExpired | spotify.py:204-208 | once expired at `now`, a token is expired at every later time |
| Api.Token | spotify.py:144-187 | no exchange and the stored token exactly when it is unexpired and present; errors from expiry raise before any exchange; a missing `refresh_token` raises `KeyError`; a response without `access_token` gives `None` and leaves the user map as it was; otherwise the response is merged and its `access_token` returned; the cache file is written exactly when a merge completes |
| Api.RefreshedTokenIsFresh | spotify.py:179-187 | after a successful refresh with a positive `expires_in`, the stored token is the new one, is not expired, and the next call takes the fast path |
| Api.GetToken | spotify.py:144-187 | result, exchange flag, user map and save count are as `Token` says; only the user entry of the document can change; without an exchange, or with a response lacking `access_token`, the document and the save count are unchanged |
| Api.Authorized | spotify.py:67-81 | the request is sent exactly for a non-empty string token; a falsy token or none stops it; `get_token`'s error is passed on, and `'Bearer ' + token` on a non-string raises `TypeError` |
| Api.WithValidators | spotify.py:90-100 | a non-object body raises `TypeError`; an object keeps every other key and gets a `_headers` object holding exactly the non-empty `etag` and `last-modified` headers, the latter under `last_modified` |
| Api.ApiResponse | spotify.py:67-102 | `None` exactly when no usable token came back; an error exactly when the token step fails or the body is not an object; otherwise the body with its validators |
| Api.DoApiRequest | spotify.py:56-102 | the result is `ApiResponse` of what `Token` returns; user map, exchange flag and save count are as `Token` says, and nothing but the user entry changes |
| Api.Memoise | spotify.py:255-292 | a stored non-empty value is returned as it is, otherwise the draw is stored and returned |
| Api.MemoiseIsStable | spotify.py:266-273 | a second generation returns the first value whatever the second draw is, given a non-empty first draw |
| Api.CodeChallenge | spotify.py:235-252 | the challenge holds no `=` and is the encoded digest itself when that has no padding |
| Api.ChallengeStripsPadding | spotify.py:249-250 | a base64url text followed by any run of `=` padding yields exactly the unpadded text |
| Api.OAuthSession.constructor | spotify.py:343 | at import both the verifier and the state are cleared |
| Api.OAuthSession.GenerateCodeVerifier | spotify.py:255-273 | the returned verifier and the stored one are as `Memoise` says; the state is untouched |
| Api.OAuthSession.GenerateState | spotify.py:276-292 | the returned state and the stored one are as `Memoise` says; the verifier is untouched |
| Api.OAuthSession.Reset | spotify.py:335-340 | both the verifier and the state are `None` afterwards |
| Api.OAuthSession.BuildOAuthUrl | spotify.py:216-232 | the stored verifier and state are the memoised ones, and the URL is the fixed authorization URL, then the challenge of that verifier, then that state |
| Api.OAuthSession.RequestAccessToken | spotify.py:295-332 | the exchange response is merged into the user map and saved once; on success both session fields are cleared; if the merge raises, only the token fields are stored, nothing is saved, the verifier stays and the state is untouched; only the user entry of the document changes |
| Api.VerifierLifecycle | spotify.py:266-340 | two generations return the same verifier; after a successful exchange the next generation returns the new draw |
| Cache.Normalise | spotify.py:389-410 | a missing, unreadable or falsy file gives `{podcasts: {}, user: {}}`; an accepted document is well formed, keeps every loaded entry and adds only the two keys; an object is accepted exactly when adding the defaults makes it well formed |
| Cache.CacheHandler.constructor | spotify.py:400-410 | the handler starts as `load` leaves it without a cache file: `{podcasts: {}, user: {}}`, well formed, nothing saved |
| Cache.CacheHandler.Load | spotify.py:389-410 | on success the document is the normalised one and the invariant holds; nothing is saved |
| Cache.CacheHandler.GetUser | spotify.py:379-386 | the stored user entry is returned as it is |
| Cache.CacheHandler.GetPodcast | spotify.py:362-376 | a show's metadata is returned exactly when the show is cached, and it is an object |
| Cache.Pruned | spotify.py:431-435 | the stored copy has the keys of `info` minus `available_markets` and `episodes`, with unchanged values |
| Cache.CacheHandler.SetPodcastInfo | spotify.py:423-438 | the podcasts map gains exactly the pruned copy under `id`, the user map is unchanged, and one save happens; a list `info` raises `TypeError` and any other non-object `AttributeError`, before any change |
| Cache.CacheHandler.DeletePodcastInfo | spotify.py:350-359 | only `id` is removed and the user map is kept; an absent id changes nothing and saves nothing |
| Cache.CopyTokenFields | spotify.py:448-455 | the token fields present in `info` are copied; every other user field is kept |
| Cache.MergeUserInfo | spotify.py:441-462 | the merge fails exactly when `expires_in` does not convert; on success the token fields present are copied, `expires_at = now + int(expires_in)` when `expires_in` is given, and every other field is kept |
| Cache.CacheHandler.SetUserInfo | spotify.py:441-462 | the user map becomes the merge and one save happens; on a failing `int` only the token fields are stored and nothing is saved; the podcasts map is untouched |
| Feed.Record | spotify.py:623-633 | guid and title are the episode's id and name, link and url are its Spotify URL, an absent description is empty, the size is -1 and the type `text/html` |
| Feed.GetNewEpisodes | spotify.py:613-637 | the seen ids are all fetched ids in order, and the records are `NewRecords` of the page |
| Feed.FetchNewEpisodes | spotify.py:105-127 | the page is requested with the clamped limit after the token step (user map and saves as `Token` says); a failed or token-less request, or a body without `items`, raises; otherwise the page is split as `GetNewEpisodes` does |
| Feed.NewRecordsExactly | spotify.py:616-635 | a record is new exactly when it is built from a fetched episode whose id is not yet known; there are never more records than episodes |
| Feed.NewGuidsAreNew | spotify.py:623-633 | every new record has an unknown guid, file size -1 and `url == link` |
| Feed.KnownEpisodesYieldNothing | spotify.py:616-637 | when every fetched id is known (as on a repeated call with the seen ids), no record is built |
| Feed.ReadThrough | spotify.py:498-506 | the new document, save count and result are as `ReadThroughEffect` says: a truthy cached entry is read and nothing changes; otherwise `get_token` may rewrite and save the user entry, a failed request raises with only that change, a `None` or non-object result raises in `set_podcast_info`, and an object is stored pruned with one more save and read |
| Feed.GetTitle | spotify.py:581-596 | the read-through of `name`, with the whole effect on the cache as `ReadThroughEffect` says |
| Feed.GetDescription | spotify.py:491-506 | the read-through of `description`, with the whole effect on the cache as `ReadThroughEffect` says |
| Feed.GetImage | spotify.py:541-556 | the read-through of `images[1].url`, with the whole effect on the cache as `ReadThroughEffect` says |
| Feed.PruningKeepsAccessorFields | spotify.py:433-437 | pruning keeps the fields the accessors read, so a later hit returns what the write-through returned |
| Feed.ReadAfterReadHits | spotify.py:498-506 | after a read that succeeded, the next read of the same field is a hit whatever the network would answer, returns the same value and changes nothing |
| Feed.HttpHeader | spotify.py:516-522 | no value for a missing or empty entry or one without `_headers`; a value exactly when an object `_headers` holds the header, and then that value; the only error is `TypeError` |
| Feed.GetHttpEtag | spotify.py:509-522 | a show that is not cached has no ETag; a cached show has one exactly when its truthy entry holds `etag` in an object `_headers`, and it is that value |
| Feed.GetHttpLastModified | spotify.py:525-538 | a show that is not cached has no Last-Modified; a cached show has one exactly when its truthy entry holds `last_modified` in an object `_headers`, and it is that value |
| Feed.HeadersSurviveWriteThrough | spotify.py:91-100 | the validators `do_api_request` stores under `_headers` survive pruning, and the stored copy reports exactly the reply's non-empty headers |
| Feed.ValidatorsAfterFetch | spotify.py:498-540 | after a read that fetched and stored a show, the ETag and Last-Modified lookups report exactly that reply's validators |
| Extension.Decide | spotify.py:713-743 | a missing or different state, or an `error` parameter, rejects the redirect; an exchange happens exactly when the state matches, there is no error and a code is present, and then with that (non-empty) code; a valid redirect without `code` is the unbound-variable case |
| Extension.StoredStateDecides | spotify.py:718-723 | with a state pending, the decision depends on the stored state only, and an exchange needs the query's state to equal it |
| Extension.HandleOAuthRedirect | spotify.py:706-743 | the outcome follows `Decide`; only the user entry of the document can change; without an exchange the credential, the saves and the verifier are unchanged; a successful exchange stores the merge, saves once and clears the session; a failed merge stores the token fields, saves nothing and leaves the memoised verifier and state |

## Left out

- HTTP transport, charset decoding and JSON parsing in `do_api_request`, `get_token` and `request_access_token`. Token-endpoint responses and Web API replies (decoded body and headers) are inputs. The form encoding of the POST bodies and the request URLs are not modelled. Every answer is taken to decode, so a failing `urlopen` (spotify.py:86, 176, 323) cannot be expressed: an `HTTPError` on a non-2xx answer, such as a revoked refresh token answered with 400 `invalid_grant`, or a `URLError`, propagates out of `get_token`, `do_api_request` and `request_access_token` in the source, while the `Ok(None)` path of `Api.Token` covers only a 2xx answer without `access_token`.
- `urlparse` and `parse_qs`: `HandleOAuthRedirect` is given the parsed query, and `WellFormedQuery` states what `parse_qs` with its default `keep_blank_values=False` guarantees (every key has a value, no value is blank).
- Feed.FetchNewEpisodes: the decoded episode items are the typed parameter `page`; the model checks that the response has `items` but does not tie `page` to that value's content, and it returns the split where a malformed item (`KeyError`) or the release-date parse (`IndexError`, `ValueError`) would abort the source's fetch.
- The episode URL path (`'%s/episodes?limit=%d'`): the model keeps the clamped limit but not the decimal formatting.
- Cache file I/O (`open`, `json.dump`, `json.load`, the path). Reading the file becomes the `Option<Json>` given to `Load`. A write is one step of `saves`; a failing write is logged in the source and is not modelled apart from that.
- Cache.Normalise: refuses a document in which `podcasts` or `user` is not an object, or a cached show is not an object. The source keeps such a file: a falsy cached entry is treated as a miss by the read-through accessors and overwritten, and other shapes raise `TypeError` only at the first access that indexes or assigns into them (a non-object `podcasts` leaves `get_token` and `get_new_episodes` working). The model refuses the whole document, including its stored credential. It also refuses any truthy non-object file. For most of these the source raises inside `load`; it accepts a string or list holding both `podcasts` and `user`.
- Json.IntOf: accepts numbers, booleans and plain digit strings only. Python's `int` also accepts signs, surrounding whitespace and underscores in strings; JSON floats are not modelled.
- `secrets.token_urlsafe`, `hashlib.sha256` and `base64.urlsafe_b64encode`. Draws are parameters and the encoder is a function parameter.
- `time.time`: `now` is a parameter. When `get_token` refreshes, `is_token_expired` and `set_user_info` take the same `now`.
- `time.mktime` and release-date parsing (`published`), and `duration_ms / 1000` (`total_time`), which is float division. Episode items are typed records with `id`, `name`, an optional `description` and the Spotify URL; a malformed item raises `KeyError` in the source and aborts the fetch, which is not modelled. Nor are the aborts of the release-date parse for a new episode (spotify.py:620-621): a date with year or month precision only (`"2023"`, `"2023-05"`) raises `IndexError` at `rd[1]` or `rd[2]`, and a non-numeric part raises `ValueError`; `Feed.FetchNewEpisodes` returns the split in those cases.
- `get_link`, `get_next_page`, `get_payment_url`, `get_cover_url` (it returns `get_image`, so it is `GetImage`), `fetch_episodes`, the settings window and redirect interception, menus, registration, `on_podcast_save` and `on_podcast_delete`. These are host glue or UI. `on_podcast_delete` is `ExtractShowId` followed by `DeletePodcastInfo`.
- `episode_factory` and `save`: the model returns the field records themselves.
- Logging throughout.
