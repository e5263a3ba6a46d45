/** `SpotifyFeed`: show-URL parsing, the new-episode split and the cached
    metadata accessors. Episode lists and fetched show metadata, which
    come from the network, are inputs. */
module Feed {
  import opened Json
  import Strings
  import Cache
  import Api

  const ShowPrefix := "https://open.spotify.com/show/"

  /** `extract_show_id`: `None` for a non-string, for a string without the
      show prefix, and when nothing is left once every occurrence of the
      prefix and every `/` is removed; otherwise what is left. */
  function ExtractShowId(url: Json): (r: Option<string>)
    ensures r.Some? ==> r.value != "" && '/' !in r.value
    ensures r.Some? ==> url.JStr? && Strings.StartsWith(url.s, ShowPrefix)
    ensures url.JStr? && Strings.StartsWith(url.s, ShowPrefix) ==>
              (r.None? <==> Stripped(url.s) == "") && (r.Some? ==> r.value == Stripped(url.s))
  {
    if !url.JStr? then None
    else if !Strings.StartsWith(url.s, ShowPrefix) then None
    else
      var id := Stripped(url.s);
      if |id| < 1 then None else Some(id)
  }

  /** The two `replace` calls of `extract_show_id`: no `/` survives and
      nothing is added. */
  function Stripped(url: string): (r: string)
    ensures '/' !in r
    ensures |r| <= |url|
  {
    Strings.RemoveAll(Strings.ReplaceAll(url, ShowPrefix, ""), '/')
  }

  /** A canonical show URL, with or without the trailing slash, yields
      exactly its id. */
  lemma CanonicalShowUrl(id: string, trailingSlash: bool)
    requires id != "" && '/' !in id
    ensures ExtractShowId(JStr(ShowPrefix + id + (if trailingSlash then "/" else ""))) == Some(id)
  {
    var rest := id + (if trailingSlash then "/" else "");
    assert ShowPrefix + id + (if trailingSlash then "/" else "") == ShowPrefix + rest;
    assert Strings.StartsWith(ShowPrefix + rest, ShowPrefix) by {
      assert (ShowPrefix + rest)[..|ShowPrefix|] == ShowPrefix;
    }
    Strings.ReplaceLeading(ShowPrefix, rest, "");
    assert ShowPrefix[6] == '/';
    forall i | 0 <= i < |rest| - 1
      ensures rest[i] != '/'
    {
      assert rest[i] == id[i];
    }
    Strings.ReplaceSparesString(rest, ShowPrefix, "", 6, '/');
    if trailingSlash {
      Strings.RemoveTrailing(id, '/');
    }
    calc {
      Stripped(ShowPrefix + rest);
      Strings.RemoveAll(Strings.ReplaceAll(ShowPrefix + rest, ShowPrefix, ""), '/');
      { assert Strings.ReplaceAll(ShowPrefix + rest, ShowPrefix, "") == rest; }
      Strings.RemoveAll(rest, '/');
      id;
    }
  }

  /** `SpotifyFeed(show_id, max_episodes)`. */
  datatype Feed = Feed(showId: string, maxEpisodes: int)

  /** `handle_url`: a feed for a show URL, nothing for anything else. */
  function HandleUrl(url: Json, maxEpisodes: int): (f: Option<Feed>)
    ensures f.Some? <==> ExtractShowId(url).Some?
    ensures f.Some? ==> f.value.showId == ExtractShowId(url).value && f.value.maxEpisodes == maxEpisodes
  {
    match ExtractShowId(url)
    case Some(id) => Some(Feed(id, maxEpisodes))
    case None => None
  }

  /** The fields of an episode item the adapter reads. `description` may be
      absent; release date and duration are not modelled. */
  datatype Episode = Episode(id: string, name: string, description: Option<string>, spotifyUrl: string)

  /** The field dictionary given to `episode_factory`. */
  datatype EpisodeRecord = EpisodeRecord(
    guid: string, title: string, description: string,
    link: string, url: string, fileSize: int, mimeType: string)

  /** The guid is the episode id, link and url are both the Spotify URL, an
      absent description is empty, and the size is unknown (-1). */
  function Record(e: Episode): (r: EpisodeRecord)
    ensures r.guid == e.id && r.title == e.name
    ensures r.link == e.spotifyUrl && r.url == e.spotifyUrl
    ensures e.description.Some? ==> r.description == e.description.value
    ensures e.description.None? ==> r.description == ""
    ensures r.fileSize == -1 && r.mimeType == "text/html"
  {
    EpisodeRecord(
      guid := e.id, title := e.name,
      description := match e.description case Some(d) => d case None => "",
      link := e.spotifyUrl, url := e.spotifyUrl, fileSize := -1, mimeType := "text/html")
  }

  /** The ids of the episodes, in order. */
  function Ids(eps: seq<Episode>): (ids: seq<string>)
    ensures |ids| == |eps|
    ensures forall i :: 0 <= i < |eps| ==> ids[i] == eps[i].id
  {
    if eps == [] then [] else [eps[0].id] + Ids(eps[1..])
  }

  /** The records of the episodes whose id is not in `existing`, in order. */
  function NewRecords(eps: seq<Episode>, existing: seq<string>): seq<EpisodeRecord>
  {
    if eps == [] then []
    else (if eps[0].id in existing then [] else [Record(eps[0])]) + NewRecords(eps[1..], existing)
  }

  /** Every new record comes from an episode that is not yet known, and
      every episode that is not yet known has its record. */
  lemma {:induction false} NewRecordsExactly(eps: seq<Episode>, existing: seq<string>)
    ensures |NewRecords(eps, existing)| <= |eps|
    ensures forall r :: r in NewRecords(eps, existing) <==>
              exists i :: 0 <= i < |eps| && eps[i].id !in existing && r == Record(eps[i])
  {
    if eps != [] {
      NewRecordsExactly(eps[1..], existing);
      forall r | r in NewRecords(eps, existing)
        ensures exists i :: 0 <= i < |eps| && eps[i].id !in existing && r == Record(eps[i])
      {
        if eps[0].id !in existing && r == Record(eps[0]) {
          assert 0 < |eps| && eps[0].id !in existing && r == Record(eps[0]);
        } else {
          assert r in NewRecords(eps[1..], existing);
          var j :| 0 <= j < |eps[1..]| && eps[1..][j].id !in existing && r == Record(eps[1..][j]);
          assert eps[j + 1] == eps[1..][j];
        }
      }
      forall r | exists i :: 0 <= i < |eps| && eps[i].id !in existing && r == Record(eps[i])
        ensures r in NewRecords(eps, existing)
      {
        var i :| 0 <= i < |eps| && eps[i].id !in existing && r == Record(eps[i]);
        if i > 0 {
          assert eps[1..][i - 1] == eps[i];
        }
      }
    }
  }

  /** Every new record's guid is unknown to the host. */
  lemma {:induction false} NewGuidsAreNew(eps: seq<Episode>, existing: seq<string>)
    ensures forall r :: r in NewRecords(eps, existing) ==> r.guid !in existing && r.fileSize == -1 && r.url == r.link
  {
    if eps != [] {
      NewGuidsAreNew(eps[1..], existing);
    }
  }

  /** When every fetched id is already known, nothing is new: a second call
      with the ids the first one reported as seen yields no records. */
  lemma {:induction false} KnownEpisodesYieldNothing(eps: seq<Episode>, existing: seq<string>)
    requires forall id :: id in Ids(eps) ==> id in existing
    ensures NewRecords(eps, existing) == []
  {
    if eps != [] {
      assert eps[0].id == Ids(eps)[0];
      forall id | id in Ids(eps[1..]) ensures id in existing {
        var k :| 0 <= k < |eps[1..]| && Ids(eps[1..])[k] == id;
        assert Ids(eps)[k + 1] == eps[k + 1].id == id;
      }
      KnownEpisodesYieldNothing(eps[1..], existing);
    }
  }

  lemma NewRecordsAppend(eps: seq<Episode>, e: Episode, existing: seq<string>)
    ensures NewRecords(eps + [e], existing) == NewRecords(eps, existing) + NewRecords([e], existing)
  {
    if eps != [] {
      assert (eps + [e])[1..] == eps[1..] + [e];
      NewRecordsAppend(eps[1..], e, existing);
    }
  }

  /** `get_new_episodes` over the items `get_show_episodes` returned. */
  method GetNewEpisodes(episodes: seq<Episode>, existing: seq<string>)
      returns (newRecords: seq<EpisodeRecord>, seen: seq<string>)
    ensures seen == Ids(episodes)
    ensures newRecords == NewRecords(episodes, existing)
  {
    newRecords, seen := [], [];
    var i := 0;
    while i < |episodes|
      invariant 0 <= i <= |episodes|
      invariant seen == Ids(episodes[..i])
      invariant newRecords == NewRecords(episodes[..i], existing)
    {
      var e := episodes[i];
      assert episodes[..i + 1] == episodes[..i] + [e];
      seen := seen + [e.id];
      NewRecordsAppend(episodes[..i], e, existing);
      if e.id !in existing {
        newRecords := newRecords + [Record(e)];
      }
      i := i + 1;
    }
    assert episodes[..i] == episodes;
  }


  /** What `get_new_episodes` returns: the new records and every id seen. */
  datatype NewEpisodes = NewEpisodes(records: seq<EpisodeRecord>, seen: seq<string>)

  /** `get_new_episodes` with the `get_show_episodes` call it starts with:
      `do_api_request` asks for `RequestLimit(maxEpisodes)` items, `None`
      cannot be subscripted, a body without `items` raises, and otherwise
      `page` (the decoded `items`) is split as above. */
  method FetchNewEpisodes(cache: Cache.CacheHandler, feed: Feed, remote: Api.Remote,
                          page: seq<Episode>, existing: seq<string>)
      returns (limit: int, r: Result<NewEpisodes>)
    requires cache.Valid()
    modifies cache
    ensures cache.Valid()
    ensures 1 <= limit <= Api.LimitMax && limit == Api.RequestLimit(feed.maxEpisodes)
    ensures var s := Api.Token(old(cache.GetUser()), remote.now, remote.tokenReply);
            && cache.GetUser() == s.user
            && cache.saves == old(cache.saves) + (if s.saved then 1 else 0)
            && match Api.ApiResponse(s.result, remote.reply)
               case Err(e) => r == Err(e)
               case Ok(response) =>
                 match Index(response, "items")
                 case Err(e) => r == Err(e)
                 case Ok(_) => r == Ok(NewEpisodes(NewRecords(page, existing), Ids(page)))
    ensures cache.cacheInfo == old(cache.cacheInfo)[Cache.UserKey := JObj(cache.GetUser())]
  {
    limit := Api.RequestLimit(feed.maxEpisodes);
    var response, _ := Api.DoApiRequest(cache, remote);
    if response.Err? {
      return limit, Err(response.error);
    }
    var items := Index(response.value, "items");
    if items.Err? {
      return limit, Err(items.error);
    }
    var newRecords, seen := GetNewEpisodes(page, existing);
    r := Ok(NewEpisodes(newRecords, seen));
  }

  /** The metadata fields the accessors return. */
  function TitleOf(info: Json): Result<Json> { Index(info, "name") }

  function DescriptionOf(info: Json): Result<Json> { Index(info, "description") }

  /** `info['images'][1]['url']`. */
  function ImageOf(info: Json): Result<Json> {
    match Index(info, "images")
    case Err(e) => Err(e)
    case Ok(images) =>
      match At(images, 1)
      case Err(e) => Err(e)
      case Ok(image) => Index(image, "url")
  }

  /** The three read-through accessors. */
  datatype Accessor = Title | Description | Image

  function Read(a: Accessor, info: Json): Result<Json> {
    match a
    case Title => TitleOf(info)
    case Description => DescriptionOf(info)
    case Image => ImageOf(info)
  }

  /** The accessors read fields that pruning keeps, so the value returned
      from a fresh fetch is the one a later cache hit returns. */
  lemma PruningKeepsAccessorFields(info: map<string, Json>)
    ensures TitleOf(JObj(Cache.Pruned(info))) == TitleOf(JObj(info))
    ensures DescriptionOf(JObj(Cache.Pruned(info))) == DescriptionOf(JObj(info))
    ensures ImageOf(JObj(Cache.Pruned(info))) == ImageOf(JObj(info))
  {
  }

  /** `if info:` on what `get_podcast` returned. */
  predicate Hit(info: Option<Json>) {
    info.Some? && Truthy(info.value)
  }

  /** The read-through of `get_title`, `get_description` and `get_image` on
      the cache document `d0` after `s0` saves, leaving `d1` after `s1`
      saves. A truthy cached entry is read and nothing changes. Otherwise
      `get_show_info` runs `do_api_request` (whose `get_token` may rewrite
      and save the user entry), `set_podcast_info` stores its result, which
      raises unless it is an object, and the accessor reads the fetched
      metadata. `requested` tells whether the request path was taken. */
  ghost predicate ReadThroughEffect(d0: Cache.Doc, s0: nat, d1: Cache.Doc, s1: nat, showId: string,
                                    remote: Api.Remote, a: Accessor, r: Result<Json>, requested: bool)
    requires Cache.WellFormed(d0)
  {
    var podcasts := Cache.PodcastsOf(d0);
    if showId in podcasts && Truthy(podcasts[showId]) then
      !requested && r == Read(a, podcasts[showId]) && d1 == d0 && s1 == s0
    else
      var s := Api.Token(Cache.UserOf(d0), remote.now, remote.tokenReply);
      var afterToken := d0[Cache.UserKey := JObj(s.user)];
      var savesAfterToken := s0 + (if s.saved then 1 else 0);
      && requested
      && match Api.ApiResponse(s.result, remote.reply)
         case Err(e) => r == Err(e) && d1 == afterToken && s1 == savesAfterToken
         case Ok(info) =>
           if info.JObj? then
             && r == Read(a, info)
             && d1 == afterToken[Cache.PodcastsKey := JObj(podcasts[showId := JObj(Cache.Pruned(info.fields))])]
             && s1 == savesAfterToken + 1
           else
             && r == Err(if info.JArr? then TypeError else AttributeError)
             && d1 == afterToken && s1 == savesAfterToken
  }

  method ReadThrough(cache: Cache.CacheHandler, showId: string, remote: Api.Remote, a: Accessor)
      returns (r: Result<Json>, requested: bool)
    requires cache.Valid()
    modifies cache
    ensures cache.Valid()
    ensures requested <==> !Hit(old(cache.GetPodcast(showId)))
    ensures ReadThroughEffect(old(cache.cacheInfo), old(cache.saves), cache.cacheInfo, cache.saves,
                              showId, remote, a, r, requested)
  {
    var info := cache.GetPodcast(showId);
    if Hit(info) {
      return Read(a, info.value), false;
    }
    requested := true;
    var fetched, _ := Api.DoApiRequest(cache, remote);
    if fetched.Err? {
      return Err(fetched.error), requested;
    }
    var stored := cache.SetPodcastInfo(showId, fetched.value);
    if stored.Err? {
      return Err(stored.error), requested;
    }
    r := Read(a, fetched.value);
  }

  method GetTitle(cache: Cache.CacheHandler, feed: Feed, remote: Api.Remote) returns (r: Result<Json>, requested: bool)
    requires cache.Valid()
    modifies cache
    ensures cache.Valid()
    ensures requested <==> !Hit(old(cache.GetPodcast(feed.showId)))
    ensures ReadThroughEffect(old(cache.cacheInfo), old(cache.saves), cache.cacheInfo, cache.saves,
                              feed.showId, remote, Title, r, requested)
  {
    r, requested := ReadThrough(cache, feed.showId, remote, Title);
  }

  method GetDescription(cache: Cache.CacheHandler, feed: Feed, remote: Api.Remote) returns (r: Result<Json>, requested: bool)
    requires cache.Valid()
    modifies cache
    ensures cache.Valid()
    ensures requested <==> !Hit(old(cache.GetPodcast(feed.showId)))
    ensures ReadThroughEffect(old(cache.cacheInfo), old(cache.saves), cache.cacheInfo, cache.saves,
                              feed.showId, remote, Description, r, requested)
  {
    r, requested := ReadThrough(cache, feed.showId, remote, Description);
  }

  /** `get_image`, which `get_cover_url` also returns. */
  method GetImage(cache: Cache.CacheHandler, feed: Feed, remote: Api.Remote) returns (r: Result<Json>, requested: bool)
    requires cache.Valid()
    modifies cache
    ensures cache.Valid()
    ensures requested <==> !Hit(old(cache.GetPodcast(feed.showId)))
    ensures ReadThroughEffect(old(cache.cacheInfo), old(cache.saves), cache.cacheInfo, cache.saves,
                              feed.showId, remote, Image, r, requested)
  {
    r, requested := ReadThrough(cache, feed.showId, remote, Image);
  }

  /** A read that succeeded leaves the show cached: the next read of the
      same field, whatever the network would answer, is a hit that returns
      the same value and changes nothing. */
  lemma ReadAfterReadHits(d0: Cache.Doc, s0: nat, d1: Cache.Doc, s1: nat, d2: Cache.Doc, s2: nat,
                          showId: string, remote: Api.Remote, later: Api.Remote, a: Accessor,
                          r: Result<Json>, requested: bool, r2: Result<Json>, requested2: bool)
    requires Cache.WellFormed(d0) && Cache.WellFormed(d1)
    requires ReadThroughEffect(d0, s0, d1, s1, showId, remote, a, r, requested) && r.Ok?
    requires ReadThroughEffect(d1, s1, d2, s2, showId, later, a, r2, requested2)
    ensures !requested2 && r2 == r && d2 == d1 && s2 == s1
  {
  }

  /** The lookup behind `get_http_etag` (`name == "etag"`) and
      `get_http_last_modified` (`name == "last_modified"`) on what
      `get_podcast` returned. */
  function HttpHeader(info: Option<Json>, name: string): (r: Result<Option<Json>>)
    requires info.Some? ==> info.value.JObj?
    ensures !Hit(info) ==> r == Ok(None)
    ensures Hit(info) && "_headers" !in info.value.fields ==> r == Ok(None)
    ensures r.Ok? && r.value.Some? <==> Hit(info) && HasValidator(info.value, name)
    ensures r.Ok? && r.value.Some? ==> r.value.value == info.value.fields["_headers"].fields[name]
    ensures r.Err? ==> r.error == TypeError
  {
    if !Hit(info) || "_headers" !in info.value.fields then Ok(None)
    else
      var headers := info.value.fields["_headers"];
      match Has(headers, name)
      case Err(e) => Err(e)
      case Ok(present) =>
        if !present then Ok(None)
        else
          match Index(headers, name)
          case Ok(v) => Ok(Some(v))
          case Err(e) => Err(e)
  }

  /** The cached metadata carries an object `_headers` holding `name`. */
  predicate HasValidator(info: Json, name: string) {
    && info.JObj? && "_headers" in info.fields
    && info.fields["_headers"].JObj? && name in info.fields["_headers"].fields
  }

  /** `get_http_etag`: only a cached show can report a validator, and it
      reports exactly the one stored with it. */
  function GetHttpEtag(cache: Cache.CacheHandler, feed: Feed): (r: Result<Option<Json>>)
    reads cache
    requires cache.Valid()
    ensures feed.showId !in cache.Podcasts() ==> r == Ok(None)
    ensures r.Ok? && r.value.Some? <==>
              feed.showId in cache.Podcasts() && Truthy(cache.Podcasts()[feed.showId])
              && HasValidator(cache.Podcasts()[feed.showId], "etag")
    ensures r.Ok? && r.value.Some? ==> r.value.value == cache.Podcasts()[feed.showId].fields["_headers"].fields["etag"]
  {
    HttpHeader(cache.GetPodcast(feed.showId), "etag")
  }

  /** `get_http_last_modified`: only a cached show can report a validator,
      and it reports exactly the one stored with it. */
  function GetHttpLastModified(cache: Cache.CacheHandler, feed: Feed): (r: Result<Option<Json>>)
    reads cache
    requires cache.Valid()
    ensures feed.showId !in cache.Podcasts() ==> r == Ok(None)
    ensures r.Ok? && r.value.Some? <==>
              feed.showId in cache.Podcasts() && Truthy(cache.Podcasts()[feed.showId])
              && HasValidator(cache.Podcasts()[feed.showId], "last_modified")
    ensures r.Ok? && r.value.Some? ==>
              r.value.value == cache.Podcasts()[feed.showId].fields["_headers"].fields["last_modified"]
  {
    HttpHeader(cache.GetPodcast(feed.showId), "last_modified")
  }

  /** The validators `do_api_request` stored under `_headers` survive the
      pruning of `set_podcast_info`: the stored copy reports exactly the
      validators the reply carried. */
  lemma HeadersSurviveWriteThrough(reply: Api.Reply)
    requires reply.body.JObj?
    ensures var stored := Some(JObj(Cache.Pruned(Api.WithValidators(reply).value.fields)));
            && HttpHeader(stored, "etag") == Ok(if Api.Present(reply.etag) then Some(JStr(reply.etag.value)) else None)
            && HttpHeader(stored, "last_modified")
               == Ok(if Api.Present(reply.lastModified) then Some(JStr(reply.lastModified.value)) else None)
  {
  }

  /** After a read that fetched and stored the show, the validator getters
      report the validators of that reply. */
  lemma ValidatorsAfterFetch(d0: Cache.Doc, s0: nat, d1: Cache.Doc, s1: nat, showId: string,
                             remote: Api.Remote, a: Accessor, r: Result<Json>)
    requires Cache.WellFormed(d0) && Cache.WellFormed(d1)
    requires ReadThroughEffect(d0, s0, d1, s1, showId, remote, a, r, true) && r.Ok?
    ensures var stored := Some(Cache.PodcastsOf(d1)[showId]);
            && HttpHeader(stored, "etag") == Ok(if Api.Present(remote.reply.etag) then Some(JStr(remote.reply.etag.value)) else None)
            && HttpHeader(stored, "last_modified")
               == Ok(if Api.Present(remote.reply.lastModified) then Some(JStr(remote.reply.lastModified.value)) else None)
  {
  }
}
