/** The cache document of `SpotifyCacheHandler`: one JSON object holding a
    `podcasts` map (show id to the show's metadata) and a `user` map (the
    stored credential). Every mutating operation writes the whole document
    back to disk; the write is modelled by the ghost counter `saves`. */
module Cache {
  import opened Json

  const PodcastsKey := "podcasts"
  const UserKey := "user"

  /** The keys `set_podcast_info` strips before storing show metadata. */
  const DroppedKeys: set<string> := {"available_markets", "episodes"}

  /** The credential fields `set_user_info` copies verbatim. */
  const TokenFields: set<string> := {"access_token", "refresh_token", "scope"}

  type Doc = map<string, Json>

  /** The handler's invariant. It strengthens what `load` establishes (both
      keys exist) by also requiring `podcasts` and `user` to be objects and
      every cached show to be an object (what `set_podcast_info` stores). */
  predicate WellFormed(doc: Doc) {
    && PodcastsKey in doc && doc[PodcastsKey].JObj?
    && UserKey in doc && doc[UserKey].JObj?
    && forall id :: id in doc[PodcastsKey].fields ==> doc[PodcastsKey].fields[id].JObj?
  }

  /** The object a document is built from after `load` replaced a missing,
      unreadable or falsy file by `{}`. */
  function Loaded(file: Option<Json>): Json {
    if file.Some? && Truthy(file.value) then file.value else JObj(map[])
  }

  /** The normalisation at the end of `load`: `None` (no file, or a file
      that did not parse) and any falsy value become `{}`, then an absent
      `podcasts` or `user` key is added as `{}`. A document that is still
      not well formed is refused. */
  function Normalise(file: Option<Json>): (r: Option<Doc>)
    ensures r.Some? ==> WellFormed(r.value)
    ensures (file.None? || !Truthy(file.value)) ==> r == Some(map[PodcastsKey := JObj(map[]), UserKey := JObj(map[])])
    ensures r.Some? ==> Loaded(file).JObj? && Loaded(file).fields.Keys <= r.value.Keys
    ensures r.Some? ==> r.value.Keys == Loaded(file).fields.Keys + {PodcastsKey, UserKey}
    ensures r.Some? ==> forall k :: k in Loaded(file).fields ==> r.value[k] == Loaded(file).fields[k]
    ensures Loaded(file).JObj? ==>
              (r.Some? <==> WellFormed(Loaded(file).fields + DefaultEntries(Loaded(file).fields)))
  {
    var base := Loaded(file);
    if !base.JObj? then None
    else
      var d := base.fields;
      var d1 := if PodcastsKey in d then d else d[PodcastsKey := JObj(map[])];
      var d2 := if UserKey in d1 then d1 else d1[UserKey := JObj(map[])];
      assert d2 == d + DefaultEntries(d);
      if WellFormed(d2) then Some(d2) else None
  }

  /** The shows of a well-formed document. */
  function PodcastsOf(doc: Doc): map<string, Json>
    requires WellFormed(doc)
  {
    doc[PodcastsKey].fields
  }

  /** The credential of a well-formed document. */
  function UserOf(doc: Doc): map<string, Json>
    requires WellFormed(doc)
  {
    doc[UserKey].fields
  }

  /** The entries `load` adds for keys that are missing. */
  function DefaultEntries(d: Doc): Doc {
    (if PodcastsKey in d then map[] else map[PodcastsKey := JObj(map[])])
    + (if UserKey in d then map[] else map[UserKey := JObj(map[])])
  }

  /** The copy `set_podcast_info` stores: `info` without the dropped keys,
      everything else as it was. */
  function Pruned(info: map<string, Json>): (r: map<string, Json>)
    ensures r.Keys == info.Keys - DroppedKeys
    ensures forall k :: k in r ==> r[k] == info[k]
  {
    info - DroppedKeys
  }

  /** The first three statements of `set_user_info`. */
  function CopyTokenFields(user: map<string, Json>, info: map<string, Json>): (r: map<string, Json>)
    ensures r.Keys == user.Keys + (info.Keys * TokenFields)
    ensures forall k :: k in TokenFields && k in info ==> r[k] == info[k]
    ensures forall k :: k in user && !(k in TokenFields && k in info) ==> r[k] == user[k]
  {
    var u1 := if "access_token" in info then user["access_token" := info["access_token"]] else user;
    var u2 := if "refresh_token" in info then u1["refresh_token" := info["refresh_token"]] else u1;
    if "scope" in info then u2["scope" := info["scope"]] else u2
  }

  /** A user field that `set_user_info` with `info` leaves as it is. */
  predicate Untouched(user: map<string, Json>, info: map<string, Json>, k: string) {
    k in user && !(k in TokenFields && k in info) && !(k == "expires_at" && "expires_in" in info)
  }

  /** The whole of `set_user_info` on the user map: the token fields are
      copied and `expires_in` becomes `expires_at = now + int(expires_in)`.
      The merge fails, as `int` raises, when `expires_in` does not convert. */
  function MergeUserInfo(user: map<string, Json>, info: map<string, Json>, now: int): (r: Result<map<string, Json>>)
    ensures r.Err? <==> "expires_in" in info && IntOf(info["expires_in"]).Err?
    ensures r.Ok? ==> r.value.Keys == user.Keys + (info.Keys * TokenFields)
                                      + (if "expires_in" in info then {"expires_at"} else {})
    ensures r.Ok? ==> forall k :: k in TokenFields && k in info ==> r.value[k] == info[k]
    ensures r.Ok? && "expires_in" in info ==> r.value["expires_at"] == JNum(now + IntOf(info["expires_in"]).value)
    ensures r.Ok? ==> forall k :: Untouched(user, info, k) ==> r.value[k] == user[k]
  {
    var u := CopyTokenFields(user, info);
    if "expires_in" !in info then Ok(u)
    else
      match IntOf(info["expires_in"])
      case Ok(n) => Ok(u["expires_at" := JNum(now + n)])
      case Err(e) => Err(e)
  }

  /** The cache handler. `cacheInfo` is the in-memory document; `saves`
      counts the writes of the document to the cache file. */
  class CacheHandler {
    var cacheInfo: Doc
    ghost var saves: nat

    ghost predicate Valid()
      reads this
    {
      WellFormed(cacheInfo)
    }

    /** The handler right after `load` fell back to an empty document. */
    constructor ()
      ensures Valid() && saves == 0
      ensures cacheInfo == map[PodcastsKey := JObj(map[]), UserKey := JObj(map[])]
    {
      cacheInfo := map[PodcastsKey := JObj(map[]), UserKey := JObj(map[])];
      saves := 0;
    }

    function Podcasts(): map<string, Json>
      reads this
      requires Valid()
    {
      PodcastsOf(cacheInfo)
    }

    /** `get_user`: the stored credential map as it is, neither copied with
        changes nor defaulted. */
    function GetUser(): (r: map<string, Json>)
      reads this
      requires Valid()
      ensures cacheInfo[UserKey := JObj(r)] == cacheInfo
    {
      UserOf(cacheInfo)
    }

    /** `get_podcast`: the cached metadata of a show, if any. */
    function GetPodcast(showId: string): (r: Option<Json>)
      reads this
      requires Valid()
      ensures r.Some? <==> showId in Podcasts()
      ensures r.Some? ==> r.value == Podcasts()[showId] && r.value.JObj?
    {
      if showId in Podcasts() then Some(Podcasts()[showId]) else None
    }

    /** `load`, given what reading the cache file produced (`None` when there
        is no file or it did not parse). A refused document leaves the
        handler as it was. */
    method Load(file: Option<Json>) returns (ok: bool)
      modifies this
      ensures ok <==> Normalise(file).Some?
      ensures ok ==> Valid() && cacheInfo == Normalise(file).value
      ensures !ok ==> cacheInfo == old(cacheInfo)
      ensures saves == old(saves)
    {
      var doc := Normalise(file);
      ok := doc.Some?;
      if ok {
        cacheInfo := doc.value;
      }
    }

    /** `set_user_info`. When `int(expires_in)` raises, the token fields are
        already stored and nothing is saved. */
    method SetUserInfo(info: map<string, Json>, now: int) returns (r: Result<()>)
      requires Valid()
      modifies this
      ensures Valid() && Podcasts() == old(Podcasts())
      ensures r.Ok? <==> MergeUserInfo(old(GetUser()), info, now).Ok?
      ensures r.Ok? ==> GetUser() == MergeUserInfo(old(GetUser()), info, now).value && saves == old(saves) + 1
      ensures r.Err? ==> r.error == MergeUserInfo(old(GetUser()), info, now).error
      ensures r.Err? ==> GetUser() == CopyTokenFields(old(GetUser()), info) && saves == old(saves)
      ensures cacheInfo == old(cacheInfo)[UserKey := JObj(GetUser())]
    {
      var merged := MergeUserInfo(GetUser(), info, now);
      if merged.Ok? {
        cacheInfo := cacheInfo[UserKey := JObj(merged.value)];
        saves := saves + 1;
        r := Ok(());
      } else {
        cacheInfo := cacheInfo[UserKey := JObj(CopyTokenFields(GetUser(), info))];
        r := Err(merged.error);
      }
    }

    /** `set_podcast_info`: stores a pruned copy of `info` under `showId`
        and saves. `info` is a value, so the caller's copy is untouched.
        A non-object `info` raises on `pop` before anything changes: a list's
        `pop` takes no default (`TypeError`), and `None` from a failed fetch
        or a scalar has no `pop` at all (`AttributeError`). */
    method SetPodcastInfo(showId: string, info: Json) returns (r: Result<()>)
      requires Valid()
      modifies this
      ensures Valid() && GetUser() == old(GetUser())
      ensures r.Ok? <==> info.JObj?
      ensures r.Err? ==> r.error == (if info.JArr? then TypeError else AttributeError)
                         && cacheInfo == old(cacheInfo) && saves == old(saves)
      ensures r.Ok? ==> GetPodcast(showId) == Some(JObj(Pruned(info.fields))) && saves == old(saves) + 1
      ensures r.Ok? ==> forall id :: id != showId ==> GetPodcast(id) == old(GetPodcast(id))
      ensures r.Ok? ==> Podcasts().Keys == old(Podcasts()).Keys + {showId}
      ensures r.Ok? ==> Podcasts() == old(Podcasts())[showId := JObj(Pruned(info.fields))]
      ensures r.Ok? ==> cacheInfo == old(cacheInfo)[PodcastsKey := JObj(Podcasts())]
    {
      if info.JArr? {
        return Err(TypeError);
      }
      if !info.JObj? {
        return Err(AttributeError);
      }
      var podcasts := Podcasts()[showId := JObj(Pruned(info.fields))];
      cacheInfo := cacheInfo[PodcastsKey := JObj(podcasts)];
      saves := saves + 1;
      r := Ok(());
    }

    /** `delete_podcast_info`: removes `showId` and saves; an absent id is a
        no-op without a save. */
    method DeletePodcastInfo(showId: string)
      requires Valid()
      modifies this
      ensures Valid() && GetUser() == old(GetUser())
      ensures GetPodcast(showId) == None
      ensures Podcasts() == old(Podcasts()) - {showId}
      ensures showId in old(Podcasts()) ==> saves == old(saves) + 1
      ensures showId !in old(Podcasts()) ==> cacheInfo == old(cacheInfo) && saves == old(saves)
      ensures cacheInfo == old(cacheInfo)[PodcastsKey := JObj(Podcasts())]
    {
      if showId in Podcasts() {
        cacheInfo := cacheInfo[PodcastsKey := JObj(Podcasts() - {showId})];
        saves := saves + 1;
      }
    }
  }
}
