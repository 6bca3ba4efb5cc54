/**
 * The remote identity resolver: podcast and episode titles for a pair of
 * guids, looked up through the Podcastindex "value by episode guid" API and
 * memoised in a cache keyed by `podcast_guid + "_" + episode_guid`.
 *
 * The cache is a plain map: the LRU crate's capacity and eviction order are
 * not part of this model.
 */
module RemoteGuid {
  import opened Wrappers
  import opened Json

  datatype PodcastEpisodeGuid = PodcastEpisodeGuid(podcastGuid: string, episodeGuid: string, podcast: string, episode: string)

  type CacheEntries = map<string, Option<PodcastEpisodeGuid>>

  /** The API call as the resolver sees it: a lookup that succeeds (found or not) or fails. */
  type EpisodeApi = (string, string) -> Result<Option<PodcastEpisodeGuid>, string>

  function CacheKey(podcastGuid: string, episodeGuid: string): (key: string)
    ensures |key| == |podcastGuid| + 1 + |episodeGuid|
    ensures key[..|podcastGuid|] == podcastGuid && key[|podcastGuid|] == '_'
    ensures key[|podcastGuid| + 1..] == episodeGuid
  {
    podcastGuid + "_" + episodeGuid
  }

  /** The key is plain concatenation, so two different guid pairs can share one key. */
  lemma CacheKeyCollides()
    ensures ("a_b", "c") != ("a", "b_c") && CacheKey("a_b", "c") == CacheKey("a", "b_c")
  {
    assert CacheKey("a_b", "c") == "a_b_c" == CacheKey("a", "b_c");
  }

  /** `x.as_str().unwrap_or_default()`. */
  function StrOrEmpty(j: Json): string {
    AsStr(j).GetOr("")
  }

  /** The outcome of the response check as written: a value, or a panic. */
  datatype Shape = Checked(found: Option<PodcastEpisodeGuid>) | MissingKeyPanic

  /**
   * The response check as written. `query` and `value` are taken as maps, and
   * indexing a serde_json map with a key it lacks panics, so a response with
   * status "true" whose `query` or `value` object misses one of the four keys
   * stops the resolver instead of yielding a result.
   */
  function CheckEpisodeResponseAsWritten(j: Json): (r: Shape)
  {
    if StrOrEmpty(Field(j, "status")) != "true" then Checked(None)
    else
      match (AsObject(Field(j, "query")), AsObject(Field(j, "value")))
      case (Some(q), Some(v)) =>
        if "podcastguid" in q && "episodeguid" in q && "feedTitle" in v && "title" in v then
          Checked(Some(PodcastEpisodeGuid(
            StrOrEmpty(q["podcastguid"]), StrOrEmpty(q["episodeguid"]),
            StrOrEmpty(v["feedTitle"]), StrOrEmpty(v["title"]))))
        else MissingKeyPanic
      case _ => Checked(None)
  }

  /**
   * The response check as evidently intended: a missing key reads as the
   * empty string, like a present key whose value is not a string.
   */
  function EpisodeFromResponse(j: Json): (r: Option<PodcastEpisodeGuid>)
  {
    if StrOrEmpty(Field(j, "status")) != "true" then None
    else
      match (AsObject(Field(j, "query")), AsObject(Field(j, "value")))
      case (Some(_), Some(_)) =>
        var q, v := Field(j, "query"), Field(j, "value");
        Some(PodcastEpisodeGuid(
          StrOrEmpty(Field(q, "podcastguid")), StrOrEmpty(Field(q, "episodeguid")),
          StrOrEmpty(Field(v, "feedTitle")), StrOrEmpty(Field(v, "title"))))
      case _ => None
  }

  /** A result is found exactly when status is the string "true" and `query` and `value` are objects. */
  lemma EpisodeFromResponseFound(j: Json)
    ensures EpisodeFromResponse(j).Some? <==>
      Field(j, "status") == Str("true") && Field(j, "query").Obj? && Field(j, "value").Obj?
    ensures EpisodeFromResponse(j).Some? ==>
      var g := EpisodeFromResponse(j).value;
      g.podcast == StrOrEmpty(Field(Field(j, "value"), "feedTitle")) &&
      g.episode == StrOrEmpty(Field(Field(j, "value"), "title")) &&
      g.podcastGuid == StrOrEmpty(Field(Field(j, "query"), "podcastguid")) &&
      g.episodeGuid == StrOrEmpty(Field(Field(j, "query"), "episodeguid"))
  {
  }

  /** Where the check as written does not panic, it agrees with the intended one. */
  lemma AsWrittenAgreesWhenNoPanic(j: Json)
    requires CheckEpisodeResponseAsWritten(j).Checked?
    ensures CheckEpisodeResponseAsWritten(j).found == EpisodeFromResponse(j)
  {
  }

  /** The response that exhibits the panic: status "true" with empty `query` and `value` objects. */
  lemma MissingKeyPanics()
    ensures var j := Obj(map["status" := Str("true"), "query" := Obj(map[]), "value" := Obj(map[])]);
      CheckEpisodeResponseAsWritten(j) == MissingKeyPanic &&
      EpisodeFromResponse(j) == Some(PodcastEpisodeGuid("", "", "", ""))
  {
    var j := Obj(map["status" := Str("true"), "query" := Obj(map[]), "value" := Obj(map[])]);
    assert Field(j, "status") == Str("true");
    assert Field(j, "query") == Obj(map[]) && Field(j, "value") == Obj(map[]);
  }

  /**
   * `fetch_api_podcast_episode_by_guid`: the HTTP request (`httpGet`, given
   * both guids as query parameters) and the JSON text parser are oracles; a
   * failure of either is an `Err`.
   */
  function FetchApiPodcastEpisodeByGuid(
    httpGet: (string, string) -> Result<string, string>,
    parseJson: string -> Option<Json>,
    podcastGuid: string, episodeGuid: string): (r: Result<Option<PodcastEpisodeGuid>, string>)
    ensures httpGet(podcastGuid, episodeGuid).Err? ==> r == Err(httpGet(podcastGuid, episodeGuid).error)
    ensures httpGet(podcastGuid, episodeGuid).Ok? && parseJson(httpGet(podcastGuid, episodeGuid).value).None? ==> r.Err?
    ensures r.Ok? ==> r.value == EpisodeFromResponse(parseJson(httpGet(podcastGuid, episodeGuid).value).value)
    ensures httpGet(podcastGuid, episodeGuid).Ok? && parseJson(httpGet(podcastGuid, episodeGuid).value).Some? ==>
              r == Ok(EpisodeFromResponse(parseJson(httpGet(podcastGuid, episodeGuid).value).value))
  {
    match httpGet(podcastGuid, episodeGuid)
    case Err(e) => Err(e)
    case Ok(text) =>
      match parseJson(text)
      case None => Err("response is not JSON")
      case Some(j) => Ok(EpisodeFromResponse(j))
  }

  /** One memoised lookup: the result and the cache afterwards. */
  function Resolve(entries: CacheEntries, podcastGuid: string, episodeGuid: string, api: EpisodeApi)
    : (Option<PodcastEpisodeGuid>, CacheEntries)
  {
    var key := CacheKey(podcastGuid, episodeGuid);
    if key in entries then (entries[key], entries)
    else
      match api(podcastGuid, episodeGuid)
      case Ok(found) => (found, entries[key := found])
      case Err(_) => (None, entries)
  }

  /** Whether a lookup would call the API: only on a key the cache does not hold. */
  predicate Fetches(entries: CacheEntries, podcastGuid: string, episodeGuid: string) {
    CacheKey(podcastGuid, episodeGuid) !in entries
  }

  /** A cached key answers from the cache and leaves it as it was. */
  lemma ResolveHit(entries: CacheEntries, p: string, e: string, api: EpisodeApi)
    requires CacheKey(p, e) in entries
    ensures Resolve(entries, p, e, api) == (entries[CacheKey(p, e)], entries)
  {
  }

  /** On a miss, both "found" and "not found" are cached; an error is not. */
  lemma ResolveMiss(entries: CacheEntries, p: string, e: string, api: EpisodeApi)
    requires Fetches(entries, p, e)
    ensures api(p, e).Ok? ==> Resolve(entries, p, e, api) == (api(p, e).value, entries[CacheKey(p, e) := api(p, e).value])
    ensures api(p, e).Err? ==> Resolve(entries, p, e, api) == (None, entries)
  {
  }

  /** A second lookup of the same pair after an answered first one calls no API and agrees with it. */
  lemma ResolveTwice(entries: CacheEntries, p: string, e: string, api1: EpisodeApi, api2: EpisodeApi)
    requires !Fetches(entries, p, e) || api1(p, e).Ok?
    ensures var (r1, entries1) := Resolve(entries, p, e, api1);
      !Fetches(entries1, p, e) && Resolve(entries1, p, e, api2) == (r1, entries1)
  {
  }

  /** The cache only ever grows, and an entry once written is never changed. */
  lemma ResolveExtends(entries: CacheEntries, p: string, e: string, api: EpisodeApi)
    ensures var entries' := Resolve(entries, p, e, api).1;
      entries.Keys <= entries'.Keys && forall k :: k in entries ==> entries'[k] == entries[k]
  {
  }

  class RemoteCache {
    var entries: CacheEntries
    /** The guid pairs the API was asked about, in order. */
    ghost var requests: seq<(string, string)>

    constructor ()
      ensures entries == map[] && requests == []
    {
      entries := map[];
      requests := [];
    }

    /** `fetch_podcast_episode_by_guid`. */
    method FetchPodcastEpisodeByGuid(podcastGuid: string, episodeGuid: string, api: EpisodeApi)
      returns (r: Option<PodcastEpisodeGuid>)
      modifies this
      ensures (r, entries) == Resolve(old(entries), podcastGuid, episodeGuid, api)
      ensures requests == if Fetches(old(entries), podcastGuid, episodeGuid)
                          then old(requests) + [(podcastGuid, episodeGuid)] else old(requests)
    {
      var key := podcastGuid + "_" + episodeGuid;
      if key in entries {
        r := entries[key];
        return;
      }
      requests := requests + [(podcastGuid, episodeGuid)];
      var answer := api(podcastGuid, episodeGuid);
      match answer {
        case Ok(found) =>
          entries := entries[key := found];
          r := found;
        case Err(_) =>
          r := None;
      }
    }
  }
}
