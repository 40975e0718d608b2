/** The two cache files and the freshness verdict, on values: what a file holds,
    what loading it returns, and how the stored hash is compared. */
module CacheStore {
  import opened Wrappers
  import opened JsonValue

  const ApiBaseUrl := "https://camdb.matchmovemachine.com"
  const CacheVersion := "1.0"

  /** A cache file on disk: absent, present but not valid JSON, or holding a JSON document. */
  datatype StoredFile = Missing | Unreadable | Holds(content: Json)

  /** `_load_from_cache` / `_load_cache_info`: `None` unless the file exists and parses. */
  function Load(f: StoredFile): (r: Option<Json>)
    ensures r.Some? <==> f.Holds?
    ensures f.Holds? ==> r.value == f.content
  {
    match f
    case Holds(content) => Some(content)
    case _ => None
  }

  /** The metadata `_save_cache_info` writes. */
  function CacheInfo(dataHash: string, timestamp: string): (r: Json)
    ensures r.JObj? && Truthy(r)
    ensures r.fields.Keys == {"timestamp", "data_hash", "api_url", "cache_version"}
    ensures r.fields["data_hash"] == JStr(dataHash) && r.fields["timestamp"] == JStr(timestamp)
    ensures r.fields["api_url"] == JStr(ApiBaseUrl) && r.fields["cache_version"] == JStr(CacheVersion)
  {
    var fields := map[
      "timestamp" := JStr(timestamp),
      "data_hash" := JStr(dataHash),
      "api_url" := JStr(ApiBaseUrl),
      "cache_version" := JStr(CacheVersion)];
    assert "timestamp" in fields;
    JObj(fields)
  }

  /** `_update_cache_info_display` calls `cache_info.get` outside its `try` once the info
      file loaded to a truthy value and the camera file exists. A value that is not a dict
      has no `.get`, so the call raises there. */
  predicate InfoDisplayRaises(info: Option<Json>, camerasPresent: bool) {
    camerasPresent && info.Some? && Truthy(info.value) && !info.value.JObj?
  }

  /** On a stored info file: the display raises exactly when the camera file is there and the
      info file parses to a truthy value that is not a dict. */
  lemma InfoDisplayRaisesOnFile(f: StoredFile, camerasPresent: bool)
    ensures InfoDisplayRaises(Load(f), camerasPresent) <==>
      camerasPresent && f.Holds? && Truthy(f.content) && !f.content.JObj?
  {
  }

  /** `_check_cache_freshness`, with the `limit=1` sample fetch as a parameter. A failed fetch,
      a missing or falsy info document, or one without `.get`, gives false; a missing
      `data_hash` compares against ''. */
  function IsFresh(info: Option<Json>, sample: Result<Json>, digest: Json -> string): (r: bool)
    ensures sample.Err? || info.None? ==> !r
    ensures r ==> (sample.Ok? && info.Some? && info.value.JObj? &&
                   GetOr(info.value.fields, "data_hash", JStr("")) == JStr(digest(sample.value)))
  {
    match sample
    case Err(_) => false
    case Ok(s) =>
      match info
      case None => false
      case Some(i) =>
        if !Truthy(i) then false
        else if !i.JObj? then false
        else JStr(digest(s)) == GetOr(i.fields, "data_hash", JStr(""))
  }

  /** With a digest that is never empty (an MD5 hex digest), the cache is fresh exactly when the
      sample fetch succeeded, the info file loaded as a dict, and its `data_hash` equals the sample's digest. */
  lemma FreshIff(info: Option<Json>, sample: Result<Json>, digest: Json -> string)
    requires forall j :: |digest(j)| == 32
    ensures IsFresh(info, sample, digest) <==>
      sample.Ok? && info.Some? && info.value.JObj? &&
      "data_hash" in info.value.fields && info.value.fields["data_hash"] == JStr(digest(sample.value))
  {
    if sample.Ok? && info.Some? && info.value.JObj? && "data_hash" in info.value.fields {
      assert info.value.fields != map[];
    }
    if sample.Ok? {
      assert |digest(sample.value)| == 32;
    }
  }

  /** Right after a save, the verdict compares the sample's digest with the digest of the
      whole saved list. */
  lemma FreshAfterSave(cams: seq<Json>, timestamp: string, sample: Json, digest: Json -> string)
    ensures IsFresh(Load(Holds(CacheInfo(digest(JArr(cams)), timestamp))), Ok(sample), digest) <==>
      digest(sample) == digest(JArr(cams))
  {
    var info := CacheInfo(digest(JArr(cams)), timestamp);
    assert "data_hash" in info.fields;
    assert Truthy(info);
  }

  /** Since `save` stores the digest of the whole list, a later check that hashes the one-record
      sample can only succeed, when the digest does not collide on these two values, if the
      sample response is the whole saved list. */
  lemma FreshOnlyIfSampleIsWholeList(cams: seq<Json>, timestamp: string, sample: Json, digest: Json -> string)
    requires digest(sample) == digest(JArr(cams)) ==> sample == JArr(cams)
    ensures IsFresh(Load(Holds(CacheInfo(digest(JArr(cams)), timestamp))), Ok(sample), digest) ==>
      sample == JArr(cams)
  {
    FreshAfterSave(cams, timestamp, sample, digest);
  }

  /** Without an info file nothing is ever fresh. */
  lemma NeverFreshWithoutInfo(f: StoredFile, sample: Result<Json>, digest: Json -> string)
    requires !f.Holds?
    ensures !IsFresh(Load(f), sample, digest)
  {
  }
}
