/** The events cache file the fetcher keeps between runs: `load_cache`,
    `save_cache`, and the `last_popup` entry that `check_popup_routines`
    reads when it starts and writes when a popup fires. The file is what
    `json.load` returns, None when it is missing or does not load.

    As written, `save_cache` stores whatever it is given under "events", and
    every caller gives it the whole cache dict, so a popup recorded in one
    run is not where the next run looks for it. `SaveCacheKeepingKeys` is the
    save the popup check evidently relies on. */
module CacheFile {
  import opened Wrappers
  import opened JsonData
  import opened Routines

  /** What `load_cache` returns when there is no readable file. */
  const EmptyCache: Json := Obj(map["events" := Arr([]), "timestamp" := Null])

  /** `load_cache`: the decoded file, or the empty cache. */
  function LoadCache(file: Option<Json>): Json {
    file.GetOr(EmptyCache)
  }

  /** `save_cache(events)` as written: the argument is stored under "events",
      next to the time stamp of the save. */
  function SaveCache(events: Json, stamp: string): (file: Json)
    ensures file.Obj? && file.fields.Keys == {"events", "timestamp"}
    ensures file.fields["events"] == events && file.fields["timestamp"] == Str(stamp)
  {
    Obj(map["events" := events, "timestamp" := Str(stamp)])
  }

  /** The id `last_popup.get("event_id")` yields: None when the entry or its
      id is absent, or the id is not text (it then equals no event id). */
  function LastPopupId(cache: Json): Option<string> {
    if !cache.Obj? then None
    else match Get(cache.fields, "last_popup", Obj(map[]))
      case Obj(entry) => (match Get(entry, "event_id", Null) case Str(id) => Some(id) case _ => None)
      case _ => None
  }

  /** The cache dict with a popup recorded under "last_popup". */
  function WithLastPopup(cache: map<string, Json>, id: string, time: string): (c: map<string, Json>)
    ensures LastPopupId(Obj(c)) == Some(id)
    ensures forall k :: k in cache && k != "last_popup" ==> k in c && c[k] == cache[k]
  {
    cache["last_popup" := Obj(map["event_id" := Str(id), "time" := Str(time)])]
  }

  /** As written, a file the fetcher saved has no top-level "last_popup", so
      the next run reads no last popup, whatever the previous run recorded. */
  lemma SavedPopupIsLost(cache: Json, stamp: string)
    ensures LastPopupId(LoadCache(Some(SaveCache(cache, stamp)))) == None
  {
    assert "last_popup" !in SaveCache(cache, stamp).fields;
  }

  /** As written, the popup a run raises and records is raised again by the
      next run that finds the same event in the window. */
  lemma PopupRepeatsAsWritten(routines: seq<Routine>, env: Env, cache: map<string, Json>, time: string, stamp: string)
    requires PopupSearch(routines, env, None).Some?
    ensures var f := PopupSearch(routines, env, None).value;
      var file := SaveCache(Obj(WithLastPopup(cache, f.eventId, time)), stamp);
      PopupSearch(routines, env, LastPopupId(LoadCache(Some(file)))) == Some(f)
  {
    var f := PopupSearch(routines, env, None).value;
    SavedPopupIsLost(Obj(WithLastPopup(cache, f.eventId, time)), stamp);
  }

  /** The save the popup check relies on: the cache dict itself, with the
      time stamp of the save. */
  function SaveCacheKeepingKeys(cache: map<string, Json>, stamp: string): (file: Json)
    ensures file.Obj? && file.fields.Keys == cache.Keys + {"timestamp"}
    ensures forall k :: k in cache && k != "timestamp" ==> file.fields[k] == cache[k]
    ensures file.fields["timestamp"] == Str(stamp)
  {
    Obj(cache["timestamp" := Str(stamp)])
  }

  /** With that save, the next run reads back the popup the last one recorded. */
  lemma SavedPopupIsKept(cache: map<string, Json>, id: string, time: string, stamp: string)
    ensures LastPopupId(LoadCache(Some(SaveCacheKeepingKeys(WithLastPopup(cache, id, time), stamp)))) == Some(id)
  {
    var c := WithLastPopup(cache, id, time);
    assert LoadCache(Some(SaveCacheKeepingKeys(c, stamp))).fields["last_popup"] == c["last_popup"];
  }

  /** With that save, a popup raised and recorded by one run is not raised
      again by any later run, whatever its clock and calendars. */
  lemma PopupNotRepeatedAcrossRuns(routines: seq<Routine>, env: Env, last: Option<string>, later: Env,
                                   cache: map<string, Json>, time: string, stamp: string)
    requires PopupSearch(routines, env, last).Some?
    ensures var f := PopupSearch(routines, env, last).value;
      var file := SaveCacheKeepingKeys(WithLastPopup(cache, f.eventId, time), stamp);
      var again := PopupSearch(routines, later, LastPopupId(LoadCache(Some(file))));
      again.None? || again.value.eventId != f.eventId
  {
    var f := PopupSearch(routines, env, last).value;
    SavedPopupIsKept(cache, f.eventId, time, stamp);
    if PopupSearch(routines, later, Some(f.eventId)).Some? {
      PopupIsNew(routines, later, Some(f.eventId));
    }
  }
}
