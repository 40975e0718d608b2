/** `CamDBPanel` without its widgets: the in-memory camera lists, the filter
    controls' current texts, the selected camera, the sensor data and the two
    cache files, with the panel's operations on them. Network responses, the
    clock and the directory dialog's answer are parameters. */
module Panel {
  import opened Wrappers
  import opened JsonValue
  import opened Text
  import opened Ordering
  import opened CameraFilter
  import opened FilterOptions
  import opened Sensors
  import opened NodeName
  import opened CacheDir
  import opened CacheStore

  const CamerasFileName := "camdb_cameras.json"
  const InfoFileName := "camdb_cache_info.json"

  /** `self.filtered_cameras`, the cameras held by the camera list widget's items, and
      `self.selected_camera` (`JNull` for `None`). */
  datatype Listing = Listing(filtered: seq<Json>, shown: seq<Json>, selected: Json)

  /** What `filter_cameras` leaves behind. With no cameras it returns at once. A raise in the
      filtering loop leaves the cameras kept so far and a widget it never reached. Otherwise
      the widget is cleared, which drops its current item and so, through `currentItemChanged`,
      the selection, and is refilled up to the first kept camera that is not a dict. */
  function AfterFilter(prev: Listing, cams: seq<Json>, k: Criteria): (r: Listing)
    ensures cams == [] ==> r == prev
    ensures cams != [] ==> r.filtered == Filtering(cams, k)
    ensures cams != [] && !RaiseFree(cams, k) ==> r.shown == prev.shown && r.selected == prev.selected
    ensures cams != [] && RaiseFree(cams, k) ==> r.shown == Shown(Matching(cams, k)) && r.selected == JNull
  {
    if cams == [] then prev
    else if FirstRaise(cams, k) < |cams| then Listing(Filtering(cams, k), prev.shown, prev.selected)
    else Listing(Filtering(cams, k), Shown(Filtering(cams, k)), JNull)
  }

  /** When the filtering loop gets through, the widget shows a prefix of the filtered list, and
      all of it exactly when `filter_cameras` runs to its end. */
  lemma {:induction false} ShownAfterFilter(prev: Listing, cams: seq<Json>, k: Criteria)
    requires cams != [] && RaiseFree(cams, k)
    ensures AfterFilter(prev, cams, k).shown <= AfterFilter(prev, cams, k).filtered
    ensures AfterFilter(prev, cams, k).shown == AfterFilter(prev, cams, k).filtered <==> FilterCompletes(cams, k)
  {
  }

  /** A camera that is not a dict survives the wildcards, is kept, and then makes the
      display loop raise before any item is added. */
  lemma NonDictKeptButNotShown(prev: Listing)
    ensures AfterFilter(prev, [JNum(1)], Criteria(AllMakes, AllTypes, "")) == Listing([JNum(1)], [], JNull)
    ensures !FilterCompletes([JNum(1)], Criteria(AllMakes, AllTypes, ""))
  {
    WildcardsKeepAll([JNum(1)]);
    WildcardsKeepAllFrom([JNum(1)], Criteria(AllMakes, AllTypes, ""));
    assert FirstNonDict([JNum(1)]) == 0;
  }

  /** A combo's `clear()` and `addItem(sentinel)`: its text goes from `oldText` to '' (a change
      only when it was not '' already) and then to the sentinel, and each change re-runs
      `filter_cameras`, first with `cleared` and then with `sentinel` as the criteria. */
  function Reset(prev: Listing, oldText: string, cams: seq<Json>, cleared: Criteria, sentinel: Criteria): (r: Listing)
    ensures cams == [] ==> r == prev
    ensures cams != [] ==> r.filtered == Filtering(cams, sentinel)
    ensures cams != [] && RaiseFree(cams, sentinel) ==> r.selected == JNull
  {
    AfterFilter(if oldText == "" then prev else AfterFilter(prev, cams, cleared), cams, sentinel)
  }

  /** `filter_cameras` runs to its end: no cameras, or neither of its loops raises. */
  ghost predicate FilterCompletes(cams: seq<Json>, k: Criteria) {
    cams == [] || (RaiseFree(cams, k) && forall c :: c in Matching(cams, k) ==> c.JObj?)
  }

  /** What the filter widgets show: each combo's items and current text, and the camera lists. */
  datatype Controls = Controls(
    makeOptions: seq<string>, makeText: string,
    typeOptions: seq<string>, typeText: string,
    listing: Listing)

  /** The make combo rebuilt from `makes`: cleared, given its sentinel (two text changes, each
      re-running the filter), then the sorted values unless a non-string one makes it raise. */
  ghost function MakeReset(before: Controls, makes: set<Json>, cams: seq<Json>, search: string): (r: Controls)
    ensures r.makeText == AllMakes
    ensures r.makeOptions == if AllStrings(makes) then OptionsList(AllMakes, makes) else [AllMakes]
    ensures r.typeOptions == before.typeOptions && r.typeText == before.typeText
    ensures cams == [] ==> r.listing == before.listing
    ensures cams != [] ==> r.listing.filtered == Filtering(cams, Criteria(AllMakes, before.typeText, search))
  {
    Controls(
      if AllStrings(makes) then OptionsList(AllMakes, makes) else [AllMakes], AllMakes,
      before.typeOptions, before.typeText,
      Reset(before.listing, before.makeText, cams,
        Criteria("", before.typeText, search), Criteria(AllMakes, before.typeText, search)))
  }

  /** The same for the type combo. */
  ghost function TypeReset(before: Controls, types: set<Json>, cams: seq<Json>, search: string): (r: Controls)
    ensures r.typeText == AllTypes
    ensures r.typeOptions == if AllStrings(types) then OptionsList(AllTypes, types) else [AllTypes]
    ensures r.makeOptions == before.makeOptions && r.makeText == before.makeText
    ensures cams == [] ==> r.listing == before.listing
    ensures cams != [] ==> r.listing.filtered == Filtering(cams, Criteria(before.makeText, AllTypes, search))
  {
    Controls(
      before.makeOptions, before.makeText,
      if AllStrings(types) then OptionsList(AllTypes, types) else [AllTypes], AllTypes,
      Reset(before.listing, before.typeText, cams,
        Criteria(before.makeText, "", search), Criteria(before.makeText, AllTypes, search)))
  }

  /** The widgets after `_populate_filters_and_display` on `cams`, starting from `before`. The
      collecting loop raises before touching a combo; a non-string value stops the call once
      that combo holds only its sentinel; otherwise the final `filter_cameras` runs as well. */
  ghost function Repopulate(before: Controls, cams: seq<Json>, search: string): (r: Controls)
    ensures ScanRaises(cams) ==> r == before
    ensures !ScanRaises(cams) && AllStrings(FieldValues(cams, "make")) && AllStrings(FieldValues(cams, "cam_type")) ==>
      && r.makeOptions == OptionsList(AllMakes, FieldValues(cams, "make")) && r.makeText == AllMakes
      && r.typeOptions == OptionsList(AllTypes, FieldValues(cams, "cam_type")) && r.typeText == AllTypes
  {
    if ScanRaises(cams) then before
    else Rebuilt(before, FieldValues(cams, "make"), FieldValues(cams, "cam_type"), cams, search)
  }

  /** The part of `_populate_filters_and_display` after the collecting loop, given its sets. */
  ghost function Rebuilt(before: Controls, makes: set<Json>, types: set<Json>, cams: seq<Json>, search: string): (r: Controls)
    ensures r.makeText == AllMakes
    ensures AllStrings(makes) && AllStrings(types) ==>
      && r.makeOptions == OptionsList(AllMakes, makes) && r.typeOptions == OptionsList(AllTypes, types)
      && r.typeText == AllTypes
  {
    var t := CombosRebuilt(before, makes, types, cams, search);
    if !(AllStrings(makes) && AllStrings(types)) then t
    else t.(listing := AfterFilter(t.listing, cams, Criteria(AllMakes, AllTypes, search)))
  }

  /** The two combo rebuilds, the second only when the first did not raise. */
  ghost function CombosRebuilt(before: Controls, makes: set<Json>, types: set<Json>, cams: seq<Json>, search: string): (r: Controls)
    ensures r.makeText == AllMakes
    ensures r.makeOptions == if AllStrings(makes) then OptionsList(AllMakes, makes) else [AllMakes]
    ensures !AllStrings(makes) ==> r.typeOptions == before.typeOptions && r.typeText == before.typeText
    ensures AllStrings(makes) ==>
      r.typeText == AllTypes && r.typeOptions == if AllStrings(types) then OptionsList(AllTypes, types) else [AllTypes]
  {
    var m := MakeReset(before, makes, cams, search);
    if !AllStrings(makes) then m else TypeReset(m, types, cams, search)
  }

  /** `_populate_filters_and_display` runs to the end without raising. */
  ghost predicate PopulateSucceeds(cams: seq<Json>, search: string) {
    && !ScanRaises(cams)
    && AllStrings(FieldValues(cams, "make"))
    && AllStrings(FieldValues(cams, "cam_type"))
    && FilterCompletes(cams, Criteria(AllMakes, AllTypes, search))
  }

  /** A scan that does not raise has seen only dicts. */
  lemma {:induction false} ScanOkOnlyDicts(cams: seq<Json>)
    requires !ScanRaises(cams)
    ensures forall c :: c in cams ==> c.JObj?
  {
    forall c | c in cams
      ensures c.JObj?
    {
      var j :| 0 <= j < |cams| && cams[j] == c;
      assert !RaisesInScan(cams[j]);
    }
  }

  /** With an empty search, `_populate_filters_and_display` on cameras whose makes and types are
      hashable strings runs to its end, and both the filtered list and the widget hold every camera. */
  lemma PopulatedListsAll(before: Controls, cams: seq<Json>)
    requires cams != [] && !ScanRaises(cams)
    requires AllStrings(FieldValues(cams, "make")) && AllStrings(FieldValues(cams, "cam_type"))
    ensures PopulateSucceeds(cams, "")
    ensures Repopulate(before, cams, "").listing == Listing(cams, cams, JNull)
  {
    var wild := Criteria(AllMakes, AllTypes, "");
    WildcardsKeepAll(cams);
    WildcardsKeepAllFrom(cams, wild);
    ScanOkOnlyDicts(cams);
  }

  /** A populate that runs to its end on at least one camera leaves both the filtered list and
      the widget holding exactly the cameras the wildcards and the search keep, with no selection. */
  lemma RepopulateListing(before: Controls, cams: seq<Json>, search: string)
    requires cams != [] && PopulateSucceeds(cams, search)
    ensures var kept := Matching(cams, Criteria(AllMakes, AllTypes, search));
      Repopulate(before, cams, search).listing == Listing(kept, kept, JNull)
  {
    var k := Criteria(AllMakes, AllTypes, search);
    var t := CombosRebuilt(before, FieldValues(cams, "make"), FieldValues(cams, "cam_type"), cams, search);
    assert Repopulate(before, cams, search).listing == AfterFilter(t.listing, cams, k);
    ShownAfterFilter(t.listing, cams, k);
  }

  /** After a populate whose values are all strings, each combo is its sentinel followed by the
      distinct non-empty string values of its field across the cameras, strictly ascending. */
  lemma RepopulateCombos(before: Controls, cams: seq<Json>, search: string)
    requires !ScanRaises(cams)
    requires AllStrings(FieldValues(cams, "make")) && AllStrings(FieldValues(cams, "cam_type"))
    ensures var r := Repopulate(before, cams, search);
      && r.makeText == AllMakes && r.makeOptions[0] == AllMakes && StrictlySorted(r.makeOptions[1..])
      && (forall x :: x in r.makeOptions[1..] <==>
            exists c :: c in cams && c.JObj? && "make" in c.fields && c.fields["make"] == JStr(x) && x != "")
      && r.typeText == AllTypes && r.typeOptions[0] == AllTypes && StrictlySorted(r.typeOptions[1..])
      && (forall x :: x in r.typeOptions[1..] <==>
            exists c :: c in cams && c.JObj? && "cam_type" in c.fields && c.fields["cam_type"] == JStr(x) && x != "")
  {
    OptionsListed(AllMakes, cams, "make");
    OptionsListed(AllTypes, cams, "cam_type");
  }

  class CamDBPanel {
    /** `_get_api_version_hash`: the MD5 hex digest of the canonical JSON text, taken as given. */
    const digest: Json -> string

    var cacheDir: Path
    var camerasCachePath: Path
    var cacheInfoPath: Path
    var camerasFile: StoredFile
    var infoFile: StoredFile

    var cameraData: seq<Json>
    var filteredCameras: seq<Json>
    /** The camera each item of the camera list widget carries, in display order. */
    var shownCameras: seq<Json>
    var selectedCamera: Json
    var sensorData: Json

    /** The make and type combos' items and current texts, and the search box's text. */
    var makeOptions: seq<string>
    var makeText: string
    var typeOptions: seq<string>
    var typeText: string
    var searchText: string

    ghost predicate Valid()
      reads this
    {
      && (forall j :: |digest(j)| == 32)
      && camerasCachePath == cacheDir + [CamerasFileName]
      && cacheInfoPath == cacheDir + [InfoFileName]
      && makeOptions != [] && makeOptions[0] == AllMakes
      && typeOptions != [] && typeOptions[0] == AllTypes
    }

    /** `__init__`: empty lists, the default cache directory, whatever the cache files hold on disk. */
    constructor (digest: Json -> string, system: string, env: map<string, string>, home: Path,
                 camerasOnDisk: StoredFile, infoOnDisk: StoredFile)
      requires forall j :: |digest(j)| == 32
      ensures Valid()
      ensures this.digest == digest
      ensures cacheDir == DefaultCacheDir(system, env, home)
      ensures camerasFile == camerasOnDisk && infoFile == infoOnDisk
      ensures cameraData == [] && filteredCameras == [] && shownCameras == []
      ensures selectedCamera == JNull && sensorData == JArr([])
      ensures makeOptions == [AllMakes] && makeText == AllMakes
      ensures typeOptions == [AllTypes] && typeText == AllTypes && searchText == ""
    {
      this.digest := digest;
      cacheDir := DefaultCacheDir(system, env, home);
      camerasCachePath := DefaultCacheDir(system, env, home) + [CamerasFileName];
      cacheInfoPath := DefaultCacheDir(system, env, home) + [InfoFileName];
      camerasFile, infoFile := camerasOnDisk, infoOnDisk;
      cameraData, filteredCameras, shownCameras := [], [], [];
      selectedCamera, sensorData := JNull, JArr([]);
      makeOptions, makeText := [AllMakes], AllMakes;
      typeOptions, typeText := [AllTypes], AllTypes;
      searchText := "";
    }

    /** `__init__` as a whole: the fields are set up as the constructor does, then
        `_load_cached_data` runs, and a raise there means no panel is built. */
    static method Open(digest: Json -> string, system: string, env: map<string, string>, home: Path,
                       camerasOnDisk: StoredFile, infoOnDisk: StoredFile) returns (p: CamDBPanel?)
      requires forall j :: |digest(j)| == 32
      ensures p == null <==>
        camerasOnDisk != Missing && infoOnDisk.Holds? && Truthy(infoOnDisk.content) && !infoOnDisk.content.JObj?
      ensures p != null ==>
        && fresh(p) && p.Valid() && p.InfoDisplayCompletes()
        && p.cacheDir == DefaultCacheDir(system, env, home)
        && p.camerasFile == camerasOnDisk && p.infoFile == infoOnDisk
        && p.cameraData == [] && p.filteredCameras == [] && p.shownCameras == [] && p.selectedCamera == JNull
        && p.makeOptions == [AllMakes] && p.typeOptions == [AllTypes]
        && p.digest == digest && p.makeText == AllMakes && p.typeText == AllTypes && p.searchText == ""
        && p.sensorData == JArr([])
    {
      p := new CamDBPanel(digest, system, env, home, camerasOnDisk, infoOnDisk);
      var ok := p.LoadCachedData();
      if !ok {
        p := null;
      }
    }

    /** `_update_cache_info_display` runs to its end on the current files. */
    predicate InfoDisplayCompletes()
      reads this
    {
      !InfoDisplayRaises(LoadCacheInfo(), camerasFile != Missing)
    }

    /** `_load_cached_data`: `_update_cache_info_display`, then the status text. Only labels
        change; `ok` is false when the info file holds a truthy value that is not a dict while
        the camera file exists, because `.get` on it raises outside any `try`. */
    method LoadCachedData() returns (ok: bool)
      ensures ok <==> !(camerasFile != Missing && infoFile.Holds? && Truthy(infoFile.content) && !infoFile.content.JObj?)
      ensures ok <==> InfoDisplayCompletes()
    {
      var info := LoadCacheInfo();
      if camerasFile != Missing && info.Some? && Truthy(info.value) && !info.value.JObj? {
        // `cache_info.get('timestamp', 'Unknown')` on a list, string, number or boolean
        return false;
      }
      // the second `.get` in `_load_cached_data` has the same guard, so it cannot raise now
      ok := true;
    }

    /** `_load_from_cache`. */
    function LoadFromCache(): (r: Option<Json>)
      reads this
      ensures r.Some? <==> camerasFile.Holds?
      ensures r.Some? ==> r.value == camerasFile.content
    {
      Load(camerasFile)
    }

    /** `_load_cache_info`. */
    function LoadCacheInfo(): (r: Option<Json>)
      reads this
      ensures r.Some? <==> infoFile.Holds?
      ensures r.Some? ==> r.value == infoFile.content
    {
      Load(infoFile)
    }

    /** `_check_cache_freshness`, given the outcome of the `limit=1` sample request. */
    function CheckCacheFreshness(sample: Result<Json>): (r: bool)
      requires Valid()
      reads this
      ensures r <==>
        && sample.Ok? && infoFile.Holds? && infoFile.content.JObj?
        && "data_hash" in infoFile.content.fields
        && infoFile.content.fields["data_hash"] == JStr(digest(sample.value))
    {
      FreshIff(LoadCacheInfo(), sample, digest);
      IsFresh(LoadCacheInfo(), sample, digest)
    }

    /** The filter inputs `filter_cameras` reads from the widgets. */
    function CurrentCriteria(): Criteria
      reads this
    {
      Criteria(makeText, typeText, Lower(searchText))
    }

    function Listed(): Listing
      reads this
    {
      Listing(filteredCameras, shownCameras, selectedCamera)
    }

    /** `filter_cameras`: the filtering loop, then the loop that refills the camera list
        widget. `ok` is false when either loop raised; each stops where it raised. */
    method FilterCameras() returns (ok: bool)
      modifies this`filteredCameras, this`shownCameras, this`selectedCamera
      ensures Listed() == AfterFilter(old(Listed()), cameraData, CurrentCriteria())
      ensures Snapshot() == old(Snapshot()).(listing := AfterFilter(old(Listed()), cameraData, CurrentCriteria()))
      ensures ok <==> FilterCompletes(cameraData, CurrentCriteria())
      ensures ok && cameraData != [] ==>
        filteredCameras == Matching(cameraData, CurrentCriteria()) && shownCameras == filteredCameras
      ensures cameraData != [] && RaiseFree(cameraData, CurrentCriteria()) ==> selectedCamera == JNull
    {
      if cameraData == [] {
        return true;
      }
      var raised := KeepMatching();
      if raised {
        return false;
      }
      ok := RefillCameraList();
    }

    /** The filtering loop of `filter_cameras`: `self.filtered_cameras` restarts empty and
        gains each kept camera, until a camera makes the loop raise. */
    method KeepMatching() returns (raised: bool)
      modifies this`filteredCameras
      ensures filteredCameras == Filtering(cameraData, CurrentCriteria())
      ensures raised <==> !RaiseFree(cameraData, CurrentCriteria())
    {
      var k := CurrentCriteria();
      filteredCameras := [];
      var i := 0;
      while i < |cameraData|
        invariant 0 <= i <= |cameraData|
        invariant forall j :: 0 <= j < i ==> Judge(cameraData[j], k) != Raise
        invariant filteredCameras == Matching(cameraData[..i], k)
      {
        var step := Judge(cameraData[i], k);
        if step == Raise {
          assert FirstRaise(cameraData, k) == i;
          return true;
        }
        MatchingAppend(cameraData[..i], cameraData[i], k);
        assert cameraData[..i + 1] == cameraData[..i] + [cameraData[i]];
        if step == Keep {
          filteredCameras := filteredCameras + [cameraData[i]];
        }
        i := i + 1;
      }
      assert cameraData[..i] == cameraData;
      raised := false;
    }

    /** The display loop of `filter_cameras`: `camera_list.clear()`, then one item per filtered
        camera, until `camera.get` meets a camera that is not a dict. */
    method RefillCameraList() returns (ok: bool)
      modifies this`shownCameras, this`selectedCamera
      ensures shownCameras == Shown(filteredCameras) && selectedCamera == JNull
      ensures ok <==> forall c :: c in filteredCameras ==> c.JObj?
    {
      // `clear()` drops the current item; `on_camera_selected(None, …)` clears the selection
      shownCameras, selectedCamera := [], JNull;
      var i := 0;
      while i < |filteredCameras|
        invariant 0 <= i <= |filteredCameras|
        invariant forall j :: 0 <= j < i ==> filteredCameras[j].JObj?
        invariant shownCameras == filteredCameras[..i]
        invariant selectedCamera == JNull
      {
        if !filteredCameras[i].JObj? {
          assert FirstNonDict(filteredCameras) == i;
          return false;
        }
        assert filteredCameras[..i + 1] == filteredCameras[..i] + [filteredCameras[i]];
        shownCameras := shownCameras + [filteredCameras[i]];
        i := i + 1;
      }
      assert FirstNonDict(filteredCameras) == |filteredCameras|;
      assert filteredCameras[..i] == filteredCameras;
      ok := true;
    }

    /** The make combo's current text changes, which signals `filter_cameras`. An exception
        raised in a Qt slot does not reach the code that changed the text. */
    method SetMakeText(t: string)
      modifies this`makeText, this`filteredCameras, this`shownCameras, this`selectedCamera
      ensures makeText == t
      ensures old(Valid()) ==> Valid()
      ensures t == old(makeText) ==> Listed() == old(Listed())
      ensures t != old(makeText) ==> Listed() == AfterFilter(old(Listed()), cameraData, CurrentCriteria())
      ensures cameraData == [] ==> Listed() == old(Listed())
    {
      if t != makeText {
        makeText := t;
        var ignored := FilterCameras();
      }
    }

    method SetTypeText(t: string)
      modifies this`typeText, this`filteredCameras, this`shownCameras, this`selectedCamera
      ensures typeText == t
      ensures old(Valid()) ==> Valid()
      ensures t == old(typeText) ==> Listed() == old(Listed())
      ensures t != old(typeText) ==> Listed() == AfterFilter(old(Listed()), cameraData, CurrentCriteria())
      ensures cameraData == [] ==> Listed() == old(Listed())
    {
      if t != typeText {
        typeText := t;
        var ignored := FilterCameras();
      }
    }

    /** The user picks a make from the combo. */
    method ChooseMake(t: string)
      requires Valid() && t in makeOptions
      modifies this`makeText, this`filteredCameras, this`shownCameras, this`selectedCamera
      ensures Valid() && makeText == t
      ensures t != old(makeText) ==> Listed() == AfterFilter(old(Listed()), cameraData, CurrentCriteria())
      ensures t == old(makeText) ==> Listed() == old(Listed())
    {
      SetMakeText(t);
    }

    /** The user picks a camera type from the combo. */
    method ChooseType(t: string)
      requires Valid() && t in typeOptions
      modifies this`typeText, this`filteredCameras, this`shownCameras, this`selectedCamera
      ensures Valid() && typeText == t
      ensures t != old(typeText) ==> Listed() == AfterFilter(old(Listed()), cameraData, CurrentCriteria())
      ensures t == old(typeText) ==> Listed() == old(Listed())
    {
      SetTypeText(t);
    }

    /** The user edits the search box; `textChanged` signals `filter_cameras`. */
    method EditSearch(t: string)
      requires Valid()
      modifies this`searchText, this`filteredCameras, this`shownCameras, this`selectedCamera
      ensures Valid() && searchText == t
      ensures t != old(searchText) ==> Listed() == AfterFilter(old(Listed()), cameraData, CurrentCriteria())
      ensures t == old(searchText) ==> Listed() == old(Listed())
    {
      if t != searchText {
        searchText := t;
        var ignored := FilterCameras();
      }
    }

    function Snapshot(): Controls
      reads this
    {
      Controls(makeOptions, makeText, typeOptions, typeText, Listed())
    }

    /** The collecting loop of `_populate_filters_and_display`: the truthy make and type
        values, or `raised` when a camera is not a dict or has an unhashable value. */
    method CollectFilterValues() returns (raised: bool, makes: set<Json>, types: set<Json>)
      ensures raised <==> ScanRaises(cameraData)
      ensures !raised ==> makes == FieldValues(cameraData, "make") && types == FieldValues(cameraData, "cam_type")
    {
      var cams := cameraData;
      makes, types := {}, {};
      var i := 0;
      while i < |cams|
        invariant 0 <= i <= |cams|
        invariant forall j :: 0 <= j < i ==> !RaisesInScan(cams[j])
        invariant makes == FieldValues(cams[..i], "make")
        invariant types == FieldValues(cams[..i], "cam_type")
      {
        var camera := cams[i];
        // `.get` needs a dict and `set.add` a hashable value; the sets are dropped on a raise
        if RaisesInScan(camera) {
          assert 0 <= i < |cameraData| && RaisesInScan(cameraData[i]);
          return true, makes, types;
        }
        var make := Get(camera.fields, "make");
        if make.Some? && Truthy(make.value) {
          makes := makes + {make.value};
        }
        var camType := Get(camera.fields, "cam_type");
        if camType.Some? && Truthy(camType.value) {
          types := types + {camType.value};
        }
        FieldValuesPrefix(cams, i, "make");
        FieldValuesPrefix(cams, i, "cam_type");
        i := i + 1;
      }
      assert !ScanRaises(cameraData);
      assert cams[..i] == cams;
      raised := false;
    }

    /** `make_combo.clear()`, `addItem("All Makes")`, then one `addItem` per sorted value.
        `ok` is false when a non-string value makes `sorted` or `addItem` raise. */
    method RebuildMakeCombo(makes: set<Json>) returns (ok: bool)
      modifies this`makeOptions, this`makeText, this`filteredCameras, this`shownCameras, this`selectedCamera
      requires Valid()
      ensures Valid()
      ensures ok == AllStrings(makes)
      ensures makeOptions == if ok then OptionsList(AllMakes, makes) else [AllMakes]
      ensures makeText == AllMakes
      ensures Listed() ==
        Reset(old(Listed()), old(makeText), cameraData, Criteria("", typeText, Lower(searchText)), CurrentCriteria())
      ensures Snapshot() == MakeReset(old(Snapshot()), makes, cameraData, Lower(searchText))
    {
      ResetMakeCombo();
      if !AllStrings(makes) {
        return false;
      }
      makeOptions := OptionsList(AllMakes, makes);
      ok := true;
    }

    /** `make_combo.clear()` and the sentinel's `addItem`: the text becomes '' and then the
        sentinel, and each change re-runs the filter. */
    method ResetMakeCombo()
      modifies this`makeOptions, this`makeText, this`filteredCameras, this`shownCameras, this`selectedCamera
      requires Valid()
      ensures Valid()
      ensures makeOptions == [AllMakes] && makeText == AllMakes
      ensures Listed() ==
        Reset(old(Listed()), old(makeText), cameraData, Criteria("", typeText, Lower(searchText)), CurrentCriteria())
    {
      ghost var start := Listed();
      SetMakeText("");
      ghost var cleared := Listed();
      assert cleared == if old(makeText) == "" then start else AfterFilter(start, cameraData, Criteria("", typeText, Lower(searchText)));
      makeOptions := [AllMakes];
      SetMakeText(AllMakes);
      assert Listed() == AfterFilter(cleared, cameraData, CurrentCriteria());
    }

    /** `type_combo.clear()`, `addItem("All Types")`, then one `addItem` per sorted value.
        `ok` is false when a non-string value makes `sorted` or `addItem` raise. */
    method RebuildTypeCombo(types: set<Json>) returns (ok: bool)
      modifies this`typeOptions, this`typeText, this`filteredCameras, this`shownCameras, this`selectedCamera
      requires Valid()
      ensures Valid()
      ensures ok == AllStrings(types)
      ensures typeOptions == if ok then OptionsList(AllTypes, types) else [AllTypes]
      ensures typeText == AllTypes
      ensures Listed() ==
        Reset(old(Listed()), old(typeText), cameraData, Criteria(makeText, "", Lower(searchText)), CurrentCriteria())
      ensures Snapshot() == TypeReset(old(Snapshot()), types, cameraData, Lower(searchText))
    {
      ResetTypeCombo();
      if !AllStrings(types) {
        return false;
      }
      typeOptions := OptionsList(AllTypes, types);
      ok := true;
    }

    /** `type_combo.clear()` and the sentinel's `addItem`: the text becomes '' and then the
        sentinel, and each change re-runs the filter. */
    method ResetTypeCombo()
      modifies this`typeOptions, this`typeText, this`filteredCameras, this`shownCameras, this`selectedCamera
      requires Valid()
      ensures Valid()
      ensures typeOptions == [AllTypes] && typeText == AllTypes
      ensures Listed() ==
        Reset(old(Listed()), old(typeText), cameraData, Criteria(makeText, "", Lower(searchText)), CurrentCriteria())
    {
      ghost var start := Listed();
      SetTypeText("");
      ghost var cleared := Listed();
      assert cleared == if old(typeText) == "" then start else AfterFilter(start, cameraData, Criteria(makeText, "", Lower(searchText)));
      typeOptions := [AllTypes];
      SetTypeText(AllTypes);
      assert Listed() == AfterFilter(cleared, cameraData, CurrentCriteria());
    }

    /** `_populate_filters_and_display`. `ok` is false when it raised. */
    method PopulateFiltersAndDisplay() returns (ok: bool)
      requires Valid()
      modifies this`makeOptions, this`makeText, this`typeOptions, this`typeText, this`filteredCameras, this`shownCameras, this`selectedCamera
      ensures Valid()
      ensures Snapshot() == Repopulate(old(Snapshot()), cameraData, Lower(searchText))
      ensures ok <==> PopulateSucceeds(cameraData, Lower(searchText))
      ensures ok && cameraData != [] ==>
        filteredCameras == Matching(cameraData, CurrentCriteria()) && shownCameras == filteredCameras
    {
      var raised, makes, types := CollectFilterValues();
      if raised {
        return false;
      }
      ok := RebuildAndFilter(makes, types);
    }

    /** The combo rebuilds and the final `filter_cameras` of `_populate_filters_and_display`. */
    method RebuildAndFilter(makes: set<Json>, types: set<Json>) returns (ok: bool)
      requires Valid()
      modifies this`makeOptions, this`makeText, this`typeOptions, this`typeText, this`filteredCameras, this`shownCameras, this`selectedCamera
      ensures Valid()
      ensures Snapshot() == Rebuilt(old(Snapshot()), makes, types, cameraData, Lower(searchText))
      ensures ok <==> AllStrings(makes) && AllStrings(types) && FilterCompletes(cameraData, CurrentCriteria())
      ensures ok && cameraData != [] ==>
        filteredCameras == Matching(cameraData, CurrentCriteria()) && shownCameras == filteredCameras
    {
      ok := RebuildCombos(makes, types);
      if !ok {
        return;
      }
      ok := FilterCameras();
    }

    /** The make combo's rebuild, then the type combo's unless the first raised. */
    method RebuildCombos(makes: set<Json>, types: set<Json>) returns (ok: bool)
      requires Valid()
      modifies this`makeOptions, this`makeText, this`typeOptions, this`typeText, this`filteredCameras, this`shownCameras, this`selectedCamera
      ensures Valid()
      ensures Snapshot() == CombosRebuilt(old(Snapshot()), makes, types, cameraData, Lower(searchText))
      ensures ok <==> AllStrings(makes) && AllStrings(types)
      ensures ok ==> makeText == AllMakes && typeText == AllTypes
    {
      ok := RebuildMakeCombo(makes);
      if !ok {
        return;
      }
      ok := RebuildTypeCombo(types);
    }

    /** `_save_to_cache` followed by `_save_cache_info`: both files are written. */
    method SaveToCache(data: seq<Json>, now: string)
      requires Valid()
      modifies this`camerasFile, this`infoFile
      ensures Valid()
      ensures camerasFile == Holds(JArr(data))
      ensures infoFile == Holds(CacheInfo(digest(JArr(data)), now))
      ensures LoadFromCache() == Some(JArr(data))
      ensures LoadCacheInfo().Some? && LoadCacheInfo().value.JObj?
      ensures LoadCacheInfo().value.fields["data_hash"] == JStr(digest(JArr(data)))
      ensures forall s :: CheckCacheFreshness(Ok(s)) <==> digest(s) == digest(JArr(data))
      ensures InfoDisplayCompletes()
    {
      camerasFile := Holds(JArr(data));
      infoFile := Holds(CacheInfo(digest(JArr(data)), now));
      forall s
        ensures CheckCacheFreshness(Ok(s)) <==> digest(s) == digest(JArr(data))
      {
        FreshAfterSave(data, now, s, digest);
      }
    }

    /** `load_all_cameras`, given the outcome of the full `/cameras/` request and the clock. */
    method LoadAllCameras(fetched: Result<Json>, now: string)
      requires Valid()
      modifies this`camerasFile, this`infoFile, this`cameraData
      modifies this`makeOptions, this`makeText, this`typeOptions, this`typeText, this`filteredCameras, this`shownCameras, this`selectedCamera
      ensures Valid()
      ensures fetched.Err? ==> unchanged(this)
      ensures fetched.Ok? ==>
        && cameraData == ListOrEmpty(fetched.value)
        && camerasFile == Holds(JArr(cameraData))
        && infoFile == Holds(CacheInfo(digest(JArr(cameraData)), now))
        && Snapshot() == Repopulate(old(Snapshot()), cameraData, Lower(searchText))
    {
      if fetched.Ok? {
        StoreAndShow(ListOrEmpty(fetched.value), now);
      }
    }

    /** The step `load_all_cameras` and `update_cache` share: the list becomes `camera_data`,
        is saved with its info, and the filters and lists are repopulated from it. */
    method StoreAndShow(data: seq<Json>, now: string)
      requires Valid()
      modifies this`camerasFile, this`infoFile, this`cameraData
      modifies this`makeOptions, this`makeText, this`typeOptions, this`typeText, this`filteredCameras, this`shownCameras, this`selectedCamera
      ensures Valid()
      ensures cameraData == data
      ensures camerasFile == Holds(JArr(data)) && infoFile == Holds(CacheInfo(digest(JArr(data)), now))
      ensures Snapshot() == Repopulate(old(Snapshot()), data, Lower(searchText))
    {
      ghost var before := Snapshot();
      SaveToCache(data, now);
      cameraData := data;
      assert Snapshot() == before;
      var ignored := PopulateFiltersAndDisplay();
      assert Snapshot() == Repopulate(before, data, Lower(searchText));
    }

    /** `use_cached_data`: a cache that is missing, unparsable or falsy (an empty list) changes nothing.
        `ok` is false when it raised: in the repopulate, or afterwards in `cache_info.get`, which is
        outside any `try` and fails on a truthy info value that is not a dict. */
    method UseCachedData() returns (ok: bool)
      requires Valid()
      modifies this`cameraData
      modifies this`makeOptions, this`makeText, this`typeOptions, this`typeText, this`filteredCameras, this`shownCameras, this`selectedCamera
      ensures Valid()
      ensures !(old(LoadFromCache()).Some? && Truthy(old(LoadFromCache()).value)) ==> unchanged(this)
      ensures old(LoadFromCache()).Some? && Truthy(old(LoadFromCache()).value) ==>
        cameraData == ListOrEmpty(old(LoadFromCache()).value) && Snapshot() == Repopulate(old(Snapshot()), cameraData, Lower(searchText))
      ensures ok <==>
        || !(old(LoadFromCache()).Some? && Truthy(old(LoadFromCache()).value))
        || (PopulateSucceeds(cameraData, Lower(searchText)) && !InfoDisplayRaises(LoadCacheInfo(), true))
    {
      var cached := LoadFromCache();
      if cached.Some? && Truthy(cached.value) {
        cameraData := ListOrEmpty(cached.value);
        assert Snapshot() == old(Snapshot());
        ok := PopulateFiltersAndDisplay();
        if ok {
          var info := LoadCacheInfo();
          ok := !InfoDisplayRaises(info, true);
        }
      } else {
        ok := true;
      }
    }

    /** `update_cache`, given the outcomes of the sample and the full requests and the clock.
        An existing cache file that passes the freshness check stops it before the full request;
        `refreshed` says whether the cache was rewritten. */
    method UpdateCache(sample: Result<Json>, fetched: Result<Json>, now: string) returns (refreshed: bool)
      requires Valid()
      modifies this`camerasFile, this`infoFile, this`cameraData
      modifies this`makeOptions, this`makeText, this`typeOptions, this`typeText, this`filteredCameras, this`shownCameras, this`selectedCamera
      ensures Valid()
      ensures refreshed <==> !(old(camerasFile) != Missing && old(CheckCacheFreshness(sample))) && fetched.Ok?
      ensures !refreshed ==> unchanged(this)
      ensures refreshed ==>
        && cameraData == ListOrEmpty(fetched.value)
        && camerasFile == Holds(JArr(cameraData))
        && infoFile == Holds(CacheInfo(digest(JArr(cameraData)), now))
        && Snapshot() == Repopulate(old(Snapshot()), cameraData, Lower(searchText))
    {
      if camerasFile != Missing && CheckCacheFreshness(sample) {
        return false;
      }
      if fetched.Err? {
        return false;
      }
      StoreAndShow(ListOrEmpty(fetched.value), now);
      refreshed := true;
    }

    /** `clear_cache`: both files are removed and the lists emptied; the combos hold only their sentinels. */
    method ClearCache()
      requires Valid()
      modifies this`camerasFile, this`infoFile, this`cameraData
      modifies this`makeOptions, this`makeText, this`typeOptions, this`typeText, this`filteredCameras, this`shownCameras, this`selectedCamera
      ensures Valid()
      ensures camerasFile == Missing && infoFile == Missing
      ensures cameraData == [] && filteredCameras == [] && shownCameras == [] && selectedCamera == JNull
      ensures makeOptions == [AllMakes] && makeText == AllMakes
      ensures typeOptions == [AllTypes] && typeText == AllTypes
      ensures LoadFromCache() == None && LoadCacheInfo() == None
      ensures forall s :: !CheckCacheFreshness(s)
      ensures InfoDisplayCompletes()
    {
      camerasFile, infoFile := Missing, Missing;
      EmptyListsAndFilters();
      forall s
        ensures !CheckCacheFreshness(s)
      {
        NeverFreshWithoutInfo(infoFile, s, digest);
      }
    }

    /** The rest of `clear_cache`: both lists emptied, `camera_list.clear()` (which drops the
        selection), both `clear()` calls on the combos, then both sentinels. With no cameras
        the filter runs these signal return at once. */
    method EmptyListsAndFilters()
      modifies this`cameraData
      modifies this`makeOptions, this`makeText, this`typeOptions, this`typeText, this`filteredCameras, this`shownCameras, this`selectedCamera
      ensures cameraData == [] && filteredCameras == [] && shownCameras == [] && selectedCamera == JNull
      ensures makeOptions == [AllMakes] && makeText == AllMakes
      ensures typeOptions == [AllTypes] && typeText == AllTypes
    {
      cameraData, filteredCameras, shownCameras, selectedCamera := [], [], [], JNull;
      ghost var empty := Listing([], [], JNull);
      SetMakeText("");
      assert Listed() == empty;
      SetTypeText("");
      assert Listed() == empty;
      makeOptions := [AllMakes];
      SetMakeText(AllMakes);
      assert Listed() == empty;
      typeOptions := [AllTypes];
      SetTypeText(AllTypes);
      assert Listed() == empty;
    }

    /** `browse_cache_location`: `chosen` is the dialog's answer ('' when cancelled); the files
        there are whatever that directory already holds, nothing is moved. `ok` is false when
        the final `_update_cache_info_display` raises, after the paths have changed. */
    method BrowseCacheLocation(chosen: string, camerasThere: StoredFile, infoThere: StoredFile) returns (ok: bool)
      requires Valid()
      modifies this`cacheDir, this`camerasCachePath, this`cacheInfoPath, this`camerasFile, this`infoFile
      ensures Valid()
      ensures chosen == "" ==> unchanged(this)
      ensures chosen != "" ==>
        && cacheDir == [chosen, "CamDB"]
        && camerasCachePath == [chosen, "CamDB", CamerasFileName]
        && cacheInfoPath == [chosen, "CamDB", InfoFileName]
        && camerasFile == camerasThere && infoFile == infoThere
      ensures ok <==> chosen == "" || !InfoDisplayRaises(Load(infoThere), camerasThere != Missing)
    {
      if chosen != "" {
        cacheDir := [chosen] + ["CamDB"];
        camerasCachePath := cacheDir + [CamerasFileName];
        cacheInfoPath := cacheDir + [InfoFileName];
        camerasFile, infoFile := camerasThere, infoThere;
        // `_update_cache_info_display` on the new files; a raise there loses only the status text
        ok := InfoDisplayCompletes();
      } else {
        ok := true;
      }
    }

    /** `on_camera_selected`: the list's current item, if any, supplies the camera. */
    method SelectCamera(current: Option<Json>)
      requires current.Some? ==> current.value in shownCameras
      modifies this`selectedCamera
      ensures selectedCamera == if current.Some? then current.value else JNull
    {
      selectedCamera := if current.Some? then current.value else JNull;
    }

    /** The selected camera has a truthy `id`, so `load_sensor_data` sends its request. */
    predicate HasCameraId()
      reads this
    {
      Truthy(selectedCamera) && selectedCamera.JObj? &&
      "id" in selectedCamera.fields && Truthy(selectedCamera.fields["id"])
    }

    /** `load_sensor_data`, given the outcome of the sensors request: a successful response
        is normalised into `sensor_data`; anything else leaves it unchanged. */
    method LoadSensorData(response: Result<Json>) returns (requested: bool)
      modifies this`sensorData
      ensures requested <==> HasCameraId()
      ensures requested && response.Ok? ==> sensorData == Normalise(response.value)
      ensures !(requested && response.Ok?) ==> sensorData == old(sensorData)
    {
      if !Truthy(selectedCamera) {
        return false;
      }
      // `.get('id')` raises before the try block on anything but a dict
      if !selectedCamera.JObj? {
        return false;
      }
      var id := Get(selectedCamera.fields, "id");
      if !(id.Some? && Truthy(id.value)) {
        return false;
      }
      requested := true;
      if response.Ok? {
        sensorData := Normalise(response.value);
      }
    }

    /** The node name `create_houdini_camera` uses, or `None` when it stops before creating a
        node: no camera selected, no sensor selected, or a selected camera without `.get`. */
    function NodeNameToCreate(sensorSelected: bool, repr: Json -> string): (r: Option<string>)
      reads this
      ensures r.Some? <==> Truthy(selectedCamera) && sensorSelected && selectedCamera.JObj?
      ensures r.Some? ==> r.value == CameraNodeName(selectedCamera.fields, repr)
      ensures r.Some? ==> ' ' !in r.value && '-' !in r.value
    {
      if !Truthy(selectedCamera) || !sensorSelected || !selectedCamera.JObj? then None
      else
        Some(CameraNodeName(selectedCamera.fields, repr))
    }
  }
}
