# CamDB panel core, modelled in Dafny

CamDB is a camera browser panel for Houdini. It fetches the CamDB camera list over HTTP,
caches it in two JSON files (the camera list and a metadata file holding a timestamp and
a content hash), lets the user narrow the list by make, type and name, loads the sensor
modes of a camera, and creates a Houdini camera node named after the selected camera.

This project models the panel's logic without its widgets. It covers the
`CamDBPanel` class in `camDB.py`:

- **JSON values** (`json.dfy`). Python truthiness, `dict.get`, and the
  "list or else `[]`" normalisation of responses.
- **Camera filtering** (`filtering.dfy`, `CamDBPanel.FilterCameras`). Each loop iteration
  gets a verdict: keep, `continue`, or raise. A camera that is not a dict raises once a
  filter calls `.get` on it. A `name` that is not a string raises at `.lower()`. The loop
  stops at the first raise, and `filtered_cameras` keeps what it had gathered by then.
- **Camera list widget.** The model records which camera each item carries. After the
  filtering loop, the widget is cleared and refilled from `filtered_cameras`. That loop calls
  `.get` too, so it raises at the first kept camera that is not a dict. This can happen
  under both wildcards, because no filter then calls `.get`. A raise in the filtering loop
  leaves the widget as it was. Clearing the widget drops its current item, so Qt emits
  `currentItemChanged` with no current item, and `on_camera_selected` sets `selected_camera`
  to `None`. Adding items does not make one current, so after any re-filter that reaches the
  widget nothing is selected. `clear_cache` clears the widget directly, with the same effect.
- **Filter options** (`filter_options.dfy`, `ordering.dfy`). These are the distinct truthy
  `make` and `cam_type` values. `sorted()` is modelled with Python's code-point order on
  strings. Each combo starts with its "All …" sentinel.
- **Qt signal wiring.** Changing a combo's text or the search text runs `filter_cameras`
  (`SetMakeText`, `SetTypeText`, `EditSearch`). So the intermediate text changes inside
  `_populate_filters_and_display` and `clear_cache` also re-filter. A combo's `clear()`
  changes its text to `''` and its first `addItem` changes it to the sentinel. The camera
  list's `currentItemChanged` runs `on_camera_selected` (`SelectCamera`). Only a raise
  in the filtering loop leaves the widget and the selection as the run before it left them.
  A raise in the display loop comes after `camera_list.clear()`, so it leaves a cleared,
  partly refilled widget and no selection. The model composes these runs (`Panel.Reset`,
  `Panel.Repopulate`).
- **Sensor response shapes** (`sensors.dfy`). The order is `sensors`, then `data`, then
  `results`, then a lone dict, then a list, then anything else.
- **Camera node name** (`node_name.dfy`). This is `make_name` with spaces and hyphens
  replaced by `_`.
- **Default cache directory** (`cache_dir.dfy`), per OS.
- **Cache store and freshness** (`cache_store.dfy`, `panel.dfy`). Each file is `Missing`,
  `Unreadable` or `Holds(json)`. `save` writes both files. `load` gives `None` for a missing
  or unparsable file. `clear_cache` removes both files. `update_cache` skips the full
  fetch when the cache file exists and the check says it is fresh.

These are parameters of the model: the HTTP responses (`Result<Json>`), the clock (`now`),
the directory dialog's answer, the files already on disk at start-up, the MD5 digest,
the `repr` text of a list or dict inside the node name's f-string (`NodeName.PyStr`), and
whether a sensor is selected when the node name is built (`sensorSelected` of
`NodeNameToCreate`).
The digest is a constant `digest: Json -> string` of the panel. The only fact assumed
about it is that each digest is 32 characters long.

The freshness check hashes the `limit=1` sample response. It compares that hash with the
hash stored by the last save, which was taken over the whole list. This is modelled as
written. `FreshAfterSave` states it: right after a save, the cache is fresh exactly when the
sample's digest equals the whole list's digest. `FreshOnlyIfSampleIsWholeList` adds that,
unless the digest collides on the sample and the saved list, this needs the sample response
to be the entire saved list.

When `update_cache` / `load_all_cameras` get a response that is not a list, `camera_data`
becomes `[]`. `filter_cameras` then returns early, so `filtered_cameras` keeps its earlier
contents, and so does the camera list widget. The model keeps this behaviour.

## Model

| member | source | states |
|---|---|---|
| JsonValue.Truthy | camDB.py:597-603 | a value is falsy exactly when it is `None`, `False`, `0`, `''`, `[]` or `{}` |
| JsonValue.Hashable | camDB.py:518-520 | only lists and dicts are unhashable, so only they make `set.add` raise |
| JsonValue.Get | camDB.py:601-602 | `d.get(key)` gives a value exactly when the key is present, and then the value stored under it |
| JsonValue.GetOr | camDB.py:362 | `d.get(key, default)` gives the stored value when the key is present and the default otherwise |
| JsonValue.ListOrEmpty | camDB.py:419-421 | a list response is kept as is; any other response becomes `[]` |
| Text.LowerChar | camDB.py:544 | an ASCII capital letter maps to its lower-case letter; every other character is unchanged |
| Text.Lower | camDB.py:558 | lower-casing keeps the length and maps each character on its own |
| Text.Contains | camDB.py:558 | `p in s` holds exactly when `p` occurs at some index of `s` |
| Text.ReplaceChar | camDB.py:722 | `str.replace` of one character keeps the length and changes exactly the positions that held it, each to the new character |
| Text.ReplaceCharConcat | camDB.py:722 | replacing a character distributes over concatenation |
| Ordering.Before | camDB.py:525 | string `<`: `a` is a proper prefix of `b`, or at the first position where they differ `a` has the smaller code point |
| Ordering.BeforeIrreflexive | camDB.py:525 | no string sorts before itself |
| Ordering.BeforeAsymmetric | camDB.py:525 | two strings are never each before the other |
| Ordering.BeforeTransitive | camDB.py:525 | string order is transitive |
| Ordering.BeforeTotal | camDB.py:525 | two different strings are always ordered one way or the other |
| Ordering.LeastExists | camDB.py:525 | every non-empty set of strings has a least element |
| Ordering.LeastUnique | camDB.py:525 | the least element is unique |
| Ordering.SortedOf | camDB.py:525 | `sorted(set)` is strictly ascending, holds exactly the set's elements and has the set's size |
| Ordering.SortedUnique | camDB.py:531 | two strictly sorted lists with the same elements are equal, so the sorted order of a set is unique |
| CameraFilter.Judge | camDB.py:548-559 | a camera is kept exactly when the make matches (or "All Makes"), the type matches (or "All Types"), and the lower-cased name (missing counts as '') contains the search text (or the search is empty); a dict with a string name never raises; a non-dict raises exactly when some filter is in use |
| CameraFilter.Matching | camDB.py:546-561 | the loop's kept cameras, ignoring raises, are never more than the input |
| CameraFilter.FirstRaise | camDB.py:548-559 | gives the index of the first camera the loop raises on (or the length): no camera before it raises, the camera there does, and it is the length exactly when no camera raises |
| CameraFilter.MatchingAppend | camDB.py:561 | one more camera adds itself at the end exactly when it is kept |
| CameraFilter.MatchingIsSubsequence | camDB.py:546-561 | the kept cameras are a subsequence of `camera_data`, in their original order |
| CameraFilter.MatchingMembers | camDB.py:546-561 | a camera is kept exactly when it is in `camera_data` and passes the filters |
| CameraFilter.WildcardsKeepAll | camDB.py:550-561 | with "All Makes", "All Types" and an empty search, the result equals `camera_data` |
| CameraFilter.WildcardsKeepAllFrom | camDB.py:550-561 | with both wildcards and an empty search no camera raises and every camera is kept |
| CameraFilter.Filtering | camDB.py:546-561 | `filtered_cameras` once the loop stops holds at most the cameras before the first raise; when no camera raises it is the plain filter of all of them |
| CameraFilter.SubsequenceOfPrefix | camDB.py:546-559 | a subsequence of a prefix is a subsequence of the whole list |
| CameraFilter.FilteringIsSubsequence | camDB.py:546-561 | even after a raise, the kept cameras are an ordered subsequence of `camera_data` and all of them passed the filters |
| CameraFilter.FirstNonDict | camDB.py:564-566 | gives the index of the first filtered camera without `.get` (or the length): every camera before it is a dict, the one there is not |
| CameraFilter.Shown | camDB.py:564-571 | the camera list widget ends up with a prefix of the filtered list, all dicts, and the whole list exactly when every filtered camera is a dict |
| FilterOptions.FieldValues | camDB.py:513-520 | the collected set holds only truthy values, each the field of some dict camera, and every truthy field value of a dict camera is in it |
| FilterOptions.UnhashableField | camDB.py:517-520 | a dict camera's field makes `set.add` raise exactly when it is present, truthy and a list or dict |
| FilterOptions.RaisesInScan | camDB.py:516-520 | the collecting loop raises on a camera exactly when it is not a dict (no `.get`) or its make or type is unhashable |
| FilterOptions.ScanOkHashable | camDB.py:516-520 | a collecting loop that does not raise has put only hashable values into both sets |
| FilterOptions.Strings | camDB.py:525-526 | the string values of a set, exactly |
| FilterOptions.OptionsList | camDB.py:522-532 | a combo's items: its sentinel, then the string values strictly ascending, each once, and nothing else |
| FilterOptions.OptionsListed | camDB.py:513-532 | each combo starts with its sentinel, then lists exactly the truthy string values of the field, once each and ascending; '' is never listed |
| FilterOptions.FieldValuesAppend | camDB.py:516-520 | one more camera adds at most its own truthy field value to the collected set |
| Sensors.Normalise | camDB.py:619-633 | a dict with a wrapping key gives the value under the first such key; any other dict gives the list holding it; a non-dict gives the list-or-empty of the response |
| Sensors.WrapperKey | camDB.py:621-626 | the wrapping key chosen is a key of the dict; there is none exactly when the dict has no `sensors`, `data` or `results` |
| Sensors.KeyPrecedence | camDB.py:619-626 | `sensors` wins over `data`, which wins over `results`, whatever else the dict holds |
| Sensors.ShapesAgree | camDB.py:619-631 | a bare list and one wrapped under any of the three keys give the same list; a lone sensor dict gives the list holding it |
| Sensors.ResultIsList | camDB.py:619-633 | the result is a list unless a wrapping key holds a non-list; anything that is neither a dict nor a list gives `[]` |
| NodeName.PyStr | camDB.py:721 | `str()` inside the f-string: a string is itself, `None` prints `None`, a boolean `True`/`False`, a non-negative number its decimal numeral, and a negative one '-' followed by the numeral of its magnitude |
| NodeName.NatToString | camDB.py:721 | `str(n)` of a natural number is its decimal numeral: digits only, spelling n, with no leading zero |
| NodeName.NumeralUnique | camDB.py:721 | a natural number has exactly one decimal numeral, and it is the one `str` gives |
| NodeName.Sanitise | camDB.py:722 | the two replaces keep the length, turn each space and hyphen into '_', leave every other character, and leave no space or hyphen |
| NodeName.RawNodeName | camDB.py:721 | make text, '_', name text: the underscore sits right after the make text and the lengths add up |
| NodeName.CameraNodeName | camDB.py:721-722 | the node name is as long as the raw name, has '_' wherever the raw name has a space or hyphen, agrees with it everywhere else, and holds neither |
| NodeName.SanitiseIdempotent | camDB.py:722 | sanitising twice gives the same result as sanitising once |
| NodeName.SanitiseConcat | camDB.py:722 | sanitising distributes over concatenation |
| NodeName.SanitiseKeeps | camDB.py:722 | a name without spaces or hyphens is unchanged |
| NodeName.NodeNameShape | camDB.py:721-722 | for string fields the node name is sanitised make + '_' + sanitised name, its length is len(make)+1+len(name), and it holds no space or hyphen |
| NodeName.DefaultNodeName | camDB.py:721 | a camera with neither field is named `Unknown_Camera` |
| CacheDir.DefaultCacheDir | camDB.py:62-83 | every branch ends in the segment `CamDB` |
| CacheDir.UnderHomeUnlessOverridden | camDB.py:66-81 | without `APPDATA` (Windows) or `XDG_DATA_HOME` (other Unix), and always on macOS, the directory lies under home; with the variable set it is that value / CamDB and does not depend on home |
| CacheDir.DefaultSegments | camDB.py:66-81 | the segments under home: `CamDB` on Windows, `Library/Application Support/CamDB` on macOS, `.local/share/CamDB` elsewhere |
| CacheStore.CacheInfo | camDB.py:262-269 | the metadata is a dict with exactly the keys timestamp, data_hash, api_url and cache_version, holding the given timestamp and hash, the API base URL and version "1.0" |
| CacheStore.InfoDisplayRaises | camDB.py:287-292 | `_update_cache_info_display` raises exactly when the camera file exists and the loaded info is truthy but not a dict, since `.get` at line 292 is outside the `try` |
| CacheStore.InfoDisplayRaisesOnFile | camDB.py:287-292 | on a stored info file: the display raises exactly when the camera file exists and the info file parses to a truthy non-dict |
| CacheStore.Load | camDB.py:343-351 | loading gives a value exactly when the file exists and parses, and that value is the file's content |
| CacheStore.IsFresh | camDB.py:353-368 | a failed sample fetch or a missing info document gives false; true only for a dict info whose `data_hash` (default '') equals the sample's digest |
| CacheStore.FreshIff | camDB.py:353-368 | fresh exactly when the sample fetch succeeded, the info file loaded as a dict, and its `data_hash` equals the sample's digest; any failure gives false |
| CacheStore.FreshAfterSave | camDB.py:332-334 | right after a save, fresh exactly when the sample's digest equals the digest of the whole saved list |
| CacheStore.FreshOnlyIfSampleIsWholeList | camDB.py:357-363 | when the digest does not collide on the sample and the saved list, a fresh verdict after a save needs the sample response to be the whole saved list |
| CacheStore.NeverFreshWithoutInfo | camDB.py:360-368 | with the info file missing or unparsable the check gives false |
| Panel.AfterFilter | camDB.py:537-571 | with no cameras nothing changes; otherwise `filtered_cameras` is the cameras kept before the first raise; when the filtering loop raised the widget and the selection are left alone, and otherwise the widget is cleared, which drops `selected_camera` to `None`, and refilled with the kept cameras up to the first one that is not a dict |
| Panel.ShownAfterFilter | camDB.py:563-571 | after a filtering loop that did not raise, the widget holds a prefix of the filtered list, and all of it exactly when `filter_cameras` completes |
| Panel.NonDictKeptButNotShown | camDB.py:546-571 | on `[1]` with both wildcards and no search, the camera is kept, the widget stays empty, and `filter_cameras` raises |
| Panel.Reset | camDB.py:522-524 | a combo's `clear()` and sentinel `addItem` leave the same filtered list as one filter run with the sentinel, and no selection once that run gets past its filtering loop; with no cameras nothing changes |
| Panel.MakeReset | camDB.py:523-526 | the make combo rebuilt from a value set: text "All Makes", items the sentinel plus the sorted values or only the sentinel when a value is not a string, the type combo untouched, and the filtered list that of a run with "All Makes" (unchanged with no cameras) |
| Panel.TypeReset | camDB.py:529-532 | the same for the type combo, with the make combo untouched |
| Panel.CombosRebuilt | camDB.py:522-532 | the make combo rebuilt; the type combo rebuilt only when every make is a string, and otherwise left as it was |
| Panel.Rebuilt | camDB.py:522-535 | after the collecting loop: the make text is "All Makes", and when both value sets are strings both combos hold the sentinel plus their sorted values and the type text is "All Types" |
| Panel.Repopulate | camDB.py:510-535 | a raising collecting loop changes nothing; with string values both combos hold the sentinel plus the sorted field values of the cameras, with the sentinel texts |
| Panel.RepopulateCombos | camDB.py:510-532 | after a populate with string values, each combo is its sentinel followed, strictly ascending, by exactly the distinct non-empty string values of its field across the cameras |
| Panel.RepopulateListing | camDB.py:510-571 | a populate that completes on at least one camera leaves the filtered list and the widget both holding exactly the cameras the wildcards and the search keep, with nothing selected |
| Panel.ScanOkOnlyDicts | camDB.py:516-520 | a collecting loop that did not raise saw only dict cameras |
| Panel.PopulatedListsAll | camDB.py:510-535 | with an empty search and hashable string makes and types, repopulating completes, the filtered list and the widget both hold every camera, and nothing is selected |
| Panel.CamDBPanel.constructor | camDB.py:46-60 | empty camera, filtered, widget and sensor lists; the default cache directory and its two file paths; combos holding only their sentinels |
| Panel.CamDBPanel.Open | camDB.py:26-44 | `__init__` builds no panel exactly when the camera file exists and the info file parses to a truthy value that is not a dict; otherwise the panel starts as the constructor sets it up (the given digest, the default directory, the files on disk, empty lists, no selection, empty sensor data, sentinel-only combos and texts, an empty search), and its info display completes |
| Panel.CamDBPanel.LoadCachedData | camDB.py:287-321 | `_load_cached_data` raises exactly when the camera file exists and the info file holds a truthy non-dict, because `.get` on it is outside any `try` |
| Panel.CamDBPanel.InfoDisplayCompletes | camDB.py:287-292 | the panel-level form: `_update_cache_info_display` runs to its end on the panel's current files |
| Panel.CamDBPanel.LoadFromCache | camDB.py:343-351 | the camera cache loads exactly when its file exists and parses, giving the file's content |
| Panel.CamDBPanel.LoadCacheInfo | camDB.py:277-285 | the same for the metadata file |
| Panel.CamDBPanel.CheckCacheFreshness | camDB.py:353-368 | the panel's freshness check is true exactly when the stored info dict's `data_hash` equals the sample's digest |
| Panel.CamDBPanel.FilterCameras | camDB.py:537-571 | `filtered_cameras`, the widget and the selection become `AfterFilter` of their old values, so the selection is `None` once the filtering loop gets through; `ok` exactly when neither loop raised, and then, when `camera_data` is not empty, both lists hold exactly the kept cameras |
| Panel.CamDBPanel.KeepMatching | camDB.py:546-561 | the filtering loop leaves the cameras kept before the first raise, and raises exactly when some camera makes it raise |
| Panel.CamDBPanel.RefillCameraList | camDB.py:563-571 | `camera_list.clear()` drops the selection to `None`; the display loop leaves the widget holding `Shown` of the filtered list, and completes exactly when every filtered camera is a dict |
| Panel.CamDBPanel.SetMakeText | camDB.py:243 | a change of the make combo's text re-runs the filter, with its effect on the lists and the selection as `AfterFilter` states; setting the same text, or any text with no cameras, changes neither |
| Panel.CamDBPanel.SetTypeText | camDB.py:244 | the same for the type combo |
| Panel.CamDBPanel.ChooseMake | camDB.py:243 | picking a listed make sets the text and, when it changed, re-filters, with the lists and the selection as `AfterFilter` states |
| Panel.CamDBPanel.ChooseType | camDB.py:244 | the same for a listed type |
| Panel.CamDBPanel.EditSearch | camDB.py:245 | editing the search text re-filters when it changed, with the lists and the selection as `AfterFilter` states |
| Panel.CamDBPanel.CollectFilterValues | camDB.py:513-520 | raises exactly when some camera is not a dict or has an unhashable truthy make or type; otherwise gives the sets of truthy make and type values |
| FilterOptions.FieldValuesPrefix | camDB.py:516-520 | the set collected over one more camera of the list is the earlier set plus at most that camera's truthy field value |
| Panel.CamDBPanel.RebuildMakeCombo | camDB.py:523-526 | the combo becomes the sentinel plus the sorted makes, or only the sentinel when a non-string make makes it raise; its text is "All Makes"; the lists and the selection are what the two signalled filter runs (text '' then "All Makes") leave, as `Reset` and `MakeReset` state |
| Panel.CamDBPanel.RebuildTypeCombo | camDB.py:529-532 | the same for types and "All Types", as `Reset` and `TypeReset` state |
| Panel.CamDBPanel.ResetMakeCombo | camDB.py:523-524 | `clear()` and the sentinel's `addItem` leave only the sentinel as item and text, and the lists and selection as the two signalled filter runs leave them (`Reset`) |
| Panel.CamDBPanel.ResetTypeCombo | camDB.py:529-530 | the same for the type combo |
| Panel.CamDBPanel.PopulateFiltersAndDisplay | camDB.py:510-535 | the combos, the lists and the selection become `Repopulate` of their old state: unchanged when the collecting loop raises, else each combo rebuilt in turn, stopping at a non-string value, and a final filter; `ok` exactly when nothing raised, and then, when `camera_data` is not empty, the lists hold exactly the cameras the wildcards and search keep |
| Panel.CamDBPanel.RebuildAndFilter | camDB.py:522-535 | after the collecting loop: both combo rebuilds and the final filter, with the lists and the selection as `Rebuilt` states; `ok` exactly when both value sets are strings and the final filter completes |
| Panel.CamDBPanel.RebuildCombos | camDB.py:522-532 | the make combo's rebuild, then the type combo's unless the first raised, as `CombosRebuilt` states; `ok` exactly when both value sets are strings, and then both texts are the sentinels |
| Panel.CamDBPanel.SaveToCache | camDB.py:324-334 | both files are written; loading the camera file gives back the list, and the info's `data_hash` is the list's digest; freshness then compares against that digest; the cache info display that follows cannot raise |
| Panel.CamDBPanel.StoreAndShow | camDB.py:424-428 | the list becomes `camera_data`, both files hold it and its info, and the combos, lists and selection are `Repopulate` of their old state |
| Panel.CamDBPanel.LoadAllCameras | camDB.py:486-500 | a failed request changes nothing; otherwise the list-normalised response becomes `camera_data`, is saved, and the combos, lists and selection are repopulated |
| Panel.CamDBPanel.UseCachedData | camDB.py:393-405 | a missing, unparsable or falsy cache changes nothing; otherwise the list-normalised cache becomes `camera_data` and the combos, lists and selection are repopulated; `ok` is false exactly when the repopulate raises or, after it, `cache_info.get` at line 402 meets a truthy non-dict info |
| Panel.CamDBPanel.UpdateCache | camDB.py:407-430 | when the camera file exists and the check says fresh, or the full fetch fails, nothing changes; otherwise the normalised list is saved, becomes `camera_data`, and the combos, lists and selection are repopulated |
| Panel.CamDBPanel.ClearCache | camDB.py:435-449 | both files are gone, the camera list, filtered list and widget are empty, nothing is selected, the combos hold only their sentinels, and nothing is fresh; the cache info display that follows cannot raise |
| Panel.CamDBPanel.EmptyListsAndFilters | camDB.py:442-449 | both lists and the widget are emptied, `camera_list.clear()` leaves no selection, and each combo holds only its sentinel, as item and text |
| Panel.CamDBPanel.BrowseCacheLocation | camDB.py:370-391 | a cancelled dialog changes nothing; otherwise the cache directory becomes chosen/CamDB, both paths follow it, and the files are whatever is there (nothing is migrated); `ok` is false exactly when the final info display raises on the new files, after the paths have changed |
| Panel.CamDBPanel.SelectCamera | camDB.py:573-594 | a current item, which is one of the widget's cameras, selects its camera; no current item selects none |
| Panel.CamDBPanel.LoadSensorData | camDB.py:596-633 | a request is made exactly when the selected camera is a truthy dict with a truthy `id`; a successful response is normalised into `sensor_data`, and otherwise `sensor_data` is unchanged |
| Panel.CamDBPanel.NodeNameToCreate | camDB.py:705-722 | a name is produced exactly when a truthy dict camera and a sensor are selected; it is `CameraNodeName` of the camera and holds no space or hyphen |

## Left out

- Qt widgets, layouts and labels are not modelled, apart from the camera list widget's items and current item (see above). This includes the status messages, the camera info text, the enabled state of the buttons, the sensor list widget and `on_sensor_selected`. They only display state. Of `_update_cache_info_display`, `_load_cached_data` and the timestamp lookup in `use_cached_data` only whether they raise is modelled (`InfoDisplayRaises`, `LoadCachedData`, the `ok` of `UseCachedData`); their label texts are not.
- Houdini node creation, parameters, comment and viewport are not modelled. They are calls into the host application. Only the node name is modelled.
- HTTP requests, headers and gzip/deflate/charset decoding in `api_request` are not modelled. They are network I/O. Each request is a `Result<Json>` parameter.
- MD5 and `json.dumps(sort_keys=True)` are not modelled. The digest is the panel's `digest` function.
- File reads and writes, `mkdir`, and write or unlink failures are not modelled. Only each file's state (`Missing`, `Unreadable`, `Holds`) is kept. JSON serialisation is assumed to round-trip.
- JSON numbers are integers. Floats are not modelled, and neither are the aperture conversion, the aspect parse or the KB size display.
- Datetime parsing and formatting are not modelled. The save timestamp is the `now` parameter.
- `show_camdb_floating` and the module-level window reference are not modelled. They are lifecycle glue.
- Text.Lower: only A–Z are mapped. Python's `str.lower()` also maps non-ASCII letters, sometimes to several characters.
- NodeName.NodeNameShape: only string `make`/`name` values are described. `str()` of `None`, booleans and integers is modelled exactly. Lists and dicts are printed by a `repr` parameter.
- Panel.CamDBPanel.RebuildMakeCombo and Panel.CamDBPanel.RebuildTypeCombo: assume that `addItem` with a non-string raises `TypeError`, as mixed-type `sorted` does. The model then leaves that combo holding only its sentinel.
- Panel.CamDBPanel.BrowseCacheLocation: the chosen directory is kept as one path segment. Paths are not parsed into components.
- CacheDir.DefaultCacheDir: the value of `APPDATA` or `XDG_DATA_HOME` is kept as one path segment. It is not split at separators.
- Panel.CamDBPanel.RefillCameraList: records which camera each widget item carries, not the item's `make - name` text.
- Python's `1 == True` is not modelled, so a set holding both keeps two elements here. This only matters when a collected make or type is not a string, and then the combo rebuild raises anyway.
