/** The make and type combo contents that `_populate_filters_and_display` builds:
    the "All ..." sentinel followed by the distinct truthy values, sorted. */
module FilterOptions {
  import opened JsonValue
  import opened Ordering

  /** The truthy values of `key` across the dict cameras: what the loop adds to its set. */
  ghost function FieldValues(cams: seq<Json>, key: string): (r: set<Json>)
    ensures forall v :: v in r ==> Truthy(v) && exists c :: c in cams && c.JObj? && key in c.fields && c.fields[key] == v
    ensures forall c :: c in cams && c.JObj? && key in c.fields && Truthy(c.fields[key]) ==> c.fields[key] in r
  {
    set c | c in cams && c.JObj? && key in c.fields && Truthy(c.fields[key]) :: c.fields[key]
  }

  /** `camera.get(key)` is truthy and cannot go into a set. */
  predicate UnhashableField(c: Json, key: string)
    requires c.JObj?
  {
    key in c.fields && Truthy(c.fields[key]) && !Hashable(c.fields[key])
  }

  /** The collecting loop raises on this camera: it is not a dict, or its make or type is unhashable. */
  predicate RaisesInScan(c: Json) {
    !c.JObj? || UnhashableField(c, "make") || UnhashableField(c, "cam_type")
  }

  ghost predicate ScanRaises(cams: seq<Json>) {
    exists j :: 0 <= j < |cams| && RaisesInScan(cams[j])
  }

  /** A scan that does not raise has put only hashable values into either set. */
  lemma ScanOkHashable(cams: seq<Json>)
    requires !ScanRaises(cams)
    ensures forall v :: v in FieldValues(cams, "make") ==> Hashable(v)
    ensures forall v :: v in FieldValues(cams, "cam_type") ==> Hashable(v)
  {
  }

  /** Every collected value is a string, so `sorted` and `addItem` succeed. */
  predicate AllStrings(values: set<Json>) {
    forall v | v in values :: v.JStr?
  }

  function Strings(values: set<Json>): (r: set<string>)
    ensures forall x :: x in r <==> JStr(x) in values
  {
    set v | v in values && v.JStr? :: v.s
  }

  /** The combo contents: the sentinel, then the sorted values. */
  function OptionsList(sentinel: string, values: set<Json>): (r: seq<string>)
    ensures |r| >= 1 && r[0] == sentinel
    ensures StrictlySorted(r[1..])
    ensures forall x :: x in r[1..] <==> JStr(x) in values
    ensures |r| == 1 + |Strings(values)|
  {
    [sentinel] + SortedOf(Strings(values))
  }

  /** The combo starts with its sentinel and lists, once each and ascending, exactly the
      truthy string values of the field. A falsy value such as '' is never listed. */
  lemma OptionsListed(sentinel: string, cams: seq<Json>, key: string)
    ensures OptionsList(sentinel, FieldValues(cams, key))[0] == sentinel
    ensures StrictlySorted(OptionsList(sentinel, FieldValues(cams, key))[1..])
    ensures forall x :: x in OptionsList(sentinel, FieldValues(cams, key))[1..] <==>
      exists c :: c in cams && c.JObj? && key in c.fields && c.fields[key] == JStr(x) && x != ""
    ensures "" !in OptionsList(sentinel, FieldValues(cams, key))[1..]
  {
    var vals := FieldValues(cams, key);
    assert OptionsList(sentinel, vals)[1..] == SortedOf(Strings(vals));
    forall x
      ensures x in SortedOf(Strings(vals)) <==>
        exists c :: c in cams && c.JObj? && key in c.fields && c.fields[key] == JStr(x) && x != ""
    {
      if x in SortedOf(Strings(vals)) {
        assert JStr(x) in vals;
        var c :| c in cams && c.JObj? && key in c.fields && Truthy(c.fields[key]) && c.fields[key] == JStr(x);
      }
      if exists c :: c in cams && c.JObj? && key in c.fields && c.fields[key] == JStr(x) && x != "" {
        var c :| c in cams && c.JObj? && key in c.fields && c.fields[key] == JStr(x) && x != "";
        assert JStr(x) in vals;
      }
    }
  }

  /** Adding one camera adds at most its own field value to the collected set. */
  lemma FieldValuesAppend(cams: seq<Json>, c: Json, key: string)
    ensures FieldValues(cams + [c], key) ==
      FieldValues(cams, key) + (if c.JObj? && key in c.fields && Truthy(c.fields[key]) then {c.fields[key]} else {})
  {
    assert forall d :: d in cams + [c] <==> d in cams || d == c;
  }

  /** The same step stated on prefixes, as the collecting loop meets the cameras. */
  lemma FieldValuesPrefix(cams: seq<Json>, i: nat, key: string)
    requires i < |cams|
    ensures FieldValues(cams[..i + 1], key) == FieldValues(cams[..i], key) +
      (if cams[i].JObj? && key in cams[i].fields && Truthy(cams[i].fields[key]) then {cams[i].fields[key]} else {})
  {
    assert cams[..i + 1] == cams[..i] + [cams[i]];
    FieldValuesAppend(cams[..i], cams[i], key);
  }
}
