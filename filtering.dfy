/** `filter_cameras`: which cameras pass the make, type and name filters, and
    where the Python loop stops when a camera makes it raise. */
module CameraFilter {
  import opened Wrappers
  import opened JsonValue
  import opened Text

  const AllMakes := "All Makes"
  const AllTypes := "All Types"

  /** The three filter inputs: the make and type combo texts and the lower-cased search text. */
  datatype Criteria = Criteria(make: string, camType: string, search: string)

  /** What one iteration of the loop does with a camera: append it, `continue`, or raise. */
  datatype Step = Keep | Skip | Raise

  /** `camera.get('name', '')` of a dict. */
  function NameOf(fields: map<string, Json>): Json {
    GetOr(fields, "name", JStr(""))
  }

  /** The make filter, stated on its own: a wildcard, or a `make` field equal to the selected make. */
  ghost predicate MakeMatches(c: Json, make: string) {
    make == AllMakes || (c.JObj? && "make" in c.fields && c.fields["make"] == JStr(make))
  }

  ghost predicate TypeMatches(c: Json, camType: string) {
    camType == AllTypes || (c.JObj? && "cam_type" in c.fields && c.fields["cam_type"] == JStr(camType))
  }

  /** The name filter: an empty search, or a name (missing counts as '') whose lower case contains it. */
  ghost predicate NameMatches(c: Json, search: string) {
    search == "" || (c.JObj? && NameOf(c.fields).JStr? && Contains(Lower(NameOf(c.fields).s), search))
  }

  /** The loop body for one camera. Only a dict has `.get`; only a string has `.lower()`.
      A camera is kept exactly when it passes all three filters; a dict whose name is a
      string never raises; a non-dict raises exactly when some filter is in use. */
  function Judge(c: Json, k: Criteria): (r: Step)
    ensures r == Keep <==> MakeMatches(c, k.make) && TypeMatches(c, k.camType) && NameMatches(c, k.search)
    ensures c.JObj? && (k.search == "" || NameOf(c.fields).JStr?) ==> r != Raise
    ensures !c.JObj? ==> (r == Raise <==> k.make != AllMakes || k.camType != AllTypes || k.search != "")
  {
    if k.make != AllMakes && !c.JObj? then Raise
    else if k.make != AllMakes && Get(c.fields, "make") != Some(JStr(k.make)) then Skip
    else if k.camType != AllTypes && !c.JObj? then Raise
    else if k.camType != AllTypes && Get(c.fields, "cam_type") != Some(JStr(k.camType)) then Skip
    else if k.search != "" && !c.JObj? then Raise
    else if k.search != "" && !NameOf(c.fields).JStr? then Raise
    else if k.search != "" && !Contains(Lower(NameOf(c.fields).s), k.search) then Skip
    else Keep
  }

  /** The cameras of `cams` the loop appends, in their original order, ignoring raises. */
  function Matching(cams: seq<Json>, k: Criteria): (r: seq<Json>)
    ensures |r| <= |cams|
  {
    if cams == [] then []
    else (if Judge(cams[0], k) == Keep then [cams[0]] else []) + Matching(cams[1..], k)
  }

  /** The index of the first camera that makes the loop raise, or `|cams|` when none does. */
  function FirstRaise(cams: seq<Json>, k: Criteria): (r: nat)
    ensures r <= |cams|
    ensures forall j :: 0 <= j < r ==> Judge(cams[j], k) != Raise
    ensures r < |cams| ==> Judge(cams[r], k) == Raise
    ensures r == |cams| <==> RaiseFree(cams, k)
  {
    if cams == [] then 0
    else if Judge(cams[0], k) == Raise then 0
    else 1 + FirstRaise(cams[1..], k)
  }

  /** The loop runs to the end exactly when no camera makes it raise. */
  ghost predicate RaiseFree(cams: seq<Json>, k: Criteria) {
    forall j :: 0 <= j < |cams| ==> Judge(cams[j], k) != Raise
  }

  /** `self.filtered_cameras` once the loop has stopped: the cameras kept before the first raise. */
  function Filtering(cams: seq<Json>, k: Criteria): (r: seq<Json>)
    ensures |r| <= FirstRaise(cams, k)
    ensures RaiseFree(cams, k) ==> r == Matching(cams, k)
  {
    assert RaiseFree(cams, k) ==> cams[..FirstRaise(cams, k)] == cams;
    Matching(cams[..FirstRaise(cams, k)], k)
  }

  /** `a` is `b` with some elements left out, order kept. */
  ghost predicate IsSubsequence(a: seq<Json>, b: seq<Json>)
    decreases |b|
  {
    if a == [] then true
    else if b == [] then false
    else (a[0] == b[0] && IsSubsequence(a[1..], b[1..])) || IsSubsequence(a, b[1..])
  }

  lemma {:induction false} MatchingAppend(cams: seq<Json>, c: Json, k: Criteria)
    ensures Matching(cams + [c], k) == Matching(cams, k) + (if Judge(c, k) == Keep then [c] else [])
    decreases |cams|
  {
    if cams == [] {
      assert [c][1..] == [];
    } else {
      assert (cams + [c])[1..] == cams[1..] + [c];
      MatchingAppend(cams[1..], c, k);
    }
  }

  /** The filtered list keeps the original order of the cameras. */
  lemma {:induction false} MatchingIsSubsequence(cams: seq<Json>, k: Criteria)
    ensures IsSubsequence(Matching(cams, k), cams)
    decreases |cams|
  {
    if cams != [] {
      MatchingIsSubsequence(cams[1..], k);
      var rest := Matching(cams[1..], k);
      if Judge(cams[0], k) == Keep {
        assert ([cams[0]] + rest)[1..] == rest;
      } else {
        assert Matching(cams, k) == rest;
      }
    }
  }

  /** A camera is in the filtered list exactly when it is in the input and passes the filters. */
  lemma {:induction false} MatchingMembers(cams: seq<Json>, k: Criteria, c: Json)
    ensures c in Matching(cams, k) <==> c in cams && Judge(c, k) == Keep
    decreases |cams|
  {
    if cams != [] {
      MatchingMembers(cams[1..], k, c);
      assert cams == [cams[0]] + cams[1..];
    }
  }

  /** With both wildcards and no search text every camera is kept, in order. */
  lemma {:induction false} WildcardsKeepAll(cams: seq<Json>)
    ensures Filtering(cams, Criteria(AllMakes, AllTypes, "")) == cams
    decreases |cams|
  {
    WildcardsKeepAllFrom(cams, Criteria(AllMakes, AllTypes, ""));
    assert cams[..|cams|] == cams;
  }

  lemma {:induction false} WildcardsKeepAllFrom(cams: seq<Json>, k: Criteria)
    requires k == Criteria(AllMakes, AllTypes, "")
    ensures FirstRaise(cams, k) == |cams|
    ensures Matching(cams, k) == cams
    decreases |cams|
  {
    if cams != [] {
      WildcardsKeepAllFrom(cams[1..], k);
      assert cams == [cams[0]] + cams[1..];
    }
  }

  lemma {:induction false} SubsequenceOfPrefix(a: seq<Json>, b: seq<Json>, n: nat)
    requires n <= |b| && IsSubsequence(a, b[..n])
    ensures IsSubsequence(a, b)
    decreases |b|
  {
    if a != [] && n > 0 {
      assert b[..n][1..] == b[1..][..n - 1];
      if a[0] == b[0] && IsSubsequence(a[1..], b[..n][1..]) {
        SubsequenceOfPrefix(a[1..], b[1..], n - 1);
      } else {
        SubsequenceOfPrefix(a, b[1..], n - 1);
      }
    }
  }

  /** Even when the loop stops at a raise, what it kept is a subsequence of the cameras,
      and every kept camera passed the filters. */
  lemma FilteringIsSubsequence(cams: seq<Json>, k: Criteria)
    ensures IsSubsequence(Filtering(cams, k), cams)
    ensures forall c :: c in Filtering(cams, k) ==> c in cams && Judge(c, k) == Keep
  {
    var n := FirstRaise(cams, k);
    MatchingIsSubsequence(cams[..n], k);
    SubsequenceOfPrefix(Matching(cams[..n], k), cams, n);
    forall c | c in Filtering(cams, k)
      ensures c in cams && Judge(c, k) == Keep
    {
      MatchingMembers(cams[..n], k, c);
    }
  }

  /** The loop that fills the camera list widget from `self.filtered_cameras`: `camera.get`
      raises at the first camera that is not a dict, or the loop ends at `|cams|`. */
  function FirstNonDict(cams: seq<Json>): (r: nat)
    ensures r <= |cams|
    ensures forall j :: 0 <= j < r ==> cams[j].JObj?
    ensures r < |cams| ==> !cams[r].JObj?
  {
    if cams == [] then 0
    else if !cams[0].JObj? then 0
    else 1 + FirstNonDict(cams[1..])
  }

  /** The cameras the list widget holds once that loop stops: a prefix of the filtered list,
      all of them dicts, and the whole list exactly when every filtered camera is a dict. */
  function Shown(cams: seq<Json>): (r: seq<Json>)
    ensures r <= cams
    ensures forall c :: c in r ==> c.JObj?
    ensures r == cams <==> forall c :: c in cams ==> c.JObj?
  {
    var n := FirstNonDict(cams);
    assert n < |cams| ==> cams[n] in cams && cams[n] !in cams[..n];
    cams[..n]
  }
}
