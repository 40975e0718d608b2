/** The name `create_houdini_camera` gives the new camera node:
    `f"{make}_{name}"` with every space and hyphen replaced by an underscore. */
module NodeName {
  import opened JsonValue
  import opened Text

  /** The number a string of decimal digits spells, most significant digit first. */
  ghost function DigitsValue(s: string): int
    decreases |s|
  {
    if s == [] then 0 else 10 * DigitsValue(s[..|s| - 1]) + (s[|s| - 1] as int - '0' as int)
  }

  /** `s` is the decimal numeral of `n`: digits only, spelling `n`, with no leading zero. */
  ghost predicate Numeral(s: string, n: nat) {
    && |s| >= 1
    && (forall i :: 0 <= i < |s| ==> '0' <= s[i] <= '9')
    && DigitsValue(s) == n
    && (|s| > 1 ==> s[0] != '0')
  }

  /** `str(n)` for a natural number. */
  function NatToString(n: nat): (r: string)
    ensures Numeral(r, n)
    decreases n
  {
    var d := ['0' + (n % 10) as char];
    if n < 10 then d
    else
      var p := NatToString(n / 10);
      assert (p + d)[..|p + d| - 1] == p;
      p + d
  }

  /** A digit string spells at least its leading digit. */
  lemma {:induction false} DigitsValueAtLeastLeading(s: string)
    requires |s| >= 1 && forall i :: 0 <= i < |s| ==> '0' <= s[i] <= '9'
    ensures DigitsValue(s) >= s[0] as int - '0' as int
    decreases |s|
  {
    if |s| > 1 {
      var p := s[..|s| - 1];
      DigitsValueAtLeastLeading(p);
      assert p[0] == s[0];
    }
  }

  /** Dividing `10 * a + b` by ten recovers `a` and the digit `b`. */
  lemma DivModTen(a: int, b: int)
    requires 0 <= a && 0 <= b < 10
    ensures (10 * a + b) / 10 == a && (10 * a + b) % 10 == b
  {
  }

  /** A natural number has exactly one numeral, and `NatToString` produces it. */
  lemma {:induction false} NumeralUnique(s: string, n: nat)
    requires Numeral(s, n)
    ensures s == NatToString(n)
    decreases |s|
  {
    var last := s[|s| - 1] as int - '0' as int;
    if |s| == 1 {
      assert DigitsValue(s) == 10 * DigitsValue(s[..0]) + last;
      assert s[..0] == [];
      assert n == last && n < 10;
      assert s == ['0' + (n % 10) as char];
    } else {
      var p := s[..|s| - 1];
      assert p[0] == s[0] && '1' <= p[0] <= '9';
      DigitsValueAtLeastLeading(p);
      assert DigitsValue(s) == 10 * DigitsValue(p) + last;
      DivModTen(DigitsValue(p), last);
      NumeralUnique(p, n / 10);
      assert s == p + [s[|s| - 1]];
    }
  }

  /** `str(v)` of a JSON value inside an f-string. Containers are printed by `repr`,
      which this model takes as given. */
  function PyStr(v: Json, repr: Json -> string): (r: string)
    ensures v.JStr? ==> r == v.s
    ensures v.JNull? ==> r == "None"
    ensures v.JBool? ==> (r == "True" <==> v.b) && (r == "False" <==> !v.b)
    ensures v.JNum? && v.n >= 0 ==> Numeral(r, v.n)
    ensures v.JNum? && v.n < 0 ==> |r| >= 2 && r[0] == '-' && Numeral(r[1..], -v.n)
  {
    match v
    case JStr(s) => s
    case JNull => "None"
    case JBool(b) => if b then "True" else "False"
    case JNum(n) => if n < 0 then "-" + NatToString(-n) else NatToString(n)
    case _ => repr(v)
  }

  /** `.replace(' ', '_').replace('-', '_')`: the length is kept, each space and hyphen
      becomes '_' and every other character stays, so no space or hyphen is left. */
  function Sanitise(s: string): (r: string)
    ensures |r| == |s|
    ensures forall i :: 0 <= i < |s| ==> r[i] == if s[i] == ' ' || s[i] == '-' then '_' else s[i]
    ensures ' ' !in r && '-' !in r
  {
    ReplaceChar(ReplaceChar(s, ' ', '_'), '-', '_')
  }

  /** The node name before sanitising: make (default 'Unknown'), an underscore, name (default 'Camera'). */
  function RawNodeName(camera: map<string, Json>, repr: Json -> string): (r: string)
    ensures |r| == |PyStr(GetOr(camera, "make", JStr("Unknown")), repr)| + 1 + |PyStr(GetOr(camera, "name", JStr("Camera")), repr)|
    ensures r[|PyStr(GetOr(camera, "make", JStr("Unknown")), repr)|] == '_'
  {
    PyStr(GetOr(camera, "make", JStr("Unknown")), repr) + "_" + PyStr(GetOr(camera, "name", JStr("Camera")), repr)
  }

  /** The sanitised name: as long as the raw one, '_' wherever the raw one has a space or
      hyphen and equal to it elsewhere, so free of both. */
  function CameraNodeName(camera: map<string, Json>, repr: Json -> string): (r: string)
    ensures |r| == |RawNodeName(camera, repr)|
    ensures forall i :: 0 <= i < |r| && (RawNodeName(camera, repr)[i] == ' ' || RawNodeName(camera, repr)[i] == '-') ==>
      r[i] == '_'
    ensures forall i :: 0 <= i < |r| && RawNodeName(camera, repr)[i] != ' ' && RawNodeName(camera, repr)[i] != '-' ==>
      r[i] == RawNodeName(camera, repr)[i]
    ensures ' ' !in r && '-' !in r
  {
    Sanitise(RawNodeName(camera, repr))
  }

  /** Sanitising twice is sanitising once. */
  lemma SanitiseIdempotent(s: string)
    ensures Sanitise(Sanitise(s)) == Sanitise(s)
  {
  }

  /** Sanitising works character by character, so it distributes over concatenation. */
  lemma SanitiseConcat(a: string, b: string)
    ensures Sanitise(a + b) == Sanitise(a) + Sanitise(b)
  {
    ReplaceCharConcat(a, b, ' ', '_');
    ReplaceCharConcat(ReplaceChar(a, ' ', '_'), ReplaceChar(b, ' ', '_'), '-', '_');
  }

  /** A string without spaces or hyphens is left as it is. */
  lemma SanitiseKeeps(s: string)
    requires ' ' !in s && '-' !in s
    ensures Sanitise(s) == s
  {
    assert |Sanitise(s)| == |s|;
  }

  /** For string fields the node name is the sanitised make, '_', and the sanitised name;
      missing fields give 'Unknown' and 'Camera'. It never holds a space or hyphen. */
  lemma NodeNameShape(camera: map<string, Json>, repr: Json -> string, make: string, name: string)
    requires GetOr(camera, "make", JStr("Unknown")) == JStr(make)
    requires GetOr(camera, "name", JStr("Camera")) == JStr(name)
    ensures CameraNodeName(camera, repr) == Sanitise(make) + "_" + Sanitise(name)
    ensures |CameraNodeName(camera, repr)| == |make| + 1 + |name|
    ensures ' ' !in CameraNodeName(camera, repr) && '-' !in CameraNodeName(camera, repr)
  {
    var raw := make + "_" + name;
    assert RawNodeName(camera, repr) == raw;
    SanitiseConcat(make + "_", name);
    SanitiseConcat(make, "_");
    SanitiseKeeps("_");
  }

  /** A camera with neither field is named 'Unknown_Camera'. */
  lemma DefaultNodeName(camera: map<string, Json>, repr: Json -> string)
    requires "make" !in camera && "name" !in camera
    ensures CameraNodeName(camera, repr) == "Unknown_Camera"
  {
    var raw := RawNodeName(camera, repr);
    assert GetOr(camera, "make", JStr("Unknown")) == JStr("Unknown");
    assert GetOr(camera, "name", JStr("Camera")) == JStr("Camera");
    assert raw == "Unknown_Camera";
    assert forall i :: 0 <= i < |raw| ==> raw[i] != ' ' && raw[i] != '-';
    var name := CameraNodeName(camera, repr);
    assert |name| == |raw| && forall i :: 0 <= i < |raw| ==> name[i] == raw[i];
  }
}
