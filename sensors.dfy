/** The shape dispatch in `load_sensor_data` that turns a sensors response into
    the value stored as `self.sensor_data`. */
module Sensors {
  import opened Wrappers
  import opened JsonValue

  /** The wrapping key of a dict response, tried in the order `sensors`, `data`, `results`. */
  function WrapperKey(fields: map<string, Json>): (r: Option<string>)
    ensures r.Some? ==> r.value in fields
    ensures r == None <==> "sensors" !in fields && "data" !in fields && "results" !in fields
  {
    if "sensors" in fields then Some("sensors")
    else if "data" in fields then Some("data")
    else if "results" in fields then Some("results")
    else None
  }

  /** The value assigned to `self.sensor_data`. A wrapped value is taken as it is, list or not. */
  function Normalise(data: Json): (r: Json)
    ensures !data.JObj? ==> r == JArr(ListOrEmpty(data))
    ensures data.JObj? && WrapperKey(data.fields).Some? ==> r == data.fields[WrapperKey(data.fields).value]
    ensures data.JObj? && WrapperKey(data.fields) == None ==> r == JArr([data])
  {
    match data
    case JObj(fields) =>
      (match WrapperKey(fields)
       case Some(key) => fields[key]
       case None => JArr([data]))
    case JArr(_) => data
    case _ => JArr([])
  }

  /** `sensors` wins over `data`, and `data` over `results`, whatever else the dict holds. */
  lemma KeyPrecedence(fields: map<string, Json>)
    ensures "sensors" in fields ==> Normalise(JObj(fields)) == fields["sensors"]
    ensures "sensors" !in fields && "data" in fields ==> Normalise(JObj(fields)) == fields["data"]
    ensures "sensors" !in fields && "data" !in fields && "results" in fields ==>
      Normalise(JObj(fields)) == fields["results"]
  {
  }

  /** A list of sensors, bare or under any of the three keys, normalises to that list;
      a lone sensor dict normalises to the list holding it. */
  lemma ShapesAgree(sensors: seq<Json>, single: map<string, Json>)
    requires WrapperKey(single) == None
    ensures Normalise(JArr(sensors)) == JArr(sensors)
    ensures Normalise(JObj(map["sensors" := JArr(sensors)])) == JArr(sensors)
    ensures Normalise(JObj(map["data" := JArr(sensors)])) == JArr(sensors)
    ensures Normalise(JObj(map["results" := JArr(sensors)])) == JArr(sensors)
    ensures Normalise(JObj(single)) == Normalise(JArr([JObj(single)]))
  {
    assert WrapperKey(map["data" := JArr(sensors)]) == Some("data");
    assert WrapperKey(map["results" := JArr(sensors)]) == Some("results");
  }

  /** The result is a list unless a wrapping key holds something else; anything that is
      neither a dict nor a list gives the empty list. */
  lemma ResultIsList(data: Json)
    ensures Normalise(data).JArr? <==>
      !(data.JObj? && WrapperKey(data.fields).Some? && !data.fields[WrapperKey(data.fields).value].JArr?)
    ensures !data.JObj? && !data.JArr? ==> Normalise(data) == JArr([])
    ensures Normalise(data).JArr? ==> Normalise(Normalise(data)) == Normalise(data)
  {
  }
}
