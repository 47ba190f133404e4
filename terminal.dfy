/**
 * The pure parts of the terminal `map` step: the request fields sent to the
 * statistics service, the log row, the classification of the service's answer
 * and the text of the replies; and the operator alert of the error handler.
 */
module Terminal {
  import opened Wrappers
  import opened Text
  import Catalog

  /** A float the bot only stores and renders; `repr` is what Python's `str()` gives for it. */
  datatype Float = Float(repr: string)

  /** A shared location: `(latitude, longitude)`. */
  datatype Coord = Coord(latitude: Float, longitude: Float)

  /** A `datetime.now()` reading, only stored. */
  datatype Timestamp = Timestamp(repr: string)

  /** A value in the request's `input_fields`. */
  datatype FieldValue = Str(s: string) | Int(i: int) | Null

  type Fields = map<string, FieldValue>

  /**
   * What one chat has stored, as dictionary lookups: `None` is a missing key
   * (a lookup that raises), `Some(None)` a key holding Python's `None`.
   */
  datatype Session = Session(
    location: Option<Option<Coord>>,
    address: Option<Option<string>>,
    scenario: Option<string>)

  /** One row of the query log, with its cells in the order of the log's columns
      `group, timestamp, lat, lon, address, warming_scenario, map_id, hashed_user`. */
  datatype LogRow = LogRow(
    group: bool,
    timestamp: Timestamp,
    lat: Float,
    lon: Float,
    address: Option<string>,
    warmingScenario: string,
    mapId: int,
    hashedUser: int)

  /** The exceptions a handler can raise. */
  datatype Failure =
    | NoText             // a non-command message with neither a location nor text
    | BadCallbackData    // `int(query.data)` fails
    | UnknownMap         // the id is not in the catalog
    | MissingKey         // a per-chat dictionary has no entry for the chat
    | NoCoordinates      // the log row indexes a stored location that is `None`
    | ServiceFailure     // the statistics request or its JSON decoding raises
    | UnexpectedPayload  // the answer has no statistics and is not an invalid-location answer

  /** The parameters of the statistics request, for a location and for an address. */
  function InputFields(location: Coord, scenario: string, mapId: int): (f: Fields)
    ensures f.Keys == {"lon", "lat", "warmingScenario", "datasetId"}
    ensures f["lon"] == Str(location.longitude.repr) && f["lat"] == Str(location.latitude.repr)
    ensures f["warmingScenario"] == Str(scenario) && f["datasetId"] == Int(mapId)
  {
    map["lon" := Str(location.longitude.repr), "lat" := Str(location.latitude.repr),
        "warmingScenario" := Str(scenario), "datasetId" := Int(mapId)]
  }

  function AddressFields(address: Option<string>, scenario: string, mapId: int): (f: Fields)
    ensures f.Keys == {"address", "warmingScenario", "datasetId"}
    ensures f["address"] == (if address.Some? then Str(address.value) else Null)
    ensures f["warmingScenario"] == Str(scenario) && f["datasetId"] == Int(mapId)
  {
    map["address" := (if address.Some? then Str(address.value) else Null),
        "warmingScenario" := Str(scenario), "datasetId" := Int(mapId)]
  }

  /**
   * `input_fields`: the coordinate branch when a location is stored, else the
   * address branch; the dictionary lookups it makes may raise.
   */
  function RequestFields(s: Session, mapId: int): (r: Result<Fields, Failure>)
    ensures r.Err? <==>
      s.location.None? || s.scenario.None? || (s.location.value.None? && s.address.None?)
    ensures r.Ok? ==> !("address" in r.value && ("lat" in r.value || "lon" in r.value))
    ensures r.Ok? && s.location.value.Some? ==>
      r.value == InputFields(s.location.value.value, s.scenario.value, mapId)
    ensures r.Ok? && s.location.value.None? ==>
      r.value == AddressFields(s.address.value, s.scenario.value, mapId)
  {
    if s.location.None? then Err(MissingKey)
    else if s.location.value.Some? then
      if s.scenario.None? then Err(MissingKey)
      else Ok(InputFields(s.location.value.value, s.scenario.value, mapId))
    else if s.address.None? || s.scenario.None? then Err(MissingKey)
    else Ok(AddressFields(s.address.value, s.scenario.value, mapId))
  }

  /** What the terminal step prepares before calling the service. */
  datatype Prepared = Prepared(mapId: int, name: string, fields: Fields, row: LogRow)

  /**
   * Everything up to the service call: the selected id, its catalog name, the
   * request fields and the log row, or the exception raised on the way. The row
   * reads the stored location's two coordinates, so a chat that stored an
   * address instead fails here.
   */
  function Prepare(data: string, maps: Catalog.Catalog, s: Session, group: bool, now: Timestamp, hashed: int)
    : (r: Result<Prepared, Failure>)
    ensures r.Ok? <==>
      && ParseInt(data).Some? && ParseInt(data).value in maps.names
      && s.location.Some? && s.location.value.Some? && s.address.Some? && s.scenario.Some?
    ensures ParseInt(data).None? ==> r == Err(BadCallbackData)
    ensures ParseInt(data).Some? && ParseInt(data).value !in maps.names ==> r == Err(UnknownMap)
    ensures ParseInt(data).Some? && ParseInt(data).value in maps.names && r.Err? ==>
      r.error == (if s.location == Some(None) && s.address.Some? && s.scenario.Some? then NoCoordinates else MissingKey)
    ensures r.Ok? ==> ParseInt(data) == Some(r.value.mapId) && r.value.mapId in maps.names
    ensures r.Ok? ==> r.value.name == maps.names[r.value.mapId]
    ensures r.Ok? ==> s.location.Some? && s.location.value.Some? && s.address.Some? && s.scenario.Some?
    ensures r.Ok? ==> r.value.fields == InputFields(s.location.value.value, s.scenario.value, r.value.mapId)
    ensures r.Ok? ==> r.value.row == LogRow(group, now, s.location.value.value.latitude,
                                            s.location.value.value.longitude, s.address.value,
                                            s.scenario.value, r.value.mapId, hashed)
  {
    match ParseInt(data)
    case None => Err(BadCallbackData)
    case Some(mapId) =>
      if mapId !in maps.names then Err(UnknownMap)
      else match RequestFields(s, mapId)
        case Err(e) => Err(e)
        case Ok(fields) =>
          if s.location.value.None? then Err(NoCoordinates)
          else if s.address.None? then Err(MissingKey)
          else Ok(Prepared(mapId, maps.names[mapId], fields,
                           LogRow(group, now, s.location.value.value.latitude, s.location.value.value.longitude,
                                  s.address.value, s.scenario.value, mapId, hashed)))
  }

  /**
   * A chat that stored an address rather than a location never gets past the
   * log row: once its selected id is in the catalog, the step raises at the
   * coordinates, before any row is written or the service is called.
   */
  lemma AddressSessionFails(data: string, maps: Catalog.Catalog, s: Session, group: bool, now: Timestamp, hashed: int)
    requires s.location == Some(None) && s.address.Some? && s.scenario.Some?
    requires ParseInt(data).Some? && ParseInt(data).value in maps.names
    ensures Prepare(data, maps, s, group, now, hashed) == Err(NoCoordinates)
  {
  }

  /** The part of the service's answer the bot reads, and the answer rendered as text. */
  datatype Answer = Answer(
    lowValue: Option<string>,
    midValue: Option<string>,
    highValue: Option<string>,
    unit: Option<string>,
    latitude: Option<string>,
    longitude: Option<string>,
    rendered: string)

  predicate HasStatistics(a: Answer) {
    a.lowValue.Some? && a.midValue.Some? && a.highValue.Some? && a.unit.Some?
  }

  /** Where the statistics apply: the echoed coordinates, or the stored address. */
  datatype Place = AtCoordinates(lat: string, lon: string) | AtAddress(address: Option<string>)

  /** How the terminal step treats an answer. */
  datatype Verdict =
    | Statistics(place: Place, low: string, mid: string, high: string, unit: string)
    | InvalidLocation
    | Unexpected(raw: string)

  const InvalidLonMarker := "Invalid lon param."

  /**
   * The answer with its statistics, else an invalid location when its text
   * mentions the invalid-lon marker, else an unexpected payload. `address` is the
   * chat's stored address lookup, read only when the answer has no coordinates;
   * a missing key there sends the answer down the error branches too.
   */
  function Classify(a: Answer, address: Option<Option<string>>): (v: Verdict)
    ensures v.Statistics? <==>
      HasStatistics(a) && ((a.latitude.Some? && a.longitude.Some?) || address.Some?)
    ensures v.Statistics? ==>
      v.low == a.lowValue.value && v.mid == a.midValue.value &&
      v.high == a.highValue.value && v.unit == a.unit.value
    ensures v.Statistics? ==>
      (v.place.AtCoordinates? <==> a.latitude.Some? && a.longitude.Some?)
    ensures v.Statistics? && v.place.AtCoordinates? ==>
      v.place.lat == a.latitude.value && v.place.lon == a.longitude.value
    ensures v.Statistics? && v.place.AtAddress? ==> v.place.address == address.value
    ensures v.InvalidLocation? <==> !v.Statistics? && Contains(a.rendered, InvalidLonMarker)
    ensures v.Unexpected? ==> v.raw == a.rendered
  {
    var place :=
      if a.latitude.Some? && a.longitude.Some? then Some(AtCoordinates(a.latitude.value, a.longitude.value))
      else if address.Some? then Some(AtAddress(address.value))
      else None;
    if HasStatistics(a) && place.Some? then
      Statistics(place.value, a.lowValue.value, a.midValue.value, a.highValue.value, a.unit.value)
    else if Contains(a.rendered, InvalidLonMarker) then InvalidLocation
    else Unexpected(a.rendered)
  }

  /** Python's rendering of an optional string in an f-string. */
  function Show(s: Option<string>): string {
    if s.Some? then s.value else "None"
  }

  /** The four parts of the statistics reply (`StatisticsLinesContent` says what each holds). */
  function StatisticsLines(place: Place, low: string, mid: string, high: string, unit: string): (lines: seq<string>)
    ensures |lines| == 4
  {
    [ match place
      case AtCoordinates(lat, lon) => "Location (lat, lon): (" + lat + ", " + lon + "):\n"
      case AtAddress(address) => "Address: " + Show(address) + ":\n",
      "5th Percentile: " + low + " " + unit + "\n",
      "Average: " + mid + " " + unit + "\n",
      "95th Percentile: " + high + " " + unit ]
  }

  /**
   * The statistics reply names where the figures apply (the echoed coordinates,
   * or the stored address), then gives the 5th percentile, the average and the
   * 95th percentile, each followed by the unit.
   */
  lemma StatisticsLinesContent(place: Place, low: string, mid: string, high: string, unit: string)
    ensures var lines := StatisticsLines(place, low, mid, high, unit);
      && (place.AtCoordinates? ==> lines[0] == "Location (lat, lon): (" + place.lat + ", " + place.lon + "):\n")
      && (place.AtAddress? ==> lines[0] == "Address: " + Show(place.address) + ":\n")
      && lines[1] == "5th Percentile: " + low + " " + unit + "\n"
      && lines[2] == "Average: " + mid + " " + unit + "\n"
      && lines[3] == "95th Percentile: " + high + " " + unit
  {
  }

  const InvalidLocationReply := "Invalid address/location!"

  /** The text shown to the operator before the escaped traceback. */
  const AlertPrefix := "An exception was raised while handling an update\n<pre>"
  const AlertLimit := 1000
  const AlertSuffix := "</pre>"

  /**
   * The operator alert: the prefix and the escaped traceback, cut to their first
   * 1000 characters, then the closing tag.
   */
  function OperatorAlert(escapedTrace: string): (m: string)
    ensures var full := AlertPrefix + escapedTrace;
      |m| == (if |full| < AlertLimit then |full| else AlertLimit) + |AlertSuffix|
    ensures |m| <= AlertLimit + |AlertSuffix|
    ensures m[..|AlertPrefix|] == AlertPrefix
    ensures m[|m| - |AlertSuffix|..] == AlertSuffix
    ensures var full := AlertPrefix + escapedTrace;
      m[..|m| - |AlertSuffix|] == full[..|m| - |AlertSuffix|]
  {
    var full := AlertPrefix + escapedTrace;
    var cut := if |full| < AlertLimit then full else full[..AlertLimit];
    assert cut[..|AlertPrefix|] == AlertPrefix;
    cut + AlertSuffix
  }
}
