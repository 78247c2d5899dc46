/** The NSW Beachwatch client: the request parameters for a set of beach
    names, the check that every requested beach came back, and the mapping of
    each GeoJSON feature of the decoded feed into a Beach record.

    The HTTP round trip and ISO-8601 parsing are collaborators and enter as
    parameters: a transport that answers a parameter list with a response
    whose body is already decoded JSON, and a parser from text to an
    instant. */
module Beachwatch {
  import opened Wrappers

  // ---------------------------------------------------------------------
  // The decoded feed
  // ---------------------------------------------------------------------

  /** A decoded JSON value. JSON numbers are modelled as integers. */
  datatype Json =
    | JNull
    | JBool(b: bool)
    | JInt(i: int)
    | JString(s: string)
    | JArray(items: seq<Json>)
    | JObject(fields: map<string, Json>)

  /** An instant produced by the ISO-8601 parser; its structure is not modelled. */
  type Timestamp(==)

  /** The ISO-8601 parser: `None` when the text is not a timestamp it accepts. */
  type IsoParser = string -> Option<Timestamp>

  /** What the client can raise. */
  datatype Error =
    | HttpError(status: int)              // raised by `raise_for_status`
    | UnknownBeaches(invalid: set<string>) // the ValueError naming beaches that were not found
    | MissingKey(key: string)             // KeyError from `value[key]`
    | WrongType                           // TypeError / AttributeError on a value of another JSON type
    | NotAnInteger(rating: Json)          // ValueError from `int(...)` on the rating
    | NotATimestamp(text: Json)           // ValueError from the ISO-8601 parser

  /** `value[key]`: a lookup that raises when the key is missing. */
  function Index(value: Json, key: string): (r: Result<Json, Error>)
    ensures r.Success? <==> value.JObject? && key in value.fields
    ensures r.Success? ==> r.value == value.fields[key]
    ensures value.JObject? && key !in value.fields ==> r == Failure(MissingKey(key))
  {
    match value
    case JObject(fields) =>
      if key in fields then Success(fields[key]) else Failure(MissingKey(key))
    case _ => Failure(WrongType)
  }

  /** `fields.get(key)` on a decoded object: a missing key and a JSON `null`
      both read as Python's `None`. */
  function Get(fields: map<string, Json>, key: string): (r: Option<Json>)
    ensures r.None? <==> key !in fields || fields[key] == JNull
    ensures r.Some? ==> r.value == fields[key]
  {
    if key in fields && fields[key] != JNull then Some(fields[key]) else None
  }

  /** The object behind `properties`, on which `.get` is called; any other
      JSON value has no `.get` (AttributeError). */
  function Fields(value: Json): (r: Result<map<string, Json>, Error>)
    ensures r.Success? <==> value.JObject?
    ensures r.Success? ==> r.value == value.fields
  {
    if value.JObject? then Success(value.fields) else Failure(WrongType)
  }

  // ---------------------------------------------------------------------
  // The record
  // ---------------------------------------------------------------------

  /** A NSW beach. Copied fields keep the JSON value they had; `None` is a
      missing key or a JSON `null`. */
  datatype Beach = Beach(
    identifier: Option<Json>,
    name: Option<Json>,
    pollutionForecast: Option<Json>,
    pollutionForecastTimestamp: Option<Timestamp>,
    latestResult: Option<Json>,
    latestResultRating: Option<int>,
    latestResultObservationTimestamp: Option<Timestamp>,
    geometry: Json)

  /** `int(rating)` where a `TypeError` (only raised for `None`) is swallowed
      and leaves the rating absent. Booleans are integers in Python. */
  function CoerceRating(rating: Option<Json>): (r: Result<Option<int>, Error>)
    ensures r == Success(None) <==> rating.None?
    ensures r.Success? && r.value.Some? <==> rating.Some? && (rating.value.JInt? || rating.value.JBool?)
    ensures rating.Some? && rating.value.JInt? ==> r == Success(Some(rating.value.i))
    ensures rating.Some? && rating.value.JBool? ==> r == Success(Some(if rating.value.b then 1 else 0))
    ensures r.Failure? ==> r.error == NotAnInteger(rating.value)
  {
    match rating
    case None => Success(None)
    case Some(JInt(i)) => Success(Some(i))
    case Some(JBool(b)) => Success(Some(if b then 1 else 0))
    case Some(v) => Failure(NotAnInteger(v))
  }

  /** `isoparse(text)` where a `TypeError` (raised for `None`) is swallowed
      and leaves the timestamp absent. */
  function ParseTimestamp(text: Option<Json>, isoparse: IsoParser): (r: Result<Option<Timestamp>, Error>)
    ensures r == Success(None) <==> text.None?
    ensures r.Success? && r.value.Some? <==>
              text.Some? && text.value.JString? && isoparse(text.value.s).Some?
    ensures r.Success? && r.value.Some? ==> r.value == isoparse(text.value.s)
    ensures r.Failure? ==> r.error == NotATimestamp(text.value)
  {
    match text
    case None => Success(None)
    case Some(JString(s)) =>
      if isoparse(s).Some? then Success(Some(isoparse(s).value)) else Failure(NotATimestamp(JString(s)))
    case Some(v) => Failure(NotATimestamp(v))
  }

  /** `create_beach`: one feature of the collection as a Beach. */
  function CreateBeach(feature: Json, isoparse: IsoParser): (r: Result<Beach, Error>)
    ensures r.Success? ==>
              && feature.JObject? && "properties" in feature.fields && "geometry" in feature.fields
              && feature.fields["properties"].JObject?
              && r.value.geometry == feature.fields["geometry"]
    ensures feature.JObject? && "properties" !in feature.fields ==> r == Failure(MissingKey("properties"))
    ensures feature.JObject? && "properties" in feature.fields && "geometry" !in feature.fields ==>
              r == Failure(MissingKey("geometry"))
  {
    var properties :- Index(feature, "properties");
    var geometry :- Index(feature, "geometry");
    var fields :- Fields(properties);
    var rating :- CoerceRating(Get(fields, "latestResultRating"));
    var forecastTime :- ParseTimestamp(Get(fields, "pollutionForecastTimeStamp"), isoparse);
    var observationTime :- ParseTimestamp(Get(fields, "latestResultObservationDate"), isoparse);
    Success(Beach(
      Get(fields, "id"),
      Get(fields, "siteName"),
      Get(fields, "pollutionForecast"),
      forecastTime,
      Get(fields, "latestResult"),
      rating,
      observationTime,
      geometry))
  }

  /** A list comprehension `[f(x) for x in xs]` whose `f` may raise: the
      elements are computed left to right and the first exception ends it. */
  function MapAll<A, B, E>(xs: seq<A>, f: A -> Result<B, E>): (r: Result<seq<B>, E>)
    ensures r.Success? <==> forall i :: 0 <= i < |xs| ==> f(xs[i]).Success?
    ensures r.Success? ==> |r.value| == |xs| && forall i :: 0 <= i < |xs| ==> r.value[i] == f(xs[i]).value
    ensures r.Failure? ==> exists k :: 0 <= k < |xs| && f(xs[k]).Failure? && r.error == f(xs[k]).error &&
                                       forall i :: 0 <= i < k ==> f(xs[i]).Success?
  {
    if xs == [] then Success([])
    else
      var y :- f(xs[0]);
      var ys :- MapAll(xs[1..], f);
      Success([y] + ys)
  }

  // ---------------------------------------------------------------------
  // Request and validation
  // ---------------------------------------------------------------------

  /** A query parameter: key and value. */
  type Param = (string, string)

  /** The query key that filters the feed by beach name. */
  const SiteNameKey := "site_name"

  /** The query parameters for the requested names: one per name, in order. */
  function SiteParameters(names: seq<string>): (params: seq<Param>)
    ensures |params| == |names|
    ensures forall i :: 0 <= i < |params| ==> params[i].0 == SiteNameKey
  {
    seq(|names|, i requires 0 <= i < |names| => (SiteNameKey, names[i]))
  }

  /** What the transport hands back: either `raise_for_status` raised for the
      status, or the body was received and decoded. */
  datatype Response = Failed(status: int) | Received(body: Json)

  /** The transport: one GET of the fixed endpoint with the given parameters. */
  type Transport = seq<Param> -> Response

  /** The body the validation compares against: an empty feature collection. */
  const EmptyCollection := JObject(map["type" := JString("FeatureCollection"), "features" := JArray([])])

  /** `response.json()["features"]`, which must be an array. */
  function FeatureList(doc: Json): (r: Result<seq<Json>, Error>)
    ensures r.Success? <==> doc.JObject? && "features" in doc.fields && doc.fields["features"].JArray?
    ensures r.Success? ==> r.value == doc.fields["features"].items
  {
    var features :- Index(doc, "features");
    if features.JArray? then Success(features.items) else Failure(WrongType)
  }

  /** `feature["properties"]["siteName"]`. */
  function SiteName(feature: Json): (r: Result<Json, Error>)
    ensures r.Success? <==>
              && feature.JObject? && "properties" in feature.fields
              && feature.fields["properties"].JObject? && "siteName" in feature.fields["properties"].fields
    ensures r.Success? ==> r.value == feature.fields["properties"].fields["siteName"]
  {
    var properties :- Index(feature, "properties");
    Index(properties, "siteName")
  }

  /** Whether Python can put the value in a set: lists and dicts cannot. */
  predicate Hashable(value: Json) {
    !value.JArray? && !value.JObject?
  }

  /** `set(returned)`, restricted to the strings in it (the only members that
      can equal a requested name). Raises when a value is unhashable. */
  function NameSet(returned: seq<Json>): (r: Result<set<string>, Error>)
    ensures r.Success? <==> forall i :: 0 <= i < |returned| ==> Hashable(returned[i])
    ensures r.Success? ==> forall n :: n in r.value <==> JString(n) in returned
  {
    if exists i :: 0 <= i < |returned| && !Hashable(returned[i]) then Failure(WrongType)
    else Success(set v | v in returned && v.JString? :: v.s)
  }

  /** The check made when names were given: an empty collection, or as many
      features as names were not passed, raises with the requested names that
      no feature carries; otherwise the features are passed on. */
  function CheckResolved(names: seq<string>, doc: Json): (r: Result<seq<Json>, Error>)
    ensures r.Success? ==> FeatureList(doc) == Success(r.value) && |r.value| == |names|
    ensures r.Failure? && r.error.UnknownBeaches? ==> r.error.invalid <= set n | n in names
  {
    var features :- FeatureList(doc);
    if doc == EmptyCollection || |features| != |names| then
      var returned :- MapAll(features, SiteName);
      var found :- NameSet(returned);
      Failure(UnknownBeaches((set n | n in names) - found))
    else
      Success(features)
  }

  /** `get_beaches(*names)`: one request; with names, the check above before
      any feature is mapped; the features mapped in the order they came. */
  function GetBeaches(names: seq<string>, transport: Transport, isoparse: IsoParser): (r: Result<seq<Beach>, Error>)
    ensures r.Failure? && r.error.UnknownBeaches? ==> |names| > 0
    ensures r.Success? && |names| > 0 ==> |r.value| == |names|
  {
    match transport(SiteParameters(names))
    case Failed(status) => Failure(HttpError(status))
    case Received(doc) =>
      var features :- if |names| > 0 then CheckResolved(names, doc) else FeatureList(doc);
      MapAll(features, feature => CreateBeach(feature, isoparse))
  }
}
