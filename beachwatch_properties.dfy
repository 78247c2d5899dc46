/** What the Beachwatch client promises: the request carries every name, the
    validation is a count test whose error names exactly the missing beaches,
    nothing is mapped when it fails, and each record copies its feature. */
module BeachwatchProperties {
  import opened Wrappers
  import opened Beachwatch

  // ---------------------------------------------------------------------
  // Request parameters
  // ---------------------------------------------------------------------

  /** The names a parameter list asks for, as the endpoint reads them back. */
  function ParameterValues(params: seq<Param>): (values: seq<string>)
    ensures |values| == |params|
  {
    if params == [] then [] else [params[0].1] + ParameterValues(params[1..])
  }

  /** Every requested name travels in the request, in order and with its
      repetitions, each under the site-name key. */
  lemma {:induction false} ParametersCarryEveryName(names: seq<string>)
    ensures ParameterValues(SiteParameters(names)) == names
    ensures multiset(ParameterValues(SiteParameters(names))) == multiset(names)
    ensures forall i :: 0 <= i < |names| ==> SiteParameters(names)[i] == (SiteNameKey, names[i])
  {
    if names != [] {
      ParametersCarryEveryName(names[1..]);
      assert SiteParameters(names)[1..] == SiteParameters(names[1..]);
    }
  }

  // ---------------------------------------------------------------------
  // Validation
  // ---------------------------------------------------------------------

  /** The validation without the comparison with the empty collection. */
  function CheckCount(names: seq<string>, doc: Json): (r: Result<seq<Json>, Error>)
    ensures r.Success? <==> FeatureList(doc).Success? && |FeatureList(doc).value| == |names|
  {
    var features :- FeatureList(doc);
    if |features| != |names| then
      var returned :- MapAll(features, SiteName);
      var found :- NameSet(returned);
      Failure(UnknownBeaches((set n | n in names) - found))
    else
      Success(features)
  }

  /** With at least one name, comparing the body with the empty collection
      adds nothing: an empty feature list already fails the count. Only with
      no names would the comparison reject a body the count accepts, and
      with no names the check is not made at all. */
  lemma EmptyCollectionTestRedundant(names: seq<string>, doc: Json)
    requires |names| > 0
    ensures CheckResolved(names, doc) == CheckCount(names, doc)
  {
  }

  /** With names, the check passes exactly when as many features came back
      as names were passed, whatever the features are. */
  lemma ValidationFailsExactlyOnCountMismatch(names: seq<string>, doc: Json)
    requires |names| > 0
    requires FeatureList(doc).Success?
    ensures CheckResolved(names, doc).Success? <==> |FeatureList(doc).value| == |names|
    ensures CheckResolved(names, doc).Success? ==> CheckResolved(names, doc).value == FeatureList(doc).value
  {
  }

  /** A beach is returned when some feature carries its name. */
  ghost predicate Returned(features: seq<Json>, name: string) {
    exists i :: 0 <= i < |features| && SiteName(features[i]) == Success(JString(name))
  }

  /** The names in the error are exactly the requested names that no
      returned feature carries: every one was requested, none came back. */
  lemma UnknownBeachesAreTheMissing(names: seq<string>, doc: Json, invalid: set<string>)
    requires CheckResolved(names, doc) == Failure(UnknownBeaches(invalid))
    ensures FeatureList(doc).Success?
    ensures forall n :: n in invalid <==> n in names && !Returned(FeatureList(doc).value, n)
  {
  }

  /** A count mismatch is reported as unknown beaches whenever every
      returned feature has a name that Python can put in a set. */
  lemma CountMismatchRaisesUnknownBeaches(names: seq<string>, doc: Json)
    requires FeatureList(doc).Success? && |FeatureList(doc).value| != |names|
    requires forall i :: 0 <= i < |FeatureList(doc).value| ==>
               SiteName(FeatureList(doc).value[i]).Success? && Hashable(SiteName(FeatureList(doc).value[i]).value)
    ensures CheckResolved(names, doc).Failure? && CheckResolved(names, doc).error.UnknownBeaches?
  {
  }

  // ---------------------------------------------------------------------
  // The whole call
  // ---------------------------------------------------------------------

  /** An HTTP error status ends the call before anything is validated or mapped. */
  lemma HttpErrorPropagates(names: seq<string>, transport: Transport, isoparse: IsoParser)
    requires transport(SiteParameters(names)).Failed?
    ensures GetBeaches(names, transport, isoparse) == Failure(HttpError(transport(SiteParameters(names)).status))
  {
  }

  /** When the check fails, its error is the call's error and no feature is
      mapped: the outcome does not depend on the timestamp parser. */
  lemma UnresolvedBeforeMapping(names: seq<string>, transport: Transport, isoparse: IsoParser, other: IsoParser)
    requires |names| > 0
    requires transport(SiteParameters(names)).Received?
    requires CheckResolved(names, transport(SiteParameters(names)).body).Failure?
    ensures GetBeaches(names, transport, isoparse) == Failure(CheckResolved(names, transport(SiteParameters(names)).body).error)
    ensures GetBeaches(names, transport, isoparse) == GetBeaches(names, transport, other)
  {
  }

  /** When the check passes, the records are the features mapped one by one
      in the order the feed returned them, as many as names were passed. */
  lemma ResolvedFeaturesMappedInOrder(names: seq<string>, transport: Transport, isoparse: IsoParser)
    requires |names| > 0
    requires transport(SiteParameters(names)).Received?
    requires CheckResolved(names, transport(SiteParameters(names)).body).Success?
    ensures var features := CheckResolved(names, transport(SiteParameters(names)).body).value;
            var r := GetBeaches(names, transport, isoparse);
            && (r.Success? <==> forall i :: 0 <= i < |features| ==> CreateBeach(features[i], isoparse).Success?)
            && (r.Success? ==> |r.value| == |features| == |names|
                               && forall i :: 0 <= i < |features| ==> r.value[i] == CreateBeach(features[i], isoparse).value)
  {
  }

  /** Without names nothing is checked: every feature is mapped in order,
      and an empty collection yields no records rather than an error. */
  lemma NoNamesMapsEveryFeature(transport: Transport, isoparse: IsoParser)
    requires transport([]).Received?
    requires FeatureList(transport([]).body).Success?
    ensures var features := FeatureList(transport([]).body).value;
            var r := GetBeaches([], transport, isoparse);
            && (r.Success? <==> forall i :: 0 <= i < |features| ==> CreateBeach(features[i], isoparse).Success?)
            && (r.Success? ==> |r.value| == |features|
                               && forall i :: 0 <= i < |features| ==> r.value[i] == CreateBeach(features[i], isoparse).value)
            && (features == [] ==> r == Success([]))
  {
  }

  // ---------------------------------------------------------------------
  // The record mapping
  // ---------------------------------------------------------------------

  /** The properties object of a feature that has one. */
  function PropertiesOf(feature: Json): (fields: map<string, Json>)
    requires feature.JObject? && "properties" in feature.fields && feature.fields["properties"].JObject?
  {
    feature.fields["properties"].fields
  }

  /** A feature maps exactly when it has both keys, its properties are an
      object, and the rating and both timestamps are absent or well formed. */
  lemma CreateBeachSucceedsExactly(feature: Json, isoparse: IsoParser)
    ensures CreateBeach(feature, isoparse).Success? <==>
              && feature.JObject? && "properties" in feature.fields && "geometry" in feature.fields
              && feature.fields["properties"].JObject?
              && CoerceRating(Get(PropertiesOf(feature), "latestResultRating")).Success?
              && ParseTimestamp(Get(PropertiesOf(feature), "pollutionForecastTimeStamp"), isoparse).Success?
              && ParseTimestamp(Get(PropertiesOf(feature), "latestResultObservationDate"), isoparse).Success?
  {
  }

  /** A mapped record holds the feature's values key by key, the optional
      ones converted, and its geometry unchanged. */
  lemma CreateBeachCopiesFields(feature: Json, isoparse: IsoParser)
    requires CreateBeach(feature, isoparse).Success?
    ensures feature.JObject? && "properties" in feature.fields && feature.fields["properties"].JObject?
    ensures var b := CreateBeach(feature, isoparse).value;
            var p := PropertiesOf(feature);
            && b.identifier == Get(p, "id")
            && b.name == Get(p, "siteName")
            && b.pollutionForecast == Get(p, "pollutionForecast")
            && b.latestResult == Get(p, "latestResult")
            && b.latestResultRating == CoerceRating(Get(p, "latestResultRating")).value
            && b.pollutionForecastTimestamp == ParseTimestamp(Get(p, "pollutionForecastTimeStamp"), isoparse).value
            && b.latestResultObservationTimestamp == ParseTimestamp(Get(p, "latestResultObservationDate"), isoparse).value
            && b.geometry == feature.fields["geometry"]
  {
  }

  /** A feature whose optional values are all missing or null still maps,
      and the record holds no value for each of them. */
  lemma AbsentOptionalsAreNoValue(feature: Json, isoparse: IsoParser)
    requires feature.JObject? && "properties" in feature.fields && "geometry" in feature.fields
    requires feature.fields["properties"].JObject?
    requires Get(PropertiesOf(feature), "latestResultRating").None?
    requires Get(PropertiesOf(feature), "pollutionForecastTimeStamp").None?
    requires Get(PropertiesOf(feature), "latestResultObservationDate").None?
    ensures CreateBeach(feature, isoparse).Success?
    ensures CreateBeach(feature, isoparse).value.latestResultRating.None?
    ensures CreateBeach(feature, isoparse).value.pollutionForecastTimestamp.None?
    ensures CreateBeach(feature, isoparse).value.latestResultObservationTimestamp.None?
  {
  }

  /** A feature written from given values, as the feed writes one. */
  function FeatureOf(id: string, name: string, forecast: string, forecastTime: string,
                     result: string, rating: int, observationTime: string, geometry: Json): (feature: Json)
    ensures feature.JObject? && "properties" in feature.fields && "geometry" in feature.fields
  {
    JObject(map[
      "type" := JString("Feature"),
      "geometry" := geometry,
      "properties" := JObject(map[
        "id" := JString(id),
        "siteName" := JString(name),
        "pollutionForecast" := JString(forecast),
        "pollutionForecastTimeStamp" := JString(forecastTime),
        "latestResult" := JString(result),
        "latestResultRating" := JInt(rating),
        "latestResultObservationDate" := JString(observationTime)])])
  }

  /** The values put into a feature come back on its record: the strings
      as they were, the rating as the same integer and the timestamps as
      the parser reads them. */
  lemma FeatureRoundTrip(id: string, name: string, forecast: string, forecastTime: string,
                         result: string, rating: int, observationTime: string, geometry: Json,
                         isoparse: IsoParser)
    requires isoparse(forecastTime).Some? && isoparse(observationTime).Some?
    ensures CreateBeach(FeatureOf(id, name, forecast, forecastTime, result, rating, observationTime, geometry), isoparse)
            == Success(Beach(Some(JString(id)), Some(JString(name)), Some(JString(forecast)), isoparse(forecastTime),
                             Some(JString(result)), Some(rating), isoparse(observationTime), geometry))
  {
  }

  // ---------------------------------------------------------------------
  // The behaviours the repository's tests exercise, and two quirks
  // ---------------------------------------------------------------------

  /** A feature that carries only a site name. */
  function NamedFeature(name: string): (feature: Json)
    ensures SiteName(feature) == Success(JString(name))
  {
    JObject(map["type" := JString("Feature"), "properties" := JObject(map["siteName" := JString(name)])])
  }

  /** A collection holding the given features. */
  function Collection(features: seq<Json>): (doc: Json)
    ensures FeatureList(doc) == Success(features)
  {
    JObject(map["type" := JString("FeatureCollection"), "features" := JArray(features)])
  }

  /** The name set of no names. */
  lemma NameSetOfNothing()
    ensures NameSet([]) == Success({})
  {
    var r := NameSet([]);
    assert forall n :: n !in r.value;
    assert r.value == {};
  }

  /** The name set of a single string name. */
  lemma NameSetOfOneName(name: string)
    ensures NameSet([JString(name)]) == Success({name})
  {
    var r := NameSet([JString(name)]);
    assert forall n :: n in r.value <==> n == name;
    assert r.value == {name};
  }

  /** An empty collection for "Goose Beach" reports "Goose Beach". */
  lemma GooseBeachReported()
    ensures CheckResolved(["Goose Beach"], EmptyCollection) == Failure(UnknownBeaches({"Goose Beach"}))
  {
    assert FeatureList(EmptyCollection) == Success([]);
    assert MapAll([], SiteName) == Success([]);
    NameSetOfNothing();
    assert (set n | n in ["Goose Beach"]) - {} == {"Goose Beach"};
  }

  /** Only Bondi Beach back for Bondi Beach and Goose Beach: the error
      names Goose Beach and not Bondi Beach. */
  lemma BondiFoundGooseReported()
    ensures CheckResolved(["Bondi Beach", "Goose Beach"], Collection([NamedFeature("Bondi Beach")]))
            == Failure(UnknownBeaches({"Goose Beach"}))
  {
    var features := [NamedFeature("Bondi Beach")];
    var returned := MapAll(features, SiteName);
    assert returned.Success? && |returned.value| == 1 && returned.value[0] == JString("Bondi Beach");
    assert returned.value == [JString("Bondi Beach")];
    NameSetOfOneName("Bondi Beach");
    assert (set n | n in ["Bondi Beach", "Goose Beach"]) - {"Bondi Beach"} == {"Goose Beach"};
  }

  /** Bondi Beach returned for Goose Beach passes the check: the count
      matches, and the names are never compared. */
  lemma SameCountSubstitutionUndetected()
    ensures CheckResolved(["Goose Beach"], Collection([NamedFeature("Bondi Beach")]))
            == Success([NamedFeature("Bondi Beach")])
  {
  }

  /** A repeated name counts twice: one Bondi Beach back for Bondi Beach
      asked twice fails, and the error names no beach at all. */
  lemma DuplicateNameFailsNamingNothing()
    ensures CheckResolved(["Bondi Beach", "Bondi Beach"], Collection([NamedFeature("Bondi Beach")]))
            == Failure(UnknownBeaches({}))
  {
    var features := [NamedFeature("Bondi Beach")];
    var returned := MapAll(features, SiteName);
    assert returned.Success? && |returned.value| == 1 && returned.value[0] == JString("Bondi Beach");
    assert returned.value == [JString("Bondi Beach")];
    NameSetOfOneName("Bondi Beach");
    assert (set n | n in ["Bondi Beach", "Bondi Beach"]) - {"Bondi Beach"} == {};
  }
}
