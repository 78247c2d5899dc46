# Beachwatch client, modelled in Dafny

This project models `get_beaches` from the Python wrapper for the NSW
government's Beachwatch water-quality feed. The function asks the feed for zero
or more beaches by name. When names were given, it checks that the feed
returned as many features as names were passed. It then turns each GeoJSON feature into a
`Beach` record.

The model is pure, as the source is. It has three modules:

- `Wrappers` (`wrappers.dfy`) holds `Option` (Python's `None`) and `Result`
  (a value, or the exception raised instead).
- `Beachwatch` (`beachwatch.dfy`) is the core:
  - the decoded JSON value (`Json`);
  - Python's `value[key]` (`Index`) and `dict.get` (`Get`, `Fields`) on it;
  - the `Beach` record and `create_beach` (`CreateBeach`, with `CoerceRating`
    and `ParseTimestamp` for the optional fields);
  - the request parameters (`SiteParameters`);
  - the validation (`CheckResolved`, with `FeatureList`, `SiteName` and
    `NameSet`);
  - the whole call (`GetBeaches`).
  Every list comprehension that can raise is `MapAll`. It computes the elements
  left to right and stops at the first exception.
- `BeachwatchProperties` (`beachwatch_properties.dfy`) holds the lemmas. It
  also holds the reference definitions they compare against: the names read
  back from a parameter list (`ParameterValues`) and the validation without
  its empty-collection comparison (`CheckCount`).

The collaborators are parameters of `GetBeaches`:

- `transport` answers a parameter list with a `Response`. `Failed(status)`
  stands for `raise_for_status` raising; `Received(body)` is the decoded
  body. The call without names sends the empty parameter list.
- `isoparse` is the ISO-8601 parser. It maps text to an opaque `Timestamp`,
  or to `None` when the text is rejected.

Exceptions become the `Error` datatype:

- `HttpError`: `raise_for_status` raised.
- `UnknownBeaches`: the validation's `ValueError`. Its payload is a set.
- `MissingKey`: a `KeyError`.
- `WrongType`: a `TypeError` or `AttributeError` on a JSON value of the wrong
  kind.
- `NotAnInteger`, `NotATimestamp`: the `ValueError` of a malformed rating or
  timestamp.

Two places where the model follows what the code does rather than what it
declares:

- The `Beach` dataclass annotates `identifier`, `name`, `pollution_forecast`
  and `latest_result` as `str` (beachwatch/beachwatch.py:132-136). A dataclass
  does not enforce its annotations, and the code copies whatever JSON value is
  there, so the record holds `Option<Json>`. A JSON `null` reads as no value,
  like a missing key.
- The docstring promises a `ValueException` when a beach does not exist
  (beachwatch/beachwatch.py:27-32); the code raises `ValueError`
  (beachwatch/beachwatch.py:91). That error names the requested names
  minus the returned `siteName`s. But in that path the names are read with
  `feature["properties"]["siteName"]`. So a feature without a `siteName`
  raises `KeyError` instead. A `siteName` that is an array or object raises
  `TypeError` when the set is built. `CheckResolved` models both.

## Model

| member | source | states |
|---|---|---|
| `Beachwatch.Index` | beachwatch/beachwatch.py:38-39 | `feature[key]` succeeds exactly on an object that has the key, and gives that key's value. On an object without the key it raises a KeyError naming the key. |
| `Beachwatch.Get` | beachwatch/beachwatch.py:60-64 | `properties.get(key)` is no value exactly when the key is missing or holds JSON null. Otherwise it is the stored value. |
| `Beachwatch.Fields` | beachwatch/beachwatch.py:40 | `.get` can be called on `properties` exactly when it is an object, and then it reads that object's own fields. |
| `Beachwatch.CoerceRating` | beachwatch/beachwatch.py:40-44 | A missing or null rating, and only that, gives no value. An integer rating is kept as the same integer. A boolean becomes 1 or 0, as Python's `int()` makes it. Any other value fails with the value in the error, so only absence is tolerated. |
| `Beachwatch.ParseTimestamp` | beachwatch/beachwatch.py:45-58 | A missing or null timestamp, and only that, gives no value. A value is present exactly when the text is a string the parser accepts, and it is the parser's result. Otherwise it fails with the value in the error. |
| `Beachwatch.CreateBeach` | beachwatch/beachwatch.py:35-70 | A mapped feature is an object with `properties` (an object) and `geometry`, and its geometry is stored unchanged. A missing `properties` raises a KeyError for `properties`. With `properties` present, a missing `geometry` raises a KeyError for `geometry`. |
| `Beachwatch.MapAll` | beachwatch/beachwatch.py:95 | A comprehension succeeds exactly when every element maps. Its result then has the input's length and holds element i's image at i. On failure, the error is that of the first element that fails, and every earlier element mapped. |
| `Beachwatch.SiteParameters` | beachwatch/beachwatch.py:72-75 | One parameter per requested name, each under the `site_name` key. |
| `Beachwatch.FeatureList` | beachwatch/beachwatch.py:84 | `response.json()["features"]` succeeds exactly when the body is an object whose `features` is an array, and gives that array. |
| `Beachwatch.SiteName` | beachwatch/beachwatch.py:86-89 | `feature["properties"]["siteName"]` succeeds exactly when the feature has an object `properties` that has a `siteName`, and gives that entry's value. |
| `Beachwatch.NameSet` | beachwatch/beachwatch.py:90 | `set(returned)` succeeds exactly when every returned name is hashable. A requested name is then in it exactly when that name came back as a string. |
| `Beachwatch.CheckResolved` | beachwatch/beachwatch.py:83-93 | A passing check returns the feed's own feature list, with as many features as names were passed. The names themselves are not compared. Every name it reports as unknown was requested. |
| `Beachwatch.GetBeaches` | beachwatch/beachwatch.py:72-103 | An unknown-beach error happens only when names were given. A successful call with names returns as many records as names were passed. |
| `BeachwatchProperties.ParameterValues` | beachwatch/beachwatch.py:73-75 | Reading the names back from a parameter list gives one name per parameter. |
| `BeachwatchProperties.ParametersCarryEveryName` | beachwatch/beachwatch.py:72-75 | Reading back the parameters gives exactly the requested names, in order and with duplicates (the same multiset). Parameter i is `("site_name", names[i])`. |
| `BeachwatchProperties.CheckCount` | beachwatch/beachwatch.py:83-85 | The count test alone passes exactly when the body has a feature list as long as the name list. |
| `BeachwatchProperties.EmptyCollectionTestRedundant` | beachwatch/beachwatch.py:83-85 | With at least one name, the validation equals the count test alone. Comparing with `{"type": "FeatureCollection", "features": []}` adds nothing. The comparison would only matter with no names, and then the check is not made. |
| `BeachwatchProperties.ValidationFailsExactlyOnCountMismatch` | beachwatch/beachwatch.py:83-85 | With at least one name and a well-formed body, validation passes exactly when the feature count equals the name count, and it passes on the features unchanged. |
| `BeachwatchProperties.UnknownBeachesAreTheMissing` | beachwatch/beachwatch.py:86-93 | The reported names are exactly the requested names that no returned feature carries as its `siteName`. So every reported name was requested, and no returned name is reported. |
| `BeachwatchProperties.CountMismatchRaisesUnknownBeaches` | beachwatch/beachwatch.py:83-93 | On a count mismatch where every feature has a hashable `siteName`, the error raised is the unknown-beach error. |
| `BeachwatchProperties.HttpErrorPropagates` | beachwatch/beachwatch.py:82 | A failed status becomes the call's error unchanged. |
| `BeachwatchProperties.UnresolvedBeforeMapping` | beachwatch/beachwatch.py:83-96 | When validation fails, the call fails with the validation's error. No record is produced, and the outcome does not depend on how features would be mapped. |
| `BeachwatchProperties.ResolvedFeaturesMappedInOrder` | beachwatch/beachwatch.py:95-96 | After a passing check, the call succeeds exactly when every feature maps. Record i is then the mapping of feature i, in the feed's order, and there are as many records as names were passed. |
| `BeachwatchProperties.NoNamesMapsEveryFeature` | beachwatch/beachwatch.py:98-103 | With no names, nothing is checked. The call succeeds exactly when every feature maps, record i maps feature i, and zero features give zero records. |
| `BeachwatchProperties.CreateBeachSucceedsExactly` | beachwatch/beachwatch.py:35-58 | A feature maps exactly when it is an object with `properties` (an object) and `geometry`, and its rating and both timestamps are absent or well formed. |
| `BeachwatchProperties.CreateBeachCopiesFields` | beachwatch/beachwatch.py:59-68 | A record copies `id`, `siteName`, `pollutionForecast` and `latestResult` by key. It holds the converted rating and timestamps, and the geometry unchanged. |
| `BeachwatchProperties.AbsentOptionalsAreNoValue` | beachwatch/beachwatch.py:40-58 | A feature whose rating and timestamps are all missing or null still maps, and each of those fields has no value. |
| `BeachwatchProperties.FeatureRoundTrip` | beachwatch/beachwatch.py:35-70 | The values written into a feature come back on its record: the strings as they were, the rating as the same integer, and the timestamps as the parser reads them. |
| `BeachwatchProperties.GooseBeachReported` | tests/test_beachwatch.py:70-82 | An empty collection for "Goose Beach" raises an unknown-beach error naming exactly "Goose Beach". |
| `BeachwatchProperties.BondiFoundGooseReported` | tests/test_beachwatch.py:58-67 | Only Bondi Beach returned, for Bondi Beach and Goose Beach: the error names Goose Beach and not Bondi Beach. |
| `BeachwatchProperties.SameCountSubstitutionUndetected` | beachwatch/beachwatch.py:83-85 | Bondi Beach returned for a request for Goose Beach passes the check. |
| `BeachwatchProperties.DuplicateNameFailsNamingNothing` | beachwatch/beachwatch.py:83-90 | Bondi Beach asked for twice, with one Bondi Beach returned, fails, and the error names no beach. |

## Left out

- HTTP transport: the endpoint URL, the 15-second timeout, connection handling, and which statuses make `raise_for_status` raise. These are left to the `transport` parameter.
- JSON decoding: the body enters already decoded. A body that is not JSON is not modelled.
- JSON numbers other than integers: floats are not part of `Json`.
- ISO-8601 parsing is the `isoparse` parameter. For example, that "2024-06-18T03:30:04.62+00:00" is June 18 2024, 03:30:04.62 UTC is not modelled.
- The error text and the order of the `list(set(...))` in it: the payload is a set.
- CoerceRating: a string such as "4", which Python's `int()` accepts, is reported as `NotAnInteger`. So are arrays and objects, whose `TypeError` Python swallows, leaving the raw value in the record.
- ParseTimestamp: non-string values (numbers, booleans, arrays, objects) are reported as `NotATimestamp`. For some of these the parser raises a `TypeError` that Python swallows, leaving the raw value in the record.
- FeatureList: a `features` value that is a string or an object is reported as `WrongType`. Python's `len()` and iteration accept these; only an empty one gives a different visible outcome.
- Names passed to `get_beaches` are strings. Python would also accept other hashable values.
