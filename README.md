# Reverse-geocoding gateway, modelled in Dafny

This project models the core of a reverse-geocoding gateway. The gateway
serves `/addresses?latlng=<lat>,<lng>`. It validates the coordinate pair,
then asks the street-address authorities (Google Maps and here.com) one
after another, in a shuffled order, until one of them answers. The reply is
400 ERROR for a missing or rejected parameter, 200 FAIL when every
authority failed, and 200 OK with the addresses otherwise.

The model has one module per part of the program:

- `Strings` (strings.dfy) covers the Python string operations the code relies on:
  - `str.split` with a one-character separator, and `str.strip` with Python's whitespace set;
  - the substring test done by `in`;
  - integer formatting.
- `Json` (json.dfy) is a JSON value, together with Python's subscript, iteration and `>=` on decoded JSON.
- `Decimals` (decimals.dfy) is an exact decimal literal (sign, integer digits, fraction digits). It stands in for `float()` in the range check, which is decided on the digits and proved equal to the exact comparison.
- `Coordinates` (coordinates.dfy) models `verify_coord_precision` and `parse_latlng_params`.
- `GeoAuthority` (geoauthority.dfy) covers what all authorities share:
  - the request value;
  - `send_request`'s classification of the HTTP outcome;
  - `location_by_latlng` as send but then parse;
  - the in-order selection of addresses from a result list.
- `Googlemaps` (googlemaps.dfy) and `Heregeocode` (heregeocode.dfy) are the two authorities:
  - the module-level base parameters and the class-level endpoint are `Config` objects that the key setters and the endpoint selector update;
  - each authority instance is a class holding its own copy of the parameters;
  - `parse_location_response` is a method with a loop, proved equal to a specification function over JSON.
- `Geocoder` (geocoder.dfy) models `addresses()`:
  - the response decision is the function `Respond`;
  - the failover loop is the method `Failover`;
  - the whole handler is the method `Addresses`;
  - the start-up configuration is the method `Configure`.
- `CoordinateCases` (coordinate_cases.dfy) and `GatewayCases` (gateway_cases.dfy) work out concrete parameters, including those of geocoder_test.py. They assume a minimum precision of 5.

The HTTP call is an input: a function from the request to the outcome the
gateway observes. That outcome is a transport failure, or a status code with
a body that is valid JSON or not. The shuffled trial order is also an input,
and it is any permutation of the authority classes. The configured minimum
precision, the access keys and the execution mode are parameters.

Where the code does more than its docstrings say, the model follows the code:

- The addresses returned are whatever JSON value sits under `formatted_address` (Google) or `Location.Address.Label` (here.com), not necessarily strings.
- A Google `results` entry that is not an object is not always skipped:
  - a string containing `formatted_address`, or a list holding that string, passes the `in` test and then fails the subscript;
  - a number, a boolean or null makes `in` raise TypeError;
  - each of these ends the whole response with a structure error.
- A here.com view whose `Result` is a string is iterated character by character, and each character is skipped, so the answer is empty, not an error (`Heregeocode.StringResultIsEmpty`).
- Every field is checked for format and precision before the fields are counted. So `"41.88391,1.12345,3.1"` is a precision error. When the latitude is out of range the longitude is never read as a number.

The first precision test in geocoder_test.py (lines 21-23) is shadowed by the
method of the same name at line 25, so it never runs. Its expectation is
proved anyway (`CoordinateCases.ShortFractionIsPrecisionError`,
`GatewayCases.ImpreciseParameter`).

## Model

| member | source | states |
|---|---|---|
| Strings.StripIsTrim | geocoder.py:51 | the result has no whitespace at either end and is the input with only whitespace removed on both sides |
| Strings.StripTrimmed | geocoder.py:51 | text with no whitespace at either end is returned unchanged |
| Strings.SplitJoins | geocoder.py:41 | the number of pieces is the number of separators plus one, no piece holds the separator, and joining the pieces with the separator gives back the input |
| Strings.SplitOfJoin | geocoder.py:51 | splitting the join of one or more separator-free pieces gives back exactly those pieces |
| Strings.IsSubstringAt | geoauthority/googlemaps.py:55 | the recursive substring test holds exactly when the needle occurs at some position of the text |
| Strings.NatToString | geocoder.py:43-44 | the text is non-empty, all digits, reads back as the number, and has no leading zero unless the number is 0 |
| Strings.IntToString | geocoder.py:43-44 | non-negative numbers are written as their digits, negative ones with a leading `-` |
| Json.Get | geoauthority/googlemaps.py:48 | a subscript by key succeeds exactly on an object that holds the key (else KeyError or TypeError) |
| Json.Elements | geoauthority/googlemaps.py:54 | iteration yields a list's items in order, a string's characters as one-character strings, and raises on numbers, booleans and null |
| Json.AtLeast | geoauthority/heregeocode.py:79 | `>=` against an integer compares numbers by value and booleans as 0/1, and raises TypeError on every other value |
| Decimals.ParseDecimal | geocoder.py:52 | an accepted text is a well-formed literal (optional sign, digits, one dot, digits, at least one digit) whose rendering is exactly the text |
| Decimals.ParseOfRender | geocoder.py:52 | every well-formed literal is read back as itself |
| Decimals.WithinBoundIsExact | geocoder.py:52 | the digit-wise range test holds exactly when the literal's exact value lies within [-bound, bound] |
| Coordinates.VerifyCoordPrecision | geocoder.py:37-45 | format error exactly when the text does not hold exactly one dot; otherwise precision error exactly when fewer than the minimum characters follow the dot; on success the text is returned as is |
| Coordinates.FirstFailure | geocoder.py:51 | left-to-right evaluation of checks succeeds exactly when all succeed, with their values in order; otherwise the error is that of a failing check preceded only by successes |
| Coordinates.VerifyFields | geocoder.py:51 | the fields pass exactly when every stripped field passes its check; the values are the stripped fields; the error is a format or precision error |
| Coordinates.VerifyFieldsFirstFailure | geocoder.py:51 | the error reported is the one of the leftmost field that fails |
| Coordinates.ParseLatLng | geocoder.py:47-54 | a success comes from exactly two fields and returns them stripped; a field check failure is reported before the field count; a wrong count is a format error; two passing fields get exactly the outcome of the range test on their stripped texts, so a range error happens only after both fields passed |
| Coordinates.CheckRange | geocoder.py:52-53 | success exactly when both texts read as numbers within ±90 and ±180, returning them unchanged; a latitude that is not a number is a format error and one out of range a range error, whatever the longitude; with the latitude in range, a longitude that is not a number is a format error and one out of range a range error |
| Coordinates.ParseLatLngAccepts | geocoder.py:47-54 | a parameter is accepted exactly when it has two fields whose stripped texts are literals with enough fraction digits and exact values within ±90 (latitude) and ±180 (longitude) |
| CoordinateCases.PrecisionBeforeRange | geocoder.py:51-52 | `"41.8,-190.63845"` is a precision error, not a range error |
| CoordinateCases.WordIsFormatError | geocoder_test.py:17-19 | `"41.88391,thirtyone"` is a format error |
| CoordinateCases.ShortFractionIsPrecisionError | geocoder_test.py:21-23 | `"41.88391,-179.638"` is a precision error |
| CoordinateCases.LongitudeOutOfRange | geocoder_test.py:25-27 | `"41.88391,-190.63845"` is a range error |
| CoordinateCases.BoundsAccepted | geocoder.py:52-54 | `"90.00000,-180.00000"` is accepted and returned as written |
| CoordinateCases.LettersAreFormatError | geocoder.py:52 | `"ab.cdefg,1.00000"` passes the precision check and is a format error |
| CoordinateCases.ThirdFieldCheckedFirst | geocoder.py:51 | `"41.88391,1.12345,3.1"` is a precision error although it has three fields |
| GeoAuthority.SendRequest | geoauthority/__init__.py:54-73 | only a 200 reply with a JSON body succeeds, returning that body unchanged; a transport failure, any other status whatever the body, and an absent or invalid body each fail |
| GeoAuthority.Locate | geoauthority/__init__.py:48-52 | a send failure is the result and parsing is not reached; otherwise the result is the parser's on the body sent back |
| GeoAuthority.FailedSendIgnoresParser | geoauthority/__init__.py:51-52 | when sending fails, the outcome is a failure and the same for any parser |
| GeoAuthority.Selected | geoauthority/heregeocode.py:77-81 | at most one address per entry; every address comes from a kept entry and every kept entry's address is present |
| GeoAuthority.NothingKept | geoauthority/googlemaps.py:54-56 | a list none of whose entries is kept gives no addresses |
| GeoAuthority.PrefixStep | geoauthority/googlemaps.py:54-56 | one more entry adds its own address, or nothing, at the end, and the loop has failed exactly when it had already failed or this entry is fatal |
| GeoAuthority.FatalPrefix | geoauthority/googlemaps.py:54-58 | a fatal entry among the first entries is a fatal entry of the whole list |
| GeoAuthority.SelectedAppend | geoauthority/heregeocode.py:77-81 | the addresses of a concatenation are those of the first part followed by those of the second (input order is kept) |
| Googlemaps.Config.constructor | geoauthority/googlemaps.py:7-11 | the base parameters start as location_type ROOFTOP, result_type street_address, and an empty key |
| Googlemaps.Config.SetApiAccessKeys | geoauthority/googlemaps.py:23-26 | only `key` changes, to the given key |
| Googlemaps.AddressOfVerdicts | geoauthority/googlemaps.py:54-56 | an entry is kept exactly when it is an object holding `formatted_address`, yielding that value; it is fatal exactly when it is a number, boolean or null, a string containing the name, or a list holding it |
| Googlemaps.LocationAddresses | geoauthority/googlemaps.py:42-60 | no status (or a non-object body) is a structure error; ZERO_RESULTS is an empty success whatever `results` holds; any status but OK is a status error; OK without `results` is a structure error; with OK, a `results` that is null, a boolean or a number is a structure error, and an object-valued one is a structure error exactly when some key contains `formatted_address`, otherwise an empty success; every error is one of those two |
| Googlemaps.OkObjectEntries | geoauthority/googlemaps.py:54-56 | with status OK and a list of objects, the result is exactly the `formatted_address` values of the entries that have one, in order |
| Googlemaps.OkList | geoauthority/googlemaps.py:54-58 | with status OK and a `results` list, one fatal entry makes it a structure error; otherwise the result is the kept addresses |
| Googlemaps.ScanKeys | geoauthority/googlemaps.py:54-55 | the loop over an object's keys finds a key containing `formatted_address` exactly when there is one |
| Googlemaps.ScanEntries | geoauthority/googlemaps.py:54-58 | the appending loop returns a structure error exactly when some entry is fatal, and otherwise exactly the kept addresses in order |
| Googlemaps.AddressesFromEntries | geoauthority/googlemaps.py:54-56 | a non-empty success comes from an OK body with a `results` list, is no longer than that list, and each address is some entry's `formatted_address` |
| Googlemaps.GoogleMaps.constructor | geoauthority/googlemaps.py:17-21 | a new instance has the Google endpoint and a copy of the current base parameters |
| Googlemaps.GoogleMaps.PrepLatLngParams | geoauthority/googlemaps.py:38-40 | `latlng` becomes `lat + "," + lng`; every other parameter and the URL are unchanged |
| Googlemaps.GoogleMaps.ParseLocationResponse | geoauthority/googlemaps.py:42-60 | the appending loop returns exactly what LocationAddresses specifies |
| Googlemaps.GoogleMaps.LocationByLatLng | geoauthority/__init__.py:48-60 | prepares `latlng`, then the result is Locate applied to the network's answer to the instance's current URL and parameters |
| Googlemaps.PrepStaysLocal | geoauthority/googlemaps.py:17-40 | preparing a fresh instance leaves the base parameters and every other instance unchanged (parameter maps are values, which stands for the `.copy()` at construction) |
| Heregeocode.Config.constructor | geoauthority/heregeocode.py:7-27 | the base parameters start as mode retrieveAddresses, maxresults 100, gen 8 and empty app keys; the endpoint starts as development |
| Heregeocode.Config.SetApiAccessKeys | geoauthority/heregeocode.py:35-41 | only `app_id` and `app_code` change; the endpoint is unchanged |
| Heregeocode.Config.SetProdEndpoint | geoauthority/heregeocode.py:43-46 | the endpoint becomes production exactly when asked for, development otherwise; the parameters are unchanged |
| Heregeocode.Path | geoauthority/heregeocode.py:68 | a chain of subscripts fails as soon as one level is missing or not an object |
| Heregeocode.AddressOf | geoauthority/heregeocode.py:78-84 | never fatal; an entry is kept exactly when Relevance is at least 1, Location.LocationType is "address" and Location.Address.Label exists, yielding that label |
| Heregeocode.LocationAddresses | geoauthority/heregeocode.py:62-88 | a missing Response or View is a structure error, and so is a View that is not a list; an empty View is an empty success; more than one view is a structure error; with exactly one view, a missing `Result` or a `Result` that is a number, boolean or null is a structure error and an object-valued one gives an empty success; every error is a structure error |
| Heregeocode.StringResultIsEmpty | geoauthority/heregeocode.py:77-84 | one view whose `Result` is a string gives an empty success: its characters are visited and each is skipped |
| Heregeocode.OneViewAddresses | geoauthority/heregeocode.py:77-81 | with one view whose Result is a list, the result succeeds, is no longer than the list, every address is the label of a qualifying entry, and every qualifying entry's label is present |
| Heregeocode.SkippedEntry | geoauthority/heregeocode.py:78-84 | a non-qualifying entry contributes nothing: the addresses before it stay and those after it are still collected |
| Heregeocode.AddressesBounded | geoauthority/heregeocode.py:77-81 | a non-empty success comes from the single view's Result list and is no longer than it |
| Heregeocode.HereGeocode.constructor | geoauthority/heregeocode.py:29-33 | a new instance takes the class endpoint as it is now and a copy of the current base parameters |
| Heregeocode.HereGeocode.PrepLatLngParams | geoauthority/heregeocode.py:58-60 | `prox` becomes `lat + "," + lng + ",25"`; every other parameter and the URL are unchanged |
| Heregeocode.HereGeocode.ParseLocationResponse | geoauthority/heregeocode.py:62-88 | the appending loop, which skips malformed entries, returns exactly what LocationAddresses specifies |
| Heregeocode.HereGeocode.LocationByLatLng | geoauthority/__init__.py:48-60 | prepares `prox`, then the result is Locate applied to the network's answer to the instance's current URL and parameters |
| Heregeocode.EndpointAtConstruction | geoauthority/heregeocode.py:27-46 | an instance built before the endpoint is selected keeps the old endpoint; one built after has the selected one |
| Heregeocode.PrepStaysLocal | geoauthority/heregeocode.py:29-60 | preparing a fresh instance leaves the base parameters and every other instance unchanged (parameter maps are values, which stands for the `.copy()` at construction) |
| Geocoder.FirstSuccessIndex | geocoder.py:74-82 | the index is of the first authority that answered: all before it raised, and it answered unless no authority did |
| Geocoder.FirstSuccess | geocoder.py:73-85 | None exactly when every authority raised; otherwise the results of an authority preceded only by authorities that raised |
| Geocoder.Attempts | geocoder.py:74-82 | the loop consults every authority when all raise, and otherwise stops right after the first that answers |
| Geocoder.FirstSuccessAt | geocoder.py:74-82 | when the k-th authority answers and all before it raised, its results are returned and exactly k+1 authorities are consulted |
| Geocoder.EmptyAnswerIsOk | geocoder.py:84-87 | an authority answering with an empty list is a success, not a failure |
| Geocoder.Respond | geocoder.py:56-87 | a missing latlng is 400 "Missing query parameters (latlng)"; a rejected one is 400 with its error's message; a valid one is FAIL or OK with the first answer |
| Geocoder.ErrorExactlyOnBadInput | geocoder.py:58-68 | the status is 400 exactly when latlng is missing or rejected |
| Geocoder.FailExactlyWhenAllRaise | geocoder.py:84-85 | the response is FAIL exactly when latlng is valid and every authority raised |
| Geocoder.Outcomes | geocoder.py:74-77 | one outcome per authority of the trial order, each that of a fresh instance of its class |
| Geocoder.TryAuthority | geocoder.py:76-77 | constructing an instance and calling location_by_latlng gives that authority's outcome under the current configuration |
| Geocoder.Failover | geocoder.py:73-82 | the loop's results are those of the first authority in trial order that answered (None when all raised), and it consults exactly the authorities up to that one |
| Geocoder.Addresses | geocoder.py:56-87 | the handler's response is Respond applied to the outcomes of the authorities in the shuffled order |
| Geocoder.AllRaiseInAnyOrder | geocoder.py:71-72 | whether every authority raises is the same for every permutation of the trial order |
| Geocoder.AllRaiseMeansEveryClass | geocoder.py:74-85 | every authority of an order raises exactly when each class it contains raises |
| Geocoder.Configure | geocoder.py:30-32 | sets the Google key and the here.com app keys, and selects the production endpoint exactly when the mode is "prod" |
| GatewayCases.MissingParameter | geocoder_test.py:13-15 | no latlng gives 400 with "Missing query parameters (latlng)" |
| GatewayCases.InvalidParameter | geocoder_test.py:17-19 | `"41.88391,thirtyone"` gives 400 with "Invalid latlng parameter, expected 'lat,lng' in decimal format" |
| GatewayCases.ImpreciseParameter | geocoder_test.py:21-23 | `"41.88391,-179.638"` gives 400 with "latlng precision must be 5 decimal places or more" |
| GatewayCases.OutOfRangeParameter | geocoder_test.py:25-27 | `"41.88391,-190.63845"` gives 400 with "latlng out of range" |
| GatewayCases.Rejected | geocoder.py:61-68 | a rejected parameter is answered with 400 and the message of its error |
| GatewayCases.Accepted | geocoder.py:61-87 | an accepted parameter is answered with FAIL when every authority raises for its two fields, and otherwise OK with the first answer |
| GatewayCases.FormatMessage | geocoder.py:63-66 | the format error's message is "Invalid latlng parameter, expected 'lat,lng' in decimal format" |
| GatewayCases.RangeMessage | geocoder.py:53 | the range error's message is "latlng out of range" |
| GatewayCases.PrecisionMessage | geocoder.py:43-44 | the precision error for 5 reads "latlng precision must be 5 decimal places or more" |
| GatewayCases.BoundsReachAuthorities | geocoder.py:61-87 | `"90.00000,-180.00000"` reaches the authorities: FAIL when all raise, otherwise OK with the first answer |

## Left out

- The Flask layer is not modelled: routing, `request.args`, `jsonify` serialisation and `app.run`. The response is a status code and a JSON value.
- Configuration loading is not modelled: the config files, the `EXEC_MODE` variable and the log level. Minimum precision, keys and mode are parameters. A missing keyword argument in the key setters (KeyError) is not modelled either, because the keys are always supplied.
- The HTTP call is not modelled: `requests.get`, the 6-second timeout, disabled redirects, `res.url` and `res.text`. The network is a function from the request to its outcome.
- Logging is left out, including the diagnostic on statuses below 500, which does not change the outcome.
- `random.shuffle` is left out. The trial order is an input, and `Geocoder.Addresses` requires it to be a permutation.
- Python `float()` extras are left out: exponents, underscores, `inf`/`nan`, non-ASCII digits, and rounding of very long literals next to ±90/±180. The range test is exact.
- JSON `NaN`/`Infinity` (accepted by Python's decoder) are left out. All numbers are exact reals. Duplicate keys keep the last value, as a map does.
- Iteration order over an object-valued Google `results` is never observed. The outcome is an error exactly when some key contains `formatted_address`, which does not depend on the order.
- GeoAuthority.SendRequest: a 200 reply without valid JSON fails with the invalid-JSON message. Under newer versions of `requests` the same reply raises the transport message instead. Both are GeoAuthorityError, so the gateway behaves the same either way.
- Parameter maps are Dafny values, so an instance's parameters can never alias the base parameters. This stands for the `.copy()` each constructor makes (geoauthority/googlemaps.py:21, geoauthority/heregeocode.py:33). The unchanged-base clauses of the two `PrepStaysLocal` methods follow from that value semantics; they are no separate evidence of the copy.
- Concurrency and worker processes are left out. Each request is handled sequentially.
