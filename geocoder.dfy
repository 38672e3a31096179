/**
 * The `/addresses` endpoint of the gateway (geocoder.py): validate the
 * `latlng` parameter, try the authorities one after another in a shuffled
 * order until one of them answers, and choose the HTTP response; plus the
 * start-up configuration of the authorities.
 */
module Geocoder {
  import opened Wrappers
  import opened Strings
  import opened Json
  import opened Coordinates
  import opened GeoAuthority
  import Googlemaps
  import Heregeocode

  /** The authority classes the gateway consults. */
  datatype AuthorityClass = GoogleMapsClass | HereGeocodeClass

  /** GEOCODER_AUTHORITY_CLASSES, before shuffling. */
  const AUTHORITY_CLASSES: seq<AuthorityClass> := [GoogleMapsClass, HereGeocodeClass]

  const MISSING_LATLNG_MESSAGE: string := "Missing query parameters (latlng)"
  const INVALID_LATLNG_MESSAGE: string := "Invalid latlng parameter, expected 'lat,lng' in decimal format"
  const OUT_OF_RANGE_MESSAGE: string := "latlng out of range"
  const NO_VALID_RESPONSE_MESSAGE: string := "No valid response from authorities"

  /** The message of a rejected `latlng`: ValueError has a fixed text, InputParamError its own. */
  function InputErrorMessage(e: InputError): string {
    match e
    case FormatError => INVALID_LATLNG_MESSAGE
    case PrecisionError(minPrecision) =>
      "latlng precision must be " + IntToString(minPrecision) + " decimal places or more"
    case RangeError => OUT_OF_RANGE_MESSAGE
  }

  /** What the endpoint sends back: the HTTP status and the JSON body. */
  datatype HttpResponse = HttpResponse(status: int, body: Json)

  function ErrorResponse(message: string): HttpResponse {
    HttpResponse(400, Object(map["status" := String("ERROR"), "status-msg" := String(message)]))
  }

  const FAIL_RESPONSE: HttpResponse :=
    HttpResponse(200, Object(map["status" := String("FAIL"), "status-msg" := String(NO_VALID_RESPONSE_MESSAGE)]))

  function OkResponse(results: seq<Json>): HttpResponse {
    HttpResponse(200, Object(map["results" := Array(results), "status" := String("OK")]))
  }

  /** The position of the first authority that answered, or the number of authorities when none did. */
  function FirstSuccessIndex(outcomes: seq<AuthorityResult>): (k: nat)
    ensures k <= |outcomes|
    ensures forall j :: 0 <= j < k ==> outcomes[j].Failure?
    ensures k < |outcomes| ==> outcomes[k].Success?
  {
    if outcomes == [] || outcomes[0].Success? then 0
    else
      var k := FirstSuccessIndex(outcomes[1..]);
      assert forall j :: 1 <= j < |outcomes| ==> outcomes[1..][j - 1] == outcomes[j];
      1 + k
  }

  /**
   * The results of the failover loop over the outcomes of the authorities in
   * trial order: those of the first authority that did not raise, or None
   * when all of them raised. An empty list is an answer like any other.
   */
  function FirstSuccess(outcomes: seq<AuthorityResult>): (r: Option<seq<Json>>)
    ensures r.None? <==> forall j :: 0 <= j < |outcomes| ==> outcomes[j].Failure?
    ensures r.Some? ==>
              exists k :: 0 <= k < |outcomes| && outcomes[k] == Success(r.value)
                          && forall j :: 0 <= j < k ==> outcomes[j].Failure?
  {
    var k := FirstSuccessIndex(outcomes);
    if k == |outcomes| then None else Some(outcomes[k].value)
  }

  /** How many authorities the loop consults: up to and including the first that answers. */
  function Attempts(outcomes: seq<AuthorityResult>): (n: nat)
    ensures n <= |outcomes|
    ensures FirstSuccess(outcomes).None? ==> n == |outcomes|
    ensures FirstSuccess(outcomes).Some? ==>
              && 1 <= n
              && outcomes[n - 1] == Success(FirstSuccess(outcomes).value)
              && forall j :: 0 <= j < n - 1 ==> outcomes[j].Failure?
  {
    var k := FirstSuccessIndex(outcomes);
    if k < |outcomes| then k + 1 else |outcomes|
  }

  /**
   * The response of `/addresses`, given the optional `latlng` argument and
   * the outcomes the authorities, in trial order, give for a validated pair.
   */
  function Respond(latlng: Option<string>, minPrecision: int,
                   authorities: (string, string) -> seq<AuthorityResult>): (r: HttpResponse)
    ensures latlng.None? ==> r == ErrorResponse(MISSING_LATLNG_MESSAGE)
    ensures latlng.Some? && ParseLatLng(latlng.value, minPrecision).Failure? ==>
              r == ErrorResponse(InputErrorMessage(ParseLatLng(latlng.value, minPrecision).error))
    ensures latlng.Some? && ParseLatLng(latlng.value, minPrecision).Success? ==>
              var (lat, lng) := ParseLatLng(latlng.value, minPrecision).value;
              r == match FirstSuccess(authorities(lat, lng))
                   case None => FAIL_RESPONSE
                   case Some(results) => OkResponse(results)
  {
    match latlng
    case None => ErrorResponse(MISSING_LATLNG_MESSAGE)
    case Some(text) =>
      match ParseLatLng(text, minPrecision)
      case Failure(e) => ErrorResponse(InputErrorMessage(e))
      case Success((lat, lng)) =>
        match FirstSuccess(authorities(lat, lng))
        case None => FAIL_RESPONSE
        case Some(results) => OkResponse(results)
  }

  /** A 400 ERROR exactly when `latlng` is missing or rejected. */
  lemma ErrorExactlyOnBadInput(latlng: Option<string>, minPrecision: int,
                               authorities: (string, string) -> seq<AuthorityResult>)
    ensures Respond(latlng, minPrecision, authorities).status == 400 <==>
              latlng.None? || ParseLatLng(latlng.value, minPrecision).Failure?
  {
  }

  /** Every authority raised. */
  predicate AllRaise(outcomes: seq<AuthorityResult>) {
    forall k :: 0 <= k < |outcomes| ==> outcomes[k].Failure?
  }

  /** FAIL exactly when `latlng` is valid and every authority raised. */
  lemma FailExactlyWhenAllRaise(latlng: Option<string>, minPrecision: int,
                                authorities: (string, string) -> seq<AuthorityResult>)
    ensures Respond(latlng, minPrecision, authorities) == FAIL_RESPONSE <==>
              && latlng.Some? && ParseLatLng(latlng.value, minPrecision).Success?
              && AllRaise(authorities(ParseLatLng(latlng.value, minPrecision).value.0,
                                      ParseLatLng(latlng.value, minPrecision).value.1))
  {
    if latlng.Some? && ParseLatLng(latlng.value, minPrecision).Success? {
      var pair := ParseLatLng(latlng.value, minPrecision).value;
      var first := FirstSuccess(authorities(pair.0, pair.1));
      if first.Some? {
        OkIsNotFail(first.value);
      }
    }
  }

  lemma OkIsNotFail(results: seq<Json>)
    ensures OkResponse(results) != FAIL_RESPONSE
  {
    assert "results" in OkResponse(results).body.members;
  }

  /** An authority that answers with no addresses gives OK with an empty list, not FAIL. */
  lemma EmptyAnswerIsOk(outcomes: seq<AuthorityResult>, k: nat)
    requires k < |outcomes| && outcomes[k] == Success([])
    requires forall j :: 0 <= j < k ==> outcomes[j].Failure?
    ensures FirstSuccess(outcomes) == Some([])
    ensures Attempts(outcomes) == k + 1
  {
    FirstSuccessAt(outcomes, k);
  }

  /** The first authority that answers decides, and the loop stops right after it. */
  lemma FirstSuccessAt(outcomes: seq<AuthorityResult>, k: nat)
    requires k < |outcomes| && outcomes[k].Success?
    requires forall j :: 0 <= j < k ==> outcomes[j].Failure?
    ensures FirstSuccessIndex(outcomes) == k
    ensures FirstSuccess(outcomes) == Some(outcomes[k].value)
    ensures Attempts(outcomes) == k + 1
  {
  }

  /** The configured state of both authority classes. */
  datatype Setup = Setup(googleParams: map<string, Param>, hereParams: map<string, Param>, hereUrl: string)

  function SetupOf(google: Googlemaps.Config, here: Heregeocode.Config): Setup
    reads google, here
  {
    Setup(google.baseParams, here.baseParams, here.apiBaseUrl)
  }

  /** What a fresh instance of an authority class returns for a pair, in terms of the network's answer. */
  function Outcome(authority: AuthorityClass, lat: string, lng: string, setup: Setup,
                   net: Request -> HttpOutcome): AuthorityResult
  {
    match authority
    case GoogleMapsClass =>
      Locate(net(Request(Googlemaps.API_BASE_URL, setup.googleParams["latlng" := Text(lat + "," + lng)])),
             Googlemaps.LocationAddresses)
    case HereGeocodeClass =>
      Locate(net(Request(setup.hereUrl, setup.hereParams["prox" := Text(lat + "," + lng + ",25")])),
             Heregeocode.LocationAddresses)
  }

  /** The outcome of every authority of a trial order. */
  function Outcomes(order: seq<AuthorityClass>, lat: string, lng: string, setup: Setup,
                    net: Request -> HttpOutcome): (r: seq<AuthorityResult>)
    ensures |r| == |order|
    ensures forall k :: 0 <= k < |order| ==> r[k] == Outcome(order[k], lat, lng, setup, net)
  {
    seq(|order|, k requires 0 <= k < |order| => Outcome(order[k], lat, lng, setup, net))
  }

  /** `authority_class()` followed by `location_by_latlng(lat, lng)`. */
  method TryAuthority(authority: AuthorityClass, lat: string, lng: string,
                      google: Googlemaps.Config, here: Heregeocode.Config,
                      net: Request -> HttpOutcome) returns (r: AuthorityResult)
    ensures r == Outcome(authority, lat, lng, SetupOf(google, here), net)
  {
    match authority
    case GoogleMapsClass =>
      var instance := new Googlemaps.GoogleMaps(google);
      r := instance.LocationByLatLng(lat, lng, net);
    case HereGeocodeClass =>
      var instance := new Heregeocode.HereGeocode(here);
      r := instance.LocationByLatLng(lat, lng, net);
  }

  /**
   * The failover loop: try the authorities in the given order, passing over
   * those that raise and stopping at the first that answers. `tried` counts
   * the authorities consulted.
   */
  method Failover(order: seq<AuthorityClass>, lat: string, lng: string,
                  google: Googlemaps.Config, here: Heregeocode.Config,
                  net: Request -> HttpOutcome) returns (results: Option<seq<Json>>, ghost tried: nat)
    ensures results == FirstSuccess(Outcomes(order, lat, lng, SetupOf(google, here), net))
    ensures tried == Attempts(Outcomes(order, lat, lng, SetupOf(google, here), net))
  {
    ghost var outcomes := Outcomes(order, lat, lng, SetupOf(google, here), net);
    results := None;
    tried := 0;
    for i := 0 to |order|
      invariant tried == i
      invariant forall j :: 0 <= j < i ==> outcomes[j].Failure?
    {
      var r := TryAuthority(order[i], lat, lng, google, here, net);
      tried := tried + 1;
      if r.Success? {
        results := Some(r.value);
        FirstSuccessAt(outcomes, i);
        return;
      }
    }
  }

  /**
   * addresses(): the response for an optional `latlng`, with the authorities
   * tried in `order`, which random.shuffle makes a permutation of the
   * authority classes.
   */
  method Addresses(latlng: Option<string>, minPrecision: int, order: seq<AuthorityClass>,
                   google: Googlemaps.Config, here: Heregeocode.Config,
                   net: Request -> HttpOutcome) returns (response: HttpResponse)
    requires multiset(order) == multiset(AUTHORITY_CLASSES)
    ensures var setup := SetupOf(google, here);
            response == Respond(latlng, minPrecision, (lat, lng) => Outcomes(order, lat, lng, setup, net))
  {
    if latlng.None? {
      return ErrorResponse(MISSING_LATLNG_MESSAGE);
    }
    var parsed := ParseLatLng(latlng.value, minPrecision);
    if parsed.Failure? {
      return ErrorResponse(InputErrorMessage(parsed.error));
    }
    var (lat, lng) := parsed.value;
    var results, tried := Failover(order, lat, lng, google, here, net);
    if results.None? {
      return FAIL_RESPONSE;
    }
    return OkResponse(results.value);
  }

  /**
   * Whether every authority raises does not depend on the order they are
   * tried in, so FAIL is not an artefact of the shuffle.
   */
  lemma AllRaiseInAnyOrder(p: seq<AuthorityClass>, q: seq<AuthorityClass>, lat: string, lng: string,
                           setup: Setup, net: Request -> HttpOutcome)
    requires multiset(p) == multiset(q)
    ensures FirstSuccess(Outcomes(p, lat, lng, setup, net)).None? <==>
            FirstSuccess(Outcomes(q, lat, lng, setup, net)).None?
  {
    AllRaiseMeansEveryClass(p, lat, lng, setup, net);
    AllRaiseMeansEveryClass(q, lat, lng, setup, net);
    forall a ensures a in p <==> a in q {
      assert a in p <==> a in multiset(p);
      assert a in q <==> a in multiset(q);
    }
  }

  lemma AllRaiseMeansEveryClass(order: seq<AuthorityClass>, lat: string, lng: string,
                                setup: Setup, net: Request -> HttpOutcome)
    ensures FirstSuccess(Outcomes(order, lat, lng, setup, net)).None? <==>
            forall a :: a in order ==> Outcome(a, lat, lng, setup, net).Failure?
  {
    var outcomes := Outcomes(order, lat, lng, setup, net);
    if forall a :: a in order ==> Outcome(a, lat, lng, setup, net).Failure? {
      forall k | 0 <= k < |order| ensures outcomes[k].Failure? {
        assert order[k] in order;
      }
    }
  }

  /** The settings the gateway reads at start-up. */
  datatype AppConfig = AppConfig(minLatLngPrecision: int, googleMapsApiKey: string,
                                 hereGeocodeAppId: string, hereGeocodeAppCode: string, execMode: string)

  /**
   * Module set-up: give both authority classes their access keys and select
   * the production endpoint of here.com exactly in production mode.
   */
  method Configure(config: AppConfig, google: Googlemaps.Config, here: Heregeocode.Config)
    modifies google, here
    ensures google.baseParams == old(google.baseParams)["key" := Text(config.googleMapsApiKey)]
    ensures here.baseParams ==
              old(here.baseParams)["app_id" := Text(config.hereGeocodeAppId)]["app_code" := Text(config.hereGeocodeAppCode)]
    ensures here.apiBaseUrl ==
              (if config.execMode == "prod" then Heregeocode.API_BASE_URL_PROD else Heregeocode.API_BASE_URL_DEV)
  {
    google.SetApiAccessKeys(config.googleMapsApiKey);
    here.SetApiAccessKeys(config.hereGeocodeAppId, config.hereGeocodeAppCode);
    here.SetProdEndpoint(config.execMode == "prod");
  }
}
