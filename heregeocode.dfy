/**
 * The here.com reverse-geocoding authority (geoauthority/heregeocode.py):
 * development and production endpoints, the module-wide base parameters
 * holding the app keys, the per-instance copy of them, and the
 * normalisation of a response body, which requires exactly one view and
 * filters the entries of that view by relevance and location type.
 */
module Heregeocode {
  import opened Wrappers
  import opened Strings
  import opened Json
  import opened GeoAuthority

  const API_BASE_URL_DEV: string := "https://reverse.geocoder.cit.api.here.com/6.2/reversegeocode.json"
  const API_BASE_URL_PROD: string := "https://reverse.geocoder.api.here.com/6.2/reversegeocode.json"

  /** The base parameters as the module first defines them, with empty app keys. */
  const INITIAL_BASE_PARAMS: map<string, Param> :=
    map["mode" := Text("retrieveAddresses"), "maxresults" := Integer(100), "gen" := Integer(8),
        "app_id" := Text(""), "app_code" := Text("")]

  /** Minimum confidence score that the address matches. */
  const MIN_ACCEPTABLE_RELEVANCE: int := 1

  /** Search radius around the point, in metres. */
  const API_LATLNG_RADIUS: int := 25

  /**
   * The module-level base parameters and the class-level endpoint, which the
   * key setter and the endpoint selector update.
   */
  class Config {
    var baseParams: map<string, Param>
    var apiBaseUrl: string

    constructor ()
      ensures baseParams == INITIAL_BASE_PARAMS && apiBaseUrl == API_BASE_URL_DEV
    {
      baseParams := INITIAL_BASE_PARAMS;
      apiBaseUrl := API_BASE_URL_DEV;
    }

    /** set_api_access_keys: only `app_id` and `app_code` change. */
    method SetApiAccessKeys(appId: string, appCode: string)
      modifies this
      ensures baseParams == old(baseParams)["app_id" := Text(appId)]["app_code" := Text(appCode)]
      ensures apiBaseUrl == old(apiBaseUrl)
    {
      baseParams := baseParams["app_id" := Text(appId)]["app_code" := Text(appCode)];
    }

    /** set_prod_endpoint: the endpoint is production exactly when asked for. */
    method SetProdEndpoint(isProd: bool)
      modifies this
      ensures apiBaseUrl == (if isProd then API_BASE_URL_PROD else API_BASE_URL_DEV)
      ensures baseParams == old(baseParams)
    {
      apiBaseUrl := if isProd then API_BASE_URL_PROD else API_BASE_URL_DEV;
    }
  }

  /** The value at a path of keys, None as soon as a level is missing or not an object. */
  function Path(j: Json, keys: seq<string>): (r: Option<Json>)
    ensures keys == [] ==> r == Some(j)
    ensures keys != [] && Get(j, keys[0]).None? ==> r.None?
    ensures keys != [] && Get(j, keys[0]).Some? ==> r == Path(Get(j, keys[0]).value, keys[1..])
  {
    if keys == [] then Some(j)
    else
      match Get(j, keys[0])
      case None => None
      case Some(v) => Path(v, keys[1..])
  }

  /** The entry is a relevant street address that carries a label. */
  ghost predicate IsStreetAddress(entry: Json) {
    && Get(entry, "Relevance").Some?
    && AtLeast(Get(entry, "Relevance").value, MIN_ACCEPTABLE_RELEVANCE) == Some(true)
    && Path(entry, ["Location", "LocationType"]) == Some(String("address"))
    && Path(entry, ["Location", "Address", "Label"]).Some?
  }

  /**
   * How one entry of `Result` is treated: its `Location.Address.Label` is
   * kept when `Relevance` is at least the minimum and `Location.LocationType`
   * is "address". A missing key or a value of the wrong type raises KeyError
   * or TypeError, which only skips the entry.
   */
  function AddressOf(entry: Json): (v: Verdict)
    ensures !v.Fatal?
    ensures v.Keep? <==> IsStreetAddress(entry)
    ensures v.Keep? ==> Some(v.address) == Path(entry, ["Location", "Address", "Label"])
  {
    match Get(entry, "Relevance")
    case None => Skip
    case Some(relevance) =>
      if AtLeast(relevance, MIN_ACCEPTABLE_RELEVANCE) != Some(true) then Skip
      else if Path(entry, ["Location", "LocationType"]) != Some(String("address")) then Skip
      else
        match Path(entry, ["Location", "Address", "Label"])
        case None => Skip
        case Some(address) => Keep(address)
  }

  /** The addresses parse_location_response returns for a response body, or the error it raises. */
  function LocationAddresses(body: Json): (r: AuthorityResult)
    ensures Path(body, ["Response", "View"]).None? ==> r == Failure(UnexpectedStructure)
    ensures (Path(body, ["Response", "View"]).Some? && !Path(body, ["Response", "View"]).value.Array?)
              ==> r == Failure(UnexpectedStructure)
    ensures Path(body, ["Response", "View"]) == Some(Array([])) ==> r == Success([])
    ensures (Path(body, ["Response", "View"]).Some? && Path(body, ["Response", "View"]).value.Array?
             && |Path(body, ["Response", "View"]).value.items| > 1)
              ==> r == Failure(UnexpectedStructure)
    // With exactly one view, a missing `Result` or a scalar one raises; an object-valued one gives nothing.
    ensures var views := Path(body, ["Response", "View"]);
            views.Some? && views.value.Array? && |views.value.items| == 1 ==>
              var result := Get(views.value.items[0], "Result");
              && (result.None? ==> r == Failure(UnexpectedStructure))
              && ((result.Some? && (result.value.Null? || result.value.Bool? || result.value.Number?))
                    ==> r == Failure(UnexpectedStructure))
              && (result.Some? && result.value.Object? ==> r == Success([]))
    ensures r.Failure? ==> r.error == UnexpectedStructure
  {
    match Path(body, ["Response", "View"])
    case None => Failure(UnexpectedStructure)
    case Some(views) =>
      if !views.Array? then Failure(UnexpectedStructure)
      else if |views.items| == 0 then Success([])
      else if |views.items| > 1 then Failure(UnexpectedStructure)
      else
        match Get(views.items[0], "Result")
        case None => Failure(UnexpectedStructure)
        case Some(results) =>
          if results.Object? then Success([])
          else
            match Elements(results)
            case None => Failure(UnexpectedStructure)
            case Some(entries) => Success(Selected(entries, AddressOf))
  }

  /**
   * With exactly one view whose `Result` is a list, the output holds no more
   * addresses than there are entries; each is the label of a street-address
   * entry, and the label of every street-address entry is in it.
   */
  lemma OneViewAddresses(body: Json, view: Json, entries: seq<Json>)
    requires Path(body, ["Response", "View"]) == Some(Array([view]))
    requires Get(view, "Result") == Some(Array(entries))
    ensures LocationAddresses(body).Success?
    ensures LocationAddresses(body).value == Selected(entries, AddressOf)
    ensures |LocationAddresses(body).value| <= |entries|
    ensures forall a :: a in LocationAddresses(body).value ==>
              exists j :: 0 <= j < |entries| && IsStreetAddress(entries[j])
                          && Path(entries[j], ["Location", "Address", "Label"]) == Some(a)
    ensures forall j :: 0 <= j < |entries| && IsStreetAddress(entries[j]) ==>
              Path(entries[j], ["Location", "Address", "Label"]).value in LocationAddresses(body).value
  {
    var results := Array(entries);
    assert !results.Object? && Elements(results) == Some(entries);
    var out := LocationAddresses(body).value;
    assert out == Selected(entries, AddressOf);
    forall a | a in out
      ensures exists j :: 0 <= j < |entries| && IsStreetAddress(entries[j])
                          && Path(entries[j], ["Location", "Address", "Label"]) == Some(a)
    {
      var j :| 0 <= j < |entries| && AddressOf(entries[j]) == Keep(a);
      assert IsStreetAddress(entries[j]);
    }
    forall j | 0 <= j < |entries| && IsStreetAddress(entries[j])
      ensures Path(entries[j], ["Location", "Address", "Label"]).value in out
    {
      assert AddressOf(entries[j]).Keep?;
    }
  }

  /**
   * A malformed or irrelevant entry is skipped: what was collected before it
   * stays, and the entries after it are still processed.
   */
  lemma SkippedEntry(before: seq<Json>, entry: Json, after: seq<Json>)
    requires !IsStreetAddress(entry)
    ensures Selected(before + [entry] + after, AddressOf) == Selected(before, AddressOf) + Selected(after, AddressOf)
  {
    SelectedAppend(before + [entry], after, AddressOf);
    SelectedAppend(before, [entry], AddressOf);
    SelectedSingle(entry, AddressOf);
  }

  /** A string-valued `Result` iterates over its characters, none of which is an address entry: the answer is empty. */
  lemma StringResultIsEmpty(body: Json, view: Json, text: string)
    requires Path(body, ["Response", "View"]) == Some(Array([view]))
    requires Get(view, "Result") == Some(String(text))
    ensures LocationAddresses(body) == Success([])
  {
    var entries := Elements(String(text)).value;
    forall j | 0 <= j < |entries| ensures !AddressOf(entries[j]).Keep? {
      assert entries[j].String?;
    }
    NothingKept(entries, AddressOf);
  }

  /** A successful result is empty unless it comes from the one view's `Result` list, and never longer than that list. */
  lemma AddressesBounded(body: Json)
    requires LocationAddresses(body).Success?
    ensures var out := LocationAddresses(body).value;
            || out == []
            || (&& Path(body, ["Response", "View"]).Some?
                && Path(body, ["Response", "View"]).value.Array?
                && |Path(body, ["Response", "View"]).value.items| == 1
                && Get(Path(body, ["Response", "View"]).value.items[0], "Result").Some?
                && Get(Path(body, ["Response", "View"]).value.items[0], "Result").value.Array?
                && |out| <= |Get(Path(body, ["Response", "View"]).value.items[0], "Result").value.items|)
  {
    var views := Path(body, ["Response", "View"]);
    if views.Some? && views.value.Array? && |views.value.items| == 1 {
      var result := Get(views.value.items[0], "Result");
      if result.Some? && result.value.String? {
        var entries := Elements(result.value).value;
        forall j | 0 <= j < |entries| ensures !AddressOf(entries[j]).Keep? {
          assert entries[j].String?;
        }
        NothingKept(entries, AddressOf);
      }
    }
  }

  /** A here.com authority instance: its endpoint and its own GET parameters. */
  class HereGeocode {
    var apiUrl: string
    var apiParams: map<string, Param>

    /** The instance takes the class endpoint and a copy of the base parameters as they are now. */
    constructor (config: Config)
      ensures apiUrl == config.apiBaseUrl && apiParams == config.baseParams
    {
      apiUrl := config.apiBaseUrl;
      apiParams := config.baseParams;
    }

    /** The request send_request issues: the instance's current URL and parameters. */
    function CurrentRequest(): Request
      reads this
    {
      Request(apiUrl, apiParams)
    }

    /** prep_latlng_params: `prox` becomes "lat,lng,radius"; nothing else changes. */
    method PrepLatLngParams(lat: string, lng: string)
      modifies this
      ensures apiParams == old(apiParams)["prox" := Text(lat + "," + lng + ",25")]
      ensures apiUrl == old(apiUrl)
    {
      var prox := lat + "," + lng + "," + IntToString(API_LATLNG_RADIUS);
      assert IntToString(API_LATLNG_RADIUS) == "25";
      assert prox == lat + "," + lng + ",25";
      apiParams := apiParams["prox" := Text(prox)];
    }

    /**
     * parse_location_response, walking the entries of the one view and
     * appending as it goes; a malformed entry is passed over.
     */
    method ParseLocationResponse(body: Json) returns (r: AuthorityResult)
      ensures r == LocationAddresses(body)
    {
      var views := Path(body, ["Response", "View"]);
      if views.None? || !views.value.Array? {
        return Failure(UnexpectedStructure);
      } else if |views.value.items| == 0 {
        return Success([]);
      } else if |views.value.items| > 1 {
        return Failure(UnexpectedStructure);
      }
      var results := Get(views.value.items[0], "Result");
      if results.None? {
        return Failure(UnexpectedStructure);
      }
      if results.value.Object? {
        return Success([]);
      }
      var entries := Elements(results.value);
      if entries.None? {
        return Failure(UnexpectedStructure);
      }
      var addresses: seq<Json> := [];
      for i := 0 to |entries.value|
        invariant addresses == Selected(entries.value[..i], AddressOf)
      {
        var entry := entries.value[i];
        SelectedAppend(entries.value[..i], [entry], AddressOf);
        SelectedSingle(entry, AddressOf);
        assert entries.value[..i + 1] == entries.value[..i] + [entry];
        var verdict := AddressOf(entry);
        if verdict.Keep? {
          addresses := addresses + [verdict.address];
        }
      }
      assert entries.value[..|entries.value|] == entries.value;
      return Success(addresses);
    }

    /** location_by_latlng: prepare the parameters, send them, parse the reply. */
    method LocationByLatLng(lat: string, lng: string, net: Request -> HttpOutcome) returns (r: AuthorityResult)
      modifies this
      ensures apiParams == old(apiParams)["prox" := Text(lat + "," + lng + ",25")]
      ensures apiUrl == old(apiUrl)
      ensures r == Locate(net(Request(apiUrl, apiParams)), LocationAddresses)
    {
      PrepLatLngParams(lat, lng);
      var sent := SendRequest(net(CurrentRequest()));
      match sent
      case Failure(e) =>
        r := Failure(e);
      case Success(body) =>
        r := ParseLocationResponse(body);
    }
  }

  /**
   * An instance keeps the endpoint of the moment it was built: selecting the
   * endpoint afterwards changes only instances built later.
   */
  method EndpointAtConstruction(config: Config, isProd: bool) returns (before: HereGeocode, after: HereGeocode)
    modifies config
    ensures before.apiUrl == old(config.apiBaseUrl)
    ensures after.apiUrl == (if isProd then API_BASE_URL_PROD else API_BASE_URL_DEV)
    ensures config.baseParams == old(config.baseParams)
  {
    before := new HereGeocode(config);
    config.SetProdEndpoint(isProd);
    after := new HereGeocode(config);
  }

  /**
   * An instance works on its own copy: preparing its parameters changes
   * neither the base parameters nor any other instance.
   */
  method PrepStaysLocal(config: Config, other: HereGeocode, lat: string, lng: string) returns (instance: HereGeocode)
    ensures fresh(instance)
    ensures instance.apiParams == config.baseParams["prox" := Text(lat + "," + lng + ",25")]
    ensures instance.apiUrl == config.apiBaseUrl
    ensures config.baseParams == old(config.baseParams)
    ensures other.apiParams == old(other.apiParams)
  {
    instance := new HereGeocode(config);
    instance.PrepLatLngParams(lat, lng);
  }
}
