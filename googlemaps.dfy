/**
 * The Google Maps geocoding authority (geoauthority/googlemaps.py): its
 * endpoint, the module-wide base parameters that hold the access key, the
 * per-instance copy of them, and the normalisation of a response body,
 * which is driven by the body's `status` field.
 */
module Googlemaps {
  import opened Wrappers
  import opened Strings
  import opened Json
  import opened GeoAuthority

  const API_BASE_URL: string := "https://maps.googleapis.com/maps/api/geocode/json"

  /** The base parameters as the module first defines them, with no key set. */
  const INITIAL_BASE_PARAMS: map<string, Param> :=
    map["location_type" := Text("ROOFTOP"), "result_type" := Text("street_address"), "key" := Text("")]

  const FORMATTED_ADDRESS: string := "formatted_address"

  /** The module-level base parameters, which setting the access key updates. */
  class Config {
    var baseParams: map<string, Param>

    constructor ()
      ensures baseParams == INITIAL_BASE_PARAMS
    {
      baseParams := INITIAL_BASE_PARAMS;
    }

    /** set_api_access_keys: only `key` changes. */
    method SetApiAccessKeys(key: string)
      modifies this
      ensures baseParams == old(baseParams)["key" := Text(key)]
    {
      baseParams := baseParams["key" := Text(key)];
    }
  }

  /**
   * How one entry of `results` is treated. `in` is key membership on an
   * object (whose address is kept), a substring test on a string and an
   * element test on a list, and raises TypeError on anything else; an entry
   * that passes the test but is not an object then fails the subscript.
   */
  function AddressOf(entry: Json): Verdict {
    match entry
    case Object(members) =>
      if FORMATTED_ADDRESS in members then Keep(members[FORMATTED_ADDRESS]) else Skip
    case String(s) => if IsSubstring(FORMATTED_ADDRESS, s) then Fatal else Skip
    case Array(items) => if String(FORMATTED_ADDRESS) in items then Fatal else Skip
    case _ => Fatal
  }

  /**
   * An entry is kept exactly when it is an object holding the name, and it
   * is fatal exactly when Python's `in` raises on it or lets a non-object
   * through to the subscript.
   */
  lemma AddressOfVerdicts(entry: Json)
    ensures AddressOf(entry).Keep? <==> entry.Object? && FORMATTED_ADDRESS in entry.members
    ensures AddressOf(entry).Keep? ==> AddressOf(entry).address == entry.members[FORMATTED_ADDRESS]
    ensures AddressOf(entry).Fatal? <==>
              || entry.Null? || entry.Bool? || entry.Number?
              || (entry.String? && IsSubstring(FORMATTED_ADDRESS, entry.s))
              || (entry.Array? && String(FORMATTED_ADDRESS) in entry.items)
  {
  }

  /** Iterating an object-valued `results` yields its keys, so some key holding the name is fatal. */
  predicate KeyNamesAddress(members: map<string, Json>) {
    exists k :: k in members && IsSubstring(FORMATTED_ADDRESS, k)
  }

  /** The addresses parse_location_response returns for a response body, or the error it raises. */
  function LocationAddresses(body: Json): (r: AuthorityResult)
    ensures Get(body, "status").None? ==> r == Failure(UnexpectedStructure)
    ensures Get(body, "status") == Some(String("ZERO_RESULTS")) ==> r == Success([])
    ensures (Get(body, "status").Some? && Get(body, "status").value !in {String("ZERO_RESULTS"), String("OK")})
              ==> r == Failure(UnexpectedStatus)
    ensures (Get(body, "status") == Some(String("OK")) && Get(body, "results").None?)
              ==> r == Failure(UnexpectedStructure)
    // With status OK, a `results` that cannot be iterated raises; an object iterates over its keys.
    ensures (Get(body, "status") == Some(String("OK")) && Get(body, "results").Some?
             && (Get(body, "results").value.Null? || Get(body, "results").value.Bool? || Get(body, "results").value.Number?))
              ==> r == Failure(UnexpectedStructure)
    ensures (Get(body, "status") == Some(String("OK")) && Get(body, "results").Some? && Get(body, "results").value.Object?)
              ==> r == if KeyNamesAddress(Get(body, "results").value.members) then Failure(UnexpectedStructure) else Success([])
    ensures r.Failure? ==> r.error in {UnexpectedStatus, UnexpectedStructure}
  {
    match Get(body, "status")
    case None => Failure(UnexpectedStructure)
    case Some(status) =>
      if status == String("ZERO_RESULTS") then Success([])
      else if status != String("OK") then Failure(UnexpectedStatus)
      else
        match Get(body, "results")
        case None => Failure(UnexpectedStructure)
        case Some(results) =>
          if results.Object? then
            if KeyNamesAddress(results.members) then Failure(UnexpectedStructure) else Success([])
          else
            match Elements(results)
            case None => Failure(UnexpectedStructure)
            case Some(entries) =>
              if AnyFatal(entries, AddressOf) then Failure(UnexpectedStructure)
              else Success(Selected(entries, AddressOf))
  }

  /**
   * Reference reading of the status-OK case: the `formatted_address` values
   * of the entries that hold that key, in the order of the entries.
   */
  function FormattedAddresses(entries: seq<Json>): seq<Json> {
    if entries == [] then []
    else
      var e := entries[0];
      (if e.Object? && FORMATTED_ADDRESS in e.members then [e.members[FORMATTED_ADDRESS]] else [])
      + FormattedAddresses(entries[1..])
  }

  /**
   * With status OK and a list of object entries, the result is exactly the
   * reference list: entries without the key are skipped and nothing fails.
   */
  lemma OkObjectEntries(body: Json, entries: seq<Json>)
    requires Get(body, "status") == Some(String("OK"))
    requires Get(body, "results") == Some(Array(entries))
    requires forall j :: 0 <= j < |entries| ==> entries[j].Object?
    ensures LocationAddresses(body) == Success(FormattedAddresses(entries))
  {
    SelectedObjects(entries);
    OkList(body, entries);
  }

  /** With status OK and a list of entries, one fatal entry fails the whole response; otherwise the kept addresses are returned. */
  lemma OkList(body: Json, entries: seq<Json>)
    requires Get(body, "status") == Some(String("OK"))
    requires Get(body, "results") == Some(Array(entries))
    ensures LocationAddresses(body)
            == if AnyFatal(entries, AddressOf) then Failure(UnexpectedStructure) else Success(Selected(entries, AddressOf))
  {
    assert Elements(Array(entries)) == Some(entries);
  }

  lemma {:induction false} SelectedObjects(entries: seq<Json>)
    requires forall j :: 0 <= j < |entries| ==> entries[j].Object?
    ensures !AnyFatal(entries, AddressOf)
    ensures Selected(entries, AddressOf) == FormattedAddresses(entries)
  {
    if entries != [] {
      assert forall j :: 1 <= j < |entries| ==> entries[1..][j - 1] == entries[j];
      SelectedObjects(entries[1..]);
    }
  }

  /**
   * Whatever the body, the addresses returned are no more than the entries
   * of a `results` list, and each is the `formatted_address` of one of them;
   * in every other successful case the list is empty.
   */
  lemma AddressesFromEntries(body: Json)
    requires LocationAddresses(body).Success?
    ensures var out := LocationAddresses(body).value;
            || out == []
            || (&& Get(body, "status") == Some(String("OK"))
                && Get(body, "results").Some? && Get(body, "results").value.Array?
                && |out| <= |Get(body, "results").value.items|
                && forall a :: a in out ==> EntryAddress(Get(body, "results").value.items, a))
  {
    var out := LocationAddresses(body).value;
    if Get(body, "status") == Some(String("OK")) && Get(body, "results").Some? && Get(body, "results").value.Array? {
      var entries := Get(body, "results").value.items;
      assert Elements(Array(entries)) == Some(entries);
      assert out == Selected(entries, AddressOf);
      forall a | a in out
        ensures EntryAddress(entries, a)
      {
        var j :| 0 <= j < |entries| && AddressOf(entries[j]) == Keep(a);
        assert entries[j].members[FORMATTED_ADDRESS] == a;
      }
    } else if Get(body, "status") == Some(String("OK")) && Get(body, "results").Some? && Get(body, "results").value.String? {
      var entries := Elements(Get(body, "results").value).value;
      forall j | 0 <= j < |entries| ensures !AddressOf(entries[j]).Keep? {
        assert entries[j].String?;
      }
      NothingKept(entries, AddressOf);
    }
  }

  /** `a` is the `formatted_address` of some entry. */
  ghost predicate EntryAddress(entries: seq<Json>, a: Json) {
    exists j :: 0 <= j < |entries| && entries[j].Object? && FORMATTED_ADDRESS in entries[j].members
                && entries[j].members[FORMATTED_ADDRESS] == a
  }

  /** The `for` loop over an object-valued `results`, which visits its keys: does some key contain the name? */
  method ScanKeys(members: map<string, Json>) returns (found: bool)
    ensures found == KeyNamesAddress(members)
  {
    var keys := members.Keys;
    while keys != {}
      invariant keys <= members.Keys
      invariant forall k :: k in members && k !in keys ==> !IsSubstring(FORMATTED_ADDRESS, k)
      decreases keys
    {
      var k :| k in keys;
      if IsSubstring(FORMATTED_ADDRESS, k) {
        return true;
      }
      keys := keys - {k};
    }
    return false;
  }

  /** The `for` loop over the entries of `results`, appending each `formatted_address` and stopping at the first entry that raises. */
  method ScanEntries(entries: seq<Json>) returns (r: AuthorityResult)
    ensures r == if AnyFatal(entries, AddressOf) then Failure(UnexpectedStructure) else Success(Selected(entries, AddressOf))
  {
    var addresses: seq<Json> := [];
    var i := 0;
    while i < |entries|
      invariant 0 <= i <= |entries|
      invariant addresses == Selected(entries[..i], AddressOf)
      invariant !AnyFatal(entries[..i], AddressOf)
    {
      PrefixStep(entries, i, AddressOf);
      var verdict := AddressOf(entries[i]);
      if verdict.Fatal? {
        FatalPrefix(entries, i + 1, AddressOf);
        return Failure(UnexpectedStructure);
      } else if verdict.Keep? {
        addresses := addresses + [verdict.address];
      }
      i := i + 1;
    }
    assert entries[..i] == entries;
    return Success(addresses);
  }

  /** A Google Maps authority instance: its endpoint and its own GET parameters. */
  class GoogleMaps {
    var apiUrl: string
    var apiParams: map<string, Param>

    /** Each instance starts from a copy of the base parameters as they are now. */
    constructor (config: Config)
      ensures apiUrl == API_BASE_URL && apiParams == config.baseParams
    {
      apiUrl := API_BASE_URL;
      apiParams := config.baseParams;
    }

    /** The request send_request issues: the instance's current URL and parameters. */
    function CurrentRequest(): Request
      reads this
    {
      Request(apiUrl, apiParams)
    }

    /** prep_latlng_params: `latlng` becomes "lat,lng"; nothing else changes. */
    method PrepLatLngParams(lat: string, lng: string)
      modifies this
      ensures apiParams == old(apiParams)["latlng" := Text(lat + "," + lng)]
      ensures apiUrl == old(apiUrl)
    {
      apiParams := apiParams["latlng" := Text(lat + "," + lng)];
    }

    /** parse_location_response, walking the entries and appending as it goes. */
    method ParseLocationResponse(body: Json) returns (r: AuthorityResult)
      ensures r == LocationAddresses(body)
    {
      var status := Get(body, "status");
      if status.None? {
        return Failure(UnexpectedStructure);
      }
      if status.value == String("ZERO_RESULTS") {
        return Success([]);
      } else if status.value != String("OK") {
        return Failure(UnexpectedStatus);
      }
      var results := Get(body, "results");
      if results.None? {
        return Failure(UnexpectedStructure);
      }
      if results.value.Object? {
        var found := ScanKeys(results.value.members);
        return if found then Failure(UnexpectedStructure) else Success([]);
      }
      var entries := Elements(results.value);
      if entries.None? {
        return Failure(UnexpectedStructure);
      }
      r := ScanEntries(entries.value);
    }

    /** location_by_latlng: prepare the parameters, send them, parse the reply. */
    method LocationByLatLng(lat: string, lng: string, net: Request -> HttpOutcome) returns (r: AuthorityResult)
      modifies this
      ensures apiParams == old(apiParams)["latlng" := Text(lat + "," + lng)]
      ensures apiUrl == old(apiUrl)
      ensures r == Locate(net(Request(apiUrl, apiParams)), LocationAddresses)
    {
      PrepLatLngParams(lat, lng);
      var sent := SendRequest(net(CurrentRequest()));
      match sent
      case Failure(e) =>
        r := Failure(e);
      case Success(body) =>
        r := ParseLocationResponse(body);
    }
  }

  /**
   * An instance works on its own copy: preparing its parameters changes
   * neither the base parameters nor any other instance.
   */
  method PrepStaysLocal(config: Config, other: GoogleMaps, lat: string, lng: string) returns (instance: GoogleMaps)
    ensures fresh(instance)
    ensures instance.apiParams == config.baseParams["latlng" := Text(lat + "," + lng)]
    ensures config.baseParams == old(config.baseParams)
    ensures other.apiParams == old(other.apiParams)
  {
    instance := new GoogleMaps(config);
    instance.PrepLatLngParams(lat, lng);
  }
}
