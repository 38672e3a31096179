/**
 * The responses geocoder_test.py expects from `/addresses`, whatever the
 * authorities would answer, with a minimum precision of five decimal places.
 */
module GatewayCases {
  import opened Wrappers
  import opened GeoAuthority
  import opened Coordinates
  import opened CoordinateCases
  import opened Geocoder

  /** A rejected parameter is answered with the message of its error. */
  lemma Rejected(latlng: string, e: InputError, authorities: (string, string) -> seq<AuthorityResult>)
    requires ParseLatLng(latlng, MIN_PRECISION) == Failure(e)
    ensures Respond(Some(latlng), MIN_PRECISION, authorities) == ErrorResponse(InputErrorMessage(e))
  {
  }

  /** No `latlng` argument: 400 with "Missing query parameters". */
  lemma MissingParameter(authorities: (string, string) -> seq<AuthorityResult>)
    ensures Respond(None, MIN_PRECISION, authorities) == ErrorResponse("Missing query parameters (latlng)")
  {
  }

  /** A non-numeric longitude: 400 with "Invalid latlng parameter". */
  lemma InvalidParameter(authorities: (string, string) -> seq<AuthorityResult>)
    ensures Respond(Some("41.88391,thirtyone"), MIN_PRECISION, authorities)
            == ErrorResponse("Invalid latlng parameter, expected 'lat,lng' in decimal format")
  {
    WordIsFormatError();
    Rejected("41.88391,thirtyone", FormatError, authorities);
    FormatMessage();
  }

  /** Three decimal places: 400 with "latlng precision must be 5 decimal places or more". */
  lemma ImpreciseParameter(authorities: (string, string) -> seq<AuthorityResult>)
    ensures Respond(Some("41.88391,-179.638"), MIN_PRECISION, authorities)
            == ErrorResponse("latlng precision must be 5 decimal places or more")
  {
    ShortFractionIsPrecisionError();
    Rejected("41.88391,-179.638", PrecisionError(MIN_PRECISION), authorities);
    PrecisionMessage();
  }

  lemma FormatMessage()
    ensures InputErrorMessage(FormatError) == "Invalid latlng parameter, expected 'lat,lng' in decimal format"
  {
  }

  lemma RangeMessage()
    ensures InputErrorMessage(RangeError) == "latlng out of range"
  {
  }

  lemma PrecisionMessage()
    ensures InputErrorMessage(PrecisionError(MIN_PRECISION)) == "latlng precision must be 5 decimal places or more"
  {
    assert Strings.IntToString(MIN_PRECISION) == "5";
  }

  /** A longitude beyond -180: 400 with "latlng out of range". */
  lemma OutOfRangeParameter(authorities: (string, string) -> seq<AuthorityResult>)
    ensures Respond(Some("41.88391,-190.63845"), MIN_PRECISION, authorities) == ErrorResponse("latlng out of range")
  {
    LongitudeOutOfRange();
    Rejected("41.88391,-190.63845", RangeError, authorities);
    RangeMessage();
  }

  /** A valid pair with every authority failing: FAIL; with one answering: OK with its addresses. */
  lemma BoundsReachAuthorities(authorities: (string, string) -> seq<AuthorityResult>)
    ensures var outcomes := authorities("90.00000", "-180.00000");
            Respond(Some("90.00000,-180.00000"), MIN_PRECISION, authorities)
            == if AllRaise(outcomes) then FAIL_RESPONSE else OkResponse(FirstSuccess(outcomes).value)
  {
    BoundsAccepted();
    Accepted("90.00000,-180.00000", "90.00000", "-180.00000", authorities);
  }

  /** An accepted parameter is answered from the outcomes the authorities give for its two fields. */
  lemma Accepted(latlng: string, lat: string, lng: string, authorities: (string, string) -> seq<AuthorityResult>)
    requires ParseLatLng(latlng, MIN_PRECISION) == Success((lat, lng))
    ensures var outcomes := authorities(lat, lng);
            Respond(Some(latlng), MIN_PRECISION, authorities)
            == if AllRaise(outcomes) then FAIL_RESPONSE else OkResponse(FirstSuccess(outcomes).value)
  {
  }
}
