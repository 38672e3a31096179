/**
 * Validation of the `latlng` query parameter (geocoder.py): two
 * comma-separated decimal fields, each with at least the configured number of
 * characters after its single `.`, latitude within [-90, 90] and longitude
 * within [-180, 180]. The validated fields are returned as text, unchanged.
 */
module Coordinates {
  import opened Wrappers
  import opened Strings
  import opened Decimals

  /**
   * FormatError is Python's ValueError (wrong number of fields or dots, or a
   * field `float()` rejects); PrecisionError and RangeError are the two
   * InputParamError cases.
   */
  datatype InputError = FormatError | PrecisionError(minPrecision: int) | RangeError

  const LAT_BOUND: nat := 90
  const LNG_BOUND: nat := 180

  /** The characters after the last `.` of `s` (all of `s` when it has none). */
  ghost function AfterLastDot(s: string): string {
    if s == [] || s[|s| - 1] == '.' then [] else AfterLastDot(s[..|s| - 1]) + [s[|s| - 1]]
  }

  /**
   * verify_coord_precision: the text must hold exactly one `.`, and at least
   * `minPrecision` characters must follow it.
   */
  function VerifyCoordPrecision(coord: string, minPrecision: int): (r: Result<string, InputError>)
    ensures r == Failure(FormatError) <==> multiset(coord)['.'] != 1
    ensures multiset(coord)['.'] == 1 ==> (r.Failure? <==> |AfterLastDot(coord)| < minPrecision)
    ensures r.Failure? ==> r.error == FormatError || r.error == PrecisionError(minPrecision)
    ensures r.Success? ==> r.value == coord
  {
    var parts := Split(coord, '.');
    SplitJoins(coord, '.');
    if |parts| != 2 then Failure(FormatError)
    else
      JoinOfTwo(parts, '.');
      AfterLastDotOf(parts[0], parts[1]);
      if |parts[1]| < minPrecision then Failure(PrecisionError(minPrecision)) else Success(coord)
  }

  lemma {:induction false} AfterLastDotOf(a: string, b: string)
    requires '.' !in b
    ensures AfterLastDot(a + "." + b) == b
  {
    var s := a + "." + b;
    if b != [] {
      assert s[..|s| - 1] == a + "." + b[..|b| - 1];
      AfterLastDotOf(a, b[..|b| - 1]);
    }
  }

  /**
   * The outcome of evaluating a list of checks left to right, as a Python
   * list comprehension does: the first failure, or the list of all values.
   */
  function FirstFailure<T, E>(checks: seq<Result<T, E>>): (r: Result<seq<T>, E>)
    ensures r.Success? <==> forall k :: 0 <= k < |checks| ==> checks[k].Success?
    ensures r.Success? ==> |r.value| == |checks| && forall k :: 0 <= k < |checks| ==> checks[k] == Success(r.value[k])
    ensures r.Failure? ==>
              exists k :: 0 <= k < |checks| && checks[k] == Failure(r.error) && forall j :: 0 <= j < k ==> checks[j].Success?
  {
    if checks == [] then Success([])
    else
      match checks[0]
      case Failure(e) => Failure(e)
      case Success(v) =>
        var rest := FirstFailure(checks[1..]);
        assert forall k :: 1 <= k < |checks| ==> checks[1..][k - 1] == checks[k];
        match rest
        case Failure(e) => Failure(e)
        case Success(vs) => Success([v] + vs)
  }

  /** The check of each field, in order. */
  function Checks(fields: seq<string>, minPrecision: int): (c: seq<Result<string, InputError>>)
    ensures |c| == |fields|
    ensures forall k :: 0 <= k < |fields| ==> c[k] == VerifyCoordPrecision(Strip(fields[k]), minPrecision)
  {
    if fields == [] then []
    else [VerifyCoordPrecision(Strip(fields[0]), minPrecision)] + Checks(fields[1..], minPrecision)
  }

  /**
   * The list comprehension of parse_latlng_params: every field, stripped and
   * checked, left to right; the first failure is the outcome.
   */
  function VerifyFields(fields: seq<string>, minPrecision: int): (r: Result<seq<string>, InputError>)
    ensures r.Success? <==> forall k :: 0 <= k < |fields| ==> VerifyCoordPrecision(Strip(fields[k]), minPrecision).Success?
    ensures r.Success? ==> |r.value| == |fields| && forall k :: 0 <= k < |fields| ==> r.value[k] == Strip(fields[k])
    ensures r.Failure? ==> r.error == FormatError || r.error == PrecisionError(minPrecision)
  {
    var checks := Checks(fields, minPrecision);
    var r := FirstFailure(checks);
    SuccessValues(fields, minPrecision, checks, r);
    FailureWitness(fields, minPrecision, checks, r);
    r
  }

  /** The error of VerifyFields is that of the first field, from the left, that fails its check. */
  lemma VerifyFieldsFirstFailure(fields: seq<string>, minPrecision: int)
    ensures VerifyFields(fields, minPrecision).Failure? ==>
              exists k :: && 0 <= k < |fields|
                          && VerifyCoordPrecision(Strip(fields[k]), minPrecision) == Failure(VerifyFields(fields, minPrecision).error)
                          && forall j :: 0 <= j < k ==> VerifyCoordPrecision(Strip(fields[j]), minPrecision).Success?
  {
    FailureWitness(fields, minPrecision, Checks(fields, minPrecision), VerifyFields(fields, minPrecision));
  }

  lemma {:induction false} SuccessValues(fields: seq<string>, minPrecision: int, checks: seq<Result<string, InputError>>, r: Result<seq<string>, InputError>)
    requires checks == Checks(fields, minPrecision) && r == FirstFailure(checks)
    ensures r.Success? ==> forall k :: 0 <= k < |fields| ==> r.value[k] == Strip(fields[k])
  {
    if r.Success? {
      forall k | 0 <= k < |fields| ensures r.value[k] == Strip(fields[k]) {
        assert checks[k] == Success(r.value[k]);
      }
    }
  }

  lemma {:induction false} FailureWitness(fields: seq<string>, minPrecision: int, checks: seq<Result<string, InputError>>, r: Result<seq<string>, InputError>)
    requires checks == Checks(fields, minPrecision) && r == FirstFailure(checks)
    ensures r.Failure? ==>
              exists k :: && 0 <= k < |fields|
                          && VerifyCoordPrecision(Strip(fields[k]), minPrecision) == Failure(r.error)
                          && forall j :: 0 <= j < k ==> VerifyCoordPrecision(Strip(fields[j]), minPrecision).Success?
    ensures r.Failure? ==> r.error == FormatError || r.error == PrecisionError(minPrecision)
  {
    if r.Failure? {
      var k :| 0 <= k < |checks| && checks[k] == Failure(r.error) && forall j :: 0 <= j < k ==> checks[j].Success?;
      assert VerifyCoordPrecision(Strip(fields[k]), minPrecision) == Failure(r.error);
      forall j | 0 <= j < k ensures VerifyCoordPrecision(Strip(fields[j]), minPrecision).Success? {
        assert checks[j].Success?;
      }
    }
  }

  /**
   * A valid coordinate text: a decimal literal with at least `minPrecision`
   * digits after the point whose exact value lies within [-bound, bound].
   */
  ghost predicate IsCoordinate(text: string, bound: nat, minPrecision: int) {
    && ParseDecimal(text).Some?
    && |ParseDecimal(text).value.fraction| >= minPrecision
    && -(bound as real) <= Value(ParseDecimal(text).value) <= bound as real
  }

  /**
   * parse_latlng_params: split on `,`, check every field, then require
   * exactly two fields, then test the latitude's range and then the
   * longitude's, reading each as a number only when its turn comes.
   */
  function ParseLatLng(latlng: string, minPrecision: int): (r: Result<(string, string), InputError>)
    // On success the result is the two fields, stripped and otherwise unchanged.
    ensures r.Success? ==>
              && |Split(latlng, ',')| == 2
              && r.value == (Strip(Split(latlng, ',')[0]), Strip(Split(latlng, ',')[1]))
    // Every field is checked for format and precision, left to right, before anything else.
    ensures VerifyFields(Split(latlng, ','), minPrecision).Failure? ==>
              r == Failure(VerifyFields(Split(latlng, ','), minPrecision).error)
    ensures VerifyFields(Split(latlng, ','), minPrecision).Success? && |Split(latlng, ',')| != 2 ==>
              r == Failure(FormatError)
    // Two fields that pass their checks get the outcome of the range test.
    ensures VerifyFields(Split(latlng, ','), minPrecision).Success? && |Split(latlng, ',')| == 2 ==>
              r == CheckRange(Strip(Split(latlng, ',')[0]), Strip(Split(latlng, ',')[1]))
    // The range test comes last.
    ensures r == Failure(RangeError) ==>
              |Split(latlng, ',')| == 2 && VerifyFields(Split(latlng, ','), minPrecision).Success?
  {
    var fields := Split(latlng, ',');
    match VerifyFields(fields, minPrecision)
    case Failure(e) => Failure(e)
    case Success(coords) =>
      if |coords| != 2 then Failure(FormatError) else CheckRange(coords[0], coords[1])
  }

  /**
   * `-90 <= float(lat) <= 90 and -180 <= float(lng) <= 180`: the longitude is
   * read only when the latitude is in range.
   */
  function CheckRange(lat: string, lng: string): (r: Result<(string, string), InputError>)
    ensures r.Success? ==> r.value == (lat, lng)
    ensures r.Failure? ==> r.error == FormatError || r.error == RangeError
    ensures r.Success? <==>
              && ParseDecimal(lat).Some? && WithinBound(ParseDecimal(lat).value, LAT_BOUND)
              && ParseDecimal(lng).Some? && WithinBound(ParseDecimal(lng).value, LNG_BOUND)
    // A latitude `float()` rejects is a format error.
    ensures ParseDecimal(lat).None? ==> r == Failure(FormatError)
    // A latitude out of range is a range error, whatever the longitude is.
    ensures ParseDecimal(lat).Some? && !WithinBound(ParseDecimal(lat).value, LAT_BOUND) ==> r == Failure(RangeError)
    // With the latitude in range, the longitude decides in the same way.
    ensures ParseDecimal(lat).Some? && WithinBound(ParseDecimal(lat).value, LAT_BOUND) ==>
              && (ParseDecimal(lng).None? ==> r == Failure(FormatError))
              && (ParseDecimal(lng).Some? && !WithinBound(ParseDecimal(lng).value, LNG_BOUND) ==> r == Failure(RangeError))
  {
    match ParseDecimal(lat)
    case None => Failure(FormatError)
    case Some(latValue) =>
      if !WithinBound(latValue, LAT_BOUND) then Failure(RangeError)
      else
        match ParseDecimal(lng)
        case None => Failure(FormatError)
        case Some(lngValue) =>
          if !WithinBound(lngValue, LNG_BOUND) then Failure(RangeError) else Success((lat, lng))
  }

  /**
   * The parameter is accepted exactly when it has two fields that, stripped,
   * are valid coordinates: a latitude within [-90, 90] and a longitude within
   * [-180, 180], each with enough digits after the point.
   */
  lemma ParseLatLngAccepts(latlng: string, minPrecision: int)
    ensures ParseLatLng(latlng, minPrecision).Success? <==>
              && |Split(latlng, ',')| == 2
              && IsCoordinate(Strip(Split(latlng, ',')[0]), LAT_BOUND, minPrecision)
              && IsCoordinate(Strip(Split(latlng, ',')[1]), LNG_BOUND, minPrecision)
  {
    var fields := Split(latlng, ',');
    if |fields| == 2 {
      var lat, lng := Strip(fields[0]), Strip(fields[1]);
      AcceptedFields(latlng, minPrecision, fields, lat, lng);
      if ParseDecimal(lat).Some? {
        FieldIsCoordinate(lat, ParseDecimal(lat).value, LAT_BOUND, minPrecision);
      }
      if ParseDecimal(lng).Some? {
        FieldIsCoordinate(lng, ParseDecimal(lng).value, LNG_BOUND, minPrecision);
      }
    }
  }

  lemma AcceptedFields(latlng: string, minPrecision: int, fields: seq<string>, lat: string, lng: string)
    requires fields == Split(latlng, ',') && |fields| == 2
    requires lat == Strip(fields[0]) && lng == Strip(fields[1])
    ensures ParseLatLng(latlng, minPrecision).Success? <==>
              && VerifyCoordPrecision(lat, minPrecision).Success?
              && VerifyCoordPrecision(lng, minPrecision).Success?
              && CheckRange(lat, lng).Success?
  {
    var checked := VerifyFields(fields, minPrecision);
    if VerifyCoordPrecision(lat, minPrecision).Success? && VerifyCoordPrecision(lng, minPrecision).Success? {
      forall k | 0 <= k < |fields| ensures VerifyCoordPrecision(Strip(fields[k]), minPrecision).Success? {
        if k == 1 { assert Strip(fields[k]) == lng; }
      }
      assert checked.Success?;
      assert checked.value[0] == lat && checked.value[1] == lng;
    }
    if checked.Success? {
      assert VerifyCoordPrecision(Strip(fields[0]), minPrecision).Success?;
      assert VerifyCoordPrecision(Strip(fields[1]), minPrecision).Success?;
    }
  }

  /** A field whose text reads as a literal passes the precision check exactly when the literal has enough fraction digits. */
  lemma FieldIsCoordinate(text: string, d: Decimal, bound: nat, minPrecision: int)
    requires ParseDecimal(text) == Some(d)
    ensures WellFormed(d)
    ensures VerifyCoordPrecision(text, minPrecision).Success? <==> |d.fraction| >= minPrecision
    ensures VerifyCoordPrecision(text, minPrecision).Success? && WithinBound(d, bound) <==> IsCoordinate(text, bound, minPrecision)
  {
    WithinBoundIsExact(d, bound);
    assert text == SignText(d.sign) + d.whole + "." + d.fraction;
    assert '.' !in d.fraction by {
      assert !IsDigit('.');
    }
    AfterLastDotOf(SignText(d.sign) + d.whole, d.fraction);
    assert multiset(text)['.'] == 1 by {
      assert !IsDigit('.');
      assert '.' !in d.whole && '.' !in d.fraction;
      assert multiset(text) == multiset(SignText(d.sign)) + multiset(d.whole) + multiset(".") + multiset(d.fraction);
      assert multiset(SignText(d.sign))['.'] == 0;
      assert multiset(d.whole)['.'] == 0 && multiset(d.fraction)['.'] == 0;
    }
  }
}
