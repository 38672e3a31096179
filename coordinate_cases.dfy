/**
 * The latlng parameters exercised in geocoder_test.py, and a few more that
 * pin down the order of the checks, each with the outcome the validation
 * gives it. A minimum precision of five decimal places is assumed throughout.
 */
module CoordinateCases {
  import opened Wrappers
  import opened Strings
  import opened Decimals
  import opened Coordinates

  const MIN_PRECISION: int := 5

  // Facts about the pieces of a parameter, stated over symbolic text so that
  // the recursive parsers are never unfolded on a whole literal.

  lemma TwoFields(latlng: string, lat: string, lng: string)
    requires latlng == lat + "," + lng && ',' !in lat && ',' !in lng
    ensures Split(latlng, ',') == [lat, lng]
  {
    JoinOfTwo([lat, lng], ',');
    SplitOfJoin([lat, lng], ',');
  }

  /** A trimmed field with one dot passes or fails on the length of its fraction. */
  lemma OneDotField(text: string, whole: string, fraction: string, minPrecision: int)
    requires text == whole + "." + fraction && '.' !in whole && '.' !in fraction
    requires !IsSpace(text[0]) && !IsSpace(text[|text| - 1])
    ensures VerifyCoordPrecision(Strip(text), minPrecision)
            == if |fraction| < minPrecision then Failure(PrecisionError(minPrecision)) else Success(text)
  {
    StripTrimmed(text);
    JoinOfTwo([whole, fraction], '.');
    SplitOfJoin([whole, fraction], '.');
  }

  /** A trimmed field without a dot is a format error. */
  lemma DotlessField(text: string, minPrecision: int)
    requires text != [] && '.' !in text
    requires !IsSpace(text[0]) && !IsSpace(text[|text| - 1])
    ensures VerifyCoordPrecision(Strip(text), minPrecision) == Failure(FormatError)
  {
    StripTrimmed(text);
    SplitOfJoin([text], '.');
  }

  /**
   * A literal's text reads as the literal. Stated over a text variable so
   * that the parser is not unfolded on the literal text itself.
   */
  lemma ReadsAs(text: string, d: Decimal)
    requires WellFormed(d) && Render(d) == text
    ensures ParseDecimal(text) == Some(d)
  {
    ParseOfRender(d);
  }

  /** A dotted text whose integer part is not all digits is not a number. */
  lemma NotANumber(text: string, whole: string, fraction: string)
    requires text == whole + "." + fraction && '.' !in whole && '.' !in fraction
    requires whole != [] && !IsDigit(whole[0]) && whole[0] != '-' && whole[0] != '+'
    ensures ParseDecimal(text) == None
  {
    assert text[0] == whole[0];
    JoinOfTwo([whole, fraction], '.');
    SplitOfJoin([whole, fraction], '.');
  }

  /** Two fields that pass their checks come back as they are. */
  lemma BothPass(lat: string, lng: string, minPrecision: int)
    requires VerifyCoordPrecision(Strip(lat), minPrecision) == Success(lat)
    requires VerifyCoordPrecision(Strip(lng), minPrecision) == Success(lng)
    ensures VerifyFields([lat, lng], minPrecision) == Success([lat, lng])
  {
    var fields := [lat, lng];
    forall k | 0 <= k < |fields| ensures VerifyCoordPrecision(Strip(fields[k]), minPrecision).Success? {
      if k == 0 { assert fields[k] == lat; } else { assert fields[k] == lng; }
    }
    var r := VerifyFields(fields, minPrecision);
    assert r.value[0] == lat && r.value[1] == lng;
    assert r.value == fields;
  }

  // The literals used below, one fact each.

  lemma Fields1() ensures Split("41.8,-190.63845", ',') == ["41.8", "-190.63845"] {
    TwoFields("41.8,-190.63845", "41.8", "-190.63845");
  }

  lemma Fields2() ensures Split("41.88391,thirtyone", ',') == ["41.88391", "thirtyone"] {
    TwoFields("41.88391,thirtyone", "41.88391", "thirtyone");
  }

  lemma Fields3() ensures Split("41.88391,-179.638", ',') == ["41.88391", "-179.638"] {
    TwoFields("41.88391,-179.638", "41.88391", "-179.638");
  }

  lemma Fields4() ensures Split("41.88391,-190.63845", ',') == ["41.88391", "-190.63845"] {
    TwoFields("41.88391,-190.63845", "41.88391", "-190.63845");
  }

  lemma Fields5() ensures Split("90.00000,-180.00000", ',') == ["90.00000", "-180.00000"] {
    TwoFields("90.00000,-180.00000", "90.00000", "-180.00000");
  }

  lemma Fields6() ensures Split("ab.cdefg,1.00000", ',') == ["ab.cdefg", "1.00000"] {
    TwoFields("ab.cdefg,1.00000", "ab.cdefg", "1.00000");
  }

  lemma Fields7() ensures Split("41.88391,1.12345,3.1", ',') == ["41.88391", "1.12345", "3.1"] {
    assert "41.88391,1.12345,3.1" == Join(["41.88391", "1.12345", "3.1"], ',');
    SplitOfJoin(["41.88391", "1.12345", "3.1"], ',');
  }

  lemma Check41p8() ensures VerifyCoordPrecision(Strip("41.8"), MIN_PRECISION) == Failure(PrecisionError(MIN_PRECISION)) {
    OneDotField("41.8", "41", "8", MIN_PRECISION);
  }

  lemma Check41p88391() ensures VerifyCoordPrecision(Strip("41.88391"), MIN_PRECISION) == Success("41.88391") {
    OneDotField("41.88391", "41", "88391", MIN_PRECISION);
  }

  lemma CheckThirtyone() ensures VerifyCoordPrecision(Strip("thirtyone"), MIN_PRECISION) == Failure(FormatError) {
    DotlessField("thirtyone", MIN_PRECISION);
  }

  lemma CheckM179p638() ensures VerifyCoordPrecision(Strip("-179.638"), MIN_PRECISION) == Failure(PrecisionError(MIN_PRECISION)) {
    OneDotField("-179.638", "-179", "638", MIN_PRECISION);
  }

  lemma CheckM190p63845() ensures VerifyCoordPrecision(Strip("-190.63845"), MIN_PRECISION) == Success("-190.63845") {
    OneDotField("-190.63845", "-190", "63845", MIN_PRECISION);
  }

  lemma Check90p00000() ensures VerifyCoordPrecision(Strip("90.00000"), MIN_PRECISION) == Success("90.00000") {
    OneDotField("90.00000", "90", "00000", MIN_PRECISION);
  }

  lemma CheckM180p00000() ensures VerifyCoordPrecision(Strip("-180.00000"), MIN_PRECISION) == Success("-180.00000") {
    OneDotField("-180.00000", "-180", "00000", MIN_PRECISION);
  }

  lemma CheckAbpCdefg() ensures VerifyCoordPrecision(Strip("ab.cdefg"), MIN_PRECISION) == Success("ab.cdefg") {
    OneDotField("ab.cdefg", "ab", "cdefg", MIN_PRECISION);
  }

  lemma Check1p00000() ensures VerifyCoordPrecision(Strip("1.00000"), MIN_PRECISION) == Success("1.00000") {
    OneDotField("1.00000", "1", "00000", MIN_PRECISION);
  }

  lemma Check1p12345() ensures VerifyCoordPrecision(Strip("1.12345"), MIN_PRECISION) == Success("1.12345") {
    OneDotField("1.12345", "1", "12345", MIN_PRECISION);
  }

  lemma Check3p1() ensures VerifyCoordPrecision(Strip("3.1"), MIN_PRECISION) == Failure(PrecisionError(MIN_PRECISION)) {
    OneDotField("3.1", "3", "1", MIN_PRECISION);
  }

  lemma Read41p88391() ensures ParseDecimal("41.88391") == Some(Decimal(Unsigned, "41", "88391")) {
    ReadsAs("41.88391", Decimal(Unsigned, "41", "88391"));
  }

  lemma ReadM190p63845() ensures ParseDecimal("-190.63845") == Some(Decimal(Minus, "190", "63845")) {
    ReadsAs("-190.63845", Decimal(Minus, "190", "63845"));
  }

  lemma Read90p00000() ensures ParseDecimal("90.00000") == Some(Decimal(Unsigned, "90", "00000")) {
    ReadsAs("90.00000", Decimal(Unsigned, "90", "00000"));
  }

  lemma ReadM180p00000() ensures ParseDecimal("-180.00000") == Some(Decimal(Minus, "180", "00000")) {
    ReadsAs("-180.00000", Decimal(Minus, "180", "00000"));
  }

  lemma ReadAbpCdefg() ensures ParseDecimal("ab.cdefg") == None {
    NotANumber("ab.cdefg", "ab", "cdefg");
  }

  lemma Range41p88391() ensures WithinBound(Decimal(Unsigned, "41", "88391"), LAT_BOUND) {
    assert NatToString(41) == "41";
  }

  lemma RangeM190p63845() ensures !WithinBound(Decimal(Minus, "190", "63845"), LNG_BOUND) {
    assert NatToString(190) == "190";
  }

  lemma Range90p00000() ensures WithinBound(Decimal(Unsigned, "90", "00000"), LAT_BOUND) {
    assert NatToString(90) == "90";
  }

  lemma RangeM180p00000() ensures WithinBound(Decimal(Minus, "180", "00000"), LNG_BOUND) {
    assert NatToString(180) == "180";
  }

  lemma Fields4Pass() ensures VerifyFields(["41.88391", "-190.63845"], MIN_PRECISION) == Success(["41.88391", "-190.63845"]) {
    Check41p88391();
    CheckM190p63845();
    BothPass("41.88391", "-190.63845", MIN_PRECISION);
  }

  lemma Fields5Pass() ensures VerifyFields(["90.00000", "-180.00000"], MIN_PRECISION) == Success(["90.00000", "-180.00000"]) {
    Check90p00000();
    CheckM180p00000();
    BothPass("90.00000", "-180.00000", MIN_PRECISION);
  }

  lemma Fields6Pass() ensures VerifyFields(["ab.cdefg", "1.00000"], MIN_PRECISION) == Success(["ab.cdefg", "1.00000"]) {
    CheckAbpCdefg();
    Check1p00000();
    BothPass("ab.cdefg", "1.00000", MIN_PRECISION);
  }

  lemma Range4() ensures CheckRange("41.88391", "-190.63845") == Failure(RangeError) {
    Read41p88391();
    ReadM190p63845();
    Range41p88391();
    RangeM190p63845();
  }

  lemma Range5() ensures CheckRange("90.00000", "-180.00000") == Success(("90.00000", "-180.00000")) {
    Read90p00000();
    ReadM180p00000();
    Range90p00000();
    RangeM180p00000();
  }

  lemma Range6() ensures CheckRange("ab.cdefg", "1.00000") == Failure(FormatError) {
    ReadAbpCdefg();
  }

  // The cases.

  /** Too few decimal places in the latitude is reported before the longitude's range. */
  lemma PrecisionBeforeRange()
    ensures ParseLatLng("41.8,-190.63845", MIN_PRECISION) == Failure(PrecisionError(MIN_PRECISION))
  {
    Fields1();
    Check41p8();
    assert VerifyFields(["41.8", "-190.63845"], MIN_PRECISION) == Failure(PrecisionError(MIN_PRECISION));
  }

  /** A longitude without a dot is a format error (geocoder_test.py, the invalid case). */
  lemma WordIsFormatError()
    ensures ParseLatLng("41.88391,thirtyone", MIN_PRECISION) == Failure(FormatError)
  {
    Fields2();
    Check41p88391();
    CheckThirtyone();
    assert VerifyFields(["41.88391", "thirtyone"], MIN_PRECISION) == Failure(FormatError);
  }

  /** Three decimal places are too few (geocoder_test.py, the shadowed precision case). */
  lemma ShortFractionIsPrecisionError()
    ensures ParseLatLng("41.88391,-179.638", MIN_PRECISION) == Failure(PrecisionError(MIN_PRECISION))
  {
    Fields3();
    Check41p88391();
    CheckM179p638();
    assert VerifyFields(["41.88391", "-179.638"], MIN_PRECISION) == Failure(PrecisionError(MIN_PRECISION));
  }

  /** A longitude beyond -180 is out of range (geocoder_test.py, the range case). */
  lemma LongitudeOutOfRange()
    ensures ParseLatLng("41.88391,-190.63845", MIN_PRECISION) == Failure(RangeError)
  {
    Fields4();
    Fields4Pass();
    Range4();
  }

  /** The bounds themselves are accepted, and the text comes back unchanged. */
  lemma BoundsAccepted()
    ensures ParseLatLng("90.00000,-180.00000", MIN_PRECISION) == Success(("90.00000", "-180.00000"))
  {
    Fields5();
    Fields5Pass();
    Range5();
  }

  /** Letters with a dot and enough places after it pass the precision check and fail as a number. */
  lemma LettersAreFormatError()
    ensures ParseLatLng("ab.cdefg,1.00000", MIN_PRECISION) == Failure(FormatError)
  {
    Fields6();
    Fields6Pass();
    Range6();
  }

  /** Every field is checked before the fields are counted. */
  lemma ThirdFieldCheckedFirst()
    ensures ParseLatLng("41.88391,1.12345,3.1", MIN_PRECISION) == Failure(PrecisionError(MIN_PRECISION))
  {
    Fields7();
    Check41p88391();
    Check1p12345();
    Check3p1();
    assert VerifyFields(["41.88391", "1.12345", "3.1"], MIN_PRECISION) == Failure(PrecisionError(MIN_PRECISION));
  }
}
