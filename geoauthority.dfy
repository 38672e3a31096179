/**
 * What every geocoding authority shares (geoauthority/__init__.py): the
 * request it sends, the classification of the HTTP outcome into a JSON body
 * or a GeoAuthorityError, the composition of sending with the provider's own
 * normalisation, and the selection of addresses from a list of entries.
 */
module GeoAuthority {
  import opened Wrappers
  import opened Json

  /** GeoAuthorityError, by the message it carries. */
  datatype AuthorityError =
    | UnexpectedHttpStatus  // "Unexpected HTTP status"
    | TransportTrouble      // "Trouble querying authoritative API"
    | InvalidJson           // "Unexpected response: absent or invalid JSON"
    | UnexpectedStatus      // "Unexpected response body (status)"
    | UnexpectedStructure   // "Unexpected response body (structure)"

  /** What an authority returns: the addresses found, or the error it raised. */
  type AuthorityResult = Result<seq<Json>, AuthorityError>

  /** A GET parameter value: the base parameters hold strings and integers. */
  datatype Param = Text(text: string) | Integer(number: int)

  /** The GET request: endpoint URL and query parameters. */
  datatype Request = Request(url: string, params: map<string, Param>)

  /**
   * The outcome of `requests.get` as the gateway observes it: a transport
   * failure (RequestException: connection error, timeout), or a response
   * with its status code and its body parsed as JSON (None when the body is
   * absent or not valid JSON).
   */
  datatype HttpOutcome = TransportFailure | Reply(status: int, body: Option<Json>)

  /**
   * send_request: only a 200 reply with a JSON body succeeds, and it yields
   * that body unchanged. Any other status fails whatever the body; the
   * distinction at 500 only changes what is logged.
   */
  function SendRequest(outcome: HttpOutcome): (r: Result<Json, AuthorityError>)
    ensures r.Success? <==> outcome.Reply? && outcome.status == 200 && outcome.body.Some?
    ensures r.Success? ==> r.value == outcome.body.value
    ensures outcome.TransportFailure? ==> r == Failure(TransportTrouble)
    ensures outcome.Reply? && outcome.status != 200 ==> r == Failure(UnexpectedHttpStatus)
    ensures outcome.Reply? && outcome.status == 200 && outcome.body.None? ==> r == Failure(InvalidJson)
  {
    match outcome
    case TransportFailure => Failure(TransportTrouble)
    case Reply(status, body) =>
      if status != 200 then Failure(UnexpectedHttpStatus)
      else if body.None? then Failure(InvalidJson)
      else Success(body.value)
  }

  /**
   * location_by_latlng after the parameters are prepared: send, then parse
   * the body that was sent back. When sending fails its error propagates and
   * the parser is never consulted.
   */
  function Locate(outcome: HttpOutcome, parse: Json -> AuthorityResult): (r: AuthorityResult)
    ensures SendRequest(outcome).Failure? ==> r == Failure(SendRequest(outcome).error)
    ensures SendRequest(outcome).Success? ==> r == parse(SendRequest(outcome).value)
  {
    match SendRequest(outcome)
    case Failure(e) => Failure(e)
    case Success(body) => parse(body)
  }

  /** Sending that fails decides the outcome, whatever the parser would have done. */
  lemma FailedSendIgnoresParser(outcome: HttpOutcome, parse: Json -> AuthorityResult, other: Json -> AuthorityResult)
    requires SendRequest(outcome).Failure?
    ensures Locate(outcome, parse) == Locate(outcome, other)
    ensures Locate(outcome, parse).Failure?
  {
  }

  /**
   * How a provider treats one entry of its result list: keep an address,
   * skip the entry, or give up on the whole response.
   */
  datatype Verdict = Keep(address: Json) | Skip | Fatal

  /** The addresses kept from a list of entries, in the entries' order. */
  function Selected(entries: seq<Json>, verdict: Json -> Verdict): (r: seq<Json>)
    ensures |r| <= |entries|
    ensures forall a :: a in r ==> exists j :: 0 <= j < |entries| && verdict(entries[j]) == Keep(a)
    ensures forall j :: 0 <= j < |entries| && verdict(entries[j]).Keep? ==> verdict(entries[j]).address in r
  {
    if entries == [] then []
    else
      var rest := Selected(entries[1..], verdict);
      assert forall j :: 1 <= j < |entries| ==> entries[1..][j - 1] == entries[j];
      match verdict(entries[0])
      case Keep(a) => [a] + rest
      case _ => rest
  }

  /** Entries none of which is kept give no addresses. */
  lemma {:induction false} NothingKept(entries: seq<Json>, verdict: Json -> Verdict)
    requires forall j :: 0 <= j < |entries| ==> !verdict(entries[j]).Keep?
    ensures Selected(entries, verdict) == []
  {
    if entries != [] {
      assert forall j :: 1 <= j < |entries| ==> entries[1..][j - 1] == entries[j];
      NothingKept(entries[1..], verdict);
    }
  }

  /**
   * Order is kept: the addresses from a list made of two parts are those of
   * the first part followed by those of the second.
   */
  lemma {:induction false} SelectedAppend(a: seq<Json>, b: seq<Json>, verdict: Json -> Verdict)
    ensures Selected(a + b, verdict) == Selected(a, verdict) + Selected(b, verdict)
  {
    if a != [] {
      assert (a + b)[1..] == a[1..] + b;
      SelectedAppend(a[1..], b, verdict);
    } else {
      assert a + b == b;
    }
  }

  /** One entry contributes its own address or nothing. */
  lemma SelectedSingle(e: Json, verdict: Json -> Verdict)
    ensures Selected([e], verdict) == if verdict(e).Keep? then [verdict(e).address] else []
  {
    assert [e][1..] == [];
  }

  /** One more entry of a list: what the loop has kept and whether it has failed, after entry `i`. */
  lemma PrefixStep(entries: seq<Json>, i: nat, verdict: Json -> Verdict)
    requires i < |entries|
    ensures Selected(entries[..i + 1], verdict)
            == Selected(entries[..i], verdict) + if verdict(entries[i]).Keep? then [verdict(entries[i]).address] else []
    ensures AnyFatal(entries[..i + 1], verdict) <==> AnyFatal(entries[..i], verdict) || verdict(entries[i]).Fatal?
  {
    assert entries[..i + 1] == entries[..i] + [entries[i]];
    SelectedAppend(entries[..i], [entries[i]], verdict);
    SelectedSingle(entries[i], verdict);
    if verdict(entries[i]).Fatal? {
      assert entries[..i + 1][i] == entries[i];
    }
    if AnyFatal(entries[..i + 1], verdict) {
      var j :| 0 <= j < i + 1 && verdict(entries[..i + 1][j]).Fatal?;
      if j < i {
        assert entries[..i][j] == entries[..i + 1][j];
      }
    }
    if AnyFatal(entries[..i], verdict) {
      var j :| 0 <= j < i && verdict(entries[..i][j]).Fatal?;
      assert entries[..i + 1][j] == entries[..i][j];
    }
  }

  /** A fatal entry among the first `n` is a fatal entry of the list. */
  lemma FatalPrefix(entries: seq<Json>, n: nat, verdict: Json -> Verdict)
    requires n <= |entries| && AnyFatal(entries[..n], verdict)
    ensures AnyFatal(entries, verdict)
  {
    var j :| 0 <= j < n && verdict(entries[..n][j]).Fatal?;
    assert entries[..n][j] == entries[j];
  }

  /** Some entry of the list makes the whole response fail. */
  predicate AnyFatal(entries: seq<Json>, verdict: Json -> Verdict) {
    exists j :: 0 <= j < |entries| && verdict(entries[j]).Fatal?
  }
}
