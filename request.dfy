/** One webhook request (`make_single_n8n_request`): what the HTTP library and
    the clock report for the attempt is taken as input, and the function maps
    it to the tuple `(time_taken_ms, response_ok, status_code, error_message)`. */
module Request {
  import opened Optional
  import opened Text

  /** How `requests.post` ended. `ok` is the library's `response.ok` verdict
      for the received status code. */
  datatype Outcome =
    | Response(statusCode: int, ok: bool)
    | Timeout                           // requests.exceptions.Timeout
    | TransportFailure(detail: string)  // any other requests.exceptions.RequestException; detail is str(e)
    | UnexpectedFailure(detail: string) // any other Exception; detail is str(e)

  /** One attempt as the outside world saw it: the outcome and the measured duration. */
  datatype Observation = Observation(outcome: Outcome, elapsedMs: real)

  /** The tuple the function returns. */
  datatype AttemptResult = AttemptResult(
    timeTakenMs: real,
    responseOk: bool,
    statusCode: Option<int>,
    errorMessage: Option<string>)

  const HttpPrefix := "HTTP "
  const TimeoutMessage := "Timeout"
  const TransportPrefix := "RequestException: "
  const UnexpectedPrefix := "Unexpected error: "

  function MakeSingleRequest(outcome: Outcome, elapsedMs: real): (r: AttemptResult)
    // the measured duration is always returned, whatever happened
    ensures r.timeTakenMs == elapsedMs
    // exactly one of "ok" and "error message" is set
    ensures r.responseOk <==> r.errorMessage == None
    ensures r.responseOk <==> outcome.Response? && outcome.ok
    // a status code is recorded exactly when a response arrived
    ensures r.statusCode == (if outcome.Response? then Some(outcome.statusCode) else None)
    // a non-ok response is reported by its status code
    ensures outcome.Response? && !outcome.ok ==>
              r.errorMessage == Some(HttpPrefix + IntToDecimal(outcome.statusCode))
    ensures outcome.Timeout? ==> r.errorMessage == Some(TimeoutMessage)
  {
    match outcome
    case Response(code, ok) =>
      AttemptResult(elapsedMs, ok, Some(code), if ok then None else Some(HttpPrefix + IntToDecimal(code)))
    case Timeout =>
      AttemptResult(elapsedMs, false, None, Some(TimeoutMessage))
    case TransportFailure(detail) =>
      AttemptResult(elapsedMs, false, None, Some(TransportPrefix + detail))
    case UnexpectedFailure(detail) =>
      AttemptResult(elapsedMs, false, None, Some(UnexpectedPrefix + detail))
  }

  /** The closed failure taxonomy: what went wrong with an attempt, if anything. */
  datatype FailureKind =
    | HttpStatus(code: int)
    | TimedOut
    | Transport(detail: string)
    | Unexpected(detail: string)

  function FailureOf(outcome: Outcome): Option<FailureKind> {
    match outcome
    case Response(code, ok) => if ok then None else Some(HttpStatus(code))
    case Timeout => Some(TimedOut)
    case TransportFailure(detail) => Some(Transport(detail))
    case UnexpectedFailure(detail) => Some(Unexpected(detail))
  }

  predicate HasPrefix(s: string, p: string) {
    |p| <= |s| && s[..|p|] == p
  }

  /** Reads an error message back as a failure kind. */
  function ParseErrorMessage(msg: string): Option<FailureKind> {
    if HasPrefix(msg, HttpPrefix) && ParseInt(msg[|HttpPrefix|..]).Some? then
      Some(HttpStatus(ParseInt(msg[|HttpPrefix|..]).value))
    else if msg == TimeoutMessage then Some(TimedOut)
    else if HasPrefix(msg, TransportPrefix) then Some(Transport(msg[|TransportPrefix|..]))
    else if HasPrefix(msg, UnexpectedPrefix) then Some(Unexpected(msg[|UnexpectedPrefix|..]))
    else None
  }

  lemma PrefixedMessage(p: string, rest: string)
    ensures HasPrefix(p + rest, p) && (p + rest)[|p|..] == rest
  {
  }

  /** The error message loses nothing: it names the failure kind of the outcome,
      with its status code or exception text, and it is absent exactly when the
      outcome is not a failure. */
  lemma ErrorMessageRoundTrip(outcome: Outcome, elapsedMs: real)
    ensures var r := MakeSingleRequest(outcome, elapsedMs);
            (r.errorMessage == None <==> FailureOf(outcome) == None) &&
            (r.errorMessage != None ==> ParseErrorMessage(r.errorMessage.value) == FailureOf(outcome))
  {
    var r := MakeSingleRequest(outcome, elapsedMs);
    match outcome
    case Response(code, ok) =>
      if !ok {
        PrefixedMessage(HttpPrefix, IntToDecimal(code));
        IntToDecimalRoundTrip(code);
      }
    case Timeout =>
      assert TimeoutMessage[0] == 'T';
      assert !HasPrefix(TimeoutMessage, HttpPrefix);
    case TransportFailure(detail) =>
      var m := TransportPrefix + detail;
      PrefixedMessage(TransportPrefix, detail);
      assert m[0] == 'R';
      assert !HasPrefix(m, HttpPrefix);
      assert m != TimeoutMessage;
    case UnexpectedFailure(detail) =>
      var m := UnexpectedPrefix + detail;
      PrefixedMessage(UnexpectedPrefix, detail);
      assert m[0] == 'U';
      assert !HasPrefix(m, HttpPrefix) && !HasPrefix(m, TransportPrefix);
      assert m != TimeoutMessage;
  }

  /** Two failed attempts with the same error message failed in the same way. */
  lemma ErrorMessageIdentifiesFailure(o1: Outcome, e1: real, o2: Outcome, e2: real)
    requires MakeSingleRequest(o1, e1).errorMessage != None
    requires MakeSingleRequest(o1, e1).errorMessage == MakeSingleRequest(o2, e2).errorMessage
    ensures FailureOf(o1) == FailureOf(o2)
  {
    ErrorMessageRoundTrip(o1, e1);
    ErrorMessageRoundTrip(o2, e2);
  }
}
