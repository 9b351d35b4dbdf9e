/** Properties of the series statistics: the fold agrees with independent
    counting definitions, keeps its conservation law, and tallies failures
    under keys that tell failure kinds apart. */
module SeriesLemmas {
  import opened Optional
  import opened Text
  import opened Histogram
  import opened Request
  import opened Series

  /** The key a result is tallied under, or None for a success. */
  function FailureKey(r: AttemptResult): Option<string> {
    if r.responseOk then None else Some(ErrorKey(r.statusCode, r.errorMessage))
  }

  /** Reference definitions, counting from the front of the sequence. */
  function CountSuccesses(rs: seq<AttemptResult>): nat {
    if rs == [] then 0 else (if rs[0].responseOk then 1 else 0) + CountSuccesses(rs[1..])
  }

  function SuccessTimes(rs: seq<AttemptResult>): seq<real> {
    if rs == [] then [] else (if rs[0].responseOk then [rs[0].timeTakenMs] else []) + SuccessTimes(rs[1..])
  }

  function CountKey(rs: seq<AttemptResult>, key: string): nat {
    if rs == [] then 0 else (if FailureKey(rs[0]) == Some(key) then 1 else 0) + CountKey(rs[1..], key)
  }

  lemma {:induction false} AppendCounts(rs: seq<AttemptResult>, r: AttemptResult)
    ensures CountSuccesses(rs + [r]) == CountSuccesses(rs) + (if r.responseOk then 1 else 0)
    ensures SuccessTimes(rs + [r]) == SuccessTimes(rs) + (if r.responseOk then [r.timeTakenMs] else [])
    ensures forall key :: CountKey(rs + [r], key) == CountKey(rs, key) + (if FailureKey(r) == Some(key) then 1 else 0)
  {
    if rs != [] {
      assert (rs + [r])[1..] == rs[1..] + [r];
      AppendCounts(rs[1..], r);
    }
  }

  /** The left fold computes exactly what counting the results does: the
      successes, the successful durations in order, and for every key the
      number of failures tallied under it; no key is present with a zero count. */
  lemma {:induction false} TallyMatchesCounts(rs: seq<AttemptResult>)
    ensures Tally(rs).successfulRequests == CountSuccesses(rs)
    ensures Tally(rs).requestTimesMs == SuccessTimes(rs)
    ensures forall key :: Get(Tally(rs).failedRequestsSummary, key) == CountKey(rs, key)
    ensures forall key :: key in Tally(rs).failedRequestsSummary ==> Tally(rs).failedRequestsSummary[key] > 0
  {
    if rs != [] {
      var prefix, last := rs[..|rs| - 1], rs[|rs| - 1];
      assert prefix + [last] == rs;
      TallyMatchesCounts(prefix);
      AppendCounts(prefix, last);
    }
  }

  /** A failed attempt raises exactly one key by one and changes nothing else. */
  lemma RecordFailureBumpsOneKey(s: SeriesSummary, r: AttemptResult)
    requires !r.responseOk
    ensures var s' := Record(s, r);
            var key := ErrorKey(r.statusCode, r.errorMessage);
            s'.requestTimesMs == s.requestTimesMs &&
            s'.successfulRequests == s.successfulRequests &&
            Get(s'.failedRequestsSummary, key) == Get(s.failedRequestsSummary, key) + 1 &&
            forall other :: other != key ==> Get(s'.failedRequestsSummary, other) == Get(s.failedRequestsSummary, other)
  {
  }

  /** For every attempt result the request function can produce, the
      status-versus-message rule of the tally settles on the error message:
      "HTTP <code>" for a bad response, the exception text otherwise. */
  lemma ErrorKeyOfAttempt(outcome: Outcome, elapsedMs: real)
    ensures var r := MakeSingleRequest(outcome, elapsedMs);
            !r.responseOk ==> FailureKey(r) == r.errorMessage
    ensures outcome.Response? && !outcome.ok ==>
              FailureKey(MakeSingleRequest(outcome, elapsedMs)) == Some(HttpPrefix + IntToDecimal(outcome.statusCode))
  {
  }

  /** Two failed attempts land on the same tally key only if they failed the
      same way: same status code, or same exception kind and text. */
  lemma SameKeySameFailure(o1: Outcome, e1: real, o2: Outcome, e2: real)
    requires !MakeSingleRequest(o1, e1).responseOk && !MakeSingleRequest(o2, e2).responseOk
    requires FailureKey(MakeSingleRequest(o1, e1)) == FailureKey(MakeSingleRequest(o2, e2))
    ensures FailureOf(o1) == FailureOf(o2)
  {
    ErrorKeyOfAttempt(o1, e1);
    ErrorKeyOfAttempt(o2, e2);
    ErrorMessageIdentifiesFailure(o1, e1, o2, e2);
  }

  /** A series in which every attempt fails under the same key tallies all of
      them under that key. */
  lemma {:induction false} UniformFailures(rs: seq<AttemptResult>, key: string)
    requires forall i :: 0 <= i < |rs| ==> FailureKey(rs[i]) == Some(key)
    ensures Tally(rs) == SeriesSummary([], 0, if rs == [] then map[] else map[key := |rs|])
  {
    if rs != [] {
      UniformFailures(rs[..|rs| - 1], key);
    }
  }

  /** A series in which every attempt succeeds records every duration in order
      and tallies no error. */
  lemma {:induction false} UniformSuccesses(rs: seq<AttemptResult>)
    requires forall i :: 0 <= i < |rs| ==> rs[i].responseOk
    ensures Tally(rs) == SeriesSummary(seq(|rs|, i requires 0 <= i < |rs| => rs[i].timeTakenMs), |rs|, map[])
  {
    if rs != [] {
      UniformSuccesses(rs[..|rs| - 1]);
    }
  }

  /** A server that answers every request with status 500: every attempt is
      tallied under "HTTP 500" and the summary reports that all failed. */
  lemma ServerErrorSeries(obs: seq<Observation>)
    requires |obs| > 0
    requires forall i :: 0 <= i < |obs| ==> obs[i].outcome == Response(500, false)
    ensures Tally(Results(obs)) == SeriesSummary([], 0, map["HTTP 500" := |obs|])
    ensures Summarize(Tally(Results(obs)), |obs|) == AllFailed
  {
    var rs := Results(obs);
    assert NatToDecimal(5) == "5";
    assert NatToDecimal(50) == "50";
    assert IntToDecimal(500) == "500";
    assert HttpPrefix + IntToDecimal(500) == "HTTP 500";
    forall i | 0 <= i < |rs| ensures FailureKey(rs[i]) == Some("HTTP 500") {
      ErrorKeyOfAttempt(obs[i].outcome, obs[i].elapsedMs);
    }
    UniformFailures(rs, "HTTP 500");
  }

  /** A server that never answers in time: every attempt is tallied under "Timeout". */
  lemma TimeoutSeries(obs: seq<Observation>)
    requires |obs| > 0
    requires forall i :: 0 <= i < |obs| ==> obs[i].outcome == Timeout
    ensures Tally(Results(obs)) == SeriesSummary([], 0, map["Timeout" := |obs|])
  {
    var rs := Results(obs);
    forall i | 0 <= i < |rs| ensures FailureKey(rs[i]) == Some("Timeout") {
      ErrorKeyOfAttempt(obs[i].outcome, obs[i].elapsedMs);
    }
    UniformFailures(rs, "Timeout");
  }

  /** A server that always answers with an ok status: every attempt succeeds,
      its duration is recorded, and no error is tallied. */
  lemma AllOkSeries(obs: seq<Observation>)
    requires forall i :: 0 <= i < |obs| ==> obs[i].outcome.Response? && obs[i].outcome.ok
    ensures Tally(Results(obs)).successfulRequests == |obs|
    ensures Tally(Results(obs)).failedRequestsSummary == map[]
    ensures Tally(Results(obs)).requestTimesMs == seq(|obs|, i requires 0 <= i < |obs| => obs[i].elapsedMs)
  {
    UniformSuccesses(Results(obs));
  }
}
