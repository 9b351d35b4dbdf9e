/** One series against one webhook (`test_webhook_series`): the URL guard, the
    loop that calls the request once per attempt and accumulates the
    statistics, and the guarded summary computed after the loop. */
module Series {
  import opened Optional
  import opened Text
  import opened Histogram
  import opened Request
  import opened Durations

  /** Python's `if not url`: a missing URL and an empty one both skip the series. */
  predicate Configured(url: Option<string>) {
    url.Some? && url.value != ""
  }

  /** Truthiness of `status_code`: `None` and `0` are false. */
  predicate StatusTruthy(statusCode: Option<int>) {
    statusCode.Some? && statusCode.value != 0
  }

  /** Truthiness of `error_msg`: `None` and `""` are false. */
  predicate MessageTruthy(errorMsg: Option<string>) {
    errorMsg.Some? && errorMsg.value != ""
  }

  const UnknownError := "Unknown Error"

  /** The key under which a failed attempt is tallied. */
  function ErrorKey(statusCode: Option<int>, errorMsg: Option<string>): (key: string)
    ensures key != ""
    // a truthy status code always shows up as an HTTP key
    ensures StatusTruthy(statusCode) ==> Contains(key, "HTTP")
    ensures StatusTruthy(statusCode) ==>
              key == HttpPrefix + IntToDecimal(statusCode.value) || Some(key) == errorMsg
    // without a status code the message is the key, if there is one
    ensures !StatusTruthy(statusCode) && MessageTruthy(errorMsg) ==> key == errorMsg.value
    ensures !StatusTruthy(statusCode) && !MessageTruthy(errorMsg) ==> key == UnknownError
    // with a status code, a message that already mentions HTTP is kept ...
    ensures StatusTruthy(statusCode) && MessageTruthy(errorMsg) && Contains(errorMsg.value, "HTTP") ==>
              key == errorMsg.value
    // ... and otherwise the status code decides the key
    ensures StatusTruthy(statusCode) && !(MessageTruthy(errorMsg) && Contains(errorMsg.value, "HTTP")) ==>
              key == HttpPrefix + IntToDecimal(statusCode.value)
  {
    var key := if MessageTruthy(errorMsg) then errorMsg.value else UnknownError;
    if StatusTruthy(statusCode) then
      if !MessageTruthy(errorMsg) || !Contains(errorMsg.value, "HTTP") then
        PrefixContained(HttpPrefix, IntToDecimal(statusCode.value), "HTTP");
        HttpPrefix + IntToDecimal(statusCode.value)
      else errorMsg.value
    else key
  }

  /** The statistics one series accumulates. */
  datatype SeriesSummary = SeriesSummary(
    requestTimesMs: seq<real>,  // durations of the successful attempts, in order
    successfulRequests: nat,
    failedRequestsSummary: Hist)

  const EmptySummary := SeriesSummary([], 0, map[])

  /** One pass of the loop body: a success appends its duration and is counted,
      a failure bumps the tally of its error key. */
  function Record(s: SeriesSummary, r: AttemptResult): (s': SeriesSummary)
    ensures s'.successfulRequests + SumValues(s'.failedRequestsSummary)
            == s.successfulRequests + SumValues(s.failedRequestsSummary) + 1
    ensures |s'.requestTimesMs| - s'.successfulRequests == |s.requestTimesMs| - s.successfulRequests
  {
    if r.responseOk then
      s.(requestTimesMs := s.requestTimesMs + [r.timeTakenMs],
         successfulRequests := s.successfulRequests + 1)
    else
      var key := ErrorKey(r.statusCode, r.errorMessage);
      BumpSum(s.failedRequestsSummary, key);
      s.(failedRequestsSummary := Bump(s.failedRequestsSummary, key))
  }

  /** The summary after a sequence of attempt results, folded from the left. */
  function Tally(rs: seq<AttemptResult>): SeriesSummary {
    if rs == [] then EmptySummary else Record(Tally(rs[..|rs| - 1]), rs[|rs| - 1])
  }

  /** The conservation law of the fold itself: successes plus all tallied
      failures is the number of attempts, and one duration per success. */
  lemma {:induction false} TallyConservation(rs: seq<AttemptResult>)
    ensures Tally(rs).successfulRequests + SumValues(Tally(rs).failedRequestsSummary) == |rs|
    ensures |Tally(rs).requestTimesMs| == Tally(rs).successfulRequests
  {
    if rs != [] {
      TallyConservation(rs[..|rs| - 1]);
    }
  }

  /** Extending the processed prefix by one result is one more `Record`. */
  lemma TallyStep(rs: seq<AttemptResult>, i: nat)
    requires i < |rs|
    ensures Tally(rs[..i + 1]) == Record(Tally(rs[..i]), rs[i])
  {
    assert rs[..i + 1][..i] == rs[..i];
  }

  /** The attempt results of a series, one per observation. */
  function Results(obs: seq<Observation>): seq<AttemptResult> {
    seq(|obs|, i requires 0 <= i < |obs| => MakeSingleRequest(obs[i].outcome, obs[i].elapsedMs))
  }

  /** `range(num_requests)` runs this many times. */
  function Attempts(numRequests: int): nat {
    if numRequests > 0 then numRequests else 0
  }

  /** `time.sleep` runs after every attempt but the last. */
  function Delays(numRequests: int): nat {
    if numRequests > 0 then numRequests - 1 else 0
  }

  /** What the summary block prints after the loop. */
  datatype Verdict =
    | Stats(totalMs: real, averageMs: real, minMs: real, maxMs: real)
    | AllFailed   // "all N requests failed"
    | NoVerdict   // nothing attempted: neither line is printed

  /** The guarded summary: min/avg/max only when at least one request succeeded. */
  function Summarize(s: SeriesSummary, numRequests: int): (v: Verdict)
    requires |s.requestTimesMs| == s.successfulRequests
    ensures v.Stats? <==> s.successfulRequests > 0
    ensures v.AllFailed? <==> s.successfulRequests == 0 && numRequests > 0
    ensures v.Stats? ==>
              v.minMs in s.requestTimesMs && v.maxMs in s.requestTimesMs &&
              (forall i :: 0 <= i < |s.requestTimesMs| ==> v.minMs <= s.requestTimesMs[i] <= v.maxMs) &&
              v.minMs <= v.averageMs <= v.maxMs &&
              v.averageMs == v.totalMs / (s.successfulRequests as real) &&
              v.totalMs == Sum(s.requestTimesMs)
  {
    if s.successfulRequests > 0 then
      var times := s.requestTimesMs;
      var total := Sum(times);
      AverageWithinRange(times);
      Stats(total, total / s.successfulRequests as real, Min(times), Max(times))
    else if numRequests > 0 then AllFailed
    else NoVerdict
  }

  /** Everything a series run produces: whether the missing-URL warning was
      given, the accumulated statistics, how many inter-request sleeps
      happened and the summary verdict. */
  datatype SeriesReport = SeriesReport(
    warned: bool,
    summary: SeriesSummary,
    delays: nat,
    verdict: Verdict)

  method RunSeries(url: Option<string>, numRequests: int, observations: seq<Observation>)
    returns (report: SeriesReport)
    requires |observations| == Attempts(numRequests)
    // the URL guard: an unconfigured target makes no attempt at all
    ensures report.warned <==> !Configured(url)
    ensures !Configured(url) ==> report.summary == EmptySummary && report.delays == 0 && report.verdict == NoVerdict
    // otherwise every requested attempt is made and folded into the summary
    ensures Configured(url) ==>
              report.summary == Tally(Results(observations)) && report.delays == Delays(numRequests)
    // conservation: every attempt is either a success or one tally entry
    ensures report.summary.successfulRequests + SumValues(report.summary.failedRequestsSummary)
            == (if Configured(url) then Attempts(numRequests) else 0)
    ensures |report.summary.requestTimesMs| == report.summary.successfulRequests
    // the summary block is computed from the accumulated statistics
    ensures Configured(url) ==> report.verdict == Summarize(report.summary, numRequests)
    // the summary guard
    ensures report.verdict.Stats? <==> report.summary.successfulRequests > 0
    ensures report.verdict.AllFailed? <==>
              Configured(url) && report.summary.successfulRequests == 0 && numRequests > 0
    ensures report.verdict.Stats? ==>
              var times := report.summary.requestTimesMs;
              (forall i :: 0 <= i < |times| ==> report.verdict.minMs <= times[i] <= report.verdict.maxMs) &&
              report.verdict.minMs <= report.verdict.averageMs <= report.verdict.maxMs
  {
    if !Configured(url) {
      return SeriesReport(true, EmptySummary, 0, NoVerdict);
    }

    var requestTimesMs: seq<real> := [];
    var successfulRequests: nat := 0;
    var failedRequestsSummary: Hist := map[];
    var delays: nat := 0;
    ghost var results := Results(observations);
    var n := Attempts(numRequests);

    for i := 0 to n
      invariant SeriesSummary(requestTimesMs, successfulRequests, failedRequestsSummary) == Tally(results[..i])
      invariant |requestTimesMs| == successfulRequests
      invariant delays == if i < n then i else Delays(numRequests)
    {
      var r := MakeSingleRequest(observations[i].outcome, observations[i].elapsedMs);
      ghost var before := SeriesSummary(requestTimesMs, successfulRequests, failedRequestsSummary);
      assert r == results[i];
      TallyStep(results, i);
      if r.responseOk {
        requestTimesMs := requestTimesMs + [r.timeTakenMs];
        successfulRequests := successfulRequests + 1;
      } else {
        var errorKey := ErrorKey(r.statusCode, r.errorMessage);
        failedRequestsSummary := failedRequestsSummary[errorKey := Get(failedRequestsSummary, errorKey) + 1];
      }
      assert SeriesSummary(requestTimesMs, successfulRequests, failedRequestsSummary) == Record(before, r);
      if i < numRequests - 1 {
        delays := delays + 1;
      }
    }
    assert results[..n] == results;
    TallyConservation(results);

    var summary := SeriesSummary(requestTimesMs, successfulRequests, failedRequestsSummary);
    report := SeriesReport(false, summary, delays, Summarize(summary, numRequests));
  }
}
