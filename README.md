# Webhook load-test statistics, modelled in Dafny

The repository's load-test script fires a series of JSON POST requests at each
configured webhook and reports latency and failure statistics per series. This
project models the two parts of it that are not I/O or threading:

- **the request runner** (`make_single_n8n_request`). It turns the outcome of one
  HTTP call into the tuple `(time_taken_ms, response_ok, status_code, error_message)`.
  The outcome is one of: a response with an ok or non-ok status, a timeout, another
  transport exception, or an unexpected exception. The HTTP call and the clock are
  inputs: the outcome is the abstract datatype `Request.Outcome`, and the measured
  duration is an opaque `real`.
- **the series orchestrator** (`test_webhook_series`). This is the URL guard, then the
  loop over the attempts. The loop appends successful durations, counts successes and
  tallies failures per error key in a dictionary. It also counts the inter-request
  sleeps. After the loop comes the guarded min/avg/max summary. `Series.RunSeries` is a
  method with that loop and its invariants. It is proved against the specification fold
  `Series.Tally`, and the conservation law is proved about that fold by `Series.TallyConservation`. The lemmas in `SeriesLemmas` are further properties of the fold.

Modules: `Optional` (Python's `None`), `Text` (`str()` of a status code, and the
substring test `"HTTP" in msg`), `Histogram` (the error dictionary, `dict.get`, and the
sum of its values), `Durations` (`sum`, `min`, `max` of the durations), `Request`,
`Series` and `SeriesLemmas`.

How the source classifies failures:

- A transport failure's message is `"RequestException: " + str(e)` (src/tests/test_webhook.py:59).
- `except Exception` (src/tests/test_webhook.py:63) catches every `Exception` subclass and reports it as `"Unexpected error: " + str(e)`. A `BaseException` that is not an `Exception`, such as `KeyboardInterrupt`, is not caught; the model has no outcome for it.
- A failed attempt is tallied under `"HTTP <code>"` when the status code is truthy (not `None`, not 0) and the message is missing, empty or lacks "HTTP" (src/tests/test_webhook.py:101-102). With a truthy status code and a message that contains "HTTP", the message is kept. Without a truthy status code, the message is the key, or "Unknown Error" when the message is missing or empty. `SeriesLemmas.ErrorKeyOfAttempt` shows that for every result the request function can produce, this rule returns the error message itself.

## Model

| member | source | states |
|---|---|---|
| `Request.MakeSingleRequest` | src/tests/test_webhook.py:35-71 | the measured duration is always returned; `response_ok` holds exactly when no error message is set, and exactly when a response arrived with an ok status; a status code is recorded exactly when a response arrived; a non-ok response gives "HTTP <code>" and a timeout gives "Timeout" |
| `Request.ErrorMessageRoundTrip` | src/tests/test_webhook.py:42-67 | the error message is absent exactly for an ok response; otherwise reading it back gives the failure kind: the status code, a timeout, or the transport or unexpected exception with its text |
| `Request.ErrorMessageIdentifiesFailure` | src/tests/test_webhook.py:42-67 | two attempts with the same error message failed the same way |
| `Text.IntToDecimalRoundTrip` | src/tests/test_webhook.py:47 | the decimal rendering of a status code in `f"HTTP {status_code}"` reads back as the same integer |
| `Text.IntToDecimalInjective` | src/tests/test_webhook.py:47 | distinct status codes render as distinct strings |
| `Text.ContainsIffOccurs` | src/tests/test_webhook.py:102 | the substring test `"HTTP" in error_msg` holds exactly when the text occurs at some position of the message |
| `Histogram.Bump` | src/tests/test_webhook.py:103 | `d[k] = d.get(k, 0) + 1` adds `k` to the keys, raises its count by one and leaves every other count unchanged |
| `Histogram.BumpSum` | src/tests/test_webhook.py:103 | one increment raises the sum of the dictionary's values by exactly one |
| `Durations.Min` | src/tests/test_webhook.py:121 | `min` of a non-empty duration list is one of its elements, and no element is below it |
| `Durations.Max` | src/tests/test_webhook.py:122 | `max` of a non-empty duration list is one of its elements, and no element is above it |
| `Durations.AverageWithinRange` | src/tests/test_webhook.py:119-122 | the average `sum / count` lies between `min` and `max` |
| `Series.ErrorKey` | src/tests/test_webhook.py:100-102 | the key is never empty; with a truthy status code it contains "HTTP": it is the message when the message is truthy and contains "HTTP", and "HTTP <code>" otherwise; without a truthy status code it is the message if that is truthy, else "Unknown Error" |
| `Series.Record` | src/tests/test_webhook.py:95-103 | each attempt raises successes plus tallied failures by exactly one, and keeps the number of recorded durations equal to the successes |
| `Series.Summarize` | src/tests/test_webhook.py:118-126 | min/avg/max are computed exactly when some request succeeded, and then min and max are recorded durations that bound every duration and the average, and the total is their sum; the "all failed" line is printed exactly when nothing succeeded and requests were made |
| `Series.RunSeries` | src/tests/test_webhook.py:75-133 | a missing or empty URL gives the warning and no attempts, an empty summary and no verdict; otherwise one request is made per attempt, in order, and the summary is the fold of their results; `num_requests - 1` sleeps happen; successes plus the sum of error counts equals the attempts made; the durations recorded equal the successes; the verdict is the guarded summary of the accumulated statistics (`Series.Summarize`), so min/avg/max appear exactly when some request succeeded, bounding every duration |
| `SeriesLemmas.TallyMatchesCounts` | src/tests/test_webhook.py:85-103 | the fold's success count, duration list and per-key failure counts equal independent counts over the attempt results; no key is present with a zero count |
| `Series.TallyConservation` | src/tests/test_webhook.py:85-103 | after any number of attempts, successes plus the sum of all error counts equals the number of attempts, and there is one recorded duration per success |
| `SeriesLemmas.AppendCounts` | src/tests/test_webhook.py:95-103 | one more attempt adds one to the success count or to exactly its own key's count, and appends its duration only if it succeeded |
| `SeriesLemmas.RecordFailureBumpsOneKey` | src/tests/test_webhook.py:99-103 | a failed attempt raises exactly its key by one, leaves every other key, the durations and the success count unchanged |
| `SeriesLemmas.ErrorKeyOfAttempt` | src/tests/test_webhook.py:100-102 | for every result the request function produces, a failure is tallied under its error message, and a non-ok response under "HTTP <code>" |
| `SeriesLemmas.SameKeySameFailure` | src/tests/test_webhook.py:100-103 | two failed attempts share a tally key only if they failed the same way |
| `SeriesLemmas.UniformFailures` | src/tests/test_webhook.py:99-103 | when every attempt fails under one key, the summary is no durations, no successes, and that key counted once per attempt |
| `SeriesLemmas.UniformSuccesses` | src/tests/test_webhook.py:95-98 | when every attempt succeeds, every duration is recorded in order, all are counted, and no error is tallied |
| `SeriesLemmas.ServerErrorSeries` | src/tests/test_webhook.py:99-126 | a server answering 500 to all N requests gives `{"HTTP 500": N}`, no successes, and the "all failed" verdict |
| `SeriesLemmas.TimeoutSeries` | src/tests/test_webhook.py:53-54 | a server that always times out gives `{"Timeout": N}` and no successes |
| `SeriesLemmas.AllOkSeries` | src/tests/test_webhook.py:44-45 | a server answering ok to all N requests gives N successes, every duration recorded in order, and no errors |

## Left out

- The HTTP call itself (`requests.post` with its headers, JSON body and 30-second timeout): it is a foreign library call. Its result is the input `Request.Outcome`.
- `Request.MakeSingleRequest`: `response.ok` is the HTTP library's own verdict on the status code. It is carried as the boolean `ok` of the outcome and is not derived from the code.
- Wall-clock timing with `time.perf_counter` and the float millisecond arithmetic: durations are exact reals given as input.
- `Durations.AverageWithinRange`: the bound min <= average <= max, and the same `minMs <= averageMs <= maxMs` ensures of `Series.Summarize` and `Series.RunSeries`, hold for exact arithmetic only. Floating-point rounding can push the program's average past `min` or `max`: three durations of 0.1 sum to 0.30000000000000004, and the average 0.10000000000000002 is above the maximum 0.1.
- `Series.Summarize`: the average and total are exact real arithmetic. Float rounding and the `:.2f`/`:.3f` formatting are not modelled.
- The verbose per-attempt log lines: the series always passes `verbose=False`. An exception raised by such a print, after the status code was set, is not modelled.
- All console output: banners, the warning text, progress dots, summary lines and the order of the error breakdown (dictionary insertion order). Only which branch is taken is modelled: the `warned` flag and the `Verdict`.
- `Series.RunSeries`: the network's answers are given up front as one `Observation` (outcome and duration) per attempt that `range(num_requests)` makes. The method requires exactly that many.
- `time.sleep`: only the number of inter-request delays is modelled, not their length.
- The thread-per-series driver, `print_lock`, the staggered start and `join`: the point of that code is concurrency. Each series shares nothing with the others except the lock.
- `load_dotenv` and `os.environ` configuration, and the literal payload dictionaries: the URL is an input `Option<string>`, and payloads only matter to the HTTP call.
