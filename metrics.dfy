/**
 * The exception-tracking decorator `track_exceptions` and the two process-wide
 * counters it updates: `api_exceptions_total`, labelled by endpoint, method and
 * exception type, and the unlabelled `api_exceptions_sum_total`.
 *
 * The counters live in a `Registry` object whose `Track` method is the body of
 * the decorated function after the wrapped handler has produced its outcome.
 * `Tally` is the pure specification of what one tracked call does to the
 * labelled series, and `Replay` folds it over a whole run of calls.
 */
module Metrics {
  import opened Python
  import opened Flask

  /** The label values of one series of `api_exceptions_total`. */
  datatype Labels = Labels(endpoint: string, httpMethod: string, exceptionType: string)

  /** The endpoint label used when the request has no (or an empty) endpoint. */
  const UnknownEndpoint := "unknown"

  /** `request.endpoint or 'unknown'`: Python's `or` also skips the empty string. */
  function EndpointLabel(endpoint: Option<string>): (name: string)
    ensures endpoint.Some? && endpoint.value != "" ==> name == endpoint.value
    ensures endpoint.None? || endpoint.value == "" ==> name == UnknownEndpoint
    ensures name != ""
  {
    if endpoint.Some? && endpoint.value != "" then endpoint.value else UnknownEndpoint
  }

  /** The series a failure of `req` with exception `e` is counted under. */
  function LabelsFor(req: Request, e: Exception): (l: Labels)
    ensures l.endpoint == EndpointLabel(req.endpoint)
    ensures l.httpMethod == req.httpMethod
    ensures l.exceptionType == e.typeName
  {
    Labels(EndpointLabel(req.endpoint), req.httpMethod, e.typeName)
  }

  /** The exception's message never reaches the labels: only its class name does. */
  lemma LabelsIgnoreMessage(req: Request, e1: Exception, e2: Exception)
    requires e1.typeName == e2.typeName
    ensures LabelsFor(req, e1) == LabelsFor(req, e2)
    ensures LabelsFor(req, e1).exceptionType == e1.typeName
    ensures LabelsFor(req, e1).httpMethod == req.httpMethod
  {
  }

  // ---------------------------------------------------------------------------
  // The log line

  /** `f"Exception in {endpoint} ({method}): {exception_type} - {str(e)}"` */
  function LogLine(l: Labels, message: string): (line: string)
    ensures |line| == |l.endpoint| + |l.httpMethod| + |l.exceptionType| + |message| + 21
    ensures "Exception in " + l.endpoint + " (" <= line
  {
    "Exception in " + l.endpoint + " (" + l.httpMethod + "): " + l.exceptionType + " - " + message
  }

  /** The text before and after the first occurrence of `sep` in `s`, if there is one. */
  function SplitAt(s: string, sep: string): (r: Option<(string, string)>)
    requires sep != ""
    ensures r.Some? ==> r.value.0 + sep + r.value.1 == s
    ensures r.Some? ==> forall i :: 0 <= i < |r.value.0| ==> !(sep <= s[i..])
    ensures r.None? ==> forall i :: 0 <= i <= |s| ==> !(sep <= s[i..])
    decreases |s|
  {
    if |s| < |sep| then None
    else if sep <= s then Some(([], s[|sep|..]))
    else
      assert forall i :: 1 <= i <= |s| ==> s[i..] == s[1..][i - 1..];
      match SplitAt(s[1..], sep)
      case None => None
      case Some(parts) => Some(([s[0]] + parts.0, parts.1))
  }

  /** Reads the labels and the message back out of a line written by `LogLine`. */
  function ParseLogLine(line: string): Option<(Labels, string)>
  {
    if !("Exception in " <= line) then None
    else match SplitAt(line[13..], " (")
      case None => None
      case Some(afterEndpoint) => match SplitAt(afterEndpoint.1, "): ")
        case None => None
        case Some(afterMethod) => match SplitAt(afterMethod.1, " - ")
          case None => None
          case Some(afterType) =>
            Some((Labels(afterEndpoint.0, afterMethod.0, afterType.0), afterType.1))
  }

  /** A field that does not contain the separator's first character ends at the separator. */
  lemma {:induction false} SplitAtFirst(a: string, sep: string, b: string)
    requires sep != "" && sep[0] !in a
    ensures SplitAt(a + sep + b, sep) == Some((a, b))
  {
    var s := a + sep + b;
    if a == [] {
      assert s == sep + b;
      assert s[|sep|..] == b;
    } else {
      assert s[0] == a[0] != sep[0];
      assert s[1..] == a[1..] + sep + b;
      SplitAtFirst(a[1..], sep, b);
      assert !(sep <= s);
      assert [s[0]] + a[1..] == a;
    }
  }

  /**
   * The log line carries all four fields recoverably, provided the endpoint and
   * the exception's class name contain no space and the method no `)` (true of
   * Flask endpoint names, HTTP method tokens and Python class names).
   */
  lemma LogLineRoundTrip(l: Labels, message: string)
    requires ' ' !in l.endpoint && ')' !in l.httpMethod && ' ' !in l.exceptionType
    ensures ParseLogLine(LogLine(l, message)) == Some((l, message))
  {
    var line := LogLine(l, message);
    var tail := l.exceptionType + " - " + message;
    var rest := l.httpMethod + "): " + tail;
    assert line[13..] == l.endpoint + " (" + rest;
    SplitAtFirst(l.endpoint, " (", rest);
    SplitAtFirst(l.httpMethod, "): ", tail);
    SplitAtFirst(l.exceptionType, " - ", message);
  }

  // ---------------------------------------------------------------------------
  // Counter tables

  /** The value of series `k`: a series not yet created reads as 0. */
  function Count<K>(m: map<K, nat>, k: K): (n: nat)
    ensures k !in m ==> n == 0
    ensures k in m ==> n == m[k]
  {
    if k in m then m[k] else 0
  }

  /** The sum of all series of a counter table. */
  ghost function Sum<K>(m: map<K, nat>): nat
    decreases |m|
  {
    if m == map[] then 0
    else
      var k :| k in m;
      assert |m - {k}| < |m| by { assert (m - {k}).Keys == m.Keys - {k}; }
      m[k] + Sum(m - {k})
  }

  /** The sum does not depend on which key is taken out first. */
  lemma {:induction false} SumRemove<K>(m: map<K, nat>, k: K)
    requires k in m
    ensures Sum(m) == m[k] + Sum(m - {k})
    decreases |m|
  {
    var j :| j in m && Sum(m) == m[j] + Sum(m - {j});
    if j != k {
      assert (m - {j}).Keys == m.Keys - {j};
      assert (m - {k}).Keys == m.Keys - {k};
      SumRemove(m - {j}, k);
      SumRemove(m - {k}, j);
      assert m - {j} - {k} == m - {k} - {j};
    }
  }

  /** Incrementing one series, present or fresh, raises the sum by exactly 1. */
  lemma SumIncrement<K>(m: map<K, nat>, k: K)
    ensures Sum(m[k := Count(m, k) + 1]) == Sum(m) + 1
  {
    var m' := m[k := Count(m, k) + 1];
    SumRemove(m', k);
    if k in m {
      SumRemove(m, k);
      assert m' - {k} == m - {k};
    } else {
      assert m' - {k} == m;
    }
  }

  /** No single series exceeds the sum of all of them. */
  lemma SumBound<K>(m: map<K, nat>, k: K)
    ensures Count(m, k) <= Sum(m)
  {
    if k in m {
      SumRemove(m, k);
    }
  }

  // ---------------------------------------------------------------------------
  // What one tracked call, and a run of them, does to the labelled series

  /**
   * The labelled series after one call: unchanged on success; on failure the
   * series of the failure's labels goes up by 1 (created at 0 if new) and every
   * other series stays as it was.
   */
  function Tally<T>(series: map<Labels, nat>, req: Request, outcome: Outcome<T>): (after: map<Labels, nat>)
    ensures outcome.Ok? ==> after == series
    ensures outcome.Err? ==> after.Keys == series.Keys + {LabelsFor(req, outcome.error)}
    ensures outcome.Err? ==>
      Count(after, LabelsFor(req, outcome.error)) == Count(series, LabelsFor(req, outcome.error)) + 1
    ensures forall l :: outcome.Err? && l != LabelsFor(req, outcome.error) ==> Count(after, l) == Count(series, l)
  {
    match outcome
    case Ok(_) => series
    case Err(e) =>
      var l := LabelsFor(req, e);
      series[l := Count(series, l) + 1]
  }

  /** A tracked call raises the sum of the labelled series by 1 on failure, by 0 on success. */
  lemma TallySum<T>(series: map<Labels, nat>, req: Request, outcome: Outcome<T>)
    ensures Sum(Tally(series, req, outcome)) == Sum(series) + (if outcome.Err? then 1 else 0)
  {
    if outcome.Err? {
      SumIncrement(series, LabelsFor(req, outcome.error));
    }
  }

  /** One request served by a tracked handler, and the handler's outcome. */
  datatype Call<+T> = Call(req: Request, outcome: Outcome<T>)

  /** The labelled series after a run of calls, starting from the empty table. */
  function Replay<T>(calls: seq<Call<T>>): map<Labels, nat>
  {
    if calls == [] then map[]
    else
      var last := calls[|calls| - 1];
      Tally(Replay(calls[..|calls| - 1]), last.req, last.outcome)
  }

  /** How many calls of the run failed. */
  function Failures<T>(calls: seq<Call<T>>): nat
  {
    if calls == [] then 0
    else Failures(calls[..|calls| - 1]) + (if calls[|calls| - 1].outcome.Err? then 1 else 0)
  }

  /** How many calls of the run failed with labels `l`. */
  function Occurrences<T>(calls: seq<Call<T>>, l: Labels): nat
  {
    if calls == [] then 0
    else
      var last := calls[|calls| - 1];
      Occurrences(calls[..|calls| - 1], l)
        + (if last.outcome.Err? && LabelsFor(last.req, last.outcome.error) == l then 1 else 0)
  }

  /** After any run, the labelled series add up to the number of failed calls. */
  lemma {:induction false} ReplayTotal<T>(calls: seq<Call<T>>)
    ensures Sum(Replay(calls)) == Failures(calls)
  {
    if calls != [] {
      var last := calls[|calls| - 1];
      ReplayTotal(calls[..|calls| - 1]);
      TallySum(Replay(calls[..|calls| - 1]), last.req, last.outcome);
    }
  }

  /** After any run, each series holds exactly the number of failures with its labels. */
  lemma {:induction false} ReplaySeries<T>(calls: seq<Call<T>>, l: Labels)
    ensures Count(Replay(calls), l) == Occurrences(calls, l)
  {
    if calls != [] {
      ReplaySeries(calls[..|calls| - 1], l);
    }
  }

  /** Counters never decrease: extending a run never lowers any series. */
  lemma {:induction false} ReplayMonotone<T>(calls: seq<Call<T>>, more: seq<Call<T>>, l: Labels)
    ensures Count(Replay(calls), l) <= Count(Replay(calls + more), l)
    decreases |more|
  {
    if more != [] {
      var prefix := more[..|more| - 1];
      assert (calls + more)[..|calls + more| - 1] == calls + prefix;
      ReplayMonotone(calls, prefix, l);
    } else {
      assert calls + more == calls;
    }
  }

  // ---------------------------------------------------------------------------
  // The registry and the decorator

  /** The process-wide counters, both starting at 0. */
  class Registry {
    /** `api_exceptions_total`: one series per label triple seen so far. */
    var series: map<Labels, nat>
    /** `api_exceptions_sum_total` */
    var total: nat

    /** The global counter equals the sum of all labelled series. */
    ghost predicate Valid()
      reads this
    {
      total == Sum(series)
    }

    constructor ()
      ensures Valid()
      ensures series == map[] && total == 0
    {
      series := map[];
      total := 0;
    }

    /** `exception_counter_by_endpoint.labels(...).inc()` */
    method IncSeries(l: Labels)
      modifies this
      ensures series == old(series)[l := Count(old(series), l) + 1]
      ensures total == old(total)
    {
      series := series[l := Count(series, l) + 1];
    }

    /** `total_exceptions_counter.inc()` */
    method IncTotal()
      modifies this
      ensures total == old(total) + 1
      ensures series == old(series)
    {
      total := total + 1;
    }

    /**
     * `decorated_function` once the wrapped handler has produced `outcome`:
     * a success is handed back untouched and nothing is logged or counted; a
     * failure is logged once, counted once in its series and once in the
     * global counter, and handed back as the same failure.
     */
    method Track<T>(req: Request, outcome: Outcome<T>) returns (result: Outcome<T>, logged: Option<string>)
      requires Valid()
      modifies this
      ensures Valid()
      ensures result == outcome
      ensures series == Tally(old(series), req, outcome)
      ensures total == old(total) + (if outcome.Err? then 1 else 0)
      ensures outcome.Ok? ==> logged == None
      ensures outcome.Err? ==> logged == Some(LogLine(LabelsFor(req, outcome.error), outcome.error.message))
    {
      match outcome {
        case Ok(_) =>
          logged := None;
        case Err(e) =>
          var endpoint := EndpointLabel(req.endpoint);
          var httpMethod := req.httpMethod;
          var exceptionType := e.typeName;
          var labels := Labels(endpoint, httpMethod, exceptionType);
          logged := Some(LogLine(labels, e.message));
          SumIncrement(series, labels);
          IncSeries(labels);
          IncTotal();
      }
      result := outcome;
    }
  }
}
