/** The collection orchestrator: the `Nats` input and one collection cycle. */
module Nats {
  import opened Base
  import opened Sink
  import opened Stats
  import opened Fetcher

  const Second: Duration := 1_000_000_000
  const DefaultTimeout: Duration := 5 * Second

  /** The timeout floor: a configured timeout under one second becomes five seconds. */
  function NormalizeTimeout(d: Duration): (r: Duration)
    ensures Second <= r
    ensures Second <= d ==> r == d
    ensures d < Second ==> r == DefaultTimeout
  {
    if d < Second then DefaultTimeout else d
  }

  /** The HTTP client, as far as the model sees it: its request timeout. */
  datatype HttpClient = HttpClient(timeout: Duration)

  /** The error recorded for a configured address that does not parse. */
  function ParseErrorMessage(u: string, cause: string): (msg: string)
    ensures "Unable to parse address '" <= msg
    ensures |msg| == 28 + |u| + |cause|
    ensures msg[25..25 + |u|] == u && msg[25 + |u|..28 + |u|] == "': "
    ensures msg[28 + |u|..] == cause
  {
    "Unable to parse address '" + u + "': " + cause
  }

  /** The accumulator calls caused by configured address `u` in one cycle:
      one parse error, or the fetch's emissions followed by one `AddError`
      carrying the fetch's error (nil on success). `parse` stands for
      `url.Parse` and `fetch` for `client.Get` under the given timeout. */
  function UrlLog(u: string, parse: string -> Result<Url>,
                  fetch: (Duration, string) -> Response, timeout: Duration): (calls: seq<Entry>)
    ensures 1 <= |calls| <= 2 && ErrorCalls(calls) == 1 && calls[|calls| - 1].AddedError?
    ensures parse(u).Failure? ==> |calls| == 1
  {
    match parse(u)
    case Failure(cause) => [AddedError(Some(ParseErrorMessage(u, cause)))]
    case Success(addr) =>
      var outcome := Classify(addr, fetch(timeout, RequestTarget(addr)));
      outcome.Emissions() + [AddedError(outcome.Err())]
  }

  /** The per-address calls of one cycle, as a function of the address. */
  function Reports(parse: string -> Result<Url>, fetch: (Duration, string) -> Response,
                   timeout: Duration): string -> seq<Entry>
  {
    u => UrlLog(u, parse, fetch, timeout)
  }

  /** Every address makes one or two calls (true of `Reports`, by `UrlLog`). */
  predicate ReportsBounded(urls: seq<string>, report: string -> seq<Entry>)
  {
    forall u | u in urls :: 1 <= |report(u)| <= 2
  }

  /** The accumulator calls of one cycle over `urls`, taken in list order, where
      `report(u)` are the calls caused by address `u`. */
  function GatherLog(urls: seq<string>, report: string -> seq<Entry>): (calls: seq<Entry>)
    ensures ReportsBounded(urls, report) ==> |urls| <= |calls| <= 2 * |urls|
  {
    if urls == [] then [] else report(urls[0]) + GatherLog(urls[1..], report)
  }

  /** The plugin: configured addresses, configured timeout, and the client
      built on first use. */
  class Nats {
    var urls: seq<string>
    var client: Option<HttpClient>
    var responseTimeout: Duration

    /** Once built, the client carries the normalised timeout. */
    ghost predicate Valid()
      reads this
    {
      client.Some? ==> client.value.timeout == responseTimeout && Second <= responseTimeout
    }

    constructor (urls: seq<string>, responseTimeout: Duration)
      ensures this.urls == urls && this.responseTimeout == responseTimeout
      ensures client == None && Valid()
    {
      this.urls := urls;
      this.responseTimeout := responseTimeout;
      client := None;
    }

    /** `createHttpClient`: normalises the configured timeout in place and builds
        a client with it. It has no failing path. */
    method CreateHttpClient() returns (c: HttpClient, err: Option<string>)
      modifies this`responseTimeout
      ensures responseTimeout == NormalizeTimeout(old(responseTimeout))
      ensures c == HttpClient(responseTimeout)
      ensures err == None
    {
      if responseTimeout < Second {
        responseTimeout := 5 * Second;
      }
      c := HttpClient(responseTimeout);
      err := None;
    }

    /** `gatherUrl`: one request to the address's status path, checked in order;
        a record is reported only after a successful decode. */
    method GatherUrl(addr: Url, acc: Accumulator, fetch: (Duration, string) -> Response)
      returns (err: Option<string>)
      requires client.Some?
      modifies acc
      ensures var outcome := Classify(addr, fetch(client.value.timeout, RequestTarget(addr)));
        acc.log == old(acc.log) + outcome.Emissions() && err == outcome.Err()
    {
      var resp := fetch(client.value.timeout, RequestTarget(addr));
      match resp {
        case TransportError(_) =>
          return Some(FailureMessage(Transport, addr, resp));
        case Reply(code, _, header, body) =>
          if code != StatusOK {
            return Some(FailureMessage(Status, addr, resp));
          }
          var contentType := MediaType(header);
          if contentType == JsonContentType {
            err := GatherStatusUrl(body, GetTags(addr), acc);
          } else {
            err := Some(FailureMessage(ContentType, addr, resp));
          }
      }
    }

    /** The lazy construction at the head of `Gather`: a client is built only
        when there is none, and an existing one is kept as it is. */
    method EnsureClient()
      requires Valid()
      modifies this`client, this`responseTimeout
      ensures Valid() && client.Some?
      ensures old(client).Some? ==> client == old(client) && responseTimeout == old(responseTimeout)
      ensures old(client).None? ==>
        responseTimeout == NormalizeTimeout(old(responseTimeout)) && client == Some(HttpClient(responseTimeout))
    {
      if client.None? {
        // createHttpClient never fails, so Go's early return of its error is dead code.
        var c, _ := CreateHttpClient();
        client := Some(c);
      }
    }

    /** The body of `Gather`'s loop for one configured address: a parse error,
        or one fetch whose error is then reported. */
    method GatherOne(u: string, acc: Accumulator, parse: string -> Result<Url>, fetch: (Duration, string) -> Response)
      requires client.Some?
      modifies acc
      ensures acc.log == old(acc.log) + UrlLog(u, parse, fetch, client.value.timeout)
    {
      match parse(u) {
        case Failure(cause) =>
          acc.AddError(Some(ParseErrorMessage(u, cause)));
        case Success(addr) =>
          var err := GatherUrl(addr, acc, fetch);
          acc.AddError(err);
      }
    }

    /** `Gather`: build the client if there is none, then handle every configured
        address, reporting each fetch's error. The fetches run one after the
        other here; the calls made are the same up to order (see
        `GatherLogOrderIrrelevant`). */
    method Gather(acc: Accumulator, parse: string -> Result<Url>, fetch: (Duration, string) -> Response)
      returns (err: Option<string>)
      requires Valid()
      modifies this`client, this`responseTimeout, acc
      ensures Valid() && client.Some? && err == None
      ensures old(client).Some? ==> client == old(client) && responseTimeout == old(responseTimeout)
      ensures old(client).None? ==>
        responseTimeout == NormalizeTimeout(old(responseTimeout)) && client == Some(HttpClient(responseTimeout))
      ensures acc.log == old(acc.log) + GatherLog(urls, Reports(parse, fetch, client.value.timeout))
    {
      EnsureClient();
      GatherAll(acc, parse, fetch);
      return None;
    }

    /** The loop of `Gather` over the configured addresses. */
    method GatherAll(acc: Accumulator, parse: string -> Result<Url>, fetch: (Duration, string) -> Response)
      requires client.Some?
      modifies acc
      ensures acc.log == old(acc.log) + GatherLog(urls, Reports(parse, fetch, client.value.timeout))
    {
      var report := Reports(parse, fetch, client.value.timeout);
      var i := 0;
      while i < |urls|
        invariant 0 <= i <= |urls|
        invariant acc.log == old(acc.log) + GatherLog(urls[..i], report)
      {
        GatherOne(urls[i], acc, parse, fetch);
        GatherLogStep(urls, i, report);
        i := i + 1;
      }
      assert urls[..i] == urls;
    }
  }

  // ---------------------------------------------------------------------
  // Properties of the timeout rule
  // ---------------------------------------------------------------------

  /** Normalising twice is normalising once. */
  lemma NormalizeTimeoutIdempotent(d: Duration)
    ensures NormalizeTimeout(NormalizeTimeout(d)) == NormalizeTimeout(d)
  {
  }

  /** A configured 500ms becomes 5s; zero and negative values do too. */
  lemma TimeoutExamples()
    ensures NormalizeTimeout(500_000_000) == 5_000_000_000
    ensures NormalizeTimeout(0) == 5_000_000_000
    ensures NormalizeTimeout(-1) == 5_000_000_000
    ensures NormalizeTimeout(Second) == Second
  {
  }

  // ---------------------------------------------------------------------
  // Properties of one collection cycle
  // ---------------------------------------------------------------------

  /** The log of a list is the logs of its parts, one after the other. */
  lemma {:induction false} GatherLogAppend(us: seq<string>, vs: seq<string>, report: string -> seq<Entry>)
    ensures GatherLog(us + vs, report) == GatherLog(us, report) + GatherLog(vs, report)
  {
    if us == [] {
      assert us + vs == vs;
    } else {
      assert (us + vs)[1..] == us[1..] + vs;
      GatherLogAppend(us[1..], vs, report);
    }
  }

  /** Handling one more address appends its calls to the log. */
  lemma GatherLogStep(us: seq<string>, i: nat, report: string -> seq<Entry>)
    requires i < |us|
    ensures GatherLog(us[..i + 1], report) == GatherLog(us[..i], report) + report(us[i])
  {
    assert us[..i + 1] == us[..i] + [us[i]];
    GatherLogAppend(us[..i], [us[i]], report);
    assert GatherLog([us[i]], report) == report(us[i]);
  }

  /** The calls made do not depend on the order of the configured addresses:
      any reordering yields the same multiset of calls, so every interleaving
      of the per-address calls has this multiset. */
  lemma {:induction false} GatherLogOrderIrrelevant(us: seq<string>, vs: seq<string>, report: string -> seq<Entry>)
    requires multiset(us) == multiset(vs)
    ensures multiset(GatherLog(us, report)) == multiset(GatherLog(vs, report))
  {
    if us != [] {
      var u := us[0];
      assert us == [u] + us[1..];
      var before, after := SplitAround(vs, u);
      RemoveOne(before, u, after);
      GatherLogOrderIrrelevant(us[1..], before + after, report);
      assert GatherLog(us, report) == report(u) + GatherLog(us[1..], report);
      GatherLogAround(before, u, after, report);
    }
  }

  /** An element of a sequence splits it into what comes before and after one of its occurrences. */
  lemma SplitAround(vs: seq<string>, u: string) returns (before: seq<string>, after: seq<string>)
    requires u in multiset(vs)
    ensures vs == before + [u] + after
  {
    assert u in vs;
    var k :| 0 <= k < |vs| && vs[k] == u;
    before, after := vs[..k], vs[k + 1..];
    assert vs == before + [u] + after;
  }

  /** Moving one address to the front moves its calls there and changes no count. */
  lemma GatherLogAround(before: seq<string>, u: string, after: seq<string>, report: string -> seq<Entry>)
    ensures multiset(GatherLog(before + [u] + after, report)) ==
            multiset(report(u)) + multiset(GatherLog(before + after, report))
  {
    var a, b, r := GatherLog(before, report), GatherLog(after, report), report(u);
    GatherLogAppend(before + [u], after, report);
    GatherLogAppend(before, [u], report);
    GatherLogAppend(before, after, report);
    assert GatherLog([u], report) == r;
    assert multiset(a + r + b) == multiset(r) + multiset(a + b);
  }

  /** Taking one element out of a sequence takes it out of its multiset. */
  lemma RemoveOne(before: seq<string>, u: string, after: seq<string>)
    ensures multiset(before + after) == multiset(before + [u] + after) - multiset{u}
  {
    assert multiset(before + [u] + after) == multiset(before) + multiset{u} + multiset(after);
  }

  /** Every configured address leads to exactly one `AddError` call: its parse
      error, or the error (nil on success) of its one fetch. */
  lemma {:induction false} OneErrorReportPerUrl(us: seq<string>, parse: string -> Result<Url>,
                                                fetch: (Duration, string) -> Response, timeout: Duration)
    ensures ErrorCalls(GatherLog(us, Reports(parse, fetch, timeout))) == |us|
  {
    if us != [] {
      var report := Reports(parse, fetch, timeout);
      ErrorCallsAppend(report(us[0]), GatherLog(us[1..], report));
      OneErrorReportPerUrl(us[1..], parse, fetch, timeout);
      match parse(us[0]) {
        case Failure(_) =>
        case Success(addr) =>
          var outcome := Classify(addr, fetch(timeout, RequestTarget(addr)));
          ErrorCallsAppend(outcome.Emissions(), [AddedError(outcome.Err())]);
      }
    }
  }

  /** Failures are isolated: the calls caused by each configured address all
      appear in the cycle's log, whatever the other addresses do. */
  lemma {:induction false} EveryUrlReported(us: seq<string>, u: string, report: string -> seq<Entry>)
    requires u in us
    ensures multiset(report(u)) <= multiset(GatherLog(us, report))
  {
    if us[0] != u {
      EveryUrlReported(us[1..], u, report);
    }
  }

  /** Every reported record comes from a configured address that parsed and
      whose fetch passed every check. */
  lemma {:induction false} RecordsComeFromEmittingUrls(us: seq<string>, m: Metric, parse: string -> Result<Url>,
                                                       fetch: (Duration, string) -> Response, timeout: Duration)
    requires AddedFields(m) in GatherLog(us, Reports(parse, fetch, timeout))
    ensures exists u :: u in us && Emits(u, m, parse, fetch, timeout)
  {
    var report := Reports(parse, fetch, timeout);
    if AddedFields(m) in report(us[0]) {
      assert us[0] in us && Emits(us[0], m, parse, fetch, timeout);
    } else {
      RecordsComeFromEmittingUrls(us[1..], m, parse, fetch, timeout);
      var u :| u in us[1..] && Emits(u, m, parse, fetch, timeout);
      assert u in us;
    }
  }

  /** Address `u` parses and its fetch emits record `m`. */
  predicate Emits(u: string, m: Metric, parse: string -> Result<Url>,
                  fetch: (Duration, string) -> Response, timeout: Duration)
  {
    parse(u).Success? && Classify(parse(u).value, fetch(timeout, RequestTarget(parse(u).value))) == Emitted(m)
  }

  /** An address that does not parse yields its one parse error and no request:
      its calls do not depend on the network at all. */
  lemma ParseFailureMakesNoRequest(u: string, parse: string -> Result<Url>,
                                   fetch: (Duration, string) -> Response, other: (Duration, string) -> Response,
                                   timeout: Duration)
    requires parse(u).Failure?
    ensures UrlLog(u, parse, fetch, timeout) == [AddedError(Some(ParseErrorMessage(u, parse(u).error)))]
    ensures UrlLog(u, parse, fetch, timeout) == UrlLog(u, parse, other, timeout)
  {
  }

  /** An address that parses is fetched once, at its `/varz` path, with the
      client's timeout: only that response matters. */
  lemma OnlyStatusPathRequested(u: string, parse: string -> Result<Url>,
                                fetch: (Duration, string) -> Response, other: (Duration, string) -> Response,
                                timeout: Duration)
    requires parse(u).Success?
    requires fetch(timeout, parse(u).value.text + "/varz") == other(timeout, parse(u).value.text + "/varz")
    ensures UrlLog(u, parse, fetch, timeout) == UrlLog(u, parse, other, timeout)
  {
  }

  /** The sample `/varz` payload of the plugin's test, restricted to the members
      the decoder reads plus a few it ignores. */
  function SampleVarz(): map<string, JsonValue>
  {
    map[
      "server_id" := Other, "cluster" := Other, "port" := Integer(4222),
      "mem" := Integer(6193152), "cpu" := Integer(0),
      "connections" := Integer(2), "total_connections" := Integer(2), "routes" := Integer(0),
      "remotes" := Integer(0), "in_msgs" := Integer(0), "out_msgs" := Integer(0),
      "in_bytes" := Integer(0), "out_bytes" := Integer(0), "slow_consumers" := Integer(0),
      "subscriptions" := Integer(25)]
  }

  /** What the decoder reads from each struct tag of the sample. */
  lemma SampleFieldValues()
    ensures var m := SampleVarz();
      && FieldValue(m, "mem") == Some(6193152) && FieldValue(m, "cpu") == Some(0)
      && FieldValue(m, "connections") == Some(2) && FieldValue(m, "total_connections") == Some(2)
      && FieldValue(m, "routes") == Some(0) && FieldValue(m, "remotes") == Some(0)
      && FieldValue(m, "in_msgs") == Some(0) && FieldValue(m, "out_msgs") == Some(0)
      && FieldValue(m, "in_bytes") == Some(0) && FieldValue(m, "out_bytes") == Some(0)
      && FieldValue(m, "slow_consumers") == Some(0) && FieldValue(m, "subscritpions") == Some(0)
  {
  }

  /** The sample decodes to its values, with `subscriptions` at 0, not 25: the
      struct reads the key "subscritpions", which the payload lacks. */
  lemma SampleDecodes()
    ensures DecodeVarStats(Object(SampleVarz())) == Some(VarStats(6193152, 0, 2, 2, 0, 0, 0, 0, 0, 0, 0, 0))
  {
    SampleFieldValues();
  }

  /** The test's scenario: a JSON reply from a test server on 127.0.0.1 yields
      one record tagged with that host and port. */
  lemma SampleResponseEmitsRecord()
    ensures var addr := Url("http://127.0.0.1:41234", "127.0.0.1:41234");
      var resp := Reply(200, "200 OK", Some("application/json"), Object(SampleVarz()));
      Classify(addr, resp) == Emitted(Metric("nats", Fields(VarStats(6193152, 0, 2, 2, 0, 0, 0, 0, 0, 0, 0, 0)),
                                             map["server" := "127.0.0.1", "port" := "41234"]))
  {
    var addr := Url("http://127.0.0.1:41234", "127.0.0.1:41234");
    assert addr.host == "127.0.0.1" + ":" + "41234";
    TagsOfHostAndPort(addr, "127.0.0.1", "41234");
    JsonContentTypeAccepted();
    SampleDecodes();
    var resp := Reply(200, "200 OK", Some("application/json"), Object(SampleVarz()));
    var stats := VarStats(6193152, 0, 2, 2, 0, 0, 0, 0, 0, 0, 0, 0);
    assert DecodeVarStats(resp.body) == Some(stats);
    assert Classify(addr, resp) == Emitted(Metric(Measurement, Fields(stats), GetTags(addr)));
  }
}
