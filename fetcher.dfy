/** The endpoint fetcher: one request to `<address>/varz`, classified. */
module Fetcher {
  import opened Base
  import opened Text
  import opened Sink
  import opened Stats

  /** A parsed address, as far as the fetcher uses it: `text` is what
      `addr.String()` renders and `host` is `addr.Host` (host, or host:port). */
  datatype Url = Url(text: string, host: string)

  /** What `client.Get` gives back: a transport error, or a reply with its
      numeric status, its status line, its Content-Type header (if present)
      and its body. */
  datatype Response =
    | TransportError(cause: string)
    | Reply(statusCode: int, status: string, contentType: Option<string>, body: Body)

  /** The result of one fetch: an error message, or the one record emitted. */
  datatype Outcome = Failed(msg: string) | Emitted(metric: Metric)
  {
    /** The `AddFields` calls the fetch makes. */
    function Emissions(): seq<Entry>
    {
      if Emitted? then [AddedFields(metric)] else []
    }

    /** The error value `gatherUrl` returns. */
    function Err(): Option<string>
    {
      if Failed? then Some(msg) else None
    }
  }

  const StatusPath := "/varz"
  const StatusOK := 200
  const JsonContentType := "application/json"
  const DefaultPort := "4222"
  const DecodeErrorMessage := "Error while decoding JSON response"

  /** The URL the request goes to. */
  function RequestTarget(addr: Url): (target: string)
    ensures addr.text <= target && target[|addr.text|..] == "/varz"
  {
    addr.text + StatusPath
  }

  /** The media type of a Content-Type header: the text before the first `;`,
      with no trimming and no case folding; an absent header reads as "". */
  function MediaType(header: Option<string>): (mediaType: string)
    ensures header.None? ==> mediaType == ""
    ensures header.Some? ==> mediaType <= header.value && ';' !in mediaType
    ensures header.Some? && |mediaType| < |header.value| ==> header.value[|mediaType|] == ';'
  {
    Before(if header.Some? then header.value else "", ';')
  }

  /** A simplified `net.SplitHostPort`: succeeds exactly on text with one `:`,
      giving the text before it and the text after it. */
  function SplitHostPort(hostport: string): (r: Option<(string, string)>)
    ensures r.Some? ==> hostport == r.value.0 + ":" + r.value.1 && ':' !in r.value.0 && ':' !in r.value.1
    ensures ':' !in hostport ==> r.None?
  {
    var host := Before(hostport, ':');
    if |host| == |hostport| then None
    else
      var port := hostport[|host| + 1..];
      assert hostport == host + [hostport[|host|]] + port;
      if ':' in port then None else Some((host, port))
  }

  /** The tags of every record from `addr`: its host and port, or the whole
      host and the NATS default port when the host does not split. */
  function GetTags(addr: Url): (tags: map<string, string>)
    ensures tags.Keys == {"server", "port"}
  {
    match SplitHostPort(addr.host)
    case Some((host, port)) => map["server" := host, "port" := port]
    case None => map["server" := addr.host, "port" := DefaultPort]
  }

  /** The checks `gatherUrl` applies to a response, in the order it applies them. */
  datatype Check = Transport | Status | ContentType | Decode

  const CheckOrder: seq<Check> := [Transport, Status, ContentType, Decode]

  /** Whether `resp` passes check `c` taken on its own. */
  predicate Passes(c: Check, resp: Response)
  {
    match c
    case Transport => resp.Reply?
    case Status => resp.Reply? && resp.statusCode == StatusOK
    case ContentType => resp.Reply? && MediaType(resp.contentType) == JsonContentType
    case Decode => resp.Reply? && DecodeVarStats(resp.body).Some?
  }

  /** The index of the first check in `cs` that `resp` fails; `|cs|` when it
      passes them all. */
  function FirstFailing(cs: seq<Check>, resp: Response): (k: nat)
    ensures k <= |cs|
    ensures forall j | 0 <= j < k :: Passes(cs[j], resp)
    ensures k < |cs| ==> !Passes(cs[k], resp)
  {
    if cs == [] || !Passes(cs[0], resp) then 0 else 1 + FirstFailing(cs[1..], resp)
  }

  /** The error message for a failed check. */
  function FailureMessage(c: Check, addr: Url, resp: Response): (msg: string)
    requires (c == Transport) == resp.TransportError?
    ensures c == Transport ==> "error making HTTP request to " + addr.text <= msg
    ensures c == Transport ==> msg[|"error making HTTP request to " + addr.text|..] == ": " + resp.cause
    ensures c == Status || c == ContentType ==> addr.text <= msg
    ensures c == Status ==> msg[|addr.text|..] == " returned HTTP status " + resp.status
    ensures c == ContentType ==>
      msg[|addr.text|..] == " returned unexpected content type " + MediaType(resp.contentType)
    ensures c == Decode ==> msg == DecodeErrorMessage
  {
    match c
    case Transport => "error making HTTP request to " + addr.text + ": " + resp.cause
    case Status => addr.text + " returned HTTP status " + resp.status
    case ContentType => addr.text + " returned unexpected content type " + MediaType(resp.contentType)
    case Decode => DecodeErrorMessage
  }

  /** The outcome of one fetch of `addr` that got `resp`: the terminal state
      of `gatherUrl` and `gatherStatusUrl`. */
  function Classify(addr: Url, resp: Response): (outcome: Outcome)
    ensures outcome.Emitted? ==>
      && outcome.metric.measurement == "nats"
      && outcome.metric.fields.Keys == FieldKeys
      && outcome.metric.tags.Keys == {"server", "port"}
    ensures resp.TransportError? || resp.statusCode != StatusOK ==> outcome.Failed?
  {
    match resp
    case TransportError(_) => Failed(FailureMessage(Transport, addr, resp))
    case Reply(code, _, contentType, body) =>
      if code != StatusOK then Failed(FailureMessage(Status, addr, resp))
      else if MediaType(contentType) != JsonContentType then Failed(FailureMessage(ContentType, addr, resp))
      else match DecodeVarStats(body)
        case None => Failed(FailureMessage(Decode, addr, resp))
        case Some(stats) => Emitted(Metric(Measurement, Fields(stats), GetTags(addr)))
  }

  /** `gatherStatusUrl`: decode the body and, on success, report the record. */
  method GatherStatusUrl(body: Body, tags: map<string, string>, acc: Accumulator) returns (err: Option<string>)
    modifies acc
    ensures DecodeVarStats(body).None? ==> err == Some(DecodeErrorMessage) && acc.log == old(acc.log)
    ensures DecodeVarStats(body).Some? ==>
      err == None &&
      acc.log == old(acc.log) + [AddedFields(Metric(Measurement, Fields(DecodeVarStats(body).value), tags))]
  {
    var decoded := DecodeVarStats(body);
    if decoded.None? {
      return Some(DecodeErrorMessage);
    }
    decoded.value.Gather(tags, acc);
    return None;
  }

  // ---------------------------------------------------------------------
  // Properties of the fetcher
  // ---------------------------------------------------------------------

  /** The first failing check, in the order transport, status, content type,
      decode, decides the outcome and its message; when none fails the record
      is emitted. */
  lemma ClassifyFollowsCheckOrder(addr: Url, resp: Response)
    ensures var k := FirstFailing(CheckOrder, resp);
      if k < |CheckOrder| then
        (CheckOrder[k] == Transport) == resp.TransportError? &&
        Classify(addr, resp) == Failed(FailureMessage(CheckOrder[k], addr, resp))
      else
        resp.Reply? && DecodeVarStats(resp.body).Some? &&
        Classify(addr, resp) == Emitted(Metric(Measurement, Fields(DecodeVarStats(resp.body).value), GetTags(addr)))
  {
    var k := FirstFailing(CheckOrder, resp);
    if k >= 1 { assert Passes(CheckOrder[0], resp); }
    if k >= 2 { assert Passes(CheckOrder[1], resp); }
    if k >= 3 { assert Passes(CheckOrder[2], resp); }
    if k >= 4 { assert Passes(CheckOrder[3], resp); }
  }

  /** A record is emitted exactly when every check passes: no field is reported
      on any failure path. */
  lemma EmittedIffAllChecksPass(addr: Url, resp: Response)
    ensures Classify(addr, resp).Emitted? <==> forall c | c in CheckOrder :: Passes(c, resp)
  {
    ClassifyFollowsCheckOrder(addr, resp);
    var k := FirstFailing(CheckOrder, resp);
    if k < |CheckOrder| {
      assert CheckOrder[k] in CheckOrder;
    }
  }

  /** The emitted record: measurement "nats", the twelve field keys, the fields
      of the decoded body and the tags of the address. */
  lemma EmittedRecord(addr: Url, resp: Response)
    requires Classify(addr, resp).Emitted?
    ensures var m := Classify(addr, resp).metric;
      && resp.Reply? && DecodeVarStats(resp.body).Some?
      && m.measurement == "nats"
      && m.fields.Keys == FieldKeys && |m.fields| == 12
      && m.fields == Fields(DecodeVarStats(resp.body).value)
      && m.tags == GetTags(addr)
  {
    FieldCount(DecodeVarStats(resp.body).value);
  }

  /** The content type is the header up to its first `;`: parameters are dropped. */
  lemma MediaTypeDropsParameters(mediaType: string, parameters: string)
    requires ';' !in mediaType
    ensures MediaType(Some(mediaType + ";" + parameters)) == mediaType
    ensures MediaType(Some(mediaType)) == mediaType
  {
    BeforeFirstSeparator(mediaType, ';', parameters);
    BeforeWithoutSeparator(mediaType, ';');
  }

  /** "application/json" is accepted bare or with parameters: only the media
      type is compared. */
  lemma JsonContentTypeAccepted()
    ensures MediaType(Some(JsonContentType)) == JsonContentType
    ensures MediaType(Some("application/json; charset=utf-8")) == JsonContentType
  {
    assert "application/json; charset=utf-8" == JsonContentType + ";" + " charset=utf-8";
    MediaTypeDropsParameters(JsonContentType, " charset=utf-8");
  }

  /** Comparison is exact: an absent header, other letter case or a leading
      space is not "application/json". */
  lemma ContentTypeComparedExactly()
    ensures MediaType(None) == ""
    ensures MediaType(Some("Application/JSON")) != JsonContentType
    ensures MediaType(Some(" application/json")) != JsonContentType
  {
  }

  /** `SplitHostPort` succeeds with (host, port) exactly when the text is
      host + ":" + port with no other `:`. */
  lemma SplitHostPortSpec(hostport: string, host: string, port: string)
    ensures SplitHostPort(hostport) == Some((host, port)) <==>
            hostport == host + ":" + port && ':' !in host && ':' !in port
  {
    if hostport == host + ":" + port && ':' !in host && ':' !in port {
      BeforeFirstSeparator(host, ':', port);
      assert hostport[|host| + 1..] == port;
    }
    if SplitHostPort(hostport) == Some((host, port)) {
      var h := Before(hostport, ':');
      assert hostport == h + [hostport[|h|]] + hostport[|h| + 1..];
    }
  }

  /** Without a `:` the host does not split. */
  lemma SplitHostPortNeedsColon(hostport: string)
    requires ':' !in hostport
    ensures SplitHostPort(hostport) == None
  {
    BeforeWithoutSeparator(hostport, ':');
  }

  /** Tags of an address with an explicit port: its host and that port. */
  lemma TagsOfHostAndPort(addr: Url, host: string, port: string)
    requires addr.host == host + ":" + port && ':' !in host && ':' !in port
    ensures GetTags(addr) == map["server" := host, "port" := port]
  {
    SplitHostPortSpec(addr.host, host, port);
  }

  /** Tags of an address whose host does not split (no port, or more than one
      colon): the whole host and port "4222". */
  lemma TagsFallBackToDefaultPort(addr: Url)
    requires SplitHostPort(addr.host).None?
    ensures GetTags(addr) == map["server" := addr.host, "port" := "4222"]
  {
  }

  /** A host with two colons does not split and falls back to the default port. */
  lemma TooManyColonsFallBack(a: string, b: string, c: string)
    requires ':' !in a && ':' !in b && ':' !in c
    ensures SplitHostPort(a + ":" + b + ":" + c).None?
    ensures GetTags(Url("", a + ":" + b + ":" + c)) == map["server" := a + ":" + b + ":" + c, "port" := "4222"]
  {
    var rest := b + ":" + c;
    assert a + ":" + b + ":" + c == a + [':'] + rest;
    BeforeFirstSeparator(a, ':', rest);
    assert (a + [':'] + rest)[|a| + 1..] == rest;
    assert rest[|b|] == ':';
  }
}
