# NATS monitoring input: a Dafny model

This project models the decision logic of Telegraf's NATS input plugin
(`plugins/inputs/nats/nats.go`). On its first collection cycle, while it has no
HTTP client, the plugin builds one (normalising the response timeout) and reuses
it on every later cycle. Each cycle parses every configured
address, reports an address that does not parse as an error and skips it,
fetches `<address>/varz` from each address that parses, checks the reply in a
fixed order (transport, HTTP status, Content-Type, JSON decoding), and per
address reports at most one `nats` record of twelve integer fields, tagged with
the server's host and port, and exactly one `AddError` call (nil on success).

Modules, one per component:

- `Base` (`base.dfy`): `Option`, `Result`, `Int64`, `Duration` (nanoseconds).
- `Text` (`text.dfy`): `Before`, element 0 of `strings.Split`.
- `Sink` (`sink.dfy`): the accumulator as an append-only log of `AddFields` and
  `AddError` calls (a class whose methods append to a `seq` field).
- `Stats` (`stats.dfy`): the JSON body as seen by the decoder, `VarStats`, its
  decoding and its field map.
- `Fetcher` (`fetcher.dfy`): addresses, responses, the ordered checks,
  `Classify` (the terminal state of one fetch), tag derivation and
  `gatherStatusUrl`.
- `Nats` (`nats.dfy`): the timeout rule and the `Nats` class whose methods model
  `Gather`, `createHttpClient` and `gatherUrl`; `GatherLog` specifies the calls
  one cycle makes, and the lemmas beside it state what a cycle promises.

The network, `url.Parse` and the JSON library are inputs: `Gather` takes a
`parse` function (for `url.Parse`) and a `fetch` function (for `client.Get`,
given the client's timeout and the request URL). The concurrent fan-out is a
sequential loop; `GatherLogOrderIrrelevant` shows that the multiset of calls
does not depend on the order in which addresses are handled.

The response timeout defaults to five seconds: a configured value under one
second (including zero, the unset value) becomes five seconds, and any value of
one second or more is kept (`plugins/inputs/nats/nats.go:31-32`, `:77-79`).

Where the code differs from what the plugin's own test expects, the model
follows the code:

- The `Subscriptions` field is read from the JSON key `"subscritpions"`
  (misspelt in the struct tag), so a payload's `"subscriptions"` member is
  ignored and the field stays 0 unless the misspelt key is present. The test
  sends `"subscriptions": 25` (`plugins/inputs/nats/nats_test.go:58`) and
  expects the field `subscriptions` to be 25 (`nats_test.go:121`); the code as
  written gives 0, and so does the model (`SampleDecodes`).

Client construction has no failing path, so `Gather` always returns nil.

## Model

| member | source | states |
|---|---|---|
| `Text.Before` | plugins/inputs/nats/nats.go:100 | the result is a prefix of the header, holds no separator, and ends at the end of the header or just before a separator |
| `Text.BeforeUnique` | plugins/inputs/nats/nats.go:100 | those three properties determine the text before the first separator |
| `Text.BeforeWithoutSeparator` | plugins/inputs/nats/nats.go:100 | text without a separator is kept whole |
| `Text.BeforeFirstSeparator` | plugins/inputs/nats/nats.go:100 | everything from the first separator on is dropped |
| `Sink.Accumulator.AddFields` | plugins/inputs/nats/nats.go:145-162 | one record with its measurement, fields and tags is appended to the sink's log |
| `Sink.Accumulator.AddError` | plugins/inputs/nats/nats.go:67 | one error report (possibly nil) is appended to the sink's log |
| `Stats.VarStats.Gather` | plugins/inputs/nats/nats.go:144-163 | exactly one `AddFields` call, measurement "nats", the record's field map and the given tags |
| `Stats.Fields` | plugins/inputs/nats/nats.go:147-160 | the field map has exactly the twelve keys connections, total_connections, memory, used_cpu, routes, remotes, in_messages, out_messages, in_bytes, out_bytes, slow_consumers, subscriptions |
| `Stats.FieldCount` | plugins/inputs/nats/nats.go:147-160 | the field map has exactly twelve entries |
| `Stats.FieldsRoundTrip` | plugins/inputs/nats/nats.go:147-160 | every struct field is copied unchanged to its own key: the record can be read back from the map |
| `Stats.FieldValue` | plugins/inputs/nats/nats.go:119-137 | an absent or null member leaves the field 0, an integer member within int64 range is taken as it is, and any other value fails the decode |
| `Stats.DecodeVarStats` | plugins/inputs/nats/nats.go:119-137 | malformed text does not decode; a decoded record's fields hold the values of their JSON members (mem, cpu, in_msgs, out_msgs, subscritpions shown) |
| `Stats.DecodedFieldsFollowRenames` | plugins/inputs/nats/nats.go:119-162 | after a successful decode each field key holds the value of its JSON key (mem to memory, cpu to used_cpu, in_msgs to in_messages, out_msgs to out_messages, subscritpions to subscriptions, the rest unrenamed) |
| `Stats.DecodeFailsOnlyOnTrackedMembers` | plugins/inputs/nats/nats.go:135-139 | decoding an object fails exactly when a tracked member holds a value an int64 field cannot take |
| `Stats.UnknownMembersIgnored` | plugins/inputs/nats/nats.go:119-137 | adding or changing a member whose key is not a struct tag does not change the decoded record |
| `Stats.EmptyObjectDecodesToZero` | plugins/inputs/nats/nats.go:136-137 | missing members leave their fields at zero |
| `Stats.SubscriptionsReadFromMisspeltKey` | plugins/inputs/nats/nats.go:131 | a payload's "subscriptions" member is ignored; without "subscritpions" the field is 0 |
| `Fetcher.GetTags` | plugins/inputs/nats/nats.go:109-117 | the tag map has exactly the keys server and port |
| `Fetcher.TagsOfHostAndPort` | plugins/inputs/nats/nats.go:109-116 | for a host:port address the tags are that host and that port |
| `Fetcher.TagsFallBackToDefaultPort` | plugins/inputs/nats/nats.go:109-116 | for an address that does not split, server is the whole host and port is "4222" |
| `Fetcher.TooManyColonsFallBack` | plugins/inputs/nats/nats.go:111-116 | a host with two colons does not split, so its server tag is the whole host and its port tag is "4222" |
| `Fetcher.SplitHostPort` | plugins/inputs/nats/nats.go:111 | a successful split gives a host and a port without colons that rejoin, with one colon, into the input; input without a colon does not split |
| `Fetcher.SplitHostPortSpec` | plugins/inputs/nats/nats.go:111 | the split succeeds with (host, port) exactly when the text is host ":" port with no other colon |
| `Fetcher.SplitHostPortNeedsColon` | plugins/inputs/nats/nats.go:111-115 | text without a colon does not split |
| `Fetcher.RequestTarget` | plugins/inputs/nats/nats.go:90 | the request URL is the rendered address followed by "/varz" |
| `Fetcher.MediaType` | plugins/inputs/nats/nats.go:100 | an absent header gives ""; otherwise the result is a prefix of the header without ";" that ends at the header's end or at its first ";" |
| `Fetcher.FailureMessage` | plugins/inputs/nats/nats.go:93-105 | a transport failure is "error making HTTP request to ", the address, ": " and the cause; a status failure is the address, " returned HTTP status " and the status; a content-type failure is the address, " returned unexpected content type " and the compared media type; a decode failure is "Error while decoding JSON response" (line 138) |
| `Fetcher.Classify` | plugins/inputs/nats/nats.go:89-142 | a transport error or a status other than 200 is a failure; an emitted record is named "nats", has the twelve field keys and the tags server and port |
| `Fetcher.FirstFailing` | plugins/inputs/nats/nats.go:93-106 | the index returned is that of the first failing check: all before it pass, the one at it fails |
| `Fetcher.ClassifyFollowsCheckOrder` | plugins/inputs/nats/nats.go:89-106 | the first failing check among transport, status, content type and decode decides the outcome and its message; when none fails the record is emitted |
| `Fetcher.EmittedIffAllChecksPass` | plugins/inputs/nats/nats.go:89-142 | a record is emitted if and only if every check passes, so no fields are reported on any failure path |
| `Fetcher.EmittedRecord` | plugins/inputs/nats/nats.go:103-162 | an emitted record is named "nats", has the twelve field keys taken from the decoded body and the tags of the address |
| `Fetcher.MediaTypeDropsParameters` | plugins/inputs/nats/nats.go:100 | the content type compared is the header up to its first ";" |
| `Fetcher.JsonContentTypeAccepted` | plugins/inputs/nats/nats.go:100-103 | "application/json" is accepted bare and with a charset parameter |
| `Fetcher.ContentTypeComparedExactly` | plugins/inputs/nats/nats.go:100-105 | an absent header, other letter case or a leading space is rejected |
| `Fetcher.GatherStatusUrl` | plugins/inputs/nats/nats.go:134-142 | a decode failure returns "Error while decoding JSON response" and reports nothing; a success reports the record and returns nil |
| `Nats.ParseErrorMessage` | plugins/inputs/nats/nats.go:60 | the message is "Unable to parse address '", the address, "': " and the parser's cause |
| `Nats.UrlLog` | plugins/inputs/nats/nats.go:58-67 | one address makes one or two calls, exactly one of them `AddError` and that one last; an address that does not parse makes only that call |
| `Nats.GatherLog` | plugins/inputs/nats/nats.go:57-71 | when every address makes one or two calls, the cycle makes between one and two calls per address |
| `Nats.NormalizeTimeout` | plugins/inputs/nats/nats.go:77-79 | the effective timeout is at least one second, values of one second or more are kept, smaller ones become five seconds |
| `Nats.NormalizeTimeoutIdempotent` | plugins/inputs/nats/nats.go:77-79 | applying the rule twice is applying it once |
| `Nats.TimeoutExamples` | plugins/inputs/nats/nats.go:77-79 | 500ms, zero and negative timeouts become 5s; one second is kept |
| `Nats.Nats.constructor` | plugins/inputs/nats/nats.go:19-25 | a new plugin holds its configuration and no client |
| `Nats.Nats.CreateHttpClient` | plugins/inputs/nats/nats.go:75-87 | the configured timeout is normalised in place, the client carries it, and no error is returned |
| `Nats.Nats.EnsureClient` | plugins/inputs/nats/nats.go:49-55 | a client is built only when none exists; an existing client and timeout are kept unchanged |
| `Nats.Nats.GatherUrl` | plugins/inputs/nats/nats.go:89-107 | one request to the address's `/varz` path with the client's timeout; the calls made and the error returned are those of `Classify` |
| `Nats.Nats.GatherOne` | plugins/inputs/nats/nats.go:57-68 | an address that does not parse reports "Unable to parse address" once; one that parses is fetched once and its error is reported |
| `Nats.Nats.Gather` | plugins/inputs/nats/nats.go:43-73 | returns nil, keeps or lazily builds the client, and makes exactly the calls of `GatherLog` over the configured addresses |
| `Nats.Nats.GatherAll` | plugins/inputs/nats/nats.go:57-71 | handling the configured addresses in turn makes exactly the calls of `GatherLog`: each address's calls, address after address |
| `Nats.GatherLogOrderIrrelevant` | plugins/inputs/nats/nats.go:57-71 | reordering the addresses leaves the multiset of accumulator calls unchanged |
| `Nats.OneErrorReportPerUrl` | plugins/inputs/nats/nats.go:57-68 | a cycle makes exactly one `AddError` call per configured address |
| `Nats.EveryUrlReported` | plugins/inputs/nats/nats.go:57-71 | every address's calls appear in the cycle's log whatever the other addresses do |
| `Nats.RecordsComeFromEmittingUrls` | plugins/inputs/nats/nats.go:57-68 | every reported record comes from an address that parsed and whose fetch passed every check |
| `Nats.ParseFailureMakesNoRequest` | plugins/inputs/nats/nats.go:58-62 | an address that does not parse gives exactly its parse error and its calls do not depend on the network |
| `Nats.OnlyStatusPathRequested` | plugins/inputs/nats/nats.go:90-91 | a parsed address's calls depend only on the response to `<address>/varz` |
| `Nats.SampleDecodes` | plugins/inputs/nats/nats_test.go:46-58 | the test's sample payload decodes to its values, with subscriptions 0 because of the misspelt struct tag |
| `Nats.SampleResponseEmitsRecord` | plugins/inputs/nats/nats_test.go:85-126 | a JSON reply from 127.0.0.1 with an explicit port yields one "nats" record tagged with that host and port |

## Left out

- HTTP transport and client internals (`http.Client`, `http.Transport`, `client.Get`): a request is the `fetch` parameter, and a timeout that expires is one of its transport errors. Reading and closing the response body is not modelled.
- Goroutines and `sync.WaitGroup`: the fan-out is a sequential loop; the original's interleaving of calls from different addresses is captured only up to order (multisets).
- `encoding/json`: the body is an object of top-level members or malformed text. Case-insensitive key matching, floating-point and exponent forms, a top-level `null` or non-object document, duplicate keys and trailing data after the first value are not modelled.
- `url.Parse` and `addr.String()`: `parse` is a parameter, and an address is the text it renders plus its `Host`.
- `Fetcher.SplitHostPort`: a simplified `net.SplitHostPort` that splits at a single colon; bracketed IPv6 hosts (`[::1]:4222`) and the library's error texts are not modelled, and an unbracketed host that contains `[` or `]` (`a]:80`) is split by the model where the library rejects it, so the model's tags there are the split parts instead of the whole host and port "4222".
- `resp.Header.Get`: the Content-Type header is one optional value; header-name canonicalisation and repeated headers are not modelled.
- The accumulator's own behaviour (whether it drops a nil error, how it stores records): it is only the log of calls made on it.
- `Gather`'s early return of a client-construction error: `createHttpClient` cannot fail, so that branch cannot run.
- `SampleConfig`, `Description` and the `init` registration: metadata and registry wrappers with no decision logic.
