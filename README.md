# Transmission RPC client, modelled in Dafny

This project models the Transmission client of goircbot (`lib/transmission/transmission.go`):
the small library an IRC bot uses to talk to a Transmission daemon over its JSON RPC
interface. It covers:

- the connection (`New`), which keeps the base URL verbatim;
- the session-id probe (`sessionId`): a GET to `<url>/transmission/rpc` whose reply carries
  the anti-CSRF id in the `X-Transmission-Session-Id` header;
- the RPC call (`rpc`): probe first, then POST the JSON request to the same URL carrying the
  id just obtained;
- the two operations on top of it, `Stats` (session-stats) and `Add` (torrent-add), with
  the envelopes they decode and the checks they apply to them;
- `Statistics.String`, the one-line summary of the statistics.

The model is functional, like the source. The network is not called. What the daemon
answers to the probe and to the POST of a call are inputs (`Transmission.Replies`). Each
call returns the trace of the requests it sent, each paired with the answer it got, and its
result. Go's `(T, error)` pairs are `Errors.Result<T>`.

Request maps and reply bodies are JSON values (`Json.Json`). The part of `json.Unmarshal`
the client relies on is modelled: missing keys leave the zero value, `null` leaves a field
alone, and unknown keys are ignored. A key that comes twice is stored twice. A value of the
wrong type, or an integer outside Go's 64-bit `int`, is an error. Keys match field names up
to ASCII case. That is how the daemon's `pausedTorrentCount` reaches the field spelled
`PausedTorrentcount`. The daemon's own replies (`Envelopes.SessionStatsJson`,
`Envelopes.TorrentAddJson`, `Envelopes.FailureJson`) are the partners the decoders are
proved against.

Two behaviours of the code worth knowing:

- A probe reply whose first id is the empty string is accepted, and that empty id is
  used. Only a missing header or an empty list of values is rejected.
- The session-stats request has no `arguments` key at all, not an empty one.

Files: `errors.dfy` (module Errors), `json.dfy` (Json), `decimal.dfy` (Decimal),
`envelopes.dfy` (Envelopes), `rendering.dfy` (Rendering), `client.dfy` (Transmission),
`sessions.dfy` (Sessions).

## Model

| member | source | states |
|---|---|---|
| `Errors.Message` | lib/transmission/transmission.go:107-108 | a result error's text is "transmission: result: " followed by the daemon's result string verbatim |
| `Errors.ResultMessageInjective` | lib/transmission/transmission.go:107-108 | two different result strings never give the same error text |
| `Errors.ClientMessagesDistinct` | lib/transmission/transmission.go:134-138 | the result, sessionId-not-found and empty-result errors have pairwise distinct texts |
| `Json.DecodeMembers` | lib/transmission/transmission.go:103-104 | when every member of an object can fail only with a decoding error, storing the whole object into the struct can fail only with a decoding error too |
| `Json.SkipsUnknownMembers` | lib/transmission/transmission.go:103-104 | members whose keys name no field of the struct leave it exactly as it was |
| `Json.DecodeStruct` | lib/transmission/transmission.go:103-104 | a JSON null leaves the struct alone, a value that is neither null nor an object is a decoding error, and member failures stay decoding errors |
| `Json.Unmarshal` | lib/transmission/transmission.go:103-105 | a body that is not JSON is a decoding error, a null document gives the zero struct, and no error other than a decoding error comes out when members fail only with it |
| `Json.DecodeMembersKeeps` | lib/transmission/transmission.go:103-104 | any invariant every member update keeps holds of the struct decoded from any object |
| `Decimal.GoDiv` | lib/transmission/transmission.go:26 | Go's `/` truncates toward zero: the remainder has the sign of the dividend and is smaller than the divisor |
| `Decimal.NatToString` | lib/transmission/transmission.go:25-27 | `%v` of a non-negative int is a non-empty run of digits, without a leading zero, denoting the number |
| `Decimal.IntToString` | lib/transmission/transmission.go:25-27 | `%v` of an int is a minus sign exactly when the number is negative, then a non-empty run of digits without a leading zero denoting its magnitude (so zero is "0", never "-0" or "00") |
| `Decimal.ParseIntToString` | lib/transmission/transmission.go:25-27 | the `%v` text of any int reads back as that int, whatever non-digit text follows it |
| `Decimal.CanonicalDigits` | lib/transmission/transmission.go:25-27 | a run of digits without a leading zero is exactly the `%v` text of the number it denotes |
| `Decimal.ParseIntCanonical` | lib/transmission/transmission.go:25-27 | any text that reads back as a number is that number's `%v` text followed by the rest: padded zeros and "-0" never read back |
| `Envelopes.StatisticsKeys` | lib/transmission/transmission.go:20-21 | each of the daemon's five statistics keys matches its own Go field up to case, and none of the other four |
| `Envelopes.StatisticsRoundTrip` | lib/transmission/transmission.go:19-22 | decoding the daemon's statistics object sets all five fields to the values sent, whatever the struct held |
| `Envelopes.SessionStatsRoundTrip` | lib/transmission/transmission.go:113-116 | the daemon's session-stats reply decodes to exactly the statistics and result string it carries |
| `Envelopes.TorrentAddedRoundTrip` | lib/transmission/transmission.go:152-155 | the daemon's added-torrent object decodes to exactly its id, name and hash |
| `Envelopes.TorrentAddRoundTrip` | lib/transmission/transmission.go:143-150 | the daemon's torrent-add reply decodes to exactly the torrent and result it carries, through the `torrent-added` tag |
| `Envelopes.DecodeSessionStats` | lib/transmission/transmission.go:103-105 | decoding a session-stats reply fails only with a decoding error, always when the body is not JSON, and yields statistics that each fit a Go int |
| `Envelopes.DecodeTorrentAdd` | lib/transmission/transmission.go:130-132 | decoding a torrent-add reply fails only with a decoding error, always when the body is not JSON, and yields an id that fits a Go int |
| `Envelopes.LaterKeyWins` | lib/transmission/transmission.go:20 | of two members naming the download speed (in any case), the later one decides the value |
| `Envelopes.UnknownKeysIgnored` | lib/transmission/transmission.go:19-22 | members naming none of the five statistics fields leave the statistics unchanged, whatever their values |
| `Envelopes.FailureRoundTrip` | lib/transmission/transmission.go:103-106 | a bare failure reply decodes, for either envelope, to zero-valued arguments and the reason verbatim |
| `Envelopes.DecodeTwoMembers` | lib/transmission/transmission.go:103-105 | an object of two members is decoded as the two field updates in order |
| `Rendering.Render` | lib/transmission/transmission.go:24-27 | every rendered line has the fixed layout and reads back, through a reader that accepts only numbers written as `%v` writes them, as the two speeds divided by 1024 (truncated toward zero) and the three torrent counts verbatim |
| `Rendering.LayoutReadsBack` | lib/transmission/transmission.go:25 | a line laid out by the format string reads back as its five numbers in order |
| `Rendering.ParseRenderedCanonical` | lib/transmission/transmission.go:25 | the only line that reads back as five numbers is the one the format string lays out from them |
| `Rendering.RenderDetermined` | lib/transmission/transmission.go:24-27 | any line that reads back as a rendered line is that line, so the read-back contract of Render fixes its output exactly |
| `Rendering.RenderExample` | lib/transmission/transmission.go:24-27 | statistics (1048576, 0, 3, 1, 2) render as "1024 KB/s DL, 0 KB/s UL, 3 torrents (1 active, 2 paused)" |
| `Rendering.RenderTruncates` | lib/transmission/transmission.go:26 | speeds of 1023 and -1023 bytes/s both show as 0 KB/s, -1024 as -1 |
| `Rendering.RenderSmallNegative` | lib/transmission/transmission.go:26 | a download speed of -1023 bytes/s renders exactly like a zero speed, as "0" and not "-0" |
| `Transmission.New` | lib/transmission/transmission.go:43-57 | a connection exists exactly when the URL parses, and then keeps the raw URL verbatim; otherwise the parse error is returned |
| `Transmission.SessionId` | lib/transmission/transmission.go:66-70 | the id is found exactly when the header is present with at least one value, and it is the first value unaltered; otherwise "sessionId not found" |
| `Transmission.SessionIdVerbatim` | lib/transmission/transmission.go:66-70 | whatever values follow it, the first listed id is returned, the empty string included |
| `Transmission.SessionIdAbsent` | lib/transmission/transmission.go:67-68 | a missing header and an empty value list both give "sessionId not found" |
| `Transmission.ProbeSessionId` | lib/transmission/transmission.go:60-71 | a failed GET returns its transport error; an answered one yields the id of its headers |
| `Transmission.RequestJson` | lib/transmission/transmission.go:79 | the marshalled request has sorted keys, exactly one member (the method name under "method") without arguments and exactly two with them, "arguments" holding them |
| `Transmission.Rpc` | lib/transmission/transmission.go:74-95 | the probe goes first; if it yields no id the call ends with that error and nothing else is sent; otherwise exactly one POST follows, to the same URL, with the marshalled request and the fresh id as the only header the client sets, and the result is the reply body or the POST's transport error |
| `Transmission.StatsRequest` | lib/transmission/transmission.go:99 | the session-stats request is written as `{"method":"session-stats"}`, with no arguments key |
| `Transmission.StatsReply` | lib/transmission/transmission.go:99-110 | rpc and decoding errors pass through unchanged; success exactly when the decoded result is "success", returning the decoded statistics; otherwise the error carries the result string |
| `Transmission.Stats` | lib/transmission/transmission.go:98-111 | with no id from the probe only the probe is sent and its error returned; otherwise the probe and one POST of `{"method":"session-stats"}` with that id; a failed POST is a transport error, an undecodable reply a decoding error, a result other than "success" a result error carrying it, and success returns the decoded statistics, which fit a Go int |
| `Transmission.AddRequest` | lib/transmission/transmission.go:120-126 | the torrent-add request is written as method "torrent-add" with exactly the arguments filename (the caller's url verbatim) and paused false, keys sorted |
| `Transmission.AddReply` | lib/transmission/transmission.go:127-140 | errors pass through; a result other than "success" is reported first; a success with an empty name is "empty result"; otherwise the name is returned, and only then |
| `Transmission.Add` | lib/transmission/transmission.go:119-141 | with no id from the probe only the probe is sent and its error returned; otherwise the probe and one POST of the torrent-add request with that id; a failed POST is a transport error, an undecodable reply a decoding error, a result other than "success" a result error whatever name came with it, a success with an empty name "empty result", and otherwise the name, never empty |
| `Transmission.StatsAgainstDaemon` | lib/transmission/transmission.go:98-116 | against a daemon that gives an id and its statistics, Stats sends the probe and one POST with that id and returns the statistics iff the result is "success", the result error otherwise |
| `Transmission.AddAgainstDaemon` | lib/transmission/transmission.go:119-155 | against a daemon that gives an id and a torrent, Add returns the name iff the result is "success" and the name is non-empty; a non-success result wins over a present name; success with an empty name is "empty result" |
| `Transmission.AgainstFailureReply` | lib/transmission/transmission.go:107-110 | a bare failure reason is reported by both operations; a bare "success" gives zero statistics to Stats and "empty result" to Add |
| `Transmission.AgainstNullOrMalformed` | lib/transmission/transmission.go:103-109 | a JSON null body gives both operations a result error with an empty result string; a non-JSON body gives the decoding error |
| `Transmission.SampleAddReplies` | lib/transmission/transmission.go:134-140 | sample daemon replies: a torrent named "Ubuntu.iso" is returned by name, an empty name is "empty result", "duplicate torrent" is reported as a result error |
| `Transmission.SampleStatsRefusal` | lib/transmission/transmission.go:107-108 | a sample refusal "failure" of session-stats is reported as a result error carrying it |
| `Sessions.Perform` | lib/transmission/transmission.go:97-141 | one operation sends a probe and at most one POST, and keeps the fresh-id discipline |
| `Sessions.FreshSessionIdsAppend` | lib/transmission/transmission.go:75-88 | traces that keep the fresh-id discipline still keep it when run one after another |
| `Sessions.ProbesAppend` | lib/transmission/transmission.go:60-61 | the probes of two traces in a row add up |
| `Sessions.RunKeepsFreshSessionIds` | lib/transmission/transmission.go:75-88 | in any run of calls, every POST carries the id that its own call's probe just obtained, never one kept from an earlier call |
| `Sessions.RunProbesOncePerCall` | lib/transmission/transmission.go:60-61 | a run of n calls sends exactly n probes and at most 2n requests |

## Left out

- `Errors.Message`: gives the text of the client's own three errors only. The text of errors from net/url, net/http and encoding/json is not modelled; those errors carry it as an opaque reason, or no text at all for decoding.
- The HTTP transport: `timeoutDialer`, the 5-second dial timeout, `http.Transport` and the TLS configuration for the URL's host. These depend on time, the network and a TLS package that is not part of this model.
- `url.Parse` in `New`: its verdict is an input, and the parsed URL is used only for the TLS host, which is left out.
- HTTP status codes: the client never looks at them, so a probe or POST that gets any answer counts as answered. Response headers are taken as net/http presents them, with canonical names.
- Reading and closing bodies: a failure of `ioutil.ReadAll` is folded into the POST's transport failure, and `Body.Close` has no visible effect.
- The `json.Marshal` error in `rpc`: the requests the client builds hold only strings and a boolean, so marshalling cannot fail.
- The `http.NewRequest` error in `rpc`: the POST's URL is the same string the probe GET already parsed, so this error cannot happen once the probe got an answer.
- JSON syntax: a body that is not JSON is `Body.Malformed`. Fractional and exponent numbers are not modelled. String escaping and the replacement of invalid UTF-8 are not modelled.
- Key matching: only ASCII case folding is modelled. Go also folds a few non-ASCII letters, such as the Kelvin sign onto `k`.
- Integer width: statistics are unbounded integers in the model. Decoding rejects values outside Go's 64-bit `int`, so decoded values always fit, and division by 1024 cannot overflow.
- Concurrency: each call is independent and shares no session state, so running calls in parallel adds nothing this model could observe.
- `examplebot.go` and `bot/goircbot.go`: flag parsing, plugin registration and `b.Run()`. They are process wiring with no logic of their own.
