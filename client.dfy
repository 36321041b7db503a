/** The Transmission RPC client of lib/transmission/transmission.go: a connection to the
    daemon's RPC endpoint, the session-id probe, the rpc call that carries the id, and
    the two operations built on it (Stats and Add).

    The network is not called: what the daemon answers to the probe GET and to the RPC
    POST of one call are inputs (`Replies`), and every call returns, beside its result,
    the trace of the requests it sent, each paired with the answer it received. */
module Transmission {
  import opened Errors
  import opened Json
  import opened Envelopes

  /** HTTP headers after net/http has read them: canonical name to list of values. */
  type Header = map<string, seq<string>>

  const SessionHeader := "X-Transmission-Session-Id"
  const RpcPath := "/transmission/rpc"

  /** A connection: the base URL exactly as the caller gave it. The http.Client it also
      owns (dial timeout, TLS policy) is not modelled. */
  datatype Conn = Conn(url: string)

  /** New; url.Parse is a library call, so its verdict on `rawurl` is an input: None when
      it parses, Some(reason) when it does not. */
  function New(rawurl: string, parseError: Option<string>): (r: Result<Conn>)
    ensures r.Ok? <==> parseError.None?
    ensures r.Ok? ==> r.value.url == rawurl
    ensures r.Err? ==> r.error == ParseError(parseError.value)
  {
    match parseError
    case Some(reason) => Err(ParseError(reason))
    case None => Ok(Conn(rawurl))
  }

  /** Where both the probe and the RPC call go. */
  function RpcUrl(c: Conn): string {
    c.url + RpcPath
  }

  /** The session id in a probe reply's headers: the first value listed under
      X-Transmission-Session-Id, exactly as sent, even when it is empty. */
  function SessionId(h: Header): (r: Result<string>)
    ensures r.Ok? <==> SessionHeader in h && |h[SessionHeader]| > 0
    ensures r.Ok? ==> r.value == h[SessionHeader][0]
    ensures r.Err? ==> r.error == SessionIdNotFound
  {
    if SessionHeader in h && |h[SessionHeader]| >= 1 then Ok(h[SessionHeader][0])
    else Err(SessionIdNotFound)
  }

  /** Whatever id the daemon lists first is the id the client uses, whatever else it
      lists after it, the empty string included. */
  lemma SessionIdVerbatim(h: Header, id: string, more: seq<string>)
    ensures SessionId(h[SessionHeader := [id] + more]) == Ok(id)
    ensures SessionId(h[SessionHeader := [""] + more]) == Ok("")
  {
  }

  /** Without the header, or with the header and no value, there is no session id. */
  lemma SessionIdAbsent(h: Header)
    ensures SessionId(h - {SessionHeader}) == Err(SessionIdNotFound)
    ensures SessionId(h[SessionHeader := []]) == Err(SessionIdNotFound)
  {
  }

  /** What the daemon answered to the probe GET. */
  datatype ProbeReply = ProbeFailed(reason: string) | ProbeAnswered(header: Header)

  /** What the daemon answered to the RPC POST: a transport failure (sending the request
      or reading the body), or the body read in full. */
  datatype PostReply = PostFailed(reason: string) | PostAnswered(body: Body)

  /** The daemon's answers to the two requests of one rpc call. */
  datatype Replies = Replies(probe: ProbeReply, post: PostReply)

  /** A request the client sent, with the answer it received. */
  datatype Event =
    | Get(url: string, probeReply: ProbeReply)
    | Post(url: string, header: Header, body: Json, postReply: PostReply)

  /** The requests one call sent, and what it returned. */
  datatype Outcome<T> = Outcome(trace: seq<Event>, result: Result<T>)

  /** sessionId: a failed GET passes its transport error through; an answered one yields
      the id in its headers, or SessionIdNotFound. */
  function ProbeSessionId(probe: ProbeReply): (r: Result<string>)
    ensures probe.ProbeFailed? ==> r == Err(TransportError(probe.reason))
    ensures probe.ProbeAnswered? ==> r == SessionId(probe.header)
  {
    match probe
    case ProbeFailed(reason) => Err(TransportError(reason))
    case ProbeAnswered(header) => SessionId(header)
  }

  /** `post` went where `get` went and carries, as its only header, the session id the
      daemon gave in answer to `get`. */
  predicate Authorizes(get: Event, post: Event) {
    && get.Get? && post.Post? && get.url == post.url
    && ProbeSessionId(get.probeReply).Ok?
    && post.header == map[SessionHeader := [ProbeSessionId(get.probeReply).value]]
  }

  /** Every POST in a trace comes straight after a probe that produced the id it carries:
      no POST without a probe, none after a failed probe, no id taken from an older
      probe. */
  predicate FreshSessionIds(t: seq<Event>) {
    forall i :: 0 <= i < |t| && t[i].Post? ==> 0 < i && Authorizes(t[i - 1], t[i])
  }

  /** An RPC request as the Go map the client passes to rpc: the method name, and arguments
      for the methods that take them. */
  datatype Request = Request(name: string, arguments: Option<seq<(string, Json)>>)

  /** json.Marshal of the request map: the keys in sorted order, "arguments" present
      only when the request has arguments. */
  function RequestJson(r: Request): (j: Json)
    ensures j.JObj? && SortedKeys(j.members)
    ensures |j.members| == if r.arguments.Some? then 2 else 1
    ensures Lookup(j.members, "method") == Some(JStr(r.name))
    ensures Lookup(j.members, "arguments") == if r.arguments.Some? then Some(JObj(r.arguments.value)) else None
  {
    match r.arguments
    case None => JObj([("method", JStr(r.name))])
    case Some(args) => JObj([("arguments", JObj(args)), ("method", JStr(r.name))])
  }

  /** The body of the rpc reply, or the transport error of the POST. */
  function PostResult(post: PostReply): Result<Body> {
    match post
    case PostFailed(reason) => Err(TransportError(reason))
    case PostAnswered(body) => Ok(body)
  }

  /** rpc: probe first; if no session id comes of it, return that error and send nothing
      more; otherwise POST the marshalled request to the same URL with the id just
      obtained, and return the body of the reply. (Marshalling cannot fail for the
      requests the client builds, and the POST's URL parses because the GET's, the same
      string, did.) */
  function Rpc(c: Conn, request: Request, replies: Replies): (o: Outcome<Body>)
    ensures |o.trace| >= 1 && o.trace[0] == Get(RpcUrl(c), replies.probe)
    ensures FreshSessionIds(o.trace)
    ensures ProbeSessionId(replies.probe).Err? ==>
      |o.trace| == 1 && o.result == Err(ProbeSessionId(replies.probe).error)
    ensures ProbeSessionId(replies.probe).Ok? ==>
      && |o.trace| == 2 && o.trace[1].Post?
      && o.trace[1].body == RequestJson(request) && o.trace[1].postReply == replies.post
      && o.result == PostResult(replies.post)
  {
    var probe := Get(RpcUrl(c), replies.probe);
    match ProbeSessionId(replies.probe)
    case Err(e) => Outcome([probe], Err(e))
    case Ok(id) =>
      var post := Post(RpcUrl(c), map[SessionHeader := [id]], RequestJson(request), replies.post);
      Outcome([probe, post], PostResult(replies.post))
  }

  /** The session-stats request: no arguments at all, so it goes out as
      {"method":"session-stats"} and nothing else. */
  function StatsRequest(): (r: Request)
    ensures RequestJson(r) == JObj([("method", JStr("session-stats"))])
    ensures Lookup(RequestJson(r).members, "arguments") == None
  {
    Request("session-stats", None)
  }

  /** Stats' verdict on the rpc result: rpc and decoding errors pass through unchanged;
      the decoded statistics are returned only when the daemon says "success", otherwise
      its result string becomes the error. */
  function StatsReply(body: Result<Body>): (r: Result<Statistics>)
    ensures body.Err? ==> r == Err(body.error)
    ensures body.Ok? ==>
      var decoded := DecodeSessionStats(body.value);
      && (decoded.Err? ==> r == Err(decoded.error))
      && (r.Ok? <==> decoded.Ok? && decoded.value.result == "success")
      && (r.Ok? ==> r.value == decoded.value.arguments)
      && (decoded.Ok? && decoded.value.result != "success" ==> r == Err(ResultError(decoded.value.result)))
  {
    var b :- body;
    var env :- DecodeSessionStats(b);
    if env.result != "success" then Err(ResultError(env.result)) else Ok(env.arguments)
  }

  /** Stats: one rpc call with the session-stats request. When the probe yields no session
      id, only the probe is sent and its error returned. Otherwise the probe is followed by
      one POST to the same URL carrying the id and {"method":"session-stats"}; a failed
      POST is a transport error, a reply that does not decode a decoding error, a result
      other than "success" the error carrying it, and a success the statistics, every one
      of which fits a Go `int`. */
  function Stats(c: Conn, replies: Replies): (o: Outcome<Statistics>)
    ensures FreshSessionIds(o.trace)
    ensures ProbeSessionId(replies.probe).Err? ==>
      o == Outcome([Get(RpcUrl(c), replies.probe)], Err(ProbeSessionId(replies.probe).error))
    ensures ProbeSessionId(replies.probe).Ok? ==>
      o.trace == [
        Get(RpcUrl(c), replies.probe),
        Post(RpcUrl(c), map[SessionHeader := [ProbeSessionId(replies.probe).value]],
          JObj([("method", JStr("session-stats"))]), replies.post)]
    ensures ProbeSessionId(replies.probe).Ok? && replies.post.PostFailed? ==>
      o.result == Err(TransportError(replies.post.reason))
    ensures ProbeSessionId(replies.probe).Ok? && replies.post.PostAnswered? ==>
      var d := DecodeSessionStats(replies.post.body);
      && (d.Err? ==> o.result == Err(DecodeError))
      && (d.Ok? && d.value.result != "success" ==> o.result == Err(ResultError(d.value.result)))
      && (d.Ok? && d.value.result == "success" ==> o.result == Ok(d.value.arguments))
    ensures o.result.Ok? ==> StatisticsInRange(o.result.value)
  {
    var call := Rpc(c, StatsRequest(), replies);
    Outcome(call.trace, StatsReply(call.result))
  }

  /** The torrent-add request for `url`. It goes out with the caller's url, untouched, as
      the filename of a torrent that is not to start paused, and nothing else. */
  function AddRequest(url: string): (r: Request)
    ensures RequestJson(r) == JObj([
      ("arguments", JObj([("filename", JStr(url)), ("paused", JBool(false))])),
      ("method", JStr("torrent-add"))])
    ensures var args := Lookup(RequestJson(r).members, "arguments");
      && args.Some? && args.value.JObj? && SortedKeys(args.value.members)
      && Lookup(args.value.members, "filename") == Some(JStr(url))
      && Lookup(args.value.members, "paused") == Some(JBool(false))
  {
    var args := [("filename", JStr(url)), ("paused", JBool(false))];
    assert LexLess("filename", "paused");
    assert Lookup(args, "paused") == Some(JBool(false)) by {
      assert args[1..] == [("paused", JBool(false))];
    }
    Request("torrent-add", Some(args))
  }

  /** Add's verdict on the rpc result: errors pass through; a result other than
      "success" is reported first, whatever name came with it; a success naming no
      torrent is an error of its own; otherwise the name is returned. */
  function AddReply(body: Result<Body>): (r: Result<string>)
    ensures body.Err? ==> r == Err(body.error)
    ensures body.Ok? ==>
      var decoded := DecodeTorrentAdd(body.value);
      && (decoded.Err? ==> r == Err(decoded.error))
      && (r.Ok? <==> decoded.Ok? && decoded.value.result == "success" && decoded.value.arguments.torrentAdded.name != "")
      && (r.Ok? ==> r.value == decoded.value.arguments.torrentAdded.name)
      && (decoded.Ok? && decoded.value.result != "success" ==> r == Err(ResultError(decoded.value.result)))
      && (decoded.Ok? && decoded.value.result == "success" && decoded.value.arguments.torrentAdded.name == "" ==>
            r == Err(EmptyResult))
  {
    var b :- body;
    var env :- DecodeTorrentAdd(b);
    if env.result != "success" then Err(ResultError(env.result))
    else if env.arguments.torrentAdded.name == "" then Err(EmptyResult)
    else Ok(env.arguments.torrentAdded.name)
  }

  /** Add: one rpc call with the torrent-add request for `url`. When the probe yields no
      session id, only the probe is sent and its error returned. Otherwise the probe is
      followed by one POST to the same URL carrying the id and the torrent-add request; a
      failed POST is a transport error, a reply that does not decode a decoding error, a
      result other than "success" the error carrying it (whatever name came with it), a
      success naming no torrent the empty-result error, and otherwise the torrent's
      name, which is never empty. */
  function Add(c: Conn, url: string, replies: Replies): (o: Outcome<string>)
    ensures FreshSessionIds(o.trace)
    ensures ProbeSessionId(replies.probe).Err? ==>
      o == Outcome([Get(RpcUrl(c), replies.probe)], Err(ProbeSessionId(replies.probe).error))
    ensures ProbeSessionId(replies.probe).Ok? ==>
      o.trace == [
        Get(RpcUrl(c), replies.probe),
        Post(RpcUrl(c), map[SessionHeader := [ProbeSessionId(replies.probe).value]],
          JObj([
            ("arguments", JObj([("filename", JStr(url)), ("paused", JBool(false))])),
            ("method", JStr("torrent-add"))]),
          replies.post)]
    ensures ProbeSessionId(replies.probe).Ok? && replies.post.PostFailed? ==>
      o.result == Err(TransportError(replies.post.reason))
    ensures ProbeSessionId(replies.probe).Ok? && replies.post.PostAnswered? ==>
      var d := DecodeTorrentAdd(replies.post.body);
      var name := if d.Ok? then d.value.arguments.torrentAdded.name else "";
      && (d.Err? ==> o.result == Err(DecodeError))
      && (d.Ok? && d.value.result != "success" ==> o.result == Err(ResultError(d.value.result)))
      && (d.Ok? && d.value.result == "success" && name == "" ==> o.result == Err(EmptyResult))
      && (d.Ok? && d.value.result == "success" && name != "" ==> o.result == Ok(name))
    ensures o.result.Ok? ==> o.result.value != ""
  {
    var call := Rpc(c, AddRequest(url), replies);
    Outcome(call.trace, AddReply(call.result))
  }

  /** The probe and the POST of one call, when the daemon hands out a session id. */
  function Exchange(c: Conn, header: Header, request: Request, post: PostReply): seq<Event>
    requires SessionId(header).Ok?
  {
    [ Get(RpcUrl(c), ProbeAnswered(header)),
      Post(RpcUrl(c), map[SessionHeader := [SessionId(header).value]], RequestJson(request), post) ]
  }

  /** Against a daemon that hands out a session id and answers session-stats with its
      statistics, Stats sends the probe and one POST carrying that id, and returns the
      statistics exactly when the daemon reports success, its result string otherwise. */
  lemma StatsAgainstDaemon(c: Conn, header: Header, s: Statistics, result: string)
    requires SessionId(header).Ok?
    requires StatisticsInRange(s)
    ensures var post := PostAnswered(Doc(SessionStatsJson(SessionStats(s, result))));
      var o := Stats(c, Replies(ProbeAnswered(header), post));
      && o.trace == Exchange(c, header, StatsRequest(), post)
      && o.result == if result == "success" then Ok(s) else Err(ResultError(result))
  {
    SessionStatsRoundTrip(SessionStats(s, result));
  }

  /** Against a daemon that hands out a session id and answers torrent-add with a
      description of the torrent, Add returns the torrent's name only when the daemon
      reports success and the name is not empty; a result other than success is reported
      even when a name came with it. */
  lemma AddAgainstDaemon(c: Conn, url: string, header: Header, t: TorrentAdded, result: string)
    requires SessionId(header).Ok?
    requires InIntRange(t.id)
    ensures var post := PostAnswered(Doc(TorrentAddJson(TorrentAdd(TorrentAddedArguments(t), result))));
      var o := Add(c, url, Replies(ProbeAnswered(header), post));
      && o.trace == Exchange(c, header, AddRequest(url), post)
      && o.result == if result != "success" then Err(ResultError(result))
                     else if t.name == "" then Err(EmptyResult)
                     else Ok(t.name)
  {
    TorrentAddRoundTrip(TorrentAdd(TorrentAddedArguments(t), result));
  }

  /** When the daemon answers with a bare failure reason, both operations report that
      reason. A bare "success" with empty arguments gives zero statistics to Stats and
      the empty-result error to Add. */
  lemma AgainstFailureReply(c: Conn, url: string, header: Header, reason: string)
    requires SessionId(header).Ok?
    ensures var replies := Replies(ProbeAnswered(header), PostAnswered(Doc(FailureJson(reason))));
      && Stats(c, replies).result == (if reason == "success" then Ok(ZeroStatistics) else Err(ResultError(reason)))
      && Add(c, url, replies).result == (if reason == "success" then Err(EmptyResult) else Err(ResultError(reason)))
  {
    FailureRoundTrip(reason);
  }

  /** A body that is JSON null leaves the envelope at its zero value, so both operations
      report an empty result string; a body that is not JSON is a decoding error. */
  lemma AgainstNullOrMalformed(c: Conn, url: string, header: Header)
    requires SessionId(header).Ok?
    ensures Stats(c, Replies(ProbeAnswered(header), PostAnswered(Doc(JNull)))).result == Err(ResultError(""))
    ensures Add(c, url, Replies(ProbeAnswered(header), PostAnswered(Doc(JNull)))).result == Err(ResultError(""))
    ensures Stats(c, Replies(ProbeAnswered(header), PostAnswered(Malformed))).result == Err(DecodeError)
    ensures Add(c, url, Replies(ProbeAnswered(header), PostAnswered(Malformed))).result == Err(DecodeError)
  {
  }

  /** Sample daemon replies to torrent-add, as Add sees them: a torrent added, a success
      naming no torrent, and a refusal. */
  lemma SampleAddReplies(c: Conn, url: string, header: Header)
    requires SessionId(header).Ok?
    ensures Add(c, url, Replies(ProbeAnswered(header), PostAnswered(Doc(
      TorrentAddJson(TorrentAdd(TorrentAddedArguments(TorrentAdded(1, "Ubuntu.iso", "abc123")), "success")))))).result
      == Ok("Ubuntu.iso")
    ensures Add(c, url, Replies(ProbeAnswered(header), PostAnswered(Doc(
      TorrentAddJson(TorrentAdd(TorrentAddedArguments(TorrentAdded(1, "", "")), "success")))))).result
      == Err(EmptyResult)
    ensures Add(c, url, Replies(ProbeAnswered(header), PostAnswered(Doc(FailureJson("duplicate torrent"))))).result
      == Err(ResultError("duplicate torrent"))
  {
    AddAgainstDaemon(c, url, header, TorrentAdded(1, "Ubuntu.iso", "abc123"), "success");
    AddAgainstDaemon(c, url, header, TorrentAdded(1, "", ""), "success");
    AgainstFailureReply(c, url, header, "duplicate torrent");
  }

  /** A sample daemon refusal of session-stats, as Stats sees it. */
  lemma SampleStatsRefusal(c: Conn, header: Header)
    requires SessionId(header).Ok?
    ensures Stats(c, Replies(ProbeAnswered(header), PostAnswered(Doc(FailureJson("failure"))))).result
      == Err(ResultError("failure"))
  {
    AgainstFailureReply(c, "", header, "failure");
  }
}
