/** The Go structs the client decodes replies into (Statistics, sessionStats, torrentAdd,
    torrentAddedArguments, torrentAdded), how json.Unmarshal fills each of them, and the
    replies the Transmission daemon writes, against which the decoders are checked. */
module Envelopes {
  import opened Errors
  import opened Json

  /** Aggregate statistics of the daemon; speeds are in bytes per second. The last field
      keeps the source's spelling. */
  datatype Statistics = Statistics(
    downloadSpeed: int,
    uploadSpeed: int,
    torrentCount: int,
    activeTorrentCount: int,
    pausedTorrentcount: int)

  /** The reply to session-stats. */
  datatype SessionStats = SessionStats(arguments: Statistics, result: string)

  datatype TorrentAdded = TorrentAdded(id: int, name: string, hashString: string)

  datatype TorrentAddedArguments = TorrentAddedArguments(torrentAdded: TorrentAdded)

  /** The reply to torrent-add. */
  datatype TorrentAdd = TorrentAdd(arguments: TorrentAddedArguments, result: string)

  const ZeroStatistics := Statistics(0, 0, 0, 0, 0)
  const ZeroSessionStats := SessionStats(ZeroStatistics, "")
  const ZeroTorrentAdd := TorrentAdd(TorrentAddedArguments(TorrentAdded(0, "", "")), "")

  // What one object member does to each struct during json.Unmarshal.

  function StatisticsField(cur: Statistics, key: string, v: Json): (r: Result<Statistics>)
    ensures r.Err? ==> r.error == DecodeError
    ensures StatisticsInRange(cur) && r.Ok? ==> StatisticsInRange(r.value)
  {
    if KeyMatches(key, "DownloadSpeed") then
      var x :- DecodeInt(cur.downloadSpeed, v); Ok(cur.(downloadSpeed := x))
    else if KeyMatches(key, "UploadSpeed") then
      var x :- DecodeInt(cur.uploadSpeed, v); Ok(cur.(uploadSpeed := x))
    else if KeyMatches(key, "TorrentCount") then
      var x :- DecodeInt(cur.torrentCount, v); Ok(cur.(torrentCount := x))
    else if KeyMatches(key, "ActiveTorrentCount") then
      var x :- DecodeInt(cur.activeTorrentCount, v); Ok(cur.(activeTorrentCount := x))
    else if KeyMatches(key, "PausedTorrentcount") then
      var x :- DecodeInt(cur.pausedTorrentcount, v); Ok(cur.(pausedTorrentcount := x))
    else Ok(cur)
  }

  function SessionStatsField(cur: SessionStats, key: string, v: Json): (r: Result<SessionStats>)
    ensures r.Err? ==> r.error == DecodeError
    ensures StatisticsInRange(cur.arguments) && r.Ok? ==> StatisticsInRange(r.value.arguments)
  {
    if KeyMatches(key, "Arguments") then
      DecodeStatisticsKeepsRange(cur.arguments, v);
      var a :- DecodeStruct(cur.arguments, v, StatisticsField); Ok(cur.(arguments := a))
    else if KeyMatches(key, "Result") then
      var r :- DecodeString(cur.result, v); Ok(cur.(result := r))
    else Ok(cur)
  }

  function TorrentAddedField(cur: TorrentAdded, key: string, v: Json): (r: Result<TorrentAdded>)
    ensures r.Err? ==> r.error == DecodeError
    ensures InIntRange(cur.id) && r.Ok? ==> InIntRange(r.value.id)
  {
    if KeyMatches(key, "Id") then
      var x :- DecodeInt(cur.id, v); Ok(cur.(id := x))
    else if KeyMatches(key, "Name") then
      var x :- DecodeString(cur.name, v); Ok(cur.(name := x))
    else if KeyMatches(key, "HashString") then
      var x :- DecodeString(cur.hashString, v); Ok(cur.(hashString := x))
    else Ok(cur)
  }

  /** The field TorrentAdded is tagged `json:"torrent-added"`. */
  function TorrentAddedArgumentsField(cur: TorrentAddedArguments, key: string, v: Json): (r: Result<TorrentAddedArguments>)
    ensures r.Err? ==> r.error == DecodeError
    ensures InIntRange(cur.torrentAdded.id) && r.Ok? ==> InIntRange(r.value.torrentAdded.id)
  {
    if KeyMatches(key, "torrent-added") then
      DecodeStructKeeps(cur.torrentAdded, v, TorrentAddedField, IdInRange);
      var t :- DecodeStruct(cur.torrentAdded, v, TorrentAddedField); Ok(cur.(torrentAdded := t))
    else Ok(cur)
  }

  function TorrentAddField(cur: TorrentAdd, key: string, v: Json): (r: Result<TorrentAdd>)
    ensures r.Err? ==> r.error == DecodeError
    ensures InIntRange(cur.arguments.torrentAdded.id) && r.Ok? ==> InIntRange(r.value.arguments.torrentAdded.id)
  {
    if KeyMatches(key, "Arguments") then
      DecodeStructKeeps(cur.arguments, v, TorrentAddedArgumentsField, ArgumentsIdInRange);
      var a :- DecodeStruct(cur.arguments, v, TorrentAddedArgumentsField); Ok(cur.(arguments := a))
    else if KeyMatches(key, "Result") then
      var r :- DecodeString(cur.result, v); Ok(cur.(result := r))
    else Ok(cur)
  }

  predicate IdInRange(t: TorrentAdded) {
    InIntRange(t.id)
  }

  predicate ArgumentsIdInRange(a: TorrentAddedArguments) {
    InIntRange(a.torrentAdded.id)
  }

  predicate TorrentAddIdInRange(e: TorrentAdd) {
    InIntRange(e.arguments.torrentAdded.id)
  }

  predicate StatsInRange(e: SessionStats) {
    StatisticsInRange(e.arguments)
  }

  /** Decoding any JSON value into statistics within Go's `int` range keeps them there. */
  lemma DecodeStatisticsKeepsRange(cur: Statistics, v: Json)
    ensures StatisticsInRange(cur) && DecodeStruct(cur, v, StatisticsField).Ok? ==> StatisticsInRange(DecodeStruct(cur, v, StatisticsField).value)
  {
    DecodeStructKeeps(cur, v, StatisticsField, StatisticsInRange);
  }

  /** `json.Unmarshal(b, &r)` with `var r sessionStats`: a failure is always a decoding
      error, a body that is not JSON fails, and every count and speed it yields fits a Go
      `int`. */
  function DecodeSessionStats(body: Body): (r: Result<SessionStats>)
    ensures body.Malformed? ==> r == Err(DecodeError)
    ensures r.Err? ==> r.error == DecodeError
    ensures r.Ok? ==> StatisticsInRange(r.value.arguments)
  {
    UnmarshalKeeps(body, ZeroSessionStats, SessionStatsField, StatsInRange);
    Unmarshal(body, ZeroSessionStats, SessionStatsField)
  }

  /** `json.Unmarshal(b, &r)` with `var r torrentAdd`: a failure is always a decoding
      error, a body that is not JSON fails, and the id it yields fits a Go `int`. */
  function DecodeTorrentAdd(body: Body): (r: Result<TorrentAdd>)
    ensures body.Malformed? ==> r == Err(DecodeError)
    ensures r.Err? ==> r.error == DecodeError
    ensures r.Ok? ==> InIntRange(r.value.arguments.torrentAdded.id)
  {
    UnmarshalKeeps(body, ZeroTorrentAdd, TorrentAddField, TorrentAddIdInRange);
    Unmarshal(body, ZeroTorrentAdd, TorrentAddField)
  }

  // The replies as the daemon writes them, with its own lower camel-case keys.

  function StatisticsJson(s: Statistics): Json {
    JObj([
      ("activeTorrentCount", JNum(s.activeTorrentCount)),
      ("downloadSpeed", JNum(s.downloadSpeed)),
      ("pausedTorrentCount", JNum(s.pausedTorrentcount)),
      ("torrentCount", JNum(s.torrentCount)),
      ("uploadSpeed", JNum(s.uploadSpeed))])
  }

  function SessionStatsJson(e: SessionStats): Json {
    JObj([("arguments", StatisticsJson(e.arguments)), ("result", JStr(e.result))])
  }

  function TorrentAddedJson(t: TorrentAdded): Json {
    JObj([("hashString", JStr(t.hashString)), ("id", JNum(t.id)), ("name", JStr(t.name))])
  }

  function TorrentAddJson(e: TorrentAdd): Json {
    JObj([
      ("arguments", JObj([("torrent-added", TorrentAddedJson(e.arguments.torrentAdded))])),
      ("result", JStr(e.result))])
  }

  predicate StatisticsInRange(s: Statistics) {
    && InIntRange(s.downloadSpeed) && InIntRange(s.uploadSpeed) && InIntRange(s.torrentCount)
    && InIntRange(s.activeTorrentCount) && InIntRange(s.pausedTorrentcount)
  }

  lemma FoldActive()
    ensures Fold("activeTorrentCount") == Fold("ActiveTorrentCount") == "activetorrentcount"
  {
  }

  lemma FoldDownload()
    ensures Fold("downloadSpeed") == Fold("DownloadSpeed") == "downloadspeed"
  {
  }

  lemma FoldPaused()
    ensures Fold("pausedTorrentCount") == Fold("PausedTorrentcount") == "pausedtorrentcount"
  {
  }

  lemma FoldTorrent()
    ensures Fold("torrentCount") == Fold("TorrentCount") == "torrentcount"
  {
  }

  lemma FoldUpload()
    ensures Fold("uploadSpeed") == Fold("UploadSpeed") == "uploadspeed"
  {
  }

  /** How the daemon's statistics keys meet the Go field names: each matches its own field
      and no other. */
  lemma StatisticsKeys()
    ensures KeyMatches("activeTorrentCount", "ActiveTorrentCount")
    ensures !KeyMatches("activeTorrentCount", "DownloadSpeed") && !KeyMatches("activeTorrentCount", "UploadSpeed")
    ensures !KeyMatches("activeTorrentCount", "TorrentCount") && !KeyMatches("activeTorrentCount", "PausedTorrentcount")
    ensures KeyMatches("downloadSpeed", "DownloadSpeed")
    ensures !KeyMatches("downloadSpeed", "UploadSpeed") && !KeyMatches("downloadSpeed", "TorrentCount")
    ensures !KeyMatches("downloadSpeed", "ActiveTorrentCount") && !KeyMatches("downloadSpeed", "PausedTorrentcount")
    ensures KeyMatches("pausedTorrentCount", "PausedTorrentcount")
    ensures !KeyMatches("pausedTorrentCount", "DownloadSpeed") && !KeyMatches("pausedTorrentCount", "UploadSpeed")
    ensures !KeyMatches("pausedTorrentCount", "TorrentCount") && !KeyMatches("pausedTorrentCount", "ActiveTorrentCount")
    ensures KeyMatches("torrentCount", "TorrentCount")
    ensures !KeyMatches("torrentCount", "DownloadSpeed") && !KeyMatches("torrentCount", "UploadSpeed")
    ensures !KeyMatches("torrentCount", "ActiveTorrentCount") && !KeyMatches("torrentCount", "PausedTorrentcount")
    ensures KeyMatches("uploadSpeed", "UploadSpeed")
    ensures !KeyMatches("uploadSpeed", "DownloadSpeed") && !KeyMatches("uploadSpeed", "TorrentCount")
    ensures !KeyMatches("uploadSpeed", "ActiveTorrentCount") && !KeyMatches("uploadSpeed", "PausedTorrentcount")
  {
    FoldActive();
    FoldDownload();
    FoldPaused();
    FoldTorrent();
    FoldUpload();
  }

  // What each member of the daemon's statistics object does to the struct.

  lemma StoreActive(cur: Statistics, n: int)
    requires InIntRange(n)
    ensures StatisticsField(cur, "activeTorrentCount", JNum(n)) == Ok(cur.(activeTorrentCount := n))
  {
    StatisticsKeys();
  }

  lemma StoreDownload(cur: Statistics, n: int)
    requires InIntRange(n)
    ensures StatisticsField(cur, "downloadSpeed", JNum(n)) == Ok(cur.(downloadSpeed := n))
  {
    StatisticsKeys();
  }

  lemma StorePaused(cur: Statistics, n: int)
    requires InIntRange(n)
    ensures StatisticsField(cur, "pausedTorrentCount", JNum(n)) == Ok(cur.(pausedTorrentcount := n))
  {
    StatisticsKeys();
  }

  lemma StoreTorrent(cur: Statistics, n: int)
    requires InIntRange(n)
    ensures StatisticsField(cur, "torrentCount", JNum(n)) == Ok(cur.(torrentCount := n))
  {
    StatisticsKeys();
  }

  lemma StoreUpload(cur: Statistics, n: int)
    requires InIntRange(n)
    ensures StatisticsField(cur, "uploadSpeed", JNum(n)) == Ok(cur.(uploadSpeed := n))
  {
    StatisticsKeys();
  }

  /** Decoding the daemon's statistics object replaces every field, whatever the struct
      held before; the daemon's key pausedTorrentCount reaches the field spelled
      PausedTorrentcount only because keys match up to case. */
  lemma StatisticsRoundTrip(cur: Statistics, s: Statistics)
    requires StatisticsInRange(s)
    ensures DecodeStruct(cur, StatisticsJson(s), StatisticsField) == Ok(s)
  {
    var c1 := cur.(activeTorrentCount := s.activeTorrentCount);
    var c2 := c1.(downloadSpeed := s.downloadSpeed);
    var c3 := c2.(pausedTorrentcount := s.pausedTorrentcount);
    var c4 := c3.(torrentCount := s.torrentCount);
    var m0 := ("activeTorrentCount", JNum(s.activeTorrentCount));
    var m1 := ("downloadSpeed", JNum(s.downloadSpeed));
    var m2 := ("pausedTorrentCount", JNum(s.pausedTorrentcount));
    var m3 := ("torrentCount", JNum(s.torrentCount));
    var m4 := ("uploadSpeed", JNum(s.uploadSpeed));
    StoreUpload(c4, s.uploadSpeed);
    DecodeMembersStep(c4, m4, [], StatisticsField, s, s);
    StoreTorrent(c3, s.torrentCount);
    DecodeMembersStep(c3, m3, [m4], StatisticsField, c4, s);
    StorePaused(c2, s.pausedTorrentcount);
    DecodeMembersStep(c2, m2, [m3] + [m4], StatisticsField, c3, s);
    StoreDownload(c1, s.downloadSpeed);
    DecodeMembersStep(c1, m1, [m2] + ([m3] + [m4]), StatisticsField, c2, s);
    StoreActive(cur, s.activeTorrentCount);
    DecodeMembersStep(cur, m0, [m1] + ([m2] + ([m3] + [m4])), StatisticsField, c1, s);
    assert StatisticsJson(s).members == [m0] + ([m1] + ([m2] + ([m3] + [m4])));
  }

  lemma FoldArguments()
    ensures Fold("arguments") == Fold("Arguments") == "arguments"
  {
  }

  lemma FoldResult()
    ensures Fold("result") == Fold("Result") == "result"
  {
  }

  /** One member `(key, v)` followed by a second member `(key2, v2)` is decoded as the two
      field updates in turn. */
  lemma DecodeTwoMembers<T(!new)>(cur: T, m1: (string, Json), m2: (string, Json), field: (T, string, Json) -> Result<T>)
    requires field(cur, m1.0, m1.1).Ok?
    ensures DecodeMembers(cur, [m1, m2], field) == field(field(cur, m1.0, m1.1).value, m2.0, m2.1)
  {
    var next := field(cur, m1.0, m1.1).value;
    DecodeMembersCons(cur, m1, [m2], field);
    DecodeMembersCons(next, m2, [], field);
    assert [m1] + [m2] == [m1, m2];
    match field(next, m2.0, m2.1)
    case Ok(last) =>
      assert DecodeMembers(last, [], field) == Ok(last);
    case Err(e) =>
  }

  /** The daemon's session-stats reply decodes to exactly the statistics and result it
      carries. */
  lemma SessionStatsRoundTrip(e: SessionStats)
    requires StatisticsInRange(e.arguments)
    ensures DecodeSessionStats(Doc(SessionStatsJson(e))) == Ok(e)
  {
    FoldArguments();
    FoldResult();
    StatisticsRoundTrip(ZeroStatistics, e.arguments);
    var ms := SessionStatsJson(e).members;
    assert SessionStatsField(ZeroSessionStats, ms[0].0, ms[0].1) == Ok(ZeroSessionStats.(arguments := e.arguments));
    DecodeTwoMembers(ZeroSessionStats, ms[0], ms[1], SessionStatsField);
  }

  lemma FoldTorrentAddedKeys()
    ensures Fold("hashString") == Fold("HashString") == "hashstring"
    ensures Fold("id") == Fold("Id") == "id"
    ensures Fold("name") == Fold("Name") == "name"
  {
  }

  /** The daemon's description of an added torrent decodes to exactly its three fields. */
  lemma TorrentAddedRoundTrip(t: TorrentAdded, cur: TorrentAdded)
    requires InIntRange(t.id)
    ensures DecodeStruct(cur, TorrentAddedJson(t), TorrentAddedField) == Ok(t)
  {
    FoldTorrentAddedKeys();
    var ms := TorrentAddedJson(t).members;
    var c1 := cur.(hashString := t.hashString);
    var c2 := c1.(id := t.id);
    assert TorrentAddedField(cur, ms[0].0, ms[0].1) == Ok(c1);
    assert TorrentAddedField(c1, ms[1].0, ms[1].1) == Ok(c2);
    assert TorrentAddedField(c2, ms[2].0, ms[2].1) == Ok(t);
    DecodeMembersCons(cur, ms[0], ms[1..], TorrentAddedField);
    DecodeTwoMembers(c1, ms[1], ms[2], TorrentAddedField);
    assert [ms[0]] + ms[1..] == ms;
    assert ms[1..] == [ms[1], ms[2]];
  }

  /** The daemon's torrent-add reply decodes to exactly the torrent and result it
      carries. */
  lemma TorrentAddRoundTrip(e: TorrentAdd)
    requires InIntRange(e.arguments.torrentAdded.id)
    ensures DecodeTorrentAdd(Doc(TorrentAddJson(e))) == Ok(e)
  {
    FoldArguments();
    FoldResult();
    var t := e.arguments.torrentAdded;
    TorrentAddedRoundTrip(t, ZeroTorrentAdd.arguments.torrentAdded);
    var ms := TorrentAddJson(e).members;
    var inner := ms[0].1.members;
    assert TorrentAddedArgumentsField(ZeroTorrentAdd.arguments, inner[0].0, inner[0].1) == Ok(TorrentAddedArguments(t));
    DecodeMembersCons(ZeroTorrentAdd.arguments, inner[0], [], TorrentAddedArgumentsField);
    assert [inner[0]] + [] == inner;
    assert TorrentAddField(ZeroTorrentAdd, ms[0].0, ms[0].1) == Ok(ZeroTorrentAdd.(arguments := e.arguments));
    DecodeTwoMembers(ZeroTorrentAdd, ms[0], ms[1], TorrentAddField);
  }

  /** The reply the daemon writes when a method fails: a reason in `result` and empty
      arguments. */
  function FailureJson(result: string): Json {
    JObj([("arguments", JObj([])), ("result", JStr(result))])
  }

  /** A failure reply decodes, for either method, to zero-valued arguments and the reason
      verbatim. */
  lemma FailureRoundTrip(result: string)
    ensures DecodeSessionStats(Doc(FailureJson(result))) == Ok(SessionStats(ZeroStatistics, result))
    ensures DecodeTorrentAdd(Doc(FailureJson(result))) == Ok(ZeroTorrentAdd.(result := result))
  {
    FoldArguments();
    FoldResult();
    var ms := FailureJson(result).members;
    assert DecodeMembers(ZeroStatistics, [], StatisticsField) == Ok(ZeroStatistics);
    assert SessionStatsField(ZeroSessionStats, ms[0].0, ms[0].1) == Ok(ZeroSessionStats);
    DecodeTwoMembers(ZeroSessionStats, ms[0], ms[1], SessionStatsField);
    assert DecodeMembers(ZeroTorrentAdd.arguments, [], TorrentAddedArgumentsField) == Ok(ZeroTorrentAdd.arguments);
    assert TorrentAddField(ZeroTorrentAdd, ms[0].0, ms[0].1) == Ok(ZeroTorrentAdd);
    DecodeTwoMembers(ZeroTorrentAdd, ms[0], ms[1], TorrentAddField);
  }

  /** Of two members naming the same field, the later one decides the value. */
  lemma LaterKeyWins(cur: Statistics, k1: string, k2: string, a: int, b: int)
    requires KeyMatches(k1, "DownloadSpeed") && KeyMatches(k2, "DownloadSpeed")
    requires InIntRange(a) && InIntRange(b)
    ensures DecodeStruct(cur, JObj([(k1, JNum(a)), (k2, JNum(b))]), StatisticsField) == Ok(cur.(downloadSpeed := b))
  {
    DecodeTwoMembers(cur, (k1, JNum(a)), (k2, JNum(b)), StatisticsField);
  }

  /** Members whose keys name none of the five fields leave the statistics as they were,
      whatever their values. */
  lemma UnknownKeysIgnored(cur: Statistics, ms: seq<(string, Json)>)
    requires forall i :: 0 <= i < |ms| ==>
      && !KeyMatches(ms[i].0, "DownloadSpeed") && !KeyMatches(ms[i].0, "UploadSpeed")
      && !KeyMatches(ms[i].0, "TorrentCount") && !KeyMatches(ms[i].0, "ActiveTorrentCount")
      && !KeyMatches(ms[i].0, "PausedTorrentcount")
    ensures DecodeStruct(cur, JObj(ms), StatisticsField) == Ok(cur)
  {
    SkipsUnknownMembers(cur, ms, StatisticsField);
  }
}
