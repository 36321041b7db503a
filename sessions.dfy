/** Several client operations in a row. The client keeps no session id between calls: each
    call probes afresh, so a whole run of calls keeps the fresh-id discipline and pays one
    probe per call. */
module Sessions {
  import opened Transmission

  /** One public operation of the client. */
  datatype Call = StatsCall | AddCall(url: string)

  /** The requests one operation sends, with the answers it receives. */
  function Perform(c: Conn, call: Call, replies: Replies): (t: seq<Event>)
    ensures FreshSessionIds(t)
    ensures 1 <= |t| <= 2 && t[0].Get? && (|t| == 2 ==> t[1].Post?)
  {
    match call
    case StatsCall => Stats(c, replies).trace
    case AddCall(url) => Add(c, url, replies).trace
  }

  /** The calls performed one after the other, the i-th answered by `replies[i]`. */
  function Run(c: Conn, calls: seq<Call>, replies: seq<Replies>): seq<Event>
    requires |calls| == |replies|
    decreases |calls|
  {
    if calls == [] then []
    else Perform(c, calls[0], replies[0]) + Run(c, calls[1..], replies[1..])
  }

  /** The number of probes in a trace. */
  function Probes(t: seq<Event>): nat
    decreases |t|
  {
    if t == [] then 0 else (if t[0].Get? then 1 else 0) + Probes(t[1..])
  }

  /** The discipline survives putting one trace after another, since no trace that keeps
      it starts with a POST. */
  lemma FreshSessionIdsAppend(a: seq<Event>, b: seq<Event>)
    requires FreshSessionIds(a) && FreshSessionIds(b)
    ensures FreshSessionIds(a + b)
  {
    var t := a + b;
    forall i | 0 <= i < |t| && t[i].Post?
      ensures 0 < i && Authorizes(t[i - 1], t[i])
    {
      if i < |a| {
        assert t[i] == a[i];
      } else {
        assert t[i] == b[i - |a|];
        assert 0 < i - |a|;
        assert t[i - 1] == b[i - 1 - |a|];
      }
    }
  }

  lemma {:induction false} ProbesAppend(a: seq<Event>, b: seq<Event>)
    ensures Probes(a + b) == Probes(a) + Probes(b)
    decreases |a|
  {
    if a == [] {
      assert a + b == b;
    } else {
      assert (a + b)[0] == a[0];
      assert (a + b)[1..] == a[1..] + b;
      ProbesAppend(a[1..], b);
    }
  }

  /** However many calls are made, every POST carries the id its own call's probe just
      obtained: no id is reused from an earlier call. */
  lemma {:induction false} RunKeepsFreshSessionIds(c: Conn, calls: seq<Call>, replies: seq<Replies>)
    requires |calls| == |replies|
    ensures FreshSessionIds(Run(c, calls, replies))
    decreases |calls|
  {
    if calls != [] {
      RunKeepsFreshSessionIds(c, calls[1..], replies[1..]);
      FreshSessionIdsAppend(Perform(c, calls[0], replies[0]), Run(c, calls[1..], replies[1..]));
    }
  }

  /** Every call pays for its own probe: a run of n calls sends exactly n probes, and at
      most n POSTs follow them. */
  lemma {:induction false} RunProbesOncePerCall(c: Conn, calls: seq<Call>, replies: seq<Replies>)
    requires |calls| == |replies|
    ensures Probes(Run(c, calls, replies)) == |calls|
    ensures |Run(c, calls, replies)| <= 2 * |calls|
    decreases |calls|
  {
    if calls != [] {
      var first := Perform(c, calls[0], replies[0]);
      RunProbesOncePerCall(c, calls[1..], replies[1..]);
      ProbesAppend(first, Run(c, calls[1..], replies[1..]));
      if |first| == 2 {
        assert first[1..][1..] == [];
      }
    }
  }
}
