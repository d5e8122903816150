/** Properties of the channel handler that span several calls. */
module ChannelProperties {
  import opened Values
  import opened Codec
  import opened CodecProperties
  import opened Channel

  /** A record encoded with this handler's version passes `parse` exactly when
      its team equals the handler's team, and then decodes to the message. */
  lemma ParseOwnVersion(h: HandlerState, m: TmcpMessage)
    ensures Parse(h, ToDict(h.version, m)) == (if PyEq(m.team, Int(h.team)) then Parsed(m) else NoMessage)
  {
    PyEqReflexive(h.version);
    RoundTrip(h.version, m);
  }

  /** Version gate: a record of another protocol version is dropped by
      `parse`, although `from_dict` alone would decode it. */
  lemma VersionGate(h: HandlerState, other: Value, m: TmcpMessage)
    requires !PyEq(other, h.version)
    ensures Parse(h, ToDict(other, m)) == NoMessage
    ensures FromDict(ToDict(other, m)) == Parsed(m)
  {
  }

  /** Team gate: a current-version record from another team is dropped. */
  lemma TeamGate(h: HandlerState, m: TmcpMessage)
    requires !PyEq(m.team, Int(h.team))
    ensures Parse(h, ToDict(h.version, m)) == NoMessage
  {
  }

  /** Collecting over two consecutive stretches of the queue is collecting
      over the first, then over the second: the filter keeps arrival order. */
  lemma {:induction false} CollectAppend(h: HandlerState, a: seq<Record>, b: seq<Record>)
    ensures Collect(h, a + b) == Collect(h, a) + Collect(h, b)
    decreases |b|
  {
    if |b| == 0 {
      assert a + b == a;
    } else {
      var b' := b[..|b| - 1];
      assert (a + b)[..|a + b| - 1] == a + b';
      assert (a + b)[|a + b| - 1] == b[|b| - 1];
      CollectAppend(h, a, b');
    }
  }

  /** A message is collected from a record exactly when the record parses to
      it: `Collect` is a filter-map, element by element. */
  lemma CollectSingle(h: HandlerState, r: Record)
    ensures Collect(h, [r]) == (if Parse(h, r).Parsed? then [Parse(h, r).msg] else [])
  {
  }

  /** Receive bound: at most 50 records are consumed per call, whether or not
      they parse; the rest stays queued in order. */
  lemma RecvConsumesAtMostFifty(h: HandlerState, incoming: seq<Record>)
    ensures RecvSpec(h, incoming).Received? ==>
      RecvSpec(h, incoming).remaining == incoming[Min(|incoming|, MAX_PACKETS_PER_TICK)..]
    ensures |incoming| > MAX_PACKETS_PER_TICK ==> |RecvSpec(h, incoming).remaining| >= |incoming| - MAX_PACKETS_PER_TICK
  {
  }

  /** `recv` lets a `TypeError` escape exactly when one of the records it
      would consume raises. */
  lemma RecvRaisesExactly(h: HandlerState, incoming: seq<Record>)
    ensures RecvSpec(h, incoming).RecvRaises? <==>
      exists i :: 0 <= i < Min(|incoming|, MAX_PACKETS_PER_TICK) && Raises(h, incoming[i])
  {
    var n := Min(|incoming|, MAX_PACKETS_PER_TICK);
    var batch := incoming[..n];
    var j := FirstRaise(h, batch);
    if j < n {
      assert batch[j] == incoming[j];
    } else {
      forall i | 0 <= i < n
        ensures !Raises(h, incoming[i])
      {
        assert batch[i] == incoming[i];
      }
    }
  }

  /** A batch in which every record parses to nothing yields no message. */
  lemma {:induction false} CollectAllDropped(h: HandlerState, batch: seq<Record>)
    requires forall i :: 0 <= i < |batch| ==> Parse(h, batch[i]) == NoMessage
    ensures Collect(h, batch) == []
    decreases |batch|
  {
    if |batch| > 0 {
      CollectAllDropped(h, batch[..|batch| - 1]);
    }
  }

  /** Dropped records count against the bound: fifty records from the other
      team at the head of the queue use up a whole call. */
  lemma RejectedRecordsCount(h: HandlerState, incoming: seq<Record>)
    requires |incoming| >= MAX_PACKETS_PER_TICK
    requires forall i :: 0 <= i < MAX_PACKETS_PER_TICK ==> Parse(h, incoming[i]) == NoMessage
    ensures RecvSpec(h, incoming) == Received([], incoming[MAX_PACKETS_PER_TICK..])
  {
    var batch := incoming[..MAX_PACKETS_PER_TICK];
    assert forall i :: 0 <= i < |batch| ==> Parse(h, batch[i]) == NoMessage;
    CollectAllDropped(h, batch);
    assert FirstRaise(h, batch) == |batch|;
  }

  /** A prefix of length `a + b` is the prefix of length `a` followed by
      the first `b` elements after it. */
  lemma PrefixSplit<T>(q: seq<T>, a: nat, b: nat)
    requires a + b <= |q|
    ensures q[..a + b] == q[..a] + q[a..][..b]
  {
  }

  /** Two calls of `recv` in a row yield the messages of the records they
      consumed together, in arrival order, and leave the rest queued. */
  lemma RecvTwice(h: HandlerState, q: seq<Record>)
    requires RecvSpec(h, q).Received?
    requires RecvSpec(h, RecvSpec(h, q).remaining).Received?
    ensures
      var q2 := RecvSpec(h, RecvSpec(h, q).remaining).remaining;
      && |q2| <= |q|
      && q2 == q[|q| - |q2|..]
      && RecvSpec(h, q).messages + RecvSpec(h, RecvSpec(h, q).remaining).messages
         == Collect(h, q[..|q| - |q2|])
  {
    var n1 := Min(|q|, MAX_PACKETS_PER_TICK);
    var q1 := q[n1..];
    assert RecvSpec(h, q) == Received(Collect(h, q[..n1]), q1);
    var n2 := Min(|q1|, MAX_PACKETS_PER_TICK);
    var q2 := q1[n2..];
    assert RecvSpec(h, q1) == Received(Collect(h, q1[..n2]), q2);
    assert |q| - |q2| == n1 + n2;
    assert q2 == q[n1 + n2..];
    PrefixSplit(q, n1, n2);
    CollectAppend(h, q[..n1], q1[..n2]);
  }

  /** Replaying a run of `send` calls: the handler and queue after each
      call, and the clock readings at which a record was actually pushed. */
  datatype Trace = Trace(state: HandlerState, outgoing: seq<Record>, sentAt: seq<real>)

  /** The effect of calling `send` with each (clock reading, message) pair. */
  function SendAll(h: HandlerState, outgoing: seq<Record>, calls: seq<(real, TmcpMessage)>): Trace
    decreases |calls|
  {
    if |calls| == 0 then Trace(h, outgoing, [])
    else
      var t := SendAll(h, outgoing, calls[..|calls| - 1]);
      var (now, m) := calls[|calls| - 1];
      var s := Send(t.state, t.outgoing, now, m);
      Trace(s.state, s.outgoing, t.sentAt + (if s.sent then [now] else []))
  }

  /** Rate limiting over any run: pushed records are at least 0.1 apart, the
      first at least 0.1 after the initial `last_time`; one record is pushed
      per successful call, after the records already queued; `last_time` is
      the last successful call's clock reading. */
  lemma {:induction false} SendAllSpaced(h: HandlerState, outgoing: seq<Record>, calls: seq<(real, TmcpMessage)>)
    ensures var t := SendAll(h, outgoing, calls);
      && |t.outgoing| == |outgoing| + |t.sentAt|
      && t.outgoing[..|outgoing|] == outgoing
      && (|t.sentAt| > 0 ==> t.sentAt[0] - h.lastTime >= TIME_BETWEEN_MESSAGES)
      && (forall i :: 0 < i < |t.sentAt| ==> t.sentAt[i] - t.sentAt[i - 1] >= TIME_BETWEEN_MESSAGES)
      && t.state.lastTime == (if |t.sentAt| == 0 then h.lastTime else t.sentAt[|t.sentAt| - 1])
      && t.state == h.(lastTime := t.state.lastTime)
    decreases |calls|
  {
    if |calls| > 0 {
      SendAllSpaced(h, outgoing, calls[..|calls| - 1]);
      var t := SendAll(h, outgoing, calls[..|calls| - 1]);
      var (now, m) := calls[|calls| - 1];
      var s := Send(t.state, t.outgoing, now, m);
      if s.sent {
        assert s.outgoing[..|outgoing|] == t.outgoing[..|outgoing|];
      }
    }
  }

  /** A fresh handler's `last_time` is 0.0, so its first send goes out only
      once the clock reads at least 0.1. */
  lemma FirstSend(team: int, index: int, version: Value, outgoing: seq<Record>, now: real, m: TmcpMessage)
    ensures Send(NewHandler(team, index, version), outgoing, now, m).sent <==> now >= TIME_BETWEEN_MESSAGES
  {
  }

  /** Two sends 0.05 apart: the second is refused and pushes nothing; a third
      0.1 after the first goes out. */
  lemma RateLimitScenario(h: HandlerState, outgoing: seq<Record>, t0: real, m: TmcpMessage)
    requires t0 - h.lastTime >= TIME_BETWEEN_MESSAGES
    ensures var s1 := Send(h, outgoing, t0, m);
      var s2 := Send(s1.state, s1.outgoing, t0 + 0.05, m);
      var s3 := Send(s2.state, s2.outgoing, t0 + 0.1, m);
      && s1.sent && !s2.sent && s3.sent
      && s2.outgoing == s1.outgoing == outgoing + [ToDict(h.version, m)]
      && |s3.outgoing| == |outgoing| + 2
  {
  }

  /** `send_ball_action()` and `send_demo_action(target)` without a time send
      -1.0 as the time. */
  lemma DefaultTimeSent(h: HandlerState, outgoing: seq<Record>, now: real, target: int)
    requires now - h.lastTime >= TIME_BETWEEN_MESSAGES
    ensures SendBallAction(h, outgoing, now).outgoing[|outgoing|]["action"].entries["time"] == Real(-1.0)
    ensures SendDemoAction(h, outgoing, now, target).outgoing[|outgoing|]["action"].entries["time"] == Real(-1.0)
  {
  }
}
