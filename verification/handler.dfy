/** The TMCP channel handler: rate-limited sending and bounded, filtered
    receiving over the two match-comms broadcast queues. The queues are
    sequences of raw records (oldest first) and the clock is a parameter. */
module Channel {
  import opened Wrappers
  import opened Values
  import opened Codec
  import opened CodecProperties

  /** At most this many records are taken from the incoming queue per `recv`. */
  const MAX_PACKETS_PER_TICK: nat := 50

  /** The minimum time between two messages actually sent. */
  const TIME_BETWEEN_MESSAGES: real := 0.1

  /** The handler's fields: the agent's team and index, the time of the last
      sent message, and the protocol version `TMCP_VERSION` it speaks. */
  datatype HandlerState = HandlerState(team: int, index: int, lastTime: real, version: Value)

  /** `TMCPHandler(agent)`: nothing has been sent yet. */
  function NewHandler(team: int, index: int, version: Value): (h: HandlerState)
    ensures h.team == team && h.index == index && h.version == version
    ensures h.lastTime == 0.0
  {
    HandlerState(team, index, 0.0, version)
  }

  /** The result of `send`: whether a record was pushed, the handler's new
      state and the outgoing queue afterwards. */
  datatype SendResult = SendResult(sent: bool, state: HandlerState, outgoing: seq<Record>)

  /** `send(message)` at clock reading `now`. Too soon after the last sent
      message nothing happens; otherwise the encoded message is pushed and
      the time remembered. */
  function Send(h: HandlerState, outgoing: seq<Record>, now: real, m: TmcpMessage): (r: SendResult)
    ensures !r.sent <==> now - h.lastTime < TIME_BETWEEN_MESSAGES
    ensures !r.sent ==> r.state == h && r.outgoing == outgoing
    ensures r.sent ==>
      && r.outgoing == outgoing + [ToDict(h.version, m)]
      && r.state == h.(lastTime := now)
  {
    if now - h.lastTime < TIME_BETWEEN_MESSAGES then SendResult(false, h, outgoing)
    else SendResult(true, h.(lastTime := now), outgoing + [ToDict(h.version, m)])
  }

  /** `parse(record)`: records of another protocol version (or none) and of
      another team (or none) are dropped before `from_dict` sees them. The
      comparisons are Python's `!=`, so a float team equal to the handler's
      team passes. */
  function Parse(h: HandlerState, r: Record): (d: Decoded)
    ensures ("tmcp_version" !in r || !PyEq(r["tmcp_version"], h.version)) ==> d == NoMessage
    ensures ("team" !in r || !PyEq(r["team"], Int(h.team))) ==> d == NoMessage
    ensures d.Parsed? ==> PyEq(d.msg.team, Int(h.team))
    ensures ("tmcp_version" in r && PyEq(r["tmcp_version"], h.version)
             && "team" in r && PyEq(r["team"], Int(h.team))) ==> d == FromDict(r)
  {
    if "tmcp_version" !in r || !PyEq(r["tmcp_version"], h.version) then NoMessage
    else if "team" !in r || !PyEq(r["team"], Int(h.team)) then NoMessage
    else FromDict(r)
  }

  /** Whether parsing `r` lets a `TypeError` escape. */
  predicate Raises(h: HandlerState, r: Record) {
    Parse(h, r).RaisesTypeError?
  }

  /** The messages parsed from `batch`, in arrival order; records that parse
      to nothing are skipped. */
  function Collect(h: HandlerState, batch: seq<Record>): (ms: seq<TmcpMessage>)
    ensures |ms| <= |batch|
    ensures forall i :: 0 <= i < |ms| ==> PyEq(ms[i].team, Int(h.team))
    decreases |batch|
  {
    if |batch| == 0 then []
    else
      var last := batch[|batch| - 1];
      Collect(h, batch[..|batch| - 1]) + (if Parse(h, last).Parsed? then [Parse(h, last).msg] else [])
  }

  /** The position of the first record in `batch` whose parse raises, or
      `|batch|` when none does. */
  function FirstRaise(h: HandlerState, batch: seq<Record>): (j: nat)
    ensures j <= |batch|
    ensures forall i :: 0 <= i < j ==> !Raises(h, batch[i])
    ensures j < |batch| ==> Raises(h, batch[j])
  {
    if |batch| == 0 then 0
    else if Raises(h, batch[0]) then 0
    else 1 + FirstRaise(h, batch[1..])
  }

  /** The result of `recv`: the messages received and the records left in the
      incoming queue, or the `TypeError` escaping with the queue left behind. */
  datatype RecvResult =
    | Received(messages: seq<TmcpMessage>, remaining: seq<Record>)
    | RecvRaises(remaining: seq<Record>)

  function Min(a: nat, b: nat): nat {
    if a <= b then a else b
  }

  /** Reference definition of `recv`: the first `min(|incoming|, 50)` records
      are consumed; if one of them raises, everything up to and including it
      is gone and the error escapes; otherwise the parsed messages come back
      in order. */
  function RecvSpec(h: HandlerState, incoming: seq<Record>): (r: RecvResult)
    ensures |r.remaining| <= |incoming| && r.remaining == incoming[|incoming| - |r.remaining|..]
  {
    var n := Min(|incoming|, MAX_PACKETS_PER_TICK);
    var j := FirstRaise(h, incoming[..n]);
    if j < n then RecvRaises(incoming[j + 1..])
    else Received(Collect(h, incoming[..n]), incoming[n..])
  }

  /** What the reference `recv` guarantees: at most 50 records consumed, at
      most 50 messages returned, all of the handler's team, and an escaping
      error consumes at least the raising record. */
  lemma RecvSpecBounds(h: HandlerState, incoming: seq<Record>)
    ensures var r := RecvSpec(h, incoming);
      && (r.Received? ==>
            && |r.messages| <= MAX_PACKETS_PER_TICK
            && |r.remaining| == |incoming| - Min(|incoming|, MAX_PACKETS_PER_TICK)
            && (forall i :: 0 <= i < |r.messages| ==> PyEq(r.messages[i].team, Int(h.team))))
      && (r.RecvRaises? ==> |incoming| - MAX_PACKETS_PER_TICK <= |r.remaining| < |incoming|)
  {
  }

  /** The reference `recv` when the record at position `k` of the batch is
      the first to raise. */
  lemma RecvSpecRaisesAt(h: HandlerState, incoming: seq<Record>, k: nat)
    requires k < Min(|incoming|, MAX_PACKETS_PER_TICK)
    requires forall i :: 0 <= i < k ==> !Raises(h, incoming[i])
    requires Raises(h, incoming[k])
    ensures RecvSpec(h, incoming) == RecvRaises(incoming[k + 1..])
  {
    var batch := incoming[..Min(|incoming|, MAX_PACKETS_PER_TICK)];
    assert batch[k] == incoming[k];
    assert forall i :: 0 <= i < k ==> batch[i] == incoming[i];
    assert FirstRaise(h, batch) == k;
  }

  /** The reference `recv` when no record of the batch raises. */
  lemma RecvSpecCompletes(h: HandlerState, incoming: seq<Record>, k: nat)
    requires k == Min(|incoming|, MAX_PACKETS_PER_TICK)
    requires forall i :: 0 <= i < k ==> !Raises(h, incoming[i])
    ensures RecvSpec(h, incoming) == Received(Collect(h, incoming[..k]), incoming[k..])
  {
    var batch := incoming[..k];
    assert forall i :: 0 <= i < k ==> batch[i] == incoming[i];
    assert FirstRaise(h, batch) == k;
  }

  /** `recv()`: pop and parse records until 50 have been taken or the queue
      is empty. */
  method Recv(h: HandlerState, incoming: seq<Record>) returns (r: RecvResult)
    ensures r == RecvSpec(h, incoming)
    ensures r.Received? ==>
      && |r.messages| <= MAX_PACKETS_PER_TICK
      && |r.remaining| == |incoming| - Min(|incoming|, MAX_PACKETS_PER_TICK)
      && (forall i :: 0 <= i < |r.messages| ==> PyEq(r.messages[i].team, Int(h.team)))
    ensures r.RecvRaises? ==> |incoming| - MAX_PACKETS_PER_TICK <= |r.remaining| < |incoming|
  {
    RecvSpecBounds(h, incoming);
    var messages: seq<TmcpMessage> := [];
    var queue := incoming;
    var taken := 0;
    while taken < MAX_PACKETS_PER_TICK
      invariant taken <= MAX_PACKETS_PER_TICK && taken <= |incoming|
      invariant queue == incoming[taken..]
      invariant forall i :: 0 <= i < taken ==> !Raises(h, incoming[i])
      invariant messages == Collect(h, incoming[..taken])
    {
      if |queue| == 0 {
        break;
      }
      var record := queue[0];
      queue := queue[1..];
      assert incoming[..taken + 1][..taken] == incoming[..taken];
      var d := Parse(h, record);
      if d.RaisesTypeError? {
        RecvSpecRaisesAt(h, incoming, taken);
        return RecvRaises(queue);
      }
      if d.Parsed? {
        messages := messages + [d.msg];
      }
      taken := taken + 1;
    }
    RecvSpecCompletes(h, incoming, taken);
    return Received(messages, queue);
  }

  /** A send that pushed a record pushed exactly one, at the end: `m`
      encoded with the protocol version `version`, which decodes back to `m`. */
  ghost predicate PushedOnly(version: Value, outgoing: seq<Record>, r: SendResult, m: TmcpMessage) {
    && |r.outgoing| == |outgoing| + 1
    && r.outgoing[..|outgoing|] == outgoing
    && r.outgoing[|outgoing|] == ToDict(version, m)
    && FromDict(r.outgoing[|outgoing|]) == Parsed(m)
  }

  /** `send_ball_action(time)`: with no time the message carries -1.0. */
  function SendBallAction(h: HandlerState, outgoing: seq<Record>, now: real, time: Option<real> := None): (r: SendResult)
    ensures r.sent ==> PushedOnly(h.version, outgoing, r, TmcpMessage(Int(h.team), Int(h.index), Ball(Real(time.GetOr(-1.0)))))
    ensures r.sent <==> now - h.lastTime >= TIME_BETWEEN_MESSAGES
    ensures r.sent ==> r.state == h.(lastTime := now)
    ensures !r.sent ==> r.state == h && r.outgoing == outgoing
  {
    var m := if time.None? then BallAction(Int(h.team), Int(h.index))
             else BallAction(Int(h.team), Int(h.index), Real(time.value));
    RoundTrip(h.version, m);
    Send(h, outgoing, now, m)
  }

  /** `send_boost_action(target)`. */
  function SendBoostAction(h: HandlerState, outgoing: seq<Record>, now: real, target: int): (r: SendResult)
    ensures r.sent ==> PushedOnly(h.version, outgoing, r, TmcpMessage(Int(h.team), Int(h.index), Boost(Int(target))))
    ensures r.sent <==> now - h.lastTime >= TIME_BETWEEN_MESSAGES
    ensures r.sent ==> r.state == h.(lastTime := now)
    ensures !r.sent ==> r.state == h && r.outgoing == outgoing
  {
    var m := BoostAction(Int(h.team), Int(h.index), Int(target));
    RoundTrip(h.version, m);
    Send(h, outgoing, now, m)
  }

  /** `send_demo_action(target, time)`: with no time the message carries -1.0. */
  function SendDemoAction(h: HandlerState, outgoing: seq<Record>, now: real, target: int, time: Option<real> := None): (r: SendResult)
    ensures r.sent ==>
      PushedOnly(h.version, outgoing, r, TmcpMessage(Int(h.team), Int(h.index), Demo(Int(target), Real(time.GetOr(-1.0)))))
    ensures r.sent <==> now - h.lastTime >= TIME_BETWEEN_MESSAGES
    ensures r.sent ==> r.state == h.(lastTime := now)
    ensures !r.sent ==> r.state == h && r.outgoing == outgoing
  {
    var m := if time.None? then DemoAction(Int(h.team), Int(h.index), Int(target))
             else DemoAction(Int(h.team), Int(h.index), Int(target), Real(time.value));
    RoundTrip(h.version, m);
    Send(h, outgoing, now, m)
  }

  /** `send_wait_action()`. */
  function SendWaitAction(h: HandlerState, outgoing: seq<Record>, now: real): (r: SendResult)
    ensures r.sent ==> PushedOnly(h.version, outgoing, r, TmcpMessage(Int(h.team), Int(h.index), Wait))
    ensures r.sent <==> now - h.lastTime >= TIME_BETWEEN_MESSAGES
    ensures r.sent ==> r.state == h.(lastTime := now)
    ensures !r.sent ==> r.state == h && r.outgoing == outgoing
  {
    var m := WaitAction(Int(h.team), Int(h.index));
    RoundTrip(h.version, m);
    Send(h, outgoing, now, m)
  }
}
