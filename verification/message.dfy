/** The TMCP message codec: the four action variants, their constructors,
    and the conversion between a message and a raw record. */
module Codec {
  import opened Wrappers
  import opened Values

  /** The closed set of action tags; each is sent as its upper-case name. */
  datatype ActionType = BALL | BOOST | DEMO | WAIT

  /** The wire spelling of a tag. */
  function Tag(t: ActionType): string {
    match t
    case BALL => "BALL"
    case BOOST => "BOOST"
    case DEMO => "DEMO"
    case WAIT => "WAIT"
  }

  /** `ActionType(v)`: the enum member whose value is exactly `v`, or `None`
      where Python raises `ValueError` (any other string, any other kind of
      value; the lookup is case-sensitive). */
  function ParseActionType(v: Value): (r: Option<ActionType>)
    ensures r.Some? ==> v == Str(Tag(r.value))
  {
    if v == Str("BALL") then Some(BALL)
    else if v == Str("BOOST") then Some(BOOST)
    else if v == Str("DEMO") then Some(DEMO)
    else if v == Str("WAIT") then Some(WAIT)
    else None
  }

  /** The payload of a message. The source does not check the types of its
      fields, so they are arbitrary values. */
  datatype Action =
    | Ball(time: Value)
    | Boost(target: Value)
    | Demo(target: Value, time: Value)
    | Wait
  {
    /** The tag of this action's variant. */
    function Type(): ActionType {
      match this
      case Ball(_) => BALL
      case Boost(_) => BOOST
      case Demo(_, _) => DEMO
      case Wait => WAIT
    }
  }

  /** A TMCP message: sender team, sender index and one action. */
  datatype TmcpMessage = TmcpMessage(team: Value, index: Value, action: Action)
  {
    /** The message's `action_type` attribute. */
    function ActionTypeOf(): ActionType {
      action.Type()
    }
  }

  /** The time every constructor uses when none is given: -1.0, "unknown". */
  const DEFAULT_TIME: Value := Real(-1.0)

  /** `TMCPMessage.ball_action`: the sender is going for the ball. */
  function BallAction(team: Value, index: Value, time: Value := DEFAULT_TIME): (m: TmcpMessage)
    ensures m.ActionTypeOf() == BALL && m.team == team && m.index == index
    ensures m.action.time == time
  {
    TmcpMessage(team, index, Ball(time))
  }

  /** `TMCPMessage.boost_action`: the sender is going for boost pad `target`. */
  function BoostAction(team: Value, index: Value, target: Value): (m: TmcpMessage)
    ensures m.ActionTypeOf() == BOOST && m.team == team && m.index == index
    ensures m.action.target == target
  {
    TmcpMessage(team, index, Boost(target))
  }

  /** `TMCPMessage.demo_action`: the sender is going to demolish car `target`. */
  function DemoAction(team: Value, index: Value, target: Value, time: Value := DEFAULT_TIME): (m: TmcpMessage)
    ensures m.ActionTypeOf() == DEMO && m.team == team && m.index == index
    ensures m.action.target == target && m.action.time == time
  {
    TmcpMessage(team, index, Demo(target, time))
  }

  /** `TMCPMessage.wait_action`: the sender is positioning or recovering. */
  function WaitAction(team: Value, index: Value): (m: TmcpMessage)
    ensures m.ActionTypeOf() == WAIT && m.team == team && m.index == index
  {
    TmcpMessage(team, index, Wait)
  }

  /** The keys a variant's action record carries besides `type`. */
  function PayloadKeys(t: ActionType): set<string> {
    match t
    case BALL => {"time"}
    case BOOST => {"target"}
    case DEMO => {"target", "time"}
    case WAIT => {}
  }

  /** The action record of `to_dict`. */
  function ActionRecord(a: Action): (r: map<string, Value>)
    ensures r.Keys == {"type"} + PayloadKeys(a.Type())
    ensures r["type"] == Str(Tag(a.Type()))
    ensures (a.Ball? || a.Demo?) ==> r["time"] == a.time
    ensures (a.Boost? || a.Demo?) ==> r["target"] == a.target
  {
    match a
    case Ball(time) => map["type" := Str("BALL"), "time" := time]
    case Boost(target) => map["type" := Str("BOOST"), "target" := target]
    case Demo(target, time) => map["type" := Str("DEMO"), "target" := target, "time" := time]
    case Wait => map["type" := Str("WAIT")]
  }

  /** The four keys of every encoded message. */
  const ENVELOPE_KEYS: set<string> := {"tmcp_version", "team", "index", "action"}

  /** `TMCPMessage.to_dict`; `version` is the protocol's `TMCP_VERSION`. */
  function ToDict(version: Value, m: TmcpMessage): (r: Record)
    ensures r.Keys == ENVELOPE_KEYS
    ensures r["tmcp_version"] == version && r["team"] == m.team && r["index"] == m.index
    ensures r["action"].Map?
    ensures r["action"].entries.Keys == {"type"} + PayloadKeys(m.ActionTypeOf())
    ensures r["action"].entries["type"] == Str(Tag(m.ActionTypeOf()))
  {
    map["tmcp_version" := version, "team" := m.team, "index" := m.index,
        "action" := Map(ActionRecord(m.action))]
  }

  /** What `from_dict` can do: return a message, return `None` (it caught a
      `KeyError` or `ValueError`), or let a `TypeError` escape to its caller. */
  datatype Decoded = Parsed(msg: TmcpMessage) | NoMessage | RaisesTypeError

  /** `from_dict` on an action record whose tag is already known. */
  function DecodeAction(team: Value, index: Value, t: ActionType, a: map<string, Value>): (r: Decoded)
    ensures r.Parsed? <==> PayloadKeys(t) <= a.Keys
    ensures !r.RaisesTypeError?
    ensures r.Parsed? ==> r.msg.team == team && r.msg.index == index && r.msg.ActionTypeOf() == t
    ensures r.Parsed? && (t == BALL || t == DEMO) ==> r.msg.action.time == a["time"]
    ensures r.Parsed? && (t == BOOST || t == DEMO) ==> r.msg.action.target == a["target"]
  {
    match t
    case BALL =>
      if "time" in a then Parsed(BallAction(team, index, a["time"])) else NoMessage
    case BOOST =>
      if "target" in a then Parsed(BoostAction(team, index, a["target"])) else NoMessage
    case DEMO =>
      if "target" in a && "time" in a then Parsed(DemoAction(team, index, a["target"], a["time"]))
      else NoMessage
    case WAIT =>
      Parsed(WaitAction(team, index))
  }

  /** `TMCPMessage.from_dict`. Lookups happen in the order `team`, `index`,
      `action`, `action["type"]`, then the variant's fields; a missing key
      or an unknown tag yields `NoMessage`. Subscripting an `action` that is
      not a record raises `TypeError`, which `from_dict` does not catch. */
  function FromDict(r: Record): (d: Decoded)
    ensures d.RaisesTypeError? <==>
      "team" in r && "index" in r && "action" in r && !r["action"].Map?
    ensures d.Parsed? ==>
      && "team" in r && "index" in r && "action" in r && r["action"].Map?
      && d.msg.team == r["team"] && d.msg.index == r["index"]
      && "type" in r["action"].entries
      && r["action"].entries["type"] == Str(Tag(d.msg.ActionTypeOf()))
      && PayloadKeys(d.msg.ActionTypeOf()) <= r["action"].entries.Keys
      && (d.msg.action.Ball? || d.msg.action.Demo? ==> d.msg.action.time == r["action"].entries["time"])
      && (d.msg.action.Boost? || d.msg.action.Demo? ==> d.msg.action.target == r["action"].entries["target"])
  {
    if "team" !in r || "index" !in r || "action" !in r then NoMessage
    else if !r["action"].Map? then RaisesTypeError
    else
      var a := r["action"].entries;
      if "type" !in a then NoMessage
      else
        match ParseActionType(a["type"])
        case None => NoMessage
        case Some(t) => DecodeAction(r["team"], r["index"], t, a)
  }
}

/** Properties of the codec that relate several calls or all inputs. */
module CodecProperties {
  import opened Wrappers
  import opened Values
  import opened Codec

  /** Decoding an encoded message gives back the same team, index, action
      type and payload, for every message and every protocol version. */
  lemma RoundTrip(version: Value, m: TmcpMessage)
    ensures FromDict(ToDict(version, m)) == Parsed(m)
  {
    match m.action
    case Ball(_) =>
    case Boost(_) =>
    case Demo(_, _) =>
    case Wait =>
  }

  /** A tag is accepted exactly when it is one of the four upper-case names. */
  lemma TagMatchIsExact(v: Value, t: ActionType)
    ensures ParseActionType(v) == Some(t) <==> v == Str(Tag(t))
  {
  }

  /** `from_dict` returns `None` exactly when a key it looks up is missing
      or the tag is unknown, and the action is a record. */
  lemma FromDictNoMessageExactly(r: Record)
    ensures FromDict(r) == NoMessage <==>
      || "team" !in r || "index" !in r || "action" !in r
      || (&& r["action"].Map?
          && (|| "type" !in r["action"].entries
              || ParseActionType(r["action"].entries["type"]).None?
              || !(PayloadKeys(ParseActionType(r["action"].entries["type"]).value)
                     <= r["action"].entries.Keys)))
  {
  }

  /** Lower-case spellings of a tag are rejected. */
  lemma TagIsCaseSensitive(team: Value, index: Value)
    ensures FromDict(map["team" := team, "index" := index,
                         "action" := Map(map["type" := Str("wait")])]) == NoMessage
  {
    assert Str("wait") != Str("WAIT");
  }

  /** `from_dict` reads only `team`, `index` and `action`: any other top-level
      key, `tmcp_version` included, can be added, changed or removed. */
  lemma FromDictIgnoresOtherKeys(r: Record, k: string, v: Value)
    requires k !in {"team", "index", "action"}
    ensures FromDict(r[k := v]) == FromDict(r)
    ensures FromDict(r - {k}) == FromDict(r)
  {
  }

  /** Keys of the action record that the variant does not use are ignored. */
  lemma FromDictIgnoresExtraActionKeys(r: Record, k: string, v: Value)
    requires "action" in r && r["action"].Map?
    requires "type" in r["action"].entries
    requires ParseActionType(r["action"].entries["type"]).Some?
    requires k != "type" && k !in PayloadKeys(ParseActionType(r["action"].entries["type"]).value)
    ensures FromDict(r["action" := Map(r["action"].entries[k := v])]) == FromDict(r)
  {
  }

  /** For example, a WAIT record that also carries a `time` still decodes. */
  lemma WaitWithTimeDecodes(version: Value, team: Value, index: Value, time: Value)
    ensures FromDict(map["tmcp_version" := version, "team" := team, "index" := index,
                         "action" := Map(map["type" := Str("WAIT"), "time" := time])])
            == Parsed(WaitAction(team, index))
  {
  }

  /** Each constructor builds its own variant; `ball_action` and
      `demo_action` default `time` to -1.0. */
  lemma ConstructorDefaults(team: Value, index: Value, target: Value)
    ensures BallAction(team, index) == TmcpMessage(team, index, Ball(Real(-1.0)))
    ensures DemoAction(team, index, target) == TmcpMessage(team, index, Demo(target, Real(-1.0)))
    ensures BoostAction(team, index, target).ActionTypeOf() == BOOST
    ensures WaitAction(team, index).ActionTypeOf() == WAIT
  {
  }
}
