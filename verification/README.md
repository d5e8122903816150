# TMCP helper — a Dafny model

A model of the Python helper for the Team Match Communication Protocol
(TMCP): the bots of one RLBot team broadcast short intent messages over
match comms ("going for the ball", "taking boost pad 12", ...). The model
covers the three pieces of the helper:

- **Message codec** (`message.dfy`, modules `Codec` and `CodecProperties`):
  the four action variants BALL, BOOST, DEMO and WAIT, their constructors
  with the -1.0 default time, `to_dict` (`Codec.ToDict`) and `from_dict`
  (`Codec.FromDict`). A raw record is a `map<string, Value>` where `Value`
  is an int, a float, a string, a list or a nested record (`values.dfy`).
  `from_dict` has three outcomes: a message, `None` (a `KeyError` or
  `ValueError` was caught), or a `TypeError` that escapes, which is what
  Python does when `team`, `index` and `action` are all present and
  `action` is not a dict.
- **Channel handler** (`handler.dfy`, `handler_properties.dfy`, modules
  `Channel` and `ChannelProperties`): the handler's fields are an immutable
  `HandlerState`; the outgoing and incoming broadcast queues are sequences of
  records, oldest first; the clock reading `perf_counter()` is the parameter
  `now`. `send` rate-limits on `last_time`; `recv` pops at most 50 records and
  stops at an empty queue; `parse` drops records of another protocol version
  or another team before decoding. The comparisons in `parse` are Python's
  `!=`, modelled by `Values.PyEq` (so a team sent as `1.0` is accepted by a
  handler of team `1`). A `TypeError` raised while parsing a record escapes
  `recv`: the records popped so far are gone and the messages parsed so far
  are lost (`Channel.RecvResult.RecvRaises`).
- **Direction converter** (`convert.dfy`, modules `Direction` and
  `DirectionProperties`): `try_convert_direction`. The duck-typed argument is
  a `DirectionInput` recording which of the attributes `data`, `__getitem__`
  (with the elements `list(...)` yields), `x`, `y`, `z` it has. `float(...)`
  is a partial conversion of a `Value`, raising `TypeError` or `ValueError`.

`TMCP_VERSION` is imported by `tmcp/handler.py` from the package, but no
file of the package defines it; the model treats it as an arbitrary value:
the `version` field of `HandlerState` and the `version` argument of
`Codec.ToDict`.

The model follows the code as it stands: it has no READY or DEFEND variant, no `direction` field in
messages, no disable switch, case-sensitive tag matching, and `from_dict`
neither looks at `tmcp_version` nor checks the types of `team`, `index`,
`time` or `target`.

## Model

| member | source | states |
|---|---|---|
| Values.PyEq | tmcp/handler.py:78-82 | Python's `==` between record values: values of different kinds are never equal except an int and a float, equal lists have equal lengths and equal dicts equal key sets |
| Values.PyEqReflexive | tmcp/handler.py:78-82 | every value is `==` to itself, so a record carrying exactly the local version passes the version check |
| Values.PyEqSymmetric | tmcp/handler.py:78-82 | Python's `==` on record values is symmetric, so the order of the operands in `parse` does not matter |
| Values.PyEqIntOnlyNumbers | tmcp/handler.py:81-82 | a value equals the int team exactly when it is that int or the float of the same magnitude |
| Codec.ParseActionType | tmcp/message.py:7-11 | `ActionType(v)` succeeds only on the exact upper-case string of the tag it returns |
| Codec.BallAction | tmcp/message.py:29-33 | builds a BALL message with the given team, index and time (-1.0 when omitted, see `ConstructorDefaults`) |
| Codec.BoostAction | tmcp/message.py:35-39 | builds a BOOST message with the given team, index and target |
| Codec.DemoAction | tmcp/message.py:41-48 | builds a DEMO message with the given team, index, target and time (-1.0 when omitted) |
| Codec.WaitAction | tmcp/message.py:50-53 | builds a WAIT message with the given team and index and no payload |
| Codec.ActionRecord | tmcp/message.py:80-97 | the action record has exactly `type` plus the variant's own keys, `type` is the variant's upper-case tag, and `time`/`target` hold the message's values |
| Codec.ToDict | tmcp/message.py:79-106 | the record has exactly the keys `tmcp_version`, `team`, `index`, `action`; `action` is a record whose keys are `type` plus the variant's own fields (BALL `time`, BOOST `target`, DEMO `target` and `time`, WAIT none) and whose `type` is the variant's upper-case tag |
| Codec.DecodeAction | tmcp/message.py:64-73 | a known tag yields a message exactly when every field the variant needs is present, and never raises; the message is of that variant, carries the given team and index, and its `time`/`target` are the record's `action["time"]`/`action["target"]` |
| Codec.FromDict | tmcp/message.py:55-77 | a `TypeError` escapes exactly when `team`, `index` and `action` are present and `action` is not a record; a decoded message carries the record's team and index, the variant named by `action.type`, and the record's `time`/`target` values, all of which were present |
| CodecProperties.RoundTrip | tmcp/message.py:29-106 | for every message and every version, `from_dict(to_dict(m))` gives back `m`: same team, index, action type and payload |
| CodecProperties.TagMatchIsExact | tmcp/message.py:7-11 | a tag value is accepted as a variant if and only if it is exactly that variant's upper-case name |
| CodecProperties.FromDictNoMessageExactly | tmcp/message.py:56-77 | `from_dict` returns `None` if and only if `team`, `index` or `action` is missing, or `action` is a record missing `type`, with an unknown tag, or missing a field the variant needs |
| CodecProperties.TagIsCaseSensitive | tmcp/message.py:62 | a record with tag `"wait"` decodes to nothing |
| CodecProperties.FromDictIgnoresOtherKeys | tmcp/message.py:56-74 | adding, changing or removing any top-level key other than `team`, `index`, `action` (including `tmcp_version`) does not change what `from_dict` returns |
| CodecProperties.FromDictIgnoresExtraActionKeys | tmcp/message.py:61-71 | adding a key to the action record that is neither `type` nor a field of the named variant does not change what `from_dict` returns |
| CodecProperties.WaitWithTimeDecodes | tmcp/message.py:70-71 | a WAIT record that also carries `time` still decodes to a WAIT message |
| CodecProperties.ConstructorDefaults | tmcp/message.py:29-53 | each constructor builds its own variant; `ball_action` and `demo_action` without a time use -1.0 |
| Channel.NewHandler | tmcp/handler.py:48-52 | a new handler has the agent's team and index, the given protocol version, and `last_time` 0.0 |
| Channel.Send | tmcp/handler.py:54-62 | `send` returns false, pushes nothing and keeps `last_time` exactly when `now - last_time < 0.1`; otherwise it appends exactly one record, `to_dict(message)`, sets `last_time` to `now` and returns true |
| Channel.Parse | tmcp/handler.py:76-84 | a record with missing or different `tmcp_version`, or missing or different `team`, parses to nothing; otherwise parsing is `from_dict`; any parsed message's team equals the handler's team |
| Channel.Collect | tmcp/handler.py:67-71 | the messages kept from a batch number at most the batch's records and all belong to the handler's team |
| Channel.FirstRaise | tmcp/handler.py:67-73 | the position of the first record whose parse raises: no earlier record raises and that one does |
| Channel.RecvSpec | tmcp/handler.py:64-74 | the reference `recv` always leaves a suffix of the incoming queue queued |
| Channel.RecvSpecBounds | tmcp/handler.py:64-74 | the reference `recv` returns at most 50 messages, all of the handler's team, leaves all but the first `min(n, 50)` records queued, and an escaping error consumes the raising record and at most 50 |
| Channel.RecvSpecRaisesAt | tmcp/handler.py:67-73 | when the record at position k < min(n, 50) is the first whose parse raises, `recv` raises with the records after it still queued |
| Channel.RecvSpecCompletes | tmcp/handler.py:67-74 | when none of the first min(n, 50) records raises, `recv` returns the filter-map of exactly those records and leaves the rest queued |
| Channel.Recv | tmcp/handler.py:64-74 | the loop agrees with the reference `RecvSpec`: at most 50 records consumed, parsed messages returned in arrival order, unconsumed suffix left queued, every message of the handler's team, and an escaping `TypeError` consumes the records up to and including the raising one |
| Channel.SendBallAction | tmcp/handler.py:86-95 | a sent ball action pushes one record, after those queued, equal to `to_dict` of the message with the handler's `tmcp_version`, which decodes to a BALL message of the handler's team and index with the given time, or -1.0 when none is given; pushes nothing and keeps the handler unchanged otherwise; like `send`, it sends exactly when `now - last_time >= 0.1` and then sets `last_time` to `now` |
| Channel.SendBoostAction | tmcp/handler.py:97-102 | a sent boost action pushes one record, after those queued, equal to `to_dict` of the message with the handler's `tmcp_version`, which decodes to a BOOST message of the handler's team and index with the given target; pushes nothing and keeps the handler unchanged otherwise; like `send`, it sends exactly when `now - last_time >= 0.1` and then sets `last_time` to `now` |
| Channel.SendDemoAction | tmcp/handler.py:104-114 | a sent demo action pushes one record, after those queued, equal to `to_dict` of the message with the handler's `tmcp_version`, which decodes to a DEMO message with the given target and the given time, or -1.0 when none is given; pushes nothing and keeps the handler unchanged otherwise; like `send`, it sends exactly when `now - last_time >= 0.1` and then sets `last_time` to `now` |
| Channel.SendWaitAction | tmcp/handler.py:116-120 | a sent wait action pushes one record, after those queued, equal to `to_dict` of the message with the handler's `tmcp_version`, which decodes to a WAIT message of the handler's team and index; pushes nothing and keeps the handler unchanged otherwise; like `send`, it sends exactly when `now - last_time >= 0.1` and then sets `last_time` to `now` |
| ChannelProperties.ParseOwnVersion | tmcp/handler.py:76-84 | a record encoded with the handler's version passes `parse` exactly when its team equals the handler's team, and then decodes to the message encoded |
| ChannelProperties.VersionGate | tmcp/handler.py:77-79 | a record of another protocol version is dropped by `parse` although `from_dict` alone decodes it |
| ChannelProperties.TeamGate | tmcp/handler.py:80-82 | a current-version record from another team is dropped by `parse` |
| ChannelProperties.CollectAppend | tmcp/handler.py:67-71 | the filter over consecutive stretches of the queue is the concatenation of the filters: arrival order is kept |
| ChannelProperties.CollectSingle | tmcp/handler.py:69-71 | a single record contributes its parsed message, or nothing when it parses to nothing |
| ChannelProperties.RecvConsumesAtMostFifty | tmcp/handler.py:12-73 | a completed `recv` leaves exactly the records after the first 50 (or none) queued |
| ChannelProperties.RecvRaisesExactly | tmcp/handler.py:67-73 | `recv` lets a `TypeError` escape if and only if one of the first min(n, 50) records raises when parsed |
| ChannelProperties.CollectAllDropped | tmcp/handler.py:67-71 | a batch whose records all parse to nothing contributes no message |
| ChannelProperties.RejectedRecordsCount | tmcp/handler.py:67-71 | fifty dropped records at the head of the queue use up a whole `recv`: it returns nothing and leaves the rest queued |
| ChannelProperties.RecvTwice | tmcp/handler.py:64-74 | two completed `recv` calls return together the filter of the records they consumed, in arrival order, and leave a suffix of the queue |
| ChannelProperties.FirstSend | tmcp/handler.py:52-62 | a new handler (`last_time` 0.0) sends its first message only once the clock reads at least 0.1 |
| ChannelProperties.SendAllSpaced | tmcp/handler.py:13-62 | over any run of `send` calls, records are pushed at clock readings at least 0.1 apart, the first at least 0.1 after the initial `last_time`, one per successful call, after the records already queued, and `last_time` is the last successful reading |
| ChannelProperties.RateLimitScenario | tmcp/handler.py:57-62 | of three sends at t, t+0.05 and t+0.1 the first and third go out and the second is refused without pushing |
| ChannelProperties.DefaultTimeSent | tmcp/handler.py:86-114 | `send_ball_action()` and `send_demo_action(target)` without a time push a record whose time is -1.0 |
| Direction.Float | tmcp/convert.py:31 | `float` of an int or float is its value; of a list or dict it raises `TypeError`; of a string it raises `ValueError` exactly when the literal cannot be read, and otherwise returns the literal's value |
| Direction.FloatAll | tmcp/convert.py:28-32 | the conversion loop succeeds if and only if every axis converts, then converts element-wise in order; otherwise it raises the error of the first axis that does not convert |
| Direction.Coordinates | tmcp/convert.py:14-23 | an indexable gives its elements; otherwise both `x` and `y` give `[x, y]` or `[x, y, z]`; with neither there are no coordinates |
| Direction.TryConvertDirection | tmcp/convert.py:4-34 | any successful result has exactly three components |
| DirectionProperties.FloatAllOf | tmcp/convert.py:28-32 | when `float` maps each axis to a real, the loop returns exactly those reals in order |
| DirectionProperties.ConvertSucceedsExactly | tmcp/convert.py:4-34 | conversion succeeds if and only if two or three coordinates are found and every one converts with `float` |
| DirectionProperties.ConvertPair | tmcp/convert.py:25-32 | two coordinates `[a, b]` give `[float(a), float(b), 0.0]` |
| DirectionProperties.ConvertTriple | tmcp/convert.py:28-32 | three coordinates give `[float(a), float(b), float(c)]`, in order |
| DirectionProperties.ConvertRejectsOtherLengths | tmcp/convert.py:25-34 | any other number of coordinates raises `TypeError`; longer inputs are not truncated |
| DirectionProperties.ConvertRejectsShapeless | tmcp/convert.py:15-34 | an input neither indexable nor with both `x` and `y` raises `TypeError` |
| DirectionProperties.ConvertAttributes | tmcp/convert.py:19-32 | an object with `x` and `y` converts to `[x, y, 0.0]`, or with `z` to `[x, y, z]` |
| DirectionProperties.DataUnwrappedOnce | tmcp/convert.py:11-12 | a `data` attribute is unwrapped first and only once: the result is that of the wrapped object with its own `data` ignored |
| DirectionProperties.IndexableTakesPrecedence | tmcp/convert.py:15-19 | an indexable input converts the same whatever `x`, `y`, `z` attributes it also has |
| DirectionProperties.ConvertIdempotent | tmcp/convert.py:4-34 | converting the list a conversion produced gives the same three floats |

## Left out

- Channel.Send: the clock and `last_time` are exact reals, and the interval is exactly one tenth; the source computes `now - last_time` in IEEE doubles against the double nearest 0.1.
- The rlbot `BaseAgent` and `MatchcommsClient` objects and the `queue` module: the two broadcast queues are sequences, `get_nowait` on an empty queue ends the loop, and `put_nowait` never fails (a full outgoing queue is not modelled).
- `perf_counter()`: the clock reading is the parameter `now` of `Channel.Send` and the send wrappers.
- Records that are not dicts (where `message.get` would raise `AttributeError`): a record is always a `map<string, Value>`.
- Booleans and `None` as record values, and Python's `True == 1`: `Value` has no such kinds. Floats are exact reals, so NaN (never equal to itself) does not arise.
- `TMCPMessage.__repr__`: string formatting only.
- Codec.TmcpMessage: the public `TMCPMessage(team, index, action_type)` constructor can build a message without its `time`/`target` attribute, on which `to_dict` raises `AttributeError`, or with an `action_type` that is not an `ActionType`, on which `to_dict` reaches `raise NotImplementedError`; the model's message always carries the payload of its variant, so `Codec.ToDict` is total and neither error path is modelled.
- Direction.Float: `float` of a string is the parameter `parseLiteral`, standing for the interpreter's literal reader; `OverflowError` for ints too large for a double and objects with a custom `__float__` are not modelled. Results are exact reals: `float("inf")` and `float("nan")` succeed in Python with values no real can hold, and `float` of an int above 2^53 rounds where the model returns the int exactly.
- Direction.TryConvertDirection: `list(direction)` is taken as already done (the `items` field); iteration errors of exotic indexables are not modelled.
- `tmcp/type_check.py`: a decorator based on runtime reflection over type hints; nothing in the core uses it.
- `setup.py` and `tmcp/__init__.py`: packaging and re-exports.
