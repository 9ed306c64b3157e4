/**
 * `fetch_slack_conversation` of the Flask service (`services/channel_service.py`):
 * the reply of the `get_channel_history` tool is decoded and its messages
 * are turned, one by one, into `{sender, text, timestamp}` records.  The MCP
 * call, `json.loads` and the host-time-zone rendering of `ts` are parameters.
 */
module ChannelService {
  import opened Wrappers
  import opened JsonValues

  /** The `get_channel_history` call: the text of the first content item, or the exception raised. */
  type HistoryTool = (Json, string, string) -> Attempt<string>

  /** `datetime.fromtimestamp(float(ts)).strftime("%Y-%m-%d %H:%M:%S")` in the host's time zone. */
  type TimeFormatter = Json -> Attempt<string>

  /** What the loop does with one message. */
  datatype Step = Skip | Emit(record: JsonObject) | Raise(message: string)

  const ChannelEvents: seq<Json> := [JStr("channel_name"), JStr("channel_join")]

  predicate IsChannelEvent(m: JsonObject) {
    Get(m, "subtype", JNull) in ChannelEvents
  }

  /** The sender rule: the bot's name, else "User <id>", else "Unknown". */
  function Sender(m: JsonObject): (r: Attempt<Json>)
    ensures r.Failed? <==> "bot_profile" in m && !m["bot_profile"].JObj?
    ensures r.Done? && "bot_profile" in m ==>
      r.value == Get(m["bot_profile"].fields, "name", JStr("Unknown Bot"))
    ensures r.Done? && "bot_profile" !in m ==>
      r.value == if "user" in m then JStr("User " + PyStr(m["user"])) else JStr("Unknown")
  {
    if "bot_profile" in m then
      match m["bot_profile"]
      case JObj(b) => Done(Get(b, "name", JStr("Unknown Bot")))
      case other => Failed(NoAttribute(other, "get"))
    else if "user" in m then Done(JStr("User " + PyStr(m["user"])))
    else Done(JStr("Unknown"))
  }

  /** One pass of the loop body on message `j`. */
  function Convert(j: Json, fmt: TimeFormatter): (s: Step)
    ensures s.Skip? <==> j.JObj? && IsChannelEvent(j.fields)
    ensures s.Emit? <==>
      && j.JObj? && !IsChannelEvent(j.fields) && Sender(j.fields).Done?
      && "ts" in j.fields && fmt(j.fields["ts"]).Done?
    ensures j.JObj? && !IsChannelEvent(j.fields) && Sender(j.fields).Done? && "ts" !in j.fields ==> s == Raise("'ts'")
    ensures s.Emit? ==>
      && j.JObj? && s.record.Keys == {"sender", "text", "timestamp"}
      && Sender(j.fields) == Done(s.record["sender"])
      && s.record["text"] == Get(j.fields, "text", JStr(""))
      && "ts" in j.fields && s.record["timestamp"].JStr?
      && fmt(j.fields["ts"]) == Done(s.record["timestamp"].s)
  {
    if !j.JObj? then Raise(NoAttribute(j, "get"))
    else if IsChannelEvent(j.fields) then Skip
    else
      var m := j.fields;
      match Sender(m)
      case Failed(e) => Raise(e)
      case Done(sender) =>
        var text := Get(m, "text", JStr(""));
        if "ts" !in m then Raise("'ts'")
        else
          match fmt(m["ts"])
          case Failed(e) => Raise(e)
          case Done(t) => Emit(map["sender" := sender, "text" := text, "timestamp" := JStr(t)])
  }

  /** The records the loop builds from `msgs`, or the first exception. */
  function Normalise(msgs: seq<Json>, fmt: TimeFormatter): Attempt<seq<JsonObject>> {
    if msgs == [] then Done([])
    else
      match Normalise(msgs[..|msgs| - 1], fmt)
      case Failed(e) => Failed(e)
      case Done(xs) =>
        match Convert(msgs[|msgs| - 1], fmt)
        case Skip => Done(xs)
        case Emit(r) => Done(xs + [r])
        case Raise(e) => Failed(e)
  }

  /** Iterating `raw["messages"]`: a list gives its items; strings and dicts give their (string) members. */
  function Iterate(j: Json, fmt: TimeFormatter): Attempt<seq<JsonObject>> {
    match j
    case JArr(items) => Normalise(items, fmt)
    case JStr(s) => if s == "" then Done([]) else Failed(NoAttribute(JStr(""), "get"))
    case JObj(m) => if m == map[] then Done([]) else Failed(NoAttribute(JStr(""), "get"))
    case _ => Failed("'" + PyTypeName(j) + "' object is not iterable")
  }

  /** The whole of `fetch_slack_conversation` after the tool call. */
  function Conversation(reply: Attempt<string>, parse: JsonParser, fmt: TimeFormatter): Attempt<seq<JsonObject>> {
    match reply
    case Failed(e) => Failed(e)
    case Done(text) =>
      match parse(text)
      case DecodeError(e) => Failed(e)
      case Parsed(top) =>
        if !top.JObj? then Failed(NoAttribute(top, "get"))
        else
          var raw := Get(top.fields, "result", JObj(map[]));
          if !raw.JObj? then Failed(NoAttribute(raw, "get"))
          else if Truthy(Get(raw.fields, "ok", JNull)) && "messages" in raw.fields then
            Iterate(raw.fields["messages"], fmt)
          else Done([])
  }

  /** One more message of a prefix that converted cleanly. */
  lemma NormalisePrefixStep(items: seq<Json>, i: nat, fmt: TimeFormatter)
    requires i < |items| && Normalise(items[..i], fmt).Done?
    ensures Normalise(items[..i + 1], fmt) ==
      match Convert(items[i], fmt)
      case Skip => Normalise(items[..i], fmt)
      case Emit(r) => Done(Normalise(items[..i], fmt).value + [r])
      case Raise(e) => Failed(e)
  {
    assert items[..i + 1][..i] == items[..i];
  }

  /** `fetch_slack_conversation(channel_id, start_dt, end_dt)`. */
  method FetchSlackConversation(channelId: Json, startDt: string, endDt: string, tool: HistoryTool,
                                parse: JsonParser, fmt: TimeFormatter)
    returns (out: Attempt<seq<JsonObject>>)
    ensures out == Conversation(tool(channelId, startDt, endDt), parse, fmt)
  {
    var reply := tool(channelId, startDt, endDt);
    if reply.Failed? {
      return Failed(reply.message);
    }
    var decoded := parse(reply.value);
    if decoded.DecodeError? {
      return Failed(decoded.message);
    }
    var top := decoded.value;
    if !top.JObj? {
      return Failed(NoAttribute(top, "get"));
    }
    var raw := Get(top.fields, "result", JObj(map[]));
    if !raw.JObj? {
      return Failed(NoAttribute(raw, "get"));
    }
    if !(Truthy(Get(raw.fields, "ok", JNull)) && "messages" in raw.fields) {
      return Done([]);
    }
    var msgs := raw.fields["messages"];
    if !msgs.JArr? {
      return Iterate(msgs, fmt);
    }
    var items := msgs.items;
    var conversation: seq<JsonObject> := [];
    for i := 0 to |items|
      invariant Normalise(items[..i], fmt) == Done(conversation)
    {
      NormalisePrefixStep(items, i, fmt);
      var step := Convert(items[i], fmt);
      match step
      case Skip =>
      case Emit(r) =>
        conversation := conversation + [r];
      case Raise(e) =>
        NormaliseFailedExtends(items, i + 1, fmt);
        return Failed(e);
    }
    assert items[..|items|] == items;
    return Done(conversation);
  }

  /** Once a prefix raises, the whole list raises the same exception. */
  lemma {:induction false} NormaliseFailedExtends(msgs: seq<Json>, k: nat, fmt: TimeFormatter)
    requires k <= |msgs| && Normalise(msgs[..k], fmt).Failed?
    ensures Normalise(msgs, fmt) == Normalise(msgs[..k], fmt)
    decreases |msgs| - k
  {
    if k < |msgs| {
      assert msgs[..k + 1][..k] == msgs[..k];
      NormaliseFailedExtends(msgs, k + 1, fmt);
    } else {
      assert msgs[..k] == msgs;
    }
  }

  /** The messages that are objects and not channel events, in order. */
  function Kept(msgs: seq<Json>): seq<JsonObject> {
    if msgs == [] then []
    else
      var m := msgs[|msgs| - 1];
      Kept(msgs[..|msgs| - 1]) + (if m.JObj? && !IsChannelEvent(m.fields) then [m.fields] else [])
  }

  /**
   * A run that does not raise emits exactly one record per kept message, in
   * the same order, and each record is the conversion of its message.
   */
  lemma {:induction false} NormaliseIsKept(msgs: seq<Json>, fmt: TimeFormatter)
    requires Normalise(msgs, fmt).Done?
    ensures |Normalise(msgs, fmt).value| == |Kept(msgs)|
    ensures forall j :: 0 <= j < |Kept(msgs)| ==> Convert(JObj(Kept(msgs)[j]), fmt) == Emit(Normalise(msgs, fmt).value[j])
  {
    if msgs != [] {
      var init, m := msgs[..|msgs| - 1], msgs[|msgs| - 1];
      NormaliseIsKept(init, fmt);
      match Convert(m, fmt)
      case Skip =>
      case Emit(r) =>
      case Raise(e) =>
    }
  }

  /** A run raises exactly when one of the messages cannot be converted. */
  lemma {:induction false} NormaliseFails(msgs: seq<Json>, fmt: TimeFormatter)
    ensures Normalise(msgs, fmt).Failed? <==> exists i :: 0 <= i < |msgs| && Convert(msgs[i], fmt).Raise?
  {
    if msgs != [] {
      var init, m := msgs[..|msgs| - 1], msgs[|msgs| - 1];
      NormaliseFails(init, fmt);
      NormaliseStep(msgs, fmt);
      if exists i :: 0 <= i < |init| && Convert(init[i], fmt).Raise? {
        var i :| 0 <= i < |init| && Convert(init[i], fmt).Raise?;
        assert msgs[i] == init[i];
      } else if Convert(m, fmt).Raise? {
        assert msgs[|msgs| - 1] == m;
      } else {
        forall i | 0 <= i < |msgs|
          ensures !Convert(msgs[i], fmt).Raise?
        {
          if i < |init| {
            assert msgs[i] == init[i];
            assert !Convert(init[i], fmt).Raise?;
          } else {
            assert msgs[i] == m;
          }
        }
      }
    }
  }

  /** The loop raises on a list exactly when it raises on all but the last message, or on the last. */
  lemma NormaliseStep(msgs: seq<Json>, fmt: TimeFormatter)
    requires msgs != []
    ensures Normalise(msgs, fmt).Failed? <==>
      Normalise(msgs[..|msgs| - 1], fmt).Failed? || Convert(msgs[|msgs| - 1], fmt).Raise?
  {
  }

  /** A reply that is not `ok`, or has no "messages", gives an empty conversation. */
  lemma NotOkIsEmpty(text: string, parse: JsonParser, fmt: TimeFormatter, raw: JsonObject, top: JsonObject)
    requires parse(text) == Parsed(JObj(top)) && Get(top, "result", JObj(map[])) == JObj(raw)
    requires !Truthy(Get(raw, "ok", JNull)) || "messages" !in raw
    ensures Conversation(Done(text), parse, fmt) == Done([])
  {
  }

  /** `"result": null` makes the next `.get` raise instead of giving an empty list. */
  lemma NullResultRaises(text: string, parse: JsonParser, fmt: TimeFormatter, top: JsonObject)
    requires parse(text) == Parsed(JObj(top)) && "result" in top && top["result"] == JNull
    ensures Conversation(Done(text), parse, fmt) == Failed(NoAttribute(JNull, "get"))
  {
  }
}
