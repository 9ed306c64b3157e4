/**
 * The Flask handlers of `app.py` over the process-wide channel list: reading
 * a channel's profile, replacing it (and saving the list), and summarising
 * a channel's Slack history between two ISO-8601 instants.  Requests are
 * handled one at a time.
 */
module ChannelApi {
  import opened Wrappers
  import opened PyText
  import opened JsonValues
  import opened CivilTime
  import ChannelService

  /** The first channel whose "id" equals the path id; a channel without "id" raises KeyError first. */
  datatype Lookup = Found(index: nat) | NotFound | MissingId(index: nat)

  /** A response: a JSON body with its status, or Flask's own 500 page after an uncaught exception. */
  datatype Reply = Reply(status: nat, body: JsonObject) | ServerError

  function FindFrom(chs: seq<JsonObject>, id: string, k: nat): (r: Lookup)
    requires k <= |chs|
    ensures r.Found? ==> k <= r.index < |chs| && "id" in chs[r.index] && chs[r.index]["id"] == JStr(id)
    ensures r.MissingId? ==> k <= r.index < |chs| && "id" !in chs[r.index]
    ensures forall i :: k <= i < |chs| && (r.NotFound? || i < r.index) ==> "id" in chs[i] && chs[i]["id"] != JStr(id)
    decreases |chs| - k
  {
    if k == |chs| then NotFound
    else if "id" !in chs[k] then MissingId(k)
    else if chs[k]["id"] == JStr(id) then Found(k)
    else FindFrom(chs, id, k + 1)
  }

  /**
   * The linear scan `for channel in channels: if channel["id"] == channel_id`:
   * the first channel with that id, unless a channel without "id" comes first.
   */
  function Find(chs: seq<JsonObject>, id: string): (r: Lookup)
    ensures r.Found? ==> r.index < |chs| && "id" in chs[r.index] && chs[r.index]["id"] == JStr(id)
    ensures r.MissingId? ==> r.index < |chs| && "id" !in chs[r.index]
    ensures forall i :: 0 <= i < |chs| && (r.NotFound? || i < r.index) ==> "id" in chs[i] && chs[i]["id"] != JStr(id)
  {
    FindFrom(chs, id, 0)
  }

  /** The scan depends only on the "id" fields: lists that agree on them scan alike. */
  lemma {:induction false} FindSameIds(a: seq<JsonObject>, b: seq<JsonObject>, id: string, k: nat)
    requires |a| == |b| && k <= |a|
    requires forall i :: 0 <= i < |a| ==> ("id" in a[i] <==> "id" in b[i]) && ("id" in a[i] ==> a[i]["id"] == b[i]["id"])
    ensures FindFrom(a, id, k) == FindFrom(b, id, k)
    decreases |a| - k
  {
    if k < |a| {
      FindSameIds(a, b, id, k + 1);
    }
  }

  const NotFoundBody: JsonObject := map["success" := JBool(false), "error" := JStr("Channel not found")]

  function Failure(status: nat, message: string): (r: Reply)
    ensures r.Reply? && r.status == status && r.body.Keys == {"success", "error"}
    ensures r.body["success"] == JBool(false) && r.body["error"] == JStr(message)
  {
    Reply(status, map["success" := JBool(false), "error" := JStr(message)])
  }

  /* ---------- GET /api/channels/<id>/profile ---------- */

  function ProfileReply(chs: seq<JsonObject>, id: string): Reply {
    match Find(chs, id)
    case Found(i) =>
      Reply(200, map["success" := JBool(true), "profile" := Get(chs[i], "profile", JNull), "name" := Get(chs[i], "name", JNull)])
    case NotFound => Reply(404, NotFoundBody)
    case MissingId(_) => ServerError
  }

  /** The profile and name answered are those of the first channel carrying the id. */
  lemma ProfileOfFirstMatch(chs: seq<JsonObject>, id: string, i: nat)
    requires i < |chs| && "id" in chs[i] && chs[i]["id"] == JStr(id)
    requires forall j :: 0 <= j < i ==> "id" in chs[j] && chs[j]["id"] != JStr(id)
    ensures ProfileReply(chs, id) ==
      Reply(200, map["success" := JBool(true), "profile" := Get(chs[i], "profile", JNull),
                     "name" := Get(chs[i], "name", JNull)])
  {
    var r := Find(chs, id);
    assert r.Found? && r.index == i;
  }

  /** With no channel carrying the id, the answer is 404 "Channel not found". */
  lemma ProfileNotFound(chs: seq<JsonObject>, id: string)
    requires forall j :: 0 <= j < |chs| ==> "id" in chs[j] && chs[j]["id"] != JStr(id)
    ensures ProfileReply(chs, id) == Reply(404, NotFoundBody)
  {
    assert Find(chs, id).NotFound?;
  }

  /* ---------- POST /api/channels/<id>/profile ---------- */

  /** `{"audience": data["audience"], "dataSources": data["dataSources"]}`; `None` when that raises. */
  function NewProfile(body: Json): (p: Option<JsonObject>)
    ensures p.Some? <==> body.JObj? && "audience" in body.fields && "dataSources" in body.fields
    ensures p.Some? ==>
      && p.value.Keys == {"audience", "dataSources"}
      && p.value["audience"] == body.fields["audience"] && p.value["dataSources"] == body.fields["dataSources"]
  {
    match body
    case JObj(m) =>
      if "audience" in m && "dataSources" in m then
        Some(map["audience" := m["audience"], "dataSources" := m["dataSources"]])
      else None
    case _ => None
  }

  /** The reply, the list afterwards, and whether it was saved. */
  datatype UpdateResult = UpdateResult(reply: Reply, channels: seq<JsonObject>, saved: bool)

  function Update(chs: seq<JsonObject>, id: string, body: Json): UpdateResult {
    match Find(chs, id)
    case MissingId(_) => UpdateResult(ServerError, chs, false)
    case NotFound => UpdateResult(Reply(404, NotFoundBody), chs, false)
    case Found(i) =>
      match NewProfile(body)
      case None => UpdateResult(ServerError, chs, false)
      case Some(p) =>
        UpdateResult(Reply(200, map["success" := JBool(true), "profile" := JObj(p)]),
                     chs[i := chs[i]["profile" := JObj(p)]], true)
  }

  /**
   * A successful update replaces the profile of the first matching channel
   * with exactly {audience, dataSources} from the body; every other channel,
   * and every other field of that one, is unchanged.
   */
  lemma UpdateFrame(chs: seq<JsonObject>, id: string, body: Json)
    requires Update(chs, id, body).saved
    ensures var u := Update(chs, id, body);
      var i := Find(chs, id).index;
      && Find(chs, id).Found? && NewProfile(body).Some?
      && |u.channels| == |chs|
      && (forall j :: 0 <= j < |chs| && j != i ==> u.channels[j] == chs[j])
      && u.channels[i].Keys == chs[i].Keys + {"profile"}
      && (forall k :: k in chs[i] && k != "profile" ==> u.channels[i][k] == chs[i][k])
      && u.channels[i]["profile"] == JObj(NewProfile(body).value)
      && (forall j :: 0 <= j < i ==> chs[j]["id"] != JStr(id))
  {
  }

  /** The list is saved when, and only when, a profile was replaced. */
  lemma SavedIffReplaced(chs: seq<JsonObject>, id: string, body: Json)
    ensures var u := Update(chs, id, body);
      && (u.saved <==> u.reply.Reply? && u.reply.status == 200)
      && (u.saved <==> Find(chs, id).Found? && NewProfile(body).Some?)
      && (!u.saved ==> u.channels == chs)
  {
  }

  /** An unknown id leaves the list alone and answers 404, whatever the body. */
  lemma UpdateUnknownId(chs: seq<JsonObject>, id: string, body: Json)
    requires forall i :: 0 <= i < |chs| ==> "id" in chs[i] && chs[i]["id"] != JStr(id)
    ensures Update(chs, id, body) == UpdateResult(Reply(404, NotFoundBody), chs, false)
  {
  }

  /** Reading the profile back after a successful update gives the new profile. */
  lemma GetAfterUpdate(chs: seq<JsonObject>, id: string, body: Json)
    requires Update(chs, id, body).saved
    ensures var i := Find(chs, id).index;
      ProfileReply(Update(chs, id, body).channels, id)
        == Reply(200, map["success" := JBool(true), "profile" := JObj(NewProfile(body).value), "name" := Get(chs[i], "name", JNull)])
  {
    var u := Update(chs, id, body);
    UpdateFrame(chs, id, body);
    FindSameIds(chs, u.channels, id, 0);
  }

  /** Sending the same update twice leaves the list as sending it once. */
  lemma UpdateIdempotent(chs: seq<JsonObject>, id: string, body: Json)
    ensures var once := Update(chs, id, body).channels;
      Update(once, id, body).channels == once
  {
    var u := Update(chs, id, body);
    if u.saved {
      UpdateFrame(chs, id, body);
      FindSameIds(chs, u.channels, id, 0);
      var i := Find(chs, id).index;
      assert u.channels[i]["profile" := JObj(NewProfile(body).value)] == u.channels[i];
    }
  }

  /* ---------- POST /api/channels/<id>/summarize ---------- */

  /** The LLM summary of the fetched conversation, or the exception it raised. */
  type Summarizer = seq<JsonObject> -> Attempt<string>

  /** Everything the handler calls out to. */
  datatype Services = Services(
    tool: ChannelService.HistoryTool,
    parse: JsonParser,
    fmt: ChannelService.TimeFormatter,
    summarize: Summarizer,
    render: string -> string,      // markdown2.markdown
    local: LocalTime)

  /** The arguments `fetch_slack_conversation` was called with. */
  datatype FetchCall = FetchCall(slackChannel: Json, oldest: string, latest: string)

  const NotConfigured := "Channel not found or not configured for Slack"

  /** `int(datetime.fromisoformat(v.replace('Z', '+00:00')).timestamp())`, or the exception's text. */
  function ToUnix(v: Json, local: LocalTime): (r: Attempt<int>)
    ensures v.JStr? ==> (r.Done? <==> IsoToUnix(v.s, local).Some?)
    ensures v.JStr? && r.Done? ==> r.value == IsoToUnix(v.s, local).value
  {
    if !v.JStr? then Failed(NoAttribute(v, "replace"))
    else
      var t := ReplaceAll(v.s, 'Z', "+00:00");
      match FromIsoFormat(t)
      case None => Failed("Invalid isoformat string: '" + t + "'")
      case Some(x) => Done(Timestamp(x, local))
  }

  datatype SummarizeResult = SummarizeResult(reply: Reply, fetched: Option<FetchCall>)

  function Summarize(chs: seq<JsonObject>, id: string, body: Json, env: Services): SummarizeResult {
    match Find(chs, id)
    case MissingId(_) => SummarizeResult(Failure(500, "'id'"), None)
    case NotFound => SummarizeResult(Failure(404, NotConfigured), None)
    case Found(i) =>
      if "slack_channel_id" !in chs[i] then SummarizeResult(Failure(404, NotConfigured), None)
      else SummarizeConfigured(chs[i]["slack_channel_id"], body, env)
  }

  /** The rest of the handler, once the channel and its Slack id are known. */
  function SummarizeConfigured(slackChannel: Json, body: Json, env: Services): SummarizeResult {
    if !body.JObj? then SummarizeResult(Failure(500, NoAttribute(body, "get")), None)
    else
      match ToUnix(Get(body.fields, "startTime", JNull), env.local)
      case Failed(e) => SummarizeResult(Failure(500, e), None)
      case Done(start) =>
        match ToUnix(Get(body.fields, "endTime", JNull), env.local)
        case Failed(e) => SummarizeResult(Failure(500, e), None)
        case Done(end) =>
          var call := FetchCall(slackChannel, IntToDecimal(start), IntToDecimal(end));
          match ChannelService.Conversation(env.tool(call.slackChannel, call.oldest, call.latest), env.parse, env.fmt)
          case Failed(e) => SummarizeResult(Failure(500, e), Some(call))
          case Done(conversation) =>
            match env.summarize(conversation)
            case Failed(e) => SummarizeResult(Failure(500, e), Some(call))
            case Done(md) => SummarizeResult(Success(env.render(md), md), Some(call))
  }

  function Success(html: string, md: string): (r: Reply)
    ensures r.Reply? && r.status == 200 && r.body.Keys == {"success", "summary", "markdown_summary"}
    ensures r.body["success"] == JBool(true)
  {
    Reply(200, map["success" := JBool(true), "summary" := JStr(html), "markdown_summary" := JStr(md)])
  }

  /** No channel with the id, or one without `slack_channel_id`: 404 and no fetch. */
  lemma SummarizeNotConfigured(chs: seq<JsonObject>, id: string, body: Json, env: Services)
    requires forall i :: 0 <= i < |chs| ==> "id" in chs[i]
    requires Find(chs, id).NotFound? || (Find(chs, id).Found? && "slack_channel_id" !in chs[Find(chs, id).index])
    ensures Summarize(chs, id, body, env) == SummarizeResult(Failure(404, NotConfigured), None)
  {
  }

  /** Every reply is JSON; it is a success exactly when the status is 200, and a fetch precedes every 200. */
  lemma SummarizeReplies(chs: seq<JsonObject>, id: string, body: Json, env: Services)
    ensures var r := Summarize(chs, id, body, env);
      && r.reply.Reply? && r.reply.status in {200, 404, 500}
      && "success" in r.reply.body
      && (r.reply.body["success"] == JBool(true) <==> r.reply.status == 200)
      && (r.reply.status != 200 ==> r.reply.body.Keys == {"success", "error"} && r.reply.body["error"].JStr?)
      && (r.reply.status == 200 ==> r.fetched.Some?)
      && (r.fetched.Some? ==> Find(chs, id).Found? && "slack_channel_id" in chs[Find(chs, id).index])
  {
    match Find(chs, id)
    case Found(i) =>
      if "slack_channel_id" in chs[i] {
        ConfiguredReplies(chs[i]["slack_channel_id"], body, env);
      }
    case _ =>
  }

  lemma ConfiguredReplies(slackChannel: Json, body: Json, env: Services)
    ensures var r := SummarizeConfigured(slackChannel, body, env);
      && r.reply.Reply? && r.reply.status in {200, 500}
      && (r.reply.status == 200 ==>
            r.reply.body.Keys == {"success", "summary", "markdown_summary"} && r.reply.body["success"] == JBool(true))
      && (r.reply.status == 500 ==>
            r.reply.body.Keys == {"success", "error"} && r.reply.body["success"] == JBool(false) && r.reply.body["error"].JStr?)
      && (r.reply.status == 200 ==> r.fetched.Some?)
  {
  }

  /** A failure of the fetch or of the summariser becomes a 500 carrying its message. */
  lemma UpstreamFailure(chs: seq<JsonObject>, id: string, body: Json, env: Services, e: string)
    requires Summarize(chs, id, body, env).fetched.Some?
    requires var c := Summarize(chs, id, body, env).fetched.value;
      ChannelService.Conversation(env.tool(c.slackChannel, c.oldest, c.latest), env.parse, env.fmt) == Failed(e)
    ensures Summarize(chs, id, body, env).reply == Failure(500, e)
  {
  }

  /**
   * 'Z'-suffixed instants reach the fetcher as the decimal Unix seconds of
   * their UTC date and time, whatever the host's time zone.
   */
  lemma SummarizeZulu(chs: seq<JsonObject>, id: string, env: Services, d1: Date, t1: TimeOfDay, d2: Date, t2: TimeOfDay)
    requires ValidDate(d1) && ValidTime(t1) && ValidDate(d2) && ValidTime(t2)
    requires Find(chs, id).Found? && "slack_channel_id" in chs[Find(chs, id).index]
    ensures var body := JObj(map["startTime" := JStr(DateText(d1) + "T" + TimeText(t1) + "Z"),
                                 "endTime" := JStr(DateText(d2) + "T" + TimeText(t2) + "Z")]);
      Summarize(chs, id, body, env).fetched
        == Some(FetchCall(chs[Find(chs, id).index]["slack_channel_id"],
                          IntToDecimal(UnixSeconds(d1, t1)), IntToDecimal(UnixSeconds(d2, t2))))
  {
    ZuluToUnix(d1, t1, env.local);
    ZuluToUnix(d2, t2, env.local);
  }

  /** 2024-01-01T00:00:00Z and 2024-01-02T00:00:00Z reach the fetcher as "1704067200" and "1704153600". */
  lemma SummarizeNewYear(chs: seq<JsonObject>, id: string, env: Services)
    requires Find(chs, id).Found? && "slack_channel_id" in chs[Find(chs, id).index]
    ensures var body := JObj(map["startTime" := JStr("2024-01-01T00:00:00Z"), "endTime" := JStr("2024-01-02T00:00:00Z")]);
      Summarize(chs, id, body, env).fetched
        == Some(FetchCall(chs[Find(chs, id).index]["slack_channel_id"], "1704067200", "1704153600"))
  {
    var d1, d2 := Date(2024, 1, 1), Date(2024, 1, 2);
    NewYearTexts();
    SummarizeZulu(chs, id, env, d1, Midnight, d2, Midnight);
    NewYear2024();
    NewYearDecimals();
  }

  lemma NewYearDecimals()
    ensures IntToDecimal(1704067200) == "1704067200"
    ensures IntToDecimal(1704153600) == "1704153600"
  {
    assert NatToDecimal(1) == "1";
    assert NatToDecimal(17) == "17";
    assert NatToDecimal(170) == "170";
    assert NatToDecimal(1704) == "1704";
    assert NatToDecimal(17040) == "17040";
    assert NatToDecimal(170406) == "170406";
    assert NatToDecimal(1704067) == "1704067";
    assert NatToDecimal(17040672) == "17040672";
    assert NatToDecimal(170406720) == "170406720";
    assert NatToDecimal(1704067200) == "1704067200";
    assert NatToDecimal(17041) == "17041";
    assert NatToDecimal(170415) == "170415";
    assert NatToDecimal(1704153) == "1704153";
    assert NatToDecimal(17041536) == "17041536";
    assert NatToDecimal(170415360) == "170415360";
    assert NatToDecimal(1704153600) == "1704153600";
  }

  /* ---------- the process-wide channel list ---------- */

  class ChannelRegistry {
    /** The global `channels` list. */
    var channels: seq<JsonObject>
    /** What `configs/channels.json` holds. */
    var stored: seq<JsonObject>
    /** How many times `save_channels` ran. */
    var saves: nat

    /** Start-up: the list read by `load_channels`. */
    constructor(loaded: seq<JsonObject>)
      ensures channels == loaded && stored == loaded && saves == 0
    {
      channels := loaded;
      stored := loaded;
      saves := 0;
    }

    /** The scan over the list. */
    method Locate(id: string) returns (r: Lookup)
      ensures r == Find(channels, id)
    {
      var i := 0;
      while i < |channels|
        invariant 0 <= i <= |channels|
        invariant FindFrom(channels, id, i) == Find(channels, id)
      {
        if "id" !in channels[i] {
          return MissingId(i);
        }
        if channels[i]["id"] == JStr(id) {
          return Found(i);
        }
        i := i + 1;
      }
      return NotFound;
    }

    /** `get_channel_profile(channel_id)`. */
    method GetChannelProfile(id: string) returns (r: Reply)
      ensures r == ProfileReply(channels, id)
    {
      var found := Locate(id);
      match found
      case Found(i) =>
        r := Reply(200, map["success" := JBool(true), "profile" := Get(channels[i], "profile", JNull),
                            "name" := Get(channels[i], "name", JNull)]);
      case NotFound =>
        r := Reply(404, NotFoundBody);
      case MissingId(_) =>
        r := ServerError;
    }

    /** `update_channel_profile(channel_id)` with request body `body`. */
    method UpdateChannelProfile(id: string, body: Json) returns (r: Reply)
      modifies this
      ensures var u := Update(old(channels), id, body);
        && r == u.reply && channels == u.channels
        && (u.saved ==> stored == channels && saves == old(saves) + 1)
        && (!u.saved ==> stored == old(stored) && saves == old(saves))
    {
      var found := Locate(id);
      match found
      case MissingId(_) =>
        r := ServerError;
      case NotFound =>
        r := Reply(404, NotFoundBody);
      case Found(i) =>
        var profile := NewProfile(body);
        if profile.None? {
          r := ServerError;
        } else {
          channels := channels[i := channels[i]["profile" := JObj(profile.value)]];
          stored := channels;
          saves := saves + 1;
          r := Reply(200, map["success" := JBool(true), "profile" := JObj(profile.value)]);
        }
    }

    /** `summarize_channel(channel_id)` with request body `body`. */
    method SummarizeChannel(id: string, body: Json, env: Services) returns (r: Reply, fetched: Option<FetchCall>)
      ensures SummarizeResult(r, fetched) == Summarize(channels, id, body, env)
    {
      fetched := None;
      var found := Locate(id);
      if found.MissingId? {
        r := Failure(500, "'id'");
        return;
      }
      if found.NotFound? || "slack_channel_id" !in channels[found.index] {
        r := Failure(404, NotConfigured);
        return;
      }
      if !body.JObj? {
        r := Failure(500, NoAttribute(body, "get"));
        return;
      }
      var start := ToUnix(Get(body.fields, "startTime", JNull), env.local);
      if start.Failed? {
        r := Failure(500, start.message);
        return;
      }
      var end := ToUnix(Get(body.fields, "endTime", JNull), env.local);
      if end.Failed? {
        r := Failure(500, end.message);
        return;
      }
      var call := FetchCall(channels[found.index]["slack_channel_id"], IntToDecimal(start.value), IntToDecimal(end.value));
      fetched := Some(call);
      var conversation := ChannelService.FetchSlackConversation(call.slackChannel, call.oldest, call.latest,
                                                                env.tool, env.parse, env.fmt);
      if conversation.Failed? {
        r := Failure(500, conversation.message);
        return;
      }
      var summary := env.summarize(conversation.value);
      if summary.Failed? {
        r := Failure(500, summary.message);
        return;
      }
      r := Success(env.render(summary.value), summary.value);
    }
  }
}
