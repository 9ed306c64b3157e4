/**
 * The command-line summariser (`part1/minimal.py`): where the conversation
 * comes from (a JSON file, or one of three Slack tools), and the transcript
 * handed to the model.  The MCP call, the file system and `json.load(s)` are
 * parameters; printing and the summary call itself are left out.
 */
module MinimalCli {
  import opened Wrappers
  import opened PyText
  import opened JsonValues

  /** The parsed command line (`--api_key` is required but plays no part here). */
  datatype Args = Args(channel: Option<string>, thread: Option<string>, messageTimestamp: Option<string>,
                       file: Option<string>)

  /** One MCP tool call: its name and arguments. */
  datatype ToolCall = ToolCall(tool: string, args: map<string, string>)

  /** The exceptions `main` can end with before the summary. */
  datatype PyError =
    | FileNotFound(message: string)
    | ValueError(message: string)
    | AttributeError(message: string)
    | TypeError(message: string)
    | Upstream(message: string)        // whatever the MCP call raised

  datatype Source = FromFile(path: string) | FromSlack(call: ToolCall) | NoSource

  /** Everything `main` reaches outside itself. */
  datatype World = World(
    files: string -> Option<string>,          // a file's text, `None` when it does not exist
    callTool: ToolCall -> Attempt<string>,    // the text of the tool's first content item
    parse: JsonParser)

  /** `if x:` on an optional string argument. */
  predicate Given(x: Option<string>) {
    x.Some? && x.value != ""
  }

  /** The tool `fetch_slack_conversation` calls: by message timestamp, else by thread, else the channel. */
  function SelectTool(channel: string, threadTs: Option<string>, messageTs: Option<string>): (c: ToolCall)
    ensures Given(messageTs) ==>
      && c.tool == "slack_get_message_by_timestamp"
      && c.args.Keys == {"instructions", "channelId", "messageTimestamp"}
      && c.args["channelId"] == channel && c.args["messageTimestamp"] == messageTs.value
    ensures !Given(messageTs) && Given(threadTs) ==>
      && c.tool == "slack_retrieve_thread_messages"
      && c.args.Keys == {"instructions", "threadTs", "channelId"}
      && c.args["channelId"] == channel && c.args["threadTs"] == threadTs.value
    ensures !Given(messageTs) && !Given(threadTs) ==>
      && c.tool == "slack_get_message_2"
      && c.args.Keys == {"instructions", "channel"} && c.args["channel"] == channel
  {
    if Given(messageTs) then
      ToolCall("slack_get_message_by_timestamp",
               map["instructions" := "Retrieve a specific message using its timestamp",
                   "channelId" := channel, "messageTimestamp" := messageTs.value])
    else if Given(threadTs) then
      ToolCall("slack_retrieve_thread_messages",
               map["instructions" := "Retrieve messages from the specified thread",
                   "threadTs" := threadTs.value, "channelId" := channel])
    else
      ToolCall("slack_get_message_2",
               map["instructions" := "Get messages from the specified channel", "channel" := channel])
  }

  /** One transcript line: `- <user>: <text>` with "Unknown" and "" as defaults. */
  function Line(m: JsonObject): string {
    "- " + PyStr(Get(m, "user", JStr("Unknown"))) + ": " + PyStr(Get(m, "text", JStr("")))
  }

  /** The lines of the list comprehension, or the error of its first non-object message. */
  function Lines(msgs: seq<Json>): (r: Attempt<seq<string>>)
    ensures r.Done? <==> forall i :: 0 <= i < |msgs| ==> msgs[i].JObj?
    ensures r.Done? ==> |r.value| == |msgs| && forall i :: 0 <= i < |msgs| ==> r.value[i] == Line(msgs[i].fields)
  {
    if msgs == [] then Done([])
    else
      var m := msgs[|msgs| - 1];
      assert forall i :: 0 <= i < |msgs| - 1 ==> msgs[..|msgs| - 1][i] == msgs[i];
      match Lines(msgs[..|msgs| - 1])
      case Failed(e) => Failed(e)
      case Done(ls) =>
        if m.JObj? then Done(ls + [Line(m.fields)]) else Failed(NoAttribute(m, "get"))
  }

  /** What `main` ends with: the transcript to summarise, or an exception. */
  datatype Outcome = Transcript(text: string) | Raised(error: PyError)

  /** The formatted conversation built from `conversation_data`. */
  function Format(data: Json): Outcome {
    if !data.JObj? then Raised(AttributeError(NoAttribute(data, "get")))
    else
      match Get(data.fields, "messages", JArr([]))
      case JArr(msgs) =>
        if Lines(msgs).Failed? then Raised(AttributeError(Lines(msgs).message))
        else Transcript(Join(Lines(msgs).value, "\n"))
      case JStr(s) =>
        // iterating a string gives one-character strings, which have no `get`
        if s == "" then Transcript("") else Raised(AttributeError(NoAttribute(JStr(s), "get")))
      case JObj(m) =>
        // iterating a dict gives its keys, which are strings
        if m == map[] then Transcript("") else Raised(AttributeError(NoAttribute(JStr(""), "get")))
      case other => Raised(TypeError("'" + PyTypeName(other) + "' object is not iterable"))
  }

  datatype Run = Run(source: Source, outcome: Outcome)

  /** `main` up to the summary: the source chosen, then the transcript or the exception. */
  function Main(a: Args, w: World): Run {
    if Given(a.file) then
      var path := a.file.value;
      match w.files(path)
      case None => Run(FromFile(path), Raised(FileNotFound("Could not find conversation file at " + path)))
      case Some(text) =>
        match w.parse(text)
        case DecodeError(_) => Run(FromFile(path), Raised(ValueError("Invalid JSON format in file " + path)))
        case Parsed(data) => Run(FromFile(path), Format(data))
    else if !Given(a.channel) then
      Run(NoSource, Raised(ValueError("Either --file or --channel must be provided")))
    else
      var call := SelectTool(a.channel.value, a.thread, a.messageTimestamp);
      match w.callTool(call)
      case Failed(e) => Run(FromSlack(call), Raised(Upstream(e)))
      case Done(text) =>
        match w.parse(text)
        case DecodeError(e) => Run(FromSlack(call), Raised(ValueError(e)))
        case Parsed(data) => Run(FromSlack(call), Format(data))
  }

  /** `--file` wins over `--channel`: with a file, no Slack tool is called. */
  lemma FileTakesPrecedence(a: Args, w: World)
    requires Given(a.file)
    ensures Main(a, w).source == FromFile(a.file.value)
  {
  }

  /** With neither `--file` nor `--channel`, ValueError is raised before any fetch. */
  lemma NeitherSource(a: Args, w: World)
    requires !Given(a.file) && !Given(a.channel)
    ensures Main(a, w) == Run(NoSource, Raised(ValueError("Either --file or --channel must be provided")))
  {
  }

  /** A missing file surfaces as FileNotFoundError, malformed JSON as ValueError, both naming the path. */
  lemma FileErrors(a: Args, w: World)
    requires Given(a.file)
    ensures var p := a.file.value;
      && (w.files(p).None? ==> Main(a, w).outcome == Raised(FileNotFound("Could not find conversation file at " + p)))
      && (w.files(p).Some? && w.parse(w.files(p).value).DecodeError? ==>
            Main(a, w).outcome == Raised(ValueError("Invalid JSON format in file " + p)))
  {
  }

  /** Exactly one of the three tools is called, chosen by the timestamps given. */
  lemma ChannelDispatch(a: Args, w: World)
    requires !Given(a.file) && Given(a.channel)
    ensures Main(a, w).source.FromSlack?
    ensures Main(a, w).source.call.tool ==
      if Given(a.messageTimestamp) then "slack_get_message_by_timestamp"
      else if Given(a.thread) then "slack_retrieve_thread_messages"
      else "slack_get_message_2"
  {
  }

  /** No "messages" key gives an empty transcript. */
  lemma NoMessagesEmpty(data: JsonObject)
    requires "messages" !in data
    ensures Format(JObj(data)) == Transcript("")
  {
  }

  /**
   * When no user or text has a line break, the transcript splits back, line
   * by line, into one `- <user>: <text>` line per message, in order.
   */
  lemma TranscriptLines(data: JsonObject, msgs: seq<JsonObject>)
    requires "messages" in data && data["messages"] == JArr(seq(|msgs|, i requires 0 <= i < |msgs| => JObj(msgs[i])))
    requires |msgs| >= 1
    requires forall i :: 0 <= i < |msgs| ==> '\n' !in Line(msgs[i])
    ensures Format(JObj(data)).Transcript?
    ensures Split(Format(JObj(data)).text, '\n') == seq(|msgs|, i requires 0 <= i < |msgs| => Line(msgs[i]))
  {
    var items := data["messages"].items;
    var ls := Lines(items).value;
    assert ls == seq(|msgs|, i requires 0 <= i < |msgs| => Line(msgs[i]));
    SplitJoin(ls, '\n');
  }
}
