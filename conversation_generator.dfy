/**
 * The Gradio conversation generator (`part1/minimal_gradio.py`,
 * `generate_slack_conversation`): the participant list read from a
 * comma-separated field, and the reply of the model turned into the text
 * shown, or into one of three error strings.  The model call is a parameter.
 */
module ConversationGenerator {
  import opened Wrappers
  import opened PyText
  import opened JsonValues

  /** `[p.strip() for p in participants_str.split(',')]`. */
  function Participants(s: string): (ps: seq<string>)
    ensures |ps| == |Split(s, ',')|
    ensures forall i :: 0 <= i < |ps| ==> ps[i] == Strip(Split(s, ',')[i])
  {
    var pieces := Split(s, ',');
    seq(|pieces|, i requires 0 <= i < |pieces| => Strip(pieces[i]))
  }

  /** There is one participant more than there are commas, empty pieces included. */
  lemma ParticipantCount(s: string)
    ensures |Participants(s)| == Occurrences(s, ',') + 1
  {
    SplitCount(s, ',');
  }

  /** No participant has a comma, or whitespace at either end. */
  lemma ParticipantsClean(s: string, i: nat)
    requires i < |Participants(s)|
    ensures ',' !in Participants(s)[i]
    ensures var p := Participants(s)[i]; p == [] || (!IsSpace(p[0]) && !IsSpace(p[|p| - 1]))
    ensures exists k :: TrimmedAt(Split(s, ',')[i], Participants(s)[i], k)
  {
    var piece := Split(s, ',')[i];
    SplitPiecesFree(s, ',');
    StripIsTrimmedMiddle(piece);
    var k :| TrimmedAt(piece, Strip(piece), k);
  }

  /** `str(e)` of the TypeError raised by `v['user']` on a value that is not a dict. */
  function NotSubscriptable(v: Json): string {
    match v
    case JStr(_) => "string indices must be integers, not 'str'"
    case JArr(_) => "list indices must be integers or slices, not str"
    case _ => "'" + PyTypeName(v) + "' object is not subscriptable"
  }

  /** `f"{message['user']}: {message['text']}\n\n"`, or the text of what it raises. */
  function Entry(m: Json): (r: Attempt<string>)
    ensures r.Done? <==> m.JObj? && "user" in m.fields && "text" in m.fields
    ensures r.Done? ==> r.value == PyStr(m.fields["user"]) + ": " + PyStr(m.fields["text"]) + "\n\n"
  {
    if !m.JObj? then Failed(NotSubscriptable(m))
    else if "user" !in m.fields then Failed("'user'")
    else if "text" !in m.fields then Failed("'text'")
    else Done(PyStr(m.fields["user"]) + ": " + PyStr(m.fields["text"]) + "\n\n")
  }

  /** The text the loop accumulates over `msgs`, or the first exception. */
  function Formatted(msgs: seq<Json>): Attempt<string> {
    if msgs == [] then Done("")
    else
      match Formatted(msgs[..|msgs| - 1])
      case Failed(e) => Failed(e)
      case Done(t) =>
        match Entry(msgs[|msgs| - 1])
        case Failed(e) => Failed(e)
        case Done(line) => Done(t + line)
  }

  /** The `for message in conversation: formatted_conversation += ...` loop. */
  method FormatConversation(msgs: seq<Json>) returns (out: Attempt<string>)
    ensures out == Formatted(msgs)
  {
    var text := "";
    for i := 0 to |msgs|
      invariant Formatted(msgs[..i]) == Done(text)
    {
      assert msgs[..i + 1][..i] == msgs[..i];
      var entry := Entry(msgs[i]);
      if entry.Failed? {
        assert Formatted(msgs[..i + 1]) == Failed(entry.message);
        FormattedFailedExtends(msgs, i + 1);
        return Failed(entry.message);
      }
      text := text + entry.value;
    }
    assert msgs[..|msgs|] == msgs;
    return Done(text);
  }

  lemma {:induction false} FormattedFailedExtends(msgs: seq<Json>, k: nat)
    requires k <= |msgs| && Formatted(msgs[..k]).Failed?
    ensures Formatted(msgs) == Formatted(msgs[..k])
    decreases |msgs| - k
  {
    if k < |msgs| {
      assert msgs[..k + 1][..k] == msgs[..k];
      FormattedFailedExtends(msgs, k + 1);
    } else {
      assert msgs[..k] == msgs;
    }
  }

  /** Formatting keeps message order: the text of `a + b` is that of `a` followed by that of `b`. */
  lemma {:induction false} FormattedAppend(a: seq<Json>, b: seq<Json>)
    requires Formatted(a).Done? && Formatted(b).Done?
    ensures Formatted(a + b) == Done(Formatted(a).value + Formatted(b).value)
  {
    if b == [] {
      assert a + b == a;
      assert Formatted(a).value + "" == Formatted(a).value;
    } else {
      var init, last := b[..|b| - 1], b[|b| - 1];
      assert b == init + [last];
      ConcatAssoc(a, init, [last]);
      FormattedSnoc(init, last);
      FormattedAppend(a, init);
      FormattedSnoc(a + init, last);
      var x, y, z := Formatted(a).value, Formatted(init).value, Entry(last).value;
      assert Formatted(b) == Done(y + z);
      assert Formatted(a + b) == Done((x + y) + z);
      ConcatAssoc(x, y, z);
    }
  }

  /** Appending one well-formed message appends its block. */
  lemma FormattedSnoc(init: seq<Json>, m: Json)
    requires Formatted(init).Done? || Formatted(init + [m]).Done?
    ensures Formatted(init + [m]).Done? <==> Formatted(init).Done? && Entry(m).Done?
    ensures Formatted(init + [m]).Done? ==> Formatted(init + [m]).value == Formatted(init).value + Entry(m).value
  {
    var ms := init + [m];
    assert ms[..|ms| - 1] == init;
    assert ms[|ms| - 1] == m;
  }

  /** Every message gives one `<user>: <text>` block followed by a blank line. */
  lemma FormattedSingle(m: Json)
    requires Entry(m).Done?
    ensures Formatted([m]) == Done(PyStr(m.fields["user"]) + ": " + PyStr(m.fields["text"]) + "\n\n")
  {
    assert [m][..0] == [];
    assert Formatted([m][..0]) == Done("");
    assert "" + Entry(m).value == Entry(m).value;
  }

  /** The messages of the reply as the loop sees them: a list's items, or the members of a string or dict. */
  function Iterated(j: Json): Attempt<seq<Json>> {
    match j
    case JArr(items) => Done(items)
    case JStr(s) => Done(seq(|s|, i requires 0 <= i < |s| => JStr([s[i]])))
    case JObj(m) => if m == map[] then Done([]) else Failed(NotSubscriptable(JStr("")))
    case _ => Failed("'" + PyTypeName(j) + "' object is not iterable")
  }

  const MissingMessages := "Error: Response missing 'messages' key"

  function ApiError(e: string): string {
    "Error calling Together AI API: " + e
  }

  /** What `generate_slack_conversation` returns, given the model's reply (or the exception of the call). */
  function Generate(reply: Attempt<string>, parse: JsonParser): string {
    match reply
    case Failed(e) => ApiError(e)
    case Done(content) =>
      match parse(content)
      case DecodeError(e) => "Error parsing JSON response: " + e + "\nRaw response: " + content
      case Parsed(data) =>
        if !data.JObj? || "messages" !in data.fields then MissingMessages
        else
          match Iterated(data.fields["messages"])
          case Failed(e) => ApiError(e)
          case Done(msgs) =>
            match Formatted(msgs)
            case Failed(e) => ApiError(e)
            case Done(text) => text
  }

  /** A parsed reply that is not an object, or has no "messages", gives exactly the missing-key error. */
  lemma MissingKey(content: string, parse: JsonParser)
    requires parse(content).Parsed?
    requires !parse(content).value.JObj? || "messages" !in parse(content).value.fields
    ensures Generate(Done(content), parse) == MissingMessages
  {
  }

  /** A decode failure shows the error and then the raw reply. */
  lemma DecodeFailureShowsReply(content: string, parse: JsonParser)
    requires parse(content).DecodeError?
    ensures var out := Generate(Done(content), parse);
      && |out| >= |content|
      && out[|out| - |content|..] == content
      && out[..29] == "Error parsing JSON response: "
  {
  }

  /** An empty message list shows nothing; a list of well-formed messages shows their blocks in order. */
  lemma GeneratedText(content: string, parse: JsonParser, msgs: seq<Json>)
    requires parse(content) == Parsed(JObj(map["messages" := JArr(msgs)]))
    ensures msgs == [] ==> Generate(Done(content), parse) == ""
    ensures Formatted(msgs).Done? ==> Generate(Done(content), parse) == Formatted(msgs).value
    ensures Formatted(msgs).Failed? ==> Generate(Done(content), parse) == ApiError(Formatted(msgs).message)
  {
  }
}
