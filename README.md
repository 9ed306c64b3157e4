# NosyWorker, modelled in Dafny

NosyWorker collects conversations from Slack, summarises them with a hosted
language model and turns meeting summaries into client action items. Around
those model calls sit small deterministic steps, and this project models them
and proves what they promise:

- **Action items** (`part2/generate_actions.py`, `part2/generate_actions_by_client.py`):
  - the `[...]` span is pulled out of a model reply;
  - the summary files are listed;
  - the batch loop keeps the truthy results;
  - keyword client attribution;
  - stamping metadata and defaults onto each action;
  - `organize_by_client`, with its counters and its five category buckets.
- **The Flask service** (`app.py`):
  - the channel list as a registry object;
  - the GET and POST profile handlers;
  - the summarize handler's lookup, guard, ISO-8601-to-Unix conversion and error mapping.
- **Slack normalisation** (`services/channel_service.py`): the loop that turns
  the `get_channel_history` reply into `{sender, text, timestamp}` records.
- **The MCP server's tools** (`part1/mcp_server.py`):
  - the cursor-driven pagination loop of `get_channel_history`;
  - the two `strptime` layouts of `datetime_to_timestamp`.
- **The dashboard's list updates** (`reference.tsx`): `toggleChannel`,
  `updateChannelProfile` and `enabledChannels`.
- **The command-line summariser** (`part1/minimal.py`): source selection, tool
  dispatch, file errors and transcript formatting.
- **The Gradio generator** (`part1/minimal_gradio.py`): participant parsing,
  reply-shape checks and conversation formatting.

Every call that leaves the process is a parameter of the model:

- the language model;
- `json.loads`;
- the MCP tool calls;
- the Slack Web API pages;
- the file system;
- `datetime.now()`;
- the host's time zone (`time.mktime`, `datetime.fromtimestamp`, naive `timestamp()`);
- `markdown2`.

The theorems hold for every such parameter. JSON values are the datatype
`JsonValues.Json`, with objects as maps.

Shared modules:

- `Wrappers`: `Option` and `Attempt`, a value or the text of the exception raised.
- `PyText`: the Python string operations the scripts use.
- `JsonValues`.
- `CivilTime`: proleptic Gregorian calendar arithmetic, `isoformat`/`fromisoformat` and `strptime` on fixed layouts.
- `ReplyParsing`: the bracket-span extraction shared by both action extractors.

Where the code has a loop that updates state, the model has a `method` with
loop invariants. That method is proved equal to a specification function, and
the source's promises are proved about the function as lemmas:

- `ChannelService.FetchSlackConversation`
- `ChannelHistory.RunChannelHistory`
- `ConversationGenerator.FormatConversation`
- `ClientOrganization.OrganizeByClient`
- `ClientActions.StampActions`
- `ActionBatch.ProcessFiles`
- the `ChannelApi.ChannelRegistry` methods

## Model

| member | source | states |
|---|---|---|
| PyText.LStrip | part2/generate_actions.py:62 | `lstrip` removes exactly the leading whitespace: the result is a suffix, its first character is not whitespace, and everything dropped was whitespace |
| PyText.RStrip | part2/generate_actions.py:62 | `rstrip` removes exactly the trailing whitespace |
| PyText.StripIsTrimmedMiddle | part2/generate_actions.py:62 | `strip()` keeps a contiguous middle of the string and removes only whitespace around it |
| PyText.StripIdempotent | part2/generate_actions_by_client.py:101 | stripping twice is stripping once |
| PyText.Lower | part2/generate_actions_by_client.py:49 | `lower()` on ASCII letters: the length is kept and each 'A'-'Z' becomes its lower-case letter, every other character is kept |
| PyText.ContainsAt | part2/generate_actions_by_client.py:53 | `keyword in summary_lower` holds exactly when the keyword occurs at some position |
| PyText.Split | part1/minimal_gradio.py:44 | `split(',')` gives at least one piece |
| PyText.SplitCount | part1/minimal_gradio.py:44 | there is one piece more than there are separators |
| PyText.SplitPiecesFree | part1/minimal_gradio.py:44 | no piece contains the separator |
| PyText.JoinSplit | part1/minimal.py:112 | joining the pieces of a split with the separator gives the string back |
| PyText.SplitJoin | part1/minimal.py:112-115 | splitting a `"\n".join` whose pieces have no newline gives the pieces back |
| PyText.ReplaceAll | app.py:68-69 | after `replace('Z', '+00:00')` no 'Z' is left, since the replacement has none |
| PyText.ReplaceAbsent | app.py:68-69 | a string without 'Z' is left as it is |
| PyText.BaseStart | part2/generate_actions.py:96 | the last path component starts at 0 or just after a '/', and contains no '/' |
| PyText.BasenameIsLastComponent | part2/generate_actions_by_client.py:120 | `os.path.basename` is the text after the last '/' and contains no '/' |
| PyText.NatToDecimal | app.py:74 | `str(n)` is a non-empty string of decimal digits, with no leading zero unless it is "0" |
| PyText.DecimalRoundTrip | app.py:74 | reading back the digits of `str(n)` gives `n` |
| PyText.IntToDecimal | app.py:74 | `str(n)` is non-empty and starts with '-' exactly when `n` is negative |
| PyText.IntDecimalRoundTrip | part1/mcp_server.py:87 | `int(str(n)) == n` for every integer |
| ReplyParsing.FirstIndex | part2/generate_actions.py:67 | the first '[' of the reply, or none |
| ReplyParsing.LastIndex | part2/generate_actions.py:67 | the last ']' of the reply, or none |
| ReplyParsing.SearchBracketSpan | part2/generate_actions.py:67-69 | the greedy `\[.*\]` search with DOTALL succeeds exactly when a '[' is followed later by a ']', and then matches from the first '[' to the last ']' |
| ReplyParsing.NoPairAfterLastClose | part2/generate_actions.py:67 | when the last ']' comes before the first '[', no bracket pair exists |
| ReplyParsing.JsonTextSpan | part2/generate_actions.py:66-72 | the text parsed is the span from the first '[' to the last ']' when such a pair exists, otherwise the whole reply |
| ReplyParsing.JsonTextOfBareArray | part2/generate_actions_by_client.py:106-109 | a reply that is exactly a bracketed array is parsed whole |
| ReplyParsing.ParseReply | part2/generate_actions_by_client.py:101-115 | the reply is `None` exactly when `json.loads` rejects the stripped reply's span; otherwise it is what `json.loads` returned |
| ActionBatch.SummaryFiles | part2/generate_actions.py:24-36 | the summary files are the outputs-directory matches followed by the results-directory matches |
| ActionBatch.ProcessSummary | part2/generate_actions.py:38-78 | a missing `TOGETHER_API_KEY` raises ValueError before the model is called; a failing call raises; a decode failure yields `None`; otherwise the parsed value is returned |
| ActionBatch.OutcomeAt | part2/generate_actions.py:95-97 | entry k of the outcomes is `process_summary` of file k |
| ActionBatch.NameAt | part2/generate_actions.py:96 | entry k of the names is the base name of file k |
| ActionBatch.KeptEntriesExactly | part2/generate_actions.py:99-100 | the kept entries are exactly the truthy outcomes under their names |
| ActionBatch.SurvivingExactly | part2/generate_actions.py:95-100 | `all_results` holds exactly the files whose actions are truthy, in file order |
| ActionBatch.NoneFatalIff | part2/generate_actions.py:47-50 | the run raises unless the API key is set and every model call returned a reply |
| ActionBatch.ProcessFiles | part2/generate_actions.py:93-103 | the loop stops at the first file whose processing raises; otherwise it returns exactly the surviving entries |
| ActionBatch.RunBatch | part2/generate_actions.py:80-110 | no summary files ends the run early; a missing API key aborts it; a completed run writes the output file iff `all_results` is non-empty |
| ClientActions.KeywordClientFirst | part2/generate_actions_by_client.py:47-55 | the keyword search returns the client of the first table keyword, in table order, that occurs in the lower-cased summary, and returns none only when no keyword occurs |
| ClientActions.IdentifyClient | part2/generate_actions_by_client.py:47-57 | the loop returns the keyword client, or "TechCorp Solutions" when no keyword occurs |
| ClientActions.IdentifiesDefaultClient | part2/generate_actions_by_client.py:13-32 | every table value is "TechCorp Solutions", so every summary is attributed to it |
| ClientActions.Stamp | part2/generate_actions_by_client.py:118-125 | a stamped action has `client`, `source_file` and `generated_at` set, `priority` defaulting to "medium" and `category` to "support", and every other key unchanged |
| ClientActions.StampedAgreesWithOrganization | part2/generate_actions_by_client.py:135-170 | a stamped action is organized under its stamped client, and the two sets of defaults agree |
| ClientActions.StampIdempotent | part2/generate_actions_by_client.py:118-125 | stamping again with the same values changes nothing |
| ClientActions.StampAllAt | part2/generate_actions_by_client.py:118-121 | item k of the stamped list is item k stamped with the clock reading for that action |
| ClientActions.StampActions | part2/generate_actions_by_client.py:118-125 | the metadata loop raises exactly when an item is not an object; otherwise it returns every item stamped, in order |
| ClientActions.StampReply | part2/generate_actions_by_client.py:117-127 | a list of objects is stamped; an empty dict or string passes through untouched; anything else raises |
| ClientActions.ProcessSummary | part2/generate_actions_by_client.py:73-127 | the API-key check, the model call, the parse and the stamping, with each failure mode |
| ClientActions.StampedActions | part2/generate_actions_by_client.py:117-127 | each returned action is its parsed item, carrying the summary's client, the file's base name and its own clock reading |
| ClientActions.RunProcessSummary | part2/generate_actions_by_client.py:73-127 | the imperative `process_summary` computes `ProcessSummary` |
| ClientActions.OutcomeAt | part2/generate_actions_by_client.py:191-193 | entry k of the outcomes is `process_summary` of file k |
| ClientActions.ProcessFiles | part2/generate_actions_by_client.py:189-199 | the loop stops at the first raising file; otherwise it keeps exactly the truthy results under their base names |
| ClientActions.RunByClient | part2/generate_actions_by_client.py:176-216 | `main`: stops on no files or a raised error; organizes the survivors; writes both files iff some file survived |
| ClientActions.StampedOfDefault | part2/generate_actions_by_client.py:82 | every stamped action of a file carries the default client |
| ClientActions.SurvivingOfDefault | part2/generate_actions_by_client.py:195-196 | every surviving action carries the default client |
| ClientActions.OrganizedOneClient | part2/generate_actions_by_client.py:129-174 | actions all of one client are organized under that client alone, keeping their order |
| ClientActions.OrganizedUnderOneClient | part2/generate_actions_by_client.py:202 | `actions_by_client.json` has at most the one key "TechCorp Solutions", whose `all_actions` lists every surviving action in file order |
| ClientOrganization.FoldStep | part2/generate_actions_by_client.py:133-134 | one more action is one more step of the fold |
| ClientOrganization.FoldAppend | part2/generate_actions_by_client.py:133-134 | visiting one list and then another is visiting their concatenation |
| ClientOrganization.AddActionInPlace | part2/generate_actions_by_client.py:135-172 | the loop body creates the client's entry when new, counts the action, files it under its category, and appends it to `all_actions` |
| ClientOrganization.OrganizeFile | part2/generate_actions_by_client.py:134-172 | the inner loop raises TypeError exactly when a client or category is unhashable; otherwise it folds the file's actions |
| ClientOrganization.OrganizeByClient | part2/generate_actions_by_client.py:129-174 | the nested loop computes the fold over all actions, files in map order |
| ClientOrganization.NotHashableInFiles | part2/generate_actions_by_client.py:137 | an unhashable action in one file makes the whole run raise |
| ClientOrganization.FlattenPrefix | part2/generate_actions_by_client.py:133 | the actions of the first n files are a prefix of the visiting order |
| ClientOrganization.WhereIsSubseq | part2/generate_actions_by_client.py:169-172 | each bucket is a subsequence of the actions, holding exactly those whose key matches |
| ClientOrganization.BucketsSnoc | part2/generate_actions_by_client.py:170-172 | an action is appended to `categories[c]` iff c is one of the five fixed names |
| ClientOrganization.EntryFromSnoc | part2/generate_actions_by_client.py:157-172 | counting and filing one more action of a client gives the entry of its longer action list |
| ClientOrganization.ClientsInExactly | part2/generate_actions_by_client.py:137-154 | each client is created once, and only the clients that occur are created |
| ClientOrganization.NoActionsOfAbsentClient | part2/generate_actions_by_client.py:135 | a client with no action has no actions filed |
| ClientOrganization.AddActionStep | part2/generate_actions_by_client.py:135-172 | visiting one more action keeps the closed form of the organization |
| ClientOrganization.FoldCharacterized | part2/generate_actions_by_client.py:129-174 | after the fold, each client's entry is computed from the sub-list of its actions |
| ClientOrganization.PriorityCounts | part2/generate_actions_by_client.py:161-167 | high + medium + low ≤ `total_actions`, with equality exactly when every priority is 'high', 'medium' or 'low' (missing counts as medium) |
| ClientOrganization.ClientEntryFacts | part2/generate_actions_by_client.py:138-172 | each entry's name is its key; `all_actions` is that client's actions in order; `total_actions` is its length; the buckets are its category filters |
| ClientOrganization.EveryActionFiled | part2/generate_actions_by_client.py:135-157 | every action is filed under its client, or 'Unknown Client' when it has none |
| ClientOrganization.TotalsAddUp | part2/generate_actions_by_client.py:158 | the clients' `total_actions` add up to the number of actions |
| Dashboard.Toggle | reference.tsx:63-67 | `toggleChannel` keeps length and order, flips `enabled` on the channels with the id, and leaves everything else unchanged |
| Dashboard.SetProfile | reference.tsx:74-76 | `updateChannelProfile` sets `profile` on the matching channels only, and leaves every other field unchanged |
| Dashboard.Enabled | reference.tsx:78 | `enabledChannels` is no longer than the list and holds only enabled channels |
| Dashboard.EnabledMembers | reference.tsx:78 | a channel is in `enabledChannels` iff it is in the list and enabled |
| Dashboard.ToggleTwice | reference.tsx:65 | toggling the same id twice restores the original list |
| Dashboard.NoMatchUnchanged | reference.tsx:65-75 | with no channel carrying the id, both updates return the list unchanged |
| Dashboard.SetProfileIdempotent | reference.tsx:75 | setting the same profile twice is setting it once |
| Dashboard.EnabledAppend | reference.tsx:78 | filtering distributes over concatenation, so list order is kept |
| Dashboard.SetProfileKeepsEnabled | reference.tsx:75-78 | setting a profile leaves the Active Channels count unchanged |
| Dashboard.EnabledCountsSame | reference.tsx:101 | lists that agree on `enabled` have the same Active Channels count |
| Dashboard.CountsDifferAt | reference.tsx:101 | lists that agree on `enabled` everywhere but one position have Active Channels counts exactly one apart |
| Dashboard.ToggleUniqueCount | reference.tsx:65-101 | toggling the one channel with an id moves the Active Channels count by exactly one |
| Dashboard.InitialState | reference.tsx:24-57 | four channels with distinct ids "1" to "4", three of them enabled |
| CivilTime.YearLength | app.py:70-71 | each year contributes 366 days when leap and 365 otherwise |
| CivilTime.NextDay | app.py:68-69 | the day after a valid date is a valid date |
| CivilTime.NextDayOrdinal | app.py:70-71 | consecutive calendar days have consecutive day numbers |
| CivilTime.WithinDay | app.py:70-71 | a time of day lies within its day, and days are 86400 seconds apart |
| CivilTime.Pad | part1/mcp_server.py:82 | zero-padded fields have the given width and are digits only |
| CivilTime.PadValue | part1/mcp_server.py:82 | reading back the padded digits of a number that fits gives the number |
| CivilTime.ParseDate | app.py:68-69 | a parsed date is a real calendar date |
| CivilTime.ParseTimeOfDay | app.py:68-69 | a parsed time is in range |
| CivilTime.ParseOffset | app.py:68 | a parsed offset lies strictly within one day |
| CivilTime.OffsetFieldsUnranged | app.py:68 | the hour and minute fields of an offset are not range-checked on their own: "+00:75" reads as 4500 seconds, while "-23:99" is refused because its total reaches a day |
| CivilTime.FromIsoFormat | app.py:68-69 | `fromisoformat` yields only valid instants |
| CivilTime.OffsetText | app.py:68 | an offset is written in six characters, `±HH:MM` |
| CivilTime.DateText | app.py:68-69 | `isoformat` of a date is ten characters, without 'Z' |
| CivilTime.TimeText | app.py:68-69 | `isoformat` of a time is eight characters, without 'Z' |
| CivilTime.DateRoundTrip | app.py:68-69 | the date parser reads back what the date writer writes |
| CivilTime.TimeRoundTrip | app.py:68-69 | the time parser reads back what the time writer writes |
| CivilTime.OffsetRoundTrip | app.py:68 | whole-minute offsets read back |
| CivilTime.IsoRoundTrip | app.py:68-69 | `fromisoformat(isoformat(x)) == x` for whole-minute offsets |
| CivilTime.ZuluToUnix | app.py:68-71 | a UTC instant written with a trailing 'Z' converts to its Unix seconds, whatever the host's time zone |
| CivilTime.NewYear2024 | app.py:70-71 | 2024-01-01T00:00:00Z is 1704067200 seconds and the next midnight is 1704153600 |
| CivilTime.StrptimeDateTime | part1/mcp_server.py:82 | a `'%Y-%m-%d %H:%M:%S'` reading is a valid date and time |
| CivilTime.StrptimeReadsBack | part1/mcp_server.py:82 | the `'%Y-%m-%d %H:%M:%S'` text of every valid date and time is accepted and read back as them |
| CivilTime.StrptimeDate | part1/mcp_server.py:84 | a `'%Y-%m-%d'` reading is a valid date |
| ChannelApi.Find | app.py:24-25 | the scan finds the first channel whose id equals the path id; every channel before it has another id; a channel without "id" raises first |
| ChannelApi.FindSameIds | app.py:36-37 | lists that agree on their "id" fields scan alike |
| ChannelApi.ProfileOfFirstMatch | app.py:22-30 | GET answers success, profile and name of the first channel carrying the id |
| ChannelApi.ProfileNotFound | app.py:31 | with no match, GET answers 404 "Channel not found" |
| ChannelApi.NewProfile | app.py:38-41 | the new profile is exactly {audience, dataSources} from the body, and building it raises when either key is missing |
| ChannelApi.UpdateFrame | app.py:33-41 | a successful POST replaces only the first matching channel's profile; every other channel, and every other field of that one, is unchanged |
| ChannelApi.SavedIffReplaced | app.py:38-44 | the list is saved iff the reply is 200 iff a profile was replaced; otherwise the list is unchanged |
| ChannelApi.UpdateUnknownId | app.py:36-45 | an unknown id leaves the list alone, does not save, and answers 404 |
| ChannelApi.GetAfterUpdate | app.py:22-44 | GET after a successful POST answers the new profile |
| ChannelApi.UpdateIdempotent | app.py:33-44 | sending the same update twice leaves the list as sending it once |
| ChannelApi.ToUnix | app.py:68-71 | a string converts exactly when its 'Z'-replaced form is accepted by `fromisoformat`; a non-string raises AttributeError |
| ChannelApi.SummarizeNotConfigured | app.py:50-61 | no channel with the id, or one without `slack_channel_id`, gives 404 and no fetch |
| ChannelApi.SummarizeReplies | app.py:47-91 | every reply is 200, 404 or 500 JSON; `success` is true iff the status is 200; a fetch precedes every 200 |
| ChannelApi.ConfiguredReplies | app.py:63-91 | once the channel is configured, the reply is 200 with the summary or 500 with the error |
| ChannelApi.UpstreamFailure | app.py:74-91 | a failing fetch becomes a 500 carrying its message |
| ChannelApi.SummarizeZulu | app.py:67-74 | 'Z'-suffixed instants reach the fetcher as the decimal Unix seconds of their UTC date and time |
| ChannelApi.SummarizeNewYear | app.py:67-74 | 2024-01-01T00:00:00Z and 2024-01-02T00:00:00Z reach the fetcher as "1704067200" and "1704153600" |
| ChannelApi.ChannelRegistry.constructor | app.py:14 | the list starts as the loaded file, stored and not yet saved |
| ChannelApi.ChannelRegistry.Locate | app.py:24-25 | the loop finds what `Find` specifies |
| ChannelApi.ChannelRegistry.GetChannelProfile | app.py:22-31 | the handler answers `ProfileReply` |
| ChannelApi.ChannelRegistry.UpdateChannelProfile | app.py:33-45 | the list becomes the one `Update` specifies, and it is stored, with one more save, exactly when the update succeeds |
| ChannelApi.ChannelRegistry.SummarizeChannel | app.py:47-91 | the handler answers, and calls the fetcher with the arguments, that `Summarize` specifies |
| ChannelService.Sender | services/channel_service.py:52-57 | `bot_profile.name` (default "Unknown Bot") when `bot_profile` is present; else "User <id>"; else "Unknown"; a non-dict `bot_profile` raises |
| ChannelService.Convert | services/channel_service.py:47-71 | channel events are skipped; a message emits a record exactly when it is an object, not a channel event, its sender resolves, it has "ts" and the timestamp formats; the record has exactly sender, text (default "") and timestamp; a missing "ts" raises "'ts'" |
| ChannelService.FetchSlackConversation | services/channel_service.py:28-73 | the loop returns `Conversation` of the tool's reply |
| ChannelService.NormaliseIsKept | services/channel_service.py:47-71 | without an exception, one record per kept message, in input order, each the conversion of its message |
| ChannelService.NormaliseFails | services/channel_service.py:47-71 | the loop raises exactly when some message cannot be converted |
| ChannelService.NotOkIsEmpty | services/channel_service.py:42-46 | a reply that is not `ok`, or has no "messages", gives an empty conversation |
| ChannelService.NullResultRaises | services/channel_service.py:42-46 | `"result": null` makes the next `.get` raise AttributeError |
| ChannelHistory.Params | part1/mcp_server.py:42-51 | each request carries channel and limit; `oldest`/`latest` only when non-empty; `cursor` only when truthy |
| ChannelHistory.Chars | part1/mcp_server.py:57 | extending by a string adds one item per character |
| ChannelHistory.RunChannelHistory | part1/mcp_server.py:37-69 | the `while True` loop produces `GetChannelHistory` |
| ChannelHistory.StopAt | part1/mcp_server.py:60-62 | every page before the stopping page continues the loop, and the stopping page does not |
| ChannelHistory.HistoryClosedForm | part1/mcp_server.py:41-66 | the outcome is read off the first page that stops the loop; one request per fetched page, each later one carrying the cursor of the page before |
| ChannelHistory.RequestsWellFormed | part1/mcp_server.py:42-51 | every request names the channel and limit, has `oldest`/`latest` only when non-empty, and only the first has no cursor |
| ChannelHistory.ResultIsLastPage | part1/mcp_server.py:56-66 | the result is the last fetched page's data with "messages" replaced by every page's messages in fetch order; the last page's cursor is missing or empty |
| ChannelHistory.ApiErrorDiscards | part1/mcp_server.py:67-69 | a `SlackApiError` on a fetched page discards the gathered messages and returns its text |
| ChannelHistory.ReadLocal | part1/mcp_server.py:80-84 | 'YYYY-MM-DD HH:MM:SS' is tried first, then 'YYYY-MM-DD' at midnight |
| ChannelHistory.LayoutsDisjoint | part1/mcp_server.py:81-84 | the two layouts never both apply |
| ChannelHistory.TimestampReadsBack | part1/mcp_server.py:86-87 | the result text is `str(float)` of the seconds `mktime` gave, and reads back as them |
| MinimalCli.SelectTool | part1/minimal.py:25-53 | `message_timestamp` wins over `thread_ts`, which wins over a channel fetch; each call names its tool and exactly its arguments |
| MinimalCli.Lines | part1/minimal.py:112-115 | one "- user: text" line per message, defaults "Unknown" and "", in order; a non-object message raises |
| MinimalCli.FileTakesPrecedence | part1/minimal.py:100-102 | with `--file`, no Slack tool is called |
| MinimalCli.NeitherSource | part1/minimal.py:103-105 | with neither `--file` nor `--channel`, ValueError is raised before any fetch |
| MinimalCli.FileErrors | part1/minimal.py:76-84 | a missing file raises FileNotFoundError and malformed JSON raises ValueError, both naming the path |
| MinimalCli.ChannelDispatch | part1/minimal.py:103-107 | exactly one of the three tools is called |
| MinimalCli.NoMessagesEmpty | part1/minimal.py:114 | no "messages" key gives an empty transcript |
| MinimalCli.TranscriptLines | part1/minimal.py:112-115 | the transcript splits back, by "\n", into one line per message, in order, with no trailing newline |
| ConversationGenerator.Participants | part1/minimal_gradio.py:44 | one participant per comma-separated piece, each stripped |
| ConversationGenerator.ParticipantCount | part1/minimal_gradio.py:44 | there are as many participants as commas plus one, empty pieces kept |
| ConversationGenerator.ParticipantsClean | part1/minimal_gradio.py:44 | no participant contains a comma or has whitespace at either end, and each is a trimmed middle of its piece |
| ConversationGenerator.Entry | part1/minimal_gradio.py:80 | a message formats iff it is a dict with 'user' and 'text', as "user: text\n\n" |
| ConversationGenerator.FormatConversation | part1/minimal_gradio.py:78-80 | the `+=` loop computes `Formatted` |
| ConversationGenerator.FormattedAppend | part1/minimal_gradio.py:79-80 | the text of two message lists is their texts in order |
| ConversationGenerator.FormattedSnoc | part1/minimal_gradio.py:79-80 | one more message appends its block, and the loop succeeds iff both parts do |
| ConversationGenerator.FormattedSingle | part1/minimal_gradio.py:80 | one message gives one "user: text" block and a blank line |
| ConversationGenerator.MissingKey | part1/minimal_gradio.py:72-73 | a reply that is not an object, or lacks 'messages', gives exactly "Error: Response missing 'messages' key" |
| ConversationGenerator.DecodeFailureShowsReply | part1/minimal_gradio.py:84-85 | a decode failure starts "Error parsing JSON response: " and ends with the raw reply |
| ConversationGenerator.GeneratedText | part1/minimal_gradio.py:75-88 | an empty list shows ""; well-formed messages show their blocks; a bad message shows "Error calling Together AI API: " and the error |

## Left out

- The language-model calls, `json.loads`/`json.load`/`json.dump`, `glob`, `open`, `load_channels`/`save_channels`, the MCP transports and the Slack SDK are function parameters or absent; prompts, `print` and logging are not modelled.
- `ChannelApi.ChannelRegistry.UpdateChannelProfile`: every `save_channels` call succeeds. In app.py a save that raises after the in-place assignment leaves the global list changed but unsaved, and Flask answers 500; the model does not capture that state.
- `datetime.now()`, `time.mktime`, `datetime.fromtimestamp` and the host time zone of a naive `timestamp()` are parameters. Only UTC and explicit-offset arithmetic is computed.
- `fromisoformat` is modelled on `YYYY-MM-DD`, `YYYY-MM-DD?HH:MM:SS` and the same with a `±HH:MM` offset. Fractional seconds, second-level offsets and the other layouts Python accepts are treated as invalid.
- `ChannelApi.ToUnix`: every rejected string fails with the one text "Invalid isoformat string: '…'". Python gives that text only for a malformed layout. A well-formed string with an out-of-range field fails in the `datetime` constructor with that field's own message ("month must be in 1..12", "day is out of range for month", "hour must be in 0..23", "year 0 is out of range"). An offset of a day or more fails in the `timezone` constructor with its "offset must be a timedelta strictly between …" message. app.py returns those texts as the 500's `error`. The model does not reproduce them, because their wording and order depend on the Python version.
- `ChannelHistory.DatetimeToTimestamp`: the two failures `NotADate` and `MkTimeFailed` carry no text. The tool returns `str(e)` as its `error`: the second `strptime`'s "time data '…' does not match format '%Y-%m-%d'", "unconverted data remains: …", a `datetime` range message, or `mktime`'s OverflowError text. The model only says which of the two steps failed.
- `ClientOrganization.OrganizeByClient`: clients are keyed by their JSON value, so `true` and `1` (and `false` and `0`) are two clients. Python's dict treats them as one key, because `True == 1` with equal hashes, and would count both actions under the first-seen key. `main` only passes stamped actions, whose client is always a string, so this does not arise there.
- `strptime` is modelled on zero-padded fields with single separators and ASCII digits. Python also accepts unpadded fields, and, since its patterns use `\d` on `str` and `int()` reads the match, non-ASCII decimal digits such as full-width "２０２４".
- `ActionBatch.ProcessFiles`: `all_results` is a list of (base name, actions) pairs in file order. Python's dict assignment overwrites an earlier entry whose file has the same base name, so Python keeps only the later file's actions where the model keeps both. The two globs of part2/generate_actions.py differ in extension, so they do not produce such a pair.
- `ClientActions.ProcessFiles`: the same list of pairs. With two files of the same base name the model keeps both entries, and `ClientActions.RunByClient` organizes both, where Python would organize only the later one. The single directory glob of part2/generate_actions_by_client.py does not produce such a pair.
- `PyText.Lower`: only the ASCII letters 'A'-'Z' are lowered. Python's `str.lower()` lowers every cased Unicode character and can lengthen a string (`'İ'.lower()` is two code points). A summary that spells a keyword with, say, the Kelvin sign U+212A matches in Python but not in the model. The client chosen is the same either way, because every keyword maps to "TechCorp Solutions", which is also the default.
- Error texts quote strings without Python's repr escaping.
- `str()` of a list or dict is a placeholder text, not Python's repr. Numbers are integers; floats in JSON are not modelled.
- Dict key order is not kept (objects are maps). Code that iterates a dict iterates the keys as strings, which is all the model needs.
- `ChannelHistory.Batch`: a dict-valued "messages" is treated as not iterable. Python would extend the list by the dict's keys.
- The Slack pages are a finite sequence. When they run out while a cursor is still set, the outcome `OutOfPages` stands for the further requests Slack would answer.
- `summarize_conversation` (services/channel_service.py) and `markdown2` are parameters. The conversation is handed to them as records, not as its `str()`.
- Flask's own 500 page after an uncaught exception is the single value `ServerError`. A request body that is not JSON is not modelled.
- `async`/`await` and the unsynchronised global `channels` list: requests are modelled one at a time.
- The `--api_key` argument, the `Together` client construction and the final summary call in `part1/minimal.py` are not modelled.
- The Gradio Blocks UI and the prompt text in `part1/minimal_gradio.py` are not modelled.
- `part1/scripts/rag_example.py`, `tools/slack_setup/` and `test_outlook_auth.py` are not part of this model.
