/**
 * The Slack tools of the MCP server (`part1/mcp_server.py`):
 * `get_channel_history`, which follows `next_cursor` from page to page and
 * gathers the messages, and `datetime_to_timestamp`, which reads a local
 * date(-time) with two `strptime` layouts.  The Slack Web API answers are a
 * finite sequence of pages, one per request; `time.mktime` is a parameter.
 */
module ChannelHistory {
  import opened Wrappers
  import opened PyText
  import opened JsonValues
  import opened CivilTime

  /** The arguments of the tool call. */
  datatype Query = Query(channel: string, limit: int, oldest: string, latest: string)

  /** The keyword arguments of one `conversations_history` call. */
  datatype Request = Request(channel: string, limit: int, oldest: Option<string>, latest: Option<string>,
                             cursor: Option<Json>)

  /** The answer to one request: the response data, or a `SlackApiError` with its text. */
  datatype Page = Page(data: JsonObject) | ApiError(error: string)

  datatype HistoryOutcome =
    | History(result: JsonObject)      // `{"result": response.data}`
    | SlackError(error: string)        // `{"result": None, "error": str(e)}`
    | Raised(error: string)            // any other exception leaves the tool
    | OutOfPages                       // the upstream answers end while a cursor is still set

  /** The outcome and every request sent, in order. */
  datatype Crawl = Crawl(outcome: HistoryOutcome, sent: seq<Request>)

  /** The `params` dict built at the top of each round. */
  function Params(q: Query, cursor: Json): (r: Request)
    ensures r.channel == q.channel && r.limit == q.limit
    ensures r.oldest.Some? <==> q.oldest != ""
    ensures r.oldest.Some? ==> r.oldest.value == q.oldest
    ensures r.latest.Some? <==> q.latest != ""
    ensures r.latest.Some? ==> r.latest.value == q.latest
    ensures r.cursor.Some? <==> Truthy(cursor)
    ensures r.cursor.Some? ==> r.cursor.value == cursor
  {
    Request(q.channel, q.limit,
            if q.oldest != "" then Some(q.oldest) else None,
            if q.latest != "" then Some(q.latest) else None,
            if Truthy(cursor) then Some(cursor) else None)
  }

  /** `all_messages.extend(data["messages"])` when `data.get("messages")` is truthy. */
  function Batch(data: JsonObject): Attempt<seq<Json>> {
    var m := Get(data, "messages", JNull);
    if !Truthy(m) then Done([])
    else
      match m
      case JArr(items) => Done(items)
      case JStr(s) => Done(Chars(s))
      case _ => Failed("'" + PyTypeName(m) + "' object is not iterable")
  }

  /** Extending a list by a string adds its characters. */
  function Chars(s: string): (r: seq<Json>)
    ensures |r| == |s| && forall i :: 0 <= i < |s| ==> r[i] == JStr([s[i]])
  {
    if s == [] then [] else Chars(s[..|s| - 1]) + [JStr([s[|s| - 1]])]
  }

  /** `data.get("response_metadata", {}).get("next_cursor")`; `None` when the inner `.get` raises. */
  function NextCursor(data: JsonObject): Option<Json> {
    match Get(data, "response_metadata", JObj(map[]))
    case JObj(meta) => Some(Get(meta, "next_cursor", JNull))
    case _ => None
  }

  /** A page after which the loop asks for another one. */
  predicate Continues(p: Page) {
    p.Page? && Batch(p.data).Done? && NextCursor(p.data).Some? && Truthy(NextCursor(p.data).value)
  }

  /**
   * The loop from the round that sends `cursor`, with `gathered` collected so
   * far and `sent` the requests already made.
   */
  function CrawlFrom(q: Query, pages: seq<Page>, cursor: Json, gathered: seq<Json>, sent: seq<Request>): Crawl
    decreases |pages|
  {
    if pages == [] then Crawl(OutOfPages, sent)
    else
      var sent' := sent + [Params(q, cursor)];
      match pages[0]
      case ApiError(e) => Crawl(SlackError(e), sent')
      case Page(data) =>
        match Batch(data)
        case Failed(e) => Crawl(Raised(e), sent')
        case Done(more) =>
          match NextCursor(data)
          case None => Crawl(Raised(NoAttribute(Get(data, "response_metadata", JNull), "get")), sent')
          case Some(c) =>
            if Truthy(c) then CrawlFrom(q, pages[1..], c, gathered + more, sent')
            else Crawl(History(data["messages" := JArr(gathered + more)]), sent')
  }

  /** `get_channel_history(channel_id, limit, oldest, latest)` against the answers `pages`. */
  function GetChannelHistory(q: Query, pages: seq<Page>): Crawl {
    CrawlFrom(q, pages, JNull, [], [])
  }

  /** The loop as the tool runs it. */
  method RunChannelHistory(q: Query, pages: seq<Page>) returns (outcome: HistoryOutcome, sent: seq<Request>)
    ensures Crawl(outcome, sent) == GetChannelHistory(q, pages)
  {
    var all: seq<Json> := [];
    var cursor: Json := JNull;
    var i := 0;
    sent := [];
    while true
      invariant 0 <= i <= |pages|
      invariant CrawlFrom(q, pages[i..], cursor, all, sent) == GetChannelHistory(q, pages)
      decreases |pages| - i
    {
      if i == |pages| {
        outcome := OutOfPages;
        return;
      }
      var params := Params(q, cursor);
      sent := sent + [params];
      var response := pages[i];
      if response.ApiError? {
        outcome := SlackError(response.error);
        return;
      }
      var batch := Batch(response.data);
      if batch.Failed? {
        outcome := Raised(batch.message);
        return;
      }
      all := all + batch.value;
      var next := NextCursor(response.data);
      if next.None? {
        outcome := Raised(NoAttribute(Get(response.data, "response_metadata", JNull), "get"));
        return;
      }
      assert pages[i..][1..] == pages[i + 1..];
      cursor := next.value;
      i := i + 1;
      if !Truthy(cursor) {
        outcome := History(response.data["messages" := JArr(all)]);
        return;
      }
    }
  }

  /* ---------- the closed form ---------- */

  /** The index of the first page after which the loop does not go on. */
  function StopAt(pages: seq<Page>): (n: nat)
    ensures n <= |pages|
    ensures forall i :: 0 <= i < n ==> Continues(pages[i])
    ensures n < |pages| ==> !Continues(pages[n])
  {
    if pages == [] || !Continues(pages[0]) then 0 else 1 + StopAt(pages[1..])
  }

  /** The messages the pages contribute, in fetch order. */
  function Gathered(pages: seq<Page>): seq<Json> {
    if pages == [] then []
    else
      var p := pages[|pages| - 1];
      Gathered(pages[..|pages| - 1]) + (if p.Page? && Batch(p.data).Done? then Batch(p.data).value else [])
  }

  /**
   * The outcome read off the page `p` that stops the loop, with `all` every
   * message gathered up to and including it: its `SlackApiError`, an
   * exception, or its data with "messages" replaced by `all`.
   */
  function Final(p: Page, all: seq<Json>): HistoryOutcome {
    match p
    case ApiError(e) => SlackError(e)
    case Page(data) =>
      match Batch(data)
      case Failed(e) => Raised(e)
      case Done(_) =>
        if NextCursor(data).None? then Raised(NoAttribute(Get(data, "response_metadata", JNull), "get"))
        else History(data["messages" := JArr(all)])
  }

  /** The outcome of the loop: out of pages, or that of the page that stops it. */
  function Stopped(pages: seq<Page>, gathered: seq<Json>): HistoryOutcome {
    var n := StopAt(pages);
    if n == |pages| then OutOfPages else Final(pages[n], gathered + Gathered(pages[..n + 1]))
  }

  /** The requests of the rounds from the one that sends `first`: one per fetched page. */
  predicate RequestsFrom(q: Query, pages: seq<Page>, sent: seq<Request>, first: Json) {
    && |sent| == (if StopAt(pages) < |pages| then StopAt(pages) + 1 else |pages|)
    && (sent != [] ==> sent[0] == Params(q, first))
    && forall i :: 1 <= i < |sent| ==> sent[i] == Params(q, NextCursor(pages[i - 1].data).value)
  }

  /** Gathering from the front: the first page's batch, then the rest. */
  lemma {:induction false} GatheredFront(pages: seq<Page>, k: nat)
    requires 1 <= k <= |pages| && pages[0].Page? && Batch(pages[0].data).Done?
    ensures Gathered(pages[..k]) == Batch(pages[0].data).value + Gathered(pages[1..k])
  {
    if k > 1 {
      GatheredFront(pages, k - 1);
      assert pages[..k][..k - 1] == pages[..k - 1];
      assert pages[1..k][..k - 2] == pages[1..k - 1];
    } else {
      assert pages[..1][..0] == [];
    }
  }

  lemma {:induction false} CrawlOutcome(q: Query, pages: seq<Page>, cursor: Json, gathered: seq<Json>, sent: seq<Request>)
    ensures CrawlFrom(q, pages, cursor, gathered, sent).outcome == Stopped(pages, gathered)
    decreases |pages|
  {
    if pages != [] {
      if Continues(pages[0]) {
        var more := Batch(pages[0].data).value;
        CrawlOutcome(q, pages[1..], NextCursor(pages[0].data).value, gathered + more, sent + [Params(q, cursor)]);
        StoppedShift(pages, gathered);
      } else if pages[0].Page? && Batch(pages[0].data).Done? {
        assert pages[..1][..0] == [];
        assert Gathered(pages[..1]) == Batch(pages[0].data).value;
      }
    }
  }

  /** Past a page that continues the loop, its messages join what is gathered. */
  lemma StoppedShift(pages: seq<Page>, gathered: seq<Json>)
    requires pages != [] && Continues(pages[0])
    ensures Stopped(pages, gathered) == Stopped(pages[1..], gathered + Batch(pages[0].data).value)
  {
    var more := Batch(pages[0].data).value;
    var rest := pages[1..];
    var n := StopAt(rest);
    assert StopAt(pages) == n + 1;
    if n < |rest| {
      assert pages[n + 1] == rest[n];
      GatheredFront(pages, n + 2);
      assert rest[..n + 1] == pages[1..n + 2];
      ConcatAssoc(gathered, more, Gathered(rest[..n + 1]));
    }
  }

  /** The requests made from the round that sends `cursor` on. */
  function Requests(q: Query, pages: seq<Page>, cursor: Json): seq<Request>
    decreases |pages|
  {
    if pages == [] then []
    else [Params(q, cursor)] + (if Continues(pages[0]) then Requests(q, pages[1..], NextCursor(pages[0].data).value) else [])
  }

  lemma {:induction false} CrawlSent(q: Query, pages: seq<Page>, cursor: Json, gathered: seq<Json>, sent: seq<Request>)
    ensures CrawlFrom(q, pages, cursor, gathered, sent).sent == sent + Requests(q, pages, cursor)
    decreases |pages|
  {
    if pages != [] && Continues(pages[0]) {
      var sent' := sent + [Params(q, cursor)];
      CrawlSent(q, pages[1..], NextCursor(pages[0].data).value, gathered + Batch(pages[0].data).value, sent');
      assert sent' + Requests(q, pages[1..], NextCursor(pages[0].data).value) == sent + Requests(q, pages, cursor);
    }
  }

  lemma {:induction false} RequestsShape(q: Query, pages: seq<Page>, cursor: Json)
    ensures RequestsFrom(q, pages, Requests(q, pages, cursor), cursor)
    decreases |pages|
  {
    if pages != [] && Continues(pages[0]) {
      var rest, c := pages[1..], NextCursor(pages[0].data).value;
      RequestsShape(q, rest, c);
      var rs := Requests(q, pages, cursor);
      assert rs[1..] == Requests(q, rest, c);
      assert StopAt(pages) == StopAt(rest) + 1;
      forall i | 1 <= i < |rs|
        ensures rs[i] == Params(q, NextCursor(pages[i - 1].data).value)
      {
        if i > 1 {
          assert pages[i - 1] == rest[i - 2];
          assert rs[i] == rs[1..][i - 1];
        }
      }
    }
  }

  /**
   * The tool in closed form: the pages up to the first that stops the loop
   * are fetched, one request each, the first without a cursor and each later
   * one with the cursor of the page before.
   */
  lemma HistoryClosedForm(q: Query, pages: seq<Page>)
    ensures GetChannelHistory(q, pages).outcome == Stopped(pages, [])
    ensures RequestsFrom(q, pages, GetChannelHistory(q, pages).sent, JNull)
  {
    CrawlOutcome(q, pages, JNull, [], []);
    CrawlSent(q, pages, JNull, [], []);
    RequestsShape(q, pages, JNull);
    assert [] + Requests(q, pages, JNull) == Requests(q, pages, JNull);
  }

  /** Every request names the channel and limit; `oldest`/`latest` only when non-empty; only the first has no cursor. */
  lemma RequestsWellFormed(q: Query, pages: seq<Page>, i: nat)
    requires i < |GetChannelHistory(q, pages).sent|
    ensures var r := GetChannelHistory(q, pages).sent[i];
      && r.channel == q.channel && r.limit == q.limit
      && (r.oldest.Some? <==> q.oldest != "") && (r.latest.Some? <==> q.latest != "")
      && (i == 0 <==> r.cursor.None?)
  {
    HistoryClosedForm(q, pages);
    if i > 0 {
      assert Continues(pages[i - 1]);
    }
  }

  /**
   * A successful result is the last fetched page's data with "messages"
   * replaced by every page's messages in fetch order; the last page is the
   * one whose cursor is missing or empty.
   */
  lemma ResultIsLastPage(q: Query, pages: seq<Page>)
    requires GetChannelHistory(q, pages).outcome.History?
    ensures var n := |GetChannelHistory(q, pages).sent|;
      var d := GetChannelHistory(q, pages).outcome.result;
      && 1 <= n <= |pages| && pages[n - 1].Page?
      && (forall i :: 0 <= i < n - 1 ==> Continues(pages[i]))
      && NextCursor(pages[n - 1].data).Some? && !Truthy(NextCursor(pages[n - 1].data).value)
      && d == pages[n - 1].data["messages" := JArr(Gathered(pages[..n]))]
  {
    HistoryClosedForm(q, pages);
    var n := StopAt(pages);
    assert [] + Gathered(pages[..n + 1]) == Gathered(pages[..n + 1]);
  }

  /** A `SlackApiError` on a fetched page discards the messages gathered so far. */
  lemma ApiErrorDiscards(q: Query, pages: seq<Page>, k: nat)
    requires k < |pages| && pages[k].ApiError? && forall i :: 0 <= i < k ==> Continues(pages[i])
    ensures GetChannelHistory(q, pages).outcome == SlackError(pages[k].error)
  {
    HistoryClosedForm(q, pages);
    assert !Continues(pages[k]);
  }

  /* ---------- datetime_to_timestamp ---------- */

  /** `time.mktime` on a local date and time: seconds, or `None` when it overflows. */
  type MkTime = (Date, TimeOfDay) -> Option<int>

  datatype ConversionOutcome = Converted(result: string) | NotADate | MkTimeFailed

  /** `str(float)` of a whole number of seconds. */
  function FloatText(t: int): string {
    IntToDecimal(t) + ".0"
  }

  /** The reading `datetime_to_timestamp` makes: with a time first, else the date at midnight. */
  function ReadLocal(dt: string): (r: Option<(Date, TimeOfDay)>)
    ensures r.Some? ==> ValidDate(r.value.0) && ValidTime(r.value.1)
    ensures StrptimeDateTime(dt).Some? ==> r == StrptimeDateTime(dt)
    ensures StrptimeDateTime(dt).None? ==>
      r == (if StrptimeDate(dt).Some? then Some((StrptimeDate(dt).value, Midnight)) else None)
  {
    match StrptimeDateTime(dt)
    case Some(p) => Some(p)
    case None =>
      match StrptimeDate(dt)
      case Some(d) => Some((d, Midnight))
      case None => None
  }

  function DatetimeToTimestamp(dt: string, mktime: MkTime): ConversionOutcome {
    match ReadLocal(dt)
    case None => NotADate
    case Some((d, t)) =>
      match mktime(d, t)
      case None => MkTimeFailed
      case Some(secs) => Converted(FloatText(secs))
  }

  /** The two layouts never both apply, so the order of the attempts only matters for errors. */
  lemma LayoutsDisjoint(dt: string)
    ensures !(StrptimeDateTime(dt).Some? && StrptimeDate(dt).Some?)
  {
  }

  /** The result text reads back as the seconds `mktime` gave. */
  lemma TimestampReadsBack(dt: string, mktime: MkTime)
    requires DatetimeToTimestamp(dt, mktime).Converted?
    ensures var s := DatetimeToTimestamp(dt, mktime).result;
      var (d, t) := ReadLocal(dt).value;
      var p := s[..|s| - 2];
      && |s| >= 3 && s[|s| - 2..] == ".0" && |p| >= 1
      && (p[0] == '-' ==> |p| >= 2 && AllDigits(p[1..])) && (p[0] != '-' ==> AllDigits(p))
      && mktime(d, t) == Some(ParseDecimal(p))
  {
    var (d, t) := ReadLocal(dt).value;
    var secs := mktime(d, t).value;
    var s := FloatText(secs);
    assert s[..|s| - 2] == IntToDecimal(secs);
    IntDecimalRoundTrip(secs);
  }
}
