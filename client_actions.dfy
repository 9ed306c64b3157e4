/**
 * The batch action extractor with client attribution
 * (`part2/generate_actions_by_client.py`): identify each summary's client by
 * keyword, ask the model for actions, stamp every action with its client,
 * source file and time, keep the truthy results, organize them by client and
 * write both files when at least one file survived.
 *
 * The files, the model's replies and `json.loads` are the same inputs as in
 * `ActionBatch`; `datetime.now().isoformat()` is the parameter `now`, read
 * once per stamped action.
 */
module ClientActions {
  import opened Wrappers
  import opened PyText
  import opened JsonValues
  import opened ReplyParsing
  import opened ClientOrganization
  import AB = ActionBatch

  /* ---------- identify_client ---------- */

  /** The client assumed when no keyword matches. */
  const DefaultClient: string := "TechCorp Solutions"

  /** `CLIENT_MAPPING`: keyword and client, in the dict's order. */
  const ClientMapping: seq<(string, string)> := [
    ("workflow_approval", "TechCorp Solutions"),
    ("new_feature", "TechCorp Solutions"),
    ("approval_system", "TechCorp Solutions"),
    ("user_friendly", "TechCorp Solutions"),
    ("frustration", "TechCorp Solutions"),
    ("employees", "TechCorp Solutions"),
    ("guide", "TechCorp Solutions"),
    ("tutorial", "TechCorp Solutions"),
    ("support", "TechCorp Solutions"),
    ("training", "TechCorp Solutions"),
    ("user_testing", "TechCorp Solutions"),
    ("design", "TechCorp Solutions"),
    ("implementation", "TechCorp Solutions"),
    ("onboarding", "TechCorp Solutions"),
    ("account_manager", "TechCorp Solutions"),
    ("client", "TechCorp Solutions"),
    ("meeting", "TechCorp Solutions"),
    ("summary", "TechCorp Solutions")
  ]

  /** The client of the first keyword of `mapping` occurring in `text`. */
  function KeywordClient(mapping: seq<(string, string)>, text: string): Option<string> {
    if mapping == [] then None
    else if Contains(text, mapping[0].0) then Some(mapping[0].1)
    else KeywordClient(mapping[1..], text)
  }

  /** Entry `i` holds the first keyword of `mapping` that occurs in `text`. */
  predicate FirstKeywordAt(mapping: seq<(string, string)>, text: string, i: int) {
    && 0 <= i < |mapping|
    && Contains(text, mapping[i].0)
    && forall j :: 0 <= j < i ==> !Contains(text, mapping[j].0)
  }

  /** `KeywordClient` finds the first matching keyword, and finds none only when no keyword occurs. */
  lemma {:induction false} KeywordClientFirst(mapping: seq<(string, string)>, text: string)
    ensures KeywordClient(mapping, text).None? <==>
      forall j :: 0 <= j < |mapping| ==> !Contains(text, mapping[j].0)
    ensures KeywordClient(mapping, text).Some? ==>
      exists i :: FirstKeywordAt(mapping, text, i) && KeywordClient(mapping, text).value == mapping[i].1
  {
    if mapping != [] && !Contains(text, mapping[0].0) {
      var rest := mapping[1..];
      KeywordClientFirst(rest, text);
      if KeywordClient(rest, text).Some? {
        var i :| FirstKeywordAt(rest, text, i) && KeywordClient(rest, text).value == rest[i].1;
        assert FirstKeywordAt(mapping, text, i + 1) by {
          forall j | 0 <= j < i + 1 ensures !Contains(text, mapping[j].0) {
            if j > 0 {
              assert mapping[j] == rest[j - 1];
            }
          }
        }
      } else {
        forall j | 0 <= j < |mapping| ensures !Contains(text, mapping[j].0) {
          if j > 0 {
            assert mapping[j] == rest[j - 1];
          }
        }
      }
    } else if mapping != [] {
      assert FirstKeywordAt(mapping, text, 0);
    }
  }

  /** `identify_client(summary)`, as a value. */
  function ClientFor(summary: string): string {
    KeywordClient(ClientMapping, Lower(summary)).GetOr(DefaultClient)
  }

  /** `identify_client`: scan the keywords in order over the lower-cased summary. */
  method IdentifyClient(summary: string) returns (client: string)
    ensures client == ClientFor(summary)
  {
    var text := Lower(summary);
    var i := 0;
    while i < |ClientMapping|
      invariant 0 <= i <= |ClientMapping|
      invariant KeywordClient(ClientMapping, text) == KeywordClient(ClientMapping[i..], text)
    {
      var keyword := ClientMapping[i].0;
      if Contains(text, keyword) {
        return ClientMapping[i].1;
      }
      assert ClientMapping[i..][1..] == ClientMapping[i + 1..];
      i := i + 1;
    }
    return DefaultClient;
  }

  /**
   * Every keyword maps to the default client, so the keyword search cannot
   * change the answer: every summary is attributed to "TechCorp Solutions".
   */
  lemma IdentifiesDefaultClient(summary: string)
    ensures ClientFor(summary) == DefaultClient
  {
    KeywordClientFirst(ClientMapping, Lower(summary));
    assert forall i :: 0 <= i < |ClientMapping| ==> ClientMapping[i].1 == DefaultClient;
  }

  /* ---------- stamping ---------- */

  /**
   * The metadata loop's effect on one action: set `client`, `source_file`
   * and `generated_at`, then default `priority` to "medium" and `category`
   * to "support" when absent.
   */
  function Stamp(action: JsonObject, client: string, sourceFile: string, generatedAt: string): (r: JsonObject)
    ensures r.Keys == action.Keys + {"client", "source_file", "generated_at", "priority", "category"}
    ensures r["client"] == JStr(client)
    ensures r["source_file"] == JStr(sourceFile)
    ensures r["generated_at"] == JStr(generatedAt)
    ensures r["priority"] == Get(action, "priority", JStr("medium"))
    ensures r["category"] == Get(action, "category", JStr("support"))
    ensures forall k :: k in action && k != "client" && k != "source_file" && k != "generated_at" ==> r[k] == action[k]
  {
    var a := action["client" := JStr(client)]["source_file" := JStr(sourceFile)]["generated_at" := JStr(generatedAt)];
    var a := if "priority" in a then a else a["priority" := JStr("medium")];
    if "category" in a then a else a["category" := JStr("support")]
  }

  /**
   * A stamped action is organized under the client it was stamped with, and
   * the defaults of the stamping loop agree with those of
   * `organize_by_client`.
   */
  lemma StampedAgreesWithOrganization(action: JsonObject, client: string, sourceFile: string, generatedAt: string)
    ensures ClientOf(Stamp(action, client, sourceFile, generatedAt)) == JStr(client)
    ensures PriorityOf(Stamp(action, client, sourceFile, generatedAt)) == PriorityOf(action)
    ensures CategoryOf(Stamp(action, client, sourceFile, generatedAt)) == CategoryOf(action)
    ensures HashableAction(Stamp(action, client, sourceFile, generatedAt)) <==> Hashable(CategoryOf(action))
  { }

  /** Stamping again with the same values changes nothing. */
  lemma StampIdempotent(action: JsonObject, client: string, sourceFile: string, generatedAt: string)
    ensures var once := Stamp(action, client, sourceFile, generatedAt);
      Stamp(once, client, sourceFile, generatedAt) == once
  {
    var once := Stamp(action, client, sourceFile, generatedAt);
    var twice := Stamp(once, client, sourceFile, generatedAt);
    assert twice.Keys == once.Keys;
    forall k | k in once ensures twice[k] == once[k] {
    }
  }

  /** `datetime.now().isoformat()` at the `k`-th action of the `f`-th file. */
  type Clock = (nat, nat) -> string

  /** Every item of the parsed list is a JSON object. */
  predicate AllObjects(items: seq<Json>) {
    forall i :: 0 <= i < |items| ==> items[i].JObj?
  }

  /** The list of objects `items`, each stamped; the `k`-th reads the clock at `(f, k)`. */
  function StampAll(items: seq<Json>, client: string, sourceFile: string, f: nat, now: Clock): (r: seq<JsonObject>)
    requires AllObjects(items)
    ensures |r| == |items|
  {
    if items == [] then []
    else
      var n := |items| - 1;
      StampAll(items[..n], client, sourceFile, f, now) + [Stamp(items[n].fields, client, sourceFile, now(f, n))]
  }

  /** Entry `k` of the stamped list is item `k` stamped at clock reading `(f, k)`. */
  lemma {:induction false} StampAllAt(items: seq<Json>, client: string, sourceFile: string, f: nat, now: Clock, k: nat)
    requires AllObjects(items) && k < |items|
    ensures StampAll(items, client, sourceFile, f, now)[k] == Stamp(items[k].fields, client, sourceFile, now(f, k))
  {
    var n := |items| - 1;
    if k < n {
      StampAllAt(items[..n], client, sourceFile, f, now, k);
    }
  }

  /**
   * `for action in actions:` with the metadata assignments, over a parsed
   * list: the first item that is not an object raises `TypeError` (item
   * assignment on a string, number, list or null).
   */
  method StampActions(items: seq<Json>, client: string, sourceFile: string, f: nat, now: Clock)
    returns (r: Option<seq<JsonObject>>)
    ensures r.None? <==> !AllObjects(items)
    ensures r.Some? ==> r.value == StampAll(items, client, sourceFile, f, now)
  {
    var stamped: seq<JsonObject> := [];
    var k := 0;
    while k < |items|
      invariant 0 <= k <= |items|
      invariant AllObjects(items[..k])
      invariant stamped == StampAll(items[..k], client, sourceFile, f, now)
    {
      if !items[k].JObj? {
        return None;
      }
      assert items[..k + 1][..k] == items[..k];
      stamped := stamped + [Stamp(items[k].fields, client, sourceFile, now(f, k))];
      k := k + 1;
    }
    assert items[..k] == items;
    r := Some(stamped);
  }

  /* ---------- process_summary ---------- */

  /** What `process_summary` does with one file. */
  datatype FileOutcome =
    | MissingApiKey               // raises ValueError before the model is called
    | ModelError(error: string)   // the model call raised
    | Unparseable                 // JSONDecodeError: returns None
    | StampFailed                 // the metadata loop raises TypeError
    | Stamped(actions: seq<JsonObject>)  // returns the parsed list, every action stamped
    | Untouched(value: Json)      // returns an empty dict or empty string the loop leaves alone

  /** The metadata loop over whatever `json.loads` produced. */
  function StampReply(v: Json, client: string, sourceFile: string, f: nat, now: Clock): (out: FileOutcome)
    ensures out.Stamped? <==> v.JArr? && AllObjects(v.items)
    ensures out.Untouched? <==> v == JObj(map[]) || v == JStr("")
    ensures out.Untouched? ==> out.value == v && !Truthy(v)
    ensures out.StampFailed? || out.Stamped? || out.Untouched?
  {
    match v
    case JArr(items) => if AllObjects(items) then Stamped(StampAll(items, client, sourceFile, f, now)) else StampFailed
    case JObj(m) => if m == map[] then Untouched(v) else StampFailed
    case JStr(s) => if s == "" then Untouched(v) else StampFailed
    case _ => StampFailed
  }

  /** `process_summary` for the `f`-th file. */
  function ProcessSummary(job: AB.SummaryJob, f: nat, apiKey: Option<string>, read: ReplyReader, now: Clock): (out: FileOutcome)
    ensures out == MissingApiKey <==> !AB.HasApiKey(apiKey)
    ensures out.ModelError? <==> AB.HasApiKey(apiKey) && job.reply.CallFailed?
    ensures out.Unparseable? <==>
      AB.HasApiKey(apiKey) && job.reply.Completion? && read(job.reply.content).None?
    ensures out.Stamped? || out.Untouched? || out.StampFailed? ==>
      job.reply.Completion? && read(job.reply.content).Some?
  {
    if !AB.HasApiKey(apiKey) then MissingApiKey
    else
      match job.reply
      case CallFailed(e) => ModelError(e)
      case Completion(content) =>
        match read(content)
        case None => Unparseable
        case Some(v) => StampReply(v, ClientFor(job.summary), Basename(job.path), f, now)
  }

  /**
   * The stamped actions of a file are its parsed list, item by item, each
   * carrying the summary's client, the file's base name and its own clock
   * reading.
   */
  lemma StampedActions(job: AB.SummaryJob, f: nat, apiKey: Option<string>, read: ReplyReader, now: Clock, k: nat)
    requires ProcessSummary(job, f, apiKey, read, now).Stamped?
    requires k < |ProcessSummary(job, f, apiKey, read, now).actions|
    ensures var v := read(job.reply.content).value;
      && v.JArr? && |v.items| == |ProcessSummary(job, f, apiKey, read, now).actions|
      && v.items[k].JObj?
      && ProcessSummary(job, f, apiKey, read, now).actions[k] ==
           Stamp(v.items[k].fields, ClientFor(job.summary), Basename(job.path), now(f, k))
  {
    var v := read(job.reply.content).value;
    StampAllAt(v.items, ClientFor(job.summary), Basename(job.path), f, now, k);
  }

  /** `process_summary` as the script runs it: identify, call, parse, stamp. */
  method RunProcessSummary(job: AB.SummaryJob, f: nat, apiKey: Option<string>, read: ReplyReader, now: Clock)
    returns (out: FileOutcome)
    ensures out == ProcessSummary(job, f, apiKey, read, now)
  {
    var client := IdentifyClient(job.summary);
    if !AB.HasApiKey(apiKey) {
      return MissingApiKey;
    }
    match job.reply {
      case CallFailed(e) =>
        return ModelError(e);
      case Completion(content) =>
        var parsed := read(content);
        if parsed.None? {
          return Unparseable;
        }
        var v := parsed.value;
        if v.JArr? {
          var stamped := StampActions(v.items, client, Basename(job.path), f, now);
          if stamped.None? {
            return StampFailed;
          }
          return Stamped(stamped.value);
        }
        out := StampReply(v, client, Basename(job.path), f, now);
    }
  }

  /* ---------- main ---------- */

  /** An outcome that raises out of `main`. */
  predicate Fatal(out: FileOutcome) {
    out.MissingApiKey? || out.ModelError? || out.StampFailed?
  }

  /** `if actions:` keeps the file: only a non-empty stamped list is truthy. */
  predicate Kept(out: FileOutcome) {
    out.Stamped? && out.actions != []
  }

  /** The outcome of `process_summary` for every file, in order. */
  function Outcomes(jobs: seq<AB.SummaryJob>, apiKey: Option<string>, read: ReplyReader, now: Clock): (outs: seq<FileOutcome>)
    ensures |outs| == |jobs|
  {
    if jobs == [] then []
    else
      var n := |jobs| - 1;
      Outcomes(jobs[..n], apiKey, read, now) + [ProcessSummary(jobs[n], n, apiKey, read, now)]
  }

  /** Entry `k` of the outcome list is the outcome of file `k`. */
  lemma {:induction false} OutcomeAt(jobs: seq<AB.SummaryJob>, apiKey: Option<string>, read: ReplyReader, now: Clock, k: nat)
    requires k < |jobs|
    ensures Outcomes(jobs, apiKey, read, now)[k] == ProcessSummary(jobs[k], k, apiKey, read, now)
  {
    var n := |jobs| - 1;
    var prefix := Outcomes(jobs[..n], apiKey, read, now);
    assert Outcomes(jobs, apiKey, read, now) == prefix + [ProcessSummary(jobs[n], n, apiKey, read, now)];
    if k < n {
      OutcomeAt(jobs[..n], apiKey, read, now, k);
      assert jobs[..n][k] == jobs[k];
    }
  }

  /** The `all_results` entries of kept outcomes, each under its file's name. */
  function KeptEntries(names: seq<string>, outs: seq<FileOutcome>): seq<(string, seq<JsonObject>)>
    requires |names| == |outs|
  {
    if outs == [] then []
    else
      var n := |outs| - 1;
      var before := KeptEntries(names[..n], outs[..n]);
      if Kept(outs[n]) then before + [(names[n], outs[n].actions)] else before
  }

  lemma KeptEntriesStep(names: seq<string>, outs: seq<FileOutcome>, i: nat)
    requires |names| == |outs| && i < |outs|
    ensures KeptEntries(names[..i + 1], outs[..i + 1]) ==
      KeptEntries(names[..i], outs[..i]) + (if Kept(outs[i]) then [(names[i], outs[i].actions)] else [])
  {
    assert names[..i + 1][..i] == names[..i] && outs[..i + 1][..i] == outs[..i];
  }

  /** The `all_results` entries that the loop of `main` produces, in file order. */
  function Surviving(jobs: seq<AB.SummaryJob>, apiKey: Option<string>, read: ReplyReader, now: Clock): seq<(string, seq<JsonObject>)> {
    KeptEntries(AB.Names(jobs), Outcomes(jobs, apiKey, read, now))
  }

  /** Outcome `i` is the first one that raises. */
  predicate FirstFatalAt(outs: seq<FileOutcome>, i: int) {
    0 <= i < |outs| && Fatal(outs[i]) && forall k :: 0 <= k < i ==> !Fatal(outs[k])
  }

  /** No outcome raises. */
  predicate NoneFatal(outs: seq<FileOutcome>) {
    forall k :: 0 <= k < |outs| ==> !Fatal(outs[k])
  }

  /**
   * The loop of `main`: one `process_summary` per file in order, keeping the
   * truthy results under their base names; the first raised error stops it.
   */
  method ProcessFiles(jobs: seq<AB.SummaryJob>, apiKey: Option<string>, read: ReplyReader, now: Clock)
    returns (raised: Option<FileOutcome>, results: seq<(string, seq<JsonObject>)>)
    ensures raised.Some? ==>
      exists i :: FirstFatalAt(Outcomes(jobs, apiKey, read, now), i) && raised.value == Outcomes(jobs, apiKey, read, now)[i]
    ensures raised.None? ==> NoneFatal(Outcomes(jobs, apiKey, read, now))
    ensures raised.None? ==> results == Surviving(jobs, apiKey, read, now)
  {
    ghost var names, outs := AB.Names(jobs), Outcomes(jobs, apiKey, read, now);
    results := [];
    var i := 0;
    while i < |jobs|
      invariant 0 <= i <= |jobs|
      invariant forall k :: 0 <= k < i ==> !Fatal(outs[k])
      invariant results == KeptEntries(names[..i], outs[..i])
    {
      var filename := Basename(jobs[i].path);
      var outcome := RunProcessSummary(jobs[i], i, apiKey, read, now);
      OutcomeAt(jobs, apiKey, read, now, i);
      AB.NameAt(jobs, i);
      if Fatal(outcome) {
        assert FirstFatalAt(outs, i);
        return Some(outcome), results;
      }
      KeptEntriesStep(names, outs, i);
      if Kept(outcome) {
        results := results + [(filename, outcome.actions)];
      }
      i := i + 1;
    }
    assert names[..i] == names && outs[..i] == outs;
    raised := None;
  }

  /** How a run of `main` ends. */
  datatype ClientRun =
    | NoSummaryFiles
    | Aborted(cause: FileOutcome)
    | OrganizeFailed   // an unhashable category makes `organize_by_client` raise TypeError
    | Completed(results: seq<(string, seq<JsonObject>)>, organization: Organization, written: bool)

  /**
   * `main`: stop when there are no summary files, let a raised error end the
   * run, organize the surviving actions, and write `all_actions.json` and
   * `actions_by_client.json` iff some file survived.
   */
  method RunByClient(jobs: seq<AB.SummaryJob>, apiKey: Option<string>, read: ReplyReader, now: Clock)
    returns (run: ClientRun)
    ensures jobs == [] <==> run == NoSummaryFiles
    ensures jobs != [] && !AB.HasApiKey(apiKey) ==> run == Aborted(MissingApiKey)
    ensures run.Aborted? ==>
      exists i :: FirstFatalAt(Outcomes(jobs, apiKey, read, now), i) && run.cause == Outcomes(jobs, apiKey, read, now)[i]
    ensures run.OrganizeFailed? <==>
      jobs != [] && NoneFatal(Outcomes(jobs, apiKey, read, now)) && !AllHashable(Flatten(Surviving(jobs, apiKey, read, now)))
    ensures run.Completed? <==>
      jobs != [] && NoneFatal(Outcomes(jobs, apiKey, read, now)) && AllHashable(Flatten(Surviving(jobs, apiKey, read, now)))
    ensures run.Completed? ==> run.results == Surviving(jobs, apiKey, read, now)
    ensures run.Completed? ==> run.organization == Fold(Flatten(run.results))
    ensures run.Completed? ==> (run.written <==> run.results != [])
  {
    if jobs == [] {
      return NoSummaryFiles;
    }
    var raised, results := ProcessFiles(jobs, apiKey, read, now);
    OutcomeAt(jobs, apiKey, read, now, 0);
    if raised.Some? {
      return Aborted(raised.value);
    }
    var organized := OrganizeByClient(results);
    if organized.None? {
      return OrganizeFailed;
    }
    run := Completed(results, organized.value, results != []);
  }

  /* ---------- every action ends up under one client ---------- */

  /** Every action of `xs` is organized under client `c`. */
  predicate AllOfClient(xs: seq<JsonObject>, c: Json) {
    forall i :: 0 <= i < |xs| ==> ClientOf(xs[i]) == c
  }

  /** A stamped file's actions all carry the default client. */
  lemma StampedOfDefault(job: AB.SummaryJob, f: nat, apiKey: Option<string>, read: ReplyReader, now: Clock)
    requires ProcessSummary(job, f, apiKey, read, now).Stamped?
    ensures AllOfClient(ProcessSummary(job, f, apiKey, read, now).actions, JStr(DefaultClient))
  {
    var actions := ProcessSummary(job, f, apiKey, read, now).actions;
    IdentifiesDefaultClient(job.summary);
    forall k | 0 <= k < |actions| ensures ClientOf(actions[k]) == JStr(DefaultClient) {
      StampedActions(job, f, apiKey, read, now, k);
      var v := read(job.reply.content).value;
      StampedAgreesWithOrganization(v.items[k].fields, DefaultClient, Basename(job.path), now(f, k));
    }
  }

  lemma {:induction false} KeptEntriesOfClient(names: seq<string>, outs: seq<FileOutcome>, c: Json)
    requires |names| == |outs|
    requires forall k :: 0 <= k < |outs| && outs[k].Stamped? ==> AllOfClient(outs[k].actions, c)
    ensures AllOfClient(Flatten(KeptEntries(names, outs)), c)
  {
    if outs != [] {
      var n := |outs| - 1;
      var before := KeptEntries(names[..n], outs[..n]);
      KeptEntriesOfClient(names[..n], outs[..n], c);
      if Kept(outs[n]) {
        var files := before + [(names[n], outs[n].actions)];
        assert files[..|files| - 1] == before;
        var xs := Flatten(files);
        assert xs == Flatten(before) + outs[n].actions;
        forall i | 0 <= i < |xs| ensures ClientOf(xs[i]) == c {
          if i >= |Flatten(before)| {
            assert xs[i] == outs[n].actions[i - |Flatten(before)|];
          }
        }
      }
    }
  }

  lemma {:induction false} ClientsInOfOne(xs: seq<JsonObject>, c: Json)
    requires AllOfClient(xs, c)
    ensures ClientsIn(xs) == if xs == [] then [] else [c]
  {
    if xs != [] {
      var init := xs[..|xs| - 1];
      assert AllOfClient(init, c) by {
        forall i | 0 <= i < |init| ensures ClientOf(init[i]) == c {
          assert init[i] == xs[i];
        }
      }
      ClientsInOfOne(init, c);
    }
  }

  lemma {:induction false} OfClientOfOne(xs: seq<JsonObject>, c: Json)
    requires AllOfClient(xs, c)
    ensures OfClient(xs, c) == xs
  {
    if xs != [] {
      var init := xs[..|xs| - 1];
      assert AllOfClient(init, c) by {
        forall i | 0 <= i < |init| ensures ClientOf(init[i]) == c {
          assert init[i] == xs[i];
        }
      }
      OfClientOfOne(init, c);
      assert init + [xs[|xs| - 1]] == xs;
    }
  }

  /** Every surviving action carries the default client. */
  lemma SurvivingOfDefault(jobs: seq<AB.SummaryJob>, apiKey: Option<string>, read: ReplyReader, now: Clock)
    ensures AllOfClient(Flatten(Surviving(jobs, apiKey, read, now)), JStr(DefaultClient))
  {
    var names, outs := AB.Names(jobs), Outcomes(jobs, apiKey, read, now);
    forall k | 0 <= k < |outs| && outs[k].Stamped? ensures AllOfClient(outs[k].actions, JStr(DefaultClient)) {
      OutcomeAt(jobs, apiKey, read, now, k);
      StampedOfDefault(jobs[k], k, apiKey, read, now);
    }
    KeptEntriesOfClient(names, outs, JStr(DefaultClient));
  }

  /** Actions all of one client are organized under that client alone, in order. */
  lemma OrganizedOneClient(xs: seq<JsonObject>, c: Json)
    requires AllOfClient(xs, c)
    ensures Fold(xs).clients == (if xs == [] then [] else [c])
    ensures forall d :: d in Fold(xs).entries <==> xs != [] && d == c
    ensures xs != [] ==> Fold(xs).entries[c].allActions == xs
  {
    FoldCharacterized(xs);
    ClientsInOfOne(xs, c);
    OfClientOfOne(xs, c);
  }

  /**
   * Because every keyword maps to the same client, `actions_by_client.json`
   * has at most one key, "TechCorp Solutions", whose `all_actions` lists every
   * surviving action in file order.
   */
  lemma OrganizedUnderOneClient(jobs: seq<AB.SummaryJob>, apiKey: Option<string>, read: ReplyReader, now: Clock)
    ensures var xs := Flatten(Surviving(jobs, apiKey, read, now));
      && Fold(xs).clients == (if xs == [] then [] else [JStr(DefaultClient)])
      && (forall c :: c in Fold(xs).entries <==> xs != [] && c == JStr(DefaultClient))
      && (xs != [] ==> Fold(xs).entries[JStr(DefaultClient)].allActions == xs)
  {
    SurvivingOfDefault(jobs, apiKey, read, now);
    OrganizedOneClient(Flatten(Surviving(jobs, apiKey, read, now)), JStr(DefaultClient));
  }
}
