/**
 * The batch action extractor without client attribution
 * (`part2/generate_actions.py`): collect the summary files, ask the model for
 * actions per file, keep the files whose parsed reply is truthy, and write
 * them out only when at least one survived.
 */
module ActionBatch {
  import opened Wrappers
  import opened PyText
  import opened JsonValues
  import opened ReplyParsing

  /** What the chat-completion call did for one file: a reply, or an exception's text. */
  datatype ModelReply = Completion(content: string) | CallFailed(error: string)

  /** One summary file with the model's answer to it. */
  datatype SummaryJob = SummaryJob(path: string, summary: string, reply: ModelReply)

  /** What `process_summary` does with one file. */
  datatype FileOutcome =
    | MissingApiKey          // raises ValueError before the model is called
    | ModelError(error: string)  // the model call raised
    | Unparseable            // JSONDecodeError: returns None
    | Actions(value: Json)   // returns whatever json.loads produced

  /** `os.environ.get('TOGETHER_API_KEY')` is truthy. */
  predicate HasApiKey(apiKey: Option<string>) {
    apiKey.Some? && apiKey.value != ""
  }

  /** `get_summary_files`: the outputs-directory matches, then the results-directory matches. */
  function SummaryFiles(outputs: seq<string>, results: seq<string>): (files: seq<string>)
    ensures |files| == |outputs| + |results|
    ensures files[..|outputs|] == outputs && files[|outputs|..] == results
  {
    outputs + results
  }

  /** `process_summary` for one file. */
  function ProcessSummary(job: SummaryJob, apiKey: Option<string>, read: ReplyReader): (out: FileOutcome)
    ensures out == MissingApiKey <==> !HasApiKey(apiKey)
    ensures out.ModelError? <==> HasApiKey(apiKey) && job.reply.CallFailed?
    ensures out.Unparseable? <==>
      HasApiKey(apiKey) && job.reply.Completion? && read(job.reply.content).None?
    ensures out.Actions? ==> job.reply.Completion? && read(job.reply.content) == Some(out.value)
  {
    if !HasApiKey(apiKey) then MissingApiKey
    else
      match job.reply
      case CallFailed(e) => ModelError(e)
      case Completion(content) =>
        match read(content)
        case None => Unparseable
        case Some(v) => Actions(v)
  }

  /** An outcome that raises out of `main`. */
  predicate Fatal(out: FileOutcome) {
    out.MissingApiKey? || out.ModelError?
  }

  /** `if actions:` keeps the file. */
  predicate Kept(out: FileOutcome) {
    out.Actions? && Truthy(out.value)
  }

  /** The outcome of `process_summary` for every file, in order. */
  function Outcomes(jobs: seq<SummaryJob>, apiKey: Option<string>, read: ReplyReader): (outs: seq<FileOutcome>)
    ensures |outs| == |jobs|
  {
    if jobs == [] then []
    else Outcomes(jobs[..|jobs| - 1], apiKey, read) + [ProcessSummary(jobs[|jobs| - 1], apiKey, read)]
  }

  /** Entry `k` of the outcome list is the outcome of file `k`. */
  lemma {:induction false} OutcomeAt(jobs: seq<SummaryJob>, apiKey: Option<string>, read: ReplyReader, k: nat)
    requires k < |jobs|
    ensures Outcomes(jobs, apiKey, read)[k] == ProcessSummary(jobs[k], apiKey, read)
  {
    var n := |jobs| - 1;
    if k < n {
      OutcomeAt(jobs[..n], apiKey, read, k);
    }
  }

  /** The base names the results are recorded under, in file order. */
  function Names(jobs: seq<SummaryJob>): (names: seq<string>)
    ensures |names| == |jobs|
  {
    if jobs == [] then [] else Names(jobs[..|jobs| - 1]) + [Basename(jobs[|jobs| - 1].path)]
  }

  /** Entry `k` of the name list is the base name of file `k`. */
  lemma {:induction false} NameAt(jobs: seq<SummaryJob>, k: nat)
    requires k < |jobs|
    ensures Names(jobs)[k] == Basename(jobs[k].path)
  {
    var n := |jobs| - 1;
    if k < n {
      NameAt(jobs[..n], k);
    }
  }

  /** The entries kept from per-file outcomes: each truthy outcome under its file's name. */
  function KeptEntries(names: seq<string>, outs: seq<FileOutcome>): seq<(string, Json)>
    requires |names| == |outs|
  {
    if outs == [] then []
    else
      var n := |outs| - 1;
      var before := KeptEntries(names[..n], outs[..n]);
      if Kept(outs[n]) then before + [(names[n], outs[n].value)] else before
  }

  /** One more outcome appends its entry, when it is kept, to those of the prefix. */
  lemma KeptEntriesStep(names: seq<string>, outs: seq<FileOutcome>, i: nat)
    requires |names| == |outs| && i < |outs|
    ensures KeptEntries(names[..i + 1], outs[..i + 1]) ==
      KeptEntries(names[..i], outs[..i]) + (if Kept(outs[i]) then [(names[i], outs[i].value)] else [])
  {
    assert names[..i + 1][..i] == names[..i] && outs[..i + 1][..i] == outs[..i];
  }

  /** Outcome `i` is kept and contributes the entry `e`. */
  predicate KeptAt(names: seq<string>, outs: seq<FileOutcome>, i: int, e: (string, Json)) {
    0 <= i < |outs| && i < |names| && Kept(outs[i]) && e == (names[i], outs[i].value)
  }

  /** The kept entries are exactly the truthy outcomes under their names. */
  lemma {:induction false} KeptEntriesExactly(names: seq<string>, outs: seq<FileOutcome>)
    requires |names| == |outs|
    ensures |KeptEntries(names, outs)| <= |outs|
    ensures forall e :: e in KeptEntries(names, outs) <==> exists i :: KeptAt(names, outs, i, e)
  {
    if outs != [] {
      var n := |outs| - 1;
      var ns, os := names[..n], outs[..n];
      KeptEntriesExactly(ns, os);
      forall e ensures e in KeptEntries(names, outs) <==> exists i :: KeptAt(names, outs, i, e) {
        if e in KeptEntries(ns, os) {
          var i :| KeptAt(ns, os, i, e);
          assert KeptAt(names, outs, i, e);
        } else if e in KeptEntries(names, outs) {
          assert KeptAt(names, outs, n, e);
        }
        if exists i :: KeptAt(names, outs, i, e) {
          var i :| KeptAt(names, outs, i, e);
          if i < n {
            assert KeptAt(ns, os, i, e);
          }
        }
      }
    }
  }

  /** The `all_results` entries that the loop of `main` produces, in file order. */
  function Surviving(jobs: seq<SummaryJob>, apiKey: Option<string>, read: ReplyReader): seq<(string, Json)> {
    KeptEntries(Names(jobs), Outcomes(jobs, apiKey, read))
  }

  /** File `i` survives the loop of `main` and contributes the entry `e`. */
  predicate EntryOf(jobs: seq<SummaryJob>, i: int, e: (string, Json), apiKey: Option<string>, read: ReplyReader) {
    0 <= i < |jobs| && Kept(ProcessSummary(jobs[i], apiKey, read))
    && e == (Basename(jobs[i].path), ProcessSummary(jobs[i], apiKey, read).value)
  }

  /**
   * `all_results` holds exactly the files whose outcome is truthy, each with
   * that outcome, and nothing else.
   */
  lemma SurvivingExactly(jobs: seq<SummaryJob>, apiKey: Option<string>, read: ReplyReader)
    ensures |Surviving(jobs, apiKey, read)| <= |jobs|
    ensures forall e :: e in Surviving(jobs, apiKey, read) <==> exists i :: EntryOf(jobs, i, e, apiKey, read)
  {
    var names, outs := Names(jobs), Outcomes(jobs, apiKey, read);
    KeptEntriesExactly(names, outs);
    forall e ensures e in Surviving(jobs, apiKey, read) <==> exists i :: EntryOf(jobs, i, e, apiKey, read) {
      if e in Surviving(jobs, apiKey, read) {
        var i :| KeptAt(names, outs, i, e);
        OutcomeAt(jobs, apiKey, read, i);
        NameAt(jobs, i);
        assert EntryOf(jobs, i, e, apiKey, read);
      }
      if exists i :: EntryOf(jobs, i, e, apiKey, read) {
        var i :| EntryOf(jobs, i, e, apiKey, read);
        OutcomeAt(jobs, apiKey, read, i);
        NameAt(jobs, i);
        assert KeptAt(names, outs, i, e);
      }
    }
  }

  /** How a run of `main` ends. */
  datatype BatchRun =
    | NoSummaryFiles
    | Aborted(cause: FileOutcome)
    | Completed(results: seq<(string, Json)>, written: bool)

  /** Outcome `i` is the first one that raises. */
  predicate FirstFatalAt(outs: seq<FileOutcome>, i: int) {
    0 <= i < |outs| && Fatal(outs[i]) && forall k :: 0 <= k < i ==> !Fatal(outs[k])
  }

  /** No outcome raises. */
  predicate NoneFatal(outs: seq<FileOutcome>) {
    forall k :: 0 <= k < |outs| ==> !Fatal(outs[k])
  }

  /** The run raises unless the API key is set and every model call returned a reply. */
  lemma NoneFatalIff(jobs: seq<SummaryJob>, apiKey: Option<string>, read: ReplyReader)
    ensures NoneFatal(Outcomes(jobs, apiKey, read)) <==>
      jobs == [] || (HasApiKey(apiKey) && forall k :: 0 <= k < |jobs| ==> jobs[k].reply.Completion?)
  {
    var outs := Outcomes(jobs, apiKey, read);
    forall k | 0 <= k < |jobs| ensures outs[k] == ProcessSummary(jobs[k], apiKey, read) {
      OutcomeAt(jobs, apiKey, read, k);
    }
  }

  /**
   * The loop of `main`: one `process_summary` per file in order, keeping the
   * truthy results under their base names; the first raised error stops it.
   */
  method ProcessFiles(jobs: seq<SummaryJob>, apiKey: Option<string>, read: ReplyReader)
    returns (raised: Option<FileOutcome>, results: seq<(string, Json)>)
    ensures raised.Some? ==>
      exists i :: FirstFatalAt(Outcomes(jobs, apiKey, read), i) && raised.value == Outcomes(jobs, apiKey, read)[i]
    ensures raised.None? ==> NoneFatal(Outcomes(jobs, apiKey, read))
    ensures raised.None? ==> results == Surviving(jobs, apiKey, read)
  {
    ghost var names, outs := Names(jobs), Outcomes(jobs, apiKey, read);
    results := [];
    var i := 0;
    while i < |jobs|
      invariant 0 <= i <= |jobs|
      invariant forall k :: 0 <= k < i ==> !Fatal(outs[k])
      invariant results == KeptEntries(names[..i], outs[..i])
    {
      var filename := Basename(jobs[i].path);
      var outcome := ProcessSummary(jobs[i], apiKey, read);
      OutcomeAt(jobs, apiKey, read, i);
      NameAt(jobs, i);
      if Fatal(outcome) {
        assert FirstFatalAt(outs, i);
        return Some(outcome), results;
      }
      KeptEntriesStep(names, outs, i);
      if Kept(outcome) {
        results := results + [(filename, outcome.value)];
      }
      i := i + 1;
    }
    assert names[..i] == names && outs[..i] == outs;
    raised := None;
  }

  /**
   * `main`: stop when there are no summary files, let a raised error end the
   * run, and write `all_actions.json` iff some file survived.
   */
  method RunBatch(jobs: seq<SummaryJob>, apiKey: Option<string>, read: ReplyReader) returns (run: BatchRun)
    ensures jobs == [] <==> run == NoSummaryFiles
    ensures jobs != [] && !HasApiKey(apiKey) ==> run == Aborted(MissingApiKey)
    ensures run.Aborted? ==>
      exists i :: FirstFatalAt(Outcomes(jobs, apiKey, read), i) && run.cause == Outcomes(jobs, apiKey, read)[i]
    ensures run.Completed? <==> jobs != [] && NoneFatal(Outcomes(jobs, apiKey, read))
    ensures run.Completed? ==> run.results == Surviving(jobs, apiKey, read)
    ensures run.Completed? ==> (run.written <==> run.results != [])
  {
    if jobs == [] {
      return NoSummaryFiles;
    }
    var raised, results := ProcessFiles(jobs, apiKey, read);
    OutcomeAt(jobs, apiKey, read, 0);
    if raised.Some? {
      run := Aborted(raised.value);
    } else {
      run := Completed(results, results != []);
    }
  }
}
