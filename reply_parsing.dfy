/**
 * Recovering the JSON array from a language-model reply, as both action
 * extractors do: strip the reply, take the span that
 * `re.search(r'\[.*\]', content, re.DOTALL)` finds, or the whole reply when
 * there is none, and hand it to `json.loads`.
 */
module ReplyParsing {
  import opened Wrappers
  import opened PyText
  import opened JsonValues

  /** The first position of `c` in `s`. */
  function FirstIndex(s: string, c: char): (r: Option<nat>)
    ensures r.Some? ==> r.value < |s| && s[r.value] == c && c !in s[..r.value]
    ensures r.None? ==> c !in s
  {
    if s == [] then None
    else if s[0] == c then Some(0)
    else
      match FirstIndex(s[1..], c)
      case None => None
      case Some(i) =>
        assert s[..i + 1] == [s[0]] + s[1..][..i];
        Some(i + 1)
  }

  /** The last position of `c` in `s`. */
  function LastIndex(s: string, c: char): (r: Option<nat>)
    ensures r.Some? ==> r.value < |s| && s[r.value] == c && c !in s[r.value + 1..]
    ensures r.None? ==> c !in s
  {
    if s == [] then None
    else if s[|s| - 1] == c then Some(|s| - 1)
    else
      var init := s[..|s| - 1];
      match LastIndex(init, c)
      case None => assert s == init + [s[|s| - 1]]; None
      case Some(i) =>
        assert s[i + 1..] == init[i + 1..] + [s[|s| - 1]];
        Some(i)
  }

  /** An opening bracket at `i` with a closing bracket after it at `j`. */
  predicate BracketPair(s: string, i: int, j: int) {
    0 <= i < j < |s| && s[i] == '[' && s[j] == ']'
  }

  /** `s[i..j + 1]` runs from the first '[' of `s` to its last ']'. */
  predicate OuterSpan(s: string, i: int, j: int) {
    BracketPair(s, i, j) && '[' !in s[..i] && ']' !in s[j + 1..]
  }

  /**
   * `re.search(r'\[.*\]', s, re.DOTALL)`: the leftmost '[' that has a ']'
   * after it, matched greedily up to the last ']' (newlines included).
   */
  function SearchBracketSpan(s: string): (r: Option<string>)
    ensures r.Some? <==> exists i, j :: BracketPair(s, i, j)
    ensures r.Some? ==> exists i, j :: OuterSpan(s, i, j) && r.value == s[i..j + 1]
  {
    match (FirstIndex(s, '['), LastIndex(s, ']'))
    case (Some(i), Some(j)) =>
      if i < j then
        assert OuterSpan(s, i, j);
        Some(s[i..j + 1])
      else
        NoPairAfterLastClose(s, i, j);
        None
    case (None, _) => None
    case (_, None) => None
  }

  lemma NoPairAfterLastClose(s: string, first: nat, last: nat)
    requires first < |s| && s[first] == '[' && '[' !in s[..first]
    requires last < |s| && s[last] == ']' && ']' !in s[last + 1..]
    requires last <= first
    ensures !exists i, j :: BracketPair(s, i, j)
  {
  }

  /** The text handed to `json.loads`: the bracket span when there is one, else the whole content. */
  function JsonText(content: string): string {
    match SearchBracketSpan(content)
    case Some(span) => span
    case None => content
  }

  /** Recovers the span from first '[' to last ']', or keeps the whole text when no ']' follows a '['. */
  lemma JsonTextSpan(content: string)
    ensures (exists i, j :: BracketPair(content, i, j)) ==>
      exists i, j :: OuterSpan(content, i, j) && JsonText(content) == content[i..j + 1]
    ensures (!exists i, j :: BracketPair(content, i, j)) ==> JsonText(content) == content
  {
    var r := SearchBracketSpan(content);
    if r.Some? {
      var i, j :| OuterSpan(content, i, j) && r.value == content[i..j + 1];
      assert JsonText(content) == content[i..j + 1];
    }
  }

  /** A reply that is exactly a bracketed array is parsed whole. */
  lemma JsonTextOfBareArray(content: string)
    requires |content| >= 2 && content[0] == '[' && content[|content| - 1] == ']'
    ensures JsonText(content) == content
  {
    var n := |content|;
    assert BracketPair(content, 0, n - 1);
    JsonTextSpan(content);
    var i, j :| OuterSpan(content, i, j) && JsonText(content) == content[i..j + 1];
    assert content[0..n] == content;
  }

  /**
   * The parsing step of `process_summary`: the stripped reply, reduced to its
   * bracket span, parsed; a `JSONDecodeError` gives `None`.
   */
  function ParseReply(reply: string, parse: JsonParser): (r: Option<Json>)
    ensures r.None? <==> parse(JsonText(Strip(reply))).DecodeError?
    ensures r.Some? ==> parse(JsonText(Strip(reply))) == Parsed(r.value)
  {
    match parse(JsonText(Strip(reply)))
    case Parsed(v) => Some(v)
    case DecodeError(_) => None
  }

  /** How a script turns the model's reply text into a value, or `None` on a `JSONDecodeError`. */
  type ReplyReader = string -> Option<Json>

  /** The reader both action extractors use: `ParseReply` with the given `json.loads`. */
  function Reader(parse: JsonParser): ReplyReader {
    reply => ParseReply(reply, parse)
  }
}
