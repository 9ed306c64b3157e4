/**
 * The handful of Python `str` operations the scripts rely on, written out:
 * `isspace`/`strip`, ASCII `lower`, the `in` substring test, `split` on one
 * character, `join`, `replace` of one character, `os.path.basename`, and
 * `str(int)` with its inverse.
 */
module PyText {

  /** `c.isspace()` for a single character (Python's Unicode whitespace set). */
  predicate IsSpace(c: char) {
    c == ' ' || c == '\t' || c == '\n' || c == '\r' || c == '\U{000B}' || c == '\U{000C}'
    || ('\U{001C}' <= c <= '\U{001F}') || c == '\U{0085}' || c == '\U{00A0}' || c == '\U{1680}'
    || ('\U{2000}' <= c <= '\U{200A}') || c == '\U{2028}' || c == '\U{2029}' || c == '\U{202F}'
    || c == '\U{205F}' || c == '\U{3000}'
  }

  /** `s.lstrip()`: drops the leading whitespace, and only that. */
  function LStrip(s: string): (r: string)
    ensures |r| <= |s| && r == s[|s| - |r|..]
    ensures forall i :: 0 <= i < |s| - |r| ==> IsSpace(s[i])
    ensures r == [] || !IsSpace(r[0])
  {
    if s != [] && IsSpace(s[0]) then LStrip(s[1..]) else s
  }

  /** `s.rstrip()`: drops the trailing whitespace, and only that. */
  function RStrip(s: string): (r: string)
    ensures |r| <= |s| && r == s[..|r|]
    ensures forall i :: |r| <= i < |s| ==> IsSpace(s[i])
    ensures r == [] || !IsSpace(r[|r| - 1])
  {
    if s != [] && IsSpace(s[|s| - 1]) then RStrip(s[..|s| - 1]) else s
  }

  /** `s.strip()`. */
  function Strip(s: string): string {
    RStrip(LStrip(s))
  }

  /** `r` is `s` with exactly the whitespace before position `k` and after `k + |r|` removed. */
  predicate TrimmedAt(s: string, r: string, k: int) {
    && 0 <= k <= |s| - |r| && r == s[k..k + |r|]
    && (forall i :: 0 <= i < k ==> IsSpace(s[i]))
    && (forall i :: k + |r| <= i < |s| ==> IsSpace(s[i]))
    && (r == [] || (!IsSpace(r[0]) && !IsSpace(r[|r| - 1])))
  }

  /** Stripping keeps a contiguous middle part of `s` and removes only whitespace around it. */
  lemma StripIsTrimmedMiddle(s: string)
    ensures exists k :: TrimmedAt(s, Strip(s), k)
  {
    var l := LStrip(s);
    var r := RStrip(l);
    var k := |s| - |l|;
    assert r == s[k..k + |r|];
    forall i | k + |r| <= i < |s| ensures IsSpace(s[i]) {
      assert s[i] == l[i - k];
    }
    if r != [] {
      assert r[0] == l[0];
    }
    assert Strip(s) == r;
    assert TrimmedAt(s, r, k);
  }

  /** Stripping twice is stripping once. */
  lemma StripIdempotent(s: string)
    ensures Strip(Strip(s)) == Strip(s)
  {
    var r := Strip(s);
    assert LStrip(r) == r;
    assert RStrip(r) == r;
  }

  /** `c.lower()` restricted to ASCII letters. */
  function LowerChar(c: char): char {
    if 'A' <= c <= 'Z' then (c as int + 32) as char else c
  }

  /** `s.lower()` restricted to ASCII letters. */
  function Lower(s: string): (r: string)
    ensures |r| == |s|
    ensures forall i :: 0 <= i < |s| ==> r[i] == LowerChar(s[i])
  {
    if s == [] then [] else [LowerChar(s[0])] + Lower(s[1..])
  }

  /** Python's `p in s` for strings; the empty string occurs in every string. */
  predicate Contains(s: string, p: string)
    decreases |s|
  {
    p <= s || (s != [] && Contains(s[1..], p))
  }

  /** `p` occurs in `s` at position `k`. */
  predicate OccursAt(s: string, p: string, k: int) {
    0 <= k <= |s| - |p| && s[k..k + |p|] == p
  }

  /** `Contains` holds exactly when `p` occurs at some position of `s`. */
  lemma {:induction false} ContainsAt(s: string, p: string)
    ensures Contains(s, p) <==> exists k :: OccursAt(s, p, k)
    decreases |s|
  {
    if p <= s {
      assert OccursAt(s, p, 0);
    } else if s == [] {
    } else {
      ContainsAt(s[1..], p);
      if exists k :: OccursAt(s, p, k) {
        var k :| OccursAt(s, p, k);
        assert OccursAt(s[1..], p, k - 1) by { assert s[1..][k - 1..k - 1 + |p|] == s[k..k + |p|]; }
      }
      if Contains(s[1..], p) {
        var k :| OccursAt(s[1..], p, k);
        assert OccursAt(s, p, k + 1) by { assert s[1..][k..k + |p|] == s[k + 1..k + 1 + |p|]; }
      }
    }
  }

  /** Number of occurrences of `c` in `s`. */
  function Occurrences(s: string, c: char): nat {
    if s == [] then 0 else (if s[0] == c then 1 else 0) + Occurrences(s[1..], c)
  }

  /** `s.split(c)` with an explicit one-character separator: empty pieces are kept. */
  function Split(s: string, c: char): (parts: seq<string>)
    ensures |parts| >= 1
  {
    if s == [] then [""]
    else if s[0] == c then [""] + Split(s[1..], c)
    else
      var rest := Split(s[1..], c);
      [[s[0]] + rest[0]] + rest[1..]
  }

  /** `sep.join(parts)`. */
  function Join(parts: seq<string>, sep: string): string {
    if |parts| == 0 then ""
    else if |parts| == 1 then parts[0]
    else parts[0] + sep + Join(parts[1..], sep)
  }

  lemma JoinPrependToFirst(p: string, parts: seq<string>, sep: string)
    requires |parts| >= 1
    ensures Join([p + parts[0]] + parts[1..], sep) == p + Join(parts, sep)
  {
    var q := [p + parts[0]] + parts[1..];
    assert q[1..] == parts[1..];
  }

  /** `s.split(c)` has one piece more than `s` has separators. */
  lemma {:induction false} SplitCount(s: string, c: char)
    ensures |Split(s, c)| == Occurrences(s, c) + 1
  {
    if s != [] {
      SplitCount(s[1..], c);
    }
  }

  /** No piece of `s.split(c)` contains the separator. */
  lemma {:induction false} SplitPiecesFree(s: string, c: char)
    ensures forall i :: 0 <= i < |Split(s, c)| ==> c !in Split(s, c)[i]
  {
    if s != [] {
      SplitPiecesFree(s[1..], c);
    }
  }

  /** Joining the pieces of a split with the separator gives the string back. */
  lemma {:induction false} JoinSplit(s: string, c: char)
    ensures Join(Split(s, c), [c]) == s
  {
    if s == [] {
    } else if s[0] == c {
      JoinSplit(s[1..], c);
      var rest := Split(s[1..], c);
      assert ([""] + rest)[1..] == rest;
    } else {
      JoinSplit(s[1..], c);
      var rest := Split(s[1..], c);
      JoinPrependToFirst([s[0]], rest, [c]);
    }
  }

  lemma {:induction false} SplitPrefixFree(p: string, rest: string, c: char)
    requires c !in p
    ensures Split(p + rest, c) == [p + Split(rest, c)[0]] + Split(rest, c)[1..]
  {
    var tail := Split(rest, c);
    if p != [] {
      var s := p + rest;
      SplitPrefixFree(p[1..], rest, c);
      assert s[0] == p[0] && s[0] != c;
      assert s[1..] == p[1..] + rest;
      var inner := Split(p[1..] + rest, c);
      assert Split(s, c) == [[p[0]] + inner[0]] + inner[1..];
      ConcatAssoc([p[0]], p[1..], tail[0]);
      assert [p[0]] + p[1..] == p;
    } else {
      assert p + rest == rest;
      assert p + tail[0] == tail[0];
      assert tail == [tail[0]] + tail[1..];
    }
  }

  /** Concatenation regroups freely (stated once so that proofs can call it instead of searching). */
  lemma ConcatAssoc<T>(x: seq<T>, y: seq<T>, z: seq<T>)
    ensures (x + y) + z == x + (y + z)
  {
  }

  /** Splitting a join whose pieces are free of the separator gives the pieces back. */
  lemma {:induction false} SplitJoin(parts: seq<string>, c: char)
    requires |parts| >= 1
    requires forall i :: 0 <= i < |parts| ==> c !in parts[i]
    ensures Split(Join(parts, [c]), c) == parts
  {
    if |parts| == 1 {
      SplitPrefixFree(parts[0], "", c);
      assert parts[0] + "" == parts[0];
    } else {
      var tail := Join(parts[1..], [c]);
      SplitJoin(parts[1..], c);
      assert Join(parts, [c]) == parts[0] + ([c] + tail);
      SplitPrefixFree(parts[0], [c] + tail, c);
      assert ([c] + tail)[1..] == tail;
      var s := Split([c] + tail, c);
      assert s == [""] + parts[1..];
      assert s[0] == "" && s[1..] == parts[1..];
      assert parts[0] + "" == parts[0];
      assert parts == [parts[0]] + parts[1..];
    }
  }

  /** `s.replace(c, r)`: every occurrence of the character `c` is replaced. */
  function ReplaceAll(s: string, c: char, r: string): (t: string)
    ensures c !in r ==> c !in t
  {
    if s == [] then []
    else (if s[0] == c then r else [s[0]]) + ReplaceAll(s[1..], c, r)
  }

  /** A string with no `c` is left as it is by `replace`. */
  lemma {:induction false} ReplaceAbsent(s: string, c: char, r: string)
    requires c !in s
    ensures ReplaceAll(s, c, r) == s
  {
    if s != [] {
      ReplaceAbsent(s[1..], c, r);
    }
  }

  /** `os.path.basename(p)` on POSIX: the part after the last '/'. */
  function Basename(p: string): string {
    p[BaseStart(p)..]
  }

  /** `r` is the last '/'-separated component of `p`: a suffix with no '/', preceded by '/' unless it is all of `p`. */
  predicate LastComponent(p: string, r: string) {
    && |r| <= |p| && r == p[|p| - |r|..]
    && '/' !in r
    && (|r| < |p| ==> p[|p| - |r| - 1] == '/')
  }

  lemma BasenameIsLastComponent(p: string)
    ensures LastComponent(p, Basename(p))
  {
  }

  /** Where the last path component of `p` begins: just after its last '/', or 0. */
  function BaseStart(p: string): (k: nat)
    ensures k <= |p| && '/' !in p[k..]
    ensures k > 0 ==> p[k - 1] == '/'
  {
    if p == [] then 0
    else if p[|p| - 1] == '/' then |p|
    else
      var init := p[..|p| - 1];
      var k := BaseStart(init);
      assert p[k..] == init[k..] + [p[|p| - 1]];
      k
  }

  predicate IsDigit(c: char) {
    '0' <= c <= '9'
  }

  predicate AllDigits(s: string) {
    forall i :: 0 <= i < |s| ==> IsDigit(s[i])
  }

  function DigitChar(d: nat): (c: char)
    requires d < 10
    ensures IsDigit(c)
  {
    ('0' as int + d) as char
  }

  /** The value of a string of decimal digits (`int(s)` for such strings). */
  function DecimalValue(s: string): nat
    requires AllDigits(s)
  {
    if s == [] then 0
    else 10 * DecimalValue(s[..|s| - 1]) + (s[|s| - 1] as int - '0' as int)
  }

  /** `str(n)` for a natural number: decimal digits without leading zeros. */
  function NatToDecimal(n: nat): (s: string)
    ensures |s| >= 1 && AllDigits(s)
    ensures s[0] == '0' ==> s == "0"
  {
    if n < 10 then [DigitChar(n)] else NatToDecimal(n / 10) + [DigitChar(n % 10)]
  }

  /** Reading back the digits of `str(n)` gives `n`. */
  lemma {:induction false} DecimalRoundTrip(n: nat)
    ensures DecimalValue(NatToDecimal(n)) == n
  {
    if n >= 10 {
      DecimalRoundTrip(n / 10);
      var s := NatToDecimal(n);
      assert s[..|s| - 1] == NatToDecimal(n / 10);
    }
  }

  /** `str(n)` for an integer. */
  function IntToDecimal(n: int): (s: string)
    ensures |s| >= 1
    ensures n < 0 <==> s[0] == '-'
  {
    if n < 0 then "-" + NatToDecimal(-n) else NatToDecimal(n)
  }

  /** `int(s)` for an optional '-' followed by at least one digit. */
  function ParseDecimal(s: string): (r: int)
    requires |s| >= 1
    requires s[0] == '-' ==> |s| >= 2 && AllDigits(s[1..])
    requires s[0] != '-' ==> AllDigits(s)
  {
    if s[0] == '-' then 0 - DecimalValue(s[1..]) else DecimalValue(s)
  }

  /** `int(str(n)) == n`. */
  lemma IntDecimalRoundTrip(n: int)
    ensures var s := IntToDecimal(n); s[0] == '-' ==> |s| >= 2 && AllDigits(s[1..])
    ensures var s := IntToDecimal(n); s[0] != '-' ==> AllDigits(s)
    ensures ParseDecimal(IntToDecimal(n)) == n
  {
    if n < 0 {
      DecimalRoundTrip(-n);
      assert IntToDecimal(n)[1..] == NatToDecimal(-n);
    } else {
      DecimalRoundTrip(n);
    }
  }
}
