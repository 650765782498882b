/** Transcript assembly in `stop_recording`: every segment's text stripped
    of surrounding whitespace, the results joined by single spaces; and the
    truncations used in the notifications. */
module Transcript {

  /** The characters Python's `str.isspace` (and so `str.strip`) treats as
      whitespace. */
  predicate IsSpace(c: char) {
    || '\t' <= c <= '\r' || '\U{1C}' <= c <= ' '
    || c == '\U{85}' || c == '\U{A0}' || c == '\U{1680}'
    || '\U{2000}' <= c <= '\U{200A}' || c == '\U{2028}' || c == '\U{2029}'
    || c == '\U{202F}' || c == '\U{205F}' || c == '\U{3000}'
  }

  predicate AllSpace(s: string) {
    forall k :: 0 <= k < |s| ==> IsSpace(s[k])
  }

  /** The number of leading whitespace characters of `s`. */
  function LeadingSpace(s: string): (n: nat)
    ensures n <= |s| && AllSpace(s[..n])
    ensures n < |s| ==> !IsSpace(s[n])
    decreases |s|
  {
    if |s| > 0 && IsSpace(s[0]) then
      var m := LeadingSpace(s[1..]);
      assert s[..m + 1] == [s[0]] + s[1..][..m];
      m + 1
    else 0
  }

  /** Where the trailing whitespace of `s` begins. */
  function TrailingSpace(s: string): (j: nat)
    ensures j <= |s| && AllSpace(s[j..])
    ensures 0 < j ==> !IsSpace(s[j - 1])
    decreases |s|
  {
    if |s| > 0 && IsSpace(s[|s| - 1]) then
      var j := TrailingSpace(s[..|s| - 1]);
      assert s[j..] == s[..|s| - 1][j..] + [s[|s| - 1]];
      j
    else |s|
  }

  /** `s.strip()`, as CPython computes it: skip whitespace from the left,
      then from the right without crossing the left position. The result
      is `s` with only surrounding whitespace removed, is empty exactly
      when `s` is all whitespace, and otherwise starts and ends with a
      non-whitespace character. */
  function Strip(s: string): (r: string)
    ensures r == [] <==> AllSpace(s)
    ensures r != [] ==> !IsSpace(r[0]) && !IsSpace(r[|r| - 1])
    ensures var i := LeadingSpace(s);
      i + |r| <= |s| && r == s[i..i + |r|] && AllSpace(s[..i]) && AllSpace(s[i + |r|..])
  {
    var i, j := LeadingSpace(s), TrailingSpace(s);
    if i < j then
      s[i..j]
    else
      assert i == |s|;
      assert AllSpace(s) by { assert s[..i] == s; }
      ""
  }

  /** Stripping twice is stripping once. */
  lemma StripIdempotent(s: string)
    ensures Strip(Strip(s)) == Strip(s)
  {
    var r := Strip(s);
    if r != [] {
      assert LeadingSpace(r) == 0;
      assert TrailingSpace(r) == |r|;
      assert r[0..|r|] == r;
    }
  }

  /** `" ".join(parts)`. */
  function Join(parts: seq<string>): (joined: string) {
    if |parts| == 0 then ""
    else if |parts| == 1 then parts[0]
    else parts[0] + " " + Join(parts[1..])
  }

  /** The segment texts after stripping, one for each segment in order:
      a blank segment leaves an empty part, and every other part starts
      and ends with a non-whitespace character. */
  function Stripped(texts: seq<string>): (r: seq<string>)
    ensures |r| == |texts|
    ensures forall k :: 0 <= k < |r| ==> (r[k] == [] <==> AllSpace(texts[k]))
    ensures forall k :: 0 <= k < |r| && r[k] != [] ==> !IsSpace(r[k][0]) && !IsSpace(r[k][|r[k]| - 1])
  {
    seq(|texts|, k requires 0 <= k < |texts| => Strip(texts[k]))
  }

  /** The transcript of the recognised segments, in emission order. */
  function TranscriptOf(texts: seq<string>): string {
    Join(Stripped(texts))
  }

  function TotalLength(parts: seq<string>): nat {
    if parts == [] then 0 else |parts[0]| + TotalLength(parts[1..])
  }

  /** The joined text holds every part and one separator between each two. */
  lemma {:induction false} JoinLength(parts: seq<string>)
    requires parts != []
    ensures |Join(parts)| == TotalLength(parts) + |parts| - 1
  {
    if |parts| > 1 {
      JoinLength(parts[1..]);
    } else {
      assert parts[1..] == [];
    }
  }

  /** `s.split(" ")`: the pieces between single spaces. */
  function Split(s: string): (r: seq<string>)
    ensures |r| >= 1
  {
    if s == [] then [""]
    else if s[0] == ' ' then [""] + Split(s[1..])
    else
      var t := Split(s[1..]);
      [[s[0]] + t[0]] + t[1..]
  }

  lemma {:induction false} SplitNoSpace(p: string, rest: string)
    requires forall k :: 0 <= k < |p| ==> p[k] != ' '
    ensures Split(p + rest) == [p + Split(rest)[0]] + Split(rest)[1..]
  {
    if p != [] {
      SplitNoSpace(p[1..], rest);
      var t := Split(p[1..] + rest);
      assert (p + rest)[1..] == p[1..] + rest;
      assert t[0] == p[1..] + Split(rest)[0];
      assert t[1..] == Split(rest)[1..];
      assert [p[0]] + (p[1..] + Split(rest)[0]) == p + Split(rest)[0];
    } else {
      assert p + rest == rest;
      assert p + Split(rest)[0] == Split(rest)[0];
      assert Split(rest) == [Split(rest)[0]] + Split(rest)[1..];
    }
  }

  /** Splitting on spaces undoes the join when no part contains a space. */
  lemma {:induction false} SplitJoin(parts: seq<string>)
    requires parts != []
    requires forall j, k :: 0 <= j < |parts| && 0 <= k < |parts[j]| ==> parts[j][k] != ' '
    ensures Split(Join(parts)) == parts
  {
    if |parts| == 1 {
      SplitNoSpace(parts[0], "");
      assert parts[0] + "" == parts[0];
    } else {
      var rest := Join(parts[1..]);
      SplitJoin(parts[1..]);
      SplitNoSpace(parts[0], " " + rest);
      assert parts[0] + " " + rest == parts[0] + (" " + rest);
      assert Split(" " + rest) == [""] + Split(rest) by { assert (" " + rest)[1..] == rest; }
      assert parts[0] + "" == parts[0];
      assert parts == [parts[0]] + parts[1..];
    }
  }

  /** No speech is detected exactly when there is no segment, or a single
      one made only of whitespace: two or more segments always give a
      non-empty transcript, at the least their separating spaces. */
  lemma TranscriptEmpty(texts: seq<string>)
    ensures TranscriptOf(texts) == "" <==>
      |texts| == 0 || (|texts| == 1 && AllSpace(texts[0]))
  {
  }

  lemma StripWord(w: string)
    requires w != [] && forall k :: 0 <= k < |w| ==> !IsSpace(w[k])
    ensures Strip(w) == w
  {
  }

  /** An example: segments "hello" and "world" give "hello world". */
  lemma HelloWorld()
    ensures TranscriptOf(["hello", "world"]) == "hello world"
  {
    var t := ["hello", "world"];
    assert Stripped(t) == t by {
      StripWord("hello");
      StripWord("world");
    }
    assert t[1..] == ["world"];
  }

  /** `s[:n]` */
  function Truncate(s: string, n: nat): (r: string)
    ensures r <= s && |r| == if |s| <= n then |s| else n
  {
    if |s| <= n then s else s[..n]
  }

  /** The "Copied!" notification body: `text[:100]` plus `...` when cut. */
  function Preview(text: string): (p: string)
    ensures |text| <= 100 ==> p == text
    ensures |text| > 100 ==> |p| == 103 && p == text[..100] + "..."
    ensures Truncate(text, 100) <= p
  {
    Truncate(text, 100) + (if |text| > 100 then "..." else "")
  }
}
