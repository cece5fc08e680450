/** The handful of .NET string operations the bot relies on, written out
    over `string` (a sequence of characters): ordinal and
    ordinal-ignore-case `Contains`, `Trim`, `StringBuilder.AppendLine`,
    and decimal rendering of integers. */
module Text {

  /** What `AppendLine` appends: `Environment.NewLine` on the Linux host. */
  const NewLine: string := "\n"

  predicate StartsWith(s: string, p: string) {
    |p| <= |s| && s[..|p|] == p
  }

  predicate EndsWith(s: string, p: string) {
    |p| <= |s| && s[|s| - |p|..] == p
  }

  /** Ordinal `String.Contains`: `p` occurs at some position of `s`. */
  predicate Contains(s: string, p: string) {
    exists i | 0 <= i <= |s| - |p| :: StartsWith(s[i..], p)
  }

  /** Case folding of `StringComparison.OrdinalIgnoreCase`, for the ASCII
      letters (the only letters in the bot's keywords). */
  function FoldChar(c: char): char {
    if 'A' <= c <= 'Z' then (c as int + 32) as char else c
  }

  function Fold(s: string): (r: string)
    ensures |r| == |s|
    ensures forall i :: 0 <= i < |s| ==> r[i] == FoldChar(s[i])
  {
    seq(|s|, i requires 0 <= i < |s| => FoldChar(s[i]))
  }

  predicate ContainsIgnoreCase(s: string, p: string) {
    Contains(Fold(s), Fold(p))
  }

  lemma FoldAppend(a: string, b: string)
    ensures Fold(a + b) == Fold(a) + Fold(b)
  {
  }

  /** If `s` contains `p + q` it contains `p`. */
  lemma ContainsPrefix(s: string, p: string, q: string)
    requires Contains(s, p + q)
    ensures Contains(s, p)
  {
    var i :| 0 <= i <= |s| - |p + q| && StartsWith(s[i..], p + q);
    assert s[i..][..|p|] == (p + q)[..|p|] == p;
    assert StartsWith(s[i..], p);
  }

  lemma ContainsIgnoreCasePrefix(s: string, p: string, q: string)
    requires ContainsIgnoreCase(s, p + q)
    ensures ContainsIgnoreCase(s, p)
  {
    FoldAppend(p, q);
    ContainsPrefix(Fold(s), Fold(p), Fold(q));
  }

  /** `char.IsWhiteSpace`: the Unicode space, line and paragraph
      separators plus the controls U+0009..U+000D and U+0085. */
  predicate IsWhiteSpace(c: char) {
    || c == ' ' || ('\t' <= c <= '\r') || c == '\U{0085}' || c == '\U{00A0}'
    || c == '\U{1680}' || ('\U{2000}' <= c <= '\U{200A}') || c == '\U{2028}'
    || c == '\U{2029}' || c == '\U{202F}' || c == '\U{205F}' || c == '\U{3000}'
  }

  /** `String.TrimStart()`: drops the leading white space and nothing else. */
  function TrimStart(s: string): (r: string)
    ensures |r| <= |s| && r == s[|s| - |r|..]
    ensures forall k :: 0 <= k < |s| - |r| ==> IsWhiteSpace(s[k])
    ensures r == [] || !IsWhiteSpace(r[0])
  {
    if |s| > 0 && IsWhiteSpace(s[0]) then TrimStart(s[1..]) else s
  }

  /** `String.TrimEnd()`: drops the trailing white space and nothing else. */
  function TrimEnd(s: string): (r: string)
    ensures |r| <= |s| && r == s[..|r|]
    ensures forall k :: |r| <= k < |s| ==> IsWhiteSpace(s[k])
    ensures r == [] || !IsWhiteSpace(r[|r| - 1])
  {
    if |s| > 0 && IsWhiteSpace(s[|s| - 1]) then TrimEnd(s[..|s| - 1]) else s
  }

  /** `String.Trim()`: the longest slice of `s` that neither starts nor ends
      with white space, obtained by cutting white space only. */
  function Trim(s: string): (r: string)
    ensures exists i, j | 0 <= i <= j <= |s| ::
              && r == s[i..j]
              && (forall k :: 0 <= k < i ==> IsWhiteSpace(s[k]))
              && (forall k :: j <= k < |s| ==> IsWhiteSpace(s[k]))
    ensures r == [] || (!IsWhiteSpace(r[0]) && !IsWhiteSpace(r[|r| - 1]))
  {
    var t := TrimStart(s);
    var r := TrimEnd(t);
    var i := |s| - |t|;
    assert r == s[i..i + |r|];
    r
  }

  /** Text that neither starts nor ends with white space is its own trim. */
  lemma TrimUntrimmed(s: string)
    requires s == [] || (!IsWhiteSpace(s[0]) && !IsWhiteSpace(s[|s| - 1]))
    ensures Trim(s) == s
  {
    assert TrimStart(s) == s;
    assert TrimEnd(s) == s;
  }

  /** Trimming twice is trimming once. */
  lemma TrimIdempotent(s: string)
    ensures Trim(Trim(s)) == Trim(s)
  {
    var r := Trim(s);
    assert TrimStart(r) == r;
    assert TrimEnd(r) == r;
  }

  /** The trimmed text occurs in the original. */
  lemma TrimContained(s: string)
    ensures Contains(s, Trim(s))
  {
    var r := Trim(s);
    var i, j :| 0 <= i <= j <= |s| && r == s[i..j];
    assert s[i..][..|r|] == r;
    assert StartsWith(s[i..], r);
  }

  function DigitChar(d: nat): (c: char)
    requires d < 10
    ensures '0' <= c <= '9'
  {
    ('0' as int + d) as char
  }

  /** Decimal digits of `n`, most significant first, with no leading zero. */
  function NatToString(n: nat): (r: string)
    ensures 1 <= |r|
    ensures forall i :: 0 <= i < |r| ==> '0' <= r[i] <= '9'
    ensures r[0] == '0' ==> n == 0
  {
    if n < 10 then [DigitChar(n)] else NatToString(n / 10) + [DigitChar(n % 10)]
  }

  /** `int.ToString()`: a leading '-' for negative values. */
  function IntToString(n: int): (r: string)
    ensures 1 <= |r|
    ensures (r[0] == '-') <==> n < 0
  {
    if n < 0 then "-" + NatToString(-n) else NatToString(n)
  }

  /** Reads a string of decimal digits back. */
  function ParseNat(s: string): nat
    requires forall i :: 0 <= i < |s| ==> '0' <= s[i] <= '9'
  {
    if |s| == 0 then 0 else ParseNat(s[..|s| - 1]) * 10 + (s[|s| - 1] as int - '0' as int)
  }

  function ParseInt(s: string): int
    requires 1 <= |s|
    requires forall i :: 1 <= i < |s| ==> '0' <= s[i] <= '9'
    requires s[0] == '-' || '0' <= s[0] <= '9'
  {
    if s[0] == '-' then -(ParseNat(s[1..]) as int) else ParseNat(s)
  }

  lemma {:induction false} ParseNatToString(n: nat)
    ensures ParseNat(NatToString(n)) == n
  {
    if n >= 10 {
      var r := NatToString(n);
      ParseNatToString(n / 10);
      assert r[..|r| - 1] == NatToString(n / 10);
    }
  }

  /** Integer rendering loses nothing: it reads back to the same value. */
  lemma IntToStringRoundTrip(n: int)
    ensures ParseInt(IntToString(n)) == n
  {
    if n < 0 {
      assert IntToString(n)[1..] == NatToString(-n);
      ParseNatToString(-n);
    } else {
      ParseNatToString(n);
    }
  }

  /** The text a `StringBuilder` holds after `AppendLine(l)` for each line in
      order. */
  function Lines(ls: seq<string>): (r: string)
    ensures |r| >= |ls|
    ensures r == "" <==> |ls| == 0
  {
    if |ls| == 0 then "" else ls[0] + NewLine + Lines(ls[1..])
  }

  lemma {:induction false} LinesAppend(a: seq<string>, b: seq<string>)
    ensures Lines(a + b) == Lines(a) + Lines(b)
  {
    if |a| > 0 {
      assert (a + b)[1..] == a[1..] + b;
      LinesAppend(a[1..], b);
    } else {
      assert a + b == b;
    }
  }

  function IndexOfChar(s: string, c: char): (i: nat)
    ensures i <= |s|
    ensures i < |s| ==> s[i] == c
    ensures forall k :: 0 <= k < i ==> s[k] != c
  {
    if |s| == 0 then 0 else if s[0] == c then 0 else 1 + IndexOfChar(s[1..], c)
  }

  /** A reader of `Lines`' output: cuts at every newline. */
  function SplitLines(s: string): seq<string>
    decreases |s|
  {
    if |s| == 0 then []
    else
      var i := IndexOfChar(s, '\n');
      if i == |s| then [s] else [s[..i]] + SplitLines(s[i + 1..])
  }

  predicate NoNewLine(l: string) {
    forall k :: 0 <= k < |l| ==> l[k] != '\n'
  }

  /** Lines without a line break in them come back unchanged from the
      rendered text: the builder output determines the lines. */
  lemma {:induction false} SplitLinesOfLines(ls: seq<string>)
    requires forall i :: 0 <= i < |ls| ==> NoNewLine(ls[i])
    ensures SplitLines(Lines(ls)) == ls
  {
    if |ls| > 0 {
      var s := Lines(ls);
      var rest := Lines(ls[1..]);
      assert s == ls[0] + "\n" + rest;
      assert s[|ls[0]|] == '\n';
      assert forall k :: 0 <= k < |ls[0]| ==> s[k] == ls[0][k];
      assert IndexOfChar(s, '\n') == |ls[0]|;
      assert s[..|ls[0]|] == ls[0];
      assert s[|ls[0]| + 1..] == rest;
      SplitLinesOfLines(ls[1..]);
    }
  }
}
