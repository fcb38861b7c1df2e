/** Shared vocabulary: optional values, white space, and searching in strings the way `str` does it. */
module Text {

  datatype Option<+T> = None | Some(value: T)

  datatype Result<+T, +E> = Ok(value: T) | Err(error: E)

  /** The Unicode White_Space property, which `char::is_whitespace` tests. */
  predicate IsWhitespace(c: char) {
    || '\t' <= c <= '\r' || c == ' ' || c == '\U{85}' || c == '\U{A0}' || c == '\U{1680}'
    || '\U{2000}' <= c <= '\U{200A}' || c == '\U{2028}' || c == '\U{2029}' || c == '\U{202F}'
    || c == '\U{205F}' || c == '\U{3000}'
  }

  predicate BlankBetween(s: string, from: nat, to: nat)
    requires from <= to <= |s|
  {
    forall i :: from <= i < to ==> IsWhitespace(s[i])
  }

  predicate Blank(s: string) {
    BlankBetween(s, 0, |s|)
  }

  /** How many white-space characters `s` starts with. */
  function LeadingBlanks(s: string): (k: nat)
    ensures k <= |s|
    ensures forall i :: 0 <= i < k ==> IsWhitespace(s[i])
    ensures k < |s| ==> !IsWhitespace(s[k])
  {
    if s != "" && IsWhitespace(s[0]) then 1 + LeadingBlanks(s[1..]) else 0
  }

  function TrimEnd(s: string): (t: string)
    ensures |t| <= |s| && t == s[..|t|]
    ensures forall i :: |t| <= i < |s| ==> IsWhitespace(s[i])
    ensures t != "" ==> !IsWhitespace(t[|t| - 1])
  {
    if s != "" && IsWhitespace(s[|s| - 1]) then TrimEnd(s[..|s| - 1]) else s
  }

  function Trim(s: string): string {
    TrimEnd(s[LeadingBlanks(s)..])
  }

  /** Trimming removes white space on both sides and nothing else. */
  lemma TrimCuts(s: string)
    ensures var t, k := Trim(s), LeadingBlanks(s);
            && k + |t| <= |s| && t == s[k..k + |t|]
            && BlankBetween(s, 0, k) && BlankBetween(s, k + |t|, |s|)
  {
    var k := LeadingBlanks(s);
    var rest := s[k..];
    var t := TrimEnd(rest);
    hide IsWhitespace, LeadingBlanks, TrimEnd;
    assert t == s[k..k + |t|];
    forall i | k + |t| <= i < |s|
      ensures IsWhitespace(s[i])
    {
      assert rest[i - k] == s[i];
    }
  }

  lemma TrimEdges(s: string)
    ensures var t := Trim(s); t != "" ==> !IsWhitespace(t[0]) && !IsWhitespace(t[|t| - 1])
  {
    hide IsWhitespace, LeadingBlanks, TrimEnd;
    var k := LeadingBlanks(s);
    var t := TrimEnd(s[k..]);
    assert t != "" ==> t[0] == s[k];
  }

  lemma TrimOfBlank(s: string)
    ensures Trim(s) == "" <==> Blank(s)
  {
    hide IsWhitespace, LeadingBlanks, Trim;
    TrimCuts(s);
    TrimEdges(s);
    var t, k := Trim(s), LeadingBlanks(s);
    if t != "" {
      assert t[0] == s[k];
    }
  }

  /** What trimming leaves is the middle of the text: white space on both sides of it, none at its own ends. */
  lemma TrimMeaning(s: string)
    ensures var t, k := Trim(s), LeadingBlanks(s);
            && k + |t| <= |s| && t == s[k..k + |t|]
            && BlankBetween(s, 0, k) && BlankBetween(s, k + |t|, |s|)
            && (t != "" ==> !IsWhitespace(t[0]) && !IsWhitespace(t[|t| - 1]))
            && (t == "" <==> Blank(s))
  {
    hide *;
    TrimCuts(s);
    TrimEdges(s);
    TrimOfBlank(s);
  }

  /** Visible text between white space is what trimming gives back. */
  lemma TrimAround(a: string, t: string, b: string)
    requires Blank(a) && Blank(b)
    requires t == "" || (!IsWhitespace(t[0]) && !IsWhitespace(t[|t| - 1]))
    ensures Trim(a + t + b) == t
  {
    hide IsWhitespace, LeadingBlanks, Trim;
    var s := a + t + b;
    TrimMeaning(s);
    var k, u := LeadingBlanks(s), Trim(s);
    assert forall i :: 0 <= i < |a| ==> s[i] == a[i];
    assert forall i :: |a| + |t| <= i < |s| ==> s[i] == b[i - |a| - |t|];
    if t == "" {
      assert Blank(s);
    } else {
      assert s[|a|] == t[0] && s[|a| + |t| - 1] == t[|t| - 1];
      assert k == |a|;
      assert !Blank(s) && u[|u| - 1] == s[k + |u| - 1];
      assert |u| == |t|;
      assert u == s[|a|..|a| + |t|] == t;
    }
  }

  /** Where the first line ends; the length when there is no line feed. */
  function LineEnd(text: string): (n: nat)
    ensures n <= |text| && '\n' !in text[..n] && (n < |text| ==> text[n] == '\n')
  {
    if text == "" || text[0] == '\n' then 0 else 1 + LineEnd(text[1..])
  }

  predicate MatchAt(hay: string, needle: string, at: int) {
    0 <= at && at + |needle| <= |hay| && hay[at..at + |needle|] == needle
  }

  lemma MatchChars(hay: string, needle: string, at: nat)
    requires MatchAt(hay, needle, at)
    ensures forall p :: at <= p < at + |needle| ==> hay[p] == needle[p - at]
  {
    assert forall k :: 0 <= k < |needle| ==> hay[at..at + |needle|][k] == needle[k];
  }

  /** The first occurrence at or after `from`: `str::find` on a suffix. */
  function FindFrom(hay: string, needle: string, from: nat): (r: Option<nat>)
    requires from <= |hay|
    ensures r.Some? ==> from <= r.value && MatchAt(hay, needle, r.value)
    ensures r.Some? ==> forall j :: from <= j < r.value ==> !MatchAt(hay, needle, j)
    ensures r.None? ==> forall j :: from <= j ==> !MatchAt(hay, needle, j)
    decreases |hay| - from
  {
    if MatchAt(hay, needle, from) then Some(from)
    else if from == |hay| then None
    else FindFrom(hay, needle, from + 1)
  }

  function Find(hay: string, needle: string): (r: Option<nat>)
    ensures r.Some? ==> MatchAt(hay, needle, r.value)
    ensures r.Some? ==> forall j :: 0 <= j < r.value ==> !MatchAt(hay, needle, j)
    ensures r.None? ==> forall j :: !MatchAt(hay, needle, j)
  {
    FindFrom(hay, needle, 0)
  }

  predicate Contains(hay: string, needle: string) {
    Find(hay, needle).Some?
  }

  /** A position that matches and has no earlier match is the one `Find` returns. */
  lemma FindIs(hay: string, needle: string, at: nat)
    requires MatchAt(hay, needle, at)
    requires forall j :: 0 <= j < at ==> !MatchAt(hay, needle, j)
    ensures Find(hay, needle) == Some(at)
  {
  }

  lemma MatchInPrefix(pre: string, rest: string, needle: string, j: int)
    requires j + |needle| <= |pre|
    ensures MatchAt(pre + rest, needle, j) == MatchAt(pre, needle, j)
  {
    if 0 <= j {
      assert (pre + rest)[j..j + |needle|] == pre[j..j + |needle|];
    }
  }

  lemma MatchInSuffix(pre: string, rest: string, needle: string, j: int)
    requires 0 <= j
    ensures MatchAt(pre + rest, needle, |pre| + j) == MatchAt(rest, needle, j)
  {
    if j + |needle| <= |rest| {
      assert (pre + rest)[|pre| + j..|pre| + j + |needle|] == rest[j..j + |needle|];
    }
  }

  /** Text in front of a character that the needle does not contain cannot be part of a match that starts after it. */
  lemma FindSkips(pre: string, c: char, tail: string, needle: string)
    requires needle != "" && c !in needle && !Contains(pre, needle)
    ensures var r, s := Find(tail, needle), pre + [c] + tail;
            Find(s, needle) == if r.None? then None else Some(|pre| + 1 + r.value)
  {
    var s := pre + [c] + tail;
    assert s[|pre|] == c && s == pre + ([c] + tail);
    forall j | MatchAt(s, needle, j)
      ensures |pre| < j && MatchAt(tail, needle, j - |pre| - 1)
    {
      MatchChars(s, needle, j);
      if j + |needle| <= |pre| {
        MatchInPrefix(pre, [c] + tail, needle, j);
      } else {
        MatchInSuffix(pre + [c], tail, needle, j - |pre| - 1);
      }
    }
    if Find(tail, needle).Some? {
      MatchInSuffix(pre + [c], tail, needle, Find(tail, needle).value);
    }
  }

  /** The needle is found right after text that does not contain its first character. */
  lemma FindAfter(pre: string, needle: string, tail: string)
    requires needle != "" && needle[0] !in pre
    ensures Find(pre + needle + tail, needle) == Some(|pre|)
  {
    var s := pre + needle + tail;
    assert s[|pre|..|pre| + |needle|] == needle;
    assert forall j :: 0 <= j < |pre| ==> s[j] == pre[j];
    forall j | 0 <= j < |pre| && MatchAt(s, needle, j)
      ensures false
    {
      MatchChars(s, needle, j);
    }
    FindIs(s, needle, |pre|);
  }

  /** `str::replace`: every match, left to right, without overlap. */
  function ReplaceAll(s: string, from: string, to: string): string
    requires from != ""
    decreases |s|
  {
    match Find(s, from)
    case None => s
    case Some(i) => s[..i] + to + ReplaceAll(s[i + |from|..], from, to)
  }

  lemma NothingToReplace(s: string, from: string, to: string)
    requires from != "" && from[0] !in s
    ensures ReplaceAll(s, from, to) == s
  {
    if Find(s, from).Some? {
      MatchChars(s, from, Find(s, from).value);
    }
  }

  /** Decimal digits of a number. */
  function NatText(n: nat): (s: string)
    ensures s != "" && forall i :: 0 <= i < |s| ==> '0' <= s[i] <= '9'
  {
    if n < 10 then ['0' + n as char] else NatText(n / 10) + ['0' + (n % 10) as char]
  }

  lemma {:induction false} NatTextInjective(a: nat, b: nat)
    requires NatText(a) == NatText(b)
    ensures a == b
  {
    var s, t := NatText(a), NatText(b);
    assert s[|s| - 1] == t[|t| - 1];
    if a >= 10 && b >= 10 {
      assert NatText(a / 10) == s[..|s| - 1] == t[..|t| - 1] == NatText(b / 10);
      NatTextInjective(a / 10, b / 10);
    }
  }
}
