/** SEARCH/REPLACE blocks: reading them out of a reply, and applying them to the card they edit. */
module HtmlPatch {
  import opened Text
  import opened Matching

  const SEARCH := "<<<<<<< SEARCH"
  const SEP := "======="
  const REPLACE := ">>>>>>> REPLACE"

  datatype Patch = Patch(find: string, replace: string)

  // ---- Lines ----

  function StripCr(line: string): string {
    if line != "" && line[|line| - 1] == '\r' then line[..|line| - 1] else line
  }

  /** `str::lines`: a line feed ends a line and takes one carriage return with it; a last open line stays as it is. */
  function Lines(text: string): seq<string> {
    var n := LineEnd(text);
    if text == "" then []
    else if n == |text| then [text]
    else [StripCr(text[..n])] + Lines(text[n + 1..])
  }

  /** The pieces between line feeds. */
  function Split(text: string): (r: seq<string>)
    ensures r != []
  {
    var n := LineEnd(text);
    if n == |text| then [text] else [text[..n]] + Split(text[n + 1..])
  }

  function Join(lines: seq<string>): string {
    if lines == [] then "" else if |lines| == 1 then lines[0] else lines[0] + "\n" + Join(lines[1..])
  }

  predicate IsMarker(line: string, marker: string) {
    TrimEnd(line) == marker
  }

  /** The first line that is this marker; the number of lines when there is none. */
  function MarkerAt(lines: seq<string>, marker: string): (n: nat)
    ensures n <= |lines| && (n < |lines| ==> IsMarker(lines[n], marker))
    ensures forall i :: 0 <= i < n ==> !IsMarker(lines[i], marker)
  {
    if lines == [] || IsMarker(lines[0], marker) then 0 else 1 + MarkerAt(lines[1..], marker)
  }

  // ---- Parsing ----

  /** The well-formed blocks of a reply, in order; an unterminated block ends the list. */
  function Blocks(lines: seq<string>): seq<Patch>
    decreases |lines|
  {
    var n := MarkerAt(lines, SEARCH);
    if n == |lines| then [] else AfterSearch(lines[n + 1..])
  }

  function AfterSearch(lines: seq<string>): seq<Patch>
    decreases |lines|
  {
    var n := MarkerAt(lines, SEP);
    if n == |lines| then [] else AfterSep(lines[..n], lines[n + 1..])
  }

  function AfterSep(find: seq<string>, lines: seq<string>): seq<Patch>
    decreases |lines|
  {
    var n := MarkerAt(lines, REPLACE);
    if n == |lines| then [] else [Patch(Join(find), Join(lines[..n]))] + Blocks(lines[n + 1..])
  }

  /** Collects lines up to a marker, as each of the two inner loops does. */
  method Collect(lines: seq<string>, from: nat, marker: string) returns (body: seq<string>, i: nat, found: bool)
    requires from <= |lines|
    ensures found <==> MarkerAt(lines[from..], marker) < |lines| - from
    ensures i <= |lines|
    ensures found ==> var n := MarkerAt(lines[from..], marker);
                      i > from && body == lines[from..][..n] && lines[i..] == lines[from..][n + 1..]
  {
    hide IsMarker, MarkerAt;
    body, i, found := [], from, false;
    while i < |lines|
      invariant from <= i <= |lines| && !found && body == lines[from..i]
      invariant MarkerAt(lines[from..], marker) == i - from + MarkerAt(lines[i..], marker)
    {
      NextLine(lines, from, i, marker);
      if IsMarker(lines[i], marker) {
        found := true;
        i := i + 1;
        break;
      }
      body := body + [lines[i]];
      i := i + 1;
    }
  }

  lemma NextLine(lines: seq<string>, from: nat, i: nat, marker: string)
    requires from <= i < |lines|
    ensures MarkerAt(lines[i..], marker) == if IsMarker(lines[i], marker) then 0 else 1 + MarkerAt(lines[i + 1..], marker)
    ensures lines[from..][..i - from] == lines[from..i] && lines[from..][i - from + 1..] == lines[i + 1..]
    ensures lines[from..i] + [lines[i]] == lines[from..i + 1]
  {
    hide IsMarker;
    assert lines[i..][1..] == lines[i + 1..];
  }

  method ParsePatches(text: string) returns (out: seq<Patch>)
    ensures out == Blocks(Lines(text))
  {
    hide IsMarker, Join, MarkerAt, Lines, Blocks, AfterSearch, AfterSep;
    var lines := Lines(text);
    ghost var all := Blocks(lines);
    out := [];
    var i := 0;
    assert lines[0..] == lines;
    NoLines();
    while i < |lines|
      invariant i <= |lines| && all == out + Blocks(lines[i..])
      decreases |lines| - i
    {
      FirstLine(lines, i);
      if !IsMarker(lines[i], SEARCH) {
        i := i + 1;
        continue;
      }
      var find, replace, found;
      FindPart(lines[i + 1..]);
      find, i, found := Collect(lines, i + 1, SEP);
      if !found {
        return;
      }
      ReplacePart(find, lines[i..]);
      replace, i, found := Collect(lines, i, REPLACE);
      if !found {
        return;
      }
      var patch := Patch(Join(find), Join(replace));
      MovePatch(out, patch, Blocks(lines[i..]));
      out := out + [patch];
    }
    assert lines[|lines|..] == [];
  }

  lemma MovePatch(out: seq<Patch>, patch: Patch, rest: seq<Patch>)
    ensures out + ([patch] + rest) == out + [patch] + rest
  {
  }

  lemma FindPart(lines: seq<string>)
    ensures var n := MarkerAt(lines, SEP);
            AfterSearch(lines) == if n == |lines| then [] else AfterSep(lines[..n], lines[n + 1..])
  {
    hide IsMarker, MarkerAt, AfterSep;
  }

  lemma ReplacePart(find: seq<string>, lines: seq<string>)
    ensures var n := MarkerAt(lines, REPLACE);
            AfterSep(find, lines)
            == if n == |lines| then [] else [Patch(Join(find), Join(lines[..n]))] + Blocks(lines[n + 1..])
  {
    hide IsMarker, MarkerAt, Blocks, Join;
  }

  lemma NoLines()
    ensures Blocks([]) == []
  {
  }

  lemma FirstLine(lines: seq<string>, i: nat)
    requires i < |lines|
    ensures Blocks(lines[i..]) == if IsMarker(lines[i], SEARCH) then AfterSearch(lines[i + 1..]) else Blocks(lines[i + 1..])
  {
    hide IsMarker, AfterSearch, MarkerAt;
    var here, next := lines[i..], lines[i + 1..];
    assert here[1..] == next;
    MarkerStep(here, SEARCH);
    var n := MarkerAt(next, SEARCH);
    if n < |next| {
      assert here[n + 2..] == next[n + 1..];
    }
  }

  lemma MarkerStep(lines: seq<string>, marker: string)
    requires lines != []
    ensures MarkerAt(lines, marker) == if IsMarker(lines[0], marker) then 0 else 1 + MarkerAt(lines[1..], marker)
  {
    hide IsMarker;
  }

  // ---- Printing and reading back ----

  /** Each line closed by a line feed. */
  function Closed(lines: seq<string>): string {
    if lines == [] then "" else lines[0] + "\n" + Closed(lines[1..])
  }

  function BlockLines(p: Patch): seq<string> {
    [SEARCH] + Split(p.find) + [SEP] + Split(p.replace) + [REPLACE]
  }

  /** Blocks with prose in front of each and after the last. */
  function DocLines(patches: seq<Patch>, prose: seq<seq<string>>): seq<string>
    requires |prose| == |patches| + 1
  {
    if patches == [] then prose[0] else prose[0] + BlockLines(patches[0]) + DocLines(patches[1..], prose[1..])
  }

  predicate Free(lines: seq<string>, marker: string) {
    forall i :: 0 <= i < |lines| ==> !IsMarker(lines[i], marker)
  }

  function Stripped(lines: seq<string>): (r: seq<string>)
    ensures |r| == |lines| && forall i :: 0 <= i < |lines| ==> r[i] == StripCr(lines[i])
  {
    seq(|lines|, i requires 0 <= i < |lines| => StripCr(lines[i]))
  }

  /** The patch whose lines have lost the carriage return in front of the line feed. */
  function Normal(p: Patch): Patch {
    Patch(Join(Stripped(Split(p.find))), Join(Stripped(Split(p.replace))))
  }

  predicate OneLine(line: string) {
    '\n' !in line
  }

  lemma {:induction false} LineEndOf(line: string, rest: string)
    requires OneLine(line)
    ensures LineEnd(line + "\n" + rest) == |line|
  {
    if line != "" {
      assert (line + "\n" + rest)[1..] == line[1..] + "\n" + rest;
      LineEndOf(line[1..], rest);
    }
  }

  lemma {:induction false} LinesOfClosed(lines: seq<string>)
    requires forall i :: 0 <= i < |lines| ==> OneLine(lines[i])
    ensures Lines(Closed(lines)) == Stripped(lines)
  {
    if lines != [] {
      var s := Closed(lines);
      LineEndOf(lines[0], Closed(lines[1..]));
      assert s[..|lines[0]|] == lines[0] && s[|lines[0]| + 1..] == Closed(lines[1..]);
      LinesOfClosed(lines[1..]);
    }
  }

  lemma MarkerIgnoresCr(line: string, marker: string)
    ensures IsMarker(StripCr(line), marker) == IsMarker(line, marker)
  {
  }

  /** What a final line feed changes in the lines: an empty line more, or a last line without its carriage return. */
  predicate SameButEnd(a: seq<string>, b: seq<string>) {
    || a == b
    || b == a + [""]
    || (a != [] && b == a[..|a| - 1] + [StripCr(a[|a| - 1])])
  }

  lemma LinesFront(line: string, rest: string)
    requires OneLine(line)
    ensures Lines(line + "\n" + rest) == [StripCr(line)] + Lines(rest)
  {
    var text := line + "\n" + rest;
    LineEndOf(line, rest);
    assert text[..|line|] == line && text[|line| + 1..] == rest;
  }

  lemma SameInFront(line: string, a: seq<string>, b: seq<string>)
    requires SameButEnd(a, b)
    ensures SameButEnd([line] + a, [line] + b)
  {
    hide StripCr;
    if b == a + [""] {
      assert [line] + b == [line] + a + [""];
    } else if b != a {
      assert ([line] + a)[..|a|] == [line] + a[..|a| - 1];
    }
  }

  lemma {:induction false} LastLineFeed(text: string)
    ensures SameButEnd(Lines(text), Lines(text + "\n"))
  {
    hide StripCr, Lines, SameButEnd;
    var n := LineEnd(text);
    if n == |text| {
      LinesFront(text, "");
      assert text + "\n" + "" == text + "\n";
      OpenLine(text);
    } else {
      var line, rest := text[..n], text[n + 1..];
      assert text == line + "\n" + rest;
      assert text + "\n" == line + "\n" + (rest + "\n");
      LinesFront(line, rest);
      LinesFront(line, rest + "\n");
      LastLineFeed(rest);
      SameInFront(StripCr(line), Lines(rest), Lines(rest + "\n"));
    }
  }

  lemma OpenLine(text: string)
    requires LineEnd(text) == |text|
    ensures SameButEnd(Lines(text), [StripCr(text)] + Lines(""))
  {
    assert text != "" ==> Lines(text)[..0] + [StripCr(text)] == [StripCr(text)];
  }

  lemma SameMarker(a: seq<string>, b: seq<string>, marker: string)
    requires SameButEnd(a, b) && marker != ""
    ensures var n, m := MarkerAt(a, marker), MarkerAt(b, marker);
            && (n == |a| <==> m == |b|)
            && (n < |a| ==> m == n && a[..n] == b[..n] && SameButEnd(a[n + 1..], b[n + 1..]))
  {
    hide IsMarker, StripCr, SameButEnd, MarkerAt;
    MarkersStay(a, b, marker);
    var n, m := MarkerAt(a, marker), MarkerAt(b, marker);
    if n < |a| {
      assert IsMarker(b[n], marker);
      SameBehindMarker(a, b, n);
    }
  }

  lemma MarkersStay(a: seq<string>, b: seq<string>, marker: string)
    requires SameButEnd(a, b) && marker != ""
    ensures |a| <= |b| && forall i :: 0 <= i < |a| ==> IsMarker(a[i], marker) == IsMarker(b[i], marker)
    ensures forall i :: |a| <= i < |b| ==> !IsMarker(b[i], marker)
  {
    hide IsMarker, StripCr;
    if a != [] {
      MarkerIgnoresCr(a[|a| - 1], marker);
    }
    EmptyIsNoMarker(marker);
  }

  lemma EmptyIsNoMarker(marker: string)
    requires marker != ""
    ensures !IsMarker("", marker)
  {
  }

  lemma SameBehindMarker(a: seq<string>, b: seq<string>, n: nat)
    requires SameButEnd(a, b) && n < |a|
    ensures n < |b| && a[..n] == b[..n] && SameButEnd(a[n + 1..], b[n + 1..])
  {
    hide StripCr;
    var last := |a| - 1;
    if b == a + [""] {
      assert b[n + 1..] == a[n + 1..] + [""];
    } else if b != a {
      assert n < last ==> b[n + 1..] == a[n + 1..last] + [StripCr(a[last])] && a[n + 1..][..last - n - 1] == a[n + 1..last];
    }
  }

  lemma {:induction false} SameBlocks(a: seq<string>, b: seq<string>)
    requires SameButEnd(a, b)
    ensures Blocks(a) == Blocks(b)
    decreases |a|
  {
    hide IsMarker, MarkerAt, StripCr, SameButEnd, Join;
    SameMarker(a, b, SEARCH);
    var n := MarkerAt(a, SEARCH);
    if n < |a| {
      var find, find2 := a[n + 1..], b[n + 1..];
      SameMarker(find, find2, SEP);
      var k := MarkerAt(find, SEP);
      if k < |find| {
        var replace, replace2 := find[k + 1..], find2[k + 1..];
        SameMarker(replace, replace2, REPLACE);
        var l := MarkerAt(replace, REPLACE);
        if l < |replace| {
          SameBlocks(replace[l + 1..], replace2[l + 1..]);
        }
        assert AfterSep(find[..k], replace) == AfterSep(find2[..k], replace2);
      }
      assert AfterSearch(find) == AfterSearch(find2);
    }
  }

  /** A final line feed makes no difference to the blocks that are read, in any text. */
  lemma FinalLineFeed(text: string)
    ensures Blocks(Lines(text + "\n")) == Blocks(Lines(text))
  {
    LastLineFeed(text);
    SameBlocks(Lines(text), Lines(text + "\n"));
  }

  lemma {:induction false} ClosedIsJoined(lines: seq<string>)
    requires lines != []
    ensures Closed(lines) == Join(lines) + "\n"
  {
    if |lines| > 1 {
      ClosedIsJoined(lines[1..]);
    }
  }

  lemma StrippedFree(lines: seq<string>, marker: string)
    requires Free(lines, marker)
    ensures Free(Stripped(lines), marker)
  {
    forall i | 0 <= i < |lines|
      ensures !IsMarker(Stripped(lines)[i], marker)
    {
      MarkerIgnoresCr(lines[i], marker);
    }
  }

  lemma {:induction false} MarkerAfter(lines: seq<string>, line: string, rest: seq<string>, marker: string)
    requires Free(lines, marker) && IsMarker(line, marker)
    ensures MarkerAt(lines + [line] + rest, marker) == |lines| < |lines + [line] + rest|
    ensures (lines + [line] + rest)[..|lines|] == lines && (lines + [line] + rest)[|lines| + 1..] == rest
  {
    var s := lines + [line] + rest;
    assert forall i :: 0 <= i < |lines| ==> s[i] == lines[i];
    assert s[|lines|] == line;
  }

  lemma MarkersAreMarkers()
    ensures IsMarker(SEARCH, SEARCH) && IsMarker(SEP, SEP) && IsMarker(REPLACE, REPLACE)
    ensures StripCr(SEARCH) == SEARCH && StripCr(SEP) == SEP && StripCr(REPLACE) == REPLACE
    ensures OneLine(SEARCH) && OneLine(SEP) && OneLine(REPLACE)
  {
  }

  /** One printed block is read as its normal form, and reading goes on behind it. */
  lemma BlockReadBack(prose: seq<string>, find: seq<string>, replace: seq<string>, rest: seq<string>)
    requires Free(prose, SEARCH) && Free(find, SEP) && Free(replace, REPLACE)
    ensures Blocks(prose + [SEARCH] + find + [SEP] + replace + [REPLACE] + rest)
            == [Patch(Join(find), Join(replace))] + Blocks(rest)
  {
    hide IsMarker, Join, Free, MarkerAt;
    MarkersAreMarkers();
    var inReplace := replace + [REPLACE] + rest;
    var inFind := find + [SEP] + inReplace;
    assert prose + [SEARCH] + find + [SEP] + replace + [REPLACE] + rest == prose + [SEARCH] + inFind;
    MarkerAfter(prose, SEARCH, inFind, SEARCH);
    MarkerAfter(find, SEP, inReplace, SEP);
    MarkerAfter(replace, REPLACE, rest, REPLACE);
    assert AfterSep(find, inReplace) == [Patch(Join(find), Join(replace))] + Blocks(rest);
    assert AfterSearch(inFind) == AfterSep(find, inReplace);
  }

  predicate Quotable(p: Patch) {
    Free(Split(p.find), SEP) && Free(Split(p.replace), REPLACE)
  }

  lemma StrippedConcat(a: seq<string>, b: seq<string>)
    ensures Stripped(a + b) == Stripped(a) + Stripped(b)
  {
  }

  lemma {:induction false} DocReadBack(patches: seq<Patch>, prose: seq<seq<string>>)
    requires |prose| == |patches| + 1
    requires forall i :: 0 <= i < |patches| ==> Quotable(patches[i])
    requires forall i :: 0 <= i < |prose| ==> Free(prose[i], SEARCH)
    ensures Blocks(Stripped(DocLines(patches, prose))) == seq(|patches|, i requires 0 <= i < |patches| => Normal(patches[i]))
  {
    hide Blocks, Free, Split, Join, IsMarker, Stripped;
    StrippedFree(prose[0], SEARCH);
    if patches == [] {
      NoBlocks(Stripped(prose[0]));
    } else {
      var p, rest := patches[0], DocLines(patches[1..], prose[1..]);
      StrippedFree(Split(p.find), SEP);
      StrippedFree(Split(p.replace), REPLACE);
      StrippedDoc(prose[0], p, rest);
      BlockReadBack(Stripped(prose[0]), Stripped(Split(p.find)), Stripped(Split(p.replace)), Stripped(rest));
      DocReadBack(patches[1..], prose[1..]);
    }
  }

  lemma NoBlocks(lines: seq<string>)
    requires Free(lines, SEARCH)
    ensures Blocks(lines) == []
  {
    hide IsMarker;
  }

  lemma StrippedDoc(prose: seq<string>, p: Patch, rest: seq<string>)
    ensures Stripped(prose + BlockLines(p) + rest) ==
            Stripped(prose) + [SEARCH] + Stripped(Split(p.find)) + [SEP] + Stripped(Split(p.replace)) + [REPLACE]
            + Stripped(rest)
  {
    hide Split;
    MarkersAreMarkers();
    var f, r := Split(p.find), Split(p.replace);
    StrippedConcat(prose + BlockLines(p), rest);
    StrippedConcat(prose, BlockLines(p));
    StrippedConcat([SEARCH] + f + [SEP] + r, [REPLACE]);
    StrippedConcat([SEARCH] + f + [SEP], r);
    StrippedConcat([SEARCH] + f, [SEP]);
    StrippedConcat([SEARCH], f);
    assert Stripped([SEARCH]) == [SEARCH] && Stripped([SEP]) == [SEP] && Stripped([REPLACE]) == [REPLACE];
  }

  lemma {:induction false} SplitLines(text: string)
    ensures Join(Split(text)) == text
    ensures forall i :: 0 <= i < |Split(text)| ==> OneLine(Split(text)[i])
  {
    var n := LineEnd(text);
    if n < |text| {
      SplitLines(text[n + 1..]);
      assert text == text[..n] + "\n" + text[n + 1..];
    }
  }

  lemma {:induction false} DocOneLine(patches: seq<Patch>, prose: seq<seq<string>>)
    requires |prose| == |patches| + 1
    requires forall i, j :: 0 <= i < |prose| && 0 <= j < |prose[i]| ==> OneLine(prose[i][j])
    ensures forall i :: 0 <= i < |DocLines(patches, prose)| ==> OneLine(DocLines(patches, prose)[i])
  {
    hide Split, OneLine;
    if patches != [] {
      MarkersAreMarkers();
      SplitLines(patches[0].find);
      SplitLines(patches[0].replace);
      assert forall i :: 0 <= i < |prose[1..]| ==> prose[1..][i] == prose[i + 1];
      DocOneLine(patches[1..], prose[1..]);
    }
  }

  /**
   * Printed blocks, with prose between them that contains no SEARCH line, are read back one for one, with or without a
   * line feed at the end. What comes back is each patch's normal form, because `lines` drops a carriage return in front
   * of a line feed.
   */
  lemma PatchesReadBack(patches: seq<Patch>, prose: seq<seq<string>>)
    requires |prose| == |patches| + 1
    requires forall i :: 0 <= i < |patches| ==> Quotable(patches[i])
    requires forall i :: 0 <= i < |prose| ==> Free(prose[i], SEARCH)
    requires forall i, j :: 0 <= i < |prose| && 0 <= j < |prose[i]| ==> OneLine(prose[i][j])
    ensures Blocks(Lines(Closed(DocLines(patches, prose)))) == seq(|patches|, i requires 0 <= i < |patches| => Normal(patches[i]))
    ensures Blocks(Lines(Join(DocLines(patches, prose)))) == Blocks(Lines(Closed(DocLines(patches, prose))))
  {
    hide Blocks, Free, OneLine, DocLines, Closed, Lines, Quotable, Normal, Join;
    var lines := DocLines(patches, prose);
    DocOneLine(patches, prose);
    LinesOfClosed(lines);
    DocReadBack(patches, prose);
    JoinedReadsAsClosed(lines);
  }

  lemma JoinedReadsAsClosed(lines: seq<string>)
    ensures Blocks(Lines(Join(lines))) == Blocks(Lines(Closed(lines)))
  {
    if lines != [] {
      ClosedIsJoined(lines);
      FinalLineFeed(Join(lines));
    }
  }

  /** No line of the text ends in a carriage return. */
  predicate NoCr(text: string) {
    forall i :: 0 <= i < |Split(text)| ==> StripCr(Split(text)[i]) == Split(text)[i]
  }

  /** A patch comes back unchanged exactly when none of its lines ends in a carriage return. */
  lemma NormalIsIdentity(p: Patch)
    ensures Normal(p) == p <==> NoCr(p.find) && NoCr(p.replace)
  {
    JoinStripped(p.find);
    JoinStripped(p.replace);
  }

  lemma CarriageReturnLines()
    ensures Split("a\r\nb") == ["a\r", "b"] && Split("c") == ["c"]
  {
    SplitAtFeed("a\r", "b");
    SplitOpen("b");
    SplitOpen("c");
    hide Split;
    assert "a\r\nb" == "a\r" + "\n" + "b";
  }

  lemma CarriageReturnStripped()
    ensures Join(Stripped(["a\r", "b"])) == "a\nb" && Join(Stripped(["c"])) == "c"
  {
    assert "a\r"[..1] == "a";
    assert StripCr("a\r") == "a" && StripCr("b") == "b" && StripCr("c") == "c";
    assert Stripped(["a\r", "b"]) == ["a", "b"] && ["a", "b"][1..] == ["b"];
    assert Stripped(["c"]) == ["c"];
  }

  /** A line that ends in a carriage return loses it: the patch read back is not the one that was printed. */
  lemma CarriageReturnIsLost()
    ensures var p := Patch("a\r\nb", "c");
            && Quotable(p) && Normal(p) == Patch("a\nb", "c")
            && Blocks(Lines(Closed(DocLines([p], [[], []])))) == [Patch("a\nb", "c")]
  {
    var p := Patch("a\r\nb", "c");
    hide Split, Lines, Blocks, Closed, DocLines, IsMarker, Join;
    CarriageReturnLines();
    CarriageReturnStripped();
    NoMarker("a\r", SEP);
    NoMarker("b", SEP);
    NoMarker("c", REPLACE);
    PatchesReadBack([p], [[], []]);
  }

  lemma NoMarker(line: string, marker: string)
    requires line != "" && marker != "" && line[0] != marker[0]
    ensures !IsMarker(line, marker)
  {
    hide TrimEnd;
  }

  lemma SplitOpen(line: string)
    requires OneLine(line)
    ensures Split(line) == [line]
  {
  }

  lemma SplitAtFeed(line: string, rest: string)
    requires OneLine(line)
    ensures Split(line + "\n" + rest) == [line] + Split(rest)
  {
    LineEndOf(line, rest);
    var text := line + "\n" + rest;
    assert text[..|line|] == line && text[|line| + 1..] == rest;
  }

  lemma JoinStripped(text: string)
    ensures Join(Stripped(Split(text))) == text <==> NoCr(text)
  {
    var lines := Split(text);
    SplitLines(text);
    JoinLength(lines);
    if NoCr(text) {
      assert Stripped(lines) == lines;
    }
  }

  lemma {:induction false} JoinLength(lines: seq<string>)
    ensures |Join(Stripped(lines))| <= |Join(lines)|
    ensures (exists i :: 0 <= i < |lines| && StripCr(lines[i]) != lines[i]) ==> |Join(Stripped(lines))| < |Join(lines)|
  {
    if lines != [] {
      JoinLength(lines[1..]);
      assert Stripped(lines)[1..] == Stripped(lines[1..]);
      forall i | 0 <= i < |lines| && StripCr(lines[i]) != lines[i]
        ensures |Join(Stripped(lines))| < |Join(lines)|
      {
        if i > 0 {
          assert lines[1..][i - 1] == lines[i];
        }
      }
    }
  }

  // ---- Applying ----

  function FoldPatches(doc: string, patches: seq<Patch>): Option<string>
    decreases |patches|
  {
    if patches == [] then Some(doc)
    else if patches[0].find == "" then None
    else
      match ReplaceSingle(doc, patches[0].find, patches[0].replace)
      case None => None
      case Some(next) => FoldPatches(next, patches[1..])
  }

  method ApplyPatches(base: string, patches: seq<Patch>) returns (r: Option<string>)
    ensures r == if patches == [] then None else FoldPatches(base, patches)
  {
    hide MatchIndices, ReplaceSingle;
    if patches == [] {
      return None;
    }
    var doc := base;
    assert patches[0..] == patches;
    for i := 0 to |patches|
      invariant FoldPatches(base, patches) == FoldPatches(doc, patches[i..])
    {
      var p := patches[i];
      assert patches[i..][0] == p && patches[i..][1..] == patches[i + 1..];
      if p.find == "" {
        return None;
      }
      var hits := MatchIndices(doc, p.find);
      ReplaceSingleMeaning(doc, p.find, p.replace);
      SingleMatch(doc, p.find);
      if |hits| != 1 {
        return None;
      }
      doc := doc[..hits[0]] + p.replace + doc[hits[0] + |p.find|..];
    }
    return Some(doc);
  }

  method Reconstruct(base: Option<string>, reply: string) returns (r: Option<string>)
    ensures r == var patches := Blocks(Lines(reply));
                 if patches == [] || base.None? then None else FoldPatches(base.value, patches)
  {
    var patches := ParsePatches(reply);
    if patches == [] || base.None? {
      return None;
    }
    r := ApplyPatches(base.value, patches);
  }
}
