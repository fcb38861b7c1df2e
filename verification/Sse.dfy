/** Server-sent event framing of the OpenAI-compatible adapter: network chunks in, complete lines out. */
module Sse {
  import opened Text
  import opened Utf8

  /** `trim_end_matches('\r')`. */
  function StripCr(line: string): (r: string)
    ensures |r| <= |line| && r == line[..|r|] && (r != "" ==> r[|r| - 1] != '\r')
    ensures forall i :: |r| <= i < |line| ==> line[i] == '\r'
  {
    if line != "" && line[|line| - 1] == '\r' then StripCr(line[..|line| - 1]) else line
  }

  /** The lines closed by a line feed, each without its trailing carriage returns. */
  function CompleteLines(text: string): seq<string> {
    var n := LineEnd(text);
    if n == |text| then [] else [StripCr(text[..n])] + CompleteLines(text[n + 1..])
  }

  /** What follows the last line feed. */
  function OpenLine(text: string): string {
    var n := LineEnd(text);
    if n == |text| then text else OpenLine(text[n + 1..])
  }

  lemma LineEndStable(a: string, b: string)
    requires LineEnd(a) < |a|
    ensures LineEnd(a + b) == LineEnd(a)
  {
    if a[0] != '\n' {
      assert (a + b)[1..] == a[1..] + b;
      LineEndStable(a[1..], b);
    }
  }

  /** Splitting text that arrives in two parts: the open line of the first part goes in front of the second. */
  lemma {:induction false} LinesSplit(a: string, b: string)
    ensures CompleteLines(a + b) == CompleteLines(a) + CompleteLines(OpenLine(a) + b)
    ensures OpenLine(a + b) == OpenLine(OpenLine(a) + b)
  {
    hide CompleteLines, OpenLine, LineEnd, StripCr;
    var n := LineEnd(a);
    if n < |a| {
      LineEndStable(a, b);
      assert (a + b)[n + 1..] == a[n + 1..] + b && (a + b)[..n] == a[..n];
      FirstLine(a);
      FirstLine(a + b);
      LinesSplit(a[n + 1..], b);
    } else {
      NoLine(a);
    }
  }

  /** The `data: [DONE]` line. */
  predicate IsDone(line: string) {
    5 <= |line| && line[..5] == "data:" && Trim(line[5..]) == "[DONE]"
  }

  /**
   * Handling lines one by one, `seen` being those handled so far. `fails` stands for every other way a frame ends the
   * stream (bad JSON, a provider error, incomplete tool arguments); it may depend on all lines up to that one.
   */
  datatype Progress = Progress(seen: seq<string>, ended: bool)

  function Handle(seen: seq<string>, lines: seq<string>, fails: seq<string> -> bool): Progress
    decreases |lines|
  {
    if lines == [] then Progress(seen, false)
    else
      var now := seen + [lines[0]];
      if IsDone(lines[0]) || fails(now) then Progress(now, true) else Handle(now, lines[1..], fails)
  }

  lemma {:induction false} HandleSplit(seen: seq<string>, a: seq<string>, b: seq<string>, fails: seq<string> -> bool)
    ensures var p := Handle(seen, a, fails);
            Handle(seen, a + b, fails) == if p.ended then p else Handle(p.seen, b, fails)
    decreases |a|
  {
    if a == [] {
      assert a + b == b;
    } else {
      assert (a + b)[1..] == a[1..] + b && (a + b)[0] == a[0];
      HandleSplit(seen + [a[0]], a[1..], b, fails);
    }
  }

  lemma ConcatSplit(a: seq<seq<byte>>, b: seq<seq<byte>>)
    ensures Concat(a + b) == Concat(a) + Concat(b)
  {
    if a == [] {
      assert a + b == b;
    } else {
      assert (a + b)[1..] == a[1..] + b;
    }
  }

  /** More bytes only add lines: what the lines so far decided stays decided. */
  lemma MoreBytes(a: seq<byte>, b: seq<byte>, fails: seq<string> -> bool)
    ensures var p := Handle([], CompleteLines(Lossy(a).text), fails);
            var open := OpenLine(Lossy(a).text);
            var text := Lossy(Lossy(a).rest + b).text;
            && Handle([], CompleteLines(Lossy(a + b).text), fails)
               == (if p.ended then p else Handle(p.seen, CompleteLines(open + text), fails))
            && OpenLine(Lossy(a + b).text) == OpenLine(open + text)
  {
    hide Lossy, CompleteLines, OpenLine, Handle;
    LossySplit(a, b);
    var text := Lossy(Lossy(a).rest + b).text;
    LinesSplit(Lossy(a).text, text);
    HandleSplit([], CompleteLines(Lossy(a).text), CompleteLines(OpenLine(Lossy(a).text) + text), fails);
  }

  /**
   * The stream loop: decode each chunk, drain complete lines from `buf`, stop at the first line that ends the stream.
   * The lines handled are those of the whole decoded text, whatever the chunk boundaries.
   */
  method StreamLines(chunks: seq<seq<byte>>, fails: seq<string> -> bool) returns (seen: seq<string>, ended: bool)
    ensures Progress(seen, ended) == Handle([], CompleteLines(Lossy(Concat(chunks)).text), fails)
  {
    hide Lossy, Concat, CompleteLines, OpenLine;
    var decoder := new Utf8Decoder();
    var buf := "";
    seen, ended := [], false;
    assert Lossy(Concat([])) == Decoded("", []) && CompleteLines("") == [] && OpenLine("") == "" by {
      NothingYet();
    }
    for i := 0 to |chunks|
      invariant fresh(decoder) && decoder.Valid()
      invariant !ended
      invariant Progress(seen, false) == Handle([], CompleteLines(Lossy(Concat(chunks[..i])).text), fails)
      invariant buf == OpenLine(Lossy(Concat(chunks[..i])).text)
      invariant decoder.pending == Lossy(Concat(chunks[..i])).rest
    {
      ghost var before, chunk := Concat(chunks[..i]), chunks[i];
      assert Concat(chunks[..i + 1]) == before + chunk && Lossy(Concat(chunks[..i + 1])) == Lossy(before + chunk) by {
        Prefix(chunks, i);
      }
      MoreBytes(before, chunk, fails);
      LossySplit(before, chunk);
      var text := decoder.DecodeChunk(chunks[i]);
      buf := buf + text;
      ghost var goal := Handle(seen, CompleteLines(buf), fails);
      ghost var whole := buf;
      while LineEnd(buf) < |buf|
        invariant !ended
        invariant Handle(seen, CompleteLines(buf), fails) == goal
        invariant OpenLine(buf) == OpenLine(whole)
        decreases |buf|
      {
        var pos := LineEnd(buf);
        var line := StripCr(buf[..pos]);
        assert CompleteLines(buf) == [line] + CompleteLines(buf[pos + 1..]) && OpenLine(buf) == OpenLine(buf[pos + 1..]) by {
          FirstLine(buf);
        }
        assert ([line] + CompleteLines(buf[pos + 1..]))[1..] == CompleteLines(buf[pos + 1..]);
        buf := buf[pos + 1..];
        seen := seen + [line];
        if IsDone(line) || fails(seen) {
          ended := true;
          assert goal == Progress(seen, true);
          Rest(chunks, i, fails);
          return;
        }
      }
      NoLine(buf);
    }
    assert chunks[..|chunks|] == chunks;
  }

  lemma NothingYet()
    ensures Lossy(Concat([])) == Decoded("", []) && CompleteLines("") == [] && OpenLine("") == ""
  {
  }

  lemma Prefix(chunks: seq<seq<byte>>, i: nat)
    requires i < |chunks|
    ensures Concat(chunks[..i + 1]) == Concat(chunks[..i]) + chunks[i]
  {
    assert chunks[..i + 1] == chunks[..i] + [chunks[i]];
    ConcatSplit(chunks[..i], [chunks[i]]);
    assert Concat([chunks[i]]) == chunks[i] + Concat([]);
  }

  lemma FirstLine(buf: string)
    requires LineEnd(buf) < |buf|
    ensures var pos := LineEnd(buf);
            && CompleteLines(buf) == [StripCr(buf[..pos])] + CompleteLines(buf[pos + 1..])
            && OpenLine(buf) == OpenLine(buf[pos + 1..])
  {
  }

  lemma NoLine(buf: string)
    requires LineEnd(buf) == |buf|
    ensures CompleteLines(buf) == [] && OpenLine(buf) == buf
  {
  }

  /** Once a line has ended the stream, the chunks not read would have changed nothing. */
  lemma Rest(chunks: seq<seq<byte>>, i: nat, fails: seq<string> -> bool)
    requires i < |chunks|
    requires Handle([], CompleteLines(Lossy(Concat(chunks[..i + 1])).text), fails).ended
    ensures Handle([], CompleteLines(Lossy(Concat(chunks)).text), fails)
            == Handle([], CompleteLines(Lossy(Concat(chunks[..i + 1])).text), fails)
  {
    hide Lossy, Concat, CompleteLines, OpenLine, Handle;
    assert chunks == chunks[..i + 1] + chunks[i + 1..];
    ConcatSplit(chunks[..i + 1], chunks[i + 1..]);
    MoreBytes(Concat(chunks[..i + 1]), Concat(chunks[i + 1..]), fails);
  }
}
