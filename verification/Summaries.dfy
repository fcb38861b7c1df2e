/** Rolling summaries: which one applies to a branch, what the next one folds in, and what it then accounts for. */
module Summaries {
  import opened Text
  import opened States
  import opened Protocol
  import opened Tree
  import opened Storage

  /** The positions from the end of the last summary up to the most recent `keepRecent`, when there are any. */
  function FoldRange(pathLen: nat, prev: Option<nat>, keepRecent: nat): Option<(nat, nat)> {
    var start := if prev.Some? then prev.value + 1 else 0;
    var end := if pathLen < keepRecent then 0 else pathLen - keepRecent;
    if start < end then Some((start, end)) else None
  }

  function Position(path: seq<nat>, id: nat): (k: Option<nat>)
    ensures k.Some? ==> k.value < |path| && path[k.value] == id && id !in path[..k.value]
    ensures k.None? ==> id !in path
  {
    if path == [] then None
    else if path[0] == id then Some(0)
    else
      match Position(path[1..], id)
      case None => None
      case Some(k) =>
        assert path[..k + 1] == [path[0]] + path[1..][..k];
        Some(k + 1)
  }

  /** The last of the summaries whose cutoff lies furthest along the path. */
  function Applicable(summaries: seq<Summary>, path: seq<nat>): Option<(Summary, nat)> {
    if summaries == [] then None
    else
      var best := Applicable(summaries[..|summaries| - 1], path);
      var s := summaries[|summaries| - 1];
      match Position(path, s.cutoff)
      case None => best
      case Some(k) => if best.None? || k >= best.value.1 then Some((s, k)) else best
  }

  lemma {:induction false} ApplicableMeaning(summaries: seq<Summary>, path: seq<nat>)
    ensures var best := Applicable(summaries, path);
            && (best.Some? ==>
                  && best.value.0 in summaries
                  && Position(path, best.value.0.cutoff) == Some(best.value.1))
            && forall s :: s in summaries && s.cutoff in path ==>
                 best.Some? && Position(path, s.cutoff).value <= best.value.1
  {
    if summaries != [] {
      var n := |summaries| - 1;
      ApplicableMeaning(summaries[..n], path);
      forall s | s in summaries && s.cutoff in path
        ensures var best := Applicable(summaries, path);
                best.Some? && Position(path, s.cutoff).value <= best.value.1
      {
        if s !in summaries[..n] {
          assert s == summaries[n];
        }
      }
    }
  }

  method ApplicableSummary(summaries: seq<Summary>, path: seq<Message>) returns (best: Option<(Summary, nat)>)
    ensures best == Applicable(summaries, Ids(path))
  {
    best := None;
    for n := 0 to |summaries|
      invariant best == Applicable(summaries[..n], Ids(path))
    {
      var s := summaries[n];
      assert summaries[..n + 1][..n] == summaries[..n];
      var k := Position(Ids(path), s.cutoff);
      if k.Some? && (best.None? || k.value >= best.value.1) {
        best := Some((s, k.value));
      }
    }
    assert summaries[..|summaries|] == summaries;
  }

  // ---- What summaries account for ----

  function Covered(text: seq<Line>): (ids: seq<nat>)
    ensures |ids| == |text| && forall k :: 0 <= k < |text| ==> ids[k] == text[k].id
  {
    seq(|text|, k requires 0 <= k < |text| => text[k].id)
  }

  /** The summary accounts for exactly the positions from the root to its cutoff, in order. */
  predicate Exact(t: Table, s: Summary)
    requires Forest(t)
  {
    s.cutoff in t && Covered(s.text) == Path(t, s.cutoff)
  }

  function LineOf(m: Message): Line {
    if m.hidden then Skipped(m.id) else Told(m.id)
  }

  function Lines(ms: seq<Message>): (text: seq<Line>)
    ensures |text| == |ms| && forall k :: 0 <= k < |ms| ==> text[k] == LineOf(ms[k])
  {
    seq(|ms|, k requires 0 <= k < |ms| => LineOf(ms[k]))
  }

  /** What a summariser that reads this branch and these summaries will write, if it writes. */
  function Digest(summaries: seq<Summary>, path: seq<Message>, keepRecent: nat): Option<Summary> {
    var prev := Applicable(summaries, Ids(path));
    var range := FoldRange(|path|, if prev.Some? then Some(prev.value.1) else None, keepRecent);
    if range.None? then None
    else
      var (start, end) := range.value;
      Some(Summary(
        path[end - 1].id,
        (if prev.Some? then prev.value.0.text else []) + Lines(path[start..end])))
  }

  method FoldIn(text: seq<Line>, ms: seq<Message>) returns (body: seq<Line>)
    ensures body == text + Lines(ms)
  {
    body := text;
    for k := 0 to |ms|
      invariant body == text + Lines(ms[..k])
    {
      var m := ms[k];
      assert Lines(ms[..k + 1]) == Lines(ms[..k]) + [LineOf(m)];
      if m.hidden {
        body := body + [Skipped(m.id)];
        continue;
      }
      body := body + [Told(m.id)];
    }
    assert ms[..|ms|] == ms;
  }

  method ReadDigest(summaries: seq<Summary>, path: seq<Message>, keepRecent: nat) returns (d: Option<Summary>)
    ensures d == Digest(summaries, path, keepRecent)
  {
    var prev := ApplicableSummary(summaries, path);
    var range := FoldRange(|path|, if prev.Some? then Some(prev.value.1) else None, keepRecent);
    if range.None? {
      return None;
    }
    var (start, end) := range.value;
    var body := FoldIn(if prev.Some? then prev.value.0.text else [], path[start..end]);
    d := Some(Summary(path[end - 1].id, body));
  }

  lemma LinesExtend(text: seq<Line>, path: seq<Message>, start: nat, end: nat)
    requires start <= end <= |path| && Covered(text) == Ids(path)[..start]
    ensures Covered(text + Lines(path[start..end])) == Ids(path)[..end]
  {
    assert Ids(path)[..end] == Ids(path)[..start] + Ids(path)[start..end];
    assert Covered(Lines(path[start..end])) == Ids(path)[start..end];
    assert Covered(text + Lines(path[start..end])) == Covered(text) + Covered(Lines(path[start..end]));
  }

  // ---- What a request shows of a branch ----

  /** Where the part of the branch that is sent as it stands begins. */
  function VisibleStart(summaries: seq<Summary>, path: seq<nat>): (k: nat)
    ensures k <= |path|
  {
    ApplicableMeaning(summaries, path);
    if Applicable(summaries, path).Some? then Applicable(summaries, path).value.1 + 1 else 0
  }

  function SummaryText(summaries: seq<Summary>, path: seq<nat>): seq<Line> {
    if Applicable(summaries, path).Some? then Applicable(summaries, path).value.0.text else []
  }

  lemma SummaryCoversStart(t: Table, summaries: seq<Summary>, id: nat)
    requires Forest(t) && id in t && forall s :: s in summaries ==> Exact(t, s)
    ensures var path := Path(t, id);
            && Covered(SummaryText(summaries, path)) == path[..VisibleStart(summaries, path)]
            && forall s :: s in summaries && s.cutoff in path ==>
                 Position(path, s.cutoff).value < VisibleStart(summaries, path)
  {
    hide Path, Applicable, Position, Forest;
    var path := Path(t, id);
    ApplicableMeaning(summaries, path);
    if Applicable(summaries, path).Some? {
      PathPrefix(t, id, Applicable(summaries, path).value.1);
    }
  }

  /** What is folded in follows what the applicable summary accounts for. */
  lemma DigestShape(summaries: seq<Summary>, path: seq<Message>, keepRecent: nat)
    ensures var d := Digest(summaries, path, keepRecent);
            var start, end := VisibleStart(summaries, Ids(path)), |path| - keepRecent;
            && (d.Some? <==> start < end)
            && (d.Some? ==> d.value == Summary(
                  path[end - 1].id, SummaryText(summaries, Ids(path)) + Lines(path[start..end])))
  {
    hide Applicable, Position;
    ApplicableMeaning(summaries, Ids(path));
  }

  lemma DigestReachesFurther(summaries: seq<Summary>, path: seq<Message>, keepRecent: nat)
    ensures var d := Digest(summaries, path, keepRecent);
            var prev := Applicable(summaries, Ids(path));
            d.Some? && prev.Some? ==> prev.value.1 < |path| - keepRecent - 1 && |prev.value.0.text| < |d.value.text|
  {
    hide Applicable, Position;
  }

  /** From exact summaries a summariser makes an exact one, reaching further than the one it started from. */
  lemma DigestIsExact(t: Table, summaries: seq<Summary>, path: seq<Message>, keepRecent: nat)
    requires Forest(t) && forall s :: s in summaries ==> Exact(t, s)
    requires path != [] ==> path[|path| - 1].id in t && Ids(path) == Path(t, path[|path| - 1].id)
    ensures var d := Digest(summaries, path, keepRecent);
            var prev := Applicable(summaries, Ids(path));
            && (d.Some? <==> VisibleStart(summaries, Ids(path)) < |path| - keepRecent)
            && (d.Some? ==>
              && Exact(t, d.value)
              && d.value.cutoff == Ids(path)[|path| - keepRecent - 1]
              && (prev.Some? ==> prev.value.1 < |path| - keepRecent - 1 && |prev.value.0.text| < |d.value.text|))
  {
    hide Path, Applicable, Position, Forest, Covered, Digest, VisibleStart, SummaryText;
    var ids := Ids(path);
    DigestShape(summaries, path, keepRecent);
    DigestReachesFurther(summaries, path, keepRecent);
    if Digest(summaries, path, keepRecent).Some? {
      var leaf := path[|path| - 1].id;
      var start, end := VisibleStart(summaries, ids), |path| - keepRecent;
      SummaryCoversStart(t, summaries, leaf);
      LinesExtend(SummaryText(summaries, ids), path, start, end);
      PathPrefix(t, leaf, end - 1);
    }
  }

  /** A summary that reaches further than those before it is the one that applies from then on. */
  lemma FurthestApplies(summaries: seq<Summary>, s: Summary, path: seq<nat>, at: nat)
    requires Position(path, s.cutoff) == Some(at) && VisibleStart(summaries, path) <= at
    ensures VisibleStart(summaries + [s], path) == at + 1 && SummaryText(summaries + [s], path) == s.text
  {
    assert (summaries + [s])[..|summaries|] == summaries;
  }

  lemma PositionIs(path: seq<nat>, k: nat)
    requires k < |path| && forall i, j :: 0 <= i < j < |path| ==> path[i] != path[j]
    ensures Position(path, path[k]) == Some(k)
  {
    var p := Position(path, path[k]);
    assert p.Some?;
    assert path[p.value] == path[k];
  }

  /** Once it is stored, the branch is shown as the new summary and exactly the messages that were to be kept. */
  lemma DigestApplies(t: Table, summaries: seq<Summary>, path: seq<Message>, keepRecent: nat)
    requires Forest(t) && forall s :: s in summaries ==> Exact(t, s)
    requires path != [] && path[|path| - 1].id in t && Ids(path) == Path(t, path[|path| - 1].id)
    requires Digest(summaries, path, keepRecent).Some?
    ensures var after := summaries + [Digest(summaries, path, keepRecent).value];
            && keepRecent < |path|
            && VisibleStart(after, Ids(path)) == |path| - keepRecent
            && Covered(SummaryText(after, Ids(path))) == Ids(path)[..|path| - keepRecent]
  {
    hide Forest, Digest, Path, Position, VisibleStart, SummaryText, Covered;
    DigestIsExact(t, summaries, path, keepRecent);
    var leaf, at := path[|path| - 1].id, |path| - keepRecent - 1;
    PathDistinct(t, leaf);
    PositionIs(Ids(path), at);
    FurthestApplies(summaries, Digest(summaries, path, keepRecent).value, Ids(path), at);
    PathPrefix(t, leaf, at);
  }

  /** The summary and the rest of the branch together give each position of the branch once. */
  lemma NoGapNoOverlap(t: Table, summaries: seq<Summary>, id: nat)
    requires Forest(t) && id in t && forall s :: s in summaries ==> Exact(t, s)
    ensures var path := Path(t, id);
            && Covered(SummaryText(summaries, path)) + path[VisibleStart(summaries, path)..] == path
            && (forall j, k :: 0 <= j < k < |path| ==> path[j] != path[k])
            && forall s :: s in summaries && s.cutoff in path ==>
                 Position(path, s.cutoff).value < VisibleStart(summaries, path)
  {
    hide Path, Position, Forest, SummaryText, VisibleStart, Covered, Exact;
    var path := Path(t, id);
    SummaryCoversStart(t, summaries, id);
    PathDistinct(t, id);
    assert path[..VisibleStart(summaries, path)] + path[VisibleStart(summaries, path)..] == path;
  }

  /** The messages that are not hidden, in order. */
  function Shown(ms: seq<Message>): (out: seq<Message>) {
    if ms == [] then []
    else Shown(ms[..|ms| - 1]) + if ms[|ms| - 1].hidden then [] else [ms[|ms| - 1]]
  }

  method OnlyShown(ms: seq<Message>) returns (out: seq<Message>)
    ensures out == Shown(ms)
  {
    out := [];
    for k := 0 to |ms|
      invariant out == Shown(ms[..k])
    {
      assert ms[..k + 1][..k] == ms[..k];
      if !ms[k].hidden {
        out := out + [ms[k]];
      }
    }
    assert ms[..|ms|] == ms;
  }

  /** What a request is assembled from: the summary that applies, and the rest of the branch without hidden messages. */
  method ReadContext(summaries: seq<Summary>, path: seq<Message>)
    returns (summary: seq<Line>, context: seq<Message>)
    ensures summary == SummaryText(summaries, Ids(path))
    ensures context == Shown(path[VisibleStart(summaries, Ids(path))..])
  {
    hide Applicable, Position, Shown;
    var best := ApplicableSummary(summaries, path);
    ApplicableMeaning(summaries, Ids(path));
    summary := if best.Some? then best.value.0.text else [];
    var start := if best.Some? then best.value.1 + 1 else 0;
    context := OnlyShown(path[start..]);
  }
}
