/** The response workspace of a run: one text, a revision counter, and the edits that move both. */
module Workspaces {
  import opened Text
  import opened Matching
  import HtmlPatch
  import Utf8

  const MAX_WORKSPACE_BYTES: nat := 262144
  const U64_MAX: nat := 0xFFFF_FFFF_FFFF_FFFF

  datatype Workspace = Workspace(text: string, revision: nat)

  datatype PatchOp = PatchOp(search: string, replace: string)

  function ByteLen(s: string): nat {
    |Utf8.Encode(s)|
  }

  /** `saturating_add(1)` on the 64-bit revision. */
  function NextRevision(revision: nat): nat {
    if revision < U64_MAX then revision + 1 else U64_MAX
  }

  /** One patch step: the search text must match once, and the outcome must stay under the ceiling. */
  function ApplyOp(text: string, op: PatchOp): Result<string, string> {
    var hits := MatchIndices(text, op.search);
    if hits == [] then Err("search_not_found")
    else
      match ReplaceSingle(text, op.search, op.replace)
      case None => Err("search_not_unique")
      case Some(next) => if ByteLen(next) > MAX_WORKSPACE_BYTES then Err("response_too_large") else Ok(next)
  }

  lemma ApplyOpMeaning(text: string, op: PatchOp)
    ensures var hits := MatchIndices(text, op.search);
            if hits == [] then ApplyOp(text, op) == Err("search_not_found")
            else if |hits| != 1 then ApplyOp(text, op) == Err("search_not_unique")
            else
              && hits[0] + |op.search| <= |text|
              && var next := text[..hits[0]] + op.replace + text[hits[0] + |op.search|..];
              ApplyOp(text, op) == if ByteLen(next) > MAX_WORKSPACE_BYTES then Err("response_too_large") else Ok(next)
  {
    hide MatchIndices, ByteLen;
    ReplaceSingleMeaning(text, op.search, op.replace);
    SingleMatch(text, op.search);
  }

  /** All steps in order, on a candidate; the first failure fails the patch. */
  function FoldOps(text: string, ops: seq<PatchOp>): Result<string, string>
    decreases |ops|
  {
    if ops == [] then Ok(text)
    else
      match ApplyOp(text, ops[0])
      case Err(e) => Err(e)
      case Ok(next) => FoldOps(next, ops[1..])
  }

  method ApplyReplace(ws: Workspace, text: string) returns (next: Workspace)
    ensures next == Workspace(text, NextRevision(ws.revision))
  {
    next := ws.(text := text);
    next := next.(revision := NextRevision(ws.revision));
  }

  /** The workspace only moves when the patch names its current revision and every step applies. */
  method ApplyPatch(ws: Workspace, revision: nat, ops: seq<PatchOp>) returns (next: Workspace, error: Option<string>)
    ensures revision != ws.revision ==> error == Some("stale_revision")
    ensures revision == ws.revision ==>
              error == match FoldOps(ws.text, ops) case Err(e) => Some(e) case Ok(_) => None
    ensures error.Some? ==> next == ws
    ensures error.None? ==> FoldOps(ws.text, ops) == Ok(next.text) && next.revision == NextRevision(ws.revision)
  {
    hide MatchIndices, ReplaceSingle, ApplyOp, ByteLen;
    next := ws;
    if revision != ws.revision {
      return next, Some("stale_revision");
    }
    var candidate := ws.text;
    assert ops[0..] == ops;
    for i := 0 to |ops|
      invariant FoldOps(ws.text, ops) == FoldOps(candidate, ops[i..])
    {
      var op := ops[i];
      assert ops[i..][0] == op && ops[i..][1..] == ops[i + 1..];
      var hits := MatchIndices(candidate, op.search);
      ApplyOpMeaning(candidate, op);
      if |hits| != 1 {
        return next, Some(if hits == [] then "search_not_found" else "search_not_unique");
      }
      candidate := candidate[..hits[0]] + op.replace + candidate[hits[0] + |op.search|..];
      if ByteLen(candidate) > MAX_WORKSPACE_BYTES {
        return next, Some("response_too_large");
      }
    }
    next := Workspace(candidate, NextRevision(ws.revision));
    error := None;
  }

  /** A finish call commits: its own text replaces the workspace, otherwise the workspace must not be blank. */
  method CommitFinish(ws: Workspace, response: Option<string>) returns (next: Workspace, r: Result<string, string>)
    ensures r.Err? ==> next == ws
    ensures r.Ok? ==> r.value == next.text
    ensures response.Some? ==>
              if ByteLen(response.value) > MAX_WORKSPACE_BYTES then r == Err("response_too_large")
              else r == Ok(response.value) && next.revision == NextRevision(ws.revision)
    ensures response.None? ==> next == ws && r == if Blank(ws.text) then Err("empty_response") else Ok(ws.text)
  {
    next := ws;
    match response {
      case Some(text) =>
        if ByteLen(text) > MAX_WORKSPACE_BYTES {
          return next, Err("response_too_large");
        }
        next := Workspace(text, NextRevision(ws.revision));
        return next, Ok(text);
      case None =>
        TrimMeaning(ws.text);
        return next, if Trim(ws.text) == "" then Err("empty_response") else Ok(ws.text);
    }
  }

  // ---- The two patch engines ----

  function AsPatches(ops: seq<PatchOp>): (r: seq<HtmlPatch.Patch>)
    ensures |r| == |ops| && forall i :: 0 <= i < |ops| ==> r[i] == HtmlPatch.Patch(ops[i].search, ops[i].replace)
  {
    seq(|ops|, i requires 0 <= i < |ops| => HtmlPatch.Patch(ops[i].search, ops[i].replace))
  }

  /** Every text on the way stays under the ceiling. */
  predicate FitsThroughout(text: string, ops: seq<PatchOp>)
    decreases |ops|
  {
    ops == [] ||
    match ReplaceSingle(text, ops[0].search, ops[0].replace)
    case None => true
    case Some(next) => ByteLen(next) <= MAX_WORKSPACE_BYTES && FitsThroughout(next, ops[1..])
  }

  /** Below the ceiling and with non-empty searches, card patching and workspace patching accept the same and agree. */
  lemma {:induction false} EnginesAgree(text: string, ops: seq<PatchOp>)
    requires forall i :: 0 <= i < |ops| ==> ops[i].search != ""
    requires FitsThroughout(text, ops)
    ensures HtmlPatch.FoldPatches(text, AsPatches(ops)) ==
            match FoldOps(text, ops) case Ok(t) => Some(t) case Err(_) => None
    decreases |ops|
  {
    hide ReplaceSingle, MatchIndices;
    if ops != [] {
      SingleMatch(text, ops[0].search);
      ReplaceSingleMeaning(text, ops[0].search, ops[0].replace);
      assert AsPatches(ops)[1..] == AsPatches(ops[1..]);
      var next := ReplaceSingle(text, ops[0].search, ops[0].replace);
      if next.Some? {
        EnginesAgree(next.value, ops[1..]);
      }
    }
  }

  // ---- The history of a workspace ----

  datatype Edit =
    | Replaced(text: string)
    | Patched(revision: nat, ops: seq<PatchOp>)
    | Committed(text: string)

  /** The revision after this many edits. */
  function RevisionOf(edits: nat): nat {
    if edits <= U64_MAX then edits else U64_MAX
  }

  /** The edit leads from the text numbered `at` to the next one. */
  predicate Leads(at: nat, before: string, edit: Edit, after: string) {
    match edit
    case Replaced(text) => after == text
    case Patched(revision, ops) => revision == RevisionOf(at) && FoldOps(before, ops) == Ok(after)
    case Committed(text) => after == text && !Blank(text)
  }

  /** `texts` are all texts the workspace has held, `edits` what led from each to the next. */
  ghost predicate History(ws: Workspace, texts: seq<string>, edits: seq<Edit>) {
    && |texts| == |edits| + 1
    && texts[0] == ""
    && ws == Workspace(texts[|edits|], RevisionOf(|edits|))
    && (forall k :: 0 <= k < |edits| ==> Leads(k, texts[k], edits[k], texts[k + 1]))
    && (forall k :: 0 <= k < |texts| ==> ByteLen(texts[k]) <= MAX_WORKSPACE_BYTES)
  }

  lemma HistoryGrows(ws: Workspace, texts: seq<string>, edits: seq<Edit>, edit: Edit, after: string)
    requires History(ws, texts, edits)
    requires Leads(|edits|, ws.text, edit, after) && ByteLen(after) <= MAX_WORKSPACE_BYTES
    ensures History(Workspace(after, NextRevision(ws.revision)), texts + [after], edits + [edit])
  {
    hide ByteLen, Leads;
    var ts, es := texts + [after], edits + [edit];
    forall k | 0 <= k < |es|
      ensures Leads(k, ts[k], es[k], ts[k + 1])
    {
      if k < |edits| {
        assert ts[k] == texts[k] && ts[k + 1] == texts[k + 1] && es[k] == edits[k];
      }
    }
  }

  /**
   * Below 2^64 edits the revision counts them, the current text is the one with that number, and a patch was accepted
   * only against the text of the revision it named.
   */
  lemma HistoryMeaning(ws: Workspace, texts: seq<string>, edits: seq<Edit>)
    requires History(ws, texts, edits) && |edits| <= U64_MAX
    ensures ws.revision == |edits| && ws.text == texts[ws.revision] && ByteLen(ws.text) <= MAX_WORKSPACE_BYTES
    ensures forall k :: 0 <= k < |edits| && edits[k].Patched? ==>
              edits[k].revision == k && FoldOps(texts[k], edits[k].ops) == Ok(texts[k + 1])
  {
    hide ByteLen, FoldOps;
    forall k | 0 <= k < |edits| && edits[k].Patched?
      ensures edits[k].revision == k && FoldOps(texts[k], edits[k].ops) == Ok(texts[k + 1])
    {
      assert Leads(k, texts[k], edits[k], texts[k + 1]);
    }
  }

  lemma {:induction false} FoldOpsFits(text: string, ops: seq<PatchOp>)
    requires ByteLen(text) <= MAX_WORKSPACE_BYTES && FoldOps(text, ops).Ok?
    ensures ByteLen(FoldOps(text, ops).value) <= MAX_WORKSPACE_BYTES
    decreases |ops|
  {
    hide ByteLen, ReplaceSingle, MatchIndices;
    if ops != [] {
      FoldOpsFits(ApplyOp(text, ops[0]).value, ops[1..]);
    }
  }
}
