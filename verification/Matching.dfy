/** `match_indices` and the single-match replacement that both patch engines are built on. */
module Matching {
  import opened Text

  /** Non-overlapping matches from left to right, for a needle that is not empty. */
  function MatchesFrom(hay: string, needle: string, from: nat): seq<nat>
    requires needle != "" && from <= |hay|
    decreases |hay| - from
  {
    match FindFrom(hay, needle, from)
    case None => []
    case Some(at) => [at] + MatchesFrom(hay, needle, at + |needle|)
  }

  /** An empty needle matches at every character boundary. */
  function MatchIndices(hay: string, needle: string): seq<nat> {
    if needle == "" then seq(|hay| + 1, i => i) else MatchesFrom(hay, needle, 0)
  }

  /** What "occurs once" means here: overlapping repeats of the first occurrence are not counted. */
  predicate OccursOnce(hay: string, needle: string, at: nat) {
    && MatchAt(hay, needle, at)
    && (forall j :: 0 <= j < at ==> !MatchAt(hay, needle, j))
    && (forall j :: at + |needle| <= j <= |hay| && at < j ==> !MatchAt(hay, needle, j))
  }

  lemma SingleMatch(hay: string, needle: string)
    ensures |MatchIndices(hay, needle)| == 1 <==> exists at: nat :: OccursOnce(hay, needle, at)
    ensures forall at: nat :: OccursOnce(hay, needle, at) ==> MatchIndices(hay, needle) == [at]
    ensures MatchIndices(hay, needle) == [] <==> !Contains(hay, needle)
  {
    if needle == "" {
      assert forall j :: 0 <= j <= |hay| ==> MatchAt(hay, needle, j);
      if |hay| == 0 {
        assert OccursOnce(hay, needle, 0);
      } else {
        assert MatchAt(hay, needle, 0) && MatchAt(hay, needle, |hay|);
      }
    } else {
      var all := MatchesFrom(hay, needle, 0);
      forall at: nat | OccursOnce(hay, needle, at)
        ensures all == [at]
      {
        FindIs(hay, needle, at);
        assert MatchesFrom(hay, needle, at + |needle|) == [];
      }
      if |all| == 1 {
        assert MatchesFrom(hay, needle, all[0] + |needle|) == [];
        assert OccursOnce(hay, needle, all[0]);
      }
    }
  }

  /** "aa" is unique in "aaa", although it also matches one character later. */
  lemma OverlapCountsOnce()
    ensures MatchIndices("aaa", "aa") == [0] && MatchAt("aaa", "aa", 1)
  {
    assert OccursOnce("aaa", "aa", 0);
    SingleMatch("aaa", "aa");
  }

  /** The text with its only match replaced. */
  function ReplaceSingle(doc: string, find: string, replace: string): Option<string> {
    var hits := MatchIndices(doc, find);
    if |hits| != 1 || !MatchAt(doc, find, hits[0]) then None
    else Some(doc[..hits[0]] + replace + doc[hits[0] + |find|..])
  }

  /** Accepted exactly when the match is unique; then only the matched stretch changes. */
  lemma ReplaceSingleMeaning(doc: string, find: string, replace: string)
    ensures ReplaceSingle(doc, find, replace).Some? <==> exists at: nat :: OccursOnce(doc, find, at)
    ensures forall at: nat :: OccursOnce(doc, find, at) ==>
              ReplaceSingle(doc, find, replace) == Some(doc[..at] + replace + doc[at + |find|..])
    ensures |MatchIndices(doc, find)| == 1 <==> ReplaceSingle(doc, find, replace).Some?
  {
    SingleMatch(doc, find);
  }
}
