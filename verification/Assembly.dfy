/** A prompt plan and a history become one list of messages, which is then trimmed to the context window. */
module Assembly {
  import opened Text
  import opened Json
  import opened Protocol

  datatype Placement = BeforeHistory | AfterHistory

  datatype Segment = Segment(placement: Placement, content: string)

  // ---- Groups of messages with the same role ----

  function Flatten(groups: seq<seq<ChatMessage>>): seq<ChatMessage> {
    if groups == [] then [] else Flatten(groups[..|groups| - 1]) + groups[|groups| - 1]
  }

  predicate SameRole(group: seq<ChatMessage>) {
    group != [] && forall i :: 0 <= i < |group| ==> group[i].role == group[0].role
  }

  /** The messages cut, in order, into the longest runs of one role. */
  predicate Maximal(ms: seq<ChatMessage>, groups: seq<seq<ChatMessage>>) {
    && Flatten(groups) == ms
    && (forall g :: 0 <= g < |groups| ==> SameRole(groups[g]))
    && forall g :: 0 < g < |groups| ==> groups[g - 1][0].role != groups[g][0].role
  }

  /** One more message: into the last run, or a run of its own. */
  function Extend(groups: seq<seq<ChatMessage>>, m: ChatMessage): seq<seq<ChatMessage>> {
    var n := |groups| - 1;
    if groups != [] && groups[n] != [] && groups[n][0].role == m.role
    then groups[..n] + [groups[n] + [m]]
    else groups + [[m]]
  }

  function Groups(ms: seq<ChatMessage>): seq<seq<ChatMessage>> {
    if ms == [] then [] else Extend(Groups(ms[..|ms| - 1]), ms[|ms| - 1])
  }

  lemma FlattenSnoc(groups: seq<seq<ChatMessage>>, group: seq<ChatMessage>)
    ensures Flatten(groups + [group]) == Flatten(groups) + group
  {
    assert (groups + [group])[..|groups|] == groups;
  }

  lemma ExtendIsMaximal(ms: seq<ChatMessage>, groups: seq<seq<ChatMessage>>, m: ChatMessage)
    requires Maximal(ms, groups)
    ensures Maximal(ms + [m], Extend(groups, m))
  {
    hide Flatten;
    FlattenSnoc(groups, [m]);
    if groups != [] {
      var n := |groups| - 1;
      assert SameRole(groups[n]);
      assert groups == groups[..n] + [groups[n]];
      FlattenSnoc(groups[..n], groups[n]);
      FlattenSnoc(groups[..n], groups[n] + [m]);
    }
  }

  lemma {:induction false} GroupsAreMaximal(ms: seq<ChatMessage>)
    ensures Maximal(ms, Groups(ms))
  {
    hide Flatten, Extend;
    if ms == [] {
      FlattenNothing();
    } else {
      GroupsAreMaximal(ms[..|ms| - 1]);
      ExtendIsMaximal(ms[..|ms| - 1], Groups(ms[..|ms| - 1]), ms[|ms| - 1]);
      assert ms == ms[..|ms| - 1] + [ms[|ms| - 1]];
    }
  }

  lemma FlattenNothing()
    ensures Flatten([]) == []
  {
  }

  lemma FlattenNonempty(groups: seq<seq<ChatMessage>>)
    requires groups != [] && forall g :: 0 <= g < |groups| ==> SameRole(groups[g])
    ensures Flatten(groups) != []
  {
    assert SameRole(groups[|groups| - 1]);
  }

  /** There is only one way to cut messages like that. */
  lemma {:induction false} OneMaximalCut(ms: seq<ChatMessage>, groups: seq<seq<ChatMessage>>)
    requires Maximal(ms, groups)
    ensures groups == Groups(ms)
    decreases |ms|
  {
    hide Flatten;
    if groups == [] {
      FlattenNothing();
    } else {
      FlattenNonempty(groups);
      var n := |groups| - 1;
      var last, m := groups[n], ms[|ms| - 1];
      assert groups == groups[..n] + [last];
      FlattenSnoc(groups[..n], last);
      assert SameRole(last) && last[|last| - 1] == m;
      var front := ms[..|ms| - 1];
      if |last| == 1 {
        assert last == [m];
        assert Flatten(groups[..n]) == front;
        OneMaximalCut(front, groups[..n]);
        if n > 0 {
          assert SameRole(groups[n - 1]);
        }
      } else {
        var shorter := groups[..n] + [last[..|last| - 1]];
        FlattenSnoc(groups[..n], last[..|last| - 1]);
        assert last == last[..|last| - 1] + [m];
        assert Flatten(shorter) == front;
        OneMaximalCut(front, shorter);
        assert shorter[..n] == groups[..n];
      }
    }
  }

  // ---- What a merged message keeps ----

  function Lines(ms: seq<ChatMessage>): string {
    if ms == [] then ""
    else if |ms| == 1 then ms[0].content
    else Lines(ms[..|ms| - 1]) + "\n" + ms[|ms| - 1].content
  }

  /** The first message of a run, with the text of the whole run. */
  function Joined(group: seq<ChatMessage>): ChatMessage
    requires group != []
  {
    group[0].(content := Lines(group))
  }

  function JoinedAll(groups: seq<seq<ChatMessage>>): (out: seq<ChatMessage>)
    requires forall g :: 0 <= g < |groups| ==> SameRole(groups[g])
    ensures |out| == |groups|
    ensures forall g :: 0 <= g < |groups| ==> SameRole(groups[g]) && out[g] == Joined(groups[g])
  {
    seq(|groups|, g requires 0 <= g < |groups| => assert SameRole(groups[g]); Joined(groups[g]))
  }

  function Merged(ms: seq<ChatMessage>): seq<ChatMessage> {
    GroupsAreMaximal(ms);
    JoinedAll(Groups(ms))
  }

  /** What one more message does to the merged list. */
  function Absorb(merged: seq<ChatMessage>, m: ChatMessage): seq<ChatMessage> {
    var n := |merged| - 1;
    if merged != [] && merged[n].role == m.role
    then merged[..n] + [merged[n].(content := merged[n].content + "\n" + m.content)]
    else merged + [m]
  }

  lemma JoinedSnoc(group: seq<ChatMessage>, m: ChatMessage)
    ensures group != [] ==> Joined(group + [m]) == Joined(group).(content := Joined(group).content + "\n" + m.content)
    ensures Joined([m]) == m
  {
    assert (group + [m])[..|group|] == group;
    assert m.(content := m.content) == m;
  }

  lemma MergedSnoc(ms: seq<ChatMessage>, m: ChatMessage)
    ensures Merged(ms + [m]) == Absorb(Merged(ms), m)
  {
    hide Lines, Flatten;
    var all := ms + [m];
    assert all[..|all| - 1] == ms && all[|all| - 1] == m;
    GroupsAreMaximal(ms);
    GroupsAreMaximal(all);
    var groups := Groups(ms);
    if groups != [] {
      assert SameRole(groups[|groups| - 1]);
      JoinedSnoc(groups[|groups| - 1], m);
    } else {
      JoinedSnoc([], m);
    }
  }

  method MergeAdjacent(ms: seq<ChatMessage>) returns (merged: seq<ChatMessage>)
    ensures merged == Merged(ms)
  {
    hide Merged;
    merged := [];
    assert Merged([]) == [] by {
      NothingMerged();
    }
    for k := 0 to |ms|
      invariant merged == Merged(ms[..k])
    {
      var m := ms[k];
      MergedSnoc(ms[..k], m);
      assert ms[..k + 1] == ms[..k] + [m];
      if |merged| > 0 && merged[|merged| - 1].role == m.role {
        var last := merged[|merged| - 1];
        merged := merged[..|merged| - 1] + [last.(content := last.content + "\n" + m.content)];
        continue;
      }
      merged := merged + [m];
    }
    assert ms[..|ms|] == ms;
  }

  lemma NothingMerged()
    ensures Merged([]) == []
  {
  }

  lemma {:induction false} LinesOfParts(a: seq<ChatMessage>, b: seq<ChatMessage>)
    requires a != [] && b != []
    ensures Lines(a + b) == Lines(a) + "\n" + Lines(b)
    decreases |b|
  {
    assert (a + b)[|a + b| - 1] == b[|b| - 1];
    assert (a + b)[..|a + b| - 1] == a + b[..|b| - 1];
    if |b| == 1 {
      assert a + b[..0] == a;
    } else {
      LinesOfParts(a, b[..|b| - 1]);
    }
  }

  /** Merging conserves the text, with the roles in the same order. */
  lemma {:induction false} MergingKeepsText(groups: seq<seq<ChatMessage>>)
    requires forall g :: 0 <= g < |groups| ==> SameRole(groups[g])
    ensures Lines(JoinedAll(groups)) == Lines(Flatten(groups))
    ensures groups != [] ==> Flatten(groups) != []
  {
    if groups != [] {
      var n := |groups| - 1;
      var front, last := groups[..n], groups[n];
      MergingKeepsText(front);
      assert SameRole(last);
      assert JoinedAll(groups) == JoinedAll(front) + [Joined(last)];
      if n == 0 {
        assert Flatten(groups) == last;
      } else {
        LinesOfParts(Flatten(front), last);
        assert JoinedAll(groups)[..n] == JoinedAll(front);
      }
    }
  }

  function Images(ms: seq<ChatMessage>): seq<string> {
    if ms == [] then [] else Images(ms[..|ms| - 1]) + ms[|ms| - 1].images
  }

  predicate OnlyFirstHasImages(group: seq<ChatMessage>) {
    forall i :: 0 < i < |group| ==> group[i].images == []
  }

  lemma {:induction false} ImagesOfParts(a: seq<ChatMessage>, b: seq<ChatMessage>)
    ensures Images(a + b) == Images(a) + Images(b)
    decreases |b|
  {
    if b == [] {
      assert a + b == a;
    } else {
      assert (a + b)[|a + b| - 1] == b[|b| - 1];
      assert (a + b)[..|a + b| - 1] == a + b[..|b| - 1];
      ImagesOfParts(a, b[..|b| - 1]);
    }
  }

  lemma {:induction false} GroupImages(group: seq<ChatMessage>)
    requires group != []
    ensures group[0].images <= Images(group)
    ensures Images(group) == group[0].images <==> OnlyFirstHasImages(group)
  {
    if |group| > 1 {
      var front := group[..|group| - 1];
      GroupImages(front);
      assert group[|group| - 1].images != [] ==> |Images(group)| > |Images(front)|;
      assert OnlyFirstHasImages(group) <==> OnlyFirstHasImages(front) && group[|group| - 1].images == [];
    } else {
      assert Images(group) == Images(group[..0]) + group[0].images == group[0].images;
    }
  }

  /** Merging keeps all images exactly when in every run only the first message has any: the others' are dropped. */
  lemma {:induction false} MergingKeepsImages(groups: seq<seq<ChatMessage>>)
    requires forall g :: 0 <= g < |groups| ==> SameRole(groups[g])
    ensures |Images(JoinedAll(groups))| <= |Images(Flatten(groups))|
    ensures Images(JoinedAll(groups)) == Images(Flatten(groups)) <==>
              forall g :: 0 <= g < |groups| ==> OnlyFirstHasImages(groups[g])
  {
    if groups != [] {
      var n := |groups| - 1;
      var front, last := groups[..n], groups[n];
      MergingKeepsImages(front);
      assert SameRole(last);
      GroupImages(last);
      assert JoinedAll(groups)[..n] == JoinedAll(front);
      ImagesOfParts(Flatten(front), last);
      JoinImages(Images(JoinedAll(front)), Images(Flatten(front)), last[0].images, Images(last));
      assert (forall g :: 0 <= g < |groups| ==> OnlyFirstHasImages(groups[g])) <==>
             (forall g :: 0 <= g < |front| ==> OnlyFirstHasImages(front[g])) && OnlyFirstHasImages(last);
    }
  }

  lemma JoinImages(a: seq<string>, b: seq<string>, c: seq<string>, d: seq<string>)
    requires |a| <= |b| && |c| <= |d|
    ensures a + c == b + d <==> a == b && c == d
  {
    if a + c == b + d {
      assert a == (a + c)[..|a|] && b == (b + d)[..|b|];
      assert c == (a + c)[|a|..] && d == (b + d)[|b|..];
    }
  }

  // ---- Building the request ----

  function Placed(segments: seq<Segment>, placement: Placement): seq<ChatMessage> {
    if segments == [] then []
    else
      Placed(segments[..|segments| - 1], placement)
      + if segments[|segments| - 1].placement == placement then [Plain(System, segments[|segments| - 1].content)] else []
  }

  /** The user turn that an included history ends in. */
  function CurrentTurn(history: seq<ChatMessage>, enabled: bool): Option<ChatMessage> {
    if enabled && history != [] && history[|history| - 1].role.User? then Some(history[|history| - 1]) else None
  }

  /** Everything before the current turn, in order. */
  function Ordered(segments: seq<Segment>, history: seq<ChatMessage>, enabled: bool): seq<ChatMessage> {
    var historical :=
      if !enabled then []
      else if CurrentTurn(history, enabled).Some? then history[..|history| - 1]
      else history;
    Placed(segments, BeforeHistory) + historical + Placed(segments, AfterHistory)
  }

  function Request(segments: seq<Segment>, history: seq<ChatMessage>, enabled: bool): seq<ChatMessage> {
    Merged(Ordered(segments, history, enabled))
    + if CurrentTurn(history, enabled).Some? then [CurrentTurn(history, enabled).value] else []
  }

  method PushPlaced(out: seq<ChatMessage>, segments: seq<Segment>, placement: Placement)
    returns (more: seq<ChatMessage>)
    ensures more == out + Placed(segments, placement)
  {
    more := out;
    for k := 0 to |segments|
      invariant more == out + Placed(segments[..k], placement)
    {
      assert segments[..k + 1][..k] == segments[..k];
      if segments[k].placement == placement {
        more := more + [Plain(System, segments[k].content)];
      }
    }
    assert segments[..|segments|] == segments;
  }

  method BuildChatMessages(segments: seq<Segment>, history: seq<ChatMessage>, enabled: bool)
    returns (merged: seq<ChatMessage>)
    ensures merged == Request(segments, history, enabled)
  {
    hide Placed, Merged;
    var turn: Option<ChatMessage> := None;
    var historical := history;
    if enabled && |history| > 0 && history[|history| - 1].role.User? {
      turn := Some(history[|history| - 1]);
      historical := history[..|history| - 1];
    }
    var out := PushPlaced([], segments, BeforeHistory);
    if enabled {
      out := out + historical;
    }
    out := PushPlaced(out, segments, AfterHistory);
    assert out == Ordered(segments, history, enabled);
    merged := MergeAdjacent(out);
    if turn.Some? {
      merged := merged + [turn.value];
    }
  }

  // ---- Trimming ----

  function Tokens(ms: seq<ChatMessage>, count: string -> nat): nat {
    if ms == [] then 0 else Tokens(ms[..|ms| - 1], count) + count(ms[|ms| - 1].content)
  }

  lemma {:induction false} TokensOfParts(a: seq<ChatMessage>, b: seq<ChatMessage>, count: string -> nat)
    ensures Tokens(a + b, count) == Tokens(a, count) + Tokens(b, count)
    decreases |b|
  {
    if b == [] {
      assert a + b == a;
    } else {
      assert (a + b)[|a + b| - 1] == b[|b| - 1];
      assert (a + b)[..|a + b| - 1] == a + b[..|b| - 1];
      TokensOfParts(a, b[..|b| - 1], count);
    }
  }

  /** A leading system message is protected. */
  function Lead(ms: seq<ChatMessage>): (lead: nat)
    requires ms != []
    ensures lead <= 1
  {
    if ms[0].role.System? then 1 else 0
  }

  /** The messages without the oldest `dropped` of the unprotected ones. */
  function Without(ms: seq<ChatMessage>, dropped: nat): seq<ChatMessage>
    requires ms != [] && Lead(ms) + dropped <= |ms|
  {
    ms[..Lead(ms)] + ms[Lead(ms) + dropped..]
  }

  lemma WithoutTokens(ms: seq<ChatMessage>, dropped: nat, count: string -> nat)
    requires ms != [] && Lead(ms) + dropped < |ms|
    ensures Tokens(Without(ms, dropped), count) ==
            Tokens(Without(ms, dropped + 1), count) + count(ms[Lead(ms) + dropped].content)
  {
    var at := Lead(ms) + dropped;
    TokensOfParts(ms[..Lead(ms)], ms[at..], count);
    TokensOfParts(ms[..Lead(ms)], ms[at + 1..], count);
    assert ms[at..] == [ms[at]] + ms[at + 1..];
    TokensOfParts([ms[at]], ms[at + 1..], count);
    assert Tokens([ms[at]], count) == count(ms[at].content) by {
      assert [ms[at]][..0] == [];
    }
  }

  lemma WithoutNone(ms: seq<ChatMessage>)
    requires ms != []
    ensures Without(ms, 0) == ms
  {
  }

  lemma WithoutShape(ms: seq<ChatMessage>, dropped: nat)
    requires ms != [] && Lead(ms) + dropped < |ms|
    ensures var out := Without(ms, dropped);
            && out == ms[..Lead(ms)] + ms[Lead(ms) + dropped..]
            && |out| + dropped == |ms|
            && out[|out| - 1] == ms[|ms| - 1]
  {
  }

  /**
   * Nothing is dropped from a list that fits, or has at most two messages. Otherwise the oldest unprotected messages go,
   * and no more of them than it takes to fit, or all of them when even that does not fit. The last message always stays,
   * and the number reported is the number dropped.
   */
  method TrimHistory(ms: seq<ChatMessage>, window: nat, count: string -> nat)
    returns (out: seq<ChatMessage>, dropped: nat)
    ensures Tokens(ms, count) <= window || |ms| <= 2 ==> out == ms && dropped == 0
    ensures Tokens(ms, count) > window && |ms| > 2 ==>
              && Lead(ms) + dropped < |ms|
              && out == Without(ms, dropped)
              && out[|out| - 1] == ms[|ms| - 1]
              && (Tokens(out, count) <= window || Lead(ms) + dropped == |ms| - 1)
              && forall k :: 0 <= k < dropped ==> Tokens(Without(ms, k), count) > window
    ensures |out| + dropped == |ms|
  {
    hide Tokens, Without;
    var running := Sum(ms, count);
    if running <= window || |ms| <= 2 {
      return ms, 0;
    }
    var lead := if ms[0].role.System? then 1 else 0;
    var keep := new bool[|ms|](_ => true);
    var last := |ms| - 1;
    dropped := 0;
    WithoutNone(ms);
    var i := lead;
    while i < last
      invariant lead <= i <= last && dropped == i - lead
      invariant running == Tokens(Without(ms, dropped), count)
      invariant forall k :: 0 <= k < |ms| ==> keep[k] == !(lead <= k < i)
      invariant forall k :: 0 <= k < dropped ==> Tokens(Without(ms, k), count) > window
    {
      if running <= window {
        break;
      }
      WithoutTokens(ms, dropped, count);
      keep[i] := false;
      running := running - count(ms[i].content);
      dropped := dropped + 1;
      i := i + 1;
    }
    out := Kept(ms, keep, lead, i);
    WithoutShape(ms, dropped);
  }

  method Sum(ms: seq<ChatMessage>, count: string -> nat) returns (total: nat)
    ensures total == Tokens(ms, count)
  {
    total := 0;
    for k := 0 to |ms|
      invariant total == Tokens(ms[..k], count)
    {
      assert ms[..k + 1][..k] == ms[..k];
      total := total + count(ms[k].content);
    }
    assert ms[..|ms|] == ms;
  }

  /** The messages that are still marked. */
  method Kept(ms: seq<ChatMessage>, keep: array<bool>, ghost from: nat, ghost to: nat)
    returns (out: seq<ChatMessage>)
    requires keep.Length == |ms| && from <= to <= |ms|
    requires forall k :: 0 <= k < |ms| ==> keep[k] == !(from <= k < to)
    ensures out == ms[..from] + ms[to..]
  {
    out := [];
    for k := 0 to |ms|
      invariant out == if k <= from then ms[..k] else if k <= to then ms[..from] else ms[..from] + ms[to..k]
    {
      if keep[k] {
        out := out + [ms[k]];
      }
    }
  }

  // ---- Both together ----

  /**
   * With an included history that ends in a user turn, the request ends with exactly that turn; before it stand the
   * longest same-role runs of the ordered input, with all of its text; and trimming keeps the turn where it is.
   */
  lemma RequestMeaning(segments: seq<Segment>, history: seq<ChatMessage>, enabled: bool)
    ensures var out := Request(segments, history, enabled);
            var input := Ordered(segments, history, enabled);
            var turn := CurrentTurn(history, enabled);
            && (turn.Some? ==> out != [] && out[|out| - 1] == history[|history| - 1])
            && exists groups ::
                 && Maximal(input, groups)
                 && out == JoinedAll(groups) + (if turn.Some? then [turn.value] else [])
                 && Lines(JoinedAll(groups)) == Lines(input)
  {
    var input := Ordered(segments, history, enabled);
    GroupsAreMaximal(input);
    MergingKeepsText(Groups(input));
    assert Maximal(input, Groups(input));
  }

  /**
   * The request that is sent: all of it when it fits or has at most two messages, and otherwise the request without its
   * oldest unprotected messages, as few as it takes to fit, or all of them when even that does not fit. A user turn that
   * ends an included history ends the request in every case.
   */
  method AssembleAndTrim(
    segments: seq<Segment>, history: seq<ChatMessage>, enabled: bool, window: nat, count: string -> nat)
    returns (out: seq<ChatMessage>, dropped: nat)
    ensures var request := Request(segments, history, enabled);
            && (CurrentTurn(history, enabled).Some? ==> out != [] && out[|out| - 1] == history[|history| - 1])
            && (Tokens(request, count) <= window || |request| <= 2 ==> out == request && dropped == 0)
            && (Tokens(request, count) > window && |request| > 2 ==>
                  && Lead(request) + dropped < |request|
                  && out == Without(request, dropped)
                  && (Tokens(out, count) <= window || Lead(request) + dropped == |request| - 1)
                  && forall k :: 0 <= k < dropped ==> Tokens(Without(request, k), count) > window)
  {
    hide Groups, Merged, Placed, Ordered, Lines, Maximal, JoinedAll, Tokens, Without;
    var request := BuildChatMessages(segments, history, enabled);
    RequestMeaning(segments, history, enabled);
    out, dropped := TrimHistory(request, window, count);
  }
}
