/** The run context: what a round leaves in it, the workspace overlay, and how calls and results pair up. */
module Transcript {
  import opened Text
  import opened Json
  import opened Protocol
  import opened Workspaces
  import opened XmlTools

  // ---- Pairing ----

  /** The call ids still waiting for a result after `ms`, when `awaited` were waiting before it. */
  function Expect(awaited: seq<string>, ms: seq<ChatMessage>): Option<seq<string>>
    decreases |ms|
  {
    if ms == [] then Some(awaited)
    else
      match ExpectOne(awaited, ms[0])
      case None => None
      case Some(next) => Expect(next, ms[1..])
  }

  function ExpectOne(awaited: seq<string>, m: ChatMessage): Option<seq<string>> {
    match m.toolResult
    case Some(result) =>
      if awaited != [] && awaited[0] == result.callId && m.toolCalls == [] then Some(awaited[1..]) else None
    case None =>
      if awaited != [] then None
      else if m.toolCalls != [] && !m.role.Assistant? then None
      else Some(CallIds(m.toolCalls))
  }

  function CallIds(calls: seq<ToolCall>): (ids: seq<string>)
    ensures |ids| == |calls| && forall i :: 0 <= i < |calls| ==> ids[i] == calls[i].id
  {
    seq(|calls|, i requires 0 <= i < |calls| => calls[i].id)
  }

  predicate Paired(ms: seq<ChatMessage>) {
    Expect([], ms) == Some([])
  }

  /** Positions `from ..` hold results with these ids, in this order. */
  predicate AnsweredFrom(ms: seq<ChatMessage>, from: nat, ids: seq<string>) {
    && from + |ids| <= |ms|
    && forall p :: from <= p < from + |ids| ==>
         ms[p].toolResult.Some? && ms[p].toolResult.value.callId == ids[p - from]
  }

  /** The statement a provider needs: calls are answered right behind them, one for one, and no result stands elsewhere. */
  ghost predicate PairsUp(ms: seq<ChatMessage>) {
    && (forall i :: 0 <= i < |ms| ==> AnsweredFrom(ms, i + 1, CallIds(ms[i].toolCalls)))
    && (forall j :: 0 <= j < |ms| && ms[j].toolResult.Some? ==> exists i :: 0 <= i < j && j <= i + |ms[i].toolCalls|)
    && (forall i :: 0 <= i < |ms| && ms[i].toolCalls != [] ==> ms[i].role.Assistant?)
  }

  lemma NothingAwaited()
    ensures AnsweredFrom([], 0, [])
  {
  }

  lemma NoneAnswered(ms: seq<ChatMessage>)
    ensures forall from: nat :: from <= |ms| ==> AnsweredFrom(ms, from, [])
  {
  }

  lemma AnsweredShift(ms: seq<ChatMessage>, from: nat, ids: seq<string>)
    requires ms != [] && AnsweredFrom(ms[1..], from, ids)
    ensures AnsweredFrom(ms, from + 1, ids)
  {
    assert forall p :: from < p < |ms| ==> ms[p] == ms[1..][p - 1];
  }

  lemma AnsweredCons(ms: seq<ChatMessage>, ids: seq<string>)
    requires ms != [] && ids != [] && AnsweredFrom(ms[1..], 0, ids[1..])
    requires ms[0].toolResult.Some? && ms[0].toolResult.value.callId == ids[0]
    ensures AnsweredFrom(ms, 0, ids)
  {
    assert forall p :: 0 < p < |ms| ==> ms[p] == ms[1..][p - 1];
    assert forall p :: 0 < p < |ids| ==> ids[p] == ids[1..][p - 1];
  }

  lemma {:induction false} ExpectMeaning(awaited: seq<string>, ms: seq<ChatMessage>)
    requires Expect(awaited, ms) == Some([])
    ensures AnsweredFrom(ms, 0, awaited)
    ensures forall i :: 0 <= i < |ms| ==> AnsweredFrom(ms, i + 1, CallIds(ms[i].toolCalls))
    ensures forall j :: 0 <= j < |ms| && ms[j].toolResult.Some? ==>
              j < |awaited| || exists i :: 0 <= i < j && j <= i + |ms[i].toolCalls|
    ensures forall i :: 0 <= i < |ms| && ms[i].toolCalls != [] ==> ms[i].role.Assistant?
    decreases |ms|
  {
    hide AnsweredFrom;
    if ms == [] {
      assert AnsweredFrom(ms, 0, []) by { NothingAwaited(); }
    } else {
      var next := ExpectOne(awaited, ms[0]).value;
      var tail := ms[1..];
      ExpectMeaning(next, tail);
      assert forall i :: 0 <= i < |tail| ==> tail[i] == ms[i + 1];
      forall i | 0 <= i < |ms|
        ensures AnsweredFrom(ms, i + 1, CallIds(ms[i].toolCalls))
      {
        NoneAnswered(ms);
        if i > 0 {
          AnsweredShift(ms, i, CallIds(tail[i - 1].toolCalls));
        } else if ms[0].toolResult.None? {
          AnsweredShift(ms, 0, next);
        }
      }
      if awaited != [] {
        AnsweredCons(ms, awaited);
      } else {
        NoneAnswered(ms);
      }
      forall j | 0 <= j < |ms| && ms[j].toolResult.Some? && j >= |awaited|
        ensures exists i :: 0 <= i < j && j <= i + |ms[i].toolCalls|
      {
        assert tail[j - 1].toolResult.Some?;
        if j - 1 < |next| {
          assert j <= 0 + |ms[0].toolCalls|;
        } else {
          var i :| 0 <= i < j - 1 && j - 1 <= i + |tail[i].toolCalls|;
          assert j <= (i + 1) + |ms[i + 1].toolCalls|;
        }
      }
    }
  }

  lemma PairedMeaning(ms: seq<ChatMessage>)
    requires Paired(ms)
    ensures PairsUp(ms)
  {
    hide Expect, AnsweredFrom;
    ExpectMeaning([], ms);
  }

  lemma {:induction false} ExpectSplit(awaited: seq<string>, a: seq<ChatMessage>, b: seq<ChatMessage>)
    ensures Expect(awaited, a + b) ==
            match Expect(awaited, a) case None => None case Some(next) => Expect(next, b)
    decreases |a|
  {
    hide ExpectOne;
    if a == [] {
      assert a + b == b;
    } else {
      assert (a + b)[0] == a[0] && (a + b)[1..] == a[1..] + b;
      var next := ExpectOne(awaited, a[0]);
      if next.Some? {
        ExpectSplit(next.value, a[1..], b);
      }
    }
  }

  /** No calls and no results. */
  predicate TextOnly(ms: seq<ChatMessage>) {
    forall i :: 0 <= i < |ms| ==> ms[i].toolCalls == [] && ms[i].toolResult.None?
  }

  lemma {:induction false} TextOnlyPaired(ms: seq<ChatMessage>)
    requires TextOnly(ms)
    ensures Paired(ms)
  {
    if ms != [] {
      assert CallIds(ms[0].toolCalls) == [];
      TextOnlyPaired(ms[1..]);
    }
  }

  lemma PairedConcat(a: seq<ChatMessage>, b: seq<ChatMessage>)
    requires Paired(a) && Paired(b)
    ensures Paired(a + b)
  {
    ExpectSplit([], a, b);
  }

  // ---- What a round leaves behind ----

  /** An accepted response edit is compacted into a receipt. */
  predicate Compacted(call: ToolCall, result: ToolResult) {
    IsResponseControl(call.name) && result.status.Ok?
  }

  datatype Turn = Turn(call: ToolCall, result: ToolResult)

  /** The turns that are compacted, or those that are kept, in order. */
  function Select(turns: seq<Turn>, compacted: bool): seq<Turn> {
    if turns == [] then []
    else
      (if Compacted(turns[0].call, turns[0].result) == compacted then [turns[0]] else [])
      + Select(turns[1..], compacted)
  }

  function CallsOf(turns: seq<Turn>): (calls: seq<ToolCall>)
    ensures |calls| == |turns| && forall i :: 0 <= i < |turns| ==> calls[i] == turns[i].call
  {
    seq(|turns|, i requires 0 <= i < |turns| => turns[i].call)
  }

  function ResultsOf(turns: seq<Turn>): (results: seq<ToolResult>)
    ensures |results| == |turns| && forall i :: 0 <= i < |turns| ==> results[i] == turns[i].result
  {
    seq(|turns|, i requires 0 <= i < |turns| => turns[i].result)
  }

  function ReceiptsOf(turns: seq<Turn>): (receipts: seq<string>)
    ensures |receipts| == |turns|
    ensures forall i :: 0 <= i < |turns| ==> receipts[i] == RenderReceipt(turns[i].call, turns[i].result)
  {
    seq(|turns|, i requires 0 <= i < |turns| => RenderReceipt(turns[i].call, turns[i].result))
  }

  function KeptCalls(turns: seq<Turn>): seq<ToolCall> {
    CallsOf(Select(turns, false))
  }

  function KeptResults(turns: seq<Turn>): seq<ToolResult> {
    ResultsOf(Select(turns, false))
  }

  function Receipts(turns: seq<Turn>): seq<string> {
    ReceiptsOf(Select(turns, true))
  }

  function NumberAt(output: Json, key: string): nat {
    var n := AsU64(Get(output, key));
    if n.Some? then n.value else 0
  }

  function RenderReceipt(call: ToolCall, result: ToolResult): string {
    var revision := NatText(NumberAt(result.output, "revision"));
    if call.name == REPLACE then "response replaced -> revision " + revision
    else "response patched (" + NatText(NumberAt(result.output, "operations")) + " operations) -> revision " + revision
  }

  function StatusText(status: Status): string {
    match status
    case Ok => "ok"
    case Rejected => "rejected"
    case Failed => "failed"
  }

  function RenderResult(result: ToolResult): string {
    var payload := Obj([
      Field("error_code", if result.errorCode.Some? then Str(result.errorCode.value) else Null),
      Field("output", result.output),
      Field("status", Str(StatusText(result.status)))]);
    "<tool_result id=" + Quoted(result.callId, true) + " name=" + Quoted(result.name, true) + ">\n"
    + SafeJson(payload) + "\n</tool_result>"
  }

  function ResultMessage(result: ToolResult, transport: Transport): ChatMessage {
    if transport.Native? then Plain(User, "").(toolResult := Some(result)) else Plain(User, RenderResult(result))
  }

  function ResultMessages(results: seq<ToolResult>, transport: Transport): seq<ChatMessage> {
    if results == [] then [] else [ResultMessage(results[0], transport)] + ResultMessages(results[1..], transport)
  }

  function Controls(texts: seq<string>): seq<ChatMessage> {
    if texts == [] then [] else [Control(texts[0])] + Controls(texts[1..])
  }

  function AssistantMessage(working: string, calls: seq<ToolCall>, transport: Transport): seq<ChatMessage> {
    if working == "" && calls == [] then []
    else if transport.Xml? then [Plain(Assistant, working + RenderCalls(calls))]
    else [Plain(Assistant, working).(toolCalls := calls)]
  }

  /** The messages one unfinished round appends to the run context. */
  function RoundBlock(working: string, turns: seq<Turn>, transport: Transport, unfinished: string): seq<ChatMessage> {
    AssistantMessage(working, KeptCalls(turns), transport)
    + ResultMessages(KeptResults(turns), transport)
    + Controls(Receipts(turns))
    + [Control(unfinished)]
  }

  lemma {:induction false} SelectSplit(a: seq<Turn>, b: seq<Turn>, compacted: bool)
    ensures Select(a + b, compacted) == Select(a, compacted) + Select(b, compacted)
  {
    hide Compacted;
    if a == [] {
      assert a + b == b;
    } else {
      assert (a + b)[0] == a[0] && (a + b)[1..] == a[1..] + b;
      SelectSplit(a[1..], b, compacted);
    }
  }

  lemma SelectOne(t: Turn, compacted: bool)
    ensures Select([t], compacted) == if Compacted(t.call, t.result) == compacted then [t] else []
  {
    hide Compacted;
    assert [t][1..] == [];
  }

  lemma {:induction false} SelectCounts(turns: seq<Turn>)
    ensures |Select(turns, false)| + |Select(turns, true)| == |turns|
  {
    hide Compacted;
    if turns != [] {
      SelectCounts(turns[1..]);
    }
  }

  lemma KeptSnoc(turns: seq<Turn>, t: Turn)
    ensures var c := Compacted(t.call, t.result);
            && KeptCalls(turns + [t]) == KeptCalls(turns) + (if c then [] else [t.call])
            && KeptResults(turns + [t]) == KeptResults(turns) + (if c then [] else [t.result])
            && Receipts(turns + [t]) == Receipts(turns) + (if c then [RenderReceipt(t.call, t.result)] else [])
  {
    hide RenderReceipt, Compacted, Select;
    SelectSplit(turns, [t], false);
    SelectSplit(turns, [t], true);
    SelectOne(t, false);
    SelectOne(t, true);
  }

  lemma {:induction false} RenderCallsSnoc(calls: seq<ToolCall>, call: ToolCall)
    ensures RenderCalls(calls + [call]) == RenderCalls(calls) + "\n" + RenderCall(call)
  {
    hide RenderCall;
    if calls == [] {
      assert (calls + [call])[1..] == [];
    } else {
      assert (calls + [call])[1..] == calls[1..] + [call];
      RenderCallsSnoc(calls[1..], call);
    }
  }

  lemma {:induction false} ResultMessagesSnoc(results: seq<ToolResult>, r: ToolResult, transport: Transport)
    ensures ResultMessages(results + [r], transport) == ResultMessages(results, transport) + [ResultMessage(r, transport)]
  {
    hide ResultMessage;
    if results == [] {
      assert (results + [r])[1..] == [];
    } else {
      assert (results + [r])[1..] == results[1..] + [r];
      ResultMessagesSnoc(results[1..], r, transport);
    }
  }

  lemma {:induction false} ControlsSnoc(texts: seq<string>, t: string)
    ensures Controls(texts + [t]) == Controls(texts) + [Control(t)]
  {
    if texts == [] {
      assert (texts + [t])[1..] == [];
    } else {
      assert (texts + [t])[1..] == texts[1..] + [t];
      ControlsSnoc(texts[1..], t);
    }
  }

  /** Calls zipped with their results; calls behind a finish call have none. */
  function Zip(calls: seq<ToolCall>, results: seq<ToolResult>): (turns: seq<Turn>)
    requires |results| <= |calls|
    ensures |turns| == |results|
    ensures forall i :: 0 <= i < |turns| ==> turns[i] == Turn(calls[i], results[i])
  {
    seq(|results|, i requires 0 <= i < |results| => Turn(calls[i], results[i]))
  }

  lemma NothingYet(transport: Transport)
    ensures KeptCalls([]) == [] && KeptResults([]) == [] && Receipts([]) == []
    ensures RenderCalls([]) == "" && ResultMessages([], transport) == [] && Controls([]) == []
  {
  }

  /** The first loop: what is retained and what is compacted. */
  method Retain(calls: seq<ToolCall>, results: seq<ToolResult>)
    returns (retainedCalls: seq<ToolCall>, retainedResults: seq<ToolResult>, receipts: seq<string>)
    requires |results| <= |calls|
    ensures var turns := Zip(calls, results);
            retainedCalls == KeptCalls(turns) && retainedResults == KeptResults(turns) && receipts == Receipts(turns)
  {
    hide Compacted, RenderReceipt, KeptCalls, KeptResults, Receipts;
    NothingYet(Native);
    retainedCalls, retainedResults, receipts := [], [], [];
    ghost var turns := Zip(calls, results);
    assert turns[..0] == [];
    for i := 0 to |results|
      invariant retainedCalls == KeptCalls(turns[..i])
      invariant retainedResults == KeptResults(turns[..i])
      invariant receipts == Receipts(turns[..i])
    {
      assert turns[..i + 1] == turns[..i] + [turns[i]];
      KeptSnoc(turns[..i], turns[i]);
      if Compacted(calls[i], results[i]) {
        receipts := receipts + [RenderReceipt(calls[i], results[i])];
      } else {
        retainedCalls := retainedCalls + [calls[i]];
        retainedResults := retainedResults + [results[i]];
      }
    }
    assert turns[..|results|] == turns;
  }

  /** The text an XML model sees: its working text, then each retained call as its own block. */
  method RenderContent(working: string, calls: seq<ToolCall>) returns (content: string)
    ensures content == working + RenderCalls(calls)
  {
    hide RenderCall, RenderCalls;
    NothingYet(Xml);
    content := working;
    assert calls[..0] == [];
    for i := 0 to |calls|
      invariant content == working + RenderCalls(calls[..i])
    {
      assert calls[..i + 1] == calls[..i] + [calls[i]];
      RenderCallsSnoc(calls[..i], calls[i]);
      content := content + "\n";
      content := content + RenderCall(calls[i]);
    }
    assert calls[..|calls|] == calls;
  }

  /** `append_round`. */
  method AppendRound(
    messages: seq<ChatMessage>, working: string, calls: seq<ToolCall>, results: seq<ToolResult>,
    transport: Transport, unfinished: string) returns (out: seq<ChatMessage>)
    requires |results| <= |calls|
    ensures out == messages + RoundBlock(working, Zip(calls, results), transport, unfinished)
  {
    hide KeptCalls, KeptResults, Receipts, ResultMessage, RenderCalls, ResultMessages, Controls, Plain, Control, Zip;
    hide RoundBlock;
    NothingYet(transport);
    var retainedCalls, retainedResults, receipts := Retain(calls, results);
    out := messages;
    if working != "" || retainedCalls != [] {
      if transport.Xml? {
        var content := RenderContent(working, retainedCalls);
        out := out + [Plain(Assistant, content)];
      } else {
        out := out + [Plain(Assistant, working).(toolCalls := retainedCalls)];
      }
    }
    ghost var head := messages + AssistantMessage(working, retainedCalls, transport);
    assert out == head && retainedResults[..0] == [];
    for i := 0 to |retainedResults|
      invariant out == head + ResultMessages(retainedResults[..i], transport)
    {
      assert retainedResults[..i + 1] == retainedResults[..i] + [retainedResults[i]];
      ResultMessagesSnoc(retainedResults[..i], retainedResults[i], transport);
      out := out + [ResultMessage(retainedResults[i], transport)];
    }
    assert retainedResults[..|retainedResults|] == retainedResults;
    head := out;
    assert receipts[..0] == [];
    for i := 0 to |receipts|
      invariant out == head + Controls(receipts[..i])
    {
      assert receipts[..i + 1] == receipts[..i] + [receipts[i]];
      ControlsSnoc(receipts[..i], receipts[i]);
      out := out + [Control(receipts[i])];
    }
    assert receipts[..|receipts|] == receipts;
    out := out + [Control(unfinished)];
    RoundBlockParts(messages, working, Zip(calls, results), transport, unfinished);
  }

  lemma RoundBlockParts(messages: seq<ChatMessage>, working: string, turns: seq<Turn>, transport: Transport, unfinished: string)
    ensures messages + RoundBlock(working, turns, transport, unfinished) ==
            messages + AssistantMessage(working, KeptCalls(turns), transport)
            + ResultMessages(KeptResults(turns), transport) + Controls(Receipts(turns)) + [Control(unfinished)]
  {
    hide AssistantMessage, ResultMessages, Controls, Control, KeptCalls, KeptResults, Receipts;
  }

  /** Every executed call survives once: at its own place among the retained pairs, or as a receipt. */
  lemma TurnSurvives(turns: seq<Turn>, k: nat)
    requires k < |turns|
    ensures |KeptCalls(turns)| == |KeptResults(turns)| && |KeptCalls(turns)| + |Receipts(turns)| == |turns|
    ensures var t, kept, noted := turns[k], |KeptCalls(turns[..k])|, |Receipts(turns[..k])|;
            && kept + noted == k
            && (if Compacted(t.call, t.result) then
                  noted < |Receipts(turns)| && Receipts(turns)[noted] == RenderReceipt(t.call, t.result)
                else
                  kept < |KeptCalls(turns)| && KeptCalls(turns)[kept] == t.call && KeptResults(turns)[kept] == t.result)
  {
    hide RenderReceipt, Compacted, Select;
    SelectCounts(turns);
    SelectCounts(turns[..k]);
    PlaceOf(turns, k, Compacted(turns[k].call, turns[k].result));
  }

  lemma PlaceOf(turns: seq<Turn>, k: nat, compacted: bool)
    requires k < |turns| && Compacted(turns[k].call, turns[k].result) == compacted
    ensures var place := |Select(turns[..k], compacted)|;
            place < |Select(turns, compacted)| && Select(turns, compacted)[place] == turns[k]
  {
    hide Compacted, Select;
    var before, after := turns[..k], turns[k + 1..];
    assert turns == before + ([turns[k]] + after);
    SelectSplit(before, [turns[k]] + after, compacted);
    SelectSplit([turns[k]], after, compacted);
    SelectOne(turns[k], compacted);
  }

  // ---- A round block pairs up ----

  predicate ResultsAnswer(turns: seq<Turn>) {
    forall i :: 0 <= i < |turns| ==> turns[i].result.callId == turns[i].call.id
  }

  lemma {:induction false} SelectAnswers(turns: seq<Turn>, compacted: bool)
    requires ResultsAnswer(turns)
    ensures ResultsAnswer(Select(turns, compacted))
  {
    hide Compacted;
    if turns != [] {
      SelectAnswers(turns[1..], compacted);
    }
  }

  lemma {:induction false} ResultsPair(calls: seq<ToolCall>, results: seq<ToolResult>)
    requires |calls| == |results| && forall i :: 0 <= i < |calls| ==> results[i].callId == calls[i].id
    ensures Expect(CallIds(calls), ResultMessages(results, Native)) == Some([])
  {
    if calls != [] {
      ResultsPair(calls[1..], results[1..]);
      assert CallIds(calls)[1..] == CallIds(calls[1..]);
    } else {
      assert CallIds(calls) == [];
    }
  }

  lemma {:induction false} ControlsTextOnly(texts: seq<string>)
    ensures TextOnly(Controls(texts))
  {
    if texts != [] {
      ControlsTextOnly(texts[1..]);
    }
  }

  lemma {:induction false} XmlResultsTextOnly(results: seq<ToolResult>)
    ensures TextOnly(ResultMessages(results, Xml))
  {
    hide RenderResult;
    if results != [] {
      XmlResultsTextOnly(results[1..]);
    }
  }

  lemma RoundBlockPaired(working: string, turns: seq<Turn>, transport: Transport, unfinished: string)
    requires ResultsAnswer(turns)
    ensures Paired(RoundBlock(working, turns, transport, unfinished))
    ensures var b := RoundBlock(working, turns, transport, unfinished);
            b != [] && b[|b| - 1] == Control(unfinished) && Paired(b[..|b| - 1])
  {
    hide Select, Receipts, Controls, ResultMessages, Expect, RenderCalls, ResultsAnswer;
    var calls, results := KeptCalls(turns), KeptResults(turns);
    var head, middle := AssistantMessage(working, calls, transport), ResultMessages(results, transport);
    var tail := Controls(Receipts(turns));
    SelectAnswers(turns, false);
    KeptAnswer(Select(turns, false));
    ControlsTextOnly(Receipts(turns));
    TextOnlyPaired(tail);
    if transport.Native? {
      ResultsPair(calls, results);
      HeadExpects(working, calls);
      ExpectSplit([], head, middle);
    } else {
      XmlResultsTextOnly(results);
      assert TextOnly(head + middle);
      TextOnlyPaired(head + middle);
    }
    PairedConcat(head + middle, tail);
    var last := [Control(unfinished)];
    assert TextOnly(last);
    TextOnlyPaired(last);
    PairedConcat(head + middle + tail, last);
    var b := RoundBlock(working, turns, transport, unfinished);
    assert b[..|b| - 1] == head + middle + tail;
  }

  lemma KeptAnswer(turns: seq<Turn>)
    requires ResultsAnswer(turns)
    ensures forall i :: 0 <= i < |turns| ==> ResultsOf(turns)[i].callId == CallsOf(turns)[i].id
  {
  }

  lemma HeadExpects(working: string, calls: seq<ToolCall>)
    ensures Expect([], AssistantMessage(working, calls, Native)) == Some(CallIds(calls))
  {
    var head := AssistantMessage(working, calls, Native);
    if head == [] {
      assert CallIds(calls) == [];
    } else {
      assert head[1..] == [];
    }
  }

  // ---- The workspace overlay ----

  function RenderSnapshot(ws: Workspace): string {
    "SHIRITA_RESPONSE_WORKSPACE\n"
    + SafeJson(Obj([
        Field("revision", FromNat(ws.revision)),
        Field("state", Str(if ws.text == "" then "empty" else "present")),
        Field("text", Str(ws.text))]))
    + "\nEND_SHIRITA_RESPONSE_WORKSPACE"
  }

  /** `rposition` of the last user message; the end when there is none. */
  function LastUser(ms: seq<ChatMessage>): (n: nat)
    ensures n <= |ms| && (n < |ms| ==> ms[n].role.User?)
  {
    if ms == [] then 0
    else if ms[|ms| - 1].role.User? then |ms| - 1
    else
      var n := LastUser(ms[..|ms| - 1]);
      if n == |ms| - 1 then |ms| else n
  }

  function InsertAt(ms: seq<ChatMessage>, at: nat, m: ChatMessage): seq<ChatMessage>
    requires at <= |ms|
  {
    ms[..at] + [m] + ms[at..]
  }

  function SnapshotPlace(ms: seq<ChatMessage>, firstRound: bool): (at: nat)
    ensures at <= |ms|
  {
    if firstRound then LastUser(ms) else if ms == [] then 0 else |ms| - 1
  }

  function InjectSnapshot(ms: seq<ChatMessage>, ws: Workspace, firstRound: bool): seq<ChatMessage> {
    InsertAt(ms, SnapshotPlace(ms, firstRound), Control(RenderSnapshot(ws)))
  }

  /** A text message put where nothing is awaited splits no pair. */
  lemma InsertKeepsPairs(a: seq<ChatMessage>, m: ChatMessage, b: seq<ChatMessage>)
    requires Paired(a) && Paired(b) && TextOnly([m])
    ensures Paired(a + [m] + b)
  {
    TextOnlyPaired([m]);
    PairedConcat(a, [m]);
    PairedConcat(a + [m], b);
  }

  lemma TextOnlyInsert(ms: seq<ChatMessage>, at: nat, m: ChatMessage)
    requires at <= |ms| && TextOnly(ms) && TextOnly([m])
    ensures TextOnly(InsertAt(ms, at, m))
  {
  }
}
