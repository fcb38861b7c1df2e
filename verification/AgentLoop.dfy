/** A whole agent run: bounded rounds of streaming, Tool execution, workspace edits and transcript growth. */
module AgentLoop {
  import opened Text
  import opened Json
  import opened Protocol
  import opened Workspaces
  import opened Tools
  import opened XmlTools
  import opened Events
  import opened Transcript
  import opened Budgets

  datatype TransportSetting = Auto | NativeOnly | XmlOnly

  datatype Settings = Settings(
    transport: TransportSetting,
    enabledTools: set<string>,
    maxRounds: u32,
    maxToolCalls: u32,
    maxIdenticalCallRounds: u32,
    showUserStatus: bool,
    harnessPrompt: string,
    protocolPrompt: string,
    unfinishedPrompt: string)

  // ---- What the provider, the Tools and the stop token do; any script is possible ----

  datatype ModelEvent =
    | Delta(reasoning: bool, text: string)    // text and reasoning are both working output
    | CallEvent(call: ToolCall)
    | UsageEvent(inputTokens: nat, outputTokens: nat)
    | DoneEvent

  datatype StreamItem = Item(event: ModelEvent) | StreamError(message: string) | StopSignal

  datatype ToolAnswer = Answered(outcome: Outcome) | TimedOut | StopDuring

  datatype ToolTurn = ToolTurn(stopBefore: bool, answer: ToolAnswer)

  datatype RoundScript =
    RoundScript(stopBefore: bool, openError: Option<string>, items: seq<StreamItem>, tools: seq<ToolTurn>)

  const CALL_LIMIT := "configured Tool call limit reached"
  const REPEAT_LIMIT := "configured repeated-call limit reached"
  const NATIVE_DISABLED := "native Tool calling is disabled for this provider"
  const BAD_IDS := "invalid or duplicate Tool call id"
  const ROUND_TOO_LARGE := "xml_round_too_large"
  const UNTERMINATED := "unterminated_tool_call"
  const ROUND_LIMIT := "configured Agent round limit reached before finish"

  /** What one unfinished round left behind. */
  datatype RoundLog = RoundLog(working: string, turns: seq<Turn>)

  /** How the execution of one call ended. */
  datatype Step =
    | Halted
    | Next(result: ToolResult)                // go on with the next call
    | Break(result: ToolResult)               // a finish call that failed: the fence holds
    | Pending(response: Option<string>)       // a finish call to be committed after the loop

  predicate Answers(result: ToolResult, call: ToolCall) {
    result.callId == call.id && result.name == call.name
  }

  // ---- What a round amounts to, as functions of the script ----

  datatype Gathered = Gathered(working: string, calls: seq<ToolCall>)

  /** The working text and the native calls of a stream that ends normally. */
  function Gather(items: seq<StreamItem>): Gathered {
    if items == [] then Gathered("", [])
    else
      var g := Gather(items[..|items| - 1]);
      match items[|items| - 1]
      case Item(Delta(_, text)) => g.(working := g.working + text)
      case Item(CallEvent(call)) => g.(calls := g.calls + [call])
      case _ => g
  }

  /** What the round works on: in XML transport the calls are read from the text, and an open block is plain text. */
  function Interpret(g: Gathered, transport: Transport): Result<Gathered, string> {
    if transport.Native? then Result.Ok(g)
    else
      match ParseRound(g.working)
      case Ok(r) => Result.Ok(Gathered(r.workingText, r.calls))
      case Err(message) => if message == UNTERMINATED then Result.Ok(Gathered(g.working, [])) else Err(message)
  }

  predicate ValidIds(calls: seq<ToolCall>) {
    DistinctIds(calls) && forall i :: 0 <= i < |calls| ==> !Blank(calls[i].id)
  }

  /** How a round, or a part of it, ends the run, if it does. */
  datatype Verdict = Goes | Stops | Fails(message: string) | Completes(text: string)

  /** The first thing in the stream that ends the run. In XML transport the text may not grow past its ceiling. */
  function StreamVerdict(items: seq<StreamItem>, transport: Transport): Verdict {
    if items == [] then Goes
    else
      var before := StreamVerdict(items[..|items| - 1], transport);
      if !before.Goes? then before
      else
        match items[|items| - 1]
        case StopSignal => Stops
        case StreamError(message) => Fails(message)
        case Item(Delta(_, text)) =>
          if transport.Xml?
             && ByteLen(Gather(items[..|items| - 1]).working) + ByteLen(text) > MAX_XML_ROUND_BYTES
          then Fails(ROUND_TOO_LARGE) else Goes
        case _ => Goes
  }

  function TurnAt(script: seq<RoundScript>, k: nat): RoundScript {
    if k < |script| then script[k] else RoundScript(false, None, [], [])
  }

  function ToolAt(tools: seq<ToolTurn>, k: nat): ToolTurn {
    if k < |tools| then tools[k] else ToolTurn(false, TimedOut)
  }

  /** What running a call yields, before its control is applied. */
  function ExecutionOf(registry: Registry, enabled: set<string>, call: ToolCall, answer: ToolAnswer): Execution {
    match answer
    case Answered(outcome) => Execute(registry, call, enabled, outcome)
    case _ => Execution(ToolResult(call.id, call.name, Protocol.Failed, Obj([]), Some("timeout")), NoControl)
  }

  datatype Settled = Settled(workspace: Workspace, result: ToolResult)

  /** Applying the control of a call that is not a finish call. */
  function Settle(ws: Workspace, call: ToolCall, e: Execution): Settled {
    match e.control
    case ReplaceResponse(text) =>
      var next := Workspace(text, NextRevision(ws.revision));
      Settled(next, EditResult(call, [Field("revision", FromNat(next.revision))]))
    case PatchResponse(revision, ops) =>
      if revision != ws.revision then Settled(ws, RejectedResult(call, "stale_revision"))
      else
        (match FoldOps(ws.text, ops)
         case Err(code) => Settled(ws, RejectedResult(call, code))
         case Ok(text) =>
           var next := Workspace(text, NextRevision(ws.revision));
           Settled(next, EditResult(call, [Field("operations", FromNat(|ops|)), Field("revision", FromNat(next.revision))])))
    case _ => Settled(ws, e.result)
  }

  function EditResult(call: ToolCall, fields: seq<Field>): ToolResult {
    ToolResult(call.id, call.name, Protocol.Ok, Obj(fields), None)
  }

  datatype Stepped = Stepped(workspace: Workspace, step: Step)

  /** What one call comes to. A finish call behind a failed one is answered without being run. */
  function CallStep(
    registry: Registry, enabled: set<string>, ws: Workspace, call: ToolCall, turn: ToolTurn, precedingFailed: bool): Stepped
  {
    if turn.stopBefore then Stepped(ws, Halted)
    else if call.name == FINISH && precedingFailed then Stepped(ws, Break(RejectedResult(call, "finish_skipped")))
    else if turn.answer.StopDuring? then Stepped(ws, Halted)
    else
      var e := ExecutionOf(registry, enabled, call, turn.answer);
      if call.name == FINISH then
        Stepped(ws, if e.control.Finish? then Pending(e.control.response) else Break(e.result))
      else
        var s := Settle(ws, call, e);
        Stepped(s.workspace, Next(s.result))
  }

  /** What the ordered call list comes to: the workspace, the results, a finish call left to commit, or a stop. */
  datatype Ran = Ran(workspace: Workspace, results: seq<ToolResult>, pending: Option<Option<string>>, halted: bool)

  function RunCalls(
    registry: Registry, enabled: set<string>, ws: Workspace, calls: seq<ToolCall>, tools: seq<ToolTurn>, at: nat,
    precedingFailed: bool): (r: Ran)
    ensures |r.results| + (if r.pending.Some? then 1 else 0) <= |calls|
    decreases |calls|
  {
    if calls == [] then Ran(ws, [], None, false)
    else
      var s := CallStep(registry, enabled, ws, calls[0], ToolAt(tools, at), precedingFailed);
      match s.step
      case Halted => Ran(ws, [], None, true)
      case Break(result) => Ran(s.workspace, [result], None, false)
      case Pending(response) => Ran(s.workspace, [], Some(response), false)
      case Next(result) =>
        var rest := RunCalls(
          registry, enabled, s.workspace, calls[1..], tools, at + 1, precedingFailed || !result.status.Ok?);
        rest.(results := [result] + rest.results)
  }

  function CallsVerdict(
    registry: Registry, enabled: set<string>, ws: Workspace, calls: seq<ToolCall>, tools: seq<ToolTurn>): Verdict
  {
    var ran := RunCalls(registry, enabled, ws, calls, tools, 0, false);
    if ran.halted then Stops
    else
      match ran.pending
      case None => Goes
      case Some(Some(text)) => Completes(text)
      case Some(None) => if Blank(ran.workspace.text) then Goes else Completes(ran.workspace.text)
  }

  /** The two guards, given the rounds before. */
  function GuardVerdict(settings: Settings, batches: seq<nat>, signatures: seq<string>, calls: seq<ToolCall>): Verdict {
    if Charge(batches + [|calls|]) > settings.maxToolCalls then Fails(CALL_LIMIT)
    else if calls != [] && Streak(signatures + [Signature(calls)]) > settings.maxIdenticalCallRounds
    then Fails(REPEAT_LIMIT)
    else Goes
  }

  function AdmittedVerdict(
    registry: Registry, settings: Settings, ws: Workspace, calls: seq<ToolCall>, tools: seq<ToolTurn>,
    batches: seq<nat>, signatures: seq<string>): Verdict
  {
    if !ValidIds(calls) then Fails(BAD_IDS)
    else
      var guard := GuardVerdict(settings, batches, signatures, calls);
      if !guard.Goes? then guard else CallsVerdict(registry, settings.enabledTools, ws, calls, tools)
  }

  /** The calls a round asks for. */
  function Asked(turn: RoundScript, transport: Transport): seq<ToolCall> {
    match Interpret(Gather(turn.items), transport)
    case Ok(g) => g.calls
    case Err(_) => []
  }

  /** The stream, and after it the XML protocol where that is the transport. */
  function ReadVerdict(items: seq<StreamItem>, transport: Transport): Verdict {
    var stream := StreamVerdict(items, transport);
    if !stream.Goes? then stream
    else
      match Interpret(Gather(items), transport)
      case Err(message) => Fails(message)
      case Ok(_) => Goes
  }

  /** How a round ends the run, if it does, in the order in which the loop finds out. */
  function RoundVerdict(
    registry: Registry, settings: Settings, turn: RoundScript, transport: Transport, ws: Workspace,
    batches: seq<nat>, signatures: seq<string>): Verdict
  {
    if turn.stopBefore then Stops
    else if turn.openError.Some? then Fails(turn.openError.value)
    else if !ReadVerdict(turn.items, transport).Goes? then ReadVerdict(turn.items, transport)
    else AdmittedVerdict(registry, settings, ws, Asked(turn, transport), turn.tools, batches, signatures)
  }

  function Batches(script: seq<RoundScript>, transport: Transport, k: nat): seq<nat> {
    if k == 0 then [] else Batches(script, transport, k - 1) + [|Asked(TurnAt(script, k - 1), transport)|]
  }

  function Signatures(script: seq<RoundScript>, transport: Transport, k: nat): seq<string> {
    if k == 0 then [] else Signatures(script, transport, k - 1) + [Signature(Asked(TurnAt(script, k - 1), transport))]
  }

  /** The verdict on round `k + 1`, when all rounds before it went on. */
  function VerdictAt(
    registry: Registry, settings: Settings, script: seq<RoundScript>, transport: Transport, k: nat): Verdict
  {
    RoundVerdict(
      registry, settings, TurnAt(script, k), transport, Shown(registry, settings.enabledTools, script, transport, k),
      Batches(script, transport, k), Signatures(script, transport, k))
  }

  /** No round so far has ended the run. */
  ghost predicate AllGo(
    registry: Registry, settings: Settings, script: seq<RoundScript>, transport: Transport, n: nat)
  {
    forall k :: 0 <= k < n ==> VerdictAt(registry, settings, script, transport, k) == Goes
  }

  /** The terminal event that a verdict calls for. */
  predicate Carries(e: Event, v: Verdict) {
    match v
    case Goes => false
    case Stops => e.Stopped?
    case Fails(message) => e == Event.Failed(message)
    case Completes(text) => e.Finished? && e.response == text
  }

  // ---- The events of a round, as functions of the script ----

  /** What is reported while the stream is read. */
  function StreamTrace(items: seq<StreamItem>, transport: Transport): seq<Event> {
    if items == [] then []
    else
      var before := StreamTrace(items[..|items| - 1], transport);
      if !StreamVerdict(items[..|items| - 1], transport).Goes? then before
      else
        match items[|items| - 1]
        case Item(UsageEvent(input, output)) => before + [Usage(input, output)]
        case _ => before
  }

  /** What follows the result of a call: a status line that may be shown, or the revision of an accepted edit. */
  function Notice(settings: Settings, control: ToolControl, s: Settled): seq<Event> {
    match control
    case ShowStatus(message, userVisible) => if userVisible && settings.showUserStatus then [StatusShown(message)] else []
    case ReplaceResponse(_) => if s.result.status.Ok? then [WorkspaceChanged(s.workspace.revision)] else []
    case PatchResponse(_, _) => if s.result.status.Ok? then [WorkspaceChanged(s.workspace.revision)] else []
    case _ => []
  }

  function CallTrace(
    registry: Registry, settings: Settings, ws: Workspace, call: ToolCall, turn: ToolTurn, precedingFailed: bool): seq<Event>
  {
    if turn.stopBefore then []
    else if call.name == FINISH && precedingFailed then
      [ToolStarted(call), ToolFinished(RejectedResult(call, "finish_skipped"))]
    else if turn.answer.StopDuring? then [ToolStarted(call)]
    else
      var e := ExecutionOf(registry, settings.enabledTools, call, turn.answer);
      if call.name == FINISH then [ToolStarted(call)] + if e.control.Finish? then [] else [ToolFinished(e.result)]
      else
        var s := Settle(ws, call, e);
        [ToolStarted(call), ToolFinished(s.result)] + Notice(settings, e.control, s)
  }

  function CallsTrace(
    registry: Registry, settings: Settings, ws: Workspace, calls: seq<ToolCall>, tools: seq<ToolTurn>, at: nat,
    precedingFailed: bool): seq<Event>
    decreases |calls|
  {
    if calls == [] then []
    else
      var s := CallStep(registry, settings.enabledTools, ws, calls[0], ToolAt(tools, at), precedingFailed);
      CallTrace(registry, settings, ws, calls[0], ToolAt(tools, at), precedingFailed)
      + if s.step.Next? then
          CallsTrace(
            registry, settings, s.workspace, calls[1..], tools, at + 1, precedingFailed || !s.step.result.status.Ok?)
        else []
  }

  /** The calls of a round, and the answer to a finish call left to commit. */
  function ActTrace(
    registry: Registry, settings: Settings, ws: Workspace, calls: seq<ToolCall>, tools: seq<ToolTurn>): seq<Event>
  {
    var ran := RunCalls(registry, settings.enabledTools, ws, calls, tools, 0, false);
    CallsTrace(registry, settings, ws, calls, tools, 0, false)
    + if !ran.halted && ran.pending.Some? && |ran.results| < |calls|
      then [ToolFinished(CommitResult(ran.workspace, calls[|ran.results|], ran.pending.value))] else []
  }

  function CommitResult(ws: Workspace, call: ToolCall, response: Option<string>): ToolResult {
    if response.None? && Blank(ws.text) then RejectedResult(call, "empty_response")
    else
      var text := if response.Some? then response.value else ws.text;
      var revision := if response.Some? then NextRevision(ws.revision) else ws.revision;
      ToolResult(call.id, call.name, Protocol.Ok, Obj([
        Field("bytes", FromNat(ByteLen(text))), Field("committed", Bool(true)), Field("revision", FromNat(revision))]),
        None)
  }

  function AdmittedTrace(
    registry: Registry, settings: Settings, ws: Workspace, calls: seq<ToolCall>, tools: seq<ToolTurn>,
    batches: seq<nat>, signatures: seq<string>): seq<Event>
  {
    if ValidIds(calls) && GuardVerdict(settings, batches, signatures, calls).Goes?
    then ActTrace(registry, settings, ws, calls, tools) else []
  }

  function ConverseTrace(
    registry: Registry, settings: Settings, turn: RoundScript, transport: Transport, ws: Workspace,
    batches: seq<nat>, signatures: seq<string>): seq<Event>
  {
    StreamTrace(turn.items, transport)
    + if ReadVerdict(turn.items, transport).Goes?
      then AdmittedTrace(registry, settings, ws, Asked(turn, transport), turn.tools, batches, signatures) else []
  }

  /** Everything round `k + 1` reports, but for the event that ends the run. */
  function RoundTrace(
    registry: Registry, settings: Settings, script: seq<RoundScript>, transport: Transport, k: nat): seq<Event>
  {
    var turn, ws := TurnAt(script, k), Shown(registry, settings.enabledTools, script, transport, k);
    var batches, signatures := Batches(script, transport, k), Signatures(script, transport, k);
    if turn.stopBefore then []
    else
      [RoundStarted(RunState(k + 1, Charge(batches), Running, ws))]
      + if turn.openError.Some? then []
        else ConverseTrace(registry, settings, turn, transport, ws, batches, signatures)
  }

  function Traces(
    registry: Registry, settings: Settings, script: seq<RoundScript>, transport: Transport, n: nat): seq<Event>
  {
    if n == 0 then []
    else
      Traces(registry, settings, script, transport, n - 1) + RoundTrace(registry, settings, script, transport, n - 1)
  }

  /** The events without the one that ended the run. */
  function Before(events: seq<Event>, ended: bool): seq<Event> {
    if ended && events != [] then events[..|events| - 1] else events
  }

  datatype RoundEnd = RoundEnd(log: RoundLog, workspace: Workspace)

  /** What an unfinished round leaves: its log, and the workspace for the next round. */
  function RoundLeaves(
    registry: Registry, enabled: set<string>, turn: RoundScript, transport: Transport, ws: Workspace): RoundEnd
  {
    match Interpret(Gather(turn.items), transport)
    case Err(_) => RoundEnd(RoundLog("", []), ws)
    case Ok(g) =>
      var ran := RunCalls(registry, enabled, ws, g.calls, turn.tools, 0, false);
      var late := if ran.pending.None? then [] else [RejectedResult(g.calls[|ran.results|], "empty_response")];
      RoundEnd(RoundLog(g.working, Zip(g.calls, ran.results + late)), ran.workspace)
  }

  /** The workspace at the start of round `k + 1`. */
  function Shown(
    registry: Registry, enabled: set<string>, script: seq<RoundScript>, transport: Transport, k: nat): Workspace
  {
    if k == 0 then Workspace("", 0)
    else
      RoundLeaves(
        registry, enabled, TurnAt(script, k - 1), transport, Shown(registry, enabled, script, transport, k - 1)).workspace
  }

  /** Snapshots and logs are those the script determines. */
  ghost predicate Followed(
    registry: Registry, enabled: set<string>, script: seq<RoundScript>, transport: Transport,
    seen: seq<Workspace>, logs: seq<RoundLog>)
  {
    && (forall k :: 0 <= k < |seen| ==> seen[k] == Shown(registry, enabled, script, transport, k))
    && (forall k :: 0 <= k < |logs| ==>
          logs[k] == RoundLeaves(
            registry, enabled, TurnAt(script, k), transport, Shown(registry, enabled, script, transport, k)).log)
  }

  // ---- The run context as a function of the rounds ----

  function Blocks(logs: seq<RoundLog>, transport: Transport, unfinished: string): seq<ChatMessage> {
    if logs == [] then []
    else
      Blocks(logs[..|logs| - 1], transport, unfinished)
      + RoundBlock(logs[|logs| - 1].working, logs[|logs| - 1].turns, transport, unfinished)
  }

  lemma BlocksSnoc(logs: seq<RoundLog>, log: RoundLog, transport: Transport, unfinished: string)
    ensures Blocks(logs + [log], transport, unfinished) ==
            Blocks(logs, transport, unfinished) + RoundBlock(log.working, log.turns, transport, unfinished)
  {
    assert (logs + [log])[..|logs|] == logs;
  }

  /** Every request is the context built from the rounds before it, with one workspace snapshot laid over it. */
  ghost predicate RequestsOk(
    sent: seq<seq<ChatMessage>>, seen: seq<Workspace>, start: seq<ChatMessage>, logs: seq<RoundLog>,
    transport: Transport, unfinished: string)
  {
    && |sent| == |seen| <= |logs| + 1
    && forall k :: 0 <= k < |sent| ==>
         sent[k] == InjectSnapshot(start + Blocks(logs[..k], transport, unfinished), seen[k], k == 0)
  }

  ghost predicate LogsAnswer(logs: seq<RoundLog>) {
    forall k :: 0 <= k < |logs| ==> ResultsAnswer(logs[k].turns)
  }

  lemma {:induction false} BlocksPaired(logs: seq<RoundLog>, transport: Transport, unfinished: string)
    requires LogsAnswer(logs)
    ensures Paired(Blocks(logs, transport, unfinished))
    ensures logs != [] ==>
              var b := Blocks(logs, transport, unfinished);
              b != [] && TextOnly([b[|b| - 1]]) && Paired(b[..|b| - 1])
  {
    hide Expect, RoundBlock, ResultsAnswer;
    if logs == [] {
      TextOnlyPaired([]);
    } else {
      var before, log := logs[..|logs| - 1], logs[|logs| - 1];
      BlocksPaired(before, transport, unfinished);
      RoundBlockPaired(log.working, log.turns, transport, unfinished);
      var a, b := Blocks(before, transport, unfinished), RoundBlock(log.working, log.turns, transport, unfinished);
      PairedConcat(a, b);
      PairedConcat(a, b[..|b| - 1]);
      assert (a + b)[..|a + b| - 1] == a + b[..|b| - 1];
    }
  }

  /**
   * Transcript pairing: in every request of every run, each assistant message with calls is answered right behind it,
   * result by result, and the snapshot never comes between them. The context handed in must hold no Tool traffic.
   */
  lemma RequestsPairUp(
    sent: seq<seq<ChatMessage>>, seen: seq<Workspace>, start: seq<ChatMessage>, logs: seq<RoundLog>,
    transport: Transport, unfinished: string, k: nat)
    requires RequestsOk(sent, seen, start, logs, transport, unfinished) && LogsAnswer(logs) && TextOnly(start)
    requires k < |sent|
    ensures Paired(sent[k]) && PairsUp(sent[k])
  {
    hide Expect, PairsUp, LogsAnswer, TextOnly, InjectSnapshot;
    LogsPrefix(logs, k);
    OverlaidContextPaired(start, logs[..k], transport, unfinished, seen[k]);
    PairedMeaning(sent[k]);
  }

  lemma OverlaidContextPaired(
    start: seq<ChatMessage>, logs: seq<RoundLog>, transport: Transport, unfinished: string, ws: Workspace)
    requires LogsAnswer(logs) && TextOnly(start)
    ensures Paired(InjectSnapshot(start + Blocks(logs, transport, unfinished), ws, logs == []))
  {
    hide Expect, RenderSnapshot, LogsAnswer, RoundBlock;
    var b := Blocks(logs, transport, unfinished);
    var context, m := start + b, Control(RenderSnapshot(ws));
    if logs == [] {
      assert context == start;
      TextOnlyInsert(context, LastUser(context), m);
      TextOnlyPaired(InsertAt(context, LastUser(context), m));
    } else {
      hide TextOnly;
      BlocksPaired(logs, transport, unfinished);
      TextOnlyPaired(start);
      var last := b[|b| - 1];
      PairedConcat(start, b[..|b| - 1]);
      TextOnlyPaired([last]);
      assert context[..|context| - 1] == start + b[..|b| - 1] && context[|context| - 1..] == [last];
      assert TextOnly([m]) by { ControlIsText(RenderSnapshot(ws)); }
      InsertKeepsPairs(start + b[..|b| - 1], m, [last]);
    }
  }

  lemma ControlIsText(text: string)
    ensures TextOnly([Control(text)])
  {
  }

  lemma RequestsGrow(
    sent: seq<seq<ChatMessage>>, seen: seq<Workspace>, start: seq<ChatMessage>, logs: seq<RoundLog>,
    transport: Transport, unfinished: string, ws: Workspace)
    requires RequestsOk(sent, seen, start, logs, transport, unfinished) && |sent| == |logs|
    ensures var next := InjectSnapshot(start + Blocks(logs, transport, unfinished), ws, |logs| == 0);
            RequestsOk(sent + [next], seen + [ws], start, logs, transport, unfinished)
  {
    hide InjectSnapshot, Blocks;
    assert logs[..|logs|] == logs;
  }

  lemma LogsGrow(
    sent: seq<seq<ChatMessage>>, seen: seq<Workspace>, start: seq<ChatMessage>, logs: seq<RoundLog>,
    transport: Transport, unfinished: string, log: RoundLog)
    requires RequestsOk(sent, seen, start, logs, transport, unfinished)
    requires LogsAnswer(logs) && ResultsAnswer(log.turns)
    ensures RequestsOk(sent, seen, start, logs + [log], transport, unfinished) && LogsAnswer(logs + [log])
  {
    hide InjectSnapshot, Blocks, ResultsAnswer;
    assert forall k :: 0 <= k <= |logs| ==> (logs + [log])[..k] == logs[..k];
  }

  lemma LogsPrefix(logs: seq<RoundLog>, k: nat)
    requires LogsAnswer(logs) && k <= |logs|
    ensures LogsAnswer(logs[..k])
  {
    hide ResultsAnswer;
  }

  // ---- The guards over all rounds ----

  /**
   * Rounds asked for calls and had signatures; `executed` of them passed the guards, and at most the last one did not.
   * Tools started at most as often as calls were asked for and the budget allows.
   */
  ghost predicate Tallied(batches: seq<nat>, signatures: seq<string>, executed: nat, starts: nat, settings: Settings) {
    && |batches| == |signatures| && executed <= |signatures| <= executed + 1
    && starts <= Sum(batches)
    && (Sum(batches) <= U32_MAX ==> starts <= settings.maxToolCalls)
    && (forall k :: 0 <= k < executed && signatures[k] != "" ==>
          Streak(signatures[..k + 1]) <= settings.maxIdenticalCallRounds)
  }

  /** The counters of a run, against the rounds so far. */
  predicate Tracked(totalCalls: u32, identicalRounds: nat, previous: string, batches: seq<nat>, signatures: seq<string>) {
    && totalCalls == Charge(batches)
    && identicalRounds == Streak(signatures)
    && previous == (if signatures == [] then "" else signatures[|signatures| - 1])
  }

  lemma FewerStarts(
    batches: seq<nat>, signatures: seq<string>, executed: nat, starts: nat, settings: Settings, fewer: nat)
    requires Tallied(batches, signatures, executed, starts, settings) && fewer <= starts
    ensures Tallied(batches, signatures, executed, fewer, settings)
  {
  }

  lemma TallyGrows(batches: seq<nat>, signatures: seq<string>, starts: nat, settings: Settings, n: nat, signature: string)
    requires Tallied(batches, signatures, |signatures|, starts, settings)
    ensures var bs, ss := batches + [n], signatures + [signature];
            && Tallied(bs, ss, |signatures|, starts, settings)
            && Sum(bs) == Sum(batches) + n
            && Charge(bs) == SaturatingAdd(Charge(batches), Truncate(n))
            && ((signature == "" || Streak(ss) <= settings.maxIdenticalCallRounds) ==>
                  Tallied(bs, ss, |ss|, starts, settings))
            && (Charge(bs) <= settings.maxToolCalls && (signature == "" || Streak(ss) <= settings.maxIdenticalCallRounds) ==>
                  Tallied(bs, ss, |ss|, starts + n, settings))
  {
    hide Charge, Sum, Streak;
    var bs, ss := batches + [n], signatures + [signature];
    BatchSnoc(batches, n);
    ChargeIsCount(bs);
    assert forall k :: 0 <= k < |signatures| ==> ss[k] == signatures[k] && ss[..k + 1] == signatures[..k + 1];
    assert ss[..|ss|] == ss;
  }

  // ---- The run ----

  class AgentRun {
    const settings: Settings
    const nativeSupported: bool
    const registry: Registry
    const request: seq<ChatMessage>
    const script: seq<RoundScript>

    var transport: Transport
    var messages: seq<ChatMessage>
    var round: nat
    var toolCalls: u32
    var status: RunStatus
    var workspace: Workspace
    var totalCalls: u32
    var previousSignature: string
    var identicalRounds: nat
    var events: seq<Event>

    // Histories.
    ghost var start: seq<ChatMessage>        // the context before the first round
    ghost var logs: seq<RoundLog>            // the rounds that were appended
    ghost var sent: seq<seq<ChatMessage>>    // the requests that went to the provider
    ghost var seen: seq<Workspace>           // the workspace shown in each
    ghost var texts: seq<string>             // all texts of the workspace
    ghost var edits: seq<Edit>               // what led from each to the next
    ghost var batches: seq<nat>              // how many calls each round asked for
    ghost var signatures: seq<string>        // and their signatures
    ghost var executed: nat                  // how many of those rounds passed the guards

    constructor (settings: Settings, nativeSupported: bool, registry: Registry,
                 request: seq<ChatMessage>, script: seq<RoundScript>)
      ensures this.settings == settings && this.nativeSupported == nativeSupported && this.registry == registry
      ensures this.request == request && this.script == script && Fresh()
    {
      this.settings, this.nativeSupported, this.registry := settings, nativeSupported, registry;
      this.request, this.script := request, script;
      transport, messages, round, toolCalls, status := Native, request, 0, 0, Running;
      workspace, totalCalls, previousSignature, identicalRounds, events := Workspace("", 0), 0, "", 0, [];
      start, logs, sent, seen, texts, edits := request, [], [], [], [""], [];
      batches, signatures, executed := [], [], 0;
    }

    function State(): RunState
      reads this
    {
      RunState(round, toolCalls, status, workspace)
    }

    /** The workspace is the last text of a linear history. */
    ghost predicate Edited()
      reads `workspace, `texts, `edits
    {
      History(workspace, texts, edits)
    }

    /** The observer accepts the events so far. */
    ghost predicate Watched(w: Watch)
      reads `events
    {
      After(events) == Some(w)
    }

    /** The observer of a run between two calls or rounds. */
    ghost function Idle(fenced: bool, toolsBegun: bool): Watch
      reads `round, `workspace
    {
      Watch(round, None, fenced, toolsBegun, false, workspace.revision, false)
    }

    /** Nothing is open, owed or over, and the observer agrees on the round and the revision. */
    ghost predicate Between()
      reads `events, `round, `workspace
    {
      && After(events).Some?
      && var w := After(events).value;
      w.open.None? && !w.owed && !w.ended && w.round == round && w.revision == workspace.revision
    }

    ghost predicate Ended()
      reads `events, `round
    {
      After(events).Some? && After(events).value.ended && After(events).value.round == round
    }

    /** Over, without a response. */
    ghost predicate Aborted()
      reads `events, `round, `status
    {
      Ended() && events != [] && !events[|events| - 1].Finished? && !status.Completed?
    }

    /** Over, with a response: visible text, within the ceiling, and exactly the final workspace. */
    ghost predicate Completed()
      reads this
    {
      && Ended() && events != [] && events[|events| - 1] == Finished(workspace.text, State())
      && !Blank(workspace.text) && ByteLen(workspace.text) <= MAX_WORKSPACE_BYTES && status.Completed?
    }

    /**
     * The run went as its script says: it ended with native calling refused; or in the first round whose verdict is not to
     * go on, with the event of that verdict; or, when there is none, at the round limit. Before that it reported exactly
     * what its rounds report.
     */
    ghost predicate Explained()
      reads this
    {
      && events != []
      && (|| (ChosenTransport().None? && events == [Event.Failed(NATIVE_DISABLED)])
          || (&& ChosenTransport() == Some(transport)
              && AllGo(registry, settings, script, transport, |logs|)
              && (if |logs| == settings.maxRounds then
                    events == Traces(registry, settings, script, transport, |logs|) + [Event.Failed(ROUND_LIMIT)]
                  else
                    && |logs| < settings.maxRounds
                    && Before(events, true) == Traces(registry, settings, script, transport, |logs| + 1)
                    && Carries(events[|events| - 1], VerdictAt(registry, settings, script, transport, |logs|)))))
    }

    /** The last event is the one this verdict calls for. */
    ghost predicate Ruled(v: Verdict)
      reads `events
    {
      events != [] && Carries(events[|events| - 1], v)
    }

    /** The requests sent, the rounds appended and the context built from them agree. */
    ghost predicate Recorded()
      reads `sent, `seen, `start, `logs, `transport
    {
      && RequestsOk(sent, seen, start, logs, transport, settings.unfinishedPrompt) && LogsAnswer(logs)
      && (TextOnly(request) ==> TextOnly(start))
      && Followed(registry, settings.enabledTools, script, transport, seen, logs)
    }

    /** Between two iterations of the round loop. */
    ghost predicate AtRoundEnd()
      reads this
    {
      && Between() && executed == |signatures| && status == Running
      && |logs| == |sent| == |seen| == round <= settings.maxRounds
      && workspace == Shown(registry, settings.enabledTools, script, transport, round)
      && messages == start + Blocks(logs, transport, settings.unfinishedPrompt)
      && batches == Batches(script, transport, round) && signatures == Signatures(script, transport, round)
      && toolCalls == totalCalls
    }

    /** A run that has not begun. */
    ghost predicate Fresh()
      reads this
    {
      && events == [] && messages == request && round == 0 && status == Running && workspace == Workspace("", 0)
      && logs == [] && sent == [] && seen == [] && batches == [] && signatures == [] && toolCalls == totalCalls
      && Edited() && Counted() && executed == |signatures|
    }

    /** Counters and guards agree with the histories. */
    ghost predicate Counted()
      reads `totalCalls, `batches, `signatures, `previousSignature, `identicalRounds, `executed, `events
    {
      RoomFor(0)
    }

    /** The counters agree, and leave room for `more` further starts. */
    ghost predicate RoomFor(more: nat)
      reads `totalCalls, `batches, `signatures, `previousSignature, `identicalRounds, `executed, `events
    {
      && Tracked(totalCalls, identicalRounds, previousSignature, batches, signatures)
      && Tallied(batches, signatures, executed, CountStarts(events) + more, settings)
    }

    method Emit(e: Event)
      requires After(events).Some? && Observe(After(events).value, e).Some?
      modifies `events
      ensures events == old(events) + [e]
      ensures After(events) == Observe(After(old(events)).value, e)
      ensures CountStarts(events) == CountStarts(old(events)) + if e.ToolStarted? then 1 else 0
    {
      hide Observe;
      AfterSnoc(events, e);
      CountStartsSnoc(events, e);
      events := events + [e];
    }

    method Stop()
      requires After(events).Some? && !After(events).value.ended && !After(events).value.owed
      requires After(events).value.round == round
      modifies `events, `status
      ensures Aborted() && status == StoppedRun
      ensures events == old(events) + [Stopped(State())]
      ensures CountStarts(events) == CountStarts(old(events))
    {
      status := StoppedRun;
      Emit(Stopped(State()));
    }

    method Fail(message: string)
      requires Between() && !status.Completed?
      modifies `events
      ensures Aborted() && events == old(events) + [Event.Failed(message)]
      ensures CountStarts(events) == CountStarts(old(events))
    {
      Emit(Event.Failed(message));
    }

    /** Reads the provider stream of one round, then the XML protocol where that is the transport. */
    method StreamRound(turn: RoundScript) returns (working: string, calls: seq<ToolCall>, halted: bool)
      requires Watched(Idle(false, false)) && 0 < round && !status.Completed?
      modifies `events, `status
      ensures halted <==> !ReadVerdict(turn.items, transport).Goes?
      ensures halted ==> Aborted() && Ruled(ReadVerdict(turn.items, transport))
      ensures Before(events, halted) == old(events) + StreamTrace(turn.items, transport)
      ensures !halted ==> Watched(Idle(false, false)) && status == old(status)
      ensures !halted ==> Interpret(Gather(turn.items), transport) == Result.Ok(Gathered(working, calls))
      ensures CountStarts(events) == CountStarts(old(events))
    {
      hide ParseRound, After, CountStarts, ByteLen, Ended, ROUND_TOO_LARGE, UNTERMINATED;
      working, calls, halted := "", [], false;
      var items := turn.items;
      for i := 0 to |items|
        invariant Watched(Idle(false, false)) && status == old(status)
        invariant CountStarts(events) == CountStarts(old(events))
        invariant Gathered(working, calls) == Gather(items[..i]) && StreamVerdict(items[..i], transport).Goes?
        invariant events == old(events) + StreamTrace(items[..i], transport)
      {
        assert items[..i + 1][..i] == items[..i];
        VerdictSticks(items, i + 1, transport);
        match items[i] {
          case StopSignal =>
            Stop();
            return working, calls, true;
          case StreamError(message) =>
            Fail(message);
            return working, calls, true;
          case Item(event) =>
            match event {
              case Delta(_, text) =>
                if transport.Xml? && ByteLen(working) + ByteLen(text) > MAX_XML_ROUND_BYTES {
                  Fail(ROUND_TOO_LARGE);
                  return working, calls, true;
                }
                working := working + text;
              case CallEvent(call) => calls := calls + [call];
              case UsageEvent(input, output) => Emit(Usage(input, output));
              case DoneEvent =>
            }
        }
      }
      assert items[..|items|] == items;
      if transport.Xml? {
        var parsed := ParseXmlToolRound(working);
        match parsed {
          case Ok(r) => working, calls := r.workingText, r.calls;
          case Err(message) =>
            if message == UNTERMINATED {
              calls := [];
            } else {
              Fail(message);
              return working, calls, true;
            }
        }
      }
    }

    /** Every call has an id of its own that is not blank. */
    method CheckIds(calls: seq<ToolCall>) returns (valid: bool)
      ensures valid <==> ValidIds(calls)
    {
      var ids: set<string> := {};
      for i := 0 to |calls|
        invariant ids == set k | 0 <= k < i :: calls[k].id
        invariant DistinctIds(calls[..i]) && forall k :: 0 <= k < i ==> !Blank(calls[k].id)
      {
        TrimMeaning(calls[i].id);
        if Trim(calls[i].id) == "" || calls[i].id in ids {
          if !Blank(calls[i].id) {
            assert exists k :: 0 <= k < i && calls[k].id == calls[i].id;
          }
          return false;
        }
        ids := ids + {calls[i].id};
      }
      assert calls[..|calls|] == calls;
      return true;
    }

    /** Charges the round's calls and runs the two guards; on failure the run ends before any Tool starts. */
    method Admit(calls: seq<ToolCall>) returns (halted: bool)
      requires Watched(Idle(false, false)) && Counted() && executed == |signatures| && !status.Completed?
      modifies `events, `totalCalls, `toolCalls, `batches, `signatures, `previousSignature, `identicalRounds, `executed
      ensures Counted()
      ensures batches == old(batches) + [|calls|] && signatures == old(signatures) + [Signature(calls)]
      ensures var overBudget := Charge(batches) > settings.maxToolCalls;
              var repeated := calls != [] && Streak(signatures) > settings.maxIdenticalCallRounds;
              && (halted <==> overBudget || repeated)
              && (overBudget ==> events == old(events) + [Event.Failed(CALL_LIMIT)])
              && (!overBudget && repeated ==> events == old(events) + [Event.Failed(REPEAT_LIMIT)])
              && (!halted ==> events == old(events))
      ensures var guard := GuardVerdict(settings, old(batches), old(signatures), calls);
              if halted then Before(events, true) == old(events) && Ruled(guard) && !guard.Goes? else guard.Goes?
      ensures halted ==> Aborted()
      ensures toolCalls == totalCalls
      ensures !halted ==> executed == |signatures|
      ensures !halted ==> RoomFor(|calls|)
    {
      hide After, CountStarts, Signature, Charge, Sum, Streak, Tallied, Observe, CALL_LIMIT, REPEAT_LIMIT;
      var signature := Signature(calls);
      TallyGrows(batches, signatures, CountStarts(events), settings, |calls|, signature);
      SignatureEmpty(calls);
      StreakSnoc(signatures, signature);
      batches, signatures := batches + [|calls|], signatures + [signature];
      totalCalls := SaturatingAdd(totalCalls, Truncate(|calls|));
      toolCalls := totalCalls;
      var overBudget := totalCalls > settings.maxToolCalls;
      identicalRounds := if signature != "" && signature == previousSignature then identicalRounds + 1 else 1;
      previousSignature := signature;
      if overBudget {
        Fail(CALL_LIMIT);
        return true;
      }
      if calls != [] && identicalRounds > settings.maxIdenticalCallRounds {
        Fail(REPEAT_LIMIT);
        return true;
      }
      executed := |signatures|;
      return false;
    }

    /** Runs one call and applies its control to the run. */
    method ExecuteCall(call: ToolCall, turn: ToolTurn, precedingFailed: bool) returns (step: Step)
      requires WellBuilt(registry) && Edited() && 0 < round
      requires Between() && !After(events).value.fenced
      modifies `events, `status, `workspace, `texts, `edits
      ensures Edited()
      ensures CountStarts(events) <= CountStarts(old(events)) + 1
      ensures step.Halted? ==> Aborted() && events != [] && events[|events| - 1].Stopped?
      ensures var s := CallStep(registry, settings.enabledTools, old(workspace), call, turn, precedingFailed);
              step == s.step && (!step.Halted? ==> workspace == s.workspace)
      ensures Before(events, step.Halted?) ==
              old(events) + CallTrace(registry, settings, old(workspace), call, turn, precedingFailed)
      ensures step.Next? ==> Answers(step.result, call) && call.name != FINISH && Watched(Idle(false, true))
      ensures step.Break? ==> Answers(step.result, call) && call.name == FINISH && Watched(Idle(true, true))
      ensures step.Pending? ==> call.name == FINISH && Watched(Idle(false, true).(open := Some(call)))
      ensures step.Pending? && step.response.Some? ==>
                !Blank(step.response.value) && ByteLen(step.response.value) <= MAX_WORKSPACE_BYTES
      ensures !step.Halted? ==> status == old(status)
    {
      hide After, CountStarts, Execute, ExecutionOf, History, ByteLen, Blank, WellBuilt, Ended, Settle;
      if turn.stopBefore {
        Stop();
        return Halted;
      }
      Emit(ToolStarted(call));
      if call.name == FINISH && precedingFailed {
        var skipped := RejectedResult(call, "finish_skipped");
        Emit(ToolFinished(skipped));
        return Break(skipped);
      }
      var execution: Execution;
      match turn.answer {
        case StopDuring =>
          Stop();
          return Halted;
        case _ =>
          ExecutionOfSound(registry, settings.enabledTools, call, turn.answer);
          execution := ExecutionOf(registry, settings.enabledTools, call, turn.answer);
      }
      step := Conclude(call, execution);
    }

    /** What an executed call comes to: a finish call ends the list, committed later or reported; any other is applied. */
    method Conclude(call: ToolCall, execution: Execution) returns (step: Step)
      requires Edited() && Sound(call, execution)
      requires Watched(Idle(false, true).(open := Some(call)))
      modifies `events, `workspace, `texts, `edits
      ensures Edited()
      ensures CountStarts(events) == CountStarts(old(events))
      ensures call.name == FINISH ==>
                && workspace == old(workspace)
                && step == (if execution.control.Finish? then Pending(execution.control.response) else Break(execution.result))
                && events == old(events) + if execution.control.Finish? then [] else [ToolFinished(execution.result)]
      ensures call.name != FINISH ==>
                && step.Next? && Settled(workspace, step.result) == Settle(old(workspace), call, execution)
                && events == old(events) + [ToolFinished(step.result)]
                             + Notice(settings, execution.control, Settled(workspace, step.result))
      ensures step.Next? ==> Answers(step.result, call) && Watched(Idle(false, true))
      ensures step.Break? ==> Answers(step.result, call) && Watched(Idle(true, true))
      ensures step.Pending? ==> Watched(Idle(false, true).(open := Some(call)))
    {
      hide After, CountStarts, History, ByteLen, Blank, Settle;
      if call.name == FINISH {
        if execution.control.Finish? {
          return Pending(execution.control.response);
        }
        Emit(ToolFinished(execution.result));
        return Break(execution.result);
      }
      var result := ApplyControl(call, execution);
      return Next(result);
    }

    /** Applies what a call that is not a finish call asks for, and reports its result. */
    method ApplyControl(call: ToolCall, execution: Execution) returns (result: ToolResult)
      requires Edited() && call.name != FINISH && Sound(call, execution)
      requires Watched(Idle(false, true).(open := Some(call)))
      modifies `events, `workspace, `texts, `edits
      ensures Edited() && Answers(result, call) && Watched(Idle(false, true))
      ensures Settled(workspace, result) == Settle(old(workspace), call, execution)
      ensures events == old(events) + [ToolFinished(result)]
                        + Notice(settings, execution.control, Settled(workspace, result))
      ensures CountStarts(events) == CountStarts(old(events))
    {
      hide After, CountStarts, History, ByteLen, Blank;
      match execution.control {
        case ShowStatus(message, userVisible) =>
          Emit(ToolFinished(execution.result));
          if userVisible && settings.showUserStatus {
            Emit(StatusShown(message));
          }
          return execution.result;
        case ReplaceResponse(text) =>
          result := Replace(call, text);
        case PatchResponse(revision, ops) =>
          result := Patch(call, revision, ops);
        case Finish(_) =>
          assert false; // only the finish Tool asks to finish
        case NoControl =>
          Emit(ToolFinished(execution.result));
          return execution.result;
      }
    }

    /** Reports an accepted response edit and its new revision. */
    method Announce(ghost call: ToolCall, result: ToolResult, ghost before: nat)
      requires IsResponseControl(call.name) && result.status.Ok? && Answers(result, call)
      requires workspace.revision == NextRevision(before)
      requires Watched(Watch(round, Some(call), false, true, false, before, false))
      modifies `events
      ensures Watched(Idle(false, true)) && CountStarts(events) == CountStarts(old(events))
      ensures events == old(events) + [ToolFinished(result), WorkspaceChanged(workspace.revision)]
    {
      hide After, CountStarts;
      Emit(ToolFinished(result));
      Emit(WorkspaceChanged(workspace.revision));
    }

    method Replace(call: ToolCall, text: string) returns (result: ToolResult)
      requires Edited() && ByteLen(text) <= MAX_WORKSPACE_BYTES && call.name == REPLACE
      requires Watched(Idle(false, true).(open := Some(call)))
      modifies `events, `workspace, `texts, `edits
      ensures Edited() && Answers(result, call) && Watched(Idle(false, true))
      ensures texts == old(texts) + [text] && edits == old(edits) + [Replaced(text)]
      ensures workspace == Workspace(text, NextRevision(old(workspace.revision)))
      ensures result == EditResult(call, [Field("revision", FromNat(workspace.revision))])
      ensures events == old(events) + [ToolFinished(result), WorkspaceChanged(workspace.revision)]
      ensures CountStarts(events) == CountStarts(old(events))
    {
      hide After, CountStarts, History, ByteLen, Observe;
      assert History(workspace, texts, edits);
      HistoryGrows(workspace, texts, edits, Replaced(text), text);
      ghost var before := workspace.revision;
      workspace := ApplyReplace(workspace, text);
      texts, edits := texts + [text], edits + [Replaced(text)];
      result := EditResult(call, [Field("revision", FromNat(workspace.revision))]);
      Announce(call, result, before);
    }

    method Patch(call: ToolCall, revision: nat, ops: seq<PatchOp>) returns (result: ToolResult)
      requires Edited() && call.name == PATCH
      requires Watched(Idle(false, true).(open := Some(call)))
      modifies `events, `workspace, `texts, `edits
      ensures Edited() && Answers(result, call) && Watched(Idle(false, true))
      ensures forall r :: Settled(workspace, result) ==
                Settle(old(workspace), call, Execution(r, PatchResponse(revision, ops)))
      ensures if result.status.Ok? then
                texts == old(texts) + [workspace.text] && edits == old(edits) + [Patched(revision, ops)]
              else
                workspace == old(workspace) && texts == old(texts) && edits == old(edits)
      ensures events == old(events) + [ToolFinished(result)]
                        + if result.status.Ok? then [WorkspaceChanged(workspace.revision)] else []
      ensures CountStarts(events) == CountStarts(old(events))
    {
      hide After, CountStarts, ByteLen, FoldOps, History;
      HistoryFits(workspace, texts, edits);
      var next, error := ApplyPatch(workspace, revision, ops);
      if error.Some? {
        result := RejectedResult(call, error.value);
        Emit(ToolFinished(result));
        return;
      }
      FoldOpsFits(workspace.text, ops);
      HistoryGrows(workspace, texts, edits, Patched(revision, ops), next.text);
      workspace := next;
      texts, edits := texts + [next.text], edits + [Patched(revision, ops)];
      result := EditResult(call, [Field("operations", FromNat(|ops|)), Field("revision", FromNat(workspace.revision))]);
      Announce(call, result, revision);
    }

    /** The ordered call loop of a round: it ends behind the last call, or at the first finish call. */
    method ExecuteCalls(calls: seq<ToolCall>, tools: seq<ToolTurn>)
      returns (results: seq<ToolResult>, pending: Option<Option<string>>, halted: bool)
      requires WellBuilt(registry) && Edited() && 0 < round && Watched(Idle(false, false))
      modifies `events, `status, `workspace, `texts, `edits
      ensures Edited() && CountStarts(events) <= CountStarts(old(events)) + |calls|
      ensures halted ==> Aborted() && events != [] && events[|events| - 1].Stopped?
      ensures halted <==> RunCalls(registry, settings.enabledTools, old(workspace), calls, tools, 0, false).halted
      ensures Before(events, halted) ==
              old(events) + CallsTrace(registry, settings, old(workspace), calls, tools, 0, false)
      ensures !halted ==>
                Ran(workspace, results, pending, false) ==
                RunCalls(registry, settings.enabledTools, old(workspace), calls, tools, 0, false)
      ensures !halted ==> |results| <= |calls| && status == old(status)
      ensures !halted ==> forall i :: 0 <= i < |results| ==> Answers(results[i], calls[i])
      ensures !halted && pending.None? ==> Between()
      ensures !halted && pending.Some? ==>
                && |results| < |calls| && calls[|results|].name == FINISH
                && Watched(Idle(false, true).(open := Some(calls[|results|])))
                && (pending.value.Some? ==>
                      !Blank(pending.value.value) && ByteLen(pending.value.value) <= MAX_WORKSPACE_BYTES)
    {
      hide After, CountStarts, History, ByteLen, Blank, WellBuilt, CallStep, CallTrace, CallsTrace, Ended, RunCalls,
        Observe, State, Aborted, OnTrack;
      results, pending, halted := [], None, false;
      var precedingFailed := false;
      ghost var enabled := settings.enabledTools;
      ghost var goal := RunCalls(registry, enabled, workspace, calls, tools, 0, false);
      ghost var trace := events + CallsTrace(registry, settings, workspace, calls, tools, 0, false);
      assert calls[0..] == calls;
      BeginsOnTrack(registry, settings, workspace, calls, tools, events);
      for i := 0 to |calls|
        invariant Edited() && CountStarts(events) <= CountStarts(old(events)) + i
        invariant status == old(status) && Watched(Idle(false, i > 0))
        invariant |results| == i && forall k :: 0 <= k < i ==> Answers(results[k], calls[k])
        invariant OnTrack(registry, settings, goal, trace, workspace, calls[i..], tools, i, precedingFailed, results, events)
      {
        assert calls[i..][0] == calls[i] && calls[i..][1..] == calls[i + 1..];
        ghost var ws, before := workspace, events;
        var step := ExecuteCall(calls[i], ToolAt(tools, i), precedingFailed);
        OneCall(registry, settings, goal, trace, ws, calls[i..], tools, i, precedingFailed, results, before,
                Before(events, step.Halted?));
        match step {
          case Halted => return results, None, true;
          case Break(result) => return results + [result], None, false;
          case Pending(response) => return results, Some(response), false;
          case Next(result) =>
            precedingFailed := precedingFailed || !result.status.Ok?;
            results := results + [result];
        }
      }
      assert calls[|calls|..] == [];
      EndsOnTrack(registry, settings, goal, trace, workspace, tools, |calls|, precedingFailed, results, events);
    }

    /** Commits a pending finish call: the run completes, or the call is answered as rejected. */
    method Commit(call: ToolCall, response: Option<string>) returns (result: ToolResult, finished: bool)
      requires Edited() && call.name == FINISH && Watched(Idle(false, true).(open := Some(call)))
      requires response.Some? ==> !Blank(response.value) && ByteLen(response.value) <= MAX_WORKSPACE_BYTES
      modifies `events, `status, `workspace, `texts, `edits
      ensures Edited() && Answers(result, call) && CountStarts(events) == CountStarts(old(events))
      ensures finished <==> response.Some? || !Blank(old(workspace.text))
      ensures !finished ==> Between() && Watched(Idle(true, true)) && status == old(status) && workspace == old(workspace)
      ensures !finished ==> result == RejectedResult(call, "empty_response")
      ensures finished ==> workspace.text == if response.Some? then response.value else old(workspace.text)
      ensures finished ==> Completed()
      ensures Before(events, finished) == old(events) + [ToolFinished(CommitResult(old(workspace), call, response))]
    {
      hide After, CountStarts, History, ByteLen, Blank;
      var next, r := CommitFinish(workspace, response);
      if r.Err? {
        result := RejectedResult(call, r.error);
        Emit(ToolFinished(result));
        return result, false;
      }
      result := ToolResult(call.id, call.name, Protocol.Ok, Obj([
        Field("bytes", FromNat(ByteLen(r.value))), Field("committed", Bool(true)),
        Field("revision", FromNat(next.revision))]), None);
      if response.Some? {
        assert History(workspace, texts, edits);
        HistoryGrows(workspace, texts, edits, Committed(next.text), next.text);
        texts, edits := texts + [next.text], edits + [Committed(next.text)];
      }
      workspace := next;
      HistoryFits(workspace, texts, edits);
      Emit(ToolFinished(result));
      status := RunStatus.Completed;
      Emit(Finished(r.value, State()));
      return result, true;
    }

    /**
     * `run`: everything that is promised about a whole run, for every script. How it ends, in which round, and with what
     * response or message is a function of the script.
     */
    method Run()
      requires Fresh() && WellBuilt(registry)
      modifies this
      ensures (Aborted() || Completed()) && Explained() && round <= settings.maxRounds
      ensures Counted() && Edited() && Recorded()
    {
      hide Between, Counted, Edited, Recorded, WellBuilt, Ended, Blank, ByteLen, Explained, VerdictAt, AllGo, Ruled;
      hide Blocks, Shown, Batches, Signatures, Aborted, Completed, Traces, RoundTrace;
      var ok := Prepare();
      if !ok {
        return;
      }
      NothingRuled(registry, settings, script, transport);
      for r := 1 to settings.maxRounds as int + 1
        invariant AtRoundEnd() && Counted() && Edited() && Recorded() && round == r - 1
        invariant ChosenTransport() == Some(transport) && AllGo(registry, settings, script, transport, |logs|)
        invariant events == Traces(registry, settings, script, transport, |logs|)
      {
        var done := RunRound();
        TracesGrow(registry, settings, script, transport, r - 1);
        if done {
          Explain();
          return;
        }
        AllGoOn(registry, settings, script, transport, r - 1);
      }
      GiveUp();
    }

    lemma Explain()
      requires ChosenTransport() == Some(transport) && AllGo(registry, settings, script, transport, |logs|)
      requires |logs| < settings.maxRounds && Ruled(VerdictAt(registry, settings, script, transport, |logs|))
      requires Before(events, true) == Traces(registry, settings, script, transport, |logs| + 1)
      ensures Explained()
    {
      hide VerdictAt, AllGo;
    }

    method GiveUp()
      requires AtRoundEnd() && Counted() && round == settings.maxRounds
      requires ChosenTransport() == Some(transport) && AllGo(registry, settings, script, transport, |logs|)
      requires events == Traces(registry, settings, script, transport, |logs|)
      modifies `events
      ensures Aborted() && Explained() && Counted()
    {
      hide Tallied, After, CountStarts, Blocks, Streak, Charge, VerdictAt, AllGo;
      Fail(ROUND_LIMIT);
    }

    /** Chooses the transport and puts the harness prompt in front of the current user turn. */
    method Prepare() returns (ok: bool)
      requires Fresh()
      modifies `events, `transport, `messages, `start
      ensures Counted() && Edited() && Recorded() && round == 0
      ensures if ok then AtRoundEnd() && ChosenTransport() == Some(transport) && events == [] else Aborted() && Explained()
    {
      hide After, CountStarts, History, Tallied, Observe, TextOnly, InsertAt, Plain, InjectSnapshot, Streak, Charge;
      hide CALL_LIMIT, REPEAT_LIMIT, BAD_IDS, ROUND_LIMIT, NATIVE_DISABLED, VerdictAt, AllGo, Ended;
      hide RequestsOk, LogsAnswer, Followed, Shown, Blocks, Traces, Carries, Tracked, Batches, Signatures, LastUser;
      NothingHappened();
      start := messages;
      NothingRecorded(registry, settings.enabledTools, script, transport, start, settings.unfinishedPrompt);
      var chosen := ChosenTransport();
      if chosen.None? {
        Fail(NATIVE_DISABLED);
        return false;
      }
      PutPrompt(chosen.value);
      return true;
    }

    method PutPrompt(chosen: Transport)
      requires Fresh() && ChosenTransport() == Some(chosen)
      modifies `transport, `messages, `start
      ensures Recorded() && AtRoundEnd() && transport == chosen
    {
      hide After, CountStarts, History, Tallied, Observe, TextOnly, InsertAt, Plain, InjectSnapshot, Streak, Charge;
      hide RequestsOk, LogsAnswer, Followed, Shown, Blocks, Tracked, Batches, Signatures, LastUser;
      NothingHappened();
      transport := chosen;
      var prompt := settings.harnessPrompt + (if transport.Xml? then "\n\n" + settings.protocolPrompt else "");
      HarnessIsText(messages, prompt);
      messages := InsertAt(messages, LastUser(messages), Plain(System, prompt));
      start := messages;
      NothingRecorded(registry, settings.enabledTools, script, transport, start, settings.unfinishedPrompt);
    }

    function ChosenTransport(): Option<Transport> {
      match settings.transport
      case XmlOnly => Some(Xml)
      case Auto => Some(if nativeSupported then Native else Xml)
      case NativeOnly => if nativeSupported then Some(Native) else None
    }

    lemma NothingHappened()
      ensures After([]) == Some(START)
    {
    }

    /** Opens a round: the event, and the request with exactly one snapshot laid over a copy of the context. */
    method BeginRound()
      requires AtRoundEnd() && Counted() && Recorded()
      modifies `round, `events, `sent, `seen
      ensures |sent| == |seen| == round
      ensures events == old(events) + [RoundStarted(RunState(round, Charge(batches), Running, workspace))]
      ensures round == old(round) + 1 && Watched(Idle(false, false)) && Counted() && Recorded()
      ensures sent == old(sent) + [InjectSnapshot(messages, workspace, round == 1)] && seen == old(seen) + [workspace]
    {
      hide After, CountStarts, Tallied, RequestsOk, LogsAnswer, TextOnly, InjectSnapshot, Blocks, Streak, Charge,
        Shown;
      hide RoundLeaves, Batches, Signatures;
      round := round + 1;
      Emit(RoundStarted(State()));
      var roundRequest := InjectSnapshot(messages, workspace, round == 1);
      RequestsGrow(sent, seen, start, logs, transport, settings.unfinishedPrompt, workspace);
      sent, seen := sent + [roundRequest], seen + [workspace];
    }

    /** One iteration of the round loop. */
    method RunRound() returns (done: bool)
      requires AtRoundEnd() && Counted() && Edited() && Recorded() && WellBuilt(registry) && round < settings.maxRounds
      modifies `round, `events, `sent, `seen, `status, `workspace, `texts, `edits, `messages, `logs, `totalCalls, `toolCalls,
        `batches, `signatures, `previousSignature, `identicalRounds, `executed
      ensures Counted() && Edited() && Recorded() && round <= settings.maxRounds
      ensures Before(events, done) == old(events) + RoundTrace(registry, settings, script, transport, old(|logs|))
      ensures var v := VerdictAt(registry, settings, script, transport, old(|logs|));
              if done then logs == old(logs) && (Aborted() || Completed()) && Ruled(v)
              else v == Goes && AtRoundEnd() && round == old(round) + 1
    {
      hide After, CountStarts, History, ByteLen, Blank, Streak, WellBuilt, Blocks, RoundTrace, VerdictAt, Tallied,
        Tracked;
      hide RequestsOk, LogsAnswer, Observe, TextOnly, Ended, Followed, Shown, Batches, Signatures, Aborted,
        Completed;
      if TurnAt(script, round).stopBefore {
        StoppedBefore(registry, settings, script, transport, round);
        Stop();
        return true;
      }
      done := OpenRound(TurnAt(script, round));
    }

    /** An iteration that is not stopped before it begins. */
    method OpenRound(turn: RoundScript) returns (done: bool)
      requires turn == TurnAt(script, round) && !turn.stopBefore
      requires AtRoundEnd() && Counted() && Edited() && Recorded() && WellBuilt(registry) && round < settings.maxRounds
      modifies `round, `events, `sent, `seen, `status, `workspace, `texts, `edits, `messages, `logs, `totalCalls, `toolCalls,
        `batches, `signatures, `previousSignature, `identicalRounds, `executed
      ensures Counted() && Edited() && Recorded() && round <= settings.maxRounds
      ensures Before(events, done) == old(events) + RoundTrace(registry, settings, script, transport, old(|logs|))
      ensures var v := VerdictAt(registry, settings, script, transport, old(|logs|));
              if done then logs == old(logs) && (Aborted() || Completed()) && Ruled(v)
              else v == Goes && AtRoundEnd() && round == old(round) + 1
    {
      hide After, CountStarts, History, ByteLen, Blank, Charge, Sum, Streak, WellBuilt, InjectSnapshot, RoundBlock,
        Blocks;
      hide Tallied, RequestsOk, LogsAnswer, ResultsAnswer, Observe, TextOnly, Ended, Gather, Interpret, Followed,
        Shown;
      hide ReadVerdict, AdmittedVerdict, Asked, Batches, Signatures, ConverseTrace, Tracked, Aborted, Completed;
      hide VerdictAt, RoundVerdict, RoundTrace;
      OpenedRound(registry, settings, script, transport, round);
      BeginRound();
      if turn.openError.Some? {
        Fail(turn.openError.value);
        return true;
      }
      done := Converse(turn);
    }

    /** The stream of a round, and what follows it. */
    method Converse(turn: RoundScript) returns (done: bool)
      requires 0 < round <= settings.maxRounds && turn == TurnAt(script, round - 1)
      requires !turn.stopBefore && turn.openError.None?
      requires Watched(Idle(false, false)) && WellBuilt(registry)
      requires Counted() && Edited() && Recorded() && batches == Batches(script, transport, |logs|)
      requires signatures == Signatures(script, transport, |logs|)
      requires executed == |signatures| && status == Running && |sent| == |seen| == round == |logs| + 1
      requires workspace == Shown(registry, settings.enabledTools, script, transport, |logs|)
      requires messages == start + Blocks(logs, transport, settings.unfinishedPrompt)
      modifies `events, `status, `workspace, `texts, `edits, `messages, `logs, `totalCalls, `toolCalls, `batches,
        `signatures, `previousSignature, `identicalRounds, `executed
      ensures Counted() && Edited() && Recorded()
      ensures Before(events, done) == old(events) + ConverseTrace(
                registry, settings, turn, transport, old(workspace), old(batches), old(signatures))
      ensures var v := RoundVerdict(registry, settings, turn, transport, old(workspace), old(batches), old(signatures));
              if done then logs == old(logs) && (Aborted() || Completed()) && Ruled(v) else v == Goes && AtRoundEnd()
    {
      hide After, CountStarts, History, ByteLen, Blank, Charge, Sum, Streak, WellBuilt, RoundBlock, Blocks;
      hide Tallied, RequestsOk, LogsAnswer, ResultsAnswer, Observe, TextOnly, Ended, Gather, Interpret, Followed,
        Shown;
      hide ReadVerdict, AdmittedVerdict, Asked, Batches, Signatures, Carries, StreamTrace, AdmittedTrace, Tracked,
        Aborted, Completed, Recorded, Edited, AtRoundEnd;
      var working, calls, halted := StreamRound(turn);
      if halted {
        return true;
      }
      AskedIs(turn, transport, working, calls);
      done := Process(turn, working, calls);
    }

    lemma IdleIsBetween()
      requires Watched(Idle(false, false))
      ensures Between()
    {
      hide After;
    }

    /** What follows the stream: check the ids, charge the calls, then act on them. */
    method Process(turn: RoundScript, working: string, calls: seq<ToolCall>) returns (done: bool)
      requires 0 < round && turn == TurnAt(script, round - 1)
      requires Interpret(Gather(turn.items), transport) == Result.Ok(Gathered(working, calls))
      requires Watched(Idle(false, false)) && 0 < round <= settings.maxRounds && WellBuilt(registry)
      requires Counted() && Edited() && Recorded() && batches == Batches(script, transport, |logs|)
      requires signatures == Signatures(script, transport, |logs|)
      requires executed == |signatures| && status == Running && |sent| == |seen| == round == |logs| + 1
      requires workspace == Shown(registry, settings.enabledTools, script, transport, |logs|)
      requires messages == start + Blocks(logs, transport, settings.unfinishedPrompt)
      modifies `events, `status, `workspace, `texts, `edits, `messages, `logs, `totalCalls, `toolCalls, `batches,
        `signatures, `previousSignature, `identicalRounds, `executed
      ensures Counted() && Edited() && Recorded()
      ensures Before(events, done) == old(events) + AdmittedTrace(
                registry, settings, old(workspace), calls, turn.tools, old(batches), old(signatures))
      ensures var v := AdmittedVerdict(registry, settings, old(workspace), calls, turn.tools, old(batches), old(signatures));
              if done then logs == old(logs) && (Aborted() || Completed()) && Ruled(v) else v == Goes && AtRoundEnd()
    {
      hide After, CountStarts, History, ByteLen, Blank, WellBuilt, Blocks, Tallied, RequestsOk, LogsAnswer, Observe;
      hide Charge, Streak, ValidIds, TextOnly, Ended, Gather, Interpret, Followed, Shown, RoundLeaves, CallsVerdict,
        Signature, ActTrace, Tracked, Aborted, Completed, Watched, Idle, Between, Recorded, Edited, AtRoundEnd;
      hide CALL_LIMIT, REPEAT_LIMIT, BAD_IDS, ROUND_LIMIT, NATIVE_DISABLED;
      IdleIsBetween();
      var valid := CheckIds(calls);
      if !valid {
        Fail(BAD_IDS);
        return true;
      }
      done := ActIfAdmitted(turn, working, calls);
    }

    method ActIfAdmitted(turn: RoundScript, working: string, calls: seq<ToolCall>) returns (done: bool)
      requires ValidIds(calls) && 0 < round && turn == TurnAt(script, round - 1)
      requires Interpret(Gather(turn.items), transport) == Result.Ok(Gathered(working, calls))
      requires Watched(Idle(false, false)) && 0 < round <= settings.maxRounds && WellBuilt(registry)
      requires Counted() && Edited() && Recorded() && batches == Batches(script, transport, |logs|)
      requires signatures == Signatures(script, transport, |logs|)
      requires executed == |signatures| && status == Running && |sent| == |seen| == round == |logs| + 1
      requires workspace == Shown(registry, settings.enabledTools, script, transport, |logs|)
      requires messages == start + Blocks(logs, transport, settings.unfinishedPrompt)
      modifies `events, `status, `workspace, `texts, `edits, `messages, `logs, `totalCalls, `toolCalls, `batches,
        `signatures, `previousSignature, `identicalRounds, `executed
      ensures Counted() && Edited() && Recorded()
      ensures Before(events, done) == old(events) + AdmittedTrace(
                registry, settings, old(workspace), calls, turn.tools, old(batches), old(signatures))
      ensures var v := AdmittedVerdict(registry, settings, old(workspace), calls, turn.tools, old(batches), old(signatures));
              if done then logs == old(logs) && (Aborted() || Completed()) && Ruled(v) else v == Goes && AtRoundEnd()
    {
      hide After, CountStarts, History, ByteLen, Blank, WellBuilt, Blocks, Tallied, RequestsOk, LogsAnswer, Observe;
      hide Charge, Streak, ValidIds, TextOnly, Ended, Gather, Interpret, Followed, Shown, RoundLeaves, CallsVerdict,
        Signature, ActTrace, Tracked, Aborted, Completed, Watched, Idle, Between, Recorded, Edited, AtRoundEnd, Batches, Signatures, GuardVerdict, Ruled;
      hide CALL_LIMIT, REPEAT_LIMIT, BAD_IDS, ROUND_LIMIT, NATIVE_DISABLED;
      AskedGrows(script, transport, |logs|, working, calls);
      IdleIsBetween();
      var halted := Admit(calls);
      if halted {
        return true;
      }
      done := Act(working, calls, turn.tools);
    }

    /** The rest of a round whose calls were admitted: execute, commit, or append to the context. */
    method Act(working: string, calls: seq<ToolCall>, tools: seq<ToolTurn>) returns (done: bool)
      requires Watched(Idle(false, false)) && 0 < round <= settings.maxRounds && WellBuilt(registry)
      requires Edited() && Recorded() && executed == |signatures| && status == Running
      requires |sent| == |seen| == round == |logs| + 1
      requires workspace == Shown(registry, settings.enabledTools, script, transport, |logs|)
      requires Interpret(Gather(TurnAt(script, round - 1).items), transport) == Result.Ok(Gathered(working, calls))
      requires messages == start + Blocks(logs, transport, settings.unfinishedPrompt)
      requires RoomFor(|calls|)
      requires tools == TurnAt(script, round - 1).tools
      requires batches == Batches(script, transport, round) && signatures == Signatures(script, transport, round)
      requires toolCalls == totalCalls
      modifies `events, `status, `workspace, `texts, `edits, `messages, `logs
      ensures Counted() && Edited() && Recorded()
      ensures Before(events, done) == old(events) + ActTrace(registry, settings, old(workspace), calls, tools)
      ensures var v := CallsVerdict(registry, settings.enabledTools, old(workspace), calls, tools);
              if done then logs == old(logs) && (Aborted() || Completed()) && Ruled(v) else v == Goes && AtRoundEnd()
    {
      hide After, CountStarts, History, ByteLen, Blank, WellBuilt, RoundBlock, Blocks, Tallied, RequestsOk,
        LogsAnswer;
      hide ResultsAnswer, Observe, Charge, Streak, RunCalls, CallsTrace, CommitResult, TextOnly, Tracked, Aborted,
        Watched, Idle, Between, Recorded, Edited, AtRoundEnd, Ended, Followed, RoundLeaves, Gather, Interpret,
        Shown, Zip, RejectedResult, Batches, Signatures;
      hide CALL_LIMIT, REPEAT_LIMIT, BAD_IDS, ROUND_LIMIT, NATIVE_DISABLED;
      ghost var starts := CountStarts(events) + |calls|;
      var results, pending, halted := ExecuteCalls(calls, tools);
      FewerStarts(batches, signatures, executed, starts, settings, CountStarts(events));
      if halted {
        return true;
      }
      if pending.Some? {
        var result, finished := Commit(calls[|results|], pending.value);
        if finished {
          return true;
        }
        results := results + [result];
      }
      Append(working, calls, results);
      return false;
    }

    /** Appends the round to the context. */
    method Append(working: string, calls: seq<ToolCall>, results: seq<ToolResult>)
      requires |results| <= |calls| && forall i :: 0 <= i < |results| ==> Answers(results[i], calls[i])
      requires Recorded() && messages == start + Blocks(logs, transport, settings.unfinishedPrompt)
      requires Between() && executed == |signatures| && status == Running
      requires batches == Batches(script, transport, round) && signatures == Signatures(script, transport, round)
      requires toolCalls == totalCalls
      requires |sent| == |seen| == round == |logs| + 1 <= settings.maxRounds
      requires Interpret(Gather(TurnAt(script, |logs|).items), transport) == Result.Ok(Gathered(working, calls))
      requires var ran := RunCalls(registry, settings.enabledTools,
                 Shown(registry, settings.enabledTools, script, transport, |logs|), calls,
                 TurnAt(script, |logs|).tools, 0, false);
               && !ran.halted && workspace == ran.workspace
               && results == (if ran.pending.None? then ran.results
                              else ran.results + [RejectedResult(calls[|ran.results|], "empty_response")])
      modifies `messages, `logs
      ensures Recorded() && AtRoundEnd()
    {
      hide RoundBlock, Blocks, RequestsOk, LogsAnswer, RoundLeaves, Shown, TextOnly, After, RunCalls, Gather,
        Interpret;
      RoundLeavesIs(registry, settings.enabledTools, TurnAt(script, |logs|), transport,
                    Shown(registry, settings.enabledTools, script, transport, |logs|), working, calls, results);
      ShownNext(registry, settings.enabledTools, script, transport, |logs|);
      messages := AppendRound(messages, working, calls, results, transport, settings.unfinishedPrompt);
      ghost var log := RoundLog(working, Zip(calls, results));
      BlocksSnoc(logs, log, transport, settings.unfinishedPrompt);
      LogsGrow(sent, seen, start, logs, transport, settings.unfinishedPrompt, log);
      logs := logs + [log];
    }
  }

  lemma StoppedBefore(registry: Registry, settings: Settings, script: seq<RoundScript>, transport: Transport, k: nat)
    requires TurnAt(script, k).stopBefore
    ensures VerdictAt(registry, settings, script, transport, k) == Stops
    ensures RoundTrace(registry, settings, script, transport, k) == []
  {
  }

  lemma OpenedRound(registry: Registry, settings: Settings, script: seq<RoundScript>, transport: Transport, k: nat)
    requires !TurnAt(script, k).stopBefore
    ensures var turn, ws := TurnAt(script, k), Shown(registry, settings.enabledTools, script, transport, k);
            var batches, signatures := Batches(script, transport, k), Signatures(script, transport, k);
            var begun := [RoundStarted(RunState(k + 1, Charge(batches), Running, ws))];
            && VerdictAt(registry, settings, script, transport, k) ==
               (if turn.openError.Some? then Fails(turn.openError.value)
                else RoundVerdict(registry, settings, turn, transport, ws, batches, signatures))
            && RoundTrace(registry, settings, script, transport, k) ==
               (if turn.openError.Some? then begun
                else begun + ConverseTrace(registry, settings, turn, transport, ws, batches, signatures))
  {
    hide ConverseTrace, Shown, Batches, Signatures, Charge, ReadVerdict, AdmittedVerdict;
  }

  lemma AskedIs(turn: RoundScript, transport: Transport, working: string, calls: seq<ToolCall>)
    requires Interpret(Gather(turn.items), transport) == Result.Ok(Gathered(working, calls))
    ensures Asked(turn, transport) == calls
  {
  }

  /** What the script asked for, one round on. */
  lemma AskedGrows(script: seq<RoundScript>, transport: Transport, k: nat, working: string, calls: seq<ToolCall>)
    requires Interpret(Gather(TurnAt(script, k).items), transport) == Result.Ok(Gathered(working, calls))
    ensures Batches(script, transport, k + 1) == Batches(script, transport, k) + [|calls|]
    ensures Signatures(script, transport, k + 1) == Signatures(script, transport, k) + [Signature(calls)]
  {
    hide Signature;
    AskedIs(TurnAt(script, k), transport, working, calls);
  }

  lemma TracesGrow(registry: Registry, settings: Settings, script: seq<RoundScript>, transport: Transport, n: nat)
    ensures Traces(registry, settings, script, transport, n + 1) ==
            Traces(registry, settings, script, transport, n) + RoundTrace(registry, settings, script, transport, n)
  {
    hide RoundTrace;
  }

  lemma NothingRuled(registry: Registry, settings: Settings, script: seq<RoundScript>, transport: Transport)
    ensures AllGo(registry, settings, script, transport, 0) && Traces(registry, settings, script, transport, 0) == []
  {
  }

  lemma AllGoOn(registry: Registry, settings: Settings, script: seq<RoundScript>, transport: Transport, n: nat)
    requires AllGo(registry, settings, script, transport, n) && VerdictAt(registry, settings, script, transport, n) == Goes
    ensures AllGo(registry, settings, script, transport, n + 1)
  {
    hide VerdictAt;
  }

  lemma ShownNext(
    registry: Registry, enabled: set<string>, script: seq<RoundScript>, transport: Transport, k: nat)
    ensures Shown(registry, enabled, script, transport, k + 1) ==
            RoundLeaves(
              registry, enabled, TurnAt(script, k), transport, Shown(registry, enabled, script, transport, k)).workspace
  {
    hide RoundLeaves;
  }

  lemma RoundLeavesIs(
    registry: Registry, enabled: set<string>, turn: RoundScript, transport: Transport, ws: Workspace,
    working: string, calls: seq<ToolCall>, results: seq<ToolResult>)
    requires Interpret(Gather(turn.items), transport) == Result.Ok(Gathered(working, calls))
    requires var ran := RunCalls(registry, enabled, ws, calls, turn.tools, 0, false);
             if ran.pending.None? then results == ran.results
             else results == ran.results + [RejectedResult(calls[|ran.results|], "empty_response")]
    ensures var ran := RunCalls(registry, enabled, ws, calls, turn.tools, 0, false);
            RoundLeaves(registry, enabled, turn, transport, ws) ==
            RoundEnd(RoundLog(working, Zip(calls, results)), ran.workspace)
  {
    hide Interpret, Gather, RunCalls;
    var ran := RunCalls(registry, enabled, ws, calls, turn.tools, 0, false);
    assert ran.results + [] == ran.results;
  }

  lemma ExecutionOfSound(registry: Registry, enabled: set<string>, call: ToolCall, answer: ToolAnswer)
    requires WellBuilt(registry)
    ensures Sound(call, ExecutionOf(registry, enabled, call, answer))
  {
    hide Execute, WellBuilt;
    if answer.Answered? {
      ExecuteSound(registry, call, enabled, answer.outcome);
    }
  }

  /** After some of the calls: their results and events, and those of the rest, make the whole. */
  ghost predicate OnTrack(
    registry: Registry, settings: Settings, goal: Ran, trace: seq<Event>, ws: Workspace, calls: seq<ToolCall>,
    tools: seq<ToolTurn>, at: nat, failed: bool, results: seq<ToolResult>, events: seq<Event>)
  {
    var rest := RunCalls(registry, settings.enabledTools, ws, calls, tools, at, failed);
    && goal == rest.(results := results + rest.results)
    && trace == events + CallsTrace(registry, settings, ws, calls, tools, at, failed)
  }

  lemma OneRun(
    registry: Registry, enabled: set<string>, goal: Ran, ws: Workspace, calls: seq<ToolCall>,
    tools: seq<ToolTurn>, at: nat, failed: bool, results: seq<ToolResult>)
    requires calls != []
    requires var rest := RunCalls(registry, enabled, ws, calls, tools, at, failed);
             goal == rest.(results := results + rest.results)
    ensures var s := CallStep(registry, enabled, ws, calls[0], ToolAt(tools, at), failed);
            match s.step
            case Halted => goal.halted
            case Break(result) => goal == Ran(s.workspace, results + [result], None, false)
            case Pending(response) => goal == Ran(s.workspace, results, Some(response), false)
            case Next(result) =>
              var rest := RunCalls(registry, enabled, s.workspace, calls[1..], tools, at + 1, failed || !result.status.Ok?);
              goal == rest.(results := results + [result] + rest.results)
  {
    hide CallStep, ToolAt;
    var s := CallStep(registry, enabled, ws, calls[0], ToolAt(tools, at), failed);
    if s.step.Next? {
      var rest := RunCalls(
        registry, enabled, s.workspace, calls[1..], tools, at + 1, failed || !s.step.result.status.Ok?);
      assert results + ([s.step.result] + rest.results) == results + [s.step.result] + rest.results;
    }
  }

  lemma OneCall(
    registry: Registry, settings: Settings, goal: Ran, trace: seq<Event>, ws: Workspace, calls: seq<ToolCall>,
    tools: seq<ToolTurn>, at: nat, failed: bool, results: seq<ToolResult>, events: seq<Event>, after: seq<Event>)
    requires calls != []
    requires OnTrack(registry, settings, goal, trace, ws, calls, tools, at, failed, results, events)
    requires after == events + CallTrace(registry, settings, ws, calls[0], ToolAt(tools, at), failed)
    ensures var s := CallStep(registry, settings.enabledTools, ws, calls[0], ToolAt(tools, at), failed);
            match s.step
            case Halted => goal.halted && trace == after
            case Break(result) => goal == Ran(s.workspace, results + [result], None, false) && trace == after
            case Pending(response) => goal == Ran(s.workspace, results, Some(response), false) && trace == after
            case Next(result) =>
              OnTrack(registry, settings, goal, trace, s.workspace, calls[1..], tools, at + 1,
                      failed || !result.status.Ok?, results + [result], after)
  {
    hide CallStep, CallTrace, RunCalls, ToolAt;
    OneRun(registry, settings.enabledTools, goal, ws, calls, tools, at, failed, results);
  }

  lemma BeginsOnTrack(
    registry: Registry, settings: Settings, ws: Workspace, calls: seq<ToolCall>, tools: seq<ToolTurn>, events: seq<Event>)
    ensures OnTrack(registry, settings, RunCalls(registry, settings.enabledTools, ws, calls, tools, 0, false),
                    events + CallsTrace(registry, settings, ws, calls, tools, 0, false),
                    ws, calls, tools, 0, false, [], events)
  {
    hide RunCalls, CallsTrace;
    var rest := RunCalls(registry, settings.enabledTools, ws, calls, tools, 0, false);
    assert [] + rest.results == rest.results;
  }

  lemma EndsOnTrack(
    registry: Registry, settings: Settings, goal: Ran, trace: seq<Event>, ws: Workspace, tools: seq<ToolTurn>, at: nat,
    failed: bool, results: seq<ToolResult>, events: seq<Event>)
    requires OnTrack(registry, settings, goal, trace, ws, [], tools, at, failed, results, events)
    ensures goal == Ran(ws, results, None, false) && trace == events
  {
  }

  /** What ends the stream ends it for good. */
  lemma {:induction false} VerdictSticks(items: seq<StreamItem>, i: nat, transport: Transport)
    requires i <= |items|
    ensures !StreamVerdict(items[..i], transport).Goes? ==>
              && StreamVerdict(items, transport) == StreamVerdict(items[..i], transport)
              && StreamTrace(items, transport) == StreamTrace(items[..i], transport)
    decreases |items| - i
  {
    hide ByteLen, Gather;
    if i < |items| {
      VerdictSticks(items, i + 1, transport);
      assert items[..i + 1][..i] == items[..i];
    } else {
      assert items[..i] == items;
    }
  }

  lemma StreakSnoc(signatures: seq<string>, signature: string)
    ensures Streak(signatures + [signature]) ==
            if signature != "" && signatures != [] && signatures[|signatures| - 1] == signature
            then Streak(signatures) + 1 else 1
  {
    assert (signatures + [signature])[..|signatures|] == signatures;
  }

  lemma NothingRecorded(
    registry: Registry, enabled: set<string>, script: seq<RoundScript>, transport: Transport,
    start: seq<ChatMessage>, unfinished: string)
    ensures RequestsOk([], [], start, [], transport, unfinished) && LogsAnswer([])
    ensures Followed(registry, enabled, script, transport, [], [])
    ensures Shown(registry, enabled, script, transport, 0) == Workspace("", 0)
    ensures start == start + Blocks([], transport, unfinished)
    ensures Batches(script, transport, 0) == [] && Signatures(script, transport, 0) == []
  {
  }

  lemma HarnessIsText(messages: seq<ChatMessage>, prompt: string)
    ensures TextOnly(messages) ==> TextOnly(InsertAt(messages, LastUser(messages), Plain(System, prompt)))
  {
    if TextOnly(messages) {
      TextOnlyInsert(messages, LastUser(messages), Plain(System, prompt));
    }
  }

  lemma HistoryFits(ws: Workspace, texts: seq<string>, edits: seq<Edit>)
    requires History(ws, texts, edits)
    ensures ByteLen(ws.text) <= MAX_WORKSPACE_BYTES && ws.revision == RevisionOf(|edits|)
  {
  }
}
