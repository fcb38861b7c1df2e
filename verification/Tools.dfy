/** The Tool registry and the built-in Tools that control a run. */
module Tools {
  import opened Text
  import opened Json
  import opened Protocol
  import opened Workspaces
  import Utf8

  const MAX_TOOL_ARGUMENT_BYTES := 65536
  const MAX_TOOL_RESULT_BYTES := 65536
  const MAX_STATUS_MESSAGE_BYTES := 4096
  const MAX_PATCH_OPS := 16
  const MAX_PATCH_SEARCH_BYTES := 8192
  const MAX_PATCH_REPLACE_BYTES := 8192

  datatype ToolControl =
    | NoControl
    | ShowStatus(message: string, userVisible: bool)
    | ReplaceResponse(text: string)
    | PatchResponse(revision: nat, ops: seq<PatchOp>)
    | Finish(response: Option<string>)

  datatype Execution = Execution(result: ToolResult, control: ToolControl)

  /** Which code runs for a name. Every other Tool (random, math, MCP) reports a result and controls nothing. */
  datatype Handler = StatusHandler | FinishHandler | ReplaceHandler | PatchHandler | Capability

  datatype Entry = Entry(required: bool, selected: bool, handler: Handler)

  type Registry = map<string, Entry>

  /** What a capability Tool answers. */
  datatype Outcome = Outcome(status: Status, output: Json, errorCode: Option<string>)

  function RejectedResult(call: ToolCall, code: string): ToolResult {
    ToolResult(call.id, call.name, Rejected, Obj([]), Some(code))
  }

  function RejectedExecution(call: ToolCall, code: string): Execution {
    Execution(RejectedResult(call, code), NoControl)
  }

  function OkExecution(call: ToolCall, output: Json, control: ToolControl): Execution {
    Execution(ToolResult(call.id, call.name, Protocol.Ok, output, None), control)
  }

  function RunStatusTool(call: ToolCall): Execution {
    var raw := AsStr(Get(call.arguments, "message"));
    var message := if raw.Some? then Trim(raw.value) else "";
    var given := AsStr(Get(call.arguments, "visibility"));
    var visibility := if given.Some? then given.value else "internal";
    if message == "" || ByteLen(message) > MAX_STATUS_MESSAGE_BYTES then RejectedExecution(call, "invalid_arguments")
    else if visibility != "internal" && visibility != "user" then RejectedExecution(call, "invalid_arguments")
    else OkExecution(call, Obj([Field("accepted", Bool(true))]), ShowStatus(message, visibility == "user"))
  }

  function RunFinishTool(call: ToolCall): Execution {
    var given := Get(call.arguments, "response");
    if given.None? || given.value.Null? then OkExecution(call, Obj([]), Finish(None))
    else
      var text := if given.value.Str? then Trim(given.value.s) else "";
      if text == "" || ByteLen(text) > MAX_WORKSPACE_BYTES then RejectedExecution(call, "invalid_arguments")
      else OkExecution(call, Obj([]), Finish(Some(text)))
  }

  function RunReplaceTool(call: ToolCall): Execution {
    match AsStr(Get(call.arguments, "text"))
    case None => RejectedExecution(call, "invalid_arguments")
    case Some(text) =>
      if ByteLen(text) > MAX_WORKSPACE_BYTES then RejectedExecution(call, "response_too_large")
      else OkExecution(call, Obj([]), ReplaceResponse(text))
  }

  function ReadOp(item: Json): Option<PatchOp> {
    match (AsStr(Get(item, "search")), AsStr(Get(item, "replace")))
    case (Some(search), Some(replace)) => if search == "" then None else Some(PatchOp(search, replace))
    case _ => None
  }

  function ReadOps(items: seq<Json>): Option<seq<PatchOp>> {
    if items == [] then Some([])
    else
      match (ReadOp(items[0]), ReadOps(items[1..]))
      case (Some(op), Some(ops)) => Some([op] + ops)
      case _ => None
  }

  function SearchBytes(ops: seq<PatchOp>): nat {
    if ops == [] then 0 else ByteLen(ops[0].search) + SearchBytes(ops[1..])
  }

  function ReplaceBytes(ops: seq<PatchOp>): nat {
    if ops == [] then 0 else ByteLen(ops[0].replace) + ReplaceBytes(ops[1..])
  }

  function RunPatchTool(call: ToolCall): Execution {
    var revision := AsU64(Get(call.arguments, "revision"));
    var items := Get(call.arguments, "operations");
    if revision.None? || items.None? || !items.value.Arr? then RejectedExecution(call, "invalid_arguments")
    else if items.value.items == [] then RejectedExecution(call, "empty_patch")
    else if |items.value.items| > MAX_PATCH_OPS then RejectedExecution(call, "too_many_operations")
    else
      match ReadOps(items.value.items)
      case None => RejectedExecution(call, "invalid_arguments")
      case Some(ops) =>
        if SearchBytes(ops) > MAX_PATCH_SEARCH_BYTES || ReplaceBytes(ops) > MAX_PATCH_REPLACE_BYTES
        then RejectedExecution(call, "response_too_large")
        else OkExecution(call, Obj([]), PatchResponse(revision.value, ops))
  }

  /** The patch handler's loop: operations are validated one by one while both byte totals add up. */
  method ReadPatchOps(items: seq<Json>) returns (ops: seq<PatchOp>, searchBytes: nat, replaceBytes: nat, valid: bool)
    ensures valid <==> ReadOps(items).Some?
    ensures valid ==> ops == ReadOps(items).value && searchBytes == SearchBytes(ops) && replaceBytes == ReplaceBytes(ops)
  {
    hide ReadOp, ByteLen;
    ops, searchBytes, replaceBytes, valid := [], 0, 0, true;
    assert items[0..] == items;
    for i := 0 to |items|
      invariant ReadOps(items).Some? <==> ReadOps(items[i..]).Some?
      invariant ReadOps(items).Some? ==> ReadOps(items).value == ops + ReadOps(items[i..]).value
      invariant searchBytes == SearchBytes(ops) && replaceBytes == ReplaceBytes(ops) && valid
    {
      assert items[i..][0] == items[i] && items[i..][1..] == items[i + 1..];
      var op := ReadOp(items[i]);
      if op.None? {
        return ops, searchBytes, replaceBytes, false;
      }
      BytesSnoc(ops, op.value);
      searchBytes := searchBytes + ByteLen(op.value.search);
      replaceBytes := replaceBytes + ByteLen(op.value.replace);
      ops := ops + [op.value];
    }
  }

  lemma {:induction false} BytesSnoc(ops: seq<PatchOp>, op: PatchOp)
    ensures SearchBytes(ops + [op]) == SearchBytes(ops) + ByteLen(op.search)
    ensures ReplaceBytes(ops + [op]) == ReplaceBytes(ops) + ByteLen(op.replace)
  {
    hide ByteLen;
    if ops != [] {
      assert (ops + [op])[1..] == ops[1..] + [op];
      BytesSnoc(ops[1..], op);
    }
  }

  /** `ToolRegistry::execute`: layered checks around the handler. */
  function Execute(registry: Registry, call: ToolCall, enabled: set<string>, outcome: Outcome): Execution {
    if ByteLen(Serialize(call.arguments)) > MAX_TOOL_ARGUMENT_BYTES then RejectedExecution(call, "arguments_too_large")
    else if call.name !in registry then RejectedExecution(call, "unknown_tool")
    else
      var entry := registry[call.name];
      if !entry.required && !entry.selected && call.name !in enabled then RejectedExecution(call, "disabled_tool")
      else
        var out := Handle(entry.handler, call, outcome);
        if ByteLen(Serialize(out.result.output)) > MAX_TOOL_RESULT_BYTES then RejectedExecution(call, "result_too_large")
        else out
  }

  function Handle(handler: Handler, call: ToolCall, outcome: Outcome): Execution {
    match handler
    case StatusHandler => RunStatusTool(call)
    case FinishHandler => RunFinishTool(call)
    case ReplaceHandler => RunReplaceTool(call)
    case PatchHandler => RunPatchTool(call)
    case Capability =>
      Execution(ToolResult(call.id, call.name, outcome.status, outcome.output, outcome.errorCode), NoControl)
  }

  // ---- Building a registry ----

  predicate NameChar(c: char) {
    'a' <= c <= 'z' || '0' <= c <= '9' || c == '_' || c == '.'
  }

  predicate ValidName(name: string) {
    && '.' in name && (forall i :: 0 <= i < |name| ==> NameChar(name[i]))
    && forall i :: 0 <= i < |name| && name[i] == '.' ==> 0 < i < |name| - 1 && name[i - 1] != '.'
  }

  /** `register_owned`: an invalid or taken name is refused. */
  function Register(registry: Registry, name: string, entry: Entry): Option<Registry> {
    if !ValidName(name) || name in registry then None else Some(registry[name := entry])
  }

  function HandlerOf(name: string): Handler {
    if name == FINISH then FinishHandler
    else if name == REPLACE then ReplaceHandler
    else if name == PATCH then PatchHandler
    else if name == UPDATE_STATUS then StatusHandler
    else Capability
  }

  /** Each control handler sits under its own name and nowhere else. */
  predicate WellBuilt(registry: Registry) {
    forall name :: name in registry ==> registry[name].handler == HandlerOf(name)
  }

  const CONTROL_NAMES := {FINISH, REPLACE, PATCH, UPDATE_STATUS}

  /** Capabilities, built in or discovered, added on top of the four control Tools. */
  function RegisterAll(registry: Registry, added: seq<(string, Entry)>): Registry
    decreases |added|
  {
    if added == [] then registry
    else
      var next := Register(registry, added[0].0, added[0].1.(handler := Capability));
      RegisterAll(if next.Some? then next.value else registry, added[1..])
  }

  /** No Tool registered later can take over a control name, so only the finish Tool can ever ask to finish. */
  lemma {:induction false} RegistriesAreWellBuilt(registry: Registry, added: seq<(string, Entry)>)
    requires WellBuilt(registry) && CONTROL_NAMES <= registry.Keys
    ensures WellBuilt(RegisterAll(registry, added)) && registry.Keys <= RegisterAll(registry, added).Keys
    decreases |added|
  {
    hide ValidName;
    if added != [] {
      var next := Register(registry, added[0].0, added[0].1.(handler := Capability));
      RegistriesAreWellBuilt(if next.Some? then next.value else registry, added[1..]);
    }
  }

  /** What the loop may rely on for any execution. */
  predicate Sound(call: ToolCall, e: Execution) {
    && e.result.callId == call.id && e.result.name == call.name
    && (!e.control.NoControl? ==> e.result.status.Ok?)
    && match e.control
       case NoControl => IsResponseControl(call.name) ==> !e.result.status.Ok?
       case ShowStatus(_, _) => call.name == UPDATE_STATUS
       case ReplaceResponse(text) => call.name == REPLACE && ByteLen(text) <= MAX_WORKSPACE_BYTES
       case PatchResponse(_, ops) =>
         call.name == PATCH && 1 <= |ops| <= MAX_PATCH_OPS && forall i :: 0 <= i < |ops| ==> ops[i].search != ""
       case Finish(response) =>
         call.name == FINISH
         && (response.Some? ==> !Blank(response.value) && ByteLen(response.value) <= MAX_WORKSPACE_BYTES)
  }

  lemma {:induction false} ReadOpsShape(items: seq<Json>)
    requires ReadOps(items).Some?
    ensures var ops := ReadOps(items).value;
            |ops| == |items| && forall i :: 0 <= i < |ops| ==> ops[i].search != ""
  {
    if items != [] {
      ReadOpsShape(items[1..]);
    }
  }

  lemma FinishSound(call: ToolCall)
    requires call.name == FINISH
    ensures Sound(call, RunFinishTool(call))
  {
    hide ByteLen, Get, Blank;
    var given := Get(call.arguments, "response");
    if given.Some? && given.value.Str? {
      TrimMeaning(given.value.s);
      TrimMeaning(Trim(given.value.s));
      TrimmedIsTrimmed(given.value.s);
    }
  }

  lemma TrimmedIsTrimmed(s: string)
    ensures Trim(Trim(s)) == Trim(s)
  {
    TrimMeaning(s);
    TrimAround("", Trim(s), "");
    assert "" + Trim(s) + "" == Trim(s);
  }

  lemma PatchSound(call: ToolCall)
    requires call.name == PATCH
    ensures Sound(call, RunPatchTool(call))
  {
    hide ByteLen, Get, ReadOps, SearchBytes, ReplaceBytes;
    var items := Get(call.arguments, "operations");
    if items.Some? && items.value.Arr? && ReadOps(items.value.items).Some? {
      ReadOpsShape(items.value.items);
    }
  }

  /** Whatever the model sends and a capability answers, an execution from a well-built registry is sound. */
  lemma ExecuteSound(registry: Registry, call: ToolCall, enabled: set<string>, outcome: Outcome)
    requires WellBuilt(registry)
    ensures Sound(call, Execute(registry, call, enabled, outcome))
  {
    hide ByteLen, Get, RunFinishTool, RunPatchTool;
    assert FINISH != PATCH && FINISH != REPLACE && FINISH != UPDATE_STATUS && PATCH != REPLACE;
    assert PATCH != UPDATE_STATUS && REPLACE != UPDATE_STATUS;
    if call.name == FINISH {
      FinishSound(call);
    } else if call.name == PATCH {
      PatchSound(call);
    }
  }
}
