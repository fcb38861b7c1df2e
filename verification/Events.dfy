/** The events a run emits, and the automaton every event sequence must satisfy. */
module Events {
  import opened Text
  import opened Protocol
  import opened Workspaces

  datatype RunStatus = Running | Completed | StoppedRun

  datatype RunState = RunState(round: nat, toolCalls: nat, status: RunStatus, workspace: Workspace)

  datatype Event =
    | RoundStarted(run: RunState)
    | ToolStarted(call: ToolCall)
    | ToolFinished(result: ToolResult)
    | StatusShown(message: string)
    | Usage(inputTokens: nat, outputTokens: nat)
    | WorkspaceChanged(revision: nat)
    | Finished(response: string, run: RunState)
    | Stopped(run: RunState)
    | Failed(message: string)

  predicate Terminal(e: Event) {
    e.Finished? || e.Stopped? || e.Failed?
  }

  /**
   * What an observer remembers: the round, the Tool call that is open, whether this round's finish call has been
   * answered, whether Tools have started in this round, the workspace revision an announcement is owed for, and the end.
   */
  datatype Watch = Watch(
    round: nat,
    open: Option<ToolCall>,
    fenced: bool,
    toolsBegun: bool,
    owed: bool,
    revision: nat,
    ended: bool)

  const START := Watch(0, None, false, false, false, 0, false)

  function Observe(w: Watch, e: Event): Option<Watch> {
    if w.ended then None
    else if e.Stopped? then (if w.owed then None else Some(w.(ended := true)))
    else if w.owed then
      (if e.WorkspaceChanged? && w.open.None? && e.revision == NextRevision(w.revision)
       then Some(w.(owed := false, revision := e.revision)) else None)
    else
      match w.open
      case Some(call) =>
        (match e
         case ToolFinished(result) =>
           if result.callId != call.id || result.name != call.name then None
           else Some(w.(
             open := None,
             fenced := call.name == FINISH,
             owed := IsResponseControl(call.name) && result.status.Ok?))
         case _ => None)
      case None =>
        (match e
         case RoundStarted(run) =>
           if run.round == w.round + 1 then Some(w.(round := run.round, fenced := false, toolsBegun := false)) else None
         case ToolStarted(call) =>
           if 0 < w.round && !w.fenced then Some(w.(open := Some(call), toolsBegun := true)) else None
         case StatusShown(_) => if w.toolsBegun && !w.fenced then Some(w) else None
         case Usage(_, _) => if 0 < w.round && !w.toolsBegun then Some(w) else None
         case Finished(_, _) => if w.fenced then Some(w.(ended := true)) else None
         case Failed(_) => Some(w.(ended := true))
         case _ => None)
  }

  /** The observer's state after a whole sequence; none when some event is out of place. */
  function After(events: seq<Event>): Option<Watch> {
    if events == [] then Some(START)
    else
      match After(events[..|events| - 1])
      case None => None
      case Some(w) => Observe(w, events[|events| - 1])
  }

  lemma AfterSnoc(events: seq<Event>, e: Event)
    ensures After(events + [e]) == match After(events) case None => None case Some(w) => Observe(w, e)
  {
    assert (events + [e])[..|events|] == events;
  }

  lemma {:induction false} PrefixesAccepted(events: seq<Event>, n: nat)
    requires n <= |events| && After(events).Some?
    ensures After(events[..n]).Some?
  {
    hide Observe;
    if n < |events| {
      assert events[..|events| - 1][..n] == events[..n];
      PrefixesAccepted(events[..|events| - 1], n);
    } else {
      assert events[..n] == events;
    }
  }

  lemma StepAt(events: seq<Event>, i: nat)
    requires i < |events| && After(events).Some?
    ensures After(events[..i]).Some? && After(events[..i + 1]) == Observe(After(events[..i]).value, events[i])
    ensures After(events[..i + 1]).Some?
  {
    hide Observe;
    PrefixesAccepted(events, i);
    PrefixesAccepted(events, i + 1);
    assert events[..i + 1][..i] == events[..i];
  }

  /** At most one terminal event, and nothing after it; the observer has ended exactly when there is one. */
  lemma {:induction false} TerminalIsLast(events: seq<Event>)
    requires After(events).Some?
    ensures forall i :: 0 <= i < |events| - 1 ==> !Terminal(events[i])
    ensures After(events).value.ended <==> events != [] && Terminal(events[|events| - 1])
  {
    if events != [] {
      var before := events[..|events| - 1];
      TerminalIsLast(before);
      forall i | 0 <= i < |events| - 1
        ensures !Terminal(events[i])
      {
        assert before[i] == events[i];
        if i == |before| - 1 {
          assert !After(before).value.ended;
        }
      }
    }
  }

  lemma StartOpens(w: Watch, e: Event)
    requires e.ToolStarted? && Observe(w, e).Some?
    ensures var next := Observe(w, e).value; next.open == Some(e.call) && !next.owed && !next.ended
  {
  }

  lemma OpenAccepts(w: Watch, e: Event)
    requires w.open.Some? && !w.owed && Observe(w, e).Some?
    ensures e.Stopped? || (e.ToolFinished? && e.result.callId == w.open.value.id && e.result.name == w.open.value.name)
  {
  }

  /** A started Tool is followed by its own result, unless the run is stopped or the sequence ends there. */
  lemma StartedThenFinished(events: seq<Event>, i: nat)
    requires After(events).Some? && i < |events| && events[i].ToolStarted?
    ensures i + 1 < |events| ==>
              events[i + 1].Stopped? ||
              (&& events[i + 1].ToolFinished?
               && events[i + 1].result.callId == events[i].call.id && events[i + 1].result.name == events[i].call.name)
  {
    hide Observe, After;
    StepAt(events, i);
    StartOpens(After(events[..i]).value, events[i]);
    if i + 1 < |events| {
      StepAt(events, i + 1);
      OpenAccepts(After(events[..i + 1]).value, events[i + 1]);
    }
  }

  /** A call is open only right after it was started. */
  lemma OpenOnlyAfterStart(w: Watch, e: Event)
    ensures var next := Observe(w, e);
            next.Some? && !next.value.ended && next.value.open.Some? ==> e.ToolStarted? && next.value.open == Some(e.call)
  {
  }

  lemma FinishNeedsOpen(w: Watch, e: Event)
    requires e.ToolFinished? && Observe(w, e).Some?
    ensures !w.ended && w.open.Some? && w.open.value.id == e.result.callId
  {
  }

  /** Every result answers the call started right before it. */
  lemma FinishedWasStarted(events: seq<Event>, i: nat)
    requires After(events).Some? && i < |events| && events[i].ToolFinished?
    ensures 0 < i && events[i - 1].ToolStarted? && events[i - 1].call.id == events[i].result.callId
  {
    hide Observe, After;
    StepAt(events, i);
    FinishNeedsOpen(After(events[..i]).value, events[i]);
    if i > 0 {
      StepAt(events, i - 1);
      OpenOnlyAfterStart(After(events[..i - 1]).value, events[i - 1]);
    } else {
      assert events[..0] == [];
      NothingYet();
    }
  }

  lemma NothingYet()
    ensures After([]) == Some(START)
  {
  }

  function CountRounds(events: seq<Event>): nat {
    if events == [] then 0
    else CountRounds(events[..|events| - 1]) + if events[|events| - 1].RoundStarted? then 1 else 0
  }

  /** Rounds are numbered 1, 2, 3, … */
  lemma {:induction false} RoundsAreConsecutive(events: seq<Event>)
    requires After(events).Some?
    ensures CountRounds(events) == After(events).value.round
    ensures events != [] && events[|events| - 1].RoundStarted? ==> events[|events| - 1].run.round == CountRounds(events)
  {
    if events != [] {
      RoundsAreConsecutive(events[..|events| - 1]);
    }
  }

  function CountStarts(events: seq<Event>): nat {
    if events == [] then 0
    else CountStarts(events[..|events| - 1]) + if events[|events| - 1].ToolStarted? then 1 else 0
  }

  lemma CountStartsSnoc(events: seq<Event>, e: Event)
    ensures CountStarts(events + [e]) == CountStarts(events) + if e.ToolStarted? then 1 else 0
  {
    assert (events + [e])[..|events|] == events;
  }

  /** After a finish call has been answered, nothing starts before the next round does. */
  lemma {:induction false} NothingAfterFinish(events: seq<Event>, i: nat, j: nat)
    requires After(events).Some? && i < j < |events|
    requires events[i].ToolFinished? && events[i].result.name == FINISH
    requires forall k :: i < k < j ==> !events[k].RoundStarted?
    ensures After(events[..j]).Some? && After(events[..j]).value.fenced && !events[j].ToolStarted?
  {
    StepAt(events, j);
    if i + 1 < j {
      NothingAfterFinish(events, i, j - 1);
      StepAt(events, j - 1);
    } else {
      StepAt(events, i);
    }
  }

  lemma OwedAfterEdit(w: Watch, e: Event)
    requires e.ToolFinished? && IsResponseControl(e.result.name) && e.result.status.Ok? && Observe(w, e).Some?
    ensures var next := Observe(w, e).value; next.owed && !next.ended && next.open.None? && next.revision == w.revision
  {
  }

  lemma OwedIsPaid(w: Watch, e: Event)
    requires w.owed && Observe(w, e).Some?
    ensures e.WorkspaceChanged? && e.revision == NextRevision(w.revision)
  {
  }

  /** An accepted response edit is announced at once, with the revision that follows the last announced one. */
  lemma AnnouncedAtOnce(events: seq<Event>, i: nat)
    requires After(events).Some? && i + 1 < |events|
    requires events[i].ToolFinished? && IsResponseControl(events[i].result.name) && events[i].result.status.Ok?
    ensures After(events[..i]).Some?
    ensures events[i + 1].WorkspaceChanged? && events[i + 1].revision == NextRevision(After(events[..i]).value.revision)
  {
    hide Observe, After;
    StepAt(events, i);
    OwedAfterEdit(After(events[..i]).value, events[i]);
    StepAt(events, i + 1);
    OwedIsPaid(After(events[..i + 1]).value, events[i + 1]);
  }
}
