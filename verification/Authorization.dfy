/** One-time authorization of `ask` tools, under any interleaving of requests, decisions, timeouts and cancellations. */
module Authorization {
  import opened Text

  datatype Decision = Approved | Denied | Expired

  function Key(run: string, call: string): string {
    run + ":" + call
  }

  predicate NoColon(run: string) {
    ':' !in run
  }

  /** Two calls of runs whose ids have no colon never share a key. */
  lemma KeyInjective(run: string, call: string, run2: string, call2: string)
    requires NoColon(run) && NoColon(run2) && Key(run, call) == Key(run2, call2)
    ensures run == run2 && call == call2
  {
    var k := Key(run, call);
    assert k[|run|] == ':' && k[|run2|] == ':';
    assert forall i :: 0 <= i < |run| ==> k[i] == run[i];
    assert forall i :: 0 <= i < |run2| ==> k[i] == run2[i];
    assert |run| == |run2|;
    assert run == k[..|run|] && run2 == k[..|run|];
    assert call == k[|run| + 1..] && call2 == k[|run| + 1..];
  }

  /** Two runs can share a key at all. */
  ghost predicate KeysMeet(run: string, run2: string) {
    exists call, call2 :: (run, call) != (run2, call2) && Key(run, call) == Key(run2, call2)
  }

  /** Two keys can meet exactly when one run's id goes on where the other's ends, behind a colon. */
  lemma KeysMeetWhen(run: string, run2: string)
    ensures KeysMeet(run, run2) <==> run != run2 && (run + ":" <= run2 || run2 + ":" <= run)
  {
    forall call, call2 | (run, call) != (run2, call2) && Key(run, call) == Key(run2, call2)
      ensures run != run2 && (run + ":" <= run2 || run2 + ":" <= run)
    {
      OneGoesOn(run, call, run2, call2);
    }
    if run + ":" <= run2 {
      LongerMeets(run, run2);
    } else if run2 + ":" <= run {
      LongerMeets(run2, run);
      assert KeysMeet(run2, run) ==> KeysMeet(run, run2);
    }
  }

  lemma OneGoesOn(run: string, call: string, run2: string, call2: string)
    requires (run, call) != (run2, call2) && Key(run, call) == Key(run2, call2)
    ensures run != run2 && (run + ":" <= run2 || run2 + ":" <= run)
  {
    var key := Key(run, call);
    assert key[..|run|] == run && key[..|run2|] == run2;
    assert key[..|run| + 1] == run + ":" && key[..|run2| + 1] == run2 + ":";
    assert key[|run| + 1..] == call && key[|run2| + 1..] == call2;
  }

  lemma LongerMeets(run: string, run2: string)
    requires run + ":" <= run2
    ensures KeysMeet(run, run2)
  {
    var rest := run2[|run| + 1..];
    assert run2 == run + ":" + rest;
    assert Key(run, rest + ":") == Key(run2, "");
  }

  /** Such a pair. */
  lemma KeysCanCollide()
    ensures Key("a", "b:c") == Key("a:b", "c") && NoColon("a") && !NoColon("a:b") && KeysMeet("a", "a:b")
  {
    assert "a:b"[1] == ':';
    assert "a" + ":" <= "a:b";
    KeysMeetWhen("a", "a:b");
  }

  // ---- The broker ----

  function Registered(pending: map<string, nat>, run: string, call: string, waiter: nat): map<string, nat> {
    pending[Key(run, call) := waiter]
  }

  function Entry(pending: map<string, nat>, run: string, call: string): Option<nat> {
    if Key(run, call) in pending then Some(pending[Key(run, call)]) else None
  }

  function Taken(pending: map<string, nat>, key: string): map<string, nat> {
    pending - {key}
  }

  /** The broker's map from keys to requests; each request is named by the waiter that made it. */
  class AuthorizationBroker {
    var pending: map<string, nat>

    constructor ()
      ensures pending == map[]
    {
      pending := map[];
    }

    method Register(run: string, call: string, waiter: nat)
      modifies this
      ensures pending == Registered(old(pending), run, call, waiter)
    {
      pending := pending[Key(run, call) := waiter];
    }

    /** Takes the entry out, so that a second decision finds none. */
    method Resolve(run: string, call: string) returns (entry: Option<nat>)
      modifies this
      ensures entry == Entry(old(pending), run, call)
      ensures pending == Taken(old(pending), Key(run, call))
    {
      var key := Key(run, call);
      if key !in pending {
        assert pending == Taken(pending, key);
        return None;
      }
      entry := Some(pending[key]);
      pending := pending - {key};
    }

    method DropGuard(key: string)
      modifies this
      ensures pending == Taken(old(pending), key)
    {
      pending := pending - {key};
    }

    /** A whole wait that nothing else comes between: registering, then an answer or the timeout, then the guard. */
    method RequestAndWait(run: string, call: string, answer: Option<Decision>, ghost w: World, waiter: nat)
      returns (outcome: Decision)
      requires pending == w.pending && waiter !in w.waiters
      modifies this
      ensures outcome == if answer.Some? then answer.value else Expired
      ensures var out := Run(w, WaitMoves(waiter, run, call, answer));
              pending == out.pending && waiter in out.waiters && out.waiters[waiter].phase == Done(Some(outcome))
      ensures Key(run, call) !in pending
    {
      hide Key;
      WaitRun(w, waiter, run, call, answer);
      Register(run, call, waiter);
      if answer.Some? {
        var entry := Resolve(run, call);
        assert entry == Some(waiter);
      }
      outcome := if answer.Some? then answer.value else Expired;
      DropGuard(Key(run, call));
    }
  }

  // ---- Waiters ----

  /**
   * A waiter waits, perhaps with a decision already sent to it; then leaves with what the wait came to, `None` when it was
   * cancelled; and is done once its guard has been dropped.
   */
  datatype Phase =
    | Waiting(inbox: Option<Decision>)
    | Leaving(outcome: Option<Decision>)
    | Done(outcome: Option<Decision>)

  datatype Waiter = Waiter(run: string, call: string, phase: Phase)

  /** A decision that found an entry: the names it was addressed to, and the waiter whose entry it took. */
  datatype Resolution = Resolution(run: string, call: string, decision: Decision, waiter: nat)

  datatype World = World(
    pending: map<string, nat>,
    waiters: map<nat, Waiter>,
    log: seq<Resolution>,
    executed: set<nat>)

  datatype Move =
    | Request(waiter: nat, run: string, call: string)
    | Resolve(run: string, call: string, decision: Decision)
    | Receive(waiter: nat)
    | Timeout(waiter: nat)
    | Cancel(waiter: nat)
    | Release(waiter: nat)
    | Execute(waiter: nat)

  function KeyOf(w: World, id: nat): string
    requires id in w.waiters
  {
    Key(w.waiters[id].run, w.waiters[id].call)
  }

  function Become(w: World, id: nat, phase: Phase): World
    requires id in w.waiters
  {
    w.(waiters := w.waiters[id := w.waiters[id].(phase := phase)])
  }

  /** A decision reaches a waiter that still waits; nobody receives it otherwise. */
  function Sent(w: World, id: nat, d: Decision): World {
    if id in w.waiters && w.waiters[id].phase.Waiting? then Become(w, id, Waiting(Some(d))) else w
  }

  /**
   * One step; a move that does not apply changes nothing. A timeout does not fire over a decision that has been sent. The
   * tool is called by a waiter that is done, and only on approval.
   */
  function Step(w: World, move: Move): World {
    match move
    case Request(id, run, call) =>
      if id in w.waiters then w
      else w.(waiters := w.waiters[id := Waiter(run, call, Waiting(None))], pending := Registered(w.pending, run, call, id))
    case Resolve(run, call, d) =>
      var entry := Entry(w.pending, run, call);
      if entry.None? then w
      else
        Sent(w, entry.value, d).(
        pending := Taken(w.pending, Key(run, call)),
        log := w.log + [Resolution(run, call, d, entry.value)])
    case Receive(id) =>
      if id in w.waiters && w.waiters[id].phase.Waiting? && w.waiters[id].phase.inbox.Some?
      then Become(w, id, Leaving(w.waiters[id].phase.inbox)) else w
    case Timeout(id) =>
      if id in w.waiters && w.waiters[id].phase == Waiting(None)
      then Become(w, id, Leaving(Some(Expired))) else w
    case Cancel(id) =>
      if id in w.waiters && w.waiters[id].phase.Waiting? then Become(w, id, Leaving(None)) else w
    case Release(id) =>
      if id in w.waiters && w.waiters[id].phase.Leaving?
      then Become(w, id, Done(w.waiters[id].phase.outcome)).(pending := Taken(w.pending, KeyOf(w, id))) else w
    case Execute(id) =>
      if id in w.waiters && w.waiters[id].phase == Done(Some(Approved))
      then w.(executed := w.executed + {id}) else w
  }

  predicate Alive(w: World, id: nat) {
    id in w.waiters && !w.waiters[id].phase.Done?
  }

  /** A request whose run id has no colon, and whose key no live request has. */
  predicate Proper(w: World, move: Move) {
    move.Request? ==>
      && NoColon(move.run)
      && forall id :: id in w.waiters && Alive(w, id) ==> KeyOf(w, id) != Key(move.run, move.call)
  }

  // ---- What every step keeps ----

  predicate Approval(w: World, id: nat, e: Resolution)
    requires id in w.waiters
  {
    && e.waiter == id && e.decision.Approved?
    && Key(e.run, e.call) == KeyOf(w, id)
    && (NoColon(e.run) <==> e.run == w.waiters[id].run && e.call == w.waiters[id].call)
  }

  ghost predicate HasApproval(w: World, id: nat)
    requires id in w.waiters
  {
    exists k :: 0 <= k < |w.log| && Approval(w, id, w.log[k])
  }

  predicate Outcome(phase: Phase, d: Decision) {
    match phase
    case Waiting(inbox) => inbox == Some(d)
    case Leaving(outcome) => outcome == Some(d)
    case Done(outcome) => outcome == Some(d)
  }

  /** An entry belongs to a live waiter of that key; a waiter no decision was sent to has its entry. */
  ghost predicate Entries(w: World) {
    && (forall key :: key in w.pending ==>
          && Alive(w, w.pending[key]) && KeyOf(w, w.pending[key]) == key
          && (w.waiters[w.pending[key]].phase.Waiting? ==> w.waiters[w.pending[key]].phase.inbox.None?))
    && (forall id :: id in w.waiters && w.waiters[id].phase == Waiting(None) ==>
          KeyOf(w, id) in w.pending && w.pending[KeyOf(w, id)] == id)
  }

  ghost predicate Keys(w: World) {
    && (forall id :: id in w.waiters ==> NoColon(w.waiters[id].run))
    && forall a, b :: Alive(w, a) && Alive(w, b) && a != b ==> KeyOf(w, a) != KeyOf(w, b)
  }

  /** Each registration is decided once at most, and what is still pending is undecided. */
  ghost predicate Once(w: World) {
    && (forall j :: 0 <= j < |w.log| ==> w.log[j].waiter in w.waiters)
    && (forall j, k :: 0 <= j < k < |w.log| ==> w.log[j].waiter != w.log[k].waiter)
    && forall key, j :: key in w.pending && 0 <= j < |w.log| ==> w.log[j].waiter != w.pending[key]
  }

  /** An approval that reached a waiter was addressed to it, and a tool ran only after one. */
  ghost predicate Approvals(w: World) {
    && (forall id :: id in w.waiters && Outcome(w.waiters[id].phase, Approved) ==> HasApproval(w, id))
    && forall id :: id in w.executed ==> id in w.waiters && w.waiters[id].phase == Done(Some(Approved))
  }

  ghost predicate Inv(w: World) {
    Entries(w) && Keys(w) && Once(w) && Approvals(w)
  }

  lemma ApprovalStays(w: World, out: World, id: nat)
    requires id in w.waiters && HasApproval(w, id)
    requires id in out.waiters && out.waiters[id].run == w.waiters[id].run && out.waiters[id].call == w.waiters[id].call
    requires w.log <= out.log
    ensures HasApproval(out, id)
  {
    var k :| 0 <= k < |w.log| && Approval(w, id, w.log[k]);
    assert Approval(out, id, out.log[k]);
  }

  /** No waiter comes, none changes its names, and none comes back to life. */
  predicate SameWaiters(w: World, out: World) {
    && out.waiters.Keys == w.waiters.Keys
    && forall id :: id in out.waiters ==>
         && out.waiters[id].run == w.waiters[id].run && out.waiters[id].call == w.waiters[id].call
         && (w.waiters[id].phase.Done? ==> out.waiters[id].phase.Done?)
  }

  lemma KeysStay(w: World, out: World)
    requires Keys(w) && SameWaiters(w, out)
    ensures Keys(out)
  {
    hide Key, NoColon;
    forall a, b | Alive(out, a) && Alive(out, b) && a != b
      ensures KeyOf(out, a) != KeyOf(out, b)
    {
      assert Alive(w, a) && Alive(w, b);
      assert KeyOf(w, a) == KeyOf(out, a) && KeyOf(w, b) == KeyOf(out, b);
    }
  }

  lemma RequestKeepsEntries(w: World, id: nat, run: string, call: string)
    requires Entries(w) && Keys(w) && Proper(w, Request(id, run, call)) && id !in w.waiters
    ensures var out := Step(w, Request(id, run, call)); Entries(out) && Keys(out)
  {
    hide Key, NoColon;
    var key, out := Key(run, call), Step(w, Request(id, run, call));
    assert forall x :: x in w.waiters ==> out.waiters[x] == w.waiters[x] && KeyOf(out, x) == KeyOf(w, x);
    assert KeyOf(out, id) == key;
    forall k | k in out.pending && k != key
      ensures Alive(out, out.pending[k]) && KeyOf(out, out.pending[k]) == k
    {
      assert Alive(w, w.pending[k]);
    }
    forall x | x in out.waiters && out.waiters[x].phase == Waiting(None) && x != id
      ensures KeyOf(out, x) in out.pending && out.pending[KeyOf(out, x)] == x
    {
      assert Alive(w, x);
    }
    forall a, b | Alive(out, a) && Alive(out, b) && a != b
      ensures KeyOf(out, a) != KeyOf(out, b)
    {
      assert a != id ==> Alive(w, a);
      assert b != id ==> Alive(w, b);
    }
  }

  lemma RequestKeepsInv(w: World, id: nat, run: string, call: string)
    requires Inv(w) && Proper(w, Request(id, run, call))
    ensures Inv(Step(w, Request(id, run, call)))
  {
    var out := Step(w, Request(id, run, call));
    if id !in w.waiters {
      RequestKeepsEntries(w, id, run, call);
      hide Key, NoColon, Entries, Keys, HasApproval;
      forall x | x in out.waiters && Outcome(out.waiters[x].phase, Approved)
        ensures HasApproval(out, x)
      {
        assert x in w.waiters;
        ApprovalStays(w, out, x);
      }
    }
  }

  /** All a resolve does to the waiters is to hand one of them the decision. */
  lemma ResolveKeepsWaiters(w: World, run: string, call: string, d: Decision)
    requires Entries(w) && Key(run, call) in w.pending
    ensures var out := Step(w, Resolve(run, call, d));
            && SameWaiters(w, out)
            && out.pending == Taken(w.pending, Key(run, call))
            && forall x :: x in w.waiters ==>
                 && KeyOf(out, x) == KeyOf(w, x) && Alive(out, x) == Alive(w, x)
                 && (x != w.pending[Key(run, call)] ==> out.waiters[x] == w.waiters[x])
                 && (out.waiters[x].phase == Waiting(None) ==> out.waiters[x] == w.waiters[x] && x != w.pending[Key(run, call)])
  {
    hide Key, NoColon;
  }

  lemma ResolveKeepsEntries(w: World, run: string, call: string, d: Decision)
    requires Entries(w) && Key(run, call) in w.pending
    ensures var out := Step(w, Resolve(run, call, d)); SameWaiters(w, out) && Entries(out)
  {
    hide Key, NoColon, Step;
    var key, out := Key(run, call), Step(w, Resolve(run, call, d));
    var id := w.pending[key];
    ResolveKeepsWaiters(w, run, call, d);
    forall k | k in out.pending
      ensures Alive(out, out.pending[k]) && KeyOf(out, out.pending[k]) == k && out.pending[k] != id
    {
      assert Alive(w, w.pending[k]) && KeyOf(w, w.pending[k]) == k && KeyOf(w, id) == key;
    }
    forall x | x in out.waiters && out.waiters[x].phase == Waiting(None)
      ensures KeyOf(out, x) in out.pending && out.pending[KeyOf(out, x)] == x
    {
      assert w.waiters[x].phase == Waiting(None) && KeyOf(w, x) in w.pending && w.pending[KeyOf(w, x)] == x;
    }
  }

  lemma ResolveKeepsInv(w: World, run: string, call: string, d: Decision)
    requires Inv(w)
    ensures Inv(Step(w, Resolve(run, call, d)))
  {
    hide Key, NoColon;
    var out := Step(w, Resolve(run, call, d));
    if Key(run, call) in w.pending {
      var id := w.pending[Key(run, call)];
      ResolutionFits(w, run, call, id);
      ResolveKeepsEntries(w, run, call, d);
      KeysStay(w, out);
      ResolveKeepsOnce(w, run, call, d);
      hide Entries, Keys, Once, HasApproval, SameWaiters;
      forall x | x in out.waiters && Outcome(out.waiters[x].phase, Approved)
        ensures HasApproval(out, x)
      {
        if Outcome(w.waiters[x].phase, Approved) {
          ApprovalStays(w, out, x);
        } else {
          ApprovalArrives(w, out, x, run, call);
        }
      }
    }
  }

  lemma ResolveKeepsOnce(w: World, run: string, call: string, d: Decision)
    requires Entries(w) && Once(w) && Key(run, call) in w.pending
    ensures Once(Step(w, Resolve(run, call, d)))
  {
    hide Key, NoColon;
    var key, out := Key(run, call), Step(w, Resolve(run, call, d));
    forall k, j | k in out.pending && 0 <= j < |out.log|
      ensures out.log[j].waiter != out.pending[k]
    {
      assert KeyOf(w, w.pending[k]) == k && KeyOf(w, w.pending[key]) == key;
    }
  }

  lemma ApprovalArrives(w: World, out: World, id: nat, run: string, call: string)
    requires id in out.waiters && out.log == w.log + [Resolution(run, call, Approved, id)]
    requires KeyOf(out, id) == Key(run, call)
    requires NoColon(run) <==> run == out.waiters[id].run && call == out.waiters[id].call
    ensures HasApproval(out, id)
  {
    assert Approval(out, id, out.log[|w.log|]);
  }

  lemma ResolutionFits(w: World, run: string, call: string, id: nat)
    requires Keys(w) && id in w.waiters && KeyOf(w, id) == Key(run, call)
    ensures NoColon(run) <==> run == w.waiters[id].run && call == w.waiters[id].call
  {
    if NoColon(run) {
      KeyInjective(run, call, w.waiters[id].run, w.waiters[id].call);
    }
  }

  predicate OwnMove(move: Move) {
    move.Receive? || move.Timeout? || move.Cancel? || move.Release? || move.Execute?
  }

  lemma LeaveKeepsEntries(w: World, id: nat, outcome: Option<Decision>)
    requires Entries(w) && Keys(w) && id in w.waiters && w.waiters[id].phase.Waiting?
    ensures var out := Become(w, id, Leaving(outcome)); SameWaiters(w, out) && Entries(out)
  {
    hide Key, NoColon;
    var out := Become(w, id, Leaving(outcome));
    assert forall x :: x in w.waiters ==> KeyOf(out, x) == KeyOf(w, x);
    forall k | k in out.pending
      ensures Alive(out, out.pending[k]) && KeyOf(out, out.pending[k]) == k
    {
      assert Alive(w, w.pending[k]);
    }
  }

  lemma ReleaseKeepsEntries(w: World, id: nat)
    requires Entries(w) && Keys(w) && id in w.waiters && w.waiters[id].phase.Leaving?
    ensures SameWaiters(w, Step(w, Release(id))) && Entries(Step(w, Release(id)))
  {
    hide Key, NoColon;
    var out := Step(w, Release(id));
    assert forall x :: x in w.waiters ==> KeyOf(out, x) == KeyOf(w, x);
    forall k | k in out.pending
      ensures Alive(out, out.pending[k]) && KeyOf(out, out.pending[k]) == k
    {
      assert Alive(w, w.pending[k]) && KeyOf(w, w.pending[k]) == k;
    }
    forall x | x in out.waiters && out.waiters[x].phase == Waiting(None)
      ensures KeyOf(out, x) in out.pending && out.pending[KeyOf(out, x)] == x
    {
      assert Alive(w, x) && Alive(w, id);
    }
  }

  lemma OwnMoveKeepsEntries(w: World, move: Move)
    requires Entries(w) && Keys(w) && OwnMove(move)
    ensures SameWaiters(w, Step(w, move)) && Entries(Step(w, move))
  {
    hide Entries, Keys, Key;
    var id := move.waiter;
    if Step(w, move) == w {
    } else if move.Release? {
      ReleaseKeepsEntries(w, id);
    } else if move.Execute? {
      SameEntries(w, Step(w, move));
    } else {
      LeaveKeepsEntries(w, id, Step(w, move).waiters[id].phase.outcome);
    }
  }

  lemma SameEntries(w: World, out: World)
    requires Entries(w) && out.waiters == w.waiters && out.pending == w.pending
    ensures Entries(out)
  {
    hide Key;
    assert forall x :: x in w.waiters ==> KeyOf(out, x) == KeyOf(w, x);
    forall k | k in out.pending
      ensures Alive(out, out.pending[k])
    {
      assert Alive(w, w.pending[k]);
    }
  }

  lemma OwnMoveKeepsOnce(w: World, move: Move)
    requires Once(w) && OwnMove(move)
    ensures Once(Step(w, move)) && Step(w, move).log == w.log
  {
    hide Key;
  }

  lemma OwnMoveKeepsOutcomes(w: World, move: Move, x: nat)
    requires OwnMove(move) && x in w.waiters
    ensures var out := Step(w, move);
            x in out.waiters && (Outcome(out.waiters[x].phase, Approved) ==> Outcome(w.waiters[x].phase, Approved))
  {
    hide Key;
  }

  lemma OwnMoveKeepsExecuted(w: World, move: Move)
    requires OwnMove(move) && forall id :: id in w.executed ==> id in w.waiters && w.waiters[id].phase == Done(Some(Approved))
    ensures var out := Step(w, move);
            forall id :: id in out.executed ==> id in out.waiters && out.waiters[id].phase == Done(Some(Approved))
  {
    hide Key;
  }

  lemma OwnMoveKeepsInv(w: World, move: Move)
    requires Inv(w) && OwnMove(move)
    ensures Inv(Step(w, move))
  {
    var out := Step(w, move);
    OwnMoveKeepsExecuted(w, move);
    hide Key, Step, Entries, Keys, HasApproval, Outcome;
    OwnMoveKeepsEntries(w, move);
    KeysStay(w, out);
    OwnMoveKeepsOnce(w, move);
    hide Once;
    forall x | x in out.waiters && Outcome(out.waiters[x].phase, Approved)
      ensures HasApproval(out, x)
    {
      OwnMoveKeepsOutcomes(w, move, x);
      ApprovalStays(w, out, x);
    }
  }

  lemma StepKeepsInv(w: World, move: Move)
    requires Inv(w) && Proper(w, move)
    ensures Inv(Step(w, move))
  {
    hide Inv, Step;
    match move
    case Request(id, run, call) => RequestKeepsInv(w, id, run, call);
    case Resolve(run, call, d) => ResolveKeepsInv(w, run, call, d);
    case Receive(_) => OwnMoveKeepsInv(w, move);
    case Timeout(_) => OwnMoveKeepsInv(w, move);
    case Cancel(_) => OwnMoveKeepsInv(w, move);
    case Release(_) => OwnMoveKeepsInv(w, move);
    case Execute(_) => OwnMoveKeepsInv(w, move);
  }

  // ---- Runs ----

  function Run(w: World, moves: seq<Move>): World
    decreases |moves|
  {
    if moves == [] then w else Run(Step(w, moves[0]), moves[1..])
  }

  predicate ProperRun(w: World, moves: seq<Move>)
    decreases |moves|
  {
    moves != [] ==> Proper(w, moves[0]) && ProperRun(Step(w, moves[0]), moves[1..])
  }

  function Empty(): World {
    World(map[], map[], [], {})
  }

  lemma {:induction false} RunKeepsInv(w: World, moves: seq<Move>)
    requires Inv(w) && ProperRun(w, moves)
    ensures Inv(Run(w, moves))
    decreases |moves|
  {
    hide Inv, Step, Proper;
    if moves != [] {
      StepKeepsInv(w, moves[0]);
      RunKeepsInv(Step(w, moves[0]), moves[1..]);
    }
  }

  /**
   * In any run whose live requests have distinct keys: pending entries belong to live waiters, no waiter's entry is taken
   * twice, and a tool has run only after an approval of its own key, which names its own run and call unless the approver
   * used a run id with a colon.
   */
  lemma OneShot(moves: seq<Move>)
    requires ProperRun(Empty(), moves)
    ensures var w := Run(Empty(), moves);
            && (forall key :: key in w.pending ==> Alive(w, w.pending[key]) && KeyOf(w, w.pending[key]) == key)
            && (forall j, k :: 0 <= j < k < |w.log| ==> w.log[j].waiter != w.log[k].waiter)
            && (forall id :: id in w.executed ==> id in w.waiters && HasApproval(w, id))
  {
    hide Run, ProperRun, HasApproval;
    RunKeepsInv(Empty(), moves);
  }

  /** A guard that is dropped leaves no entry behind for its waiter. */
  lemma NothingOutlivesItsWaiter(w: World, id: nat)
    requires Inv(w) && id in w.waiters && w.waiters[id].phase.Leaving?
    ensures var out := Step(w, Release(id));
            && !Alive(out, id)
            && (forall key :: key in out.pending ==> out.pending[key] != id)
            && (forall key :: key in w.pending && w.pending[key] != id ==> key in out.pending)
  {
    hide Key;
  }

  /**
   * A decision that finds an entry is recorded and answers its approver, and it reaches the entry's waiter exactly when that
   * waiter still waits.
   */
  lemma DecisionArrives(w: World, run: string, call: string, d: Decision)
    requires Inv(w) && Key(run, call) in w.pending
    ensures var id, out := w.pending[Key(run, call)], Step(w, Resolve(run, call, d));
            && id in w.waiters && id in out.waiters
            && out.log == w.log + [Resolution(run, call, d, id)]
            && (out.waiters[id].phase == Waiting(Some(d)) <==> w.waiters[id].phase.Waiting?)
            && (!w.waiters[id].phase.Waiting? ==> out.waiters == w.waiters)
  {
    hide Key, NoColon, Once, Keys, Approvals;
    assert Alive(w, w.pending[Key(run, call)]);
  }

  /** After a decision that came too late the Tool never runs. */
  lemma {:induction false} LateApprovalIsLost(w: World, id: nat, moves: seq<Move>)
    requires id in w.waiters && id !in w.executed
    requires w.waiters[id].phase == Leaving(Some(Expired)) || w.waiters[id].phase == Done(Some(Expired))
    ensures id !in Run(w, moves).executed
    decreases |moves|
  {
    if moves != [] {
      LateApprovalIsLost(Step(w, moves[0]), id, moves[1..]);
    }
  }

  /**
   * Between the timeout of a wait and the drop of its guard the entry is still there: an approval is then reported as found,
   * and the Tool does not run, whatever follows.
   */
  lemma LateApprovalIsFound(moves: seq<Move>)
    ensures var w := Run(Empty(), [Request(0, "r", "c"), Timeout(0)]);
            var out := Step(w, Resolve("r", "c", Approved));
            && ProperRun(Empty(), [Request(0, "r", "c"), Timeout(0)])
            && Key("r", "c") in w.pending && w.waiters == map[0 := Waiter("r", "c", Leaving(Some(Expired)))]
            && out == w.(pending := map[], log := [Resolution("r", "c", Approved, 0)])
            && 0 !in Run(out, moves).executed
  {
    var first, second := Request(0, "r", "c"), Timeout(0);
    var one := Step(Empty(), first);
    var w := Step(one, second);
    assert [first, second][1..] == [second];
    assert Run(one, [second]) == Run(w, []) && ProperRun(one, [second]);
    LateApprovalIsLost(Step(w, Resolve("r", "c", Approved)), 0, moves);
  }

  // ---- One wait by itself ----

  function WaitMoves(id: nat, run: string, call: string, answer: Option<Decision>): seq<Move> {
    if answer.Some? then [Request(id, run, call), Resolve(run, call, answer.value), Receive(id), Release(id)]
    else [Request(id, run, call), Timeout(id), Release(id)]
  }

  lemma RunThree(w: World, a: Move, b: Move, c: Move)
    ensures Run(w, [a, b, c]) == Step(Step(Step(w, a), b), c)
  {
    hide Step;
    assert [a, b, c][1..] == [b, c] && [b, c][1..] == [c] && [c][1..] == [];
    assert Run(Step(Step(w, a), b), [c]) == Run(Step(Step(Step(w, a), b), c), []);
  }

  lemma RunFour(w: World, a: Move, b: Move, c: Move, d: Move)
    ensures Run(w, [a, b, c, d]) == Step(Step(Step(Step(w, a), b), c), d)
  {
    hide Step;
    assert [a, b, c, d][1..] == [b, c, d];
    RunThree(Step(w, a), b, c, d);
  }

  lemma WaitRun(w: World, id: nat, run: string, call: string, answer: Option<Decision>)
    requires id !in w.waiters
    ensures var out := Run(w, WaitMoves(id, run, call, answer));
            && out.pending == Taken(Taken(Registered(w.pending, run, call, id), Key(run, call)), Key(run, call))
            && id in out.waiters
            && out.waiters[id].phase == Done(Some(if answer.Some? then answer.value else Expired))
  {
    hide Run, Key;
    if answer.Some? {
      RunFour(w, Request(id, run, call), Resolve(run, call, answer.value), Receive(id), Release(id));
    } else {
      RunThree(w, Request(id, run, call), Timeout(id), Release(id));
    }
  }

  // ---- When keys are shared ----

  /** The waiter has no decision, and no entry through which one could reach it. */
  predicate Unreachable(w: World, id: nat) {
    && id in w.waiters && id !in w.executed
    && match w.waiters[id].phase {
      case Waiting(inbox) => inbox.None?
      case Leaving(outcome) => outcome != Some(Approved)
      case Done(outcome) => outcome != Some(Approved)
    }
    && forall key :: key in w.pending ==> w.pending[key] != id
  }

  lemma StepKeepsUnreachable(w: World, move: Move, id: nat)
    requires Unreachable(w, id)
    ensures Unreachable(Step(w, move), id)
  {
    hide Key;
  }

  lemma {:induction false} UnreachableNeverRuns(w: World, moves: seq<Move>, id: nat)
    requires Unreachable(w, id)
    ensures id !in Run(w, moves).executed
    decreases |moves|
  {
    hide Unreachable, Step;
    if moves != [] {
      StepKeepsUnreachable(w, moves[0], id);
      UnreachableNeverRuns(Step(w, moves[0]), moves[1..], id);
    } else {
      assert id !in w.executed by {
        UnreachableIsIdle(w, id);
      }
    }
  }

  lemma UnreachableIsIdle(w: World, id: nat)
    requires Unreachable(w, id)
    ensures id !in w.executed
  {
  }

  /** A second request under a live request's key, then the first one leaving and taking the entry with it. */
  function Overtaken(w: World, first: nat, second: nat, run: string, call: string): World {
    Step(Step(Step(w, Request(second, run, call)), Cancel(first)), Release(first))
  }

  /**
   * That live requests have distinct keys is needed in every state: a request made under the key of a live one loses its
   * entry when the first leaves. It still waits then, the next decision under its key finds nothing, and whatever follows,
   * its Tool never runs.
   */
  lemma SharedKeysLoseTheSecond(w: World, first: nat, second: nat, moves: seq<Move>)
    requires Inv(w) && Alive(w, first) && second !in w.waiters
    ensures var run, call := w.waiters[first].run, w.waiters[first].call;
            var out := Overtaken(w, first, second, run, call);
            && second in out.waiters && out.waiters[second].phase == Waiting(None)
            && KeyOf(out, second) !in out.pending
            && (forall d :: Step(out, Resolve(run, call, d)) == out)
            && second !in Run(out, moves).executed
  {
    hide Key, Once, Run;
    var run, call := w.waiters[first].run, w.waiters[first].call;
    var out := Overtaken(w, first, second, run, call);
    assert second !in w.executed by {
      assert Approvals(w);
    }
    EntriesKnown(w);
    assert Unreachable(out, second);
    UnreachableNeverRuns(out, moves, second);
  }

  lemma EntriesKnown(w: World)
    requires Entries(w)
    ensures forall key :: key in w.pending ==> w.pending[key] in w.waiters
  {
  }

  /** The same from the start, in four moves. */
  lemma SharedKeysBreak()
    ensures var w := Run(Empty(), [Request(0, "r", "c"), Request(1, "r", "c"), Timeout(0), Release(0)]);
            && 1 in w.waiters && w.waiters[1].phase == Waiting(None)
            && Key("r", "c") !in w.pending
            && Step(w, Resolve("r", "c", Approved)) == w
  {
  }
}
