/** The per-session registry of generations in flight, under any interleaving of its operations. */
module Generations {
  import opened Text

  /**
   * What the registry and its handles hold: the occupant of each session's slot, the next id to draw, and the generations
   * whose hard abort, and whose stop token, have been fired.
   */
  datatype Registry = Registry(slots: map<string, nat>, next: nat, aborted: set<nat>, stopped: set<nat>)

  /** Taking the slot aborts whoever held it. */
  function Inserted(r: Registry, session: string, id: nat): Registry {
    var fired := if session in r.slots then {r.slots[session]} else {};
    Registry(r.slots[session := id], r.next, r.aborted + fired, r.stopped + fired)
  }

  function Finished(r: Registry, session: string, id: nat): Registry {
    if session in r.slots && r.slots[session] == id then r.(slots := r.slots - {session}) else r
  }

  function Removed(r: Registry, session: string): Registry {
    if session !in r.slots then r
    else Registry(r.slots - {session}, r.next, r.aborted + {r.slots[session]}, r.stopped + {r.slots[session]})
  }

  function Stopped(r: Registry, session: string): Registry {
    if session in r.slots then r.(stopped := r.stopped + {r.slots[session]}) else r
  }

  class Table {
    var slots: map<string, nat>
    var next: nat
    var aborted: set<nat>
    var stopped: set<nat>

    constructor ()
      ensures Value() == Registry(map[], 0, {}, {})
    {
      slots, next, aborted, stopped := map[], 0, {}, {};
    }

    function Value(): Registry
      reads this
    {
      Registry(slots, next, aborted, stopped)
    }

    /** The first half of `replace`, before the lock is taken. */
    method Draw() returns (id: nat)
      modifies this
      ensures id == old(next) && Value() == old(Value()).(next := id + 1)
    {
      id := next;
      next := next + 1;
    }

    /** The second half of `replace`, under the lock. */
    method Insert(session: string, id: nat)
      modifies this
      ensures Value() == Inserted(old(Value()), session, id)
    {
      var previous := if session in slots then Some(slots[session]) else None;
      slots := slots[session := id];
      if previous.Some? {
        aborted := aborted + {previous.value};
        stopped := stopped + {previous.value};
      }
    }

    method Finish(session: string, id: nat)
      modifies this
      ensures Value() == Finished(old(Value()), session, id)
    {
      var ours := session in slots && slots[session] == id;
      if ours {
        slots := slots - {session};
      }
    }

    method Remove(session: string)
      modifies this
      ensures Value() == Removed(old(Value()), session)
    {
      if session in slots {
        var id := slots[session];
        slots := slots - {session};
        aborted := aborted + {id};
        stopped := stopped + {id};
      }
    }

    method Stop(session: string) returns (found: bool)
      modifies this
      ensures Value() == Stopped(old(Value()), session)
      ensures found <==> session in old(slots)
    {
      found := session in slots;
      if found {
        stopped := stopped + {slots[session]};
      }
    }
  }

  // ---- Runs ----

  /** The registry, and what each drawn id is for and has come to. */
  datatype World = World(reg: Registry, owner: map<nat, string>, registered: set<nat>, finished: set<nat>)

  datatype Move =
    | Draw(session: string)
    | Insert(id: nat)
    | Finish(id: nat)
    | Remove(session: string)
    | Stop(session: string)

  /** A generation inserts itself once, and finishes after that; other moves change nothing. */
  function Step(w: World, move: Move): World {
    match move
    case Draw(session) => w.(reg := w.reg.(next := w.reg.next + 1), owner := w.owner[w.reg.next := session])
    case Insert(id) =>
      if id in w.owner && id !in w.registered
      then w.(reg := Inserted(w.reg, w.owner[id], id), registered := w.registered + {id}) else w
    case Finish(id) =>
      if id in w.owner && id in w.registered
      then w.(reg := Finished(w.reg, w.owner[id], id), finished := w.finished + {id}) else w
    case Remove(session) => w.(reg := Removed(w.reg, session))
    case Stop(session) => w.(reg := Stopped(w.reg, session))
  }

  predicate Live(w: World, id: nat) {
    id in w.registered && id !in w.finished && id !in w.reg.aborted
  }

  predicate Occupies(w: World, id: nat) {
    id in w.owner && w.owner[id] in w.reg.slots && w.reg.slots[w.owner[id]] == id
  }

  /** The occupants of the slots are exactly the live generations, each in its own session's slot. */
  ghost predicate Inv(w: World) {
    && (forall id :: id in w.owner ==> id < w.reg.next)
    && w.registered <= w.owner.Keys
    && (forall s :: s in w.reg.slots ==> w.reg.slots[s] in w.owner && w.owner[w.reg.slots[s]] == s)
    && (forall id :: Live(w, id) <==> Occupies(w, id))
    && w.finished <= w.registered
    && w.reg.aborted <= w.reg.stopped
    && w.reg.aborted <= w.registered
  }

  lemma StepKeepsInv(w: World, move: Move)
    requires Inv(w)
    ensures Inv(Step(w, move))
  {
    match move
    case Draw(session) =>
      forall id
        ensures Live(Step(w, move), id) <==> Occupies(Step(w, move), id)
      {
        assert Live(w, id) <==> Occupies(w, id);
      }
    case Insert(id) => InsertKeepsInv(w, id);
    case Finish(id) =>
      forall x
        ensures Live(Step(w, move), x) <==> Occupies(Step(w, move), x)
      {
        assert Live(w, x) <==> Occupies(w, x);
      }
    case Remove(session) =>
      if session in w.reg.slots {
        var id := w.reg.slots[session];
        assert Live(w, id) by {
          assert Occupies(w, id);
        }
        forall x
          ensures Live(Step(w, move), x) <==> Occupies(Step(w, move), x)
        {
          assert Live(w, x) <==> Occupies(w, x);
        }
      }
    case Stop(session) =>
      forall id
        ensures Live(Step(w, move), id) <==> Occupies(Step(w, move), id)
      {
        assert Live(w, id) <==> Occupies(w, id);
      }
  }

  lemma InsertKeepsInv(w: World, id: nat)
    requires Inv(w)
    ensures Inv(Step(w, Insert(id)))
  {
    var out := Step(w, Insert(id));
    if id in w.owner && id !in w.registered {
      if w.owner[id] in w.reg.slots {
        assert Occupies(w, w.reg.slots[w.owner[id]]);
        assert Live(w, w.reg.slots[w.owner[id]]);
      }
      forall x
        ensures Live(out, x) <==> Occupies(out, x)
      {
        assert Live(w, x) <==> Occupies(w, x);
      }
    }
  }

  function Run(w: World, moves: seq<Move>): World
    decreases |moves|
  {
    if moves == [] then w else Run(Step(w, moves[0]), moves[1..])
  }

  function Empty(): World {
    World(Registry(map[], 0, {}, {}), map[], {}, {})
  }

  lemma {:induction false} RunKeepsInv(w: World, moves: seq<Move>)
    requires Inv(w)
    ensures Inv(Run(w, moves))
    decreases |moves|
  {
    hide Inv, Step;
    if moves != [] {
      StepKeepsInv(w, moves[0]);
      RunKeepsInv(Step(w, moves[0]), moves[1..]);
    }
  }

  /** In any interleaving, a session has at most one live generation, and it is the one in the slot. */
  lemma AtMostOneLive(moves: seq<Move>, a: nat, b: nat)
    requires var w := Run(Empty(), moves); Live(w, a) && Live(w, b)
    ensures var w := Run(Empty(), moves);
            && a in w.owner && b in w.owner
            && Occupies(w, a) && Occupies(w, b)
            && (w.owner[a] == w.owner[b] ==> a == b)
  {
    hide Run;
    RunKeepsInv(Empty(), moves);
    var w := Run(Empty(), moves);
    assert Occupies(w, a) && Occupies(w, b);
  }

  /** No slot ever holds a generation that was aborted or has finished. */
  lemma SlotsAreLive(moves: seq<Move>, session: string)
    requires session in Run(Empty(), moves).reg.slots
    ensures var w := Run(Empty(), moves);
            var id := w.reg.slots[session];
            Live(w, id) && id in w.owner && w.owner[id] == session
  {
    hide Run;
    RunKeepsInv(Empty(), moves);
    var w := Run(Empty(), moves);
    assert Occupies(w, w.reg.slots[session]);
  }

  /**
   * A finish takes away a generation's own slot and nothing else: one that has been replaced leaves every slot as it is.
   */
  lemma StaleFinishIsHarmless(w: World, id: nat)
    requires Inv(w) && id in w.registered
    ensures var out := Step(w, Finish(id));
            && (!Live(w, id) ==> out.reg == w.reg)
            && (forall other :: other != id ==> (Live(out, other) <==> Live(w, other)))
            && !Live(out, id)
  {
    assert Live(w, id) <==> Occupies(w, id);
  }

  // ---- The order of the ids in a slot ----

  /** The move gives the session's slot to a generation that has not held it. */
  predicate Inserts(w: World, move: Move, session: string) {
    move.Insert? && move.id in w.owner && move.id !in w.registered && w.owner[move.id] == session
  }

  /** Around one move, the id in a slot falls exactly when a generation that drew earlier inserts itself later. */
  lemma StepGoesBack(w: World, move: Move, session: string)
    requires Inv(w) && session in w.reg.slots && session in Step(w, move).reg.slots
    ensures Step(w, move).reg.slots[session] < w.reg.slots[session]
            <==> Inserts(w, move, session) && move.id < w.reg.slots[session]
  {
  }

  /** The generation is one of the session's, and it has inserted itself. */
  predicate Registers(w: World, session: string, id: nat) {
    id in w.registered && id in w.owner && w.owner[id] == session
  }

  /** The world after the first `n` moves. */
  function At(moves: seq<Move>, n: nat): World
    requires n <= |moves|
  {
    Run(Empty(), moves[..n])
  }

  /** Each generation of the session that inserts itself drew its id after all that did so before it. */
  ghost predicate InDrawOrder(moves: seq<Move>, session: string) {
    forall j, id: nat :: 0 <= j < |moves| && Inserts(At(moves, j), moves[j], session) && Registers(At(moves, j), session, id) ==>
                           id < moves[j].id
  }

  /** Whenever the session's slot is taken, it is by an id no smaller than any it was taken by before. */
  ghost predicate NeverFalls(moves: seq<Move>, session: string) {
    forall i, j :: 0 <= i <= j <= |moves| && session in At(moves, i).reg.slots && session in At(moves, j).reg.slots ==>
                   At(moves, i).reg.slots[session] <= At(moves, j).reg.slots[session]
  }

  lemma {:induction false} RunSnoc(w: World, moves: seq<Move>, move: Move)
    ensures Run(w, moves + [move]) == Step(Run(w, moves), move)
    decreases |moves|
  {
    hide Step;
    if moves == [] {
      assert Run(Step(w, move), []) == Step(w, move);
    } else {
      assert (moves + [move])[1..] == moves[1..] + [move];
      RunSnoc(Step(w, moves[0]), moves[1..], move);
    }
  }

  lemma AtNext(moves: seq<Move>, n: nat)
    requires n < |moves|
    ensures At(moves, n + 1) == Step(At(moves, n), moves[n]) && Inv(At(moves, n))
  {
    hide Step, Run;
    assert moves[..n + 1] == moves[..n] + [moves[n]];
    RunSnoc(Empty(), moves[..n], moves[n]);
    RunKeepsInv(Empty(), moves[..n]);
  }

  lemma StepRegisters(w: World, move: Move, session: string, id: nat)
    requires Inv(w)
    ensures Registers(w, session, id) ==> Registers(Step(w, move), session, id)
    ensures Registers(Step(w, move), session, id) && !Registers(w, session, id) ==>
              Inserts(w, move, session) && move.id == id
    ensures Inserts(w, move, session) ==>
              session in Step(w, move).reg.slots && Step(w, move).reg.slots[session] == move.id
    ensures session in Step(w, move).reg.slots && !Inserts(w, move, session) ==>
              session in w.reg.slots && Step(w, move).reg.slots[session] == w.reg.slots[session]
  {
  }

  lemma {:induction false} RegisteredStays(moves: seq<Move>, session: string, id: nat, i: nat, j: nat)
    requires i <= j <= |moves| && Registers(At(moves, i), session, id)
    ensures Registers(At(moves, j), session, id)
    decreases j
  {
    hide At, Registers, Step;
    if i < j {
      RegisteredStays(moves, session, id, i, j - 1);
      AtNext(moves, j - 1);
      StepRegisters(At(moves, j - 1), moves[j - 1], session, id);
    }
  }

  lemma OccupantRegistered(moves: seq<Move>, session: string, n: nat)
    requires n <= |moves| && session in At(moves, n).reg.slots
    ensures Registers(At(moves, n), session, At(moves, n).reg.slots[session])
  {
    SlotsAreLive(moves[..n], session);
  }

  /** Every generation that inserted itself once held the slot. */
  lemma {:induction false} RegisteredHeld(moves: seq<Move>, session: string, id: nat, n: nat) returns (k: nat)
    requires n <= |moves| && Registers(At(moves, n), session, id)
    ensures k <= n && session in At(moves, k).reg.slots && At(moves, k).reg.slots[session] == id
    decreases n
  {
    assert n > 0 by {
      assert moves[..0] == [];
    }
    hide At, Registers, Step;
    AtNext(moves, n - 1);
    StepRegisters(At(moves, n - 1), moves[n - 1], session, id);
    if Registers(At(moves, n - 1), session, id) {
      k := RegisteredHeld(moves, session, id, n - 1);
    } else {
      k := n;
    }
  }

  lemma {:induction false} OccupantIsNewest(moves: seq<Move>, session: string, id: nat, n: nat)
    requires InDrawOrder(moves, session) && n <= |moves|
    requires session in At(moves, n).reg.slots && Registers(At(moves, n), session, id)
    ensures id <= At(moves, n).reg.slots[session]
    decreases n
  {
    assert n > 0 by {
      assert moves[..0] == [];
    }
    var w, move := At(moves, n - 1), moves[n - 1];
    hide At, Step;
    AtNext(moves, n - 1);
    StepRegisters(w, move, session, id);
    if !Inserts(w, move, session) {
      OccupantIsNewest(moves, session, id, n - 1);
    } else if Registers(w, session, id) {
      assert id < move.id;
    }
  }

  /** The ids in a session's slot never fall exactly when its generations insert themselves in the order they drew. */
  lemma SlotIdsNeverFall(moves: seq<Move>, session: string)
    ensures NeverFalls(moves, session) <==> InDrawOrder(moves, session)
  {
    hide At, Step;
    if InDrawOrder(moves, session) {
      forall i, j | 0 <= i <= j <= |moves| && session in At(moves, i).reg.slots && session in At(moves, j).reg.slots
        ensures At(moves, i).reg.slots[session] <= At(moves, j).reg.slots[session]
      {
        OccupantRegistered(moves, session, i);
        RegisteredStays(moves, session, At(moves, i).reg.slots[session], i, j);
        OccupantIsNewest(moves, session, At(moves, i).reg.slots[session], j);
      }
    }
    if NeverFalls(moves, session) {
      forall j, id: nat | 0 <= j < |moves| && Inserts(At(moves, j), moves[j], session) && Registers(At(moves, j), session, id)
        ensures id < moves[j].id
      {
        var k := RegisteredHeld(moves, session, id, j);
        AtNext(moves, j);
        StepRegisters(At(moves, j), moves[j], session, id);
        assert At(moves, k).reg.slots[session] <= At(moves, j + 1).reg.slots[session];
      }
    }
  }

  /** Ids are drawn before the lock is taken, so a slot can go from a later id back to an earlier one. */
  lemma SlotIdsCanGoBack()
    ensures var before := Run(Empty(), [Draw("s"), Draw("s"), Insert(1)]);
            var after := Step(before, Insert(0));
            && before.reg.slots == map["s" := 1] && after.reg.slots == map["s" := 0]
            && after.reg.aborted == {1}
  {
    var moves := [Draw("s"), Draw("s"), Insert(1)];
    assert moves[1..] == [Draw("s"), Insert(1)];
    assert moves[1..][1..] == [Insert(1)];
    assert moves[1..][1..][1..] == [];
    var one := Step(Empty(), moves[0]);
    var two := Step(one, moves[1]);
    var three := Step(two, moves[2]);
    assert Run(two, [Insert(1)]) == Run(three, []);
    assert Run(one, [Draw("s"), Insert(1)]) == Run(two, [Insert(1)]);
  }
}
