/** When a path falls back to the newest message: exactly when that is right, and runs in which it is not. */
module Fallbacks {
  import opened Text
  import opened States
  import opened Protocol
  import opened Tree
  import opened Storage
  import opened Summaries
  import opened Conversations
  import opened Snapshots

  /**
   * Regenerating starts from the state of the branch above the target exactly when the target has a parent, or the newest
   * message carries the initial state: for a target without a parent it is the newest message that is read.
   */
  lemma RegenerateCondition(cfg: Config, w: World, target: nat)
    requires Sound(w) && Truthful(cfg, w) && target in w.db.rows
    ensures var rows := w.db.rows;
            RegenerateTask(cfg, rows, target).base == Replay(cfg, StoryTo(rows, rows[target].parent)) <==>
              RegenerateFits(cfg, rows, target)
  {
    hide Story, BranchState, Exact, RowsAgree, Right;
    if w.db.rows[target].parent.Some? {
      RegenerateRight(cfg, w, target);
      RowsKnown(w);
      ForestParents(w.db.rows, target);
      StoryAgrees(w.db.rows, w.all, w.db.rows[target].parent.value);
    }
  }

  /** What a panel stores stands for its branch, whatever the updates, exactly when it reads with a leaf or fits without. */
  lemma PanelCondition(cfg: Config, w: World, leaf: Option<nat>)
    requires Sound(w) && Truthful(cfg, w) && (leaf.Some? ==> leaf.value in w.db.rows)
    ensures var rows := w.db.rows;
            (forall updates ::
               StandsFor(cfg, PanelTask(cfg, rows, leaf, updates).snapshot, StoryTo(rows, leaf) + [updates])) <==>
              PanelFits(cfg, rows, leaf)
  {
    hide Story, Exact, RowsAgree, Right, TaskRight, TaskSound, LeafSnapshot, ApplyUpdates, Inject, Badge, Initials;
    var rows, read := w.db.rows, LeafSnapshot(w.db.rows, leaf);
    LeafStands(cfg, w, leaf);
    RowsKnown(w);
    if leaf.Some? {
      StoryAgrees(rows, w.all, leaf.value);
    }
    if PanelFits(cfg, rows, leaf) {
      forall updates
        ensures StandsFor(cfg, PanelTask(cfg, rows, leaf, updates).snapshot, StoryTo(rows, leaf) + [updates])
      {
        PanelContinues(cfg, read, StoryTo(rows, leaf), updates);
      }
    } else {
      var task := PanelTask(cfg, rows, leaf, []);
      NoUpdates(cfg, Effective(cfg.schema, cfg.seed, read));
      NoUpdates(cfg, BranchState(cfg, map[]));
      ReplayStep(cfg, [], []);
      EffectiveTwice(cfg, read);
      assert !StandsFor(cfg, task.snapshot, StoryTo(rows, leaf) + [[]]);
    }
  }

  lemma NoUpdates(cfg: Config, s: Snapshot)
    ensures ApplyUpdates(s, cfg.schema, [], cfg.readers) == s
  {
  }

  lemma EffectiveTwice(cfg: Config, s: Snapshot)
    ensures BranchState(cfg, Effective(cfg.schema, cfg.seed, s)) == BranchState(cfg, s)
  {
    hide Inject, Initials;
    assert Effective(cfg.schema, cfg.seed, Effective(cfg.schema, cfg.seed, s)) == Effective(cfg.schema, cfg.seed, s);
  }

  // ---- One switch, off at first ----

  const OFF: Snapshot := map["x" := Bool(false)]
  const ON: Snapshot := map["x" := Bool(true)]
  const TOGGLE := Update(Toggle, "x", None)

  function SwitchConfig(): Config {
    Config([VarDecl("x", BoolType, Bool(false))], map[], Identity(None, None, None, None), Readers(_ => None, _ => None))
  }

  lemma SwitchStates()
    ensures var cfg := SwitchConfig();
            && BranchState(cfg, map[]) == Effective(cfg.schema, cfg.seed, map[]) == OFF
            && BranchState(cfg, ON) == Effective(cfg.schema, cfg.seed, ON) == ON
            && OFF != ON
  {
    var cfg := SwitchConfig();
    assert Initials(cfg.schema) == OFF;
    assert OFF["x"] != ON["x"];
  }

  lemma SwitchFolds()
    ensures var cfg := SwitchConfig();
            && ApplyUpdates(OFF, cfg.schema, [TOGGLE], cfg.readers) == ON
            && ApplyUpdates(OFF, cfg.schema, [], cfg.readers) == OFF
            && ApplyUpdates(ON, cfg.schema, [], cfg.readers) == ON
  {
    var schema := SwitchConfig().schema;
    assert DeclOf(schema, "x") == Some(schema[0]);
    assert !Reserved("x");
  }

  /** A root that holds the switch on though it made no update is wrong. */
  lemma LoneRootIsWrong(t: Table, id: nat)
    requires Forest(t) && id in t && t[id].parent.None? && t[id].updates == [] && t[id].snapshot == ON
    ensures !Right(SwitchConfig(), t, id)
  {
    hide BranchState, ApplyUpdates, SwitchConfig, OFF, ON;
    var cfg := SwitchConfig();
    SwitchStates();
    SwitchFolds();
    assert Story(t, id) == [[]];
    ReplayStep(cfg, [], []);
  }

  lemma NewestOf(t: Table, id: nat)
    requires Forest(t) && IsNewest(t, t.Keys, id)
    ensures Leaf(t, None) == Some(id) && LeafSnapshot(t, None) == t[id].snapshot
  {
    NewestIsUnique(t, t.Keys, id, Newest(t, t.Keys));
  }

  lemma LeafGiven(t: Table, id: nat)
    requires Forest(t) && id in t
    ensures Leaf(t, Some(id)) == Some(id) && LeafSnapshot(t, Some(id)) == t[id].snapshot
  {
  }

  lemma NoLeaf()
    ensures Forest(map[]) && Leaf(map[], None) == None && LeafSnapshot(map[], None) == map[]
  {
  }

  lemma Follow(cfg: Config, w: World, move: Move, next: World, rest: seq<Move>, moves: seq<Move>)
    requires Sound(w) && Step(cfg, w, move) == next && moves == [move] + rest
    ensures Sound(next) && Run(cfg, w, moves) == Run(cfg, next, rest)
  {
    hide Sound, Step;
    RunOne(cfg, w, move, rest);
  }

  lemma Ends(cfg: Config, w: World)
    requires Sound(w)
    ensures Run(cfg, w, []) == w
  {
    hide Sound;
  }

  // ---- Explicit worlds ----

  function World1(rows: Table, leaf: Option<nat>, tasks: map<nat, Task>, clock: nat): World {
    World(Db(rows, leaf, []), rows, tasks, clock)
  }

  // ---- A panel update while the first reply is not active yet ----

  function Nothing(): World {
    World(Db(map[], None, []), map[], map[], 0)
  }

  const USER := Message(0, None, User, 0, 0, false, false, OFF, [])
  const REPLY := Message(1, Some(0), Assistant, 1, 1, false, false, ON, [TOGGLE])
  const CARRIER := Message(2, None, System, 2, 2, false, true, ON, [])

  /** A first send up to its reply, which turns the switch on. */
  function FirstSend(): seq<Move> {
    [Open(0, Sends), Read(0), StoreUser(0, 0, 0), StoreReply(0, 1, 1, [TOGGLE])]
  }

  const TWO: Table := map[0 := USER, 1 := REPLY]

  /** The reply is stored and not yet the active leaf. */
  function Replied(others: map<nat, Task>): World {
    World1(TWO, None, others[0 := Activating(1)], 2)
  }

  lemma FirstSendRun(others: map<nat, Task>, rest: seq<Move>)
    requires 0 !in others && Sound(World1(map[], None, others, 0))
    ensures Sound(Replied(others))
    ensures Run(SwitchConfig(), World1(map[], None, others, 0), FirstSend() + rest)
            == Run(SwitchConfig(), Replied(others), rest)
  {
    hide SwitchConfig, ON, OFF, TOGGLE, Sound, Run, ReadTask, Step, ApplyUpdates;
    var cfg := SwitchConfig();
    SwitchFolds();
    FirstRead();
    var zero := World1(map[], None, others, 0);
    var one := World1(map[], None, others[0 := Opened(Sends, None)], 0);
    var two := World1(map[], None, others[0 := Sending(None, OFF)], 0);
    var three := World1(map[0 := USER], None, others[0 := Replying(Some(0), OFF, None)], 1);
    var last := [StoreReply(0, 1, 1, [TOGGLE])] + rest;
    var late := [StoreUser(0, 0, 0)] + last;
    var read := [Read(0)] + late;
    Opens(cfg, zero, 0, Sends);
    Reads(cfg, one, 0);
    StoresUser(cfg, two, 0, 0, 0);
    StoresReply(cfg, three, 0, 1, 1, [TOGGLE]);
    Follow(cfg, zero, Open(0, Sends), one, read, [Open(0, Sends)] + read);
    Follow(cfg, one, Read(0), two, late, read);
    Follow(cfg, two, StoreUser(0, 0, 0), three, last, late);
    Follow(cfg, three, StoreReply(0, 1, 1, [TOGGLE]), Replied(others), rest, last);
    assert FirstSend() + rest == [Open(0, Sends)] + read;
  }

  lemma FirstRead()
    ensures Forest(map[]) && ReadTask(SwitchConfig(), map[], Sends, None) == Some(Sending(None, OFF))
  {
    hide BranchState, SwitchConfig, OFF, ON, Leaf, LeafSnapshot;
    NoLeaf();
    SwitchStates();
  }

  lemma NothingIsSeeded()
    ensures Seeded(Nothing()) && Sound(Nothing())
  {
  }

  /** A panel update that has read a session row without a leaf goes on after the reply. */
  lemma PanelTail(leaf: Option<nat>, others: map<nat, Task>)
    requires 1 !in others && Sound(World1(TWO, leaf, others[1 := Opened(Updates([]), None)], 2))
    ensures var w := World1(TWO, leaf, others[1 := Opened(Updates([]), None)], 2);
            Run(SwitchConfig(), w, [Read(1), StoreCarrier(1, 2, 2)]).db.rows == TWO[2 := CARRIER]
    ensures Forest(TWO[2 := CARRIER]) && !Right(SwitchConfig(), TWO[2 := CARRIER], 2)
  {
    hide SwitchConfig, ON, OFF, TOGGLE, Sound, Run, ReadTask, Step, Right;
    var cfg := SwitchConfig();
    PanelReads();
    var one := World1(TWO, leaf, others[1 := Opened(Updates([]), None)], 2);
    var two := World1(TWO, leaf, others[1 := Carrying(None, ON, [])], 2);
    var three := World1(TWO[2 := CARRIER], Some(2), others, 3);
    Reads(cfg, one, 1);
    StoresCarrier(cfg, two, 1, 2, 2);
    assert two.tasks - {1} == others;
    var last := [StoreCarrier(1, 2, 2)];
    assert [Read(1)] + last == [Read(1), StoreCarrier(1, 2, 2)];
    Follow(cfg, one, Read(1), two, last, [Read(1), StoreCarrier(1, 2, 2)]);
    assert last + [] == last;
    Follow(cfg, two, StoreCarrier(1, 2, 2), three, [], last);
    Ends(cfg, three);
    LoneRootIsWrong(three.db.rows, 2);
  }

  lemma PanelReads()
    ensures Forest(TWO)
    ensures ReadTask(SwitchConfig(), TWO, Updates([]), None) == Some(Carrying(None, ON, []))
  {
    hide BranchState, ApplyUpdates, Effective, SwitchConfig, OFF, ON, Leaf, LeafSnapshot;
    NewestOf(TWO, 1);
    SwitchStates();
    SwitchFolds();
  }

  /**
   * A panel update that comes between a first reply and its activation stores a root of its own, and stores it with what
   * the reply turned on, though nothing on that root's branch did.
   */
  lemma PanelGoesWrong()
    ensures var cfg, w := SwitchConfig(), Nothing();
            && Seeded(w) && Sound(w)
            && var rows := Run(cfg, w, FirstSend() + [Open(1, Updates([])), Read(1), StoreCarrier(1, 2, 2)]).db.rows;
            Forest(rows) && 2 in rows && rows[2] == CARRIER && !Right(cfg, rows, 2)
  {
    hide SwitchConfig, ON, OFF, TOGGLE, Sound, Run, Step, Right;
    var cfg, tail := SwitchConfig(), [Read(1), StoreCarrier(1, 2, 2)];
    var others: map<nat, Task> := map[0 := Activating(1)];
    var open := Open(1, Updates([]));
    NothingIsSeeded();
    FirstSendRun(map[], [open] + tail);
    Opens(cfg, Replied(map[]), 1, Updates([]));
    Follow(cfg, Replied(map[]), open, World1(TWO, None, others[1 := Opened(Updates([]), None)], 2), tail, [open] + tail);
    PanelTail(None, others);
    assert [open] + tail == [open, Read(1), StoreCarrier(1, 2, 2)];
  }

  /**
   * The same without any gap in the send: the panel update reads the session row of an empty session, then the whole send
   * goes by, then it reads the messages.
   */
  lemma PanelRaceGoesWrong()
    ensures var cfg, w := SwitchConfig(), Nothing();
            && Seeded(w) && Sound(w)
            && var moves := [Open(1, Updates([]))] + (FirstSend() + [Advance(0), Read(1), StoreCarrier(1, 2, 2)]);
            var rows := Run(cfg, w, moves).db.rows;
            Forest(rows) && 2 in rows && rows[2] == CARRIER && !Right(cfg, rows, 2)
  {
    hide SwitchConfig, ON, OFF, TOGGLE, Sound, Run, Step, Right, FirstSend;
    var cfg, tail := SwitchConfig(), [Read(1), StoreCarrier(1, 2, 2)];
    var waits: map<nat, Task> := map[1 := Opened(Updates([]), None)];
    var open, rest := Open(1, Updates([])), [Advance(0)] + tail;
    NothingIsSeeded();
    Opens(cfg, Nothing(), 1, Updates([]));
    Follow(cfg, Nothing(), open, World1(map[], None, waits, 0), FirstSend() + rest, [open] + (FirstSend() + rest));
    FirstSendRun(waits, rest);
    var sent := World1(TWO, Some(1), map[][1 := Opened(Updates([]), None)], 2);
    Advances(cfg, Replied(waits), 0);
    assert Replied(waits).tasks - {0} == sent.tasks;
    Follow(cfg, Replied(waits), Advance(0), sent, tail, rest);
    PanelTail(Some(1), map[]);
    assert rest == [Advance(0), Read(1), StoreCarrier(1, 2, 2)];
  }

  // ---- Regenerating a reply that was imported without a parent ----

  const LONE := Message(0, None, Assistant, 0, 0, true, false, map[], [])
  const SWITCHED := Message(1, Some(0), System, 1, 1, false, true, ON, [TOGGLE])
  const SIBLING := Message(2, None, Assistant, 2, 2, false, false, ON, [])

  /** A session as an import leaves it, whose document held one reply and no parent for it. */
  function Imported(): World {
    World1(map[0 := LONE], Some(0), map[], 1)
  }

  lemma ImportedIsSound()
    ensures Sound(Imported())
  {
  }

  lemma EmptyStands()
    ensures StandsFor(SwitchConfig(), map[], [[]])
  {
    hide BranchState, ApplyUpdates, SwitchConfig, OFF, ON;
    SwitchStates();
    SwitchFolds();
    ReplayStep(SwitchConfig(), [], []);
    var nothing: seq<seq<Update>> := [];
    assert nothing + [[]] == [[]];
  }

  lemma ImportedIsTruthful()
    ensures Sound(Imported()) && Truthful(SwitchConfig(), Imported())
  {
    hide StandsFor, Replay, SwitchConfig, Sound;
    ImportedIsSound();
    EmptyStands();
    ImportedStory();
  }

  lemma ImportedStory()
    ensures Sound(Imported()) && Story(Imported().all, 0) == [[]]
  {
  }

  /** A panel update under the reply turns the switch on. */
  function SwitchOn(): seq<Move> {
    [Open(0, Updates([TOGGLE])), Read(0), StoreCarrier(0, 1, 1)]
  }

  lemma SwitchReads()
    ensures var rows: Table := map[0 := LONE];
            && Forest(rows)
            && ReadTask(SwitchConfig(), rows, Updates([TOGGLE]), Some(0)) == Some(Carrying(Some(0), ON, [TOGGLE]))
  {
    hide BranchState, ApplyUpdates, Effective, SwitchConfig, OFF, ON, Leaf, LeafSnapshot;
    SwitchStates();
    SwitchFolds();
    LeafGiven(map[0 := LONE], 0);
  }

  lemma SwitchOnRun(rest: seq<Move>)
    ensures var w := World1(map[0 := LONE, 1 := SWITCHED], Some(1), map[], 2);
            && Sound(Imported()) && Sound(w)
            && Run(SwitchConfig(), Imported(), SwitchOn() + rest) == Run(SwitchConfig(), w, rest)
  {
    hide SwitchConfig, ON, OFF, TOGGLE, Sound, Run, ReadTask, Step;
    var cfg, open := SwitchConfig(), Open(0, Updates([TOGGLE]));
    var last := [StoreCarrier(0, 1, 1)] + rest;
    var read := [Read(0)] + last;
    SwitchReads();
    ImportedIsSound();
    var one := World1(map[0 := LONE], Some(0), map[0 := Opened(Updates([TOGGLE]), Some(0))], 1);
    var two := World1(map[0 := LONE], Some(0), map[0 := Carrying(Some(0), ON, [TOGGLE])], 1);
    var three := World1(map[0 := LONE, 1 := SWITCHED], Some(1), map[], 2);
    Opens(cfg, Imported(), 0, Updates([TOGGLE]));
    Reads(cfg, one, 0);
    StoresCarrier(cfg, two, 0, 1, 1);
    Follow(cfg, Imported(), open, one, read, [open] + read);
    Follow(cfg, one, Read(0), two, last, read);
    assert two.tasks - {0} == map[];
    Follow(cfg, two, StoreCarrier(0, 1, 1), three, rest, last);
    assert SwitchOn() + rest == [open] + read;
  }

  /** A regenerate that has read the switch as on stores its sibling so. */
  lemma SiblingTail()
    ensures var all: Table := map[0 := LONE, 1 := SWITCHED];
            var w := World1(all, Some(1), map[0 := Replying(None, ON, Some(LONE))], 2);
            && Sound(w)
            && var rows := Run(SwitchConfig(), w, [HideTarget(0), StoreReply(0, 2, 2, [])]).db.rows;
            2 in rows && rows[2] == SIBLING && !Right(SwitchConfig(), rows, 2)
  {
    hide BranchState, ApplyUpdates, Effective, SwitchConfig, OFF, ON, Sound, Run, Right, Step;
    var cfg, store := SwitchConfig(), StoreReply(0, 2, 2, []);
    SwitchFolds();
    var all: Table := map[0 := LONE, 1 := SWITCHED];
    var hidden: Table := map[0 := LONE.(hidden := true), 1 := SWITCHED];
    var two := World1(all, Some(1), map[0 := Replying(None, ON, Some(LONE))], 2);
    var three := World(Db(hidden, Some(1), []), all, map[0 := Replying(None, ON, None)], 2);
    var four := World(Db(hidden[2 := SIBLING], Some(1), []), all[2 := SIBLING], map[0 := Activating(2)], 3);
    SiblingSound(two);
    Hides(cfg, two, 0);
    StoresReply(cfg, three, 0, 2, 2, []);
    Follow(cfg, two, HideTarget(0), three, [store], [HideTarget(0), store]);
    Follow(cfg, three, store, four, [], [store]);
    Ends(cfg, four);
    LoneRootIsWrong(four.db.rows, 2);
  }

  lemma SiblingSound(w: World)
    requires w == World1(map[0 := LONE, 1 := SWITCHED], Some(1), map[0 := Replying(None, ON, Some(LONE))], 2)
    ensures Sound(w)
  {
  }

  /** Regenerating that reply then stores a sibling with the switch on, though nothing on its own branch turned it on. */
  lemma RegenerateAtRootGoesWrong()
    ensures var cfg, w := SwitchConfig(), Imported();
            && Sound(w) && Truthful(cfg, w)
            && var rows :=
                 Run(cfg, w, SwitchOn() + [Open(0, Regenerates(0)), Read(0), HideTarget(0), StoreReply(0, 2, 2, [])]).db.rows;
            2 in rows && rows[2] == SIBLING && !Right(cfg, rows, 2)
  {
    hide BranchState, ApplyUpdates, Effective, SwitchConfig, OFF, ON, Sound, Run, Right, Leaf, LeafSnapshot, Step, Truthful;
    var cfg, open, tail := SwitchConfig(), Open(0, Regenerates(0)), [HideTarget(0), StoreReply(0, 2, 2, [])];
    SwitchStates();
    ImportedIsTruthful();
    SwitchOnRun([open, Read(0)] + tail);
    var all: Table := map[0 := LONE, 1 := SWITCHED];
    var start := World1(all, Some(1), map[], 2);
    var one := World1(all, Some(1), map[0 := Opened(Regenerates(0), Some(1))], 2);
    var two := World1(all, Some(1), map[0 := Replying(None, ON, Some(LONE))], 2);
    NewestOf(all, 1);
    Opens(cfg, start, 0, Regenerates(0));
    Reads(cfg, one, 0);
    assert [open, Read(0)] + tail == [open] + ([Read(0)] + tail);
    Follow(cfg, start, open, one, [Read(0)] + tail, [open] + ([Read(0)] + tail));
    Follow(cfg, one, Read(0), two, tail, [Read(0)] + tail);
    SiblingTail();
    assert [open, Read(0)] + tail == [open, Read(0), HideTarget(0), StoreReply(0, 2, 2, [])];
  }
}
