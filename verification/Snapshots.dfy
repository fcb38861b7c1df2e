/** Over whole runs: snapshots agree with replaying a branch from its root, and summaries with walking it. */
module Snapshots {
  import opened Text
  import opened States
  import opened Protocol
  import opened Tree
  import opened Storage
  import opened Summaries
  import opened Conversations

  /** The updates of the messages from the root down to `id`. */
  function Story(t: Table, id: nat): (story: seq<seq<Update>>)
    requires Forest(t) && id in t
    decreases t[id].order
  {
    (if t[id].parent.Some? then Story(t, t[id].parent.value) else []) + [t[id].updates]
  }

  lemma {:induction false} StoryIsAlongPath(t: Table, id: nat)
    requires Forest(t) && id in t
    ensures |Story(t, id)| == |Path(t, id)|
    ensures forall k :: 0 <= k < |Path(t, id)| ==> Story(t, id)[k] == t[Path(t, id)[k]].updates
    decreases t[id].order
  {
    if t[id].parent.Some? {
      StoryIsAlongPath(t, t[id].parent.value);
    }
  }

  lemma {:induction false} StoryAgrees(t: Table, u: Table, id: nat)
    requires Forest(t) && Forest(u) && id in t
    requires forall x :: x in t ==> x in u && u[x].parent == t[x].parent && u[x].updates == t[x].updates
    ensures Story(u, id) == Story(t, id)
    decreases t[id].order
  {
    if t[id].parent.Some? {
      StoryAgrees(t, u, t[id].parent.value);
    }
  }

  function StoryTo(t: Table, parent: Option<nat>): seq<seq<Update>>
    requires Forest(t) && (parent.Some? ==> parent.value in t)
  {
    if parent.Some? then Story(t, parent.value) else []
  }

  /**
   * A snapshot stands for the replay of its branch; and one that a reply or a user turn wrote is the replay. (What a new
   * session is seeded with, and what a panel writes, may leave out what the next reader adds.)
   */
  predicate Right(cfg: Config, t: Table, id: nat)
    requires Forest(t) && id in t
  {
    && StandsFor(cfg, t[id].snapshot, Story(t, id))
    && (!t[id].opening && !t[id].role.System? ==> t[id].snapshot == Replay(cfg, Story(t, id)))
  }

  predicate TaskRight(cfg: Config, rows: Table, all: Table, t: Task)
    requires Forest(all) && TaskSound(all, t)
  {
    match t
    case Sending(parent, base) => base == Replay(cfg, StoryTo(all, parent))
    case Replying(parent, base, _) => base == Replay(cfg, StoryTo(all, parent))
    case Carrying(parent, snapshot, updates) =>
      (parent.Some? ==> parent.value in rows) ==> StandsFor(cfg, snapshot, StoryTo(all, parent) + [updates])
    case _ => true
  }

  ghost predicate Truthful(cfg: Config, w: World)
    requires Sound(w)
  {
    && (forall id :: id in w.all ==> Right(cfg, w.all, id))
    && forall k :: k in w.tasks ==> TaskRight(cfg, w.db.rows, w.all, w.tasks[k])
  }

  /** The newest message, which a path without a leaf falls back to, carries the initial state, or there is none. */
  ghost predicate FallbackFits(cfg: Config, rows: Table)
    requires Forest(rows)
  {
    BranchState(cfg, LeafSnapshot(rows, None)) == BranchState(cfg, map[])
  }

  /** A panel update that reads the messages now, with this leaf from the session row, reads the branch it is stored under. */
  ghost predicate PanelFits(cfg: Config, rows: Table, leaf: Option<nat>)
    requires Forest(rows)
  {
    leaf.Some? || FallbackFits(cfg, rows)
  }

  ghost predicate RegenerateFits(cfg: Config, rows: Table, target: nat)
    requires Forest(rows) && target in rows
  {
    rows[target].parent.Some? || FallbackFits(cfg, rows)
  }

  predicate ReadsNow(w: World, move: Move) {
    move.Read? && move.task in w.tasks && w.tasks[move.task].Opened?
  }

  ghost predicate PanelProper(cfg: Config, w: World, move: Move)
    requires Forest(w.db.rows)
  {
    ReadsNow(w, move) && w.tasks[move.task].operation.Updates? ==>
      PanelFits(cfg, w.db.rows, w.tasks[move.task].leaf)
  }

  ghost predicate RegenerateProper(cfg: Config, w: World, move: Move)
    requires Forest(w.db.rows)
  {
    ReadsNow(w, move) && w.tasks[move.task].operation.Regenerates?
    && Regenerable(w.db.rows, w.tasks[move.task].operation.target) ==>
      RegenerateFits(cfg, w.db.rows, w.tasks[move.task].operation.target)
  }

  lemma LeafStands(cfg: Config, w: World, leaf: Option<nat>)
    requires Sound(w) && Truthful(cfg, w)
    ensures var at := Leaf(w.db.rows, leaf);
            && (at.Some? ==> at.value in w.all)
            && StandsFor(cfg, LeafSnapshot(w.db.rows, leaf), StoryTo(w.all, at))
  {
    hide Story, BranchState, Replay, TaskRight, TaskSound, Exact;
    RowsKnown(w);
    if Leaf(w.db.rows, leaf).None? {
      NothingStandsForRoot(cfg);
    } else {
      assert Right(cfg, w.all, Leaf(w.db.rows, leaf).value);
    }
  }

  lemma SendRight(cfg: Config, w: World, leaf: Option<nat>)
    requires Sound(w) && Truthful(cfg, w)
    ensures var t := SendTask(cfg, w.db.rows, leaf); TaskSound(w.all, t) && TaskRight(cfg, w.db.rows, w.all, t)
  {
    hide Story, BranchState, Replay, LeafSnapshot, Forest, RowsAgree, Leaf, Right;
    LeafStands(cfg, w, leaf);
  }

  lemma RegenerateRight(cfg: Config, w: World, target: nat)
    requires Sound(w) && Truthful(cfg, w) && target in w.db.rows && RegenerateFits(cfg, w.db.rows, target)
    ensures var t := RegenerateTask(cfg, w.db.rows, target);
            TaskSound(w.all, t) && TaskRight(cfg, w.db.rows, w.all, t)
  {
    hide Story, BranchState, LeafSnapshot, Forest, RowsAgree, Right;
    LeafStands(cfg, w, w.db.rows[target].parent);
    RowsKnown(w);
    ForestParents(w.db.rows, target);
  }

  lemma PanelRight(cfg: Config, w: World, leaf: Option<nat>, updates: seq<Update>)
    requires Sound(w) && Truthful(cfg, w) && (leaf.Some? ==> leaf.value in w.all) && PanelFits(cfg, w.db.rows, leaf)
    ensures var t := PanelTask(cfg, w.db.rows, leaf, updates);
            TaskSound(w.all, t) && TaskRight(cfg, w.db.rows, w.all, t)
  {
    hide Story, BranchState, LeafSnapshot, Forest, RowsAgree, Right, Effective, ApplyUpdates;
    LeafStands(cfg, w, leaf);
    if leaf.None? {
      assert StandsFor(cfg, LeafSnapshot(w.db.rows, leaf), []);
    }
    PanelContinues(cfg, LeafSnapshot(w.db.rows, leaf), if leaf.Some? then StoryTo(w.all, Leaf(w.db.rows, leaf)) else [], updates);
  }

  // ---- Inserts ----

  lemma GrowKeepsStories(t: Table, m: Message)
    requires Forest(t) && m.id !in t && Forest(t[m.id := m])
    ensures forall id :: id in t ==> Story(t[m.id := m], id) == Story(t, id)
    ensures (m.parent.Some? ==> m.parent.value in t) ==>
              Story(t[m.id := m], m.id) == StoryTo(t, m.parent) + [m.updates]
  {
    var u := t[m.id := m];
    forall id | id in t
      ensures Story(u, id) == Story(t, id)
    {
      StoryAgrees(t, u, id);
    }
  }

  lemma TaskRightGrows(cfg: Config, rows: Table, all: Table, m: Message, t: Task)
    requires Forest(all) && m.id !in all && Forest(all[m.id := m])
    requires TaskSound(all, t) && TaskSound(all[m.id := m], t) && TaskRight(cfg, rows, all, t)
    ensures TaskRight(cfg, rows[m.id := m], all[m.id := m], t)
  {
    hide Story, Replay, StandsFor, Forest, Exact;
    GrowKeepsStories(all, m);
  }

  /** What a new message must carry for its snapshot to be right. */
  predicate Fits(cfg: Config, all: Table, m: Message)
    requires Forest(all) && (m.parent.Some? ==> m.parent.value in all)
  {
    && StandsFor(cfg, m.snapshot, StoryTo(all, m.parent) + [m.updates])
    && (!m.role.System? ==> m.snapshot == Replay(cfg, StoryTo(all, m.parent) + [m.updates]))
  }

  lemma FitsIsRight(cfg: Config, all: Table, m: Message)
    requires Forest(all) && m.id !in all && Forest(all[m.id := m])
    requires m.parent.Some? ==> m.parent.value in all
    requires Fits(cfg, all, m)
    ensures Right(cfg, all[m.id := m], m.id)
  {
    hide Story, Replay, StandsFor, Forest;
    GrowKeepsStories(all, m);
  }

  lemma RightGrows(cfg: Config, all: Table, m: Message, id: nat)
    requires Forest(all) && m.id !in all && Forest(all[m.id := m])
    requires id in all && Right(cfg, all, id)
    ensures Right(cfg, all[m.id := m], id)
  {
    hide Story, Replay, StandsFor, Forest;
    GrowKeepsStories(all, m);
  }

  /** The task that an insert leaves behind starts from the state the new message carries. */
  predicate Continues(m: Message, next: Option<Task>) {
    next.Some? && next.value.Replying? ==> next.value.base == m.snapshot && !m.role.System?
  }

  lemma StoreRowRight(cfg: Config, w: World, k: nat, m: Message, next: Option<Task>, advance: bool)
    requires Sound(w) && Truthful(cfg, w) && m.order == w.clock && Follows(m, next) && Continues(m, next)
    requires m.parent.Some? ==> m.parent.value in w.all
    requires Insertable(w.db.rows, m) ==> Fits(cfg, w.all, m)
    ensures Sound(StoreRow(w, k, m, next, advance)) && Truthful(cfg, StoreRow(w, k, m, next, advance))
  {
    hide Forest, Exact, RowsAgree, TaskSound, TaskRight, Right, Fits, Path;
    var out := StoreRow(w, k, m, next, advance);
    StoreRowSound(w, k, m, next, advance);
    if m.id !in w.all && Insertable(w.db.rows, m) {
      FitsIsRight(cfg, w.all, m);
      forall id | id in out.all
        ensures Right(cfg, out.all, id)
      {
        if id != m.id {
          RightGrows(cfg, w.all, m, id);
        }
      }
      forall j | j in out.tasks
        ensures TaskRight(cfg, out.db.rows, out.all, out.tasks[j])
      {
        if j == k && next.Some? {
          FollowerRight(cfg, w, out, m, next.value);
        } else {
          assert out.tasks[j] == w.tasks[j];
          TaskRightGrows(cfg, w.db.rows, w.all, m, w.tasks[j]);
        }
      }
    }
  }

  lemma FollowerRight(cfg: Config, w: World, out: World, m: Message, t: Task)
    requires Sound(w) && Sound(out) && out.all == w.all[m.id := m] && m.id !in w.all
    requires m.parent.Some? ==> m.parent.value in w.all
    requires Fits(cfg, w.all, m) && Follows(m, Some(t)) && Continues(m, Some(t))
    requires TaskSound(out.all, t)
    ensures TaskRight(cfg, out.db.rows, out.all, t)
  {
    hide Forest, Exact, RowsAgree, Story, Replay, StandsFor;
    GrowKeepsStories(w.all, m);
  }

  /** A replayed state stands for its own branch. */
  lemma ReplayStands(cfg: Config, story: seq<seq<Update>>)
    ensures StandsFor(cfg, Replay(cfg, story), story)
  {
    hide BranchState, Settled;
    ReplaySettled(cfg, story);
    SettledIsFixed(cfg, Replay(cfg, story));
  }

  lemma ReplayStep(cfg: Config, story: seq<seq<Update>>, updates: seq<Update>)
    ensures Replay(cfg, story + [updates]) == ApplyUpdates(Replay(cfg, story), cfg.schema, updates, cfg.readers)
  {
    assert (story + [updates])[..|story|] == story;
  }

  /** What a reply folds into is a replay already, so its own snapshot is one too. */
  lemma FoldOfReplay(cfg: Config, story: seq<seq<Update>>, updates: seq<Update>)
    ensures var s := ApplyUpdates(Replay(cfg, story), cfg.schema, updates, cfg.readers);
            s == Replay(cfg, story + [updates]) && StandsFor(cfg, s, story + [updates])
  {
    hide BranchState, ApplyUpdates, Replay;
    ReplayStands(cfg, story);
    FoldContinues(cfg, Replay(cfg, story), story, updates);
  }

  lemma UserFits(cfg: Config, w: World, k: nat, id: nat, created: nat)
    requires Sound(w) && Truthful(cfg, w) && k in w.tasks && w.tasks[k].Sending?
    ensures var m := UserMessage(w, w.tasks[k], id, created);
            (m.parent.Some? ==> m.parent.value in w.all) && Fits(cfg, w.all, m)
  {
    hide Forest, Exact, RowsAgree, Story, Replay, StandsFor, Right;
    var t := w.tasks[k];
    assert TaskSound(w.all, t) && TaskRight(cfg, w.db.rows, w.all, t);
    ReplayStep(cfg, StoryTo(w.all, t.parent), []);
    ReplayStands(cfg, StoryTo(w.all, t.parent) + [[]]);
  }

  lemma ReplyFits(cfg: Config, w: World, k: nat, id: nat, created: nat, updates: seq<Update>)
    requires Sound(w) && Truthful(cfg, w) && k in w.tasks && w.tasks[k].Replying?
    ensures var m := ReplyMessage(cfg, w, w.tasks[k], id, created, updates);
            (m.parent.Some? ==> m.parent.value in w.all) && Fits(cfg, w.all, m)
  {
    hide Forest, Exact, RowsAgree, Story, Replay, StandsFor, Right, ApplyUpdates;
    var t := w.tasks[k];
    assert TaskSound(w.all, t) && TaskRight(cfg, w.db.rows, w.all, t);
    FoldOfReplay(cfg, StoryTo(w.all, t.parent), updates);
  }

  lemma CarrierFits(cfg: Config, w: World, k: nat, id: nat, created: nat)
    requires Sound(w) && Truthful(cfg, w) && k in w.tasks && w.tasks[k].Carrying?
    ensures var m := CarrierMessage(w, w.tasks[k], id, created);
            && (m.parent.Some? ==> m.parent.value in w.all)
            && (Insertable(w.db.rows, m) ==> Fits(cfg, w.all, m))
  {
    hide Forest, Exact, RowsAgree, Story, Replay, StandsFor, Right;
    var t := w.tasks[k];
    assert TaskSound(w.all, t) && TaskRight(cfg, w.db.rows, w.all, t);
  }

  // ---- Runs ----

  lemma StartRight(cfg: Config, w: World, k: nat, t: Task)
    requires Sound(w) && Truthful(cfg, w) && TaskSound(w.all, t) && TaskRight(cfg, w.db.rows, w.all, t)
    ensures Sound(Start(w, k, t)) && Truthful(cfg, Start(w, k, t))
  {
    hide Forest, Exact, RowsAgree, Right, TaskRight, TaskSound;
  }

  /** Fewer rows, other hidden flags, other leaves and summaries, and tasks that end or hold no state, change nothing. */
  lemma RightStays(cfg: Config, w: World, out: World)
    requires Sound(w) && Truthful(cfg, w) && Sound(out)
    requires out.all == w.all && out.db.rows.Keys <= w.db.rows.Keys
    requires forall k :: k in out.tasks ==>
               && k in w.tasks
               && (out.tasks[k] == w.tasks[k]
                   || (w.tasks[k].Replying? && out.tasks[k] == w.tasks[k].(retire := None)))
    ensures Truthful(cfg, out)
  {
    hide Forest, Exact, RowsAgree, Right, Story, Replay, StandsFor;
    forall k | k in out.tasks
      ensures TaskRight(cfg, out.db.rows, out.all, out.tasks[k])
    {
      assert TaskRight(cfg, w.db.rows, w.all, w.tasks[k]);
    }
  }

  lemma ContinueRight(cfg: Config, w: World, k: nat, next: Option<Task>)
    requires Sound(w) && Truthful(cfg, w)
    requires next.Some? ==> TaskSound(w.all, next.value) && TaskRight(cfg, w.db.rows, w.all, next.value)
    ensures Sound(Continue(w, k, next)) && Truthful(cfg, Continue(w, k, next))
  {
    hide Forest, Exact, RowsAgree, Right, TaskRight, TaskSound;
  }

  /** A task that holds no state is right. */
  lemma NoStateIsRight(cfg: Config, rows: Table, all: Table, t: Task)
    requires Forest(all) && TaskSound(all, t) && (t.Opened? || t.Folding? || t.Digesting?)
    ensures TaskRight(cfg, rows, all, t)
  {
  }

  lemma ReadRight(cfg: Config, w: World, k: nat)
    requires Sound(w) && Truthful(cfg, w) && k in w.tasks && w.tasks[k].Opened?
    requires PanelProper(cfg, w, Read(k)) && RegenerateProper(cfg, w, Read(k))
    ensures var t := ReadTask(cfg, w.db.rows, w.tasks[k].operation, w.tasks[k].leaf);
            t.Some? ==> TaskSound(w.all, t.value) && TaskRight(cfg, w.db.rows, w.all, t.value)
  {
    hide Forest, Exact, RowsAgree, Right, TaskRight, SendTask, RegenerateTask, PanelTask, FoldTask, Truthful;
    hide PanelFits, RegenerateFits;
    assert TaskSound(w.all, w.tasks[k]);
    var leaf := w.tasks[k].leaf;
    match w.tasks[k].operation
    case Sends => SendRight(cfg, w, leaf);
    case Regenerates(target) =>
      if Regenerable(w.db.rows, target) {
        RegenerateRight(cfg, w, target);
      }
    case Updates(updates) => PanelRight(cfg, w, leaf, updates);
    case Folds(keep) => FoldRight(cfg, w, leaf, keep);
  }

  lemma FoldRight(cfg: Config, w: World, leaf: Option<nat>, keep: nat)
    requires Sound(w) && (leaf.Some? ==> leaf.value in w.all)
    ensures var t := FoldTask(w.db.rows, leaf, keep); TaskSound(w.all, t) && TaskRight(cfg, w.db.rows, w.all, t)
  {
    hide Exact, RowsAgree, Active, Path;
    ActiveIsAPath(w, leaf);
  }

  lemma StepKeepsTruthful(cfg: Config, w: World, move: Move)
    requires Sound(w) && Truthful(cfg, w) && PanelProper(cfg, w, move) && RegenerateProper(cfg, w, move)
    ensures Sound(Step(cfg, w, move)) && Truthful(cfg, Step(cfg, w, move))
  {
    hide Forest, Exact, RowsAgree, Right, TaskRight, Fits, StoreRow, Start, Continue, Truthful;
    hide ReadTask, Digest, Path, Under, PanelProper, RegenerateProper;
    StepKeepsSound(cfg, w, move);
    match move
    case Open(k, op) =>
      NoStateIsRight(cfg, w.db.rows, w.all, Opened(op, w.db.leaf));
      StartRight(cfg, w, k, Opened(op, w.db.leaf));
    case Read(k) =>
      if k in w.tasks && w.tasks[k].Opened? {
        ReadRight(cfg, w, k);
        ContinueRight(cfg, w, k, ReadTask(cfg, w.db.rows, w.tasks[k].operation, w.tasks[k].leaf));
      }
    case ReadSummaries(k) =>
      if k in w.tasks && w.tasks[k].Folding? {
        var d := Digest(w.db.summaries, w.tasks[k].path, w.tasks[k].keepRecent);
        DigestSound(w, w.tasks[k].path, w.tasks[k].keepRecent);
        if d.Some? {
          NoStateIsRight(cfg, w.db.rows, w.all, Digesting(d.value));
        }
        ContinueRight(cfg, w, k, if d.Some? then Some(Digesting(d.value)) else None);
      }
    case StoreUser(k, id, created) =>
      if k in w.tasks && w.tasks[k].Sending? {
        UserFits(cfg, w, k, id, created);
        StoreRowRight(cfg, w, k, UserMessage(w, w.tasks[k], id, created),
                      Some(Replying(Some(id), w.tasks[k].base, None)), false);
      }
    case StoreReply(k, id, created, updates) =>
      if k in w.tasks && w.tasks[k].Replying? && w.tasks[k].retire.None? {
        ReplyFits(cfg, w, k, id, created, updates);
        StoreRowRight(cfg, w, k, ReplyMessage(cfg, w, w.tasks[k], id, created, updates), Some(Activating(id)), false);
      }
    case StoreCarrier(k, id, created) =>
      if k in w.tasks && w.tasks[k].Carrying? {
        CarrierFits(cfg, w, k, id, created);
        StoreRowRight(cfg, w, k, CarrierMessage(w, w.tasks[k], id, created), None, true);
      }
    case _ =>
      RightStays(cfg, w, Step(cfg, w, move));
  }

  ghost function Run(cfg: Config, w: World, moves: seq<Move>): (out: World)
    requires Sound(w)
    ensures Sound(out)
    decreases |moves|
  {
    if moves == [] then w
    else
      StepKeepsSound(cfg, w, moves[0]);
      Run(cfg, Step(cfg, w, moves[0]), moves[1..])
  }

  lemma RunOne(cfg: Config, w: World, move: Move, rest: seq<Move>)
    requires Sound(w)
    ensures Sound(Step(cfg, w, move))
    ensures Run(cfg, w, [move] + rest) == Run(cfg, Step(cfg, w, move), rest)
  {
    hide Exact, TaskSound, RowsAgree, Step;
    StepKeepsSound(cfg, w, move);
    assert ([move] + rest)[0] == move && ([move] + rest)[1..] == rest;
  }

  ghost predicate PanelsProper(cfg: Config, w: World, moves: seq<Move>)
    requires Sound(w)
    decreases |moves|
  {
    moves != [] ==>
      && PanelProper(cfg, w, moves[0])
      && (StepKeepsSound(cfg, w, moves[0]); PanelsProper(cfg, Step(cfg, w, moves[0]), moves[1..]))
  }

  ghost predicate RegeneratesProper(cfg: Config, w: World, moves: seq<Move>)
    requires Sound(w)
    decreases |moves|
  {
    moves != [] ==>
      && RegenerateProper(cfg, w, moves[0])
      && (StepKeepsSound(cfg, w, moves[0]); RegeneratesProper(cfg, Step(cfg, w, moves[0]), moves[1..]))
  }

  lemma {:induction false} RunKeepsTruthful(cfg: Config, w: World, moves: seq<Move>)
    requires Sound(w) && Truthful(cfg, w) && PanelsProper(cfg, w, moves) && RegeneratesProper(cfg, w, moves)
    ensures Truthful(cfg, Run(cfg, w, moves))
    decreases |moves|
  {
    hide Exact, TaskSound, RowsAgree, Truthful, Step, PanelProper, RegenerateProper;
    if moves != [] {
      StepKeepsTruthful(cfg, w, moves[0]);
      RunKeepsTruthful(cfg, Step(cfg, w, moves[0]), moves[1..]);
    }
  }

  // ---- Sessions that seed themselves ----

  /** Every reply, stored or under way, has a parent. */
  ghost predicate Anchored(w: World) {
    && (forall id :: id in w.all && w.all[id].role.Assistant? ==> w.all[id].parent.Some?)
    && forall k :: k in w.tasks && w.tasks[k].Replying? ==> w.tasks[k].parent.Some?
  }

  lemma StepKeepsAnchored(cfg: Config, w: World, move: Move)
    requires Sound(w) && Anchored(w)
    ensures Anchored(Step(cfg, w, move))
  {
    hide Forest, Exact, TaskSound, RowsAgree, LeafSnapshot, BranchState, ApplyUpdates, Effective, Active, Digest, Deleted;
    RowsKnown(w);
  }

  lemma AnchoredIsProper(cfg: Config, w: World, move: Move)
    requires Sound(w) && Anchored(w)
    ensures RegenerateProper(cfg, w, move)
  {
    hide Forest, Exact, TaskSound, RowsAgree, FallbackFits;
    RowsKnown(w);
  }

  lemma {:induction false} AnchoredRunIsProper(cfg: Config, w: World, moves: seq<Move>)
    requires Sound(w) && Anchored(w)
    ensures Anchored(Run(cfg, w, moves)) && RegeneratesProper(cfg, w, moves)
    decreases |moves|
  {
    hide Exact, TaskSound, RowsAgree, Anchored, Step, RegenerateProper;
    if moves != [] {
      StepKeepsSound(cfg, w, moves[0]);
      AnchoredIsProper(cfg, w, moves[0]);
      StepKeepsAnchored(cfg, w, moves[0]);
      AnchoredRunIsProper(cfg, Step(cfg, w, moves[0]), moves[1..]);
    }
  }

  /**
   * A session as it is created: nothing, or an anchoring user turn with the greetings under it; these change no variable
   * and carry no snapshot.
   */
  predicate Seeded(w: World) {
    && Forest(w.db.rows) && w.all == w.db.rows
    && (forall id :: id in w.all ==>
          && w.all[id].opening && w.all[id].snapshot == map[] && w.all[id].updates == [] && w.all[id].order < w.clock
          && (w.all[id].role.Assistant? ==> w.all[id].parent.Some?))
    && (w.db.leaf.Some? ==> w.db.leaf.value in w.all)
    && w.db.summaries == [] && w.tasks == map[]
  }

  lemma SeededSound(w: World)
    requires Seeded(w)
    ensures Sound(w)
  {
    hide Exact;
  }

  lemma {:induction false} SeededStory(cfg: Config, w: World, id: nat)
    requires Seeded(w) && id in w.all
    ensures Replay(cfg, Story(w.all, id)) == BranchState(cfg, map[])
    decreases w.all[id].order
  {
    hide BranchState;
    var parent := w.all[id].parent;
    var front := StoryTo(w.all, parent);
    if parent.Some? {
      SeededStory(cfg, w, parent.value);
    }
    ReplayStep(cfg, front, []);
    assert Story(w.all, id) == front + [[]];
  }

  lemma SeededTruthful(cfg: Config, w: World)
    requires Seeded(w)
    ensures Sound(w) && Truthful(cfg, w)
  {
    hide Story, Replay, BranchState, Exact;
    SeededSound(w);
    forall id | id in w.all
      ensures Right(cfg, w.all, id)
    {
      SeededStory(cfg, w, id);
    }
  }

  /** The story of a message is the updates along its branch. */
  predicate AlongPath(t: Table, id: nat)
    requires Forest(t) && id in t
  {
    var path, story := Path(t, id), Story(t, id);
    |story| == |path| && forall k :: 0 <= k < |path| ==> story[k] == t[path[k]].updates
  }

  /**
   * In every state that a new session can reach, each stored snapshot agrees with replaying all updates along its branch
   * from the initial effective state, and what a reply or a user turn stored is that replay exactly. The one thing asked
   * of the moves is that a panel update does not read a store without a leaf whose newest message has left that state.
   */
  lemma SnapshotsAgree(cfg: Config, w: World, moves: seq<Move>)
    requires Seeded(w) && Sound(w) && PanelsProper(cfg, w, moves)
    ensures var rows := Run(cfg, w, moves).db.rows;
            forall id :: id in rows ==> Right(cfg, rows, id) && AlongPath(rows, id)
  {
    hide Truthful, Run, PanelsProper, RegeneratesProper, Right, AlongPath;
    SeededTruthful(cfg, w);
    assert Anchored(w);
    AnchoredRunIsProper(cfg, w, moves);
    RunKeepsTruthful(cfg, w, moves);
    TruthfulRows(cfg, Run(cfg, w, moves));
  }

  lemma TruthfulRows(cfg: Config, w: World)
    requires Sound(w) && Truthful(cfg, w)
    ensures forall id :: id in w.db.rows ==> Right(cfg, w.db.rows, id) && AlongPath(w.db.rows, id)
  {
    hide Forest, Exact, TaskSound, TaskRight, Story, Replay, StandsFor, Path;
    RowsKnown(w);
    forall id | id in w.db.rows
      ensures Right(cfg, w.db.rows, id) && AlongPath(w.db.rows, id)
    {
      StoryIsAlongPath(w.db.rows, id);
      StoryAgrees(w.db.rows, w.all, id);
      assert Right(cfg, w.all, id);
    }
  }

  // ---- Summaries ----

  /** Nothing that was ever stored is forgotten or stored again. */
  predicate Remembers(before: Table, after: Table) {
    forall id :: id in before ==> id in after && after[id] == before[id]
  }

  lemma StepRemembers(cfg: Config, w: World, move: Move)
    requires Sound(w)
    ensures Remembers(w.all, Step(cfg, w, move).all)
  {
    hide Forest, Exact, TaskSound, RowsAgree, ReadTask, BranchState, ApplyUpdates, Digest, Deleted;
  }

  lemma {:induction false} RunRemembers(cfg: Config, w: World, moves: seq<Move>)
    requires Sound(w)
    ensures Remembers(w.all, Run(cfg, w, moves).all)
    decreases |moves|
  {
    hide Exact, TaskSound, RowsAgree, Step;
    if moves != [] {
      StepKeepsSound(cfg, w, moves[0]);
      StepRemembers(cfg, w, moves[0]);
      RunRemembers(cfg, Step(cfg, w, moves[0]), moves[1..]);
    }
  }

  /** A branch as it was read is a branch of everything ever stored by then, or later. */
  lemma BranchIsRemembered(w: World, later: World, id: nat)
    requires Sound(w) && Sound(later) && Remembers(w.all, later.all) && id in w.db.rows
    ensures id in later.all && Path(w.db.rows, id) == Path(later.all, id)
  {
    hide Exact, TaskSound, Path;
    RowsKnown(w);
    PathAgrees(w.db.rows, later.all, id);
  }

  /**
   * In every state that a new session can reach, in any interleaving: a summary whose cutoff is still stored accounts for
   * exactly the branch down to it. And for any branch that was read at some moment, and summaries that were read at that
   * moment or later, the summary that applies, with the rest of the branch, gives each position once.
   */
  lemma SummariesAgree(cfg: Config, w: World, moves: seq<Move>, more: seq<Move>)
    requires Seeded(w) && Sound(w)
    ensures var now := Run(cfg, w, moves);
            var later := Run(cfg, now, more);
            && (forall s :: s in later.db.summaries && s.cutoff in later.db.rows ==>
                  Covered(s.text) == Path(later.db.rows, s.cutoff))
            && forall id :: id in now.db.rows ==>
                 var path := Path(now.db.rows, id);
                 Covered(SummaryText(later.db.summaries, path)) + path[VisibleStart(later.db.summaries, path)..] == path
  {
    hide Run, Seeded, TaskSound, Path, SummaryText, VisibleStart, Covered, Forest, RowsAgree, Remembers;
    var now := Run(cfg, w, moves);
    var later := Run(cfg, now, more);
    RunRemembers(cfg, now, more);
    forall s | s in later.db.summaries && s.cutoff in later.db.rows
      ensures Covered(s.text) == Path(later.db.rows, s.cutoff)
    {
      SelfRemembers(later.all);
      BranchIsRemembered(later, later, s.cutoff);
    }
    forall id | id in now.db.rows
      ensures var path := Path(now.db.rows, id);
              Covered(SummaryText(later.db.summaries, path)) + path[VisibleStart(later.db.summaries, path)..] == path
    {
      BranchIsRemembered(now, later, id);
      NoGapNoOverlap(later.all, later.db.summaries, id);
    }
  }

  lemma SelfRemembers(t: Table)
    ensures Remembers(t, t)
  {
  }
}
