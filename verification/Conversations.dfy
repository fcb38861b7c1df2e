/**
 * Sending, regenerating, panel updates, deleting, switching branches and background summarising, as steps over one
 * session's store. Each long operation reads the session row, then the messages, then the summaries where it needs them,
 * and writes later; any other step may come between any two of these.
 */
module Conversations {
  import opened Text
  import opened States
  import opened Protocol
  import opened Tree
  import opened Storage
  import opened Summaries

  datatype Operation =
    | Sends
    | Regenerates(target: nat)
    | Updates(updates: seq<Update>)
    | Folds(keepRecent: nat)

  /**
   * An operation under way. It has read the session row and remembers the active leaf (`Opened`); or has read the branch
   * that it will fold, but no summaries (`Folding`); or has writes to make.
   */
  datatype Task =
    | Opened(operation: Operation, leaf: Option<nat>)
    | Folding(path: seq<Message>, keepRecent: nat)
    | Sending(parent: Option<nat>, base: Snapshot)
    | Replying(parent: Option<nat>, base: Snapshot, retire: Option<Message>)
    | Activating(id: nat)
    | Carrying(parent: Option<nat>, snapshot: Snapshot, updates: seq<Update>)
    | Digesting(summary: Summary)

  /** `all` remembers every message ever stored, deleted or not; no id is given out twice. */
  datatype World = World(db: Db, all: Table, tasks: map<nat, Task>, clock: nat)

  // ---- What the operations read ----

  ghost function LeafSnapshot(rows: Table, leaf: Option<nat>): Snapshot
    requires Forest(rows)
  {
    if Leaf(rows, leaf).None? then map[] else rows[Leaf(rows, leaf).value].snapshot
  }

  ghost function SendTask(cfg: Config, rows: Table, leaf: Option<nat>): Task
    requires Forest(rows)
  {
    Sending(Leaf(rows, leaf), BranchState(cfg, LeafSnapshot(rows, leaf)))
  }

  ghost function RegenerateTask(cfg: Config, rows: Table, target: nat): Task
    requires Forest(rows) && target in rows
  {
    var m := rows[target];
    Replying(m.parent, BranchState(cfg, LeafSnapshot(rows, m.parent)), Some(m))
  }

  ghost function PanelTask(cfg: Config, rows: Table, leaf: Option<nat>, updates: seq<Update>): Task
    requires Forest(rows)
  {
    var state := Effective(cfg.schema, cfg.seed, LeafSnapshot(rows, leaf));
    Carrying(leaf, ApplyUpdates(state, cfg.schema, updates, cfg.readers), updates)
  }

  function Rows(t: Table, ids: seq<nat>): (ms: seq<Message>)
    requires forall k :: 0 <= k < |ids| ==> ids[k] in t
    ensures |ms| == |ids| && forall k :: 0 <= k < |ids| ==> ms[k] == t[ids[k]]
  {
    seq(|ids|, k requires 0 <= k < |ids| => t[ids[k]])
  }

  ghost function FoldTask(rows: Table, leaf: Option<nat>, keepRecent: nat): Task
    requires Forest(rows)
  {
    Folding(Rows(rows, Active(rows, leaf)), keepRecent)
  }

  predicate Regenerable(rows: Table, target: nat) {
    target in rows && rows[target].role.Assistant?
  }

  /** What an operation that remembers this leaf makes of the messages; none when it is refused or has nothing to do. */
  ghost function ReadTask(cfg: Config, rows: Table, op: Operation, leaf: Option<nat>): Option<Task>
    requires Forest(rows)
  {
    match op
    case Sends => Some(SendTask(cfg, rows, leaf))
    case Regenerates(target) => if Regenerable(rows, target) then Some(RegenerateTask(cfg, rows, target)) else None
    case Updates(updates) => Some(PanelTask(cfg, rows, leaf, updates))
    case Folds(keep) => if rows == map[] then None else Some(FoldTask(rows, leaf, keep))
  }

  method ReadBranch(store: Store, leaf: Option<nat>) returns (path: seq<Message>)
    requires Forest(store.rows)
    ensures path == Rows(store.rows, Active(store.rows, leaf))
    ensures LeafSnapshot(store.rows, leaf) == if path == [] then map[] else path[|path| - 1].snapshot
    ensures Leaf(store.rows, leaf) == if path == [] then None else Some(path[|path| - 1].id)
  {
    var messages := store.ListMessages();
    path := ActivePath(messages, leaf, store.rows);
    assert |Ids(path)| == |Active(store.rows, leaf)|;
    assert forall k :: 0 <= k < |path| ==> Ids(path)[k] == path[k].id;
  }

  method ReadState(cfg: Config, store: Store, leaf: Option<nat>) returns (path: seq<Message>, state: Snapshot)
    requires Forest(store.rows)
    ensures path == Rows(store.rows, Active(store.rows, leaf))
    ensures Leaf(store.rows, leaf) == if path == [] then None else Some(path[|path| - 1].id)
    ensures state == Effective(cfg.schema, cfg.seed, LeafSnapshot(store.rows, leaf))
  {
    path := ReadBranch(store, leaf);
    state := EffectiveState(cfg.schema, cfg.seed, if path == [] then map[] else path[|path| - 1].snapshot);
  }

  /** The leaf is the one the session row held; the messages are read now. */
  method ReadSend(cfg: Config, store: Store, leaf: Option<nat>) returns (task: Task)
    requires Forest(store.rows)
    ensures task == SendTask(cfg, store.rows, leaf)
  {
    var path, state := ReadState(cfg, store, leaf);
    task := Sending(if path == [] then None else Some(path[|path| - 1].id), Inject(state, cfg.identity));
  }

  method ReadRegenerate(cfg: Config, store: Store, target: nat) returns (task: Option<Task>)
    requires Forest(store.rows)
    ensures task.Some? <==> Regenerable(store.rows, target)
    ensures task.Some? ==> task.value == RegenerateTask(cfg, store.rows, target)
  {
    if target !in store.rows || !store.rows[target].role.Assistant? {
      return None;
    }
    var m := store.rows[target];
    var path, state := ReadState(cfg, store, m.parent);
    task := Some(Replying(m.parent, Inject(state, cfg.identity), Some(m)));
  }

  method ReadPanel(cfg: Config, store: Store, leaf: Option<nat>, updates: seq<Update>) returns (task: Task)
    requires Forest(store.rows)
    ensures task == PanelTask(cfg, store.rows, leaf, updates)
  {
    var path, state := ReadState(cfg, store, leaf);
    var snapshot := ApplyUpdatesLoop(state, cfg.schema, updates, cfg.readers);
    task := Carrying(leaf, snapshot, updates);
  }

  /** The summariser's branch, which it keeps while it goes on to read the summaries. */
  method ReadFold(store: Store, leaf: Option<nat>, keepRecent: nat) returns (task: Option<Task>)
    requires Forest(store.rows)
    ensures task == if store.rows == map[] then None else Some(FoldTask(store.rows, leaf, keepRecent))
  {
    var path := ReadBranch(store, leaf);
    if path == [] {
      return None;
    }
    task := Some(Folding(path, keepRecent));
  }

  // ---- Steps ----

  datatype Move =
    | Open(task: nat, operation: Operation)
    | Read(task: nat)
    | ReadSummaries(task: nat)
    | StoreUser(task: nat, id: nat, created: nat)
    | HideTarget(task: nat)
    | StoreReply(task: nat, id: nat, created: nat, updates: seq<Update>)
    | StoreCarrier(task: nat, id: nat, created: nat)
    | Advance(task: nat)
    | StoreSummary(task: nat, at: nat)
    | Abandon(task: nat)
    | Select(leaf: Option<nat>)
    | Edit(id: nat, hidden: bool)
    | Drop(root: nat)

  function Start(w: World, k: nat, task: Task): World {
    if k in w.tasks then w else w.(tasks := w.tasks[k := task])
  }

  function End(w: World, k: nat): World {
    w.(tasks := w.tasks - {k})
  }

  /** The task goes on as `next`, or ends. */
  function Continue(w: World, k: nat, next: Option<Task>): World {
    if next.Some? then w.(tasks := w.tasks[k := next.value]) else End(w, k)
  }

  /** An insert, which `next` follows; without its parent nothing is inserted and nothing follows. */
  function StoreRow(w: World, k: nat, m: Message, next: Option<Task>, advance: bool): World {
    if m.id in w.all then w
    else
      match Inserted(w.db, m)
      case None => End(w, k)
      case Some(db) =>
        World(
          if advance then db.(leaf := Some(m.id)) else db,
          w.all[m.id := m],
          if next.Some? then w.tasks[k := next.value] else w.tasks - {k},
          w.clock + 1)
  }

  function UserMessage(w: World, t: Task, id: nat, created: nat): Message
    requires t.Sending?
  {
    Message(id, t.parent, User, created, w.clock, false, false, t.base, [])
  }

  function ReplyMessage(cfg: Config, w: World, t: Task, id: nat, created: nat, updates: seq<Update>): Message
    requires t.Replying?
  {
    Message(id, t.parent, Assistant, created, w.clock, false, false,
            ApplyUpdates(t.base, cfg.schema, updates, cfg.readers), updates)
  }

  function CarrierMessage(w: World, t: Task, id: nat, created: nat): Message
    requires t.Carrying?
  {
    Message(id, t.parent, System, created, w.clock, false, true, t.snapshot, t.updates)
  }

  /** One step. A move that does not apply, as when its task is at another point, changes nothing. */
  ghost function Step(cfg: Config, w: World, move: Move): World
    requires Forest(w.db.rows)
  {
    match move
    case Open(k, op) => Start(w, k, Opened(op, w.db.leaf))
    case Read(k) =>
      if k in w.tasks && w.tasks[k].Opened?
      then Continue(w, k, ReadTask(cfg, w.db.rows, w.tasks[k].operation, w.tasks[k].leaf)) else w
    case ReadSummaries(k) =>
      if k in w.tasks && w.tasks[k].Folding? then
        var d := Digest(w.db.summaries, w.tasks[k].path, w.tasks[k].keepRecent);
        Continue(w, k, if d.Some? then Some(Digesting(d.value)) else None)
      else w
    case StoreUser(k, id, created) =>
      if k in w.tasks && w.tasks[k].Sending?
      then StoreRow(w, k, UserMessage(w, w.tasks[k], id, created),
                    Some(Replying(Some(id), w.tasks[k].base, None)), false)
      else w
    case HideTarget(k) =>
      if k in w.tasks && w.tasks[k].Replying? && w.tasks[k].retire.Some?
      then w.(db := Overwrite(w.db, w.tasks[k].retire.value.(hidden := true)),
              tasks := w.tasks[k := w.tasks[k].(retire := None)])
      else w
    case StoreReply(k, id, created, updates) =>
      if k in w.tasks && w.tasks[k].Replying? && w.tasks[k].retire.None?
      then StoreRow(w, k, ReplyMessage(cfg, w, w.tasks[k], id, created, updates), Some(Activating(id)), false)
      else w
    case StoreCarrier(k, id, created) =>
      if k in w.tasks && w.tasks[k].Carrying?
      then StoreRow(w, k, CarrierMessage(w, w.tasks[k], id, created), None, true)
      else w
    case Advance(k) =>
      if k in w.tasks && w.tasks[k].Activating?
      then End(w, k).(db := w.db.(leaf := Some(w.tasks[k].id))) else w
    case StoreSummary(k, at) =>
      if k in w.tasks && w.tasks[k].Digesting? && at <= |w.db.summaries|
      then End(w, k).(db := w.db.(summaries :=
                            w.db.summaries[..at] + [w.tasks[k].summary] + w.db.summaries[at..]))
      else w
    case Abandon(k) => End(w, k)
    case Select(leaf) => if leaf.Some? && leaf.value !in w.all then w else w.(db := w.db.(leaf := leaf))
    case Edit(id, hidden) =>
      if id in w.db.rows then w.(db := Overwrite(w.db, w.db.rows[id].(hidden := hidden))) else w
    case Drop(root) => w.(db := Deleted(w.db, root))
  }

  // ---- The store stays a forest, and summaries stay exact ----

  predicate SameRow(a: Message, b: Message) {
    a == b.(hidden := a.hidden)
  }

  predicate TaskSound(all: Table, t: Task)
    requires Forest(all)
  {
    match t
    case Opened(_, leaf) => leaf.Some? ==> leaf.value in all
    case Folding(path, _) =>
      path != [] ==> path[|path| - 1].id in all && Ids(path) == Path(all, path[|path| - 1].id)
    case Sending(parent, _) => parent.Some? ==> parent.value in all
    case Replying(parent, _, retire) =>
      && (parent.Some? ==> parent.value in all)
      && (retire.Some? ==> retire.value.id in all && SameRow(retire.value, all[retire.value.id]))
    case Activating(id) => id in all
    case Carrying(parent, _, _) => parent.Some? ==> parent.value in all
    case Digesting(s) => Exact(all, s)
  }

  predicate RowsAgree(rows: Table, all: Table) {
    forall id {:trigger rows[id]} {:trigger id in rows} :: id in rows ==> id in all && SameRow(rows[id], all[id])
  }

  predicate Sound(w: World) {
    && Forest(w.db.rows) && Forest(w.all)
    && RowsAgree(w.db.rows, w.all)
    && (forall id :: id in w.all ==> w.all[id].order < w.clock)
    && (w.db.leaf.Some? ==> w.db.leaf.value in w.all)
    && (forall s :: s in w.db.summaries ==> Exact(w.all, s))
    && forall k :: k in w.tasks ==> TaskSound(w.all, w.tasks[k])
  }

  lemma GrowKeepsForest(t: Table, m: Message)
    requires Forest(t) && m.id !in t
    requires m.parent.Some? ==> m.parent.value in t && t[m.parent.value].order < m.order
    ensures Forest(t[m.id := m])
    ensures forall id :: id in t ==> Path(t[m.id := m], id) == Path(t, id)
  {
    hide Path;
    var u := t[m.id := m];
    forall id | id in t
      ensures Path(u, id) == Path(t, id)
    {
      PathAgrees(t, u, id);
    }
  }

  lemma TaskSoundGrows(all: Table, m: Message, t: Task)
    requires Forest(all) && m.id !in all && TaskSound(all, t)
    requires m.parent.Some? ==> m.parent.value in all && all[m.parent.value].order < m.order
    requires Forest(all[m.id := m])
    ensures TaskSound(all[m.id := m], t)
  {
    hide Path, Forest;
    GrowKeepsForest(all, m);
  }

  /** The tasks an insert may leave behind. */
  predicate Follows(m: Message, next: Option<Task>) {
    || next.None?
    || next.value == Activating(m.id)
    || (next.value.Replying? && next.value.parent == Some(m.id) && next.value.retire.None?)
  }

  lemma ParentIsKnown(w: World, m: Message)
    requires Sound(w) && m.order == w.clock && m.id !in w.all && Insertable(w.db.rows, m)
    ensures m.parent.Some? ==> m.parent.value in w.all && w.all[m.parent.value].order < m.order
    ensures m.parent.Some? ==> w.db.rows[m.parent.value].order < m.order
  {
    hide Forest, Exact, TaskSound;
    if m.parent.Some? {
      assert SameRow(w.db.rows[m.parent.value], w.all[m.parent.value]);
    }
  }

  lemma StoreRowSound(w: World, k: nat, m: Message, next: Option<Task>, advance: bool)
    requires Sound(w) && m.order == w.clock && Follows(m, next)
    ensures Sound(StoreRow(w, k, m, next, advance))
  {
    hide Forest, Exact, TaskSound, Path, RowsAgree;
    var out := StoreRow(w, k, m, next, advance);
    if m.id !in w.all && Insertable(w.db.rows, m) {
      ParentIsKnown(w, m);
      GrowKeepsForest(w.all, m);
      GrowKeepsForest(w.db.rows, m);
      RowsAgreeGrows(w.db.rows, w.all, m);
      forall s | s in w.db.summaries
        ensures Exact(out.all, s)
      {
        TaskSoundDigest(w.all, s);
        TaskSoundGrows(w.all, m, Digesting(s));
        TaskSoundDigest(out.all, s);
      }
      forall j | j in out.tasks
        ensures TaskSound(out.all, out.tasks[j])
      {
        if j == k && next.Some? {
          FollowerSound(out.all, m, next.value);
        } else {
          TaskSoundGrows(w.all, m, w.tasks[j]);
        }
      }
    }
  }

  lemma TaskSoundDigest(all: Table, s: Summary)
    requires Forest(all)
    ensures TaskSound(all, Digesting(s)) <==> Exact(all, s)
  {
  }

  lemma FollowerSound(all: Table, m: Message, t: Task)
    requires Forest(all) && m.id in all && Follows(m, Some(t))
    ensures TaskSound(all, t)
  {
  }

  lemma RowsAgreeGrows(rows: Table, all: Table, m: Message)
    requires RowsAgree(rows, all)
    ensures RowsAgree(rows[m.id := m], all[m.id := m])
  {
  }

  lemma StartSound(w: World, k: nat, t: Task)
    requires Sound(w) && TaskSound(w.all, t)
    ensures Sound(Start(w, k, t))
  {
    hide Forest, Exact, TaskSound, RowsAgree;
  }

  lemma EndSound(w: World, k: nat)
    requires Sound(w)
    ensures Sound(End(w, k))
  {
    hide Forest, Exact, TaskSound, RowsAgree;
  }

  /** Writing a row back as it was read changes at most what is hidden. */
  lemma OverwriteSound(w: World, m: Message)
    requires Sound(w) && m.id in w.all && SameRow(m, w.all[m.id])
    ensures Sound(w.(db := Overwrite(w.db, m)))
  {
    hide Exact, TaskSound;
  }

  lemma DropSound(w: World, root: nat)
    requires Sound(w)
    ensures Sound(w.(db := Deleted(w.db, root)))
  {
    hide Forest, Exact, TaskSound, Path, Under;
    if root in w.db.rows {
      DeleteMeaning(w.db, root);
      var out := Deleted(w.db, root);
      forall id | id in out.rows
        ensures id in w.all && SameRow(out.rows[id], w.all[id])
      {
        assert id in w.db.rows;
      }
      ForestParents(w.db.rows, root);
    }
  }

  lemma ForestParents(t: Table, id: nat)
    requires Forest(t) && id in t
    ensures t[id].parent.Some? ==> t[id].parent.value in t
    ensures t[id].id == id
  {
  }

  lemma ActiveIsAPath(w: World, leaf: Option<nat>)
    requires Sound(w)
    ensures var path := Rows(w.db.rows, Active(w.db.rows, leaf));
            path != [] ==> path[|path| - 1].id in w.all && Ids(path) == Path(w.all, path[|path| - 1].id)
  {
    hide Exact, TaskSound;
    var ids := Active(w.db.rows, leaf);
    if ids != [] {
      PathAgrees(w.db.rows, w.all, Leaf(w.db.rows, leaf).value);
      assert Ids(Rows(w.db.rows, ids)) == ids;
    }
  }

  lemma StoreSummarySound(w: World, k: nat, at: nat)
    requires Sound(w) && k in w.tasks && w.tasks[k].Digesting? && at <= |w.db.summaries|
    ensures Sound(End(w, k).(db := w.db.(summaries :=
                       w.db.summaries[..at] + [w.tasks[k].summary] + w.db.summaries[at..])))
  {
    hide Forest, Exact, RowsAgree;
  }

  lemma ContinueSound(w: World, k: nat, next: Option<Task>)
    requires Sound(w) && (next.Some? ==> TaskSound(w.all, next.value))
    ensures Sound(Continue(w, k, next))
  {
    hide Forest, Exact, TaskSound, RowsAgree;
  }

  lemma ReadTaskSound(cfg: Config, w: World, op: Operation, leaf: Option<nat>)
    requires Sound(w) && (leaf.Some? ==> leaf.value in w.all)
    ensures var t := ReadTask(cfg, w.db.rows, op, leaf); t.Some? ==> TaskSound(w.all, t.value)
  {
    hide Exact, RowsAgree, LeafSnapshot, Active, BranchState, ApplyUpdates, Effective;
    RowsKnown(w);
    match op
    case Sends =>
    case Regenerates(target) =>
      if Regenerable(w.db.rows, target) {
        ForestParents(w.db.rows, target);
      }
    case Updates(_) =>
    case Folds(_) => ActiveIsAPath(w, leaf);
  }

  lemma DigestSound(w: World, path: seq<Message>, keepRecent: nat)
    requires Sound(w) && TaskSound(w.all, Folding(path, keepRecent))
    ensures var d := Digest(w.db.summaries, path, keepRecent); d.Some? ==> TaskSound(w.all, Digesting(d.value))
  {
    hide Exact, RowsAgree, Digest, Path;
    DigestIsExact(w.all, w.db.summaries, path, keepRecent);
  }

  lemma RowsKnown(w: World)
    requires Sound(w)
    ensures forall id :: id in w.db.rows ==> id in w.all && SameRow(w.db.rows[id], w.all[id])
    ensures forall id :: id in w.db.rows ==> w.db.rows[id].id == id
  {
  }

  /** Every step keeps the store a forest with exact summaries, in any interleaving. */
  lemma StepKeepsSound(cfg: Config, w: World, move: Move)
    requires Sound(w)
    ensures Sound(Step(cfg, w, move))
  {
    hide Exact, RowsAgree, StoreRow, Start, Continue, Overwrite, Deleted, Path, Active, ReadTask, Digest, ApplyUpdates;
    match move
    case Open(k, op) => StartSound(w, k, Opened(op, w.db.leaf));
    case Read(k) =>
      if k in w.tasks && w.tasks[k].Opened? {
        var op, leaf := w.tasks[k].operation, w.tasks[k].leaf;
        ReadTaskSound(cfg, w, op, leaf);
        ContinueSound(w, k, ReadTask(cfg, w.db.rows, op, leaf));
      }
    case ReadSummaries(k) =>
      if k in w.tasks && w.tasks[k].Folding? {
        var d := Digest(w.db.summaries, w.tasks[k].path, w.tasks[k].keepRecent);
        DigestSound(w, w.tasks[k].path, w.tasks[k].keepRecent);
        ContinueSound(w, k, if d.Some? then Some(Digesting(d.value)) else None);
      }
    case StoreUser(k, id, created) =>
      if k in w.tasks && w.tasks[k].Sending? {
        StoreRowSound(w, k, UserMessage(w, w.tasks[k], id, created),
                      Some(Replying(Some(id), w.tasks[k].base, None)), false);
      }
    case HideTarget(k) =>
      if k in w.tasks && w.tasks[k].Replying? && w.tasks[k].retire.Some? {
        HideSound(w, k);
      }
    case StoreReply(k, id, created, updates) =>
      if k in w.tasks && w.tasks[k].Replying? && w.tasks[k].retire.None? {
        StoreRowSound(w, k, ReplyMessage(cfg, w, w.tasks[k], id, created, updates), Some(Activating(id)), false);
      }
    case StoreCarrier(k, id, created) =>
      if k in w.tasks && w.tasks[k].Carrying? {
        StoreRowSound(w, k, CarrierMessage(w, w.tasks[k], id, created), None, true);
      }
    case Advance(k) => EndSound(w, k);
    case StoreSummary(k, at) =>
      if k in w.tasks && w.tasks[k].Digesting? && at <= |w.db.summaries| {
        StoreSummarySound(w, k, at);
      }
    case Abandon(k) => EndSound(w, k);
    case Select(_) =>
    case Edit(id, hidden) =>
      if id in w.db.rows {
        RowsKnown(w);
        OverwriteSound(w, w.db.rows[id].(hidden := hidden));
      }
    case Drop(root) => DropSound(w, root);
  }

  lemma HideSound(w: World, k: nat)
    requires Sound(w) && k in w.tasks && w.tasks[k].Replying? && w.tasks[k].retire.Some?
    ensures Sound(w.(db := Overwrite(w.db, w.tasks[k].retire.value.(hidden := true)),
                     tasks := w.tasks[k := w.tasks[k].(retire := None)]))
  {
    hide Forest, Exact, RowsAgree, Overwrite;
    OverwriteSound(w, w.tasks[k].retire.value.(hidden := true));
  }

  // ---- Single steps ----

  lemma Opens(cfg: Config, w: World, k: nat, op: Operation)
    requires Forest(w.db.rows) && k !in w.tasks
    ensures Step(cfg, w, Open(k, op)) == w.(tasks := w.tasks[k := Opened(op, w.db.leaf)])
  {
  }

  lemma Reads(cfg: Config, w: World, k: nat)
    requires Forest(w.db.rows) && k in w.tasks && w.tasks[k].Opened?
    ensures var t := ReadTask(cfg, w.db.rows, w.tasks[k].operation, w.tasks[k].leaf);
            t.Some? ==> Step(cfg, w, Read(k)) == w.(tasks := w.tasks[k := t.value])
  {
    hide ReadTask;
  }

  lemma StoresCarrier(cfg: Config, w: World, k: nat, id: nat, created: nat)
    requires Forest(w.db.rows) && k in w.tasks && w.tasks[k].Carrying? && id !in w.all
    requires Insertable(w.db.rows, CarrierMessage(w, w.tasks[k], id, created))
    ensures var m := CarrierMessage(w, w.tasks[k], id, created);
            Step(cfg, w, StoreCarrier(k, id, created)) ==
            World(Db(w.db.rows[id := m], Some(id), w.db.summaries), w.all[id := m], w.tasks - {k}, w.clock + 1)
  {
  }

  lemma StoresReply(cfg: Config, w: World, k: nat, id: nat, created: nat, updates: seq<Update>)
    requires Forest(w.db.rows) && k in w.tasks && w.tasks[k].Replying? && w.tasks[k].retire.None? && id !in w.all
    requires Insertable(w.db.rows, ReplyMessage(cfg, w, w.tasks[k], id, created, updates))
    ensures var m := ReplyMessage(cfg, w, w.tasks[k], id, created, updates);
            Step(cfg, w, StoreReply(k, id, created, updates)) ==
            World(w.db.(rows := w.db.rows[id := m]), w.all[id := m], w.tasks[k := Activating(id)], w.clock + 1)
  {
    hide ApplyUpdates;
  }

  lemma StoresUser(cfg: Config, w: World, k: nat, id: nat, created: nat)
    requires Forest(w.db.rows) && k in w.tasks && w.tasks[k].Sending? && id !in w.all
    requires Insertable(w.db.rows, UserMessage(w, w.tasks[k], id, created))
    ensures var m := UserMessage(w, w.tasks[k], id, created);
            Step(cfg, w, StoreUser(k, id, created)) ==
            World(w.db.(rows := w.db.rows[id := m]), w.all[id := m],
                  w.tasks[k := Replying(Some(id), w.tasks[k].base, None)], w.clock + 1)
  {
  }

  lemma Advances(cfg: Config, w: World, k: nat)
    requires Forest(w.db.rows) && k in w.tasks && w.tasks[k].Activating?
    ensures Step(cfg, w, Advance(k)) == w.(db := w.db.(leaf := Some(w.tasks[k].id)), tasks := w.tasks - {k})
  {
  }

  lemma Hides(cfg: Config, w: World, k: nat)
    requires Forest(w.db.rows) && k in w.tasks && w.tasks[k].Replying? && w.tasks[k].retire.Some?
    ensures Step(cfg, w, HideTarget(k)) ==
            w.(db := Overwrite(w.db, w.tasks[k].retire.value.(hidden := true)),
               tasks := w.tasks[k := w.tasks[k].(retire := None)])
  {
  }
}
