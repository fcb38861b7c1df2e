/** Sending and regenerating as the code runs them when nothing comes in between: straight-line writes to the store. */
module Turns {
  import opened Text
  import opened States
  import opened Protocol
  import opened Tree
  import opened Storage
  import opened Summaries
  import opened Conversations
  import opened Snapshots

  /** What a turn is given: ids and times for its messages, and the updates its reply makes. */
  datatype Turn = Turn(user: nat, userTime: nat, reply: nat, replyTime: nat, updates: seq<Update>)

  function SendMoves(k: nat, t: Turn): seq<Move> {
    [Open(k, Sends), Read(k), StoreUser(k, t.user, t.userTime), StoreReply(k, t.reply, t.replyTime, t.updates), Advance(k)]
  }

  function RegenerateMoves(k: nat, target: nat, t: Turn): seq<Move> {
    [Open(k, Regenerates(target)), Read(k), HideTarget(k), StoreReply(k, t.reply, t.replyTime, t.updates), Advance(k)]
  }

  lemma RunFive(cfg: Config, w: World, a: Move, b: Move, c: Move, d: Move, e: Move)
    requires Sound(w)
    ensures var x := Step(cfg, w, a);
            && Sound(x) && Sound(Step(cfg, x, b)) && Sound(Step(cfg, Step(cfg, x, b), c))
            && Sound(Step(cfg, Step(cfg, Step(cfg, x, b), c), d))
            && Run(cfg, w, [a, b, c, d, e]) == Step(cfg, Step(cfg, Step(cfg, Step(cfg, x, b), c), d), e)
  {
    hide Exact, TaskSound, RowsAgree, Step;
    RunOne(cfg, w, a, [b, c, d, e]);
    var x := Step(cfg, w, a);
    RunOne(cfg, x, b, [c, d, e]);
    var y := Step(cfg, x, b);
    RunOne(cfg, y, c, [d, e]);
    var z := Step(cfg, y, c);
    RunOne(cfg, z, d, [e]);
    RunOne(cfg, Step(cfg, z, d), e, []);
    assert [a] + [b, c, d, e] == [a, b, c, d, e];
    assert [b] + [c, d, e] == [b, c, d, e];
    assert [c] + [d, e] == [c, d, e];
    assert [d] + [e] == [d, e];
    assert [e] + [] == [e];
  }

  function SentUser(cfg: Config, w: World, task: Task, t: Turn): Message
    requires task.Sending?
  {
    UserMessage(w, task, t.user, t.userTime)
  }

  function SentReply(cfg: Config, w: World, task: Task, t: Turn): Message
    requires task.Sending?
  {
    Message(t.reply, Some(t.user), Assistant, t.replyTime, w.clock + 1, false, false,
            ApplyUpdates(task.base, cfg.schema, t.updates, cfg.readers), t.updates)
  }

  predicate NewIds(w: World, t: Turn) {
    t.user !in w.all && t.reply !in w.all && t.user != t.reply
  }

  /** The five steps of a send, in a row: both messages are stored, and the reply is the active leaf. */
  lemma SendRun(cfg: Config, w: World, k: nat, t: Turn)
    requires Sound(w) && k !in w.tasks && NewIds(w, t)
    ensures var task := SendTask(cfg, w.db.rows, w.db.leaf);
            Run(cfg, w, SendMoves(k, t)).db == Db(
              w.db.rows[t.user := SentUser(cfg, w, task, t)][t.reply := SentReply(cfg, w, task, t)],
              Some(t.reply), w.db.summaries)
  {
    hide Forest, Exact, TaskSound, BranchState, LeafSnapshot, ApplyUpdates, Run, Leaf, RowsAgree, Step;
    var task := SendTask(cfg, w.db.rows, w.db.leaf);
    RunFive(cfg, w, Open(k, Sends), Read(k), StoreUser(k, t.user, t.userTime),
            StoreReply(k, t.reply, t.replyTime, t.updates), Advance(k));
    RowsKnown(w);
    LeafIsStored(w.db.rows, w.db.leaf);
    Opens(cfg, w, k, Sends);
    var one := Step(cfg, w, Open(k, Sends));
    Reads(cfg, one, k);
    var two := Step(cfg, one, Read(k));
    StoresUser(cfg, two, k, t.user, t.userTime);
    var three := Step(cfg, two, StoreUser(k, t.user, t.userTime));
    StoresReply(cfg, three, k, t.reply, t.replyTime, t.updates);
    Advances(cfg, Step(cfg, three, StoreReply(k, t.reply, t.replyTime, t.updates)), k);
  }

  lemma LeafIsStored(rows: Table, leaf: Option<nat>)
    requires Forest(rows)
    ensures Leaf(rows, leaf).Some? ==> Leaf(rows, leaf).value in rows
  {
  }

  /** A turn makes the active branch longer by the user's message and the reply. */
  lemma SendExtendsBranch(cfg: Config, w: World, k: nat, t: Turn)
    requires Sound(w) && k !in w.tasks && NewIds(w, t)
    ensures var out := Run(cfg, w, SendMoves(k, t));
            Active(out.db.rows, out.db.leaf) == Active(w.db.rows, w.db.leaf) + [t.user, t.reply]
  {
    hide Exact, TaskSound, BranchState, LeafSnapshot, ApplyUpdates, Run, RowsAgree;
    var task := SendTask(cfg, w.db.rows, w.db.leaf);
    var user, reply := SentUser(cfg, w, task, t), SentReply(cfg, w, task, t);
    SendRun(cfg, w, k, t);
    LeafIsStored(w.db.rows, w.db.leaf);
    OrdersBelow(w);
    RowsKnown(w);
    GrowKeepsForest(w.db.rows, user);
    var mid := w.db.rows[t.user := user];
    GrowKeepsForest(mid, reply);
    assert Path(mid[t.reply := reply], t.reply) == Path(mid[t.reply := reply], t.user) + [t.reply];
  }

  lemma OrdersBelow(w: World)
    requires Sound(w)
    ensures forall id :: id in w.db.rows ==> w.db.rows[id].order < w.clock
  {
    hide Exact, TaskSound, Forest;
  }

  /** `send_message` when the reply arrives: the store goes through exactly the five steps. */
  method SendMessage(cfg: Config, store: Store, ghost w: World, ghost k: nat, order: nat, t: Turn)
    requires Sound(w) && store.Value() == w.db && order == w.clock && k !in w.tasks && NewIds(w, t)
    modifies store
    ensures store.Value() == Run(cfg, w, SendMoves(k, t)).db
    ensures store.leaf == Some(t.reply)
    ensures Forest(store.rows)
    ensures Active(store.rows, store.leaf) == Active(w.db.rows, w.db.leaf) + [t.user, t.reply]
  {
    hide Exact, TaskSound, Forest, BranchState, LeafSnapshot, ApplyUpdates, Run, Active, Leaf;
    var task := ReadSend(cfg, store, store.leaf);
    SendRun(cfg, w, k, t);
    SendExtendsBranch(cfg, w, k, t);
    LeafIsStored(w.db.rows, w.db.leaf);
    RowsKnown(w);
    var stored := store.CreateMessage(
      Message(t.user, task.parent, User, t.userTime, order, false, false, task.base, []));
    if stored {
      var snapshot := ApplyUpdatesLoop(task.base, cfg.schema, t.updates, cfg.readers);
      stored := store.CreateMessage(
        Message(t.reply, Some(t.user), Assistant, t.replyTime, order + 1, false, false, snapshot, t.updates));
      if stored {
        store.SetSessionActiveLeaf(Some(t.reply));
      }
    }
  }

  // ---- Regenerating ----

  function NewReply(cfg: Config, w: World, task: Task, t: Turn): Message
    requires task.Replying?
  {
    ReplyMessage(cfg, w, task, t.reply, t.replyTime, t.updates)
  }

  /** The five steps of a regenerate, in a row: the target is hidden, and its new sibling is the active leaf. */
  lemma RegenerateRun(cfg: Config, w: World, k: nat, target: nat, t: Turn)
    requires Sound(w) && k !in w.tasks && t.reply !in w.all
    requires target in w.db.rows && w.db.rows[target].role.Assistant?
    ensures var task := RegenerateTask(cfg, w.db.rows, target);
            Run(cfg, w, RegenerateMoves(k, target, t)).db == Db(
              w.db.rows[target := w.db.rows[target].(hidden := true)][t.reply := NewReply(cfg, w, task, t)],
              Some(t.reply), w.db.summaries)
  {
    hide Forest, Exact, TaskSound, BranchState, LeafSnapshot, ApplyUpdates, Run, RowsAgree, Step;
    RunFive(cfg, w, Open(k, Regenerates(target)), Read(k), HideTarget(k),
            StoreReply(k, t.reply, t.replyTime, t.updates), Advance(k));
    RowsKnown(w);
    ForestParents(w.db.rows, target);
    Opens(cfg, w, k, Regenerates(target));
    var one := Step(cfg, w, Open(k, Regenerates(target)));
    Reads(cfg, one, k);
    var two := Step(cfg, one, Read(k));
    Hides(cfg, two, k);
    var three := Step(cfg, two, HideTarget(k));
    StoresReply(cfg, three, k, t.reply, t.replyTime, t.updates);
    Advances(cfg, Step(cfg, three, StoreReply(k, t.reply, t.replyTime, t.updates)), k);
  }

  /** The active branch becomes the target's, with the new reply in the target's place. */
  lemma RegenerateReplacesLeaf(cfg: Config, w: World, k: nat, target: nat, t: Turn)
    requires Sound(w) && k !in w.tasks && t.reply !in w.all
    requires target in w.db.rows && w.db.rows[target].role.Assistant?
    ensures var out := Run(cfg, w, RegenerateMoves(k, target, t));
            var branch := Path(w.db.rows, target);
            Active(out.db.rows, out.db.leaf) == branch[..|branch| - 1] + [t.reply]
  {
    hide Exact, TaskSound, BranchState, LeafSnapshot, ApplyUpdates, Run, RowsAgree;
    var task := RegenerateTask(cfg, w.db.rows, target);
    var reply := NewReply(cfg, w, task, t);
    RegenerateRun(cfg, w, k, target, t);
    OrdersBelow(w);
    RowsKnown(w);
    var mid := w.db.rows[target := w.db.rows[target].(hidden := true)];
    HidingKeepsPaths(w.db.rows, target);
    GrowKeepsForest(mid, reply);
  }

  lemma HidingKeepsPaths(rows: Table, target: nat)
    requires Forest(rows) && target in rows
    ensures var mid := rows[target := rows[target].(hidden := true)];
            Forest(mid) && forall id :: id in rows ==> Path(mid, id) == Path(rows, id)
  {
    hide Path;
    var mid := rows[target := rows[target].(hidden := true)];
    forall id | id in rows
      ensures Path(mid, id) == Path(rows, id)
    {
      PathAgrees(rows, mid, id);
    }
  }

  /** `regenerate` when the reply arrives. */
  method RegenerateReply(cfg: Config, store: Store, ghost w: World, ghost k: nat, order: nat, target: nat, t: Turn)
    returns (ok: bool)
    requires Sound(w) && store.Value() == w.db && order == w.clock && k !in w.tasks && t.reply !in w.all
    modifies store
    ensures ok <==> target in w.db.rows && w.db.rows[target].role.Assistant?
    ensures !ok ==> store.Value() == w.db
    ensures ok ==>
              && store.Value() == Run(cfg, w, RegenerateMoves(k, target, t)).db
              && Forest(store.rows) && store.leaf == Some(t.reply)
              && target in store.rows && store.rows[target].hidden
              && var branch := Path(w.db.rows, target);
                 Active(store.rows, store.leaf) == branch[..|branch| - 1] + [t.reply]
  {
    hide Exact, TaskSound, Forest, BranchState, LeafSnapshot, ApplyUpdates, Run, Active, Path;
    var started := ReadRegenerate(cfg, store, target);
    if started.None? {
      return false;
    }
    var task := started.value;
    RegenerateRun(cfg, w, k, target, t);
    RegenerateReplacesLeaf(cfg, w, k, target, t);
    RowsKnown(w);
    ForestParents(w.db.rows, target);
    var snapshot := ApplyUpdatesLoop(task.base, cfg.schema, t.updates, cfg.readers);
    store.UpdateMessage(task.retire.value.(hidden := true));
    var stored := store.CreateMessage(
      Message(t.reply, task.parent, Assistant, t.replyTime, order, false, false, snapshot, t.updates));
    if stored {
      store.SetSessionActiveLeaf(Some(t.reply));
    }
    return true;
  }

  // ---- Summarising ----

  function SummariseMoves(k: nat, keepRecent: nat, at: nat): seq<Move> {
    [Open(k, Folds(keepRecent)), Read(k), ReadSummaries(k), StoreSummary(k, at)]
  }

  lemma RunFour(cfg: Config, w: World, a: Move, b: Move, c: Move, d: Move)
    requires Sound(w)
    ensures var x := Step(cfg, w, a);
            && Sound(x) && Sound(Step(cfg, x, b)) && Sound(Step(cfg, Step(cfg, x, b), c))
            && Run(cfg, w, [a, b, c, d]) == Step(cfg, Step(cfg, Step(cfg, x, b), c), d)
  {
    hide Exact, TaskSound, RowsAgree, Step;
    RunOne(cfg, w, a, [b, c, d]);
    var x := Step(cfg, w, a);
    RunOne(cfg, x, b, [c, d]);
    var y := Step(cfg, x, b);
    RunOne(cfg, y, c, [d]);
    RunOne(cfg, Step(cfg, y, c), d, []);
    assert [a] + [b, c, d] == [a, b, c, d];
    assert [b] + [c, d] == [b, c, d];
    assert [c] + [d] == [c, d];
    assert [d] + [] == [d];
  }

  /** What a summariser writes of the active branch, if it writes. */
  ghost function NextSummary(db: Db, keepRecent: nat): Option<Summary>
    requires Forest(db.rows)
  {
    if db.rows == map[] then None else Digest(db.summaries, Rows(db.rows, Active(db.rows, db.leaf)), keepRecent)
  }

  /** The four steps of a summariser, in a row: its summary is stored, if there is one. */
  lemma SummariseRun(cfg: Config, w: World, k: nat, keepRecent: nat)
    requires Sound(w) && k !in w.tasks
    ensures var next := NextSummary(w.db, keepRecent);
            Run(cfg, w, SummariseMoves(k, keepRecent, |w.db.summaries|)).db ==
            w.db.(summaries := w.db.summaries + if next.Some? then [next.value] else [])
  {
    hide Forest, Exact, TaskSound, Run, RowsAgree, Digest, Active;
    var at := |w.db.summaries|;
    RunFour(cfg, w, Open(k, Folds(keepRecent)), Read(k), ReadSummaries(k), StoreSummary(k, at));
    assert w.db.summaries[..at] == w.db.summaries && w.db.summaries[at..] == [];
  }

  lemma NextSummaryMeaning(w: World, keepRecent: nat)
    requires Sound(w)
    ensures var next := NextSummary(w.db, keepRecent);
            var path := Active(w.db.rows, w.db.leaf);
            && (next.Some? <==> VisibleStart(w.db.summaries, path) < |path| - keepRecent)
            && (next.Some? ==>
                  var after := w.db.summaries + [next.value];
                  && VisibleStart(after, path) == |path| - keepRecent
                  && Covered(SummaryText(after, path)) == path[..|path| - keepRecent])
  {
    hide Forest, Digest, Path, Position, VisibleStart, SummaryText, Covered, Exact, TaskSound;
    var rows := w.db.rows;
    var path := Active(rows, w.db.leaf);
    if rows != map[] {
      var leaf, ms := Leaf(rows, w.db.leaf).value, Rows(rows, path);
      RowsKnown(w);
      PathAgrees(rows, w.all, leaf);
      assert Ids(ms) == path;
      DigestIsExact(w.all, w.db.summaries, ms, keepRecent);
      if NextSummary(w.db, keepRecent).Some? {
        DigestApplies(w.all, w.db.summaries, ms, keepRecent);
      }
    }
  }

  /** Afterwards the active branch is shown as its new summary and exactly the messages that were to be kept. */
  lemma SummaryReplacesAllButRecent(cfg: Config, w: World, k: nat, keepRecent: nat)
    requires Sound(w) && k !in w.tasks
    ensures var next := NextSummary(w.db, keepRecent);
            var path := Active(w.db.rows, w.db.leaf);
            var after := Run(cfg, w, SummariseMoves(k, keepRecent, |w.db.summaries|)).db.summaries;
            && (next.Some? <==> VisibleStart(w.db.summaries, path) < |path| - keepRecent)
            && (next.Some? ==>
                  && VisibleStart(after, path) == |path| - keepRecent
                  && Covered(SummaryText(after, path)) == path[..|path| - keepRecent])
  {
    hide Forest, Run, VisibleStart, SummaryText, Covered, Exact, TaskSound, RowsAgree, NextSummary, SummariseMoves, Active;
    SummariseRun(cfg, w, k, keepRecent);
    NextSummaryMeaning(w, keepRecent);
  }

  /** The summariser when the provider answers. */
  method Summarise(store: Store, keepRecent: nat, ghost cfg: Config, ghost w: World, ghost k: nat) returns (made: bool)
    requires Sound(w) && store.Value() == w.db && k !in w.tasks
    modifies store
    ensures store.Value() == Run(cfg, w, SummariseMoves(k, keepRecent, |w.db.summaries|)).db
    ensures var path := Active(w.db.rows, w.db.leaf);
            && (made <==> VisibleStart(w.db.summaries, path) < |path| - keepRecent)
            && (made ==> VisibleStart(store.summaries, path) == |path| - keepRecent)
  {
    hide Exact, TaskSound, Forest, Run, Active, Digest, VisibleStart, SummaryText, Covered;
    SummariseRun(cfg, w, k, keepRecent);
    SummaryReplacesAllButRecent(cfg, w, k, keepRecent);
    var folding := ReadFold(store, store.leaf, keepRecent);
    if folding.None? {
      return false;
    }
    var digest := ReadDigest(store.summaries, folding.value.path, keepRecent);
    if digest.None? {
      return false;
    }
    store.CreateSummary(digest.value);
    return true;
  }
}
