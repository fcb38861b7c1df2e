/** What the message store of one session holds, and its operations, each as one atomic step. */
module Storage {
  import opened Text
  import opened States
  import opened Protocol
  import opened Tree

  /** One position of the history as a summary was told about it: quoted, or passed over because it was hidden. */
  datatype Line = Told(id: nat) | Skipped(id: nat)

  /** A rolling summary; the prose is represented by the positions it was written from. */
  datatype Summary = Summary(cutoff: nat, text: seq<Line>)

  datatype Db = Db(rows: Table, leaf: Option<nat>, summaries: seq<Summary>)

  /** The primary key is new, and the parent is there. */
  predicate Insertable(rows: Table, m: Message) {
    m.id !in rows && (m.parent.Some? ==> m.parent.value in rows)
  }

  function Inserted(db: Db, m: Message): Option<Db> {
    if Insertable(db.rows, m) then Some(db.(rows := db.rows[m.id := m])) else None
  }

  /** Only the columns an update writes change. */
  function Overwrite(db: Db, m: Message): Db {
    if m.id in db.rows
    then db.(rows := db.rows[m.id := db.rows[m.id].(hidden := m.hidden, snapshot := m.snapshot)])
    else db
  }

  function Deleted(db: Db, root: nat): Db
    requires Forest(db.rows)
  {
    if root !in db.rows then db
    else
      db.(
        rows := Without(db.rows, root),
        leaf :=
          if db.leaf.Some? && db.leaf.value in db.rows && Under(db.rows, root, db.leaf.value) then db.rows[root].parent
          else db.leaf)
  }

  /**
   * A subtree delete removes the root and everything below it, and nothing else; the rest is still a forest with the
   * same branches. A leaf that survives is kept. One that does not is replaced by the root's parent, which survives.
   */
  lemma DeleteMeaning(db: Db, root: nat)
    requires Forest(db.rows) && root in db.rows
    ensures var out := Deleted(db, root);
            && Forest(out.rows)
            && (forall id :: id in out.rows <==> id in db.rows && root !in Path(db.rows, id))
            && (forall id :: id in out.rows ==> out.rows[id] == db.rows[id] && Path(out.rows, id) == Path(db.rows, id))
            && (db.leaf.Some? && db.leaf.value in out.rows ==> out.leaf == db.leaf)
            && (db.leaf.Some? && db.leaf.value in db.rows && db.leaf.value !in out.rows ==>
                  && out.leaf == db.rows[root].parent
                  && (out.leaf.Some? ==> out.leaf.value in out.rows))
            && out.summaries == db.summaries
  {
    WithoutMeaning(db.rows, root);
  }

  class Store {
    var rows: Table
    var leaf: Option<nat>
    var summaries: seq<Summary>

    constructor ()
      ensures Value() == Db(map[], None, [])
    {
      rows, leaf, summaries := map[], None, [];
    }

    function Value(): Db
      reads this
    {
      Db(rows, leaf, summaries)
    }

    method ListMessages() returns (ms: seq<Message>)
      requires Forest(rows)
      ensures Lists(ms, rows)
    {
      ms := [];
      var ids := rows.Keys;
      while ids != {}
        invariant ids <= rows.Keys
        invariant forall k :: 0 <= k < |ms| ==> ms[k].id in rows && rows[ms[k].id] == ms[k]
        invariant forall id :: id in rows && id !in ids ==> rows[id] in ms
        decreases |ids|
      {
        var id :| id in ids;
        ms := ms + [rows[id]];
        ids := ids - {id};
      }
    }

    method CreateMessage(m: Message) returns (ok: bool)
      modifies this
      ensures ok <==> old(Insertable(rows, m))
      ensures Value() == if ok then Inserted(old(Value()), m).value else old(Value())
    {
      ok := Insertable(rows, m);
      if ok {
        rows := rows[m.id := m];
      }
    }

    /** Both writes happen, or neither. */
    method CreateMessageAndAdvanceLeaf(m: Message) returns (ok: bool)
      modifies this
      ensures ok <==> old(Insertable(rows, m))
      ensures Value() == if ok then Inserted(old(Value()), m).value.(leaf := Some(m.id)) else old(Value())
    {
      ok := CreateMessage(m);
      if ok {
        leaf := Some(m.id);
      }
    }

    method UpdateMessage(m: Message)
      modifies this
      ensures Value() == Overwrite(old(Value()), m)
    {
      if m.id in rows {
        rows := rows[m.id := rows[m.id].(hidden := m.hidden, snapshot := m.snapshot)];
      }
    }

    method SetSessionActiveLeaf(id: Option<nat>)
      modifies this
      ensures Value() == old(Value()).(leaf := id)
    {
      leaf := id;
    }

    method CreateSummary(s: Summary)
      modifies this
      ensures Value() == old(Value()).(summaries := old(summaries) + [s])
    {
      summaries := summaries + [s];
    }

    method DeleteMessageSubtree(root: nat) returns (newLeaf: Option<nat>)
      requires Forest(rows)
      modifies this
      ensures Value() == old(Deleted(Value(), root))
      ensures newLeaf == if root in old(rows) then leaf else None
    {
      hide Forest, Under, Path;
      if root !in rows {
        return None;
      }
      var parent := rows[root].parent;
      var messages := ListMessages();
      var doomed := Subtree(messages, root, rows);
      newLeaf := if leaf.Some? && leaf.value in doomed then parent else leaf;
      rows := map id | id in rows && id !in doomed :: rows[id];
      if newLeaf != leaf {
        leaf := newLeaf;
      }
    }

    /** Switching branches: refused for an unknown message, else the leaf below it becomes the active one. */
    method SelectBranch(id: nat) returns (found: bool)
      requires Forest(rows)
      modifies this`leaf
      ensures found <==> id in rows
      ensures !found ==> leaf == old(leaf)
      ensures found ==>
                && leaf.Some? && leaf.value in rows && Children(rows, leaf.value) == {}
                && Path(rows, id) <= Path(rows, leaf.value)
                && Descends(rows, Path(rows, leaf.value), |Path(rows, id)| - 1)
                && Active(rows, leaf) == Path(rows, leaf.value)
    {
      var all := ListMessages();
      found := id in rows;
      if found {
        var deepest := DeepestLeaf(all, id, rows);
        leaf := Some(deepest);
      }
    }
  }
}
