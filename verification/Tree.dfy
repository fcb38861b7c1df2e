/** The message tree of one session: branches, branch descent, and subtrees. */
module Tree {
  import opened Text
  import opened States
  import opened Protocol

  /**
   * A stored message. `order` is the moment of insertion, which the clock behind `created` need not respect; `updates`
   * are the variable updates the message made when it was written; `opening` marks what a new session is seeded with.
   */
  datatype Message = Message(
    id: nat,
    parent: Option<nat>,
    role: Role,
    created: nat,
    order: nat,
    opening: bool,
    hidden: bool,
    snapshot: Snapshot,
    updates: seq<Update>)

  /** Messages by id. */
  type Table = map<nat, Message>

  /** Parents are stored, and were stored first. */
  predicate Forest(t: Table) {
    && (forall id {:trigger t[id].id} :: id in t ==> t[id].id == id)
    && (forall id {:trigger t[id].parent} :: id in t && t[id].parent.Some? ==>
          t[id].parent.value in t && t[t[id].parent.value].order < t[id].order)
  }

  /** The ids from the root down to `id`. */
  function Path(t: Table, id: nat): (path: seq<nat>)
    requires Forest(t) && id in t
    ensures path != [] && path[|path| - 1] == id
    ensures forall k :: 0 <= k < |path| ==> path[k] in t
    decreases t[id].order
  {
    if t[id].parent.None? then [id] else Path(t, t[id].parent.value) + [id]
  }

  /** A root, then each time a child. */
  predicate Branch(t: Table, path: seq<nat>) {
    && path != []
    && (forall k :: 0 <= k < |path| ==> path[k] in t)
    && t[path[0]].parent == None
    && forall k :: 0 < k < |path| ==> t[path[k]].parent == Some(path[k - 1])
  }

  lemma BranchFront(t: Table, path: seq<nat>)
    requires Branch(t, path) && |path| > 1
    ensures Branch(t, path[..|path| - 1])
    ensures t[path[|path| - 1]].parent == Some(path[..|path| - 1][|path| - 2])
  {
    var last := |path| - 1;
    assert t[path[last]].parent == Some(path[last - 1]);
  }

  lemma {:induction false} PathIsBranch(t: Table, id: nat)
    requires Forest(t) && id in t
    ensures Branch(t, Path(t, id))
    decreases t[id].order
  {
    if t[id].parent.Some? {
      PathIsBranch(t, t[id].parent.value);
      var own, front := Path(t, id), Path(t, t[id].parent.value);
      assert own[0] == front[0];
      forall k | 0 < k < |own|
        ensures t[own[k]].parent == Some(own[k - 1])
      {
        assert own[k - 1] == front[k - 1];
        assert k < |front| ==> own[k] == front[k];
      }
    }
  }

  /** `Path` is the one branch that ends in `id`. */
  lemma {:induction false} PathMeaning(t: Table, id: nat, path: seq<nat>)
    requires Forest(t) && id in t
    ensures Branch(t, path) && path[|path| - 1] == id <==> path == Path(t, id)
    decreases |path|
  {
    PathIsBranch(t, id);
    if Branch(t, path) && path[|path| - 1] == id && |path| > 1 {
      BranchFront(t, path);
      PathMeaning(t, t[id].parent.value, path[..|path| - 1]);
    }
  }

  /** Along a branch the insertion order grows, so no id comes twice. */
  lemma {:induction false} PathGrows(t: Table, id: nat)
    requires Forest(t) && id in t
    ensures forall j, k :: 0 <= j < k < |Path(t, id)| ==> t[Path(t, id)[j]].order < t[Path(t, id)[k]].order
    decreases t[id].order
  {
    if t[id].parent.Some? {
      PathGrows(t, t[id].parent.value);
    }
  }

  lemma PathDistinct(t: Table, id: nat)
    requires Forest(t) && id in t
    ensures forall j, k :: 0 <= j < k < |Path(t, id)| ==> Path(t, id)[j] != Path(t, id)[k]
  {
    PathGrows(t, id);
  }

  /** Every beginning of a branch is itself the branch of its last message. */
  lemma {:induction false} PathPrefix(t: Table, id: nat, k: nat)
    requires Forest(t) && id in t && k < |Path(t, id)|
    ensures Path(t, Path(t, id)[k]) == Path(t, id)[..k + 1]
    decreases t[id].order
  {
    if t[id].parent.Some? {
      var front := Path(t, t[id].parent.value);
      if k < |front| {
        PathPrefix(t, t[id].parent.value, k);
        assert Path(t, id)[..k + 1] == front[..k + 1];
      } else {
        assert Path(t, id)[..k + 1] == Path(t, id);
      }
    }
  }

  /** A branch depends on nothing but the parent links: other rows, and other columns, do not matter. */
  lemma {:induction false} PathAgrees(t: Table, u: Table, id: nat)
    requires Forest(t) && Forest(u) && id in t
    requires forall x :: x in t ==> x in u && u[x].parent == t[x].parent
    ensures Path(u, id) == Path(t, id)
    decreases t[id].order
  {
    if t[id].parent.Some? {
      PathAgrees(t, u, t[id].parent.value);
    }
  }

  // ---- The newest of some messages ----

  predicate Newer(a: Message, b: Message) {
    a.created > b.created || (a.created == b.created && a.id > b.id)
  }

  predicate IsNewest(t: Table, ids: set<nat>, id: nat) {
    && id in ids && id in t
    && forall x :: x in ids && x in t && x != id ==> Newer(t[id], t[x])
  }

  lemma {:induction false} NewestExists(t: Table, ids: set<nat>)
    requires Forest(t) && ids != {} && ids <= t.Keys
    ensures exists id: nat :: IsNewest(t, ids, id)
    decreases |ids|
  {
    var x: nat :| x in ids;
    if ids == {x} {
      assert IsNewest(t, ids, x);
    } else {
      NewestExists(t, ids - {x});
      var y: nat :| IsNewest(t, ids - {x}, y);
      assert IsNewest(t, ids, if Newer(t[x], t[y]) then x else y);
    }
  }

  ghost function Newest(t: Table, ids: set<nat>): (id: nat)
    requires Forest(t) && ids != {} && ids <= t.Keys
    ensures IsNewest(t, ids, id)
  {
    NewestExists(t, ids);
    var id: nat :| IsNewest(t, ids, id);
    id
  }

  function Children(t: Table, id: nat): set<nat> {
    set x | x in t && t[x].parent == Some(id)
  }

  // ---- The active branch ----

  /** The message the active branch ends in: the active leaf when it is stored, else the newest message. */
  ghost function Leaf(t: Table, leaf: Option<nat>): (id: Option<nat>)
    requires Forest(t)
    ensures id.Some? ==> id.value in t
    ensures id.None? <==> t == map[]
  {
    if leaf.Some? && leaf.value in t then leaf
    else if t.Keys == {} then None
    else Some(Newest(t, t.Keys))
  }

  ghost function Active(t: Table, leaf: Option<nat>): (path: seq<nat>)
    requires Forest(t)
    ensures forall k :: 0 <= k < |path| ==> path[k] in t
  {
    if Leaf(t, leaf).None? then [] else Path(t, Leaf(t, leaf).value)
  }

  function Ids(ms: seq<Message>): (ids: seq<nat>)
    ensures |ids| == |ms| && forall k :: 0 <= k < |ms| ==> ids[k] == ms[k].id
  {
    seq(|ms|, k requires 0 <= k < |ms| => ms[k].id)
  }

  /** The rows of a table as the store lists them. */
  predicate Lists(ms: seq<Message>, t: Table) {
    && (forall k :: 0 <= k < |ms| ==> ms[k].id in t && t[ms[k].id] == ms[k])
    && (forall id :: id in t ==> t[id] in ms)
  }

  method ById(ms: seq<Message>, ghost t: Table) returns (byId: Table)
    requires Lists(ms, t) && Forest(t)
    ensures byId == t
  {
    byId := map[];
    for k := 0 to |ms|
      invariant forall j :: 0 <= j < k ==> ms[j].id in byId
      invariant forall id :: id in byId ==> id in t && byId[id] == t[id]
    {
      byId := byId[ms[k].id := ms[k]];
    }
    forall id | id in t
      ensures id in byId
    {
      var j :| 0 <= j < |ms| && ms[j] == t[id];
    }
  }

  function Picked(t: Table, pick: Message -> bool): set<nat> {
    set id | id in t && pick(t[id])
  }

  /** The last of the messages a predicate picks, in order of creation. */
  method MaxBy(ms: seq<Message>, pick: Message -> bool, ghost t: Table) returns (m: Option<Message>)
    requires Lists(ms, t) && Forest(t)
    ensures var ids := Picked(t, pick);
            && (m.None? <==> ids == {})
            && (m.Some? ==> m.value.id in t && t[m.value.id] == m.value && IsNewest(t, ids, m.value.id))
  {
    m := None;
    for k := 0 to |ms|
      invariant m.None? ==> forall j :: 0 <= j < k ==> !pick(ms[j])
      invariant m.Some? ==> m.value.id in t && t[m.value.id] == m.value && pick(m.value)
      invariant m.Some? ==>
                  forall j :: 0 <= j < k && pick(ms[j]) && ms[j] != m.value ==> Newer(m.value, ms[j])
    {
      if pick(ms[k]) && (m.None? || !Newer(m.value, ms[k])) {
        m := Some(ms[k]);
      }
    }
    ghost var ids := Picked(t, pick);
    forall x | x in ids
      ensures m.Some? && (x == m.value.id || Newer(m.value, t[x]))
    {
      var j :| 0 <= j < |ms| && ms[j] == t[x];
      assert pick(ms[j]);
    }
    if m.Some? {
      assert m.value.id in ids;
    }
  }

  method Reverse<T>(s: seq<T>) returns (r: seq<T>)
    ensures |r| == |s| && forall k :: 0 <= k < |s| ==> r[k] == s[|s| - 1 - k]
  {
    r := [];
    for i := 0 to |s|
      invariant |r| == i && forall k :: 0 <= k < i ==> r[k] == s[i - 1 - k]
    {
      r := [s[i]] + r;
    }
  }

  lemma NewestIsUnique(t: Table, ids: set<nat>, a: nat, b: nat)
    requires Forest(t) && IsNewest(t, ids, a) && IsNewest(t, ids, b)
    ensures a == b
  {
  }

  /** What has been collected so far, walking upward from the end of a branch. */
  predicate Climbed(t: Table, whole: seq<nat>, up: seq<Message>, cur: Option<Message>) {
    && |up| <= |whole|
    && (forall k :: 0 <= k < |up| ==> up[k].id in t && up[k] == t[up[k].id])
    && (forall k :: 0 <= k < |up| ==> up[k].id == whole[|whole| - 1 - k])
    && (cur.Some? ==> cur.value.id in t && t[cur.value.id] == cur.value)
    && (cur.None? ==> |up| == |whole|)
  }

  lemma ClimbStep(t: Table, whole: seq<nat>, up: seq<Message>, m: Message)
    requires Forest(t) && Climbed(t, whole, up, Some(m))
    requires |up| < |whole| && Path(t, m.id) == whole[..|whole| - |up|]
    ensures var next := if m.parent.Some? then Some(t[m.parent.value]) else None;
            && Climbed(t, whole, up + [m], next)
            && (next.Some? ==>
                  && |up| + 1 < |whole|
                  && Path(t, next.value.id) == whole[..|whole| - |up| - 1])
  {
    var own := Path(t, m.id);
    assert own[|own| - 1] == whole[|whole| - 1 - |up|];
    if m.parent.Some? {
      assert Path(t, m.parent.value) == own[..|own| - 1];
    }
  }

  method StartOf(messages: seq<Message>, leaf: Option<nat>, byId: Table, ghost t: Table)
    returns (cur: Option<Message>)
    requires Lists(messages, t) && Forest(t) && byId == t
    ensures cur.Some? <==> Leaf(t, leaf).Some?
    ensures cur.Some? ==> cur.value.id == Leaf(t, leaf).value && t[cur.value.id] == cur.value
  {
    if leaf.Some? && leaf.value in byId {
      cur := Some(byId[leaf.value]);
    } else {
      cur := MaxBy(messages, m => true, t);
      assert Picked(t, m => true) == t.Keys;
      if cur.Some? {
        NewestIsUnique(t, t.Keys, cur.value.id, Newest(t, t.Keys));
      }
    }
  }

  /** Walks upward from the leaf, then turns the walk around: the active branch, root first. */
  method ActivePath(messages: seq<Message>, leaf: Option<nat>, ghost t: Table) returns (path: seq<Message>)
    requires Lists(messages, t) && Forest(t)
    ensures Ids(path) == Active(t, leaf)
    ensures forall k :: 0 <= k < |path| ==> path[k].id in t && path[k] == t[path[k].id]
  {
    hide Leaf, Path;
    var byId := ById(messages, t);
    var cur := StartOf(messages, leaf, byId, t);
    ghost var whole := Active(t, leaf);
    var up: seq<Message> := [];
    while cur.Some?
      invariant Climbed(t, whole, up, cur)
      invariant cur.Some? ==> |up| < |whole| && Path(t, cur.value.id) == whole[..|whole| - |up|]
      decreases cur.Some?, if cur.Some? then cur.value.order else 0
    {
      var m := cur.value;
      ClimbStep(t, whole, up, m);
      up := up + [m];
      cur := if m.parent.Some? && m.parent.value in byId then Some(byId[m.parent.value]) else None;
    }
    path := Reverse(up);
  }

  /** From a branch point downward, the newest child each time. */
  ghost predicate Descends(t: Table, path: seq<nat>, from: nat) {
    && from < |path|
    && (forall k :: 0 <= k < |path| ==> path[k] in t)
    && forall k :: from < k < |path| ==> IsNewest(t, Children(t, path[k - 1]), path[k])
  }

  /**
   * The branch of the result starts with the branch of `from`, follows the newest child at each level from there, and
   * cannot be continued.
   */
  method DeepestLeaf(messages: seq<Message>, from: nat, ghost t: Table) returns (leaf: nat)
    requires Lists(messages, t) && Forest(t)
    ensures from !in t ==> leaf == from
    ensures from in t ==> leaf in t && Children(t, leaf) == {}
    ensures from in t ==> Path(t, from) <= Path(t, leaf) && Descends(t, Path(t, leaf), |Path(t, from)| - 1)
  {
    leaf := from;
    while true
      invariant from !in t ==> leaf == from
      invariant from in t ==> leaf in t
      invariant from in t ==> Path(t, from) <= Path(t, leaf) && Descends(t, Path(t, leaf), |Path(t, from)| - 1)
      decreases Later(t, leaf)
    {
      var id := leaf;
      var next := MaxBy(messages, (m: Message) => m.parent == Some(id), t);
      assert Picked(t, (m: Message) => m.parent == Some(id)) == Children(t, leaf);
      if next.None? {
        return;
      }
      var child := next.value.id;
      assert Path(t, child) == Path(t, leaf) + [child];
      assert child in Later(t, leaf) && child !in Later(t, child);
      leaf := child;
    }
  }

  function Later(t: Table, id: nat): set<nat> {
    if id !in t then {} else set x | x in t && t[x].order > t[id].order
  }

  // ---- Subtrees ----

  /** `id` is `root` or below it. */
  predicate Under(t: Table, root: nat, id: nat)
    requires Forest(t) && id in t
  {
    root in Path(t, id)
  }

  /** `Under` is the least set that has the root and, with a message, its children. */
  lemma {:induction false} UnderIsLeast(t: Table, root: nat, s: set<nat>, id: nat)
    requires Forest(t) && id in t && Under(t, root, id)
    requires root in s && forall x :: x in t && t[x].parent.Some? && t[x].parent.value in s ==> x in s
    ensures id in s
    decreases t[id].order
  {
    if id != root {
      assert t[id].parent.Some?;
      UnderIsLeast(t, root, s, t[id].parent.value);
    }
  }

  lemma UnderRoot(t: Table, root: nat)
    requires Forest(t) && root in t
    ensures Under(t, root, root)
  {
  }

  lemma UnderChild(t: Table, root: nat, id: nat)
    requires Forest(t) && id in t && t[id].parent.Some? && Under(t, root, t[id].parent.value)
    ensures Under(t, root, id)
  {
  }

  /** What a subtree delete leaves. */
  function Without(t: Table, root: nat): Table
    requires Forest(t)
  {
    map id | id in t && !Under(t, root, id) :: t[id]
  }

  /** What is left is closed under parents, keeps its branches, and has the deleted root's parent. */
  lemma WithoutMeaning(t: Table, root: nat)
    requires Forest(t)
    ensures Forest(Without(t, root))
    ensures forall id :: id in Without(t, root) ==> Path(Without(t, root), id) == Path(t, id)
    ensures root in t && t[root].parent.Some? ==> t[root].parent.value in Without(t, root)
  {
    var u := Without(t, root);
    forall id | id in u && t[id].parent.Some?
      ensures t[id].parent.value in u
    {
      if Under(t, root, t[id].parent.value) {
        UnderChild(t, root, id);
      }
    }
    forall id | id in u
      ensures Path(u, id) == Path(t, id)
    {
      PathAgrees(u, t, id);
    }
    if root in t && t[root].parent.Some? {
      PathGrows(t, root);
      var front := Path(t, t[root].parent.value);
      forall k | 0 <= k < |front|
        ensures front[k] != root
      {
        assert Path(t, root)[k] == front[k];
      }
    }
  }

  /** The worklist: exactly the messages at or below the root. */
  method Subtree(messages: seq<Message>, root: nat, ghost t: Table) returns (doomed: set<nat>)
    requires Lists(messages, t) && Forest(t) && root in t
    ensures doomed == set id | id in t && Under(t, root, id)
  {
    hide Forest, Under, Path;
    var kids := ByParent(messages, t);
    doomed := {};
    var stack := [root];
    UnderRoot(t, root);
    while stack != []
      invariant forall k :: 0 <= k < |stack| ==> stack[k] in t && Under(t, root, stack[k])
      invariant forall id :: id in doomed ==> id in t && Under(t, root, id)
      invariant root in doomed || root in stack
      invariant forall x :: x in t && t[x].parent.Some? && t[x].parent.value in doomed ==> x in doomed || x in stack
      decreases t.Keys - doomed, |stack|
    {
      var id := stack[|stack| - 1];
      ghost var before := stack;
      stack := stack[..|stack| - 1];
      assert before == stack + [id];
      if id !in doomed {
        doomed := doomed + {id};
        if id in kids {
          forall k | 0 <= k < |kids[id]|
            ensures kids[id][k] in t && Under(t, root, kids[id][k])
          {
            UnderChild(t, root, kids[id][k]);
          }
          stack := stack + kids[id];
        }
      }
    }
    forall id | id in t && Under(t, root, id)
      ensures id in doomed
    {
      UnderIsLeast(t, root, doomed, id);
    }
  }

  /** The children of each message that has any. */
  method ByParent(messages: seq<Message>, ghost t: Table) returns (kids: map<nat, seq<nat>>)
    requires Lists(messages, t) && Forest(t)
    ensures forall id, k :: id in kids && 0 <= k < |kids[id]| ==> kids[id][k] in t && t[kids[id][k]].parent == Some(id)
    ensures forall x :: x in t && t[x].parent.Some? ==> t[x].parent.value in kids && x in kids[t[x].parent.value]
  {
    kids := map[];
    for k := 0 to |messages|
      invariant forall id, j :: id in kids && 0 <= j < |kids[id]| ==>
                  kids[id][j] in t && t[kids[id][j]].parent == Some(id)
      invariant forall j :: 0 <= j < k && messages[j].parent.Some? ==>
                  messages[j].parent.value in kids && messages[j].id in kids[messages[j].parent.value]
    {
      var m := messages[k];
      if m.parent.Some? {
        var p := m.parent.value;
        var others := if p in kids then kids[p] else [];
        kids := kids[p := others + [m.id]];
      }
    }
    forall x | x in t && t[x].parent.Some?
      ensures t[x].parent.value in kids && x in kids[t[x].parent.value]
    {
      var j :| 0 <= j < |messages| && messages[j] == t[x];
    }
  }
}
