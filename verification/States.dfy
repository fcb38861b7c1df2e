/** Variables: the declared schema, the effective state of a branch, and the updates a reply may make. */
module States {
  import opened Text

  datatype Value =
    | Null
    | Bool(b: bool)
    | Number(n: real)
    | Str(s: string)
    | List(items: seq<Value>)
    | Object(fields: map<string, Value>)

  type Snapshot = map<string, Value>

  datatype VarType = NumberType | BoolType | StringType | ListType

  datatype VarDecl = VarDecl(name: string, varType: VarType, initial: Value)

  datatype Action = Set | Add | Sub | Toggle | Append | Remove

  datatype Update = Update(action: Action, key: string, value: Option<string>)

  /** The two library readers: finite numbers, and JSON arrays. */
  datatype Readers = Readers(number: string -> Option<real>, list: string -> Option<seq<Value>>)

  const MAX_LIST_LEN := 1000

  predicate HasType(v: Value, t: VarType) {
    match t
    case NumberType => v.Number?
    case BoolType => v.Bool?
    case StringType => v.Str?
    case ListType => v.List?
  }

  predicate Reserved(key: string) {
    key != "" && key[0] == '$'
  }

  function LowerChar(c: char): char {
    if 'A' <= c <= 'Z' then (c as int + 32) as char else c
  }

  function Lower(s: string): (r: string)
    ensures |r| == |s|
  {
    seq(|s|, i requires 0 <= i < |s| => LowerChar(s[i]))
  }

  // ---- Schema ----

  /** The first declaration of a name. */
  function DeclOf(schema: seq<VarDecl>, key: string): Option<VarDecl> {
    if schema == [] then None else if schema[0].name == key then Some(schema[0]) else DeclOf(schema[1..], key)
  }

  /** The last declaration of a name. */
  function LastDeclOf(decls: seq<VarDecl>, key: string): Option<VarDecl> {
    if decls == [] then None
    else if decls[|decls| - 1].name == key then Some(decls[|decls| - 1])
    else LastDeclOf(decls[..|decls| - 1], key)
  }

  predicate DistinctNames(schema: seq<VarDecl>) {
    forall i, j :: 0 <= i < j < |schema| ==> schema[i].name != schema[j].name
  }

  function IndexOf(schema: seq<VarDecl>, key: string): (n: nat)
    ensures n <= |schema| && (n < |schema| ==> schema[n].name == key)
    ensures forall i :: 0 <= i < n ==> schema[i].name != key
    ensures DeclOf(schema, key) == if n < |schema| then Some(schema[n]) else None
  {
    if schema == [] || schema[0].name == key then 0 else 1 + IndexOf(schema[1..], key)
  }

  lemma DeclIs(schema: seq<VarDecl>, key: string, i: nat)
    requires DistinctNames(schema) && i < |schema| && schema[i].name == key
    ensures DeclOf(schema, key) == Some(schema[i])
  {
    var n := IndexOf(schema, key);
  }

  /** Later declarations win, in place; new names go to the end. Names stay distinct. */
  method MergeDecls(schema: seq<VarDecl>, decls: seq<VarDecl>) returns (out: seq<VarDecl>)
    requires DistinctNames(schema)
    ensures DistinctNames(out)
    ensures forall key ::
              DeclOf(out, key) == if LastDeclOf(decls, key).Some? then LastDeclOf(decls, key) else DeclOf(schema, key)
    ensures |schema| <= |out| && forall i :: 0 <= i < |schema| ==> out[i].name == schema[i].name
  {
    hide DeclOf;
    out := schema;
    for k := 0 to |decls|
      invariant DistinctNames(out)
      invariant forall key ::
                  DeclOf(out, key) ==
                  if LastDeclOf(decls[..k], key).Some? then LastDeclOf(decls[..k], key) else DeclOf(schema, key)
      invariant |schema| <= |out| && forall i :: 0 <= i < |schema| ==> out[i].name == schema[i].name
    {
      var d := decls[k];
      assert decls[..k + 1][..k] == decls[..k];
      var n := IndexOf(out, d.name);
      ghost var before := out;
      out := if n < |out| then out[n := d] else out + [d];
      forall key
        ensures DeclOf(out, key) == if key == d.name then Some(d) else DeclOf(before, key)
      {
        MergeOne(before, d, key);
      }
    }
    assert decls[..|decls|] == decls;
  }

  lemma MergeOne(schema: seq<VarDecl>, d: VarDecl, key: string)
    requires DistinctNames(schema)
    ensures var n := IndexOf(schema, d.name);
            var out := if n < |schema| then schema[n := d] else schema + [d];
            && DistinctNames(out)
            && DeclOf(out, key) == if key == d.name then Some(d) else DeclOf(schema, key)
  {
    var n := IndexOf(schema, d.name);
    var out := if n < |schema| then schema[n := d] else schema + [d];
    if key == d.name {
      DeclIs(out, key, n);
    } else {
      var m := IndexOf(schema, key);
      if m < |schema| {
        DeclIs(out, key, m);
      } else {
        var k := IndexOf(out, key);
      }
    }
  }

  function Initials(schema: seq<VarDecl>): (m: Snapshot)
    ensures forall i :: 0 <= i < |schema| ==> schema[i].name in m
  {
    if schema == [] then map[]
    else Initials(schema[..|schema| - 1])[schema[|schema| - 1].name := schema[|schema| - 1].initial]
  }

  /** Initial values, under the session's seed, under the branch's snapshot. */
  function Effective(schema: seq<VarDecl>, seed: Snapshot, leaf: Snapshot): Snapshot {
    Initials(schema) + seed + leaf
  }

  /** Inserting every pair of `over`, one after the other. */
  method Overlay(base: Snapshot, over: Snapshot) returns (out: Snapshot)
    ensures out == base + over
  {
    out := base;
    var keys := over.Keys;
    while keys != {}
      invariant keys <= over.Keys
      invariant out == base + (map k | k in over && k !in keys :: over[k])
      decreases |keys|
    {
      var k :| k in keys;
      out := out[k := over[k]];
      keys := keys - {k};
    }
  }

  method EffectiveState(schema: seq<VarDecl>, seed: Snapshot, leaf: Snapshot) returns (out: Snapshot)
    ensures out == Effective(schema, seed, leaf)
  {
    out := Overlay(Initials(schema), seed);
    out := Overlay(out, leaf);
  }

  // ---- Updates ----

  function Coerce(value: Option<string>, t: VarType, readers: Readers): Option<Value> {
    if value.None? then None
    else
      match t
      case NumberType =>
        (match readers.number(value.value)
         case None => None
         case Some(n) => Some(Number(n)))
      case BoolType =>
        if Lower(value.value) == "true" then Some(Bool(true))
        else if Lower(value.value) == "false" then Some(Bool(false))
        else None
      case StringType => Some(Str(value.value))
      case ListType =>
        (match readers.list(value.value)
         case None => None
         case Some(items) => Some(List(items)))
  }

  function NumberAt(state: Snapshot, key: string): real {
    if key in state && state[key].Number? then state[key].n else 0.0
  }

  function BoolAt(state: Snapshot, key: string): bool {
    key in state && state[key].Bool? && state[key].b
  }

  function ListAt(state: Snapshot, key: string): seq<Value> {
    if key in state && state[key].List? then state[key].items else []
  }

  function PositionOf(items: seq<Value>, text: string): (n: nat)
    ensures n <= |items| && (n < |items| ==> items[n] == Str(text))
    ensures forall i :: 0 <= i < n ==> items[i] != Str(text)
  {
    if items == [] || items[0] == Str(text) then 0 else 1 + PositionOf(items[1..], text)
  }

  function RemoveFirst(items: seq<Value>, text: string): seq<Value> {
    var n := PositionOf(items, text);
    if n < |items| then items[..n] + items[n + 1..] else items
  }

  /** The value an update gives its variable, if it changes anything. */
  function NewValue(state: Snapshot, t: VarType, u: Update, readers: Readers): Option<Value> {
    match (u.action, t)
    case (Set, _) => Coerce(u.value, t, readers)
    case (Add, NumberType) => Shifted(state, u, 1.0, readers)
    case (Sub, NumberType) => Shifted(state, u, -1.0, readers)
    case (Toggle, BoolType) => Some(Bool(!BoolAt(state, u.key)))
    case (Append, ListType) =>
      if u.value.None? || |ListAt(state, u.key)| >= MAX_LIST_LEN then None
      else Some(List(ListAt(state, u.key) + [Str(u.value.value)]))
    case (Remove, ListType) =>
      if u.value.None? then None else Some(List(RemoveFirst(ListAt(state, u.key), u.value.value)))
    case _ => None
  }

  function Shifted(state: Snapshot, u: Update, sign: real, readers: Readers): Option<Value> {
    if u.value.None? then None
    else
      match readers.number(u.value.value)
      case None => None
      case Some(n) => Some(Number(NumberAt(state, u.key) + sign * n))
  }

  function ApplyOne(state: Snapshot, schema: seq<VarDecl>, u: Update, readers: Readers): Snapshot {
    var d := DeclOf(schema, u.key);
    if Reserved(u.key) || d.None? then state
    else
      match NewValue(state, d.value.varType, u, readers)
      case None => state
      case Some(v) => state[u.key := v]
  }

  function ApplyUpdates(state: Snapshot, schema: seq<VarDecl>, updates: seq<Update>, readers: Readers): Snapshot
    decreases |updates|
  {
    if updates == [] then state
    else ApplyUpdates(ApplyOne(state, schema, updates[0], readers), schema, updates[1..], readers)
  }

  method ApplyUpdatesLoop(state: Snapshot, schema: seq<VarDecl>, updates: seq<Update>, readers: Readers)
    returns (obj: Snapshot)
    ensures obj == ApplyUpdates(state, schema, updates, readers)
  {
    hide Coerce, Shifted, RemoveFirst, ListAt, BoolAt, NumberAt;
    obj := state;
    assert updates[0..] == updates;
    for i := 0 to |updates|
      invariant ApplyUpdates(state, schema, updates, readers) == ApplyUpdates(obj, schema, updates[i..], readers)
    {
      var u := updates[i];
      assert updates[i..][0] == u && updates[i..][1..] == updates[i + 1..];
      if Reserved(u.key) {
        continue;
      }
      var d := DeclOf(schema, u.key);
      if d.None? {
        continue;
      }
      var t := d.value.varType;
      var v := None;
      if u.action.Set? {
        v := Coerce(u.value, t, readers);
      } else if (u.action.Add? || u.action.Sub?) && t.NumberType? {
        v := Shifted(obj, u, if u.action.Add? then 1.0 else -1.0, readers);
      } else if u.action.Toggle? && t.BoolType? {
        v := Some(Bool(!BoolAt(obj, u.key)));
      } else if u.action.Append? && t.ListType? && u.value.Some? {
        var items := ListAt(obj, u.key);
        if |items| < MAX_LIST_LEN {
          v := Some(List(items + [Str(u.value.value)]));
        }
      } else if u.action.Remove? && t.ListType? && u.value.Some? {
        v := Some(List(RemoveFirst(ListAt(obj, u.key), u.value.value)));
      }
      if v.Some? {
        obj := obj[u.key := v.value];
      }
    }
  }

  /**
   * The sandbox: no key is removed; a key is touched only if some update names it, it is declared and not reserved; and
   * what a touched key then holds has its declared type.
   */
  lemma {:induction false} ApplyUpdatesMeaning(
    state: Snapshot, schema: seq<VarDecl>, updates: seq<Update>, readers: Readers)
    ensures var out := ApplyUpdates(state, schema, updates, readers);
            && state.Keys <= out.Keys
            && forall key :: key in out ==>
                 || (key in state && out[key] == state[key])
                 || (&& (exists i :: 0 <= i < |updates| && updates[i].key == key)
                     && !Reserved(key) && DeclOf(schema, key).Some?
                     && HasType(out[key], DeclOf(schema, key).value.varType))
    decreases |updates|
  {
    hide DeclOf, Reserved, HasType, ApplyOne;
    if updates != [] {
      var u := updates[0];
      var next := ApplyOne(state, schema, u, readers);
      ApplyOneMeaning(state, schema, u, readers);
      ApplyUpdatesMeaning(next, schema, updates[1..], readers);
      var out := ApplyUpdates(next, schema, updates[1..], readers);
      forall key | key in out && !(key in state && out[key] == state[key])
        ensures exists i :: 0 <= i < |updates| && updates[i].key == key
      {
        if key in next && out[key] == next[key] {
          assert updates[0].key == key;
        } else {
          var i :| 0 <= i < |updates[1..]| && updates[1..][i].key == key;
          assert updates[i + 1].key == key;
        }
      }
    }
  }

  lemma ApplyOneMeaning(state: Snapshot, schema: seq<VarDecl>, u: Update, readers: Readers)
    ensures var out := ApplyOne(state, schema, u, readers);
            && state.Keys <= out.Keys
            && forall key :: key in out ==>
                 || (key in state && out[key] == state[key])
                 || (&& u.key == key && !Reserved(key) && DeclOf(schema, key).Some?
                     && HasType(out[key], DeclOf(schema, key).value.varType))
  {
    hide Reserved;
  }

  /** A SET that stores a list past the cap: only APPEND looks at it. */
  predicate Oversets(schema: seq<VarDecl>, u: Update, readers: Readers) {
    && u.action.Set? && u.value.Some? && !Reserved(u.key)
    && DeclOf(schema, u.key).Some? && DeclOf(schema, u.key).value.varType.ListType?
    && readers.list(u.value.value).Some? && |readers.list(u.value.value).value| > MAX_LIST_LEN
  }

  predicate Capped(state: Snapshot, key: string) {
    |ListAt(state, key)| <= MAX_LIST_LEN
  }

  /** One update keeps a list within the cap exactly when it is not a SET of that list to one past it. */
  lemma OneKeepsCap(state: Snapshot, schema: seq<VarDecl>, u: Update, readers: Readers, key: string)
    requires Capped(state, key)
    ensures Capped(ApplyOne(state, schema, u, readers), key) <==> !(u.key == key && Oversets(schema, u, readers))
  {
    hide DeclOf, Reserved;
  }

  /** Through a whole list of updates the cap is kept after each of them exactly when none is such a SET. */
  lemma {:induction false} UpdatesKeepCap(
    state: Snapshot, schema: seq<VarDecl>, updates: seq<Update>, readers: Readers, key: string)
    requires Capped(state, key)
    ensures (forall k :: 0 <= k <= |updates| ==> Capped(ApplyUpdates(state, schema, updates[..k], readers), key)) <==>
            (forall k :: 0 <= k < |updates| ==> !(updates[k].key == key && Oversets(schema, updates[k], readers)))
    decreases |updates|
  {
    hide ApplyOne, Capped, Oversets;
    if updates != [] {
      var u, rest := updates[0], updates[1..];
      var next := ApplyOne(state, schema, u, readers);
      OneKeepsCap(state, schema, u, readers, key);
      forall k | 0 <= k <= |rest|
        ensures ApplyUpdates(state, schema, updates[..k + 1], readers) == ApplyUpdates(next, schema, rest[..k], readers)
      {
        assert updates[..k + 1][0] == u && updates[..k + 1][1..] == rest[..k];
      }
      assert ApplyUpdates(next, schema, rest[..0], readers) == next;
      if Capped(next, key) {
        UpdatesKeepCap(next, schema, rest, readers, key);
        CapOfRest(state, schema, updates, readers, key, next);
      } else {
        assert !Capped(ApplyUpdates(state, schema, updates[..0 + 1], readers), key);
      }
    } else {
      assert updates[..0] == [];
    }
  }

  lemma CapOfRest(
    state: Snapshot, schema: seq<VarDecl>, updates: seq<Update>, readers: Readers, key: string, next: Snapshot)
    requires updates != [] && Capped(state, key)
    requires forall k {:trigger updates[1..][..k]} :: 0 <= k < |updates| ==>
               ApplyUpdates(state, schema, updates[..k + 1], readers) == ApplyUpdates(next, schema, updates[1..][..k], readers)
    ensures (forall k :: 0 <= k <= |updates| ==> Capped(ApplyUpdates(state, schema, updates[..k], readers), key)) <==>
            (forall k :: 0 <= k < |updates| ==> Capped(ApplyUpdates(next, schema, updates[1..][..k], readers), key))
  {
    hide Capped;
    assert ApplyUpdates(state, schema, updates[..0], readers) == state;
    if forall k :: 0 <= k <= |updates| ==> Capped(ApplyUpdates(state, schema, updates[..k], readers), key) {
      forall k | 0 <= k < |updates|
        ensures Capped(ApplyUpdates(next, schema, updates[1..][..k], readers), key)
      {
        assert Capped(ApplyUpdates(state, schema, updates[..k + 1], readers), key);
      }
    }
    if forall k :: 0 <= k < |updates| ==> Capped(ApplyUpdates(next, schema, updates[1..][..k], readers), key) {
      forall k | 0 <= k <= |updates|
        ensures Capped(ApplyUpdates(state, schema, updates[..k], readers), key)
      {
        if k > 0 {
          assert Capped(ApplyUpdates(next, schema, updates[1..][..k - 1], readers), key);
          assert updates[..(k - 1) + 1] == updates[..k];
        }
      }
    }
  }

  /** A SET to a list of one more than the cap is stored as it is. */
  lemma SetPastCap()
    ensures var long := seq(MAX_LIST_LEN + 1, _ => Null);
            var readers := Readers(_ => None, _ => Some(long));
            var schema := [VarDecl("l", ListType, List([]))];
            && Capped(map[], "l")
            && ApplyUpdates(map[], schema, [Update(Set, "l", Some("nulls"))], readers) == map["l" := List(long)]
            && !Capped(map["l" := List(long)], "l")
  {
    var schema := [VarDecl("l", ListType, List([]))];
    assert DeclOf(schema, "l") == Some(schema[0]);
    assert !Reserved("l");
  }

  // ---- What a branch sees ----

  datatype Identity = Identity(
    assistantName: Option<string>,
    assistantAvatar: Option<string>,
    userName: Option<string>,
    userAvatar: Option<string>)

  function With(state: Snapshot, key: string, value: Option<string>): Snapshot {
    if value.Some? then state[key := Str(value.value)] else state
  }

  function Inject(state: Snapshot, id: Identity): Snapshot {
    With(With(With(With(state,
      "$assistant_name", id.assistantName), "$assistant_avatar", id.assistantAvatar),
      "$user_name", id.userName), "$user_avatar", id.userAvatar)
  }

  /** The fixed surroundings of a session. */
  datatype Config = Config(schema: seq<VarDecl>, seed: Snapshot, identity: Identity, readers: Readers)

  /** The state a new message starts from when its parent carries this snapshot. */
  function BranchState(cfg: Config, snapshot: Snapshot): Snapshot {
    Inject(Effective(cfg.schema, cfg.seed, snapshot), cfg.identity)
  }

  function Fold(cfg: Config, snapshot: Snapshot, updates: seq<Update>): Snapshot {
    ApplyUpdates(BranchState(cfg, snapshot), cfg.schema, updates, cfg.readers)
  }

  /** The slow definition: all updates on a path, in order, from the initial effective state. */
  function Replay(cfg: Config, path: seq<seq<Update>>): Snapshot {
    if path == [] then BranchState(cfg, map[])
    else ApplyUpdates(Replay(cfg, path[..|path| - 1]), cfg.schema, path[|path| - 1], cfg.readers)
  }

  /** Nothing the surroundings would add is missing, and the identity is the current one. */
  predicate Settled(cfg: Config, s: Snapshot) {
    && BranchState(cfg, map[]).Keys <= s.Keys
    && Inject(s, cfg.identity) == s
  }

  lemma SettledIsFixed(cfg: Config, s: Snapshot)
    requires Settled(cfg, s)
    ensures BranchState(cfg, s) == s
  {
    hide Inject, Badge, Initials, Reserved;
    InjectIsOverlay(Effective(cfg.schema, cfg.seed, map[]), cfg.identity);
    assert Effective(cfg.schema, cfg.seed, s) == s;
  }

  /** What the identity writes, as one overlay of reserved keys. */
  function Badge(id: Identity): Snapshot {
    Inject(map[], id)
  }

  lemma InjectIsOverlay(s: Snapshot, id: Identity)
    ensures Inject(s, id) == s + Badge(id)
    ensures forall key :: key in Badge(id) ==> Reserved(key)
  {
  }

  lemma BranchStateSettled(cfg: Config, snapshot: Snapshot)
    ensures Settled(cfg, BranchState(cfg, snapshot))
  {
    hide Inject, Badge, Initials, Reserved;
    InjectIsOverlay(Effective(cfg.schema, cfg.seed, snapshot), cfg.identity);
    InjectIsOverlay(Effective(cfg.schema, cfg.seed, map[]), cfg.identity);
    InjectIsOverlay(BranchState(cfg, snapshot), cfg.identity);
  }

  lemma UpdatesKeepSettled(cfg: Config, s: Snapshot, updates: seq<Update>)
    requires Settled(cfg, s)
    ensures Settled(cfg, ApplyUpdates(s, cfg.schema, updates, cfg.readers))
  {
    hide DeclOf, HasType, ApplyUpdates, BranchState, Inject, Reserved;
    var out := ApplyUpdates(s, cfg.schema, updates, cfg.readers);
    ApplyUpdatesMeaning(s, cfg.schema, updates, cfg.readers);
    forall key | Reserved(key) && key in s
      ensures out[key] == s[key]
    {
    }
    IdentityStays(s, out, cfg.identity);
  }

  lemma IdentityStays(s: Snapshot, out: Snapshot, id: Identity)
    requires s.Keys <= out.Keys && Inject(s, id) == s
    requires forall key :: Reserved(key) && key in s ==> out[key] == s[key]
    ensures Inject(out, id) == out
  {
    hide Inject, Badge, Reserved;
    InjectIsOverlay(s, id);
    InjectIsOverlay(out, id);
    var badge := Badge(id);
    forall key | key in badge
      ensures key in out && out[key] == badge[key]
    {
      assert key in s + badge && (s + badge)[key] == badge[key];
    }
  }

  lemma {:induction false} ReplaySettled(cfg: Config, path: seq<seq<Update>>)
    ensures Settled(cfg, Replay(cfg, path))
  {
    hide Settled, BranchState, ApplyUpdates;
    if path == [] {
      BranchStateSettled(cfg, map[]);
    } else {
      ReplaySettled(cfg, path[..|path| - 1]);
      UpdatesKeepSettled(cfg, Replay(cfg, path[..|path| - 1]), path[|path| - 1]);
    }
  }

  /** A snapshot stands for a path when a child created under it would start from the replayed state. */
  predicate StandsFor(cfg: Config, snapshot: Snapshot, path: seq<seq<Update>>) {
    BranchState(cfg, snapshot) == Replay(cfg, path)
  }

  /** Folding updates into a parent's snapshot continues the replay by one step, and the result is the replay itself. */
  lemma FoldContinues(cfg: Config, snapshot: Snapshot, path: seq<seq<Update>>, updates: seq<Update>)
    requires StandsFor(cfg, snapshot, path)
    ensures Fold(cfg, snapshot, updates) == Replay(cfg, path + [updates])
    ensures StandsFor(cfg, Fold(cfg, snapshot, updates), path + [updates])
  {
    hide Settled, BranchState, ApplyUpdates;
    assert (path + [updates])[..|path|] == path;
    ReplaySettled(cfg, path + [updates]);
    SettledIsFixed(cfg, Replay(cfg, path + [updates]));
  }

  /** No parent at all: the replay starts from the initial effective state. */
  lemma NothingStandsForRoot(cfg: Config)
    ensures StandsFor(cfg, map[], [])
  {
  }

  // ---- Updates from a panel, which leave the identity out ----

  predicate AllReserved(m: Snapshot) {
    forall key :: key in m ==> Reserved(key)
  }

  lemma OneCommutes(s: Snapshot, badge: Snapshot, schema: seq<VarDecl>, u: Update, readers: Readers)
    requires AllReserved(badge)
    ensures ApplyOne(s + badge, schema, u, readers) == ApplyOne(s, schema, u, readers) + badge
  {
    hide Reserved, Coerce, RemoveFirst, DeclOf;
    if !Reserved(u.key) && DeclOf(schema, u.key).Some? {
      var t := DeclOf(schema, u.key).value.varType;
      assert u.key !in badge;
      assert NewValue(s + badge, t, u, readers) == NewValue(s, t, u, readers);
    }
  }

  lemma {:induction false} UpdatesCommute(
    s: Snapshot, badge: Snapshot, schema: seq<VarDecl>, updates: seq<Update>, readers: Readers)
    requires AllReserved(badge)
    ensures ApplyUpdates(s + badge, schema, updates, readers) == ApplyUpdates(s, schema, updates, readers) + badge
    decreases |updates|
  {
    hide ApplyOne, AllReserved;
    if updates != [] {
      OneCommutes(s, badge, schema, updates[0], readers);
      UpdatesCommute(ApplyOne(s, schema, updates[0], readers), badge, schema, updates[1..], readers);
    }
  }

  /** A panel's fold, which skips the identity, still stands for one more step of the replay. */
  lemma PanelContinues(cfg: Config, snapshot: Snapshot, path: seq<seq<Update>>, updates: seq<Update>)
    requires StandsFor(cfg, snapshot, path)
    ensures StandsFor(
              cfg, ApplyUpdates(Effective(cfg.schema, cfg.seed, snapshot), cfg.schema, updates, cfg.readers),
              path + [updates])
  {
    hide ApplyUpdates, Inject, Badge, Initials, DeclOf, HasType, Reserved;
    var plain := Effective(cfg.schema, cfg.seed, snapshot);
    var folded := ApplyUpdates(plain, cfg.schema, updates, cfg.readers);
    var badge := Badge(cfg.identity);
    ApplyUpdatesMeaning(plain, cfg.schema, updates, cfg.readers);
    InjectIsOverlay(plain, cfg.identity);
    InjectIsOverlay(folded, cfg.identity);
    assert Effective(cfg.schema, cfg.seed, folded) == folded;
    UpdatesCommute(plain, badge, cfg.schema, updates, cfg.readers);
    assert (path + [updates])[..|path|] == path;
  }
}
