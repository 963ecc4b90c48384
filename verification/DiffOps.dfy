/** KVP diff ops, `integration/diff_ops.py`: compute, apply, and the round trip. */
module DiffOps {
  import opened Json
  import opened Ordering
  import opened KeyedLists
  import opened Canonical

  datatype Single = Case | NpcSemantic | Investigation | Dialogue | CaseOutcome | CaseRecap

  function SingleName(s: Single): string {
    match s
    case Case => "case"
    case NpcSemantic => "npc_semantic"
    case Investigation => "investigation"
    case Dialogue => "dialogue"
    case CaseOutcome => "case_outcome"
    case CaseRecap => "case_recap"
  }

  const SINGLES: seq<Single> := [Case, NpcSemantic, Investigation, Dialogue, CaseOutcome, CaseRecap]

  lemma SinglesOnce()
    ensures NoDuplicates(SINGLES)
  {
    assert SINGLES == [Case, NpcSemantic, Investigation, Dialogue, CaseOutcome, CaseRecap];
  }

  lemma GroupsOnce()
    ensures NoDuplicates(GROUPS)
  {
    assert GROUPS == [Rooms, Agents, Items, Objects, Events];
  }

  /** `{"op": ..., ...}`; a null single field travels as `SetField(s, Null)`. */
  datatype Op =
    | SetWorld(world: Json)
    | ClearWorld
    | SetField(field: Single, value: Json)
    | Upsert(group: Group, item: Json)
    | Remove(group: Group, key: Key)

  datatype Error = BadId | NotAList | MissingPayload | Unsortable

  datatype Result<+T> = Ok(value: T) | Err(error: Error)

  type Dict = map<Key, Json>

  // What an item is filed under: its sorting key, where an event's ids must be integers.
  function DictKey(g: Group, item: Json): Option<Key> {
    match KeyOf(g)(item)
    case None => None
    case Some(k) => if g == Events && (k.major.TextId? || k.minor.TextId?) then None else Some(k)
  }

  function IdOf(g: Group): Json -> Option<Key> { item => DictKey(g, item) }

  ghost predicate KeysComparable(key: Json -> Option<Key>, items: seq<Json>) {
    forall x, y :: x in items && y in items ==> BothComparable(key(x), key(y))
  }

  // Every item of the five lists has an id, and ids that can be compared with each other.
  ghost predicate WellKeyed(s: State) {
    forall g: Group :: GroupName(g) in s ==>
      s[GroupName(g)].Arr? && Keyed(IdOf(g), s[GroupName(g)].items) && KeysComparable(IdOf(g), s[GroupName(g)].items)
  }

  // `d.get(name)`: absent and null look the same.
  function Get(s: State, name: string): Json { if name in s then s[name] else Null }

  // ---- Computing ----

  // The list under a group's name, or the empty list, as a dictionary.
  function IndexOf(s: State, g: Group): Result<Dict> {
    var name := GroupName(g);
    if name !in s then Ok(map[])
    else if !s[name].Arr? then Err(NotAList)
    else
      match Index(IdOf(g), s[name].items)
      case None => Err(BadId)
      case Some(m) => Ok(m)
  }

  function WorldOps(from: State, to: State): seq<Op> {
    var a, b := Get(from, "world"), Get(to, "world");
    if PyEq(a, b) then [] else if b.Null? then [ClearWorld] else [SetWorld(b)]
  }

  function SingleOps(from: State, to: State, fields: seq<Single>): seq<Op> {
    if fields == [] then []
    else
      var a, b := Get(from, SingleName(fields[0])), Get(to, SingleName(fields[0]));
      (if PyEq(a, b) then [] else [SetField(fields[0], b)]) + SingleOps(from, to, fields[1..])
  }

  function Removed(from: Dict, to: Dict): set<Key> { from.Keys - to.Keys }

  function Changed(from: Dict, to: Dict): set<Key> {
    set k | k in to && (k !in from || !PyEq(to[k], from[k]))
  }

  // Both lists of keys can be sorted.
  predicate Diffable(from: Dict, to: Dict) { AllComparable(Removed(from, to)) && AllComparable(Changed(from, to)) }

  function Removes(g: Group, keys: seq<Key>): seq<Op> {
    if keys == [] then [] else [Remove(g, keys[0])] + Removes(g, keys[1..])
  }

  function Upserts(g: Group, keys: seq<Key>, items: Dict): seq<Op>
    requires forall k :: k in keys ==> k in items
  {
    if keys == [] then [] else [Upsert(g, items[keys[0]])] + Upserts(g, keys[1..], items)
  }

  function GroupOps(g: Group, from: Dict, to: Dict): seq<Op> {
    Removes(g, SortedKeys(Removed(from, to))) + Upserts(g, SortedKeys(Changed(from, to)), to)
  }

  function ListOps(from: State, to: State, groups: seq<Group>): Result<seq<Op>> {
    if groups == [] then Ok([])
    else
      var a, b := IndexOf(from, groups[0]), IndexOf(to, groups[0]);
      if a.Err? then Err(a.error)
      else if b.Err? then Err(b.error)
      else if !Diffable(a.value, b.value) then Err(Unsortable)
      else
        match ListOps(from, to, groups[1..])
        case Err(e) => Err(e)
        case Ok(rest) => Ok(GroupOps(groups[0], a.value, b.value) + rest)
  }

  /** `compute_state_diff_ops`. */
  function Diff(from: State, to: State): Result<seq<Op>> {
    match ListOps(from, to, GROUPS)
    case Err(e) => Err(e)
    case Ok(lists) => Ok(WorldOps(from, to) + SingleOps(from, to, SINGLES) + lists)
  }

  // ---- Applying ----

  // The copied state, the dictionaries of the five lists, and which lists were touched.
  datatype Work = Work(fields: State, dicts: map<Group, Dict>, touched: set<Group>) {
    function Dict(g: Group): Dict { if g in dicts then dicts[g] else map[] }
  }

  function Put(w: Work, g: Group, d: Dict): Work {
    w.(dicts := w.dicts[g := d], touched := w.touched + {g})
  }

  function ApplyOp(w: Work, op: Op): Result<Work> {
    match op
    case SetWorld(world) =>
      if world.Null? then Err(MissingPayload) else Ok(w.(fields := w.fields["world" := world]))
    case ClearWorld => Ok(w.(fields := w.fields - {"world"}))
    case SetField(f, v) => Ok(w.(fields := w.fields[SingleName(f) := v]))
    case Upsert(g, item) =>
      if item.Null? then Err(MissingPayload)
      else if IdOf(g)(item).None? then Err(BadId)
      else Ok(Put(w, g, w.Dict(g)[IdOf(g)(item).value := item]))
    case Remove(g, k) => Ok(Put(w, g, w.Dict(g) - {k}))
  }

  function ApplyOps(w: Work, ops: seq<Op>): Result<Work>
    decreases ops
  {
    if ops == [] then Ok(w)
    else
      match ApplyOp(w, ops[0])
      case Err(e) => Err(e)
      case Ok(w') => ApplyOps(w', ops[1..])
  }

  function Open(w: Work, s: State, groups: seq<Group>): Result<Work>
    decreases groups
  {
    if groups == [] then Ok(w)
    else
      match IndexOf(s, groups[0])
      case Err(e) => Err(e)
      case Ok(d) => Open(w.(dicts := w.dicts[groups[0] := d]), s, groups[1..])
  }

  // Every list that is rebuilt can be sorted; the dictionary of any other is empty.
  predicate Rebuildable(w: Work) { forall g <- GROUPS :: AllComparable(w.Dict(g).Keys) }

  // Lists present or touched are rebuilt from their dictionaries.
  function Rebuild(w: Work): State {
    map k | k in w.fields.Keys + (set g | g in w.touched :: GroupName(g)) ::
      if GroupOf(k).Some? then Arr(ListOf(w.Dict(GroupOf(k).value))) else Get(w.fields, k)
  }

  /** `apply_state_diff_ops`. */
  function Apply(s: State, ops: seq<Op>): Result<State> {
    match Open(Work(s, map[], {}), s, GROUPS)
    case Err(e) => Err(e)
    case Ok(w) =>
      match ApplyOps(w, ops)
      case Err(e) => Err(e)
      case Ok(w') => if Rebuildable(w') then Ok(Canonicalize(Rebuild(w'))) else Err(Unsortable)
  }

  // ---- Patching one dictionary ----

  /**
   What patching turns one dictionary into: removals taken out, new and visibly
   changed items brought in, everything else as it was.
   */
  function Patch(from: Dict, to: Dict): Dict {
    map k | k in to :: if k in Changed(from, to) then to[k] else from[k]
  }

  // No two items differ only in a way Python's == cannot see.
  ghost predicate NoHiddenChange(from: Dict, to: Dict) {
    forall k :: k in from && k in to && PyEq(to[k], from[k]) ==> to[k] == from[k]
  }

  lemma PatchExact(from: Dict, to: Dict)
    ensures Patch(from, to) == to <==> NoHiddenChange(from, to)
  {
    if Patch(from, to) == to {
      forall k | k in from && k in to && PyEq(to[k], from[k]) ensures to[k] == from[k] {
        assert Patch(from, to)[k] == from[k];
      }
    }
  }

  // ---- Running the computed ops ----

  lemma {:induction false} ApplyAppend(w: Work, a: seq<Op>, b: seq<Op>)
    ensures ApplyOps(w, a + b) ==
      (match ApplyOps(w, a) case Err(e) => Err(e) case Ok(w') => ApplyOps(w', b))
    decreases a
  {
    if a == [] {
      assert a + b == b;
    } else {
      assert (a + b)[0] == a[0] && (a + b)[1..] == a[1..] + b;
      if ApplyOp(w, a[0]).Ok? { ApplyAppend(ApplyOp(w, a[0]).value, a[1..], b); }
    }
  }

  // w' is w with one dictionary replaced, and the list touched unless nothing was done.
  ghost predicate Patched(w: Work, w': Work, g: Group, d: Dict, idle: bool) {
    && w'.fields == w.fields && w'.Dict(g) == d
    && (forall h :: h != g ==> w'.Dict(h) == w.Dict(h))
    && w'.touched == if idle then w.touched else w.touched + {g}
  }

  lemma PutThen(w: Work, g: Group, c: Dict, w': Work, d: Dict, idle: bool)
    requires Patched(Put(w, g, c), w', g, d, idle)
    ensures Patched(w, w', g, d, false)
  {
  }

  lemma {:induction false} ApplyRemoves(w: Work, g: Group, keys: seq<Key>) returns (w': Work)
    ensures ApplyOps(w, Removes(g, keys)) == Ok(w')
    ensures Patched(w, w', g, w.Dict(g) - (set k | k in keys), keys == [])
    decreases keys
  {
    if keys == [] {
      w' := w;
    } else {
      var c := w.Dict(g) - {keys[0]};
      w' := ApplyRemoves(Put(w, g, c), g, keys[1..]);
      assert w.Dict(g) - (set k | k in keys) == c - (set k | k in keys[1..]);
      PutThen(w, g, c, w', w.Dict(g) - (set k | k in keys), keys[1..] == []);
    }
  }

  lemma UpsertStep(w: Work, g: Group, k: Key, item: Json)
    requires IdOf(g)(item) == Some(k)
    ensures ApplyOp(w, Upsert(g, item)) == Ok(Put(w, g, w.Dict(g)[k := item]))
  {
  }

  lemma AddOne(d: Dict, keys: seq<Key>, items: Dict)
    requires keys != [] && forall k :: k in keys ==> k in items
    ensures d + (map k | k in keys :: items[k])
         == d[keys[0] := items[keys[0]]] + (map k | k in keys[1..] :: items[k])
  {
  }

  lemma {:induction false} ApplyUpserts(w: Work, g: Group, keys: seq<Key>, items: Dict) returns (w': Work)
    requires (forall k :: k in keys ==> k in items) && IsIndex(IdOf(g), items)
    ensures ApplyOps(w, Upserts(g, keys, items)) == Ok(w')
    ensures Patched(w, w', g, w.Dict(g) + (map k | k in keys :: items[k]), keys == [])
    decreases keys
  {
    if keys == [] {
      w' := w;
    } else {
      var k := keys[0];
      var c := w.Dict(g)[k := items[k]];
      w' := ApplyUpserts(Put(w, g, c), g, keys[1..], items);
      assert ApplyOps(w, Upserts(g, keys, items)) == Ok(w') by { UpsertStep(w, g, k, items[k]); }
      AddOne(w.Dict(g), keys, items);
      PutThen(w, g, c, w', w.Dict(g) + (map k | k in keys :: items[k]), keys[1..] == []);
    }
  }

  lemma ApplyGroup(w: Work, g: Group, to: Dict) returns (w': Work)
    requires IsIndex(IdOf(g), to)
    ensures ApplyOps(w, GroupOps(g, w.Dict(g), to)) == Ok(w')
    ensures Patched(w, w', g, Patch(w.Dict(g), to),
                    Removed(w.Dict(g), to) == {} && Changed(w.Dict(g), to) == {})
  {
    var from := w.Dict(g);
    var rs, cs := SortedKeys(Removed(from, to)), SortedKeys(Changed(from, to));
    var v := ApplyRemoves(w, g, rs);
    w' := ApplyUpserts(v, g, cs, to);
    ApplyAppend(w, Removes(g, rs), Upserts(g, cs, to));
    PatchInTwo(from, to, rs, cs);
  }

  lemma PatchInTwo(from: Dict, to: Dict, rs: seq<Key>, cs: seq<Key>)
    requires (forall k :: k in rs <==> k in Removed(from, to)) && (forall k :: k in cs <==> k in Changed(from, to))
    ensures from - (set k | k in rs) + (map k | k in cs :: to[k]) == Patch(from, to)
    ensures (rs == [] <==> Removed(from, to) == {}) && (cs == [] <==> Changed(from, to) == {})
  {
    if rs != [] { assert rs[0] in rs; }
    if cs != [] { assert cs[0] in cs; }
  }

  // ---- Slots: what kind of field a name is ----

  datatype Slot = World | One(field: Single) | List(group: Group) | Uncovered

  function SlotOf(name: string): Slot {
    if GroupOf(name).Some? then List(GroupOf(name).value)
    else if name == "world" then World
    else if name == "case" then One(Case)
    else if name == "npc_semantic" then One(NpcSemantic)
    else if name == "investigation" then One(Investigation)
    else if name == "dialogue" then One(Dialogue)
    else if name == "case_outcome" then One(CaseOutcome)
    else if name == "case_recap" then One(CaseRecap)
    else Uncovered
  }

  lemma WorldSlot(name: string)
    ensures SlotOf(name) == World <==> name == "world"
  {
    assert "world"[0] == 'w';
    assert "rooms"[0] == 'r' && "items"[0] == 'i';
  }

  lemma SingleSlot(s: Single, name: string)
    ensures SlotOf(name) == One(s) <==> name == SingleName(s)
  {
    assert "npc_semantic"[0] == 'n' && "case_outcome"[0] == 'c' && "dialogue"[0] == 'd';
  }

  lemma ListSlot(g: Group, name: string)
    ensures SlotOf(name) == List(g) <==> name == GroupName(g)
  {
    GroupNames(g, name);
  }

  function Lookup(s: State, name: string): Option<Json> { if name in s then Some(s[name]) else None }

  lemma SameLookups(s: State, t: State)
    requires forall n :: Lookup(s, n) == Lookup(t, n)
    ensures s == t
  {
    forall n ensures n in s <==> n in t { assert Lookup(s, n) == Lookup(t, n); }
    forall n | n in s ensures s[n] == t[n] { assert Lookup(s, n) == Lookup(t, n); }
  }

  // ---- The fields after the world and single-field ops ----

  // w' is w with other fields.
  ghost predicate SameLists(w: Work, w': Work) { w'.dicts == w.dicts && w'.touched == w.touched }

  function WorldAfter(from: State, to: State): Option<Json> {
    var a, b := Get(from, "world"), Get(to, "world");
    if PyEq(a, b) then Lookup(from, "world") else if b.Null? then None else Some(b)
  }

  function SingleAfter(from: State, to: State, s: Single): Option<Json> {
    var a, b := Get(from, SingleName(s)), Get(to, SingleName(s));
    if PyEq(a, b) then Lookup(from, SingleName(s)) else Some(b)
  }

  lemma ApplyWorld(w: Work, from: State, to: State) returns (w': Work)
    requires Lookup(w.fields, "world") == Lookup(from, "world")
    ensures ApplyOps(w, WorldOps(from, to)) == Ok(w') && SameLists(w, w')
    ensures forall n ::
      Lookup(w'.fields, n) == (if SlotOf(n) == World then WorldAfter(from, to) else Lookup(w.fields, n))
  {
    var ops := WorldOps(from, to);
    w' := if ops == [] then w else ApplyOp(w, ops[0]).value;
    if ops != [] { assert ops[1..] == []; }
    forall n ensures Lookup(w'.fields, n) ==
      if SlotOf(n) == World then WorldAfter(from, to) else Lookup(w.fields, n)
    {
      WorldSlot(n);
    }
  }

  lemma {:induction false} ApplySingles(w: Work, from: State, to: State, fields: seq<Single>) returns (w': Work)
    requires NoDuplicates(fields)
    requires forall s :: s in fields ==> Lookup(w.fields, SingleName(s)) == Lookup(from, SingleName(s))
    ensures ApplyOps(w, SingleOps(from, to, fields)) == Ok(w') && SameLists(w, w')
    ensures forall n ::
      Lookup(w'.fields, n) == (if SlotOf(n).One? && SlotOf(n).field in fields
                               then SingleAfter(from, to, SlotOf(n).field) else Lookup(w.fields, n))
    decreases fields
  {
    if fields == [] {
      w' := w;
    } else {
      var s := fields[0];
      var v := SetSingle(w, from, to, s);
      forall t | t in fields[1..] ensures Lookup(v.fields, SingleName(t)) == Lookup(from, SingleName(t)) {
        SingleSlot(t, SingleName(t));
      }
      w' := ApplySingles(v, from, to, fields[1..]);
      ApplyAppend(w, SingleOps(from, to, [s]), SingleOps(from, to, fields[1..]));
      assert SingleOps(from, to, fields) == SingleOps(from, to, [s]) + SingleOps(from, to, fields[1..]);
    }
  }

  lemma SetSingle(w: Work, from: State, to: State, s: Single) returns (w': Work)
    requires Lookup(w.fields, SingleName(s)) == Lookup(from, SingleName(s))
    ensures ApplyOps(w, SingleOps(from, to, [s])) == Ok(w') && SameLists(w, w')
    ensures forall n ::
      Lookup(w'.fields, n) == (if SlotOf(n) == One(s) then SingleAfter(from, to, s) else Lookup(w.fields, n))
  {
    var ops := SingleOps(from, to, [s]);
    assert SingleOps(from, to, [s][1..]) == [];
    w' := if ops == [] then w else ApplyOp(w, ops[0]).value;
    if ops != [] { assert ops[1..] == []; }
    forall n ensures Lookup(w'.fields, n) ==
      if SlotOf(n) == One(s) then SingleAfter(from, to, s) else Lookup(w.fields, n)
    {
      SingleSlot(s, n);
    }
  }

  // ---- The dictionaries after the list ops ----

  // A group with nothing to do.
  predicate Idle(from: Dict, to: Dict) { Removed(from, to) == {} && Changed(from, to) == {} }

  lemma IndexOfOk(s: State, g: Group)
    ensures IndexOf(s, g).Ok? <==> (GroupName(g) in s ==> s[GroupName(g)].Arr? && Keyed(IdOf(g), s[GroupName(g)].items))
    ensures IndexOf(s, g).Ok? ==> IsIndex(IdOf(g), IndexOf(s, g).value)
    ensures IndexOf(s, g).Ok? && GroupName(g) in s ==>
      Indexes(IdOf(g), s[GroupName(g)].items, IndexOf(s, g).value)
  {
    if GroupName(g) in s && s[GroupName(g)].Arr? {
      var items := s[GroupName(g)].items;
      IndexDefined(IdOf(g), items);
      if Index(IdOf(g), items).Some? { IndexIndexes(IdOf(g), items); }
    }
  }

  function DictOf(s: State, g: Group): Dict {
    if IndexOf(s, g).Ok? then IndexOf(s, g).value else map[]
  }

  // The dictionaries of the given groups patched towards `to`, the others untouched.
  ghost predicate ListsPatched(w: Work, w': Work, to: State, groups: seq<Group>) {
    && w'.fields == w.fields
    && forall g :: ListPatched(w, w', to, g, g in groups)
  }

  ghost predicate ListPatched(w: Work, w': Work, to: State, g: Group, done: bool) {
    && w'.Dict(g) == (if done then Patch(w.Dict(g), DictOf(to, g)) else w.Dict(g))
    && (g in w'.touched <==> g in w.touched || (done && !Idle(w.Dict(g), DictOf(to, g))))
  }

  lemma PatchedThen(w: Work, v: Work, w': Work, to: State, groups: seq<Group>)
    requires groups != [] && NoDuplicates(groups)
    requires Patched(w, v, groups[0], Patch(w.Dict(groups[0]), DictOf(to, groups[0])),
                     Idle(w.Dict(groups[0]), DictOf(to, groups[0])))
    requires ListsPatched(v, w', to, groups[1..])
    ensures ListsPatched(w, w', to, groups)
  {
    forall g ensures ListPatched(w, w', to, g, g in groups) {
      assert ListPatched(v, w', to, g, g in groups[1..]);
    }
  }

  lemma ListOpsStep(from: State, to: State, groups: seq<Group>)
    requires groups != [] && IndexOf(from, groups[0]).Ok? && IndexOf(to, groups[0]).Ok?
    requires Diffable(DictOf(from, groups[0]), DictOf(to, groups[0])) && ListOps(from, to, groups[1..]).Ok?
    ensures ListOps(from, to, groups) == Ok(GroupOps(groups[0], DictOf(from, groups[0]), DictOf(to, groups[0]))
                                            + ListOps(from, to, groups[1..]).value)
  {
  }

  lemma ApplyThen(w: Work, a: seq<Op>, v: Work, b: seq<Op>, w': Work)
    requires ApplyOps(w, a) == Ok(v) && ApplyOps(v, b) == Ok(w')
    ensures ApplyOps(w, a + b) == Ok(w')
  {
    ApplyAppend(w, a, b);
  }

  ghost predicate Starts(w: Work, from: State, to: State, groups: seq<Group>) {
    forall g :: g in groups ==> StartsAt(w, from, to, g)
  }

  ghost predicate StartsAt(w: Work, from: State, to: State, g: Group) {
    IndexOf(from, g) == Ok(w.Dict(g)) && IndexOf(to, g).Ok? && Diffable(w.Dict(g), DictOf(to, g))
  }

  lemma StartsThen(w: Work, v: Work, from: State, to: State, groups: seq<Group>)
    requires groups != [] && NoDuplicates(groups) && Starts(w, from, to, groups)
    requires forall h :: h != groups[0] ==> v.Dict(h) == w.Dict(h)
    ensures Starts(v, from, to, groups[1..])
  {
    forall g | g in groups[1..] ensures StartsAt(v, from, to, g) {
      assert g in groups;
    }
  }

  lemma {:induction false} ApplyLists(w: Work, from: State, to: State, groups: seq<Group>) returns (w': Work)
    requires NoDuplicates(groups) && Starts(w, from, to, groups)
    ensures ListOps(from, to, groups).Ok? && ApplyOps(w, ListOps(from, to, groups).value) == Ok(w')
    ensures ListsPatched(w, w', to, groups)
    decreases groups
  {
    if groups == [] {
      w' := w;
    } else {
      var g := groups[0];
      assert StartsAt(w, from, to, g);
      hide ApplyOps, GroupOps, Patched, Patch, Diffable;
      IndexOfOk(to, g);
      var v := ApplyGroup(w, g, DictOf(to, g));
      StartsThen(w, v, from, to, groups);
      w' := ApplyLists(v, from, to, groups[1..]);
      ListOpsStep(from, to, groups);
      ApplyThen(w, GroupOps(g, w.Dict(g), DictOf(to, g)), v, ListOps(from, to, groups[1..]).value, w');
      PatchedThen(w, v, w', to, groups);
    }
  }

  lemma {:induction false} OpenFacts(w: Work, s: State, groups: seq<Group>)
    ensures Open(w, s, groups).Ok? <==> forall g :: g in groups ==> IndexOf(s, g).Ok?
    ensures Open(w, s, groups).Ok? ==>
      var w' := Open(w, s, groups).value;
      && w'.fields == w.fields && w'.touched == w.touched
      && forall g :: w'.Dict(g) == if g in groups then IndexOf(s, g).value else w.Dict(g)
    decreases groups
  {
    if groups != [] && IndexOf(s, groups[0]).Ok? {
      OpenFacts(w.(dicts := w.dicts[groups[0] := IndexOf(s, groups[0]).value]), s, groups[1..]);
    }
  }
}
