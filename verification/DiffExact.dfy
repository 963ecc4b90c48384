/** The computed ops of `diff_ops.py` to the last one: which they are and in which order they come. */
module DiffExact {
  import opened Json
  import opened Ordering
  import opened KeyedLists
  import opened Canonical
  import opened DiffOps

  // ---- What Python's `==` sees ----

  // A truth value is the number one or a zero of either sign.
  predicate IsTruth(n: Decimal, b: bool) { if b then n == ONE else n.coef == 0 }

  /**
   Python's `==` in its own terms: numbers by value, so that zero has no sign and truth
   values are one and zero; lists item by item, dictionaries key by key.
   */
  lemma PyEqMeans(a: Json, b: Json)
    ensures PyEq(a, b) <==>
      match (a, b)
      case (Null, Null) => true
      case (Bool(x), Bool(y)) => x == y
      case (Str(s), Str(t)) => s == t
      case (Num(m), Num(n)) => m == n || (m.coef == 0 && n.coef == 0)
      case (Bool(x), Num(n)) => IsTruth(n, x)
      case (Num(m), Bool(y)) => IsTruth(m, y)
      case (Arr(xs), Arr(ys)) => |xs| == |ys| && forall i :: 0 <= i < |xs| ==> PyEq(xs[i], ys[i])
      case (Obj(f), Obj(g)) => f.Keys == g.Keys && forall k :: k in f && k in g ==> PyEq(f[k], g[k])
      case _ => false
  {
    if a.Arr? && b.Arr? { ListsSeen(a.items, b.items); }
    if a.Obj? && b.Obj? { DictsSeen(a.fields, b.fields); }
    assert a.Num? && a.n.coef == 0 ==> a.n.exp == 0;
    assert b.Num? && b.n.coef == 0 ==> b.n.exp == 0;
  }

  lemma ListsSeen(xs: seq<Json>, ys: seq<Json>)
    ensures Seen(Arr(xs)) == Seen(Arr(ys)) <==> |xs| == |ys| && forall i :: 0 <= i < |xs| ==> Seen(xs[i]) == Seen(ys[i])
  {
    var s, t := Seen(Arr(xs)).items, Seen(Arr(ys)).items;
    assert |s| == |xs| && |t| == |ys|;
    assert forall i :: 0 <= i < |xs| ==> s[i] == Seen(xs[i]);
    assert forall i :: 0 <= i < |ys| ==> t[i] == Seen(ys[i]);
  }

  lemma DictsSeen(f: map<string, Json>, g: map<string, Json>)
    ensures Seen(Obj(f)) == Seen(Obj(g)) <==> f.Keys == g.Keys && forall k :: k in f && k in g ==> Seen(f[k]) == Seen(g[k])
  {
    var s, t := Seen(Obj(f)).fields, Seen(Obj(g)).fields;
    assert s.Keys == f.Keys && t.Keys == g.Keys;
    assert forall k :: k in f ==> s[k] == Seen(f[k]);
    assert forall k :: k in g ==> t[k] == Seen(g[k]);
  }

  // ---- Which ops are computed ----

  // Both lists of a group have an index.
  predicate Indexed(from: State, to: State, g: Group) { IndexOf(from, g).Ok? && IndexOf(to, g).Ok? }

  /** A change Python's `==` can see, field by field and item by item. */
  ghost predicate CalledFor(from: State, to: State, op: Op) {
    match op
    case SetWorld(v) => v == Get(to, "world") && v != Null && !PyEq(Get(from, "world"), v)
    case ClearWorld => Get(to, "world") == Null && !PyEq(Get(from, "world"), Null)
    case SetField(f, v) => v == Get(to, SingleName(f)) && !PyEq(Get(from, SingleName(f)), v)
    case Remove(g, k) => Indexed(from, to, g) && k in IndexOf(from, g).value && k !in IndexOf(to, g).value
    case Upsert(g, item) =>
      && Indexed(from, to, g)
      && exists k :: && k in IndexOf(to, g).value && IndexOf(to, g).value[k] == item
                     && !(k in IndexOf(from, g).value && PyEq(item, IndexOf(from, g).value[k]))
  }

  lemma {:induction false} InRemoves(g: Group, keys: seq<Key>, op: Op)
    ensures op in Removes(g, keys) <==> op.Remove? && op.group == g && op.key in keys
  {
    if keys != [] { InRemoves(g, keys[1..], op); }
  }

  lemma {:induction false} InUpserts(g: Group, keys: seq<Key>, items: Dict, op: Op)
    requires forall k :: k in keys ==> k in items
    ensures op in Upserts(g, keys, items) <==> op.Upsert? && op.group == g && exists k :: k in keys && items[k] == op.item
  {
    if keys != [] {
      InUpserts(g, keys[1..], items, op);
      assert op.Upsert? && items[keys[0]] == op.item ==> exists k :: k in keys && items[k] == op.item;
    }
  }

  lemma InGroupOps(g: Group, a: Dict, b: Dict, op: Op)
    ensures op in GroupOps(g, a, b) <==>
      || (op.Remove? && op.group == g && op.key in Removed(a, b))
      || (op.Upsert? && op.group == g && exists k :: k in Changed(a, b) && b[k] == op.item)
  {
    hide Removed, Removes, Upserts;
    var rs, cs := SortedKeys(Removed(a, b)), SortedKeys(Changed(a, b));
    InRemoves(g, rs, op);
    InUpserts(g, cs, b, op);
    hide Changed, SortedKeys;
    assert GroupOps(g, a, b) == Removes(g, rs) + Upserts(g, cs, b);
  }

  // The items that differ from before.
  lemma ChangedMeans(a: Dict, b: Dict, item: Json)
    ensures (exists k :: k in Changed(a, b) && b[k] == item)
      <==> exists k :: k in b && b[k] == item && !(k in a && PyEq(item, a[k]))
  {
    hide PyEq;
    if k :| k in Changed(a, b) && b[k] == item {
      assert k in b && b[k] == item && !(k in a && PyEq(item, a[k]));
    }
    if k :| k in b && b[k] == item && !(k in a && PyEq(item, a[k])) {
      assert k in Changed(a, b);
    }
  }

  lemma InGroup(from: State, to: State, g: Group, op: Op)
    requires Indexed(from, to, g)
    ensures op in GroupOps(g, IndexOf(from, g).value, IndexOf(to, g).value)
      <==> (op.Remove? || op.Upsert?) && op.group == g && CalledFor(from, to, op)
  {
    hide PyEq, IndexOf, Changed, GroupOps;
    InGroupOps(g, IndexOf(from, g).value, IndexOf(to, g).value, op);
    if op.Upsert? { ChangedMeans(IndexOf(from, g).value, IndexOf(to, g).value, op.item); }
  }

  lemma {:induction false} InSingles(from: State, to: State, fields: seq<Single>, op: Op)
    ensures op in SingleOps(from, to, fields) <==> op.SetField? && op.field in fields && CalledFor(from, to, op)
  {
    hide PyEq, Get, SingleName;
    if fields != [] { InSingles(from, to, fields[1..], op); }
  }

  lemma InWorld(from: State, to: State, op: Op)
    ensures op in WorldOps(from, to) <==> (op.SetWorld? || op.ClearWorld?) && CalledFor(from, to, op)
  {
    hide PyEq, Get;
  }

  lemma {:induction false} InLists(from: State, to: State, groups: seq<Group>, op: Op)
    requires ListOps(from, to, groups).Ok?
    ensures op in ListOps(from, to, groups).value
      <==> (op.Remove? || op.Upsert?) && op.group in groups && CalledFor(from, to, op)
  {
    hide CalledFor, IndexOf, GroupOps, Diffable;
    if groups != [] {
      InLists(from, to, groups[1..], op);
      InGroup(from, to, groups[0], op);
    }
  }

  lemma AllSingles(f: Single)
    ensures f in SINGLES
  {
    assert SINGLES == [Case, NpcSemantic, Investigation, Dialogue, CaseOutcome, CaseRecap];
  }

  /** The differ computes an op if and only if the two states call for it. */
  lemma OpsExactly(from: State, to: State, op: Op)
    requires Diff(from, to).Ok?
    ensures op in Diff(from, to).value <==> CalledFor(from, to, op)
  {
    InWorld(from, to, op);
    InSingles(from, to, SINGLES, op);
    InLists(from, to, GROUPS, op);
    if op.SetField? { AllSingles(op.field); }
    if op.Remove? || op.Upsert? { AllGroups(op.group); }
    hide CalledFor, WorldOps, SingleOps, ListOps;
  }

  // ---- When there are ops at all ----

  /** A list can be indexed exactly when it is absent, or a list whose items all have ids; the error says which is wrong. */
  lemma IndexedExactly(s: State, g: Group)
    ensures var name := GroupName(g);
      && (IndexOf(s, g) == Err(NotAList) <==> name in s && !s[name].Arr?)
      && (IndexOf(s, g) == Err(BadId) <==>
            && name in s && s[name].Arr?
            && exists i :: 0 <= i < |s[name].items| && IdOf(g)(s[name].items[i]) == None)
      && (IndexOf(s, g).Err? ==> IndexOf(s, g).error in {NotAList, BadId})
  {
    var name := GroupName(g);
    if name in s && s[name].Arr? { IndexDefined(IdOf(g), s[name].items); }
  }

  // Keys taken out can be compared with one another, and so can keys of items that differ.
  ghost predicate Orderly(a: Dict, b: Dict) {
    && (forall j, k :: j in a && j !in b && k in a && k !in b ==> Comparable(j, k))
    && (forall j, k :: j in b && !(j in a && PyEq(b[j], a[j])) && k in b && !(k in a && PyEq(b[k], a[k])) ==> Comparable(j, k))
  }

  lemma OrderlyIs(a: Dict, b: Dict)
    ensures Diffable(a, b) <==> Orderly(a, b)
  {
    hide PyEq, Comparable;
    assert forall k :: k in Changed(a, b) <==> k in b && !(k in a && PyEq(b[k], a[k]));
    assert forall k :: k in Removed(a, b) <==> k in a && k !in b;
  }

  lemma {:induction false} ListsSucceed(from: State, to: State, groups: seq<Group>)
    ensures ListOps(from, to, groups).Ok? <==>
      forall g :: g in groups ==> Indexed(from, to, g) && Orderly(IndexOf(from, g).value, IndexOf(to, g).value)
  {
    hide IndexOf, Diffable, Orderly, GroupOps;
    if groups != [] {
      ListsSucceed(from, to, groups[1..]);
      var g := groups[0];
      if Indexed(from, to, g) { OrderlyIs(IndexOf(from, g).value, IndexOf(to, g).value); }
      assert forall h :: h in groups <==> h == g || h in groups[1..];
    }
  }

  /** The differ succeeds exactly when all ten lists can be indexed and the keys it has to sort can be compared. */
  lemma DiffSucceeds(from: State, to: State)
    ensures Diff(from, to).Ok? <==>
      forall g :: Indexed(from, to, g) && Orderly(IndexOf(from, g).value, IndexOf(to, g).value)
  {
    ListsSucceed(from, to, GROUPS);
    forall g ensures g in GROUPS { AllGroups(g); }
    hide ListOps, Orderly;
  }

  /** What an item is filed under: its id, an event under its tick and event id, both whole numbers. */
  lemma FiledUnder(g: Group, item: Json, k: Key)
    ensures IdOf(g)(item) == Some(k) <==>
      if g == Events
      then k.major.IntId? && k.minor.IntId? && FieldId(item, "tick") == Some(k.major) && FieldId(item, "event_id") == Some(k.minor)
      else FieldId(item, IdField(g)) == Some(k.major) && k.minor == IntId(0)
  {
    hide FieldId;
    assert IdOf(g)(item) == DictKey(g, item);
    assert KeyOf(g)(item) == ItemKey(g, item);
  }

  // ---- In which order ----

  function FieldTurn(f: Single): nat {
    match f
    case Case => 1
    case NpcSemantic => 2
    case Investigation => 3
    case Dialogue => 4
    case CaseOutcome => 5
    case CaseRecap => 6
  }

  function GroupTurn(g: Group): nat {
    match g
    case Rooms => 7
    case Agents => 9
    case Items => 11
    case Objects => 13
    case Events => 15
  }

  /** The world first, the single fields, and then group by group what is removed before what is brought in. */
  function Turn(op: Op): nat {
    match op
    case SetWorld(_) => 0
    case ClearWorld => 0
    case SetField(f, _) => FieldTurn(f)
    case Remove(g, _) => GroupTurn(g)
    case Upsert(g, _) => GroupTurn(g) + 1
  }

  function KeyOfOp(op: Op): Option<Key> {
    match op
    case Remove(_, k) => Some(k)
    case Upsert(g, item) => IdOf(g)(item)
    case _ => None
  }

  /** In its turn, and within one turn by ascending keys. */
  ghost predicate InTurn(a: Op, b: Op) {
    || Turn(a) < Turn(b)
    || (&& Turn(a) == Turn(b) && KeyOfOp(a).Some? && KeyOfOp(b).Some?
        && KeyOfOp(a) != KeyOfOp(b) && KeyLe(KeyOfOp(a).value, KeyOfOp(b).value))
  }

  ghost predicate AllInTurn(ops: seq<Op>) { forall i, j :: 0 <= i < j < |ops| ==> InTurn(ops[i], ops[j]) }

  // Every turn lies in a range.
  ghost predicate Within(ops: seq<Op>, low: nat, high: nat) { forall op :: op in ops ==> low <= Turn(op) < high }

  lemma AppendInTurn(a: seq<Op>, b: seq<Op>, low: nat, mid: nat, high: nat)
    requires AllInTurn(a) && AllInTurn(b) && Within(a, low, mid) && Within(b, mid, high) && low <= mid <= high
    ensures AllInTurn(a + b) && Within(a + b, low, high)
  {
    forall i, j | 0 <= i < j < |a + b| ensures InTurn((a + b)[i], (a + b)[j]) {
      if i < |a| <= j { assert a[i] in a && b[j - |a|] in b; }
    }
  }

  lemma RemovesInTurn(g: Group, keys: seq<Key>)
    requires Sorted(keys, KeyLe) && NoDuplicates(keys)
    ensures AllInTurn(Removes(g, keys)) && Within(Removes(g, keys), GroupTurn(g), GroupTurn(g) + 1)
  {
    RemovesAt(g, keys);
    forall op | op in Removes(g, keys) ensures Turn(op) == GroupTurn(g) { InRemoves(g, keys, op); }
    hide KeyLe;
  }

  lemma {:induction false} RemovesAt(g: Group, keys: seq<Key>)
    ensures |Removes(g, keys)| == |keys| && forall i :: 0 <= i < |keys| ==> Removes(g, keys)[i] == Remove(g, keys[i])
  {
    if keys != [] { RemovesAt(g, keys[1..]); }
  }

  lemma {:induction false} UpsertsAt(g: Group, keys: seq<Key>, items: Dict)
    requires forall k :: k in keys ==> k in items
    ensures |Upserts(g, keys, items)| == |keys|
    ensures forall i :: 0 <= i < |keys| ==> Upserts(g, keys, items)[i] == Upsert(g, items[keys[i]])
  {
    if keys != [] { UpsertsAt(g, keys[1..], items); }
  }

  lemma UpsertsInTurn(g: Group, keys: seq<Key>, items: Dict)
    requires Sorted(keys, KeyLe) && NoDuplicates(keys) && (forall k :: k in keys ==> k in items) && IsIndex(IdOf(g), items)
    ensures AllInTurn(Upserts(g, keys, items)) && Within(Upserts(g, keys, items), GroupTurn(g) + 1, GroupTurn(g) + 2)
  {
    UpsertsAt(g, keys, items);
    forall op | op in Upserts(g, keys, items) ensures Turn(op) == GroupTurn(g) + 1 { InUpserts(g, keys, items, op); }
    forall i | 0 <= i < |keys| ensures KeyOfOp(Upserts(g, keys, items)[i]) == Some(keys[i]) {
      assert keys[i] in keys;
    }
    hide KeyLe;
  }

  lemma GroupInTurn(from: State, to: State, g: Group)
    requires Indexed(from, to, g)
    ensures var ops := GroupOps(g, IndexOf(from, g).value, IndexOf(to, g).value);
      AllInTurn(ops) && Within(ops, GroupTurn(g), GroupTurn(g) + 2)
  {
    var a, b := IndexOf(from, g).value, IndexOf(to, g).value;
    var rs, cs := SortedKeys(Removed(a, b)), SortedKeys(Changed(a, b));
    IndexIsIndex(to, g);
    RemovesInTurn(g, rs);
    UpsertsInTurn(g, cs, b);
    AppendInTurn(Removes(g, rs), Upserts(g, cs, b), GroupTurn(g), GroupTurn(g) + 1, GroupTurn(g) + 2);
  }

  lemma IndexIsIndex(s: State, g: Group)
    requires IndexOf(s, g).Ok?
    ensures IsIndex(IdOf(g), IndexOf(s, g).value)
  {
    if GroupName(g) in s { IndexIndexes(IdOf(g), s[GroupName(g)].items); }
  }

  // Fields and groups are gone through in their order.
  ghost predicate FieldsAscend(fields: seq<Single>, low: nat) {
    fields != [] ==> low <= FieldTurn(fields[0]) && FieldsAscend(fields[1..], FieldTurn(fields[0]) + 1)
  }

  ghost predicate GroupsAscend(groups: seq<Group>, low: nat) {
    groups != [] ==> low <= GroupTurn(groups[0]) && GroupsAscend(groups[1..], GroupTurn(groups[0]) + 2)
  }

  lemma {:induction false} SinglesInTurn(from: State, to: State, fields: seq<Single>, low: nat)
    requires FieldsAscend(fields, low) && low <= 7
    ensures AllInTurn(SingleOps(from, to, fields)) && Within(SingleOps(from, to, fields), low, 7)
    decreases |fields|
  {
    hide PyEq, Get;
    if fields != [] {
      var f := fields[0];
      SinglesInTurn(from, to, fields[1..], FieldTurn(f) + 1);
      var a, b := Get(from, SingleName(f)), Get(to, SingleName(f));
      var first := if PyEq(a, b) then [] else [SetField(f, b)];
      AppendInTurn(first, SingleOps(from, to, fields[1..]), low, FieldTurn(f) + 1, 7);
    }
  }

  lemma {:induction false} ListsInTurn(from: State, to: State, groups: seq<Group>, low: nat)
    requires GroupsAscend(groups, low) && low <= 17 && ListOps(from, to, groups).Ok?
    ensures AllInTurn(ListOps(from, to, groups).value) && Within(ListOps(from, to, groups).value, low, 17)
    decreases |groups|
  {
    hide IndexOf, GroupOps, Diffable;
    if groups != [] {
      var g := groups[0];
      ListsInTurn(from, to, groups[1..], GroupTurn(g) + 2);
      GroupInTurn(from, to, g);
      AppendInTurn(GroupOps(g, IndexOf(from, g).value, IndexOf(to, g).value), ListOps(from, to, groups[1..]).value,
                   low, GroupTurn(g) + 2, 17);
    }
  }

  lemma TheOrder()
    ensures FieldsAscend(SINGLES, 1) && GroupsAscend(GROUPS, 7)
  {
    assert SINGLES[1..] == [NpcSemantic, Investigation, Dialogue, CaseOutcome, CaseRecap];
    assert SINGLES[1..][1..] == [Investigation, Dialogue, CaseOutcome, CaseRecap];
    assert SINGLES[1..][1..][1..] == [Dialogue, CaseOutcome, CaseRecap];
    assert FieldsAscend([Dialogue, CaseOutcome, CaseRecap], 4) by {
      assert [Dialogue, CaseOutcome, CaseRecap][1..] == [CaseOutcome, CaseRecap];
      assert [CaseOutcome, CaseRecap][1..] == [CaseRecap] && [CaseRecap][1..] == [];
      assert FieldsAscend([CaseRecap], 6);
    }
    assert GROUPS[1..] == [Agents, Items, Objects, Events];
    assert GROUPS[1..][1..] == [Items, Objects, Events];
    assert GroupsAscend([Items, Objects, Events], 11) by {
      assert [Items, Objects, Events][1..] == [Objects, Events];
      assert [Objects, Events][1..] == [Events] && [Events][1..] == [];
      assert GroupsAscend([Events], 15);
    }
  }

  /** The ops come each in its turn, so none twice: with `OpsExactly` this leaves one list for every pair of states. */
  lemma OpsInTurn(from: State, to: State)
    requires Diff(from, to).Ok?
    ensures AllInTurn(Diff(from, to).value)
  {
    TheOrder();
    SinglesInTurn(from, to, SINGLES, 1);
    ListsInTurn(from, to, GROUPS, 7);
    AppendInTurn(WorldOps(from, to), SingleOps(from, to, SINGLES), 0, 1, 7);
    AppendInTurn(WorldOps(from, to) + SingleOps(from, to, SINGLES), ListOps(from, to, GROUPS).value, 0, 7, 17);
  }
}
