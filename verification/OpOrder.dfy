/** The computed ops name each target at most once, so their order does not matter. */
module OpOrder {
  import opened Json
  import opened Ordering
  import opened KeyedLists
  import opened Canonical
  import opened DiffOps

  // The one place an op writes to.
  datatype Target = TheWorld | TheField(field: Single) | TheItem(group: Group, key: Key) | Nowhere

  function TargetOf(op: Op): Target {
    match op
    case SetWorld(_) => TheWorld
    case ClearWorld => TheWorld
    case SetField(f, _) => TheField(f)
    case Remove(g, k) => TheItem(g, k)
    case Upsert(g, item) => if IdOf(g)(item).Some? then TheItem(g, IdOf(g)(item).value) else Nowhere
  }

  // An op that applies without error.
  predicate Sound(op: Op) {
    match op
    case SetWorld(w) => !w.Null?
    case Upsert(g, item) => !item.Null? && IdOf(g)(item).Some?
    case _ => true
  }

  /** An op fails exactly when it sets a null world or brings in an item that is null or has no id. */
  lemma AppliesIfSound(w: Work, op: Op)
    ensures ApplyOp(w, op).Ok? <==> Sound(op)
  {
  }

  // The ops are sound and name these targets, one after another.
  ghost predicate Aims(ops: seq<Op>, ts: seq<Target>) {
    |ts| == |ops| && forall i :: 0 <= i < |ops| ==> Sound(ops[i]) && TargetOf(ops[i]) == ts[i]
  }

  // ---- Two ops with different targets commute ----

  // What an op does to the dictionary it names.
  function Edit(d: Dict, op: Op): Dict
    requires Sound(op) && (op.Upsert? || op.Remove?)
  {
    if op.Upsert? then d[IdOf(op.group)(op.item).value := op.item] else d - {op.key}
  }

  lemma ItemStep(w: Work, op: Op)
    requires Sound(op) && (op.Upsert? || op.Remove?)
    ensures ApplyOp(w, op) == Ok(Put(w, op.group, Edit(w.Dict(op.group), op)))
  {
  }

  lemma EditsCommute(d: Dict, p: Op, q: Op)
    requires Sound(p) && Sound(q) && (p.Upsert? || p.Remove?) && (q.Upsert? || q.Remove?)
    requires p.group == q.group && TargetOf(p) != TargetOf(q)
    ensures Edit(Edit(d, p), q) == Edit(Edit(d, q), p)
  {
  }

  lemma PutsCommute(w: Work, g: Group, c: Dict, h: Group, d: Dict)
    requires g != h
    ensures Put(Put(w, g, c), h, d) == Put(Put(w, h, d), g, c)
  {
    assert w.dicts[g := c][h := d] == w.dicts[h := d][g := c];
  }

  lemma PutTwice(w: Work, g: Group, c: Dict, d: Dict)
    ensures Put(Put(w, g, c), g, d) == Put(w, g, d)
  {
    assert w.dicts[g := c][g := d] == w.dicts[g := d];
  }

  lemma ItemsCommute(w: Work, p: Op, q: Op)
    requires Sound(p) && Sound(q) && (p.Upsert? || p.Remove?) && (q.Upsert? || q.Remove?)
    requires TargetOf(p) != TargetOf(q)
    ensures ApplyOps(w, [p, q]) == ApplyOps(w, [q, p])
  {
    var g, h := p.group, q.group;
    var c, d := Edit(w.Dict(g), p), Edit(w.Dict(h), q);
    var u, v := Put(w, g, c), Put(w, h, d);
    ItemStep(w, p);
    ItemStep(w, q);
    ItemStep(u, q);
    ItemStep(v, p);
    TwoSteps(w, p, u, q);
    TwoSteps(w, q, v, p);
    if g == h {
      EditsCommute(w.Dict(g), p, q);
      PutTwice(w, g, c, Edit(c, q));
      PutTwice(w, g, d, Edit(d, p));
    } else {
      PutsCommute(w, g, c, h, d);
    }
  }

  lemma TwoSteps(w: Work, p: Op, u: Work, q: Op)
    requires ApplyOp(w, p) == Ok(u)
    ensures ApplyOps(w, [p, q]) == ApplyOp(u, q)
  {
    assert [p, q][1..] == [q] && [q][1..] == [];
    assert ApplyOps(u, [q]) == ApplyOp(u, q);
  }

  lemma Commute(w: Work, p: Op, q: Op)
    requires Sound(p) && Sound(q) && TargetOf(p) != TargetOf(q)
    ensures ApplyOps(w, [p, q]) == ApplyOps(w, [q, p])
  {
    if (p.Upsert? || p.Remove?) && (q.Upsert? || q.Remove?) {
      ItemsCommute(w, p, q);
    } else {
      var u, v := ApplyOp(w, p).value, ApplyOp(w, q).value;
      TwoSteps(w, p, u, q);
      TwoSteps(w, q, v, p);
      FieldCommutes(w, p, q);
    }
  }

  // World and single-field ops write one name of the state.
  function FieldOf(op: Op): string
    requires !op.Upsert? && !op.Remove?
  {
    if op.SetField? then SingleName(op.field) else "world"
  }

  function Write(s: State, n: string, v: Option<Json>): State {
    if v.Some? then s[n := v.value] else s - {n}
  }

  function Written(op: Op): Option<Json> {
    match op
    case SetWorld(w) => Some(w)
    case SetField(_, v) => Some(v)
    case _ => None
  }

  lemma FieldStep(w: Work, op: Op)
    requires Sound(op) && !op.Upsert? && !op.Remove?
    ensures ApplyOp(w, op) == Ok(w.(fields := Write(w.fields, FieldOf(op), Written(op))))
  {
  }

  lemma WritesCommute(s: State, n: string, v: Option<Json>, m: string, u: Option<Json>)
    requires n != m
    ensures Write(Write(s, n, v), m, u) == Write(Write(s, m, u), n, v)
  {
  }

  lemma NamesDiffer(p: Op, q: Op)
    requires !p.Upsert? && !p.Remove? && !q.Upsert? && !q.Remove? && TargetOf(p) != TargetOf(q)
    ensures FieldOf(p) != FieldOf(q)
  {
    if p.SetField? { SingleSlot(p.field, FieldOf(p)); WorldSlot(FieldOf(p)); }
    if q.SetField? { SingleSlot(q.field, FieldOf(q)); WorldSlot(FieldOf(q)); }
  }

  lemma FieldCommutes(w: Work, p: Op, q: Op)
    requires Sound(p) && Sound(q) && TargetOf(p) != TargetOf(q)
    requires !((p.Upsert? || p.Remove?) && (q.Upsert? || q.Remove?))
    ensures ApplyOp(ApplyOp(w, p).value, q) == ApplyOp(ApplyOp(w, q).value, p)
  {
    var u, v := ApplyOp(w, p).value, ApplyOp(w, q).value;
    if p.Upsert? || p.Remove? {
      FieldStep(w, q);
      FieldStep(u, q);
      ItemStep(w, p);
      ItemStep(v, p);
    } else if q.Upsert? || q.Remove? {
      FieldStep(w, p);
      FieldStep(v, p);
      ItemStep(w, q);
      ItemStep(u, q);
    } else {
      FieldStep(w, p);
      FieldStep(w, q);
      FieldStep(u, q);
      FieldStep(v, p);
      NamesDiffer(p, q);
      WritesCommute(w.fields, FieldOf(p), Written(p), FieldOf(q), Written(q));
    }
  }

  // ---- Any order will do ----

  lemma {:induction false} MoveToFront(w: Work, l: seq<Op>, x: Op, r: seq<Op>)
    requires Sound(x) && forall i :: 0 <= i < |l| ==> Sound(l[i]) && TargetOf(l[i]) != TargetOf(x)
    ensures ApplyOps(w, l + [x] + r) == ApplyOps(w, [x] + (l + r))
    decreases l
  {
    if l == [] {
      assert l + [x] + r == [x] + (l + r);
    } else {
      var p, t := l[0], l[1..];
      var u := ApplyOp(w, p).value;
      assert l + [x] + r == [p] + (t + [x] + r) && [x] + (l + r) == [x, p] + (t + r);
      MoveToFront(u, t, x, r);
      assert [p] + ([x] + (t + r)) == [p, x] + (t + r);
      ApplyAppend(w, [p, x], t + r);
      ApplyAppend(w, [x, p], t + r);
      Commute(w, p, x);
    }
  }

  lemma {:induction false} OrderIrrelevant(w: Work, a: seq<Op>, b: seq<Op>, ts: seq<Target>)
    requires multiset(a) == multiset(b) && Aims(a, ts) && NoDuplicates(ts)
    ensures ApplyOps(w, a) == ApplyOps(w, b)
    decreases a
  {
    if a == [] {
      assert |multiset(b)| == |b|;
    } else {
      var l, r := Pluck(a, b);
      forall i | 0 <= i < |l| ensures Sound(l[i]) && TargetOf(l[i]) != TargetOf(a[0]) {
        assert l[i] == (l + r)[i];
        assert l[i] in multiset(l + r);
        var j :| 0 <= j < |a[1..]| && a[1..][j] == l[i];
        assert TargetOf(a[j + 1]) == ts[j + 1];
      }
      MoveToFront(w, l, a[0], r);
      OrderIrrelevant(ApplyOp(w, a[0]).value, a[1..], l + r, ts[1..]);
    }
  }

  // ---- The computed ops ----

  lemma AimsAppend(a: seq<Op>, s: seq<Target>, b: seq<Op>, t: seq<Target>)
    requires Aims(a, s) && Aims(b, t)
    ensures Aims(a + b, s + t)
  {
  }

  lemma DistinctAppend(s: seq<Target>, t: seq<Target>)
    requires NoDuplicates(s) && NoDuplicates(t) && forall x :: !(x in s && x in t)
    ensures NoDuplicates(s + t)
  {
    forall i, j | 0 <= i < |s| && 0 <= j < |t| ensures s[i] != t[j] {
      assert s[i] in s && t[j] in t;
    }
  }

  function ItemTargets(g: Group, keys: seq<Key>): (ts: seq<Target>)
    ensures |ts| == |keys| && forall x :: x in ts ==> x.TheItem? && x.group == g && x.key in keys
    ensures NoDuplicates(keys) ==> NoDuplicates(ts)
  {
    seq(|keys|, i requires 0 <= i < |keys| => TheItem(g, keys[i]))
  }

  lemma {:induction false} RemoveTargets(g: Group, keys: seq<Key>)
    ensures Aims(Removes(g, keys), ItemTargets(g, keys))
  {
    if keys != [] {
      RemoveTargets(g, keys[1..]);
      AimsAppend([Remove(g, keys[0])], [TheItem(g, keys[0])], Removes(g, keys[1..]), ItemTargets(g, keys[1..]));
      assert ItemTargets(g, keys) == [TheItem(g, keys[0])] + ItemTargets(g, keys[1..]);
    }
  }

  lemma UpsertTarget(g: Group, k: Key, item: Json)
    requires IdOf(g)(item) == Some(k)
    ensures Aims([Upsert(g, item)], [TheItem(g, k)])
  {
  }

  lemma {:induction false} UpsertTargets(g: Group, keys: seq<Key>, items: Dict)
    requires (forall k :: k in keys ==> k in items) && IsIndex(IdOf(g), items)
    ensures Aims(Upserts(g, keys, items), ItemTargets(g, keys))
  {
    if keys != [] {
      UpsertTarget(g, keys[0], items[keys[0]]);
      UpsertTargets(g, keys[1..], items);
      AimsAppend([Upsert(g, items[keys[0]])], [TheItem(g, keys[0])],
                 Upserts(g, keys[1..], items), ItemTargets(g, keys[1..]));
      assert ItemTargets(g, keys) == [TheItem(g, keys[0])] + ItemTargets(g, keys[1..]);
    }
  }

  lemma GroupTargets(g: Group, from: Dict, to: Dict) returns (ts: seq<Target>)
    requires IsIndex(IdOf(g), to)
    ensures Aims(GroupOps(g, from, to), ts) && NoDuplicates(ts)
    ensures forall x :: x in ts ==> x.TheItem? && x.group == g
  {
    var rs, cs := SortedKeys(Removed(from, to)), SortedKeys(Changed(from, to));
    RemoveTargets(g, rs);
    UpsertTargets(g, cs, to);
    ts := ItemTargets(g, rs) + ItemTargets(g, cs);
    AimsAppend(Removes(g, rs), ItemTargets(g, rs), Upserts(g, cs, to), ItemTargets(g, cs));
    DistinctAppend(ItemTargets(g, rs), ItemTargets(g, cs));
  }

  lemma {:induction false} ListTargets(from: State, to: State, groups: seq<Group>) returns (ts: seq<Target>)
    requires NoDuplicates(groups) && ListOps(from, to, groups).Ok?
    ensures Aims(ListOps(from, to, groups).value, ts) && NoDuplicates(ts)
    ensures forall x :: x in ts ==> x.TheItem? && x.group in groups
  {
    if groups == [] {
      ts := [];
    } else {
      var g := groups[0];
      IndexOfOk(to, g);
      var s := GroupTargets(g, DictOf(from, g), DictOf(to, g));
      var t := ListTargets(from, to, groups[1..]);
      ts := s + t;
      assert Aims(ListOps(from, to, groups).value, ts) by {
        ListOpsStep(from, to, groups);
        AimsAppend(GroupOps(g, DictOf(from, g), DictOf(to, g)), s, ListOps(from, to, groups[1..]).value, t);
      }
      DistinctAppend(s, t);
    }
  }

  lemma {:induction false} SingleTargets(from: State, to: State, fields: seq<Single>) returns (ts: seq<Target>)
    requires NoDuplicates(fields)
    ensures Aims(SingleOps(from, to, fields), ts) && NoDuplicates(ts)
    ensures forall x :: x in ts ==> x.TheField? && x.field in fields
  {
    if fields == [] {
      ts := [];
    } else {
      var t := SingleTargets(from, to, fields[1..]);
      var a, b := Get(from, SingleName(fields[0])), Get(to, SingleName(fields[0]));
      if PyEq(a, b) {
        ts := t;
        assert SingleOps(from, to, fields) == SingleOps(from, to, fields[1..]);
      } else {
        ts := [TheField(fields[0])] + t;
        AimsAppend([SetField(fields[0], b)], [TheField(fields[0])], SingleOps(from, to, fields[1..]), t);
        DistinctAppend([TheField(fields[0])], t);
      }
    }
  }

  lemma AllTargets(from: State, to: State, fields: seq<Single>, groups: seq<Group>) returns (ts: seq<Target>)
    requires NoDuplicates(fields) && NoDuplicates(groups) && ListOps(from, to, groups).Ok?
    ensures NoDuplicates(ts)
    ensures Aims(WorldOps(from, to) + SingleOps(from, to, fields) + ListOps(from, to, groups).value, ts)
  {
    var w, s, l := WorldOps(from, to), SingleOps(from, to, fields), ListOps(from, to, groups).value;
    var ws := if w == [] then [] else [TheWorld];
    assert Aims(w, ws);
    var ss := SingleTargets(from, to, fields);
    var ls := ListTargets(from, to, groups);
    ts := ws + ss + ls;
    AimsAppend(w, ws, s, ss);
    AimsAppend(w + s, ws + ss, l, ls);
    DistinctAppend(ws, ss);
    DistinctAppend(ws + ss, ls);
  }

  /** The computed ops are well formed and no two of them name the same thing. */
  lemma DiffTargets(from: State, to: State) returns (ts: seq<Target>)
    requires Diff(from, to).Ok?
    ensures Aims(Diff(from, to).value, ts) && NoDuplicates(ts)
  {
    SinglesOnce();
    GroupsOnce();
    ts := AllTargets(from, to, SINGLES, GROUPS);
  }

  /** Every rearrangement of the computed ops applies to the same state. */
  lemma OpOrderIrrelevant(from: State, to: State, ops: seq<Op>)
    requires Diff(from, to).Ok? && multiset(ops) == multiset(Diff(from, to).value)
    ensures Apply(from, ops) == Apply(from, Diff(from, to).value)
  {
    hide Diff, Open, ApplyOps, Rebuild, Rebuildable, Canonicalize, Aims;
    var ts := DiffTargets(from, to);
    if Open(Work(from, map[], {}), from, GROUPS).Ok? {
      OrderIrrelevant(Open(Work(from, map[], {}), from, GROUPS).value, Diff(from, to).value, ops, ts);
    }
  }
}
