/** The differ and the patcher as they run: op lists, dictionaries and flags updated in loops. */
module DiffRun {
  import opened Json
  import opened Ordering
  import opened KeyedLists
  import opened Canonical
  import opened DiffOps

  method RemovesInOrder(g: Group, keys: seq<Key>) returns (ops: seq<Op>)
    ensures ops == Removes(g, keys)
  {
    ops := [];
    for i := 0 to |keys|
      invariant ops + Removes(g, keys[i..]) == Removes(g, keys)
    {
      ops := ops + [Remove(g, keys[i])];
    }
  }

  method UpsertsInOrder(g: Group, keys: seq<Key>, items: Dict) returns (ops: seq<Op>)
    requires forall k :: k in keys ==> k in items
    ensures ops == Upserts(g, keys, items)
  {
    ops := [];
    for i := 0 to |keys|
      invariant ops + Upserts(g, keys[i..], items) == Upserts(g, keys, items)
    {
      ops := ops + [Upsert(g, items[keys[i]])];
    }
  }

  /** `_diff_group`: removals in key order, then upserts in key order. */
  method DiffGroup(g: Group, from: Dict, to: Dict) returns (ops: seq<Op>)
    ensures ops == GroupOps(g, from, to)
  {
    var removes := RemovesInOrder(g, SortedKeys(Removed(from, to)));
    var upserts := UpsertsInOrder(g, SortedKeys(Changed(from, to)), to);
    ops := removes + upserts;
  }

  // What is left of the list ops after some groups have produced theirs.
  function Prepend(ops: seq<Op>, r: Result<seq<Op>>): Result<seq<Op>> {
    match r
    case Err(e) => Err(e)
    case Ok(rest) => Ok(ops + rest)
  }

  lemma PrependStep(from: State, to: State, groups: seq<Group>, ops: seq<Op>)
    requires groups != []
    ensures var f, t := IndexOf(from, groups[0]), IndexOf(to, groups[0]);
      Prepend(ops, ListOps(from, to, groups)) ==
        if f.Err? then Err(f.error) else if t.Err? then Err(t.error)
        else if !Diffable(f.value, t.value) then Err(Unsortable)
        else Prepend(ops + GroupOps(groups[0], f.value, t.value), ListOps(from, to, groups[1..]))
  {
    var f, t, tail := IndexOf(from, groups[0]), IndexOf(to, groups[0]), ListOps(from, to, groups[1..]);
    if f.Ok? && t.Ok? && Diffable(f.value, t.value) && tail.Ok? {
      var g := GroupOps(groups[0], f.value, t.value);
      assert ops + (g + tail.value) == (ops + g) + tail.value;
    }
  }

  lemma PrependNothing(r: Result<seq<Op>>)
    ensures Prepend([], r) == r
  {
    if r.Ok? { assert [] + r.value == r.value; }
  }

  method DiffLists(from: State, to: State, groups: seq<Group>) returns (r: Result<seq<Op>>)
    ensures r == ListOps(from, to, groups)
  {
    var ops := [];
    PrependNothing(ListOps(from, to, groups));
    assert groups[0..] == groups;
    for i := 0 to |groups|
      invariant ListOps(from, to, groups) == Prepend(ops, ListOps(from, to, groups[i..]))
    {
      PrependStep(from, to, groups[i..], ops);
      assert groups[i..][1..] == groups[i + 1..];
      var f := IndexOf(from, groups[i]);
      if f.Err? { return Err(f.error); }
      var t := IndexOf(to, groups[i]);
      if t.Err? { return Err(t.error); }
      if !Diffable(f.value, t.value) { return Err(Unsortable); }
      var some := DiffGroup(groups[i], f.value, t.value);
      ops := ops + some;
    }
    assert ops + [] == ops;
    r := Ok(ops);
  }

  // `_diff_singleton_field`.
  function SingleOp(f: Single, before: Json, after: Json): seq<Op> {
    if PyEq(before, after) then [] else [SetField(f, after)]
  }

  lemma SingleStep(from: State, to: State, fields: seq<Single>, ops: seq<Op>)
    requires fields != []
    ensures var name := SingleName(fields[0]);
      ops + SingleOps(from, to, fields) ==
        (ops + SingleOp(fields[0], Get(from, name), Get(to, name))) + SingleOps(from, to, fields[1..])
  {
    var name := SingleName(fields[0]);
    SingleHead(from, to, fields);
    Regroup(ops, SingleOp(fields[0], Get(from, name), Get(to, name)), SingleOps(from, to, fields[1..]));
  }

  lemma SingleHead(from: State, to: State, fields: seq<Single>)
    requires fields != []
    ensures var name := SingleName(fields[0]);
      SingleOps(from, to, fields) == SingleOp(fields[0], Get(from, name), Get(to, name)) + SingleOps(from, to, fields[1..])
  {
  }

  lemma Regroup<T>(a: seq<T>, b: seq<T>, c: seq<T>)
    ensures a + (b + c) == (a + b) + c
  {
  }

  /** `_diff_singleton_field` over the single fields. */
  method DiffSingles(from: State, to: State, fields: seq<Single>) returns (ops: seq<Op>)
    ensures ops == SingleOps(from, to, fields)
  {
    ops := [];
    assert fields[0..] == fields;
    for i := 0 to |fields|
      invariant ops + SingleOps(from, to, fields[i..]) == SingleOps(from, to, fields)
    {
      SingleStep(from, to, fields[i..], ops);
      assert fields[i..][1..] == fields[i + 1..];
      var before, after := Get(from, SingleName(fields[i])), Get(to, SingleName(fields[i]));
      ops := ops + SingleOp(fields[i], before, after);
    }
  }

  method ComputeStateDiffOps(from: State, to: State) returns (r: Result<seq<Op>>)
    ensures r == Diff(from, to)
  {
    var ops := [];
    var before, after := Get(from, "world"), Get(to, "world");
    if !PyEq(before, after) {
      if after.Null? { ops := ops + [ClearWorld]; } else { ops := ops + [SetWorld(after)]; }
    }
    var singles := DiffSingles(from, to, SINGLES);
    assert ops == WorldOps(from, to);
    var lists := DiffLists(from, to, GROUPS);
    r := if lists.Err? then lists else Ok(ops + singles + lists.value);
  }

  method OpenDicts(state: State) returns (r: Result<Work>)
    ensures r == Open(Work(state, map[], {}), state, GROUPS)
  {
    var w := Work(state, map[], {});
    for i := 0 to |GROUPS|
      invariant Open(Work(state, map[], {}), state, GROUPS) == Open(w, state, GROUPS[i..])
    {
      var d := IndexOf(state, GROUPS[i]);
      if d.Err? { return Err(d.error); }
      assert GROUPS[i..][1..] == GROUPS[i + 1..];
      w := w.(dicts := w.dicts[GROUPS[i] := d.value]);
    }
    r := Ok(w);
  }

  // What is in the rebuilt state once the lists up to some group are done.
  ghost predicate RebuiltSoFar(w: Work, s: State, done: seq<Group>) {
    forall n :: RebuiltField(w, s, done, n)
  }

  ghost predicate RebuiltField(w: Work, s: State, done: seq<Group>, n: string) {
    Lookup(s, n) ==
      if GroupOf(n).Some? && GroupOf(n).value in done then Lookup(Rebuild(w), n) else Lookup(w.fields, n)
  }

  lemma RebuiltName(w: Work, g: Group)
    ensures var n := GroupName(g);
      Lookup(Rebuild(w), n) == if n in w.fields || g in w.touched then Some(Arr(ListOf(w.Dict(g)))) else None
  {
    GroupNames(g, GroupName(g));
    forall h | GroupName(h) == GroupName(g) ensures h == g { GroupNamesInjective(g, h); }
  }

  lemma RebuildStep(w: Work, s: State, done: seq<Group>, g: Group)
    requires RebuiltSoFar(w, s, done) && g !in done
    ensures var n := GroupName(g);
      RebuiltSoFar(w, if n in s || g in w.touched then s[n := Arr(ListOf(w.Dict(g)))] else s, done + [g])
  {
    var n := GroupName(g);
    var s' := if n in s || g in w.touched then s[n := Arr(ListOf(w.Dict(g)))] else s;
    GroupNames(g, n);
    RebuiltName(w, g);
    assert RebuiltField(w, s, done, n);
    forall m ensures RebuiltField(w, s', done + [g], m) {
      GroupNames(g, m);
      assert RebuiltField(w, s, done, m);
    }
  }

  lemma RebuiltAll(w: Work, s: State)
    requires RebuiltSoFar(w, s, GROUPS)
    ensures s == Rebuild(w)
  {
    forall n ensures Lookup(s, n) == Lookup(Rebuild(w), n) {
      assert RebuiltField(w, s, GROUPS, n);
      if GroupOf(n).Some? {
        AllGroups(GroupOf(n).value);
      } else {
        forall h ensures GroupName(h) != n { GroupNames(h, n); }
      }
    }
    SameLookups(s, Rebuild(w));
  }

  /** `sort_rooms(list(rooms.values()))` and its siblings raise on ids that cannot be compared. */
  method RebuildLists(w: Work) returns (r: Result<State>)
    ensures r == if Rebuildable(w) then Ok(Rebuild(w)) else Err(Unsortable)
  {
    var s := w.fields;
    for i := 0 to |GROUPS|
      invariant RebuiltSoFar(w, s, GROUPS[..i]) && forall j :: 0 <= j < i ==> AllComparable(w.Dict(GROUPS[j]).Keys)
    {
      var g := GROUPS[i];
      if !AllComparable(w.Dict(g).Keys) {
        assert g in GROUPS;
        return Err(Unsortable);
      }
      assert GROUPS[..i + 1] == GROUPS[..i] + [g];
      assert g !in GROUPS[..i] by { GroupsOnce(); }
      RebuildStep(w, s, GROUPS[..i], g);
      if GroupName(g) in s || g in w.touched {
        s := s[GroupName(g) := Arr(ListOf(w.Dict(g)))];
      }
    }
    assert GROUPS[..|GROUPS|] == GROUPS;
    RebuiltAll(w, s);
    r := Ok(s);
  }

  /** Open the dictionaries, run the ops one by one, rebuild the lists, canonicalize. */
  method ApplyStateDiffOps(state: State, ops: seq<Op>) returns (r: Result<State>)
    ensures r == Apply(state, ops)
  {
    var start := OpenDicts(state);
    if start.Err? { return Err(start.error); }
    var w := start.value;
    for i := 0 to |ops|
      invariant ApplyOps(start.value, ops) == ApplyOps(w, ops[i..])
    {
      var step := ApplyOp(w, ops[i]);
      if step.Err? { return Err(step.error); }
      assert ops[i..][1..] == ops[i + 1..];
      w := step.value;
    }
    var rebuilt := RebuildLists(w);
    r := if rebuilt.Ok? then Ok(Canonicalize(rebuilt.value)) else rebuilt;
  }
}
