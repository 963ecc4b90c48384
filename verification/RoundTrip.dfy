/** What applying the computed ops gives back, field by field, and exactly when it is the target. */
module RoundTrip {
  import opened Json
  import opened Ordering
  import opened KeyedLists
  import opened Canonical
  import opened DiffOps

  // ---- The state the ops lead to ----

  function ListAfter(from: State, to: State, g: Group): Option<Json> {
    var f, t := DictOf(from, g), DictOf(to, g);
    if GroupName(g) in from || !Idle(f, t) then Some(Arr(ListOf(Patch(f, t)))) else None
  }

  function FieldAfter(from: State, to: State, name: string): Option<Json> {
    match SlotOf(name)
    case World => WorldAfter(from, to)
    case One(s) => SingleAfter(from, to, s)
    case List(g) => ListAfter(from, to, g)
    case Uncovered => Lookup(from, name)
  }

  // Before the lists are rebuilt.
  ghost predicate Ran(from: State, to: State, w: Work) {
    (forall n :: RanField(from, to, w, n)) && (forall g :: RanList(from, to, w, g))
  }

  ghost predicate RanField(from: State, to: State, w: Work, n: string) {
    Lookup(w.fields, n) == if SlotOf(n).List? then Lookup(from, n) else FieldAfter(from, to, n)
  }

  ghost predicate RanList(from: State, to: State, w: Work, g: Group) {
    && w.Dict(g) == Patch(DictOf(from, g), DictOf(to, g))
    && (g in w.touched <==> !Idle(DictOf(from, g), DictOf(to, g)))
  }

  lemma AllSingles(s: Single)
    ensures s in SINGLES && NoDuplicates(SINGLES)
  {
    assert SINGLES[0] == Case && SINGLES[1] == NpcSemantic && SINGLES[2] == Investigation;
    assert SINGLES[3] == Dialogue && SINGLES[4] == CaseOutcome && SINGLES[5] == CaseRecap;
  }

  lemma WellKeyedIndexes(s: State)
    requires WellKeyed(s)
    ensures forall g :: IndexOf(s, g).Ok?
  {
    forall g ensures IndexOf(s, g).Ok? { IndexOfOk(s, g); }
  }

  lemma KeysOfList(s: State, g: Group)
    requires WellKeyed(s)
    ensures AllComparable(DictOf(s, g).Keys)
  {
    IndexOfOk(s, g);
    if GroupName(g) in s {
      var items, d := s[GroupName(g)].items, DictOf(s, g);
      forall a, b | a in d.Keys && b in d.Keys ensures Comparable(a, b) {
        assert d[a] in items && d[b] in items;
        assert BothComparable(IdOf(g)(d[a]), IdOf(g)(d[b]));
      }
    }
  }

  lemma WellKeyedDiffable(from: State, to: State, g: Group)
    requires WellKeyed(from) && WellKeyed(to)
    ensures Diffable(DictOf(from, g), DictOf(to, g)) && AllComparable(Patch(DictOf(from, g), DictOf(to, g)).Keys)
  {
    KeysOfList(from, g);
    KeysOfList(to, g);
  }

  lemma OpenWellKeyed(s: State) returns (w: Work)
    requires WellKeyed(s)
    ensures Open(Work(s, map[], {}), s, GROUPS) == Ok(w)
    ensures w.fields == s && w.touched == {} && forall g :: w.Dict(g) == DictOf(s, g)
  {
    WellKeyedIndexes(s);
    OpenFacts(Work(s, map[], {}), s, GROUPS);
    w := Open(Work(s, map[], {}), s, GROUPS).value;
    forall g ensures w.Dict(g) == DictOf(s, g) { AllGroups(g); }
  }

  // The fields first, then the lists.
  lemma RunFields(w: Work, from: State, to: State) returns (v: Work)
    requires w.fields == from
    ensures ApplyOps(w, WorldOps(from, to) + SingleOps(from, to, SINGLES)) == Ok(v) && SameLists(w, v)
    ensures forall n :: RanField(from, to, v, n)
  {
    AllSingles(Case);
    var u := ApplyWorld(w, from, to);
    forall s ensures Lookup(u.fields, SingleName(s)) == Lookup(from, SingleName(s)) {
      SingleSlot(s, SingleName(s));
    }
    v := ApplySingles(u, from, to, SINGLES);
    ApplyThen(w, WorldOps(from, to), u, SingleOps(from, to, SINGLES), v);
    forall n ensures RanField(from, to, v, n) {
      if SlotOf(n).One? { AllSingles(SlotOf(n).field); }
    }
  }

  lemma RunLists(v: Work, from: State, to: State) returns (w': Work)
    requires WellKeyed(from) && WellKeyed(to)
    requires v.touched == {} && forall g :: v.Dict(g) == DictOf(from, g)
    ensures ListOps(from, to, GROUPS).Ok? && ApplyOps(v, ListOps(from, to, GROUPS).value) == Ok(w')
    ensures w'.fields == v.fields && Rebuildable(w') && forall g :: RanList(from, to, w', g)
  {
    WellKeyedIndexes(from);
    WellKeyedIndexes(to);
    forall g ensures StartsAt(v, from, to, g) { WellKeyedDiffable(from, to, g); }
    w' := ApplyLists(v, from, to, GROUPS);
    forall g ensures RanList(from, to, w', g) {
      AllGroups(g);
      assert ListPatched(v, w', to, g, g in GROUPS);
    }
    forall g | g in GROUPS ensures AllComparable(w'.Dict(g).Keys) {
      assert RanList(from, to, w', g);
      WellKeyedDiffable(from, to, g);
    }
  }

  lemma RunOps(from: State, to: State) returns (ops: seq<Op>, w: Work, w': Work)
    requires WellKeyed(from) && WellKeyed(to)
    ensures Diff(from, to) == Ok(ops)
    ensures Open(Work(from, map[], {}), from, GROUPS) == Ok(w) && ApplyOps(w, ops) == Ok(w')
    ensures Ran(from, to, w') && Rebuildable(w')
  {
    w := OpenWellKeyed(from);
    var v := RunFields(w, from, to);
    w' := RunLists(v, from, to);
    var fields, lists := WorldOps(from, to) + SingleOps(from, to, SINGLES), ListOps(from, to, GROUPS).value;
    ApplyThen(w, fields, v, lists, w');
    ops := fields + lists;
    forall n ensures RanField(from, to, w', n) { assert RanField(from, to, v, n); }
  }

  lemma RebuildList(from: State, to: State, w: Work, g: Group)
    requires Ran(from, to, w)
    ensures Lookup(Rebuild(w), GroupName(g)) == ListAfter(from, to, g)
  {
    var n := GroupName(g);
    ListSlot(g, n);
    GroupNames(g, n);
    assert RanField(from, to, w, n) && RanList(from, to, w, g);
    forall h | GroupName(h) == n ensures h == g { GroupNames(h, n); }
  }

  lemma RebuildOther(from: State, to: State, w: Work, n: string)
    requires Ran(from, to, w) && !SlotOf(n).List?
    ensures Lookup(Rebuild(w), n) == FieldAfter(from, to, n)
  {
    assert RanField(from, to, w, n);
    forall h ensures GroupName(h) != n { GroupNames(h, n); }
  }

  lemma RebuildField(from: State, to: State, w: Work, n: string)
    requires Ran(from, to, w)
    ensures Lookup(Rebuild(w), n) == FieldAfter(from, to, n)
  {
    if SlotOf(n).List? {
      ListSlot(SlotOf(n).group, n);
      RebuildList(from, to, w, SlotOf(n).group);
    } else {
      RebuildOther(from, to, w, n);
    }
  }

  // ---- The result is canonical already ----

  ghost predicate CanonicalField(n: string, v: Json) { Quantize(v) == v && SortField(n, v) == v }

  // Canonicalizing the state changes nothing.
  ghost predicate IsCanonical(s: State) { forall n :: n in s ==> CanonicalField(n, s[n]) }

  lemma CanonicalizeGivesCanonical(s: State)
    ensures IsCanonical(Canonicalize(s))
    ensures IsCanonical(s) ==> Canonicalize(s) == s
  {
    var c := Canonicalize(s);
    forall n | n in c ensures CanonicalField(n, c[n]) {
      QuantizeIdempotent(s[n]);
      SortFieldIdempotent(n, Quantize(s[n]));
      SortFieldOnce(n, Quantize(s[n]));
    }
    if IsCanonical(s) {
      forall n | n in s ensures c[n] == s[n] { assert CanonicalField(n, s[n]); }
    }
  }

  lemma SortFieldOnce(n: string, v: Json)
    ensures SortField(n, SortField(n, v)) == SortField(n, v)
  {
    if GroupOf(n).Some? && v.Arr? {
      var key := KeyOf(GroupOf(n).value);
      ByIsPreorder(key);
      SortCorrect(v.items, By(key));
      SortIdempotent(Sort(v.items, By(key)), By(key));
    }
  }

  // Items that all have ids are filed in the order they are sorted in.
  lemma SameOrder(g: Group, items: seq<Json>)
    requires Keyed(IdOf(g), items)
    ensures Sorted(items, By(IdOf(g))) <==> Sorted(items, By(KeyOf(g)))
  {
    forall i, j | 0 <= i < j < |items| ensures By(IdOf(g))(items[i], items[j]) <==> By(KeyOf(g))(items[i], items[j]) {}
  }

  // The canonical list under a group's name.
  ghost predicate CanonicalList(g: Group, items: seq<Json>) {
    Keyed(IdOf(g), items) && Sorted(items, By(IdOf(g))) && forall i :: 0 <= i < |items| ==> Quantize(items[i]) == items[i]
  }

  lemma ListIsCanonical(s: State, g: Group)
    requires IsCanonical(s) && WellKeyed(s) && GroupName(g) in s
    ensures s[GroupName(g)].Arr? && CanonicalList(g, s[GroupName(g)].items)
  {
    var n := GroupName(g);
    GroupNames(g, n);
    assert CanonicalField(n, s[n]);
    var items := s[n].items;
    ByIsPreorder(KeyOf(g));
    SortCorrect(items, By(KeyOf(g)));
    SameOrder(g, items);
    forall i | 0 <= i < |items| ensures Quantize(items[i]) == items[i] {
      assert Quantize(s[n]).items[i] == Quantize(items[i]);
    }
  }

  // A dictionary of quantized items, each under its key.
  ghost predicate CanonicalDict(g: Group, d: Dict) {
    IsIndex(IdOf(g), d) && forall k :: k in d ==> Quantize(d[k]) == d[k]
  }

  lemma DictIsCanonical(s: State, g: Group)
    requires IsCanonical(s) && WellKeyed(s)
    ensures CanonicalDict(g, DictOf(s, g))
  {
    IndexOfOk(s, g);
    if GroupName(g) in s {
      ListIsCanonical(s, g);
      var items, d := s[GroupName(g)].items, DictOf(s, g);
      forall k | k in d ensures Quantize(d[k]) == d[k] {
        var i :| 0 <= i < |items| && items[i] == d[k];
      }
    }
  }

  lemma ListedIsCanonical(g: Group, d: Dict)
    requires CanonicalDict(g, d)
    ensures CanonicalField(GroupName(g), Arr(ListOf(d)))
  {
    var items := ListOf(d);
    ListOfItems(IdOf(g), d);
    forall i | 0 <= i < |items| ensures Quantize(items[i]) == items[i] {
      assert items[i] in items;
    }
    QuantizeItems(items);
    GroupNames(g, GroupName(g));
    SameOrder(g, items);
    SortIdempotent(items, By(KeyOf(g)));
  }

  lemma PatchIsCanonical(g: Group, from: Dict, to: Dict)
    requires CanonicalDict(g, from) && CanonicalDict(g, to)
    ensures CanonicalDict(g, Patch(from, to))
  {
  }

  lemma ListAfterIsCanonical(from: State, to: State, g: Group)
    requires IsCanonical(from) && IsCanonical(to) && WellKeyed(from) && WellKeyed(to)
    requires ListAfter(from, to, g).Some?
    ensures CanonicalField(GroupName(g), ListAfter(from, to, g).value)
  {
    DictIsCanonical(from, g);
    DictIsCanonical(to, g);
    PatchIsCanonical(g, DictOf(from, g), DictOf(to, g));
    ListedIsCanonical(g, Patch(DictOf(from, g), DictOf(to, g)));
  }

  lemma OtherAfterIsCanonical(from: State, to: State, n: string)
    requires IsCanonical(from) && IsCanonical(to) && !SlotOf(n).List?
    requires FieldAfter(from, to, n).Some?
    ensures CanonicalField(n, FieldAfter(from, to, n).value)
  {
    assert FieldAfter(from, to, n) in {Lookup(from, n), Lookup(to, n), Some(Null)} by {
      match SlotOf(n) {
        case World => WorldSlot(n);
        case One(s) => SingleSlot(s, n);
        case Uncovered =>
      }
    }
    if Lookup(from, n).Some? { assert CanonicalField(n, from[n]); }
    if Lookup(to, n).Some? { assert CanonicalField(n, to[n]); }
    assert CanonicalField(n, Null);
  }

  lemma AfterIsCanonical(from: State, to: State, n: string)
    requires IsCanonical(from) && IsCanonical(to) && WellKeyed(from) && WellKeyed(to)
    requires FieldAfter(from, to, n).Some?
    ensures CanonicalField(n, FieldAfter(from, to, n).value)
  {
    if SlotOf(n).List? {
      ListSlot(SlotOf(n).group, n);
      ListAfterIsCanonical(from, to, SlotOf(n).group);
    } else {
      OtherAfterIsCanonical(from, to, n);
    }
  }

  /**
   Diff and apply in closed form: on canonical states whose items have comparable ids neither call
   fails, and each field of the result is what its own ops make of it.
   */
  lemma ApplyDiff(from: State, to: State) returns (ops: seq<Op>, after: State)
    requires IsCanonical(from) && IsCanonical(to) && WellKeyed(from) && WellKeyed(to)
    ensures Diff(from, to) == Ok(ops) && Apply(from, ops) == Ok(after)
    ensures forall n :: Lookup(after, n) == FieldAfter(from, to, n)
  {
    var w, w';
    ops, w, w' := RunOps(from, to);
    after := Rebuild(w');
    forall n ensures Lookup(after, n) == FieldAfter(from, to, n) { RebuildField(from, to, w', n); }
    forall n | n in after ensures CanonicalField(n, after[n]) {
      assert Lookup(after, n) == FieldAfter(from, to, n);
      AfterIsCanonical(from, to, n);
    }
    CanonicalizeGivesCanonical(after);
  }

  // ---- Exactly when the result is the target ----

  /**
   What a field must satisfy to survive the trip; each case is a check on the two
   states alone.
   */
  ghost predicate Survives(from: State, to: State, n: string) {
    match SlotOf(n)
    case World =>
      if PyEq(Get(from, n), Get(to, n)) then Lookup(from, n) == Lookup(to, n)
      else Get(to, n).Null? ==> n !in to
    case One(_) =>
      if PyEq(Get(from, n), Get(to, n)) then Lookup(from, n) == Lookup(to, n)
      else Get(to, n).Null? ==> n in to
    case List(g) =>
      if n in to then
        && to[n].Arr? && UniqueKeys(IdOf(g), to[n].items)
        && NoHiddenChange(DictOf(from, g), DictOf(to, g))
        && (n in from || to[n].items != [])
      else n !in from
    case Uncovered => Lookup(from, n) == Lookup(to, n)
  }

  lemma ListSurvives(from: State, to: State, g: Group)
    requires IsCanonical(from) && IsCanonical(to) && WellKeyed(from) && WellKeyed(to)
    requires GroupName(g) in to
    ensures var items := to[GroupName(g)].items;
      Arr(ListOf(Patch(DictOf(from, g), DictOf(to, g)))) == to[GroupName(g)]
      <==> UniqueKeys(IdOf(g), items) && NoHiddenChange(DictOf(from, g), DictOf(to, g))
  {
    var items, f, t := to[GroupName(g)].items, DictOf(from, g), DictOf(to, g);
    ListIsCanonical(to, g);
    IndexOfOk(to, g);
    DictIsCanonical(from, g);
    DictIsCanonical(to, g);
    PatchIsCanonical(g, f, t);
    ListOfItems(IdOf(g), Patch(f, t));
    PatchExact(f, t);
    if UniqueKeys(IdOf(g), items) {
      ListOfIndex(IdOf(g), items, t);
      if ListOf(Patch(f, t)) == items { ListOfInjective(IdOf(g), Patch(f, t), t); }
    }
  }

  lemma IdleFromNothing(from: State, to: State, g: Group)
    requires WellKeyed(from) && WellKeyed(to) && GroupName(g) !in from
    ensures Idle(DictOf(from, g), DictOf(to, g)) <==> GroupName(g) !in to || to[GroupName(g)].items == []
  {
    var f, t := DictOf(from, g), DictOf(to, g);
    IndexOfOk(to, g);
    assert f == map[] && Changed(f, t) == t.Keys;
    if GroupName(g) in to && to[GroupName(g)].items != [] {
      var k := IdOf(g)(to[GroupName(g)].items[0]).value;
      assert k in t.Keys;
    }
  }

  lemma FieldSurvives(from: State, to: State, n: string)
    requires IsCanonical(from) && IsCanonical(to) && WellKeyed(from) && WellKeyed(to)
    ensures FieldAfter(from, to, n) == Lookup(to, n) <==> Survives(from, to, n)
  {
    match SlotOf(n) {
      case List(g) =>
        ListSlot(g, n);
        if n in to { ListSurvives(from, to, g); }
        if n !in from { IdleFromNothing(from, to, g); }
      case World => WorldSlot(n);
      case One(s) => SingleSlot(s, n);
      case Uncovered =>
    }
  }

  ghost predicate Faithful(from: State, to: State) {
    forall n :: n in from || n in to ==> Survives(from, to, n)
  }

  /** The diff round trip: applying the computed ops gives the target exactly when every field survives. */
  lemma DiffRoundTrip(from: State, to: State)
    requires IsCanonical(from) && IsCanonical(to) && WellKeyed(from) && WellKeyed(to)
    ensures Diff(from, to).Ok? && Apply(from, Diff(from, to).value).Ok?
    ensures Apply(from, Diff(from, to).value) == Ok(to) <==> Faithful(from, to)
  {
    var ops, after := ApplyDiff(from, to);
    if after == to {
      forall n | n in from || n in to ensures Survives(from, to, n) {
        FieldSurvives(from, to, n);
        assert Lookup(after, n) == Lookup(to, n);
      }
    }
    if Faithful(from, to) {
      forall n ensures Lookup(after, n) == Lookup(to, n) {
        FieldSurvives(from, to, n);
        if n !in from && n !in to { AbsentSurvives(from, to, n); }
      }
      SameLookups(after, to);
    }
  }

  lemma AbsentSurvives(from: State, to: State, n: string)
    requires n !in from && n !in to
    ensures Survives(from, to, n)
  {
  }

  /** One field's result is the target's exactly when that field survives, whatever the others do. */
  lemma FieldRoundTrip(from: State, to: State, n: string)
    requires IsCanonical(from) && IsCanonical(to) && WellKeyed(from) && WellKeyed(to)
    ensures Diff(from, to).Ok? && Apply(from, Diff(from, to).value).Ok?
    ensures var after := Apply(from, Diff(from, to).value).value;
      Lookup(after, n) == Lookup(to, n) <==> Survives(from, to, n)
  {
    var ops, after := ApplyDiff(from, to);
    FieldSurvives(from, to, n);
    assert Lookup(after, n) == FieldAfter(from, to, n);
  }

  /** A field no op covers, such as `learning` or `debug`, keeps its old value. */
  lemma UncoveredIsKept(from: State, to: State, n: string)
    requires IsCanonical(from) && IsCanonical(to) && WellKeyed(from) && WellKeyed(to) && SlotOf(n).Uncovered?
    ensures Diff(from, to).Ok? && Apply(from, Diff(from, to).value).Ok?
    ensures Lookup(Apply(from, Diff(from, to).value).value, n) == Lookup(from, n)
  {
    var ops, after := ApplyDiff(from, to);
    assert Lookup(after, n) == FieldAfter(from, to, n);
  }

  // ---- What is lost ----

  lemma OneField(n: string, a: Json)
    requires !SlotOf(n).List? && CanonicalField(n, a)
    ensures IsCanonical(map[n := a]) && WellKeyed(map[n := a])
  {
    forall g ensures GroupName(g) != n { ListSlot(g, n); }
  }

  // Two states with one value each, under the same name.
  lemma HiddenChangeIsLost(n: string, a: Json, b: Json)
    requires PyEq(a, b) && a != b && !SlotOf(n).List?
    requires CanonicalField(n, a) && CanonicalField(n, b)
    ensures var (from, to) := (map[n := a], map[n := b]);
      Diff(from, to).Ok? && Apply(from, Diff(from, to).value).Ok? && Apply(from, Diff(from, to).value) != Ok(to)
  {
    OneField(n, a);
    OneField(n, b);
    DiffRoundTrip(map[n := a], map[n := b]);
    HiddenChangeUnfaithful(n, a, b);
  }

  lemma HiddenChangeUnfaithful(n: string, a: Json, b: Json)
    requires PyEq(a, b) && a != b && !SlotOf(n).List?
    ensures !Faithful(map[n := a], map[n := b])
  {
    var from, to := map[n := a], map[n := b];
    assert Get(from, n) == a && Get(to, n) == b;
    assert Lookup(from, n) != Lookup(to, n);
    assert !Survives(from, to, n);
  }

  /** `-0.0 == 0.0` and `True == 1`: such a change to the world state leaves no op behind. */
  lemma SignOfZeroAndBooleansAreLost()
    ensures var (from, to) := (map["world" := Num(NEGATIVE_ZERO)], map["world" := Num(ZERO)]);
      Diff(from, to).Ok? && Apply(from, Diff(from, to).value).Ok? && Apply(from, Diff(from, to).value) != Ok(to)
    ensures var (from, to) := (map["world" := Bool(true)], map["world" := Num(ONE)]);
      Diff(from, to).Ok? && Apply(from, Diff(from, to).value).Ok? && Apply(from, Diff(from, to).value) != Ok(to)
  {
    WorldSlot("world");
    HiddenChangeIsLost("world", Num(NEGATIVE_ZERO), Num(ZERO));
    HiddenChangeIsLost("world", Bool(true), Num(ONE));
  }

  /** A world that turns null is deleted instead, so the two states' keys no longer agree. */
  lemma NullWorldIsLost()
    ensures var (from, to) := (map["world" := Num(ONE)], map["world" := Null]);
      Diff(from, to).Ok? && Apply(from, Diff(from, to).value).Ok? && Apply(from, Diff(from, to).value) != Ok(to)
  {
    WorldSlot("world");
    OneField("world", Num(ONE));
    OneField("world", Null);
    DiffRoundTrip(map["world" := Num(ONE)], map["world" := Null]);
    assert !Survives(map["world" := Num(ONE)], map["world" := Null], "world");
  }

  /**
   The documented use: two states of one run with the same keys and unique ids, that
   agree on the uncovered fields, hold a world that is not null, and differ only in
   ways `==` can see.
   */
  ghost predicate SameShape(from: State, to: State) {
    && from.Keys == to.Keys
    && (forall g :: GroupName(g) in to ==> ListShape(from, to, g))
    && (forall n :: n in to && SlotOf(n).Uncovered? ==> from[n] == to[n])
    && (forall n :: n in to && !SlotOf(n).List? && PyEq(from[n], to[n]) ==> from[n] == to[n])
    && ("world" in to ==> !to["world"].Null?)
  }

  ghost predicate ListShape(from: State, to: State, g: Group)
    requires GroupName(g) in to
  {
    to[GroupName(g)].Arr? && UniqueKeys(IdOf(g), to[GroupName(g)].items) && NoHiddenChange(DictOf(from, g), DictOf(to, g))
  }

  /** Such a pair is faithful. */
  lemma SameShapeIsFaithful(from: State, to: State)
    requires SameShape(from, to)
    ensures Faithful(from, to)
  {
    forall n | n in from || n in to ensures Survives(from, to, n) {
      match SlotOf(n) {
        case List(g) =>
          ListSlot(g, n);
          assert ListShape(from, to, g);
        case World => WorldSlot(n);
        case _ =>
      }
    }
  }
}
