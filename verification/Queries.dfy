/** Queries over the ECS world: what `ECSWorld.query` must return, read off the plain map. */
module Queries {
  import opened Json
  import opened Ordering
  import opened Storages
  import opened Ecs

  datatype QuerySignature = QuerySignature(read: seq<Kind>, write: seq<Kind>, optional: seq<Kind>, without: seq<Kind>)

  datatype RowView = RowView(entity: EntityId, components: seq<Cell>)

  predicate HasAll(b: Bag, kinds: seq<Kind>) { forall i | 0 <= i < |kinds| :: kinds[i] in b }

  predicate HasAny(b: Bag, kinds: seq<Kind>) { exists i | 0 <= i < |kinds| :: kinds[i] in b }

  predicate Matches(b: Bag, q: QuerySignature) {
    HasAll(b, q.read + q.write) && !HasAny(b, q.without)
  }

  // The components in order, an empty slot for each one missing.
  function Slots(b: Bag, kinds: seq<Kind>): seq<Cell> { seq(|kinds|, i requires 0 <= i < |kinds| => Look(b, kinds[i])) }

  function RowFor(e: EntityId, b: Bag, q: QuerySignature): RowView {
    RowView(e, Slots(b, q.read + q.write + q.optional))
  }

  function RowsFor(m: Entities, ids: seq<EntityId>, q: QuerySignature): seq<RowView> {
    if ids == [] then []
    else if ids[0] in m && Matches(m[ids[0]], q) then [RowFor(ids[0], m[ids[0]], q)] + RowsFor(m, ids[1..], q)
    else RowsFor(m, ids[1..], q)
  }

  function Answer(m: Entities, q: QuerySignature): seq<RowView> { RowsFor(m, Ascending(m.Keys), q) }

  function Ids(rows: seq<RowView>): seq<EntityId> { seq(|rows|, i requires 0 <= i < |rows| => rows[i].entity) }

  ghost predicate Answers(m: Entities, q: QuerySignature, r: RowView) {
    r.entity in m && Matches(m[r.entity], q) && r == RowFor(r.entity, m[r.entity], q)
  }

  lemma {:induction false} RowsForExact(m: Entities, ids: seq<EntityId>, q: QuerySignature)
    requires Ascends(ids)
    ensures forall r :: r in RowsFor(m, ids, q) <==> Answers(m, q, r) && r.entity in ids
    ensures Ascends(Ids(RowsFor(m, ids, q)))
    decreases |ids|
  {
    if ids != [] {
      RowsForExact(m, ids[1..], q);
      var rest := RowsFor(m, ids[1..], q);
      forall r | Answers(m, q, r) && r.entity in ids ensures r in RowsFor(m, ids, q) {
        assert r.entity == ids[0] || r.entity in ids[1..];
      }
      if ids[0] in m && Matches(m[ids[0]], q) {
        IdsAfter(ids, rest);
      }
    }
  }

  lemma IdsAfter(ids: seq<EntityId>, rest: seq<RowView>)
    requires ids != [] && Ascends(ids) && Ascends(Ids(rest)) && forall r :: r in rest ==> r.entity in ids[1..]
    ensures forall row: RowView :: row.entity == ids[0] ==> Ascends(Ids([row] + rest))
  {
    forall row: RowView | row.entity == ids[0] ensures Ascends(Ids([row] + rest)) {
      forall i | 0 <= i < |rest| ensures ids[0] < Ids(rest)[i] { assert rest[i] in rest; }
      ConsAscendsInt(ids[0], Ids(rest));
      assert Ids([row] + rest) == [ids[0]] + Ids(rest);
    }
  }

  /** Every required component is there and no excluded one. */
  ghost predicate Selected(b: Bag, q: QuerySignature) {
    (forall k :: k in q.read || k in q.write ==> k in b) && (forall k :: k in q.without ==> k !in b)
  }

  /** The entity's own components of these classes in their order, an empty slot for each it lacks. */
  ghost predicate Fetched(b: Bag, kinds: seq<Kind>, cells: seq<Cell>) {
    |cells| == |kinds| && forall i :: 0 <= i < |kinds| ==> cells[i] == if kinds[i] in b then Some(b[kinds[i]]) else None
  }

  lemma MatchesMeans(b: Bag, q: QuerySignature)
    ensures Matches(b, q) <==> Selected(b, q)
  {
    var needed := q.read + q.write;
    if Matches(b, q) {
      forall k | k in q.read || k in q.write ensures k in b { assert k in needed; }
    }
    if Selected(b, q) {
      forall i | 0 <= i < |needed| ensures needed[i] in b { assert needed[i] in q.read || needed[i] in q.write; }
    }
  }

  lemma FetchedIs(b: Bag, kinds: seq<Kind>, cells: seq<Cell>)
    ensures Fetched(b, kinds, cells) <==> cells == Slots(b, kinds)
  {
  }

  /**
   The rows of an answer are exactly those of the entities that have every component read
   or written and none excluded, once each, in ascending order, with the components read,
   written and optional in that order.
   */
  lemma AnswerExact(m: Entities, q: QuerySignature)
    ensures forall r :: r in Answer(m, q) <==>
      && r.entity in m && Selected(m[r.entity], q) && Fetched(m[r.entity], q.read + q.write + q.optional, r.components)
    ensures Ascends(Ids(Answer(m, q)))
  {
    hide Matches, Selected, Fetched, Slots;
    AscendingAscends(m.Keys);
    RowsForExact(m, Ascending(m.Keys), q);
    forall r: RowView
      ensures r in Answer(m, q) <==>
        r.entity in m && Selected(m[r.entity], q) && Fetched(m[r.entity], q.read + q.write + q.optional, r.components)
    {
      if r.entity in m {
        MatchesMeans(m[r.entity], q);
        FetchedIs(m[r.entity], q.read + q.write + q.optional, r.components);
      }
    }
  }

  // ---- Worlds that have learned more type codes ----

  function Learn(w: World, kinds: seq<Kind>): World
    decreases |kinds|
  {
    if kinds == [] then w else Learn(Touch(w, kinds[0]), kinds[1..])
  }

  lemma {:induction false} LearnMore(w: World, kinds: seq<Kind>, k: Kind)
    ensures Learn(w, kinds + [k]) == Touch(Learn(w, kinds), k)
    decreases |kinds|
  {
    if kinds == [] {
      assert ([] + [k])[1..] == [];
    } else {
      assert (kinds + [k])[1..] == kinds[1..] + [k];
      LearnMore(Touch(w, kinds[0]), kinds[1..], k);
    }
  }

  /** Learning changes nothing but the codes. */
  lemma {:induction false} LearnCorrect(w: World, kinds: seq<Kind>)
    requires WorldOk(w)
    ensures var v := Learn(w, kinds);
      WorldOk(v) && Abs(v) == Abs(w) && v.entities == w.entities && v.storages == w.storages
    decreases |kinds|
  {
    if kinds != [] {
      TouchCorrect(w, kinds[0]);
      LearnCorrect(Touch(w, kinds[0]), kinds[1..]);
    }
  }

  lemma {:induction false} LearnGet(w: World, kinds: seq<Kind>, e: EntityId, k: Kind)
    requires WorldOk(w)
    ensures Get(Learn(w, kinds), e, k) == Get(w, e, k)
    decreases |kinds|
  {
    if kinds != [] {
      TouchGet(w, kinds[0], e, k);
      TouchCorrect(w, kinds[0]);
      LearnGet(Touch(w, kinds[0]), kinds[1..], e, k);
    }
  }

  // ---- Steps of the query's loops ----

  lemma HasAllStep(b: Bag, kinds: seq<Kind>, i: nat)
    requires i < |kinds| && HasAll(b, kinds[..i])
    ensures kinds[i] in b ==> HasAll(b, kinds[..i + 1])
    ensures kinds[i] !in b ==> !HasAll(b, kinds)
  {
  }

  lemma HasAnyStep(b: Bag, kinds: seq<Kind>, i: nat)
    requires i < |kinds| && !HasAny(b, kinds[..i])
    ensures kinds[i] !in b ==> !HasAny(b, kinds[..i + 1])
    ensures kinds[i] in b ==> HasAny(b, kinds)
  {
  }

  lemma SlotsStep(b: Bag, kinds: seq<Kind>, i: nat)
    requires i < |kinds|
    ensures Slots(b, kinds[..i + 1]) == Slots(b, kinds[..i]) + [Look(b, kinds[i])]
  {
  }

  lemma RowsStep(m: Entities, ids: seq<EntityId>, i: nat, q: QuerySignature, rows: seq<RowView>, row: Option<RowView>)
    requires i < |ids| && ids[i] in m
    requires row == if Matches(m[ids[i]], q) then Some(RowFor(ids[i], m[ids[i]], q)) else None
    ensures rows + RowsFor(m, ids[i..], q) ==
      (if row.Some? then rows + [row.value] else rows) + RowsFor(m, ids[i + 1..], q)
  {
    assert ids[i..][0] == ids[i] && ids[i..][1..] == ids[i + 1..];
    if row.Some? {
      var rest := RowsFor(m, ids[i + 1..], q);
      assert rows + ([row.value] + rest) == (rows + [row.value]) + rest;
    }
  }
}
