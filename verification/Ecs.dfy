/** The ECS world of `ecs/world.py` on values, and the plain entity-to-components map it stands for. */
module Ecs {
  import opened Json
  import opened Ordering
  import opened Storages

  type Kind = string

  datatype Place = Place(sig: Signature, row: int)

  type Tables = map<Signature, Table>

  type Places = map<EntityId, Place>

  datatype World = World(
    next: EntityId, alive: set<EntityId>, registry: seq<Signature>,
    codes: map<Kind, int>, kinds: map<int, Kind>, nextCode: int,
    storages: Tables, entities: Places)

  const EMPTY := World(1, {}, [], map[], map[], 1, map[], map[])

  // ---- The invariant ----

  // Component classes and type codes are in one-to-one correspondence, and the codes are those from 1 on.
  ghost predicate CodesOk(codes: map<Kind, int>, kinds: map<int, Kind>, nextCode: int) {
    && nextCode >= 1
    && (forall k :: k in codes ==> 1 <= codes[k] < nextCode && codes[k] in kinds && kinds[codes[k]] == k)
    && (forall c :: c in kinds ==> kinds[c] in codes && codes[kinds[c]] == c)
    && (forall c :: 1 <= c < nextCode ==> c in kinds)
  }

  // No empty cell, and every component of the column's class.
  ghost predicate ColumnFits(k: Kind, column: seq<Cell>) {
    forall i :: 0 <= i < |column| ==> column[i].Some? && column[i].value.kind == k
  }

  ghost predicate TableFits(kinds: map<int, Kind>, sig: Signature, t: Table) {
    && TableOk(t) && t.codes == sig
    && forall c :: c in t.columns ==> c in kinds && ColumnFits(kinds[c], t.columns[c])
  }

  ghost predicate TablesOk(kinds: map<int, Kind>, storages: Tables) {
    forall sig :: sig in storages ==> TableFits(kinds, sig, storages[sig])
  }

  // An entity is where the world says it is ...
  ghost predicate PlaceOk(storages: Tables, e: EntityId, p: Place) {
    p.sig in storages && e in storages[p.sig].index && storages[p.sig].index[e] == p.row
  }

  // ... and nowhere else.
  ghost predicate Placed(entities: Places, sig: Signature, t: Table) {
    forall e :: e in t.index ==> e in entities && entities[e].sig == sig
  }

  ghost predicate PlacesOk(storages: Tables, entities: Places) {
    && (forall e :: e in entities ==> PlaceOk(storages, e, entities[e]))
    && (forall sig :: sig in storages ==> Placed(entities, sig, storages[sig]))
  }

  ghost predicate IdsOk(w: World) {
    w.next >= 1 && w.entities.Keys == w.alive && forall e :: e in w.alive ==> 1 <= e < w.next
  }

  ghost predicate RegistryOk(registry: seq<Signature>, storages: Tables) {
    NoDuplicates(registry) && forall sig :: sig in registry <==> sig in storages
  }

  // Everything but the allocator's bookkeeping.
  ghost predicate Sound(w: World) {
    && CodesOk(w.codes, w.kinds, w.nextCode) && TablesOk(w.kinds, w.storages)
    && PlacesOk(w.storages, w.entities) && RegistryOk(w.registry, w.storages)
  }

  ghost predicate WorldOk(w: World) { Sound(w) && IdsOk(w) }

  lemma EmptyOk()
    ensures WorldOk(EMPTY)
  {
  }

  type GoodWorld = w: World | WorldOk(w) ghost witness (EmptyOk(); EMPTY)

  datatype Integrity = Intact | Broken

  /** The invariant as one value. */
  ghost function Audit(w: World): Integrity { if WorldOk(w) then Intact else Broken }

  // ---- The abstract map ----

  type Bag = map<Kind, Component>

  type Entities = map<EntityId, Bag>

  function Get(w: World, e: EntityId, k: Kind): Cell {
    if e in w.entities && w.entities[e].sig in w.storages && k in w.codes
    then CellOf(w.storages[w.entities[e].sig], e, w.codes[k]) else None
  }

  function BagOf(w: World, e: EntityId): Bag { map k | k in w.codes && Get(w, e, k).Some? :: Get(w, e, k).value }

  /** What the world means: each entity and its components by class. */
  function Abs(w: World): Entities { map e | e in w.entities :: BagOf(w, e) }

  function Look(b: Bag, k: Kind): Cell { if k in b then Some(b[k]) else None }

  lemma BagIs(w: World, e: EntityId, b: Bag)
    requires forall k :: Get(w, e, k) == Look(b, k)
    ensures BagOf(w, e) == b
  {
    forall k ensures k in BagOf(w, e) <==> k in b { assert Get(w, e, k) == Look(b, k); }
    forall k | k in b ensures BagOf(w, e)[k] == b[k] { assert Get(w, e, k) == Look(b, k); }
  }

  lemma LookBag(w: World, e: EntityId, k: Kind)
    ensures Look(BagOf(w, e), k) == Get(w, e, k)
  {
  }

  // The same components for one entity in two worlds.
  lemma SameBag(w: World, v: World, e: EntityId)
    requires forall k :: Get(v, e, k) == Get(w, e, k)
    ensures BagOf(v, e) == BagOf(w, e)
  {
    forall k ensures Get(v, e, k) == Look(BagOf(w, e), k) { LookBag(w, e, k); }
    BagIs(v, e, BagOf(w, e));
  }

  lemma SameAbs(w: World, v: World)
    requires w.entities.Keys == v.entities.Keys && forall e, k :: Get(v, e, k) == Get(w, e, k)
    ensures Abs(v) == Abs(w)
  {
    forall e | e in w.entities ensures BagOf(v, e) == BagOf(w, e) { SameBag(w, v, e); }
  }

  // v is w with the components of one entity replaced.
  lemma AbsWith(w: World, v: World, e: EntityId, b: Bag)
    requires v.entities.Keys == w.entities.Keys + {e} && forall k :: Get(v, e, k) == Look(b, k)
    requires forall f, k :: f != e ==> Get(v, f, k) == Get(w, f, k)
    ensures Abs(v) == Abs(w)[e := b]
  {
    BagIs(v, e, b);
    forall f | f in w.entities && f != e ensures BagOf(v, f) == BagOf(w, f) { SameBag(w, v, f); }
  }

  lemma AbsWithout(w: World, v: World, e: EntityId)
    requires v.entities.Keys == w.entities.Keys - {e}
    requires forall f, k :: f != e ==> Get(v, f, k) == Get(w, f, k)
    ensures Abs(v) == Abs(w) - {e}
  {
    forall f | f in v.entities ensures BagOf(v, f) == BagOf(w, f) { SameBag(w, v, f); }
  }

  // ---- Giving out a type code ----

  // `_get_type_code`: codes are given out in first-use order.
  function Touch(w: World, k: Kind): World {
    if k in w.codes then w
    else w.(codes := w.codes[k := w.nextCode], kinds := w.kinds[w.nextCode := k], nextCode := w.nextCode + 1)
  }

  lemma TouchCodes(codes: map<Kind, int>, kinds: map<int, Kind>, nextCode: int, k: Kind)
    requires CodesOk(codes, kinds, nextCode) && k !in codes
    ensures CodesOk(codes[k := nextCode], kinds[nextCode := k], nextCode + 1) && nextCode !in kinds
  {
    forall c | c in kinds ensures c < nextCode { assert codes[kinds[c]] == c; }
  }

  lemma TouchTable(kinds: map<int, Kind>, sig: Signature, t: Table, code: int, k: Kind)
    requires TableFits(kinds, sig, t) && code !in kinds
    ensures TableFits(kinds[code := k], sig, t)
  {
  }

  lemma NoSuchCell(kinds: map<int, Kind>, sig: Signature, t: Table, e: EntityId, code: int)
    requires TableFits(kinds, sig, t) && code !in kinds
    ensures CellOf(t, e, code) == None
  {
  }

  lemma TouchGet(w: World, j: Kind, e: EntityId, k: Kind)
    requires CodesOk(w.codes, w.kinds, w.nextCode) && TablesOk(w.kinds, w.storages)
    ensures Get(Touch(w, j), e, k) == Get(w, e, k)
  {
    if j !in w.codes && k == j && e in w.entities && w.entities[e].sig in w.storages {
      TouchCodes(w.codes, w.kinds, w.nextCode, j);
      NoSuchCell(w.kinds, w.entities[e].sig, w.storages[w.entities[e].sig], e, w.nextCode);
    }
  }

  lemma TouchSound(w: World, k: Kind)
    requires Sound(w)
    ensures Sound(Touch(w, k)) && k in Touch(w, k).codes
  {
    if k !in w.codes {
      TouchCodes(w.codes, w.kinds, w.nextCode, k);
      forall sig | sig in w.storages ensures TableFits(Touch(w, k).kinds, sig, w.storages[sig]) {
        TouchTable(w.kinds, sig, w.storages[sig], w.nextCode, k);
      }
    }
  }

  lemma TouchAbs(w: World, k: Kind)
    requires Sound(w)
    ensures Abs(Touch(w, k)) == Abs(w)
  {
    forall e, j ensures Get(Touch(w, k), e, j) == Get(w, e, j) { TouchGet(w, k, e, j); }
    SameAbs(w, Touch(w, k));
  }

  // ---- A storage for a signature ----

  // `_ensure_storage`.
  function Ensure(w: World, sig: Signature): World {
    if sig in w.storages then w
    else w.(registry := if sig in w.registry then w.registry else w.registry + [sig],
            storages := w.storages[sig := EmptyTable(sig)])
  }

  lemma EnsureSound(w: World, sig: Signature)
    requires Sound(w) && Ascends(sig) && forall c :: c in sig ==> c in w.kinds
    ensures Sound(Ensure(w, sig)) && sig in Ensure(w, sig).storages
  {
    if sig !in w.storages {
      EmptyTableFits(w.kinds, sig);
      EnsurePlaces(w.storages, w.entities, sig);
      EnsureRegistry(w.registry, w.storages, sig);
    }
  }

  lemma EmptyTableFits(kinds: map<int, Kind>, sig: Signature)
    requires Ascends(sig) && forall c :: c in sig ==> c in kinds
    ensures TableFits(kinds, sig, EmptyTable(sig))
  {
  }

  lemma EnsurePlaces(storages: Tables, entities: Places, sig: Signature)
    requires PlacesOk(storages, entities) && sig !in storages
    ensures PlacesOk(storages[sig := EmptyTable(sig)], entities)
  {
    var after := storages[sig := EmptyTable(sig)];
    forall e | e in entities ensures PlaceOk(after, e, entities[e]) { assert PlaceOk(storages, e, entities[e]); }
    forall s | s in after ensures Placed(entities, s, after[s]) {
      if s != sig { assert Placed(entities, s, storages[s]); }
    }
  }

  lemma EnsureRegistry(registry: seq<Signature>, storages: Tables, sig: Signature)
    requires RegistryOk(registry, storages) && sig !in storages
    ensures RegistryOk(registry + [sig], storages[sig := EmptyTable(sig)])
  {
    assert sig !in registry;
  }

  lemma EnsureAbs(w: World, sig: Signature)
    ensures Abs(Ensure(w, sig)) == Abs(w)
  {
    forall e, k ensures Get(Ensure(w, sig), e, k) == Get(w, e, k) {}
    SameAbs(w, Ensure(w, sig));
  }

  // ---- A new row ----

  function PutRow(w: World, sig: Signature, e: EntityId, values: map<int, Cell>): World
    requires sig in w.storages
  {
    var t := w.storages[sig];
    w.(storages := w.storages[sig := AddRow(t, e, values)], entities := w.entities[e := Place(sig, |t.ids|)])
  }

  // A component of the right class for every code of the signature.
  ghost predicate ValuesFit(kinds: map<int, Kind>, sig: Signature, values: map<int, Cell>) {
    forall c :: c in sig ==> c in values && c in kinds && values[c].Some? && values[c].value.kind == kinds[c]
  }

  lemma PutTable(kinds: map<int, Kind>, sig: Signature, t: Table, e: EntityId, values: map<int, Cell>)
    requires TableFits(kinds, sig, t) && e !in t.index && ValuesFit(kinds, sig, values)
    ensures TableFits(kinds, sig, AddRow(t, e, values))
  {
    AddRowContents(t, e, values);
    forall c | c in t.columns ensures ColumnFits(kinds[c], AddRow(t, e, values).columns[c]) {
      assert ColumnFits(kinds[c], t.columns[c]) && c in sig;
    }
  }

  lemma PutPlaces(storages: Tables, entities: Places, sig: Signature, e: EntityId, values: map<int, Cell>)
    requires PlacesOk(storages, entities) && sig in storages && e !in entities && TableOk(storages[sig])
    ensures e !in storages[sig].index
    ensures PlacesOk(storages[sig := AddRow(storages[sig], e, values)], entities[e := Place(sig, |storages[sig].ids|)])
  {
    var t := storages[sig];
    var after, places := storages[sig := AddRow(t, e, values)], entities[e := Place(sig, |t.ids|)];
    assert Placed(entities, sig, t);
    forall f | f in places ensures PlaceOk(after, f, places[f]) {
      if f != e { assert PlaceOk(storages, f, entities[f]); }
    }
    forall s | s in after ensures Placed(places, s, after[s]) { assert Placed(entities, s, storages[s]); }
  }

  lemma PutSound(w: World, sig: Signature, e: EntityId, values: map<int, Cell>)
    requires Sound(w) && sig in w.storages && e !in w.entities && ValuesFit(w.kinds, sig, values)
    ensures Sound(PutRow(w, sig, e, values))
  {
    var t := w.storages[sig];
    assert TableFits(w.kinds, sig, t);
    PutPlaces(w.storages, w.entities, sig, e, values);
    PutTable(w.kinds, sig, t, e, values);
  }

  lemma PutGet(w: World, sig: Signature, e: EntityId, values: map<int, Cell>, f: EntityId, k: Kind)
    requires sig in w.storages && TableOk(w.storages[sig]) && e !in w.storages[sig].index
    ensures Get(PutRow(w, sig, e, values), f, k) ==
      if f != e then Get(w, f, k)
      else if k in w.codes && w.codes[k] in w.storages[sig].columns && w.codes[k] in values then values[w.codes[k]]
      else None
  {
    AddRowContents(w.storages[sig], e, values);
  }

  // ---- A row taken out ----

  // The entity that was moved into the gap has its place corrected.
  function Moved(entities: Places, ids: seq<EntityId>, p: Place): Places
    requires ids != []
  {
    var last := |ids| - 1;
    if p.row == last then entities else entities[ids[last] := p]
  }

  predicate CanTake(w: World, e: EntityId) {
    && e in w.entities && w.entities[e].sig in w.storages
    && var t := w.storages[w.entities[e].sig]; Aligned(t) && e in t.index && 0 <= t.index[e] < |t.ids|
  }

  function TakeRow(w: World, e: EntityId): World
    requires CanTake(w, e)
  {
    var p := w.entities[e];
    var t := w.storages[p.sig];
    w.(storages := w.storages[p.sig := DropRow(t, e)], entities := Moved(w.entities, t.ids, p) - {e})
  }

  lemma SoundEntity(w: World, e: EntityId)
    requires Sound(w) && e in w.entities
    ensures CanTake(w, e)
    ensures var p := w.entities[e];
      && PlaceOk(w.storages, e, p) && Placed(w.entities, p.sig, w.storages[p.sig])
      && TableFits(w.kinds, p.sig, w.storages[p.sig])
  {
  }

  lemma TakeTable(kinds: map<int, Kind>, sig: Signature, t: Table, e: EntityId)
    requires TableFits(kinds, sig, t) && e in t.index
    ensures TableFits(kinds, sig, DropRow(t, e))
  {
    DropRowContents(t, e);
    forall c | c in t.columns ensures ColumnFits(kinds[c], SwapOut(t.columns[c], t.index[e])) {
      assert ColumnFits(kinds[c], t.columns[c]);
    }
  }

  lemma TakePlace(storages: Tables, entities: Places, e: EntityId, f: EntityId)
    requires e in entities && PlaceOk(storages, e, entities[e]) && TableOk(storages[entities[e].sig])
    requires Placed(entities, entities[e].sig, storages[entities[e].sig])
    requires f in entities && f != e && PlaceOk(storages, f, entities[f])
    ensures var p := entities[e];
      var t := storages[p.sig];
      f in Moved(entities, t.ids, p) && PlaceOk(storages[p.sig := DropRow(t, e)], f, Moved(entities, t.ids, p)[f])
  {
    var p := entities[e];
    var t := storages[p.sig];
    SwapIndexed(t.ids, t.index, e);
    assert t.ids[|t.ids| - 1] in t.index;
  }

  lemma TakePlaces(storages: Tables, entities: Places, e: EntityId)
    requires PlacesOk(storages, entities) && e in entities && TableOk(storages[entities[e].sig])
    ensures var p := entities[e];
      var t := storages[p.sig];
      PlacesOk(storages[p.sig := DropRow(t, e)], Moved(entities, t.ids, p) - {e})
  {
    var p := entities[e];
    var t := storages[p.sig];
    var after, places := storages[p.sig := DropRow(t, e)], Moved(entities, t.ids, p) - {e};
    assert PlaceOk(storages, e, p) && Placed(entities, p.sig, t);
    assert t.ids[|t.ids| - 1] in t.index;
    forall f | f in places ensures PlaceOk(after, f, places[f]) { TakePlace(storages, entities, e, f); }
    DropRowContents(t, e);
    forall s | s in after ensures Placed(places, s, after[s]) { assert Placed(entities, s, storages[s]); }
  }

  lemma TakeSound(w: World, e: EntityId)
    requires Sound(w) && e in w.entities
    ensures CanTake(w, e) && Sound(TakeRow(w, e)) && TakeRow(w, e).entities.Keys == w.entities.Keys - {e}
  {
    SoundEntity(w, e);
    TakePlaces(w.storages, w.entities, e);
    TakeTable(w.kinds, w.entities[e].sig, w.storages[w.entities[e].sig], e);
    TakeKeys(w, e);
  }

  lemma MovedKeys(entities: Places, ids: seq<EntityId>, p: Place, e: EntityId)
    requires ids != [] && ids[|ids| - 1] in entities
    ensures (Moved(entities, ids, p) - {e}).Keys == entities.Keys - {e}
  {
  }

  lemma LastPlaced(entities: Places, sig: Signature, t: Table)
    requires Placed(entities, sig, t) && Indexed(t.ids, t.index) && t.ids != []
    ensures t.ids[|t.ids| - 1] in entities && entities[t.ids[|t.ids| - 1]].sig == sig
  {
    var last := t.ids[|t.ids| - 1];
    assert last in t.index;
  }

  lemma TakeKeys(w: World, e: EntityId)
    requires Sound(w) && e in w.entities && CanTake(w, e)
    ensures TakeRow(w, e).entities.Keys == w.entities.Keys - {e}
  {
    SoundEntity(w, e);
    var p := w.entities[e];
    var t := w.storages[p.sig];
    LastPlaced(w.entities, p.sig, t);
    MovedKeys(w.entities, t.ids, p, e);
  }

  lemma TakeGet(w: World, e: EntityId, f: EntityId, k: Kind)
    requires Sound(w) && e in w.entities && CanTake(w, e)
    ensures Get(TakeRow(w, e), f, k) == if f == e then None else Get(w, f, k)
  {
    hide Sound, ColumnFits, DropRow;
    SoundEntity(w, e);
    if f in w.entities { SoundEntity(w, f); }
    var t := w.storages[w.entities[e].sig];
    assert t.ids[|t.ids| - 1] in t.index;
    DropRowContents(t, e);
  }

  // ---- Creating ----

  function TouchAll(w: World, comps: seq<Component>): World
    decreases comps
  {
    if comps == [] then w else TouchAll(Touch(w, comps[0].kind), comps[1..])
  }

  ghost predicate AllCoded(codes: map<Kind, int>, comps: seq<Component>) {
    forall i :: 0 <= i < |comps| ==> comps[i].kind in codes
  }

  function CodeOf(codes: map<Kind, int>, k: Kind): int { if k in codes then codes[k] else 0 }

  function CodeSet(codes: map<Kind, int>, comps: seq<Component>): set<int> {
    set i | 0 <= i < |comps| :: CodeOf(codes, comps[i].kind)
  }

  // `init_map`: of several components of one class the last stays.
  function InitMap(codes: map<Kind, int>, comps: seq<Component>): map<int, Cell> {
    if comps == [] then map[]
    else
      var last := comps[|comps| - 1];
      InitMap(codes, comps[..|comps| - 1])[CodeOf(codes, last.kind) := Some(last)]
  }

  function LastWins(comps: seq<Component>): Bag {
    if comps == [] then map[]
    else var last := comps[|comps| - 1]; LastWins(comps[..|comps| - 1])[last.kind := last]
  }

  lemma {:induction false} TouchAllSound(w: World, comps: seq<Component>)
    requires Sound(w)
    ensures var v := TouchAll(w, comps);
      && Sound(v) && Abs(v) == Abs(w) && AllCoded(v.codes, comps) && w.codes.Keys <= v.codes.Keys
      && v.entities == w.entities && v.alive == w.alive && v.next == w.next
    decreases comps
  {
    if comps != [] {
      TouchSound(w, comps[0].kind);
      TouchAbs(w, comps[0].kind);
      TouchAllSound(Touch(w, comps[0].kind), comps[1..]);
    }
  }

  lemma {:induction false} InitFits(codes: map<Kind, int>, kinds: map<int, Kind>, nextCode: int, comps: seq<Component>)
    requires CodesOk(codes, kinds, nextCode) && AllCoded(codes, comps)
    ensures InitMap(codes, comps).Keys == CodeSet(codes, comps)
    ensures forall c :: c in InitMap(codes, comps) ==>
      c in kinds && InitMap(codes, comps)[c].Some? && InitMap(codes, comps)[c].value.kind == kinds[c]
    decreases comps
  {
    if comps != [] {
      var front := comps[..|comps| - 1];
      InitFits(codes, kinds, nextCode, front);
      assert CodeSet(codes, comps) == CodeSet(codes, front) + {CodeOf(codes, comps[|comps| - 1].kind)};
    }
  }

  lemma {:induction false} InitLook(codes: map<Kind, int>, kinds: map<int, Kind>, nextCode: int, comps: seq<Component>, k: Kind)
    requires CodesOk(codes, kinds, nextCode) && AllCoded(codes, comps)
    ensures Look(LastWins(comps), k) ==
      if k in codes && codes[k] in InitMap(codes, comps) then InitMap(codes, comps)[codes[k]] else None
    decreases comps
  {
    if comps != [] {
      InitLook(codes, kinds, nextCode, comps[..|comps| - 1], k);
    }
  }

  // `allocate`.
  function Allocate(w: World): World { w.(next := w.next + 1, alive := w.alive + {w.next}) }

  // A row for the entity in the storage of its components' signature.
  function NewRow(v: World, e: EntityId, comps: seq<Component>): World {
    var sig := Ascending(CodeSet(v.codes, comps));
    PutRow(Ensure(v, sig), sig, e, InitMap(v.codes, comps))
  }

  /** `create_entity`; the new entity is `w.next`. */
  function Create(w: World, comps: seq<Component>): World {
    NewRow(TouchAll(Allocate(w), comps), w.next, comps)
  }

  // What a bag shows of a row's values.
  ghost predicate Describes(codes: map<Kind, int>, sig: Signature, values: map<int, Cell>, b: Bag, k: Kind) {
    Look(b, k) == if k in codes && codes[k] in sig && codes[k] in values then values[codes[k]] else None
  }

  ghost predicate DescribesAll(codes: map<Kind, int>, sig: Signature, values: map<int, Cell>, b: Bag) {
    forall k :: Describes(codes, sig, values, b, k)
  }

  ghost predicate Free(x: World, sig: Signature, e: EntityId) {
    && sig in x.storages && TableOk(x.storages[sig]) && x.storages[sig].codes == sig
    && e !in x.storages[sig].index && e !in x.entities
  }

  lemma PutDescribed(x: World, sig: Signature, e: EntityId, values: map<int, Cell>, b: Bag, k: Kind)
    requires Free(x, sig, e) && Describes(x.codes, sig, values, b, k)
    ensures Get(PutRow(x, sig, e, values), e, k) == Look(b, k)
  {
    PutGet(x, sig, e, values, e, k);
  }

  lemma PutAbs(x: World, sig: Signature, e: EntityId, values: map<int, Cell>, b: Bag)
    requires Free(x, sig, e) && DescribesAll(x.codes, sig, values, b)
    ensures Abs(PutRow(x, sig, e, values)) == Abs(x)[e := b]
  {
    var u := PutRow(x, sig, e, values);
    forall k ensures Get(u, e, k) == Look(b, k) { PutDescribed(x, sig, e, values, b, k); }
    forall f, k | f != e ensures Get(u, f, k) == Get(x, f, k) { PutGet(x, sig, e, values, f, k); }
    AbsWith(x, u, e, b);
  }

  lemma SoundFree(x: World, sig: Signature, e: EntityId)
    requires Sound(x) && sig in x.storages && e !in x.entities
    ensures Free(x, sig, e)
  {
    assert TableFits(x.kinds, sig, x.storages[sig]) && Placed(x.entities, sig, x.storages[sig]);
  }

  lemma NewEntitySound(v: World, sig: Signature, e: EntityId, values: map<int, Cell>)
    requires Sound(v) && Ascends(sig) && e !in v.entities && ValuesFit(v.kinds, sig, values)
    ensures Sound(PutRow(Ensure(v, sig), sig, e, values)) && Free(Ensure(v, sig), sig, e)
  {
    var x := Ensure(v, sig);
    EnsureSound(v, sig);
    PutSound(x, sig, e, values);
    SoundFree(x, sig, e);
  }

  lemma NewEntityAbs(v: World, sig: Signature, e: EntityId, values: map<int, Cell>, b: Bag)
    requires Free(Ensure(v, sig), sig, e) && DescribesAll(v.codes, sig, values, b)
    ensures Abs(PutRow(Ensure(v, sig), sig, e, values)) == Abs(v)[e := b]
  {
    EnsureAbs(v, sig);
    PutAbs(Ensure(v, sig), sig, e, values, b);
  }

  lemma InitDescribes(v: World, comps: seq<Component>)
    requires CodesOk(v.codes, v.kinds, v.nextCode) && AllCoded(v.codes, comps)
    ensures var sig, values := Ascending(CodeSet(v.codes, comps)), InitMap(v.codes, comps);
      ValuesFit(v.kinds, sig, values) && Ascends(sig) && DescribesAll(v.codes, sig, values, LastWins(comps))
  {
    AscendingAscends(CodeSet(v.codes, comps));
    InitFits(v.codes, v.kinds, v.nextCode, comps);
    var sig, values := Ascending(CodeSet(v.codes, comps)), InitMap(v.codes, comps);
    forall k ensures Describes(v.codes, sig, values, LastWins(comps), k) {
      InitLook(v.codes, v.kinds, v.nextCode, comps, k);
    }
  }

  lemma TouchedAll(w: World, comps: seq<Component>)
    requires WorldOk(w)
    ensures var v := TouchAll(Allocate(w), comps);
      && Sound(v) && Abs(v) == Abs(w) && AllCoded(v.codes, comps)
      && v.entities == w.entities && v.alive == w.alive + {w.next} && v.next == w.next + 1
  {
    assert Sound(Allocate(w));
    SameAbs(w, Allocate(w));
    TouchAllSound(Allocate(w), comps);
  }

  lemma CreateSound(w: World, comps: seq<Component>)
    requires WorldOk(w)
    ensures Sound(Create(w, comps))
  {
    TouchedAll(w, comps);
    var v := TouchAll(Allocate(w), comps);
    InitDescribes(v, comps);
    NewEntitySound(v, Ascending(CodeSet(v.codes, comps)), w.next, InitMap(v.codes, comps));
  }

  lemma CreateAbs(w: World, comps: seq<Component>)
    requires WorldOk(w)
    ensures Abs(Create(w, comps)) == Abs(w)[w.next := LastWins(comps)]
  {
    TouchedAll(w, comps);
    var v := TouchAll(Allocate(w), comps);
    InitDescribes(v, comps);
    var sig, values := Ascending(CodeSet(v.codes, comps)), InitMap(v.codes, comps);
    NewEntitySound(v, sig, w.next, values);
    NewEntityAbs(v, sig, w.next, values, LastWins(comps));
  }

  lemma CreateIds(w: World, comps: seq<Component>)
    requires WorldOk(w)
    ensures IdsOk(Create(w, comps)) && Create(w, comps).next == w.next + 1
  {
    TouchedAll(w, comps);
    CreatedFields(w, comps);
  }

  lemma CreatedFields(w: World, comps: seq<Component>)
    ensures var v, u := TouchAll(Allocate(w), comps), Create(w, comps);
      u.entities.Keys == v.entities.Keys + {w.next} && u.alive == v.alive && u.next == v.next
  {
  }

  /** Creating an entity adds exactly it, with the last component of each class, under a fresh id. */
  lemma CreateCorrect(w: World, comps: seq<Component>)
    requires WorldOk(w)
    ensures WorldOk(Create(w, comps)) && Create(w, comps).next == w.next + 1
    ensures w.next !in w.alive && Abs(Create(w, comps)) == Abs(w)[w.next := LastWins(comps)]
  {
    CreateSound(w, comps);
    CreateAbs(w, comps);
    CreateIds(w, comps);
  }

  // ---- Destroying ----

  lemma Takeable(w: World, e: EntityId)
    requires Sound(w)
    ensures CanTake(w, e) <==> e in w.entities
  {
    if e in w.entities { SoundEntity(w, e); }
  }

  /** `destroy_entity`: an unknown id changes nothing. */
  function Destroy(w: World, e: EntityId): World {
    if !CanTake(w, e) then w else var v := TakeRow(w, e); v.(alive := v.alive - {e})
  }

  lemma TakeAbs(w: World, e: EntityId)
    requires Sound(w) && e in w.entities && CanTake(w, e)
    ensures Abs(TakeRow(w, e)) == Abs(w) - {e}
  {
    var v := TakeRow(w, e);
    TakeKeys(w, e);
    forall f, k | f != e ensures Get(v, f, k) == Get(w, f, k) { TakeGet(w, e, f, k); }
    AbsWithout(w, v, e);
  }

  lemma DestroySound(w: World, e: EntityId)
    requires WorldOk(w) && e in w.entities
    ensures WorldOk(Destroy(w, e))
  {
    TakeSound(w, e);
  }

  lemma DestroyAbs(w: World, e: EntityId)
    requires Sound(w) && e in w.entities && CanTake(w, e)
    ensures Abs(Destroy(w, e)) == Abs(w) - {e}
  {
    TakeAbs(w, e);
    SameAbs(TakeRow(w, e), Destroy(w, e));
  }

  /** Destroying an entity removes exactly it, whichever row it had and whichever entity filled the gap. */
  lemma DestroyCorrect(w: World, e: EntityId)
    requires WorldOk(w)
    ensures WorldOk(Destroy(w, e)) && Abs(Destroy(w, e)) == Abs(w) - {e} && Destroy(w, e).next == w.next
  {
    Takeable(w, e);
    if e in w.entities {
      DestroySound(w, e);
      DestroyAbs(w, e);
    }
  }

  // ---- Adding and removing components ----

  // From one archetype to another.
  function Move(w: World, e: EntityId, sig: Signature, values: map<int, Cell>): World
    requires CanTake(w, e)
  {
    PutRow(TakeRow(Ensure(w, sig), e), sig, e, values)
  }

  lemma MoveSound(w: World, e: EntityId, sig: Signature, values: map<int, Cell>)
    requires Sound(w) && e in w.entities && Ascends(sig) && ValuesFit(w.kinds, sig, values)
    ensures CanTake(w, e) && Sound(Move(w, e, sig, values))
  {
    SoundEntity(w, e);
    var x := Ensure(w, sig);
    EnsureSound(w, sig);
    TakeSound(x, e);
    PutSound(TakeRow(x, e), sig, e, values);
  }

  lemma MoveFree(w: World, e: EntityId, sig: Signature)
    requires Sound(w) && e in w.entities && Ascends(sig) && forall c :: c in sig ==> c in w.kinds
    ensures CanTake(Ensure(w, sig), e) && Free(TakeRow(Ensure(w, sig), e), sig, e)
    ensures Abs(TakeRow(Ensure(w, sig), e)) == Abs(w) - {e}
  {
    var x := Ensure(w, sig);
    EnsureSound(w, sig);
    EnsureAbs(w, sig);
    TakeSound(x, e);
    TakeAbs(x, e);
    SoundFree(TakeRow(x, e), sig, e);
  }

  lemma MoveAbs(w: World, e: EntityId, sig: Signature, values: map<int, Cell>, b: Bag)
    requires e in w.entities && CanTake(w, e) && CanTake(Ensure(w, sig), e)
    requires Free(TakeRow(Ensure(w, sig), e), sig, e)
    requires Abs(TakeRow(Ensure(w, sig), e)) == Abs(w) - {e}
    requires DescribesAll(w.codes, sig, values, b)
    ensures Abs(Move(w, e, sig, values)) == Abs(w)[e := b]
  {
    PutAbs(TakeRow(Ensure(w, sig), e), sig, e, values, b);
  }

  // Overwriting in place.
  function Overwrite(w: World, e: EntityId, code: int, c: Component): World
    requires CanTake(w, e) && code in w.storages[w.entities[e].sig].columns
  {
    var sig := w.entities[e].sig;
    w.(storages := w.storages[sig := SetCell(w.storages[sig], e, code, c)])
  }

  lemma SetTable(kinds: map<int, Kind>, sig: Signature, t: Table, e: EntityId, code: int, c: Component)
    requires TableFits(kinds, sig, t) && e in t.index && code in t.columns && c.kind == kinds[code]
    ensures TableFits(kinds, sig, SetCell(t, e, code, c))
  {
    SetCellContents(t, e, code, c);
    assert ColumnFits(kinds[code], t.columns[code]);
  }

  lemma OverwriteSound(w: World, e: EntityId, c: Component)
    requires Sound(w) && e in w.entities && CanTake(w, e) && c.kind in w.codes
    requires w.codes[c.kind] in w.storages[w.entities[e].sig].columns
    ensures Sound(Overwrite(w, e, w.codes[c.kind], c))
  {
    var p := w.entities[e];
    var v := Overwrite(w, e, w.codes[c.kind], c);
    SoundEntity(w, e);
    SetTable(w.kinds, p.sig, w.storages[p.sig], e, w.codes[c.kind], c);
    forall f | f in v.entities ensures PlaceOk(v.storages, f, v.entities[f]) { assert PlaceOk(w.storages, f, w.entities[f]); }
    forall s | s in v.storages ensures Placed(v.entities, s, v.storages[s]) { assert Placed(w.entities, s, w.storages[s]); }
  }

  lemma OverwriteGet(w: World, e: EntityId, c: Component, f: EntityId, k: Kind)
    requires Sound(w) && e in w.entities && CanTake(w, e) && c.kind in w.codes
    requires w.codes[c.kind] in w.storages[w.entities[e].sig].columns
    ensures Get(Overwrite(w, e, w.codes[c.kind], c), f, k) == if f == e && k == c.kind then Some(c) else Get(w, f, k)
  {
    SoundEntity(w, e);
    SetCellContents(w.storages[w.entities[e].sig], e, w.codes[c.kind], c);
  }

  lemma OverwriteAbs(w: World, e: EntityId, c: Component)
    requires Sound(w) && e in w.entities && CanTake(w, e) && c.kind in w.codes
    requires w.codes[c.kind] in w.storages[w.entities[e].sig].columns
    ensures Abs(Overwrite(w, e, w.codes[c.kind], c)) == Abs(w)[e := BagOf(w, e)[c.kind := c]]
  {
    var v := Overwrite(w, e, w.codes[c.kind], c);
    forall f, k ensures Get(v, f, k) == if f == e && k == c.kind then Some(c) else Get(w, f, k) { OverwriteGet(w, e, c, f, k); }
    forall k ensures Get(v, e, k) == Look(BagOf(w, e)[c.kind := c], k) { LookBag(w, e, k); }
    AbsWith(w, v, e, BagOf(w, e)[c.kind := c]);
  }

  /** `add_component`: overwrite in place, or move to the archetype with the component; an unknown id changes nothing. */
  function Add(w: World, e: EntityId, c: Component): World {
    if !CanTake(w, e) then w
    else
      var v := Touch(w, c.kind);
      var code, sig := CodeOf(v.codes, c.kind), w.entities[e].sig;
      if code in v.storages[sig].columns then Overwrite(v, e, code, c)
      else Move(v, e, With(sig, code), Row(v.storages[sig], e)[code := Some(c)])
  }

  /** `remove_component`: an unknown id or a missing component changes no entity. */
  function Remove(w: World, e: EntityId, k: Kind): World {
    if !CanTake(w, e) then w
    else
      var v := Touch(w, k);
      var code, sig := CodeOf(v.codes, k), w.entities[e].sig;
      if code !in v.storages[sig].columns then v
      else Move(v, e, Without(sig, code), Row(v.storages[sig], e) - {code})
  }

  lemma RowFits(kinds: map<int, Kind>, sig: Signature, t: Table, e: EntityId)
    requires TableFits(kinds, sig, t) && e in t.index
    ensures ValuesFit(kinds, sig, Row(t, e))
  {
    forall c | c in sig ensures c in kinds && CellOf(t, e, c).Some? && CellOf(t, e, c).value.kind == kinds[c] {
      assert ColumnFits(kinds[c], t.columns[c]);
    }
  }

  // What an entity's bag shows is what its row holds.
  lemma RowDescribes(w: World, e: EntityId)
    requires Sound(w) && e in w.entities && CanTake(w, e)
    ensures var sig := w.entities[e].sig; DescribesAll(w.codes, sig, Row(w.storages[sig], e), BagOf(w, e))
  {
    var sig := w.entities[e].sig;
    SoundEntity(w, e);
    forall k ensures Describes(w.codes, sig, Row(w.storages[sig], e), BagOf(w, e), k) { LookBag(w, e, k); }
  }

  lemma AddDescribes(codes: map<Kind, int>, kinds: map<int, Kind>, nextCode: int, sig: Signature, row: map<int, Cell>,
                     b: Bag, c: Component)
    requires CodesOk(codes, kinds, nextCode) && c.kind in codes && DescribesAll(codes, sig, row, b) && row.Keys == Codes(sig)
    ensures DescribesAll(codes, With(sig, codes[c.kind]), row[codes[c.kind] := Some(c)], b[c.kind := c])
  {
    WithMembers(sig, codes[c.kind]);
    DescribesMore(codes, kinds, nextCode, sig, With(sig, codes[c.kind]), row, b, c);
  }

  lemma DescribesMore(codes: map<Kind, int>, kinds: map<int, Kind>, nextCode: int, sig: Signature, larger: Signature,
                      row: map<int, Cell>, b: Bag, c: Component)
    requires CodesOk(codes, kinds, nextCode) && c.kind in codes && DescribesAll(codes, sig, row, b) && row.Keys == Codes(sig)
    requires forall x :: x in larger <==> x in sig || x == codes[c.kind]
    ensures DescribesAll(codes, larger, row[codes[c.kind] := Some(c)], b[c.kind := c])
  {
    var row': map<int, Cell>, b': Bag := row[codes[c.kind] := Some(c)], b[c.kind := c];
    forall k: Kind ensures Describes(codes, larger, row', b', k) {
      assert Describes(codes, sig, row, b, k);
    }
  }

  lemma WithMembers(sig: Signature, code: int)
    ensures forall c :: c in With(sig, code) <==> c in sig || c == code
  {
    IntLeIsTotalOrder();
    SortCorrect(sig + [code], IntLe);
    forall c ensures c in Sort(sig + [code], IntLe) <==> c in sig + [code] {
      assert c in multiset(sig + [code]) <==> c in sig + [code];
    }
  }

  lemma RemoveDescribes(codes: map<Kind, int>, kinds: map<int, Kind>, nextCode: int, sig: Signature, row: map<int, Cell>,
                        b: Bag, j: Kind)
    requires CodesOk(codes, kinds, nextCode) && j in codes && DescribesAll(codes, sig, row, b) && row.Keys == Codes(sig)
    ensures DescribesAll(codes, Without(sig, codes[j]), row - {codes[j]}, b - {j})
  {
    var code := codes[j];
    WithoutMembers(sig, code);
    forall k ensures Describes(codes, Without(sig, code), row - {code}, b - {j}, k) {
      assert Describes(codes, sig, row, b, k);
    }
  }

  lemma WithAscends(sig: Signature, code: int)
    requires Ascends(sig)
    ensures Ascends(With(sig, code))
  {
    WithNormal(sig, code);
    AscendingAscends(Codes(sig) + {code});
  }

  lemma WithFits(kinds: map<int, Kind>, sig: Signature, row: map<int, Cell>, code: int, c: Component)
    requires ValuesFit(kinds, sig, row) && code in kinds && kinds[code] == c.kind
    ensures ValuesFit(kinds, With(sig, code), row[code := Some(c)])
  {
    WithMembers(sig, code);
  }

  lemma WithoutFits(kinds: map<int, Kind>, sig: Signature, row: map<int, Cell>, code: int)
    requires Ascends(sig) && ValuesFit(kinds, sig, row)
    ensures Ascends(Without(sig, code)) && ValuesFit(kinds, Without(sig, code), row - {code})
  {
    WithoutMembers(sig, code);
  }

  lemma AddMoveFits(v: World, e: EntityId, c: Component)
    requires Sound(v) && e in v.entities && CanTake(v, e) && c.kind in v.codes
    ensures var sig, code := v.entities[e].sig, v.codes[c.kind];
      var values := Row(v.storages[sig], e)[code := Some(c)];
      && Ascends(With(sig, code)) && ValuesFit(v.kinds, With(sig, code), values)
      && DescribesAll(v.codes, With(sig, code), values, BagOf(v, e)[c.kind := c])
  {
    var sig := v.entities[e].sig;
    SoundEntity(v, e);
    RowFits(v.kinds, sig, v.storages[sig], e);
    WithAscends(sig, v.codes[c.kind]);
    WithFits(v.kinds, sig, Row(v.storages[sig], e), v.codes[c.kind], c);
    RowDescribes(v, e);
    AddDescribes(v.codes, v.kinds, v.nextCode, sig, Row(v.storages[sig], e), BagOf(v, e), c);
  }

  lemma RemoveMoveFits(v: World, e: EntityId, j: Kind)
    requires Sound(v) && e in v.entities && CanTake(v, e) && j in v.codes
    ensures var sig, code := v.entities[e].sig, v.codes[j];
      var values := Row(v.storages[sig], e) - {code};
      && Ascends(Without(sig, code)) && ValuesFit(v.kinds, Without(sig, code), values)
      && DescribesAll(v.codes, Without(sig, code), values, BagOf(v, e) - {j})
  {
    var sig := v.entities[e].sig;
    SoundEntity(v, e);
    RowFits(v.kinds, sig, v.storages[sig], e);
    WithoutFits(v.kinds, sig, Row(v.storages[sig], e), v.codes[j]);
    RowDescribes(v, e);
    RemoveDescribes(v.codes, v.kinds, v.nextCode, sig, Row(v.storages[sig], e), BagOf(v, e), j);
  }

  // ---- The same operations on the plain map ----

  function AddTo(m: Entities, e: EntityId, c: Component): Entities {
    if e in m then m[e := m[e][c.kind := c]] else m
  }

  function RemoveFrom(m: Entities, e: EntityId, k: Kind): Entities {
    if e in m then m[e := m[e] - {k}] else m
  }

  lemma MoveCorrect(v: World, e: EntityId, sig: Signature, values: map<int, Cell>, b: Bag)
    requires Sound(v) && e in v.entities && Ascends(sig) && ValuesFit(v.kinds, sig, values)
    requires DescribesAll(v.codes, sig, values, b)
    ensures CanTake(v, e) && Sound(Move(v, e, sig, values))
    ensures Abs(Move(v, e, sig, values)) == Abs(v)[e := b]
  {
    MoveSound(v, e, sig, values);
    MoveFree(v, e, sig);
    MoveAbs(v, e, sig, values, b);
  }

  lemma MoveKeeps(v: World, e: EntityId, sig: Signature, values: map<int, Cell>)
    requires Sound(v) && e in v.entities && CanTake(v, e)
    ensures var u := Move(v, e, sig, values);
      u.entities.Keys == v.entities.Keys && u.alive == v.alive && u.next == v.next
  {
    SoundEntity(v, e);
    var t := v.storages[v.entities[e].sig];
    LastPlaced(v.entities, v.entities[e].sig, t);
    MovedKeys(v.entities, t.ids, v.entities[e], e);
  }

  lemma AddAt(v: World, e: EntityId, c: Component)
    requires Sound(v) && e in v.entities && CanTake(v, e) && c.kind in v.codes
    ensures var u := Add(v, e, c);
      && Sound(u) && Abs(u) == Abs(v)[e := BagOf(v, e)[c.kind := c]]
      && u.entities.Keys == v.entities.Keys && u.alive == v.alive && u.next == v.next
  {
    var code, sig := v.codes[c.kind], v.entities[e].sig;
    if code in v.storages[sig].columns {
      OverwriteSound(v, e, c);
      OverwriteAbs(v, e, c);
    } else {
      AddMoveFits(v, e, c);
      var values := Row(v.storages[sig], e)[code := Some(c)];
      MoveCorrect(v, e, With(sig, code), values, BagOf(v, e)[c.kind := c]);
      MoveKeeps(v, e, With(sig, code), values);
    }
  }

  lemma RemoveAt(v: World, e: EntityId, k: Kind)
    requires Sound(v) && e in v.entities && CanTake(v, e) && k in v.codes
    ensures var u := Remove(v, e, k);
      && Sound(u) && Abs(u) == Abs(v)[e := BagOf(v, e) - {k}]
      && u.entities.Keys == v.entities.Keys && u.alive == v.alive && u.next == v.next
  {
    var code, sig := v.codes[k], v.entities[e].sig;
    if code in v.storages[sig].columns {
      RemoveMoveFits(v, e, k);
      var values := Row(v.storages[sig], e) - {code};
      MoveCorrect(v, e, Without(sig, code), values, BagOf(v, e) - {k});
      MoveKeeps(v, e, Without(sig, code), values);
    } else {
      assert Get(v, e, k) == None;
      assert BagOf(v, e) - {k} == BagOf(v, e);
    }
  }

  lemma IdsKept(w: World, u: World)
    requires IdsOk(w) && u.entities.Keys == w.entities.Keys && u.alive == w.alive && u.next == w.next
    ensures IdsOk(u)
  {
  }

  /** Adding a component sets it on that entity alone, whether in place or through a move. */
  lemma AddCorrect(w: World, e: EntityId, c: Component)
    requires WorldOk(w)
    ensures WorldOk(Add(w, e, c)) && Abs(Add(w, e, c)) == AddTo(Abs(w), e, c) && Add(w, e, c).next == w.next
  {
    Takeable(w, e);
    if e in w.entities {
      var v := Touch(w, c.kind);
      TouchSound(w, c.kind);
      TouchAbs(w, c.kind);
      AddAt(v, e, c);
      IdsKept(w, Add(v, e, c));
    }
  }

  /** Removing a component takes it from that entity alone. */
  lemma RemoveCorrect(w: World, e: EntityId, k: Kind)
    requires WorldOk(w)
    ensures WorldOk(Remove(w, e, k)) && Abs(Remove(w, e, k)) == RemoveFrom(Abs(w), e, k) && Remove(w, e, k).next == w.next
  {
    Takeable(w, e);
    if e in w.entities {
      var v := Touch(w, k);
      TouchSound(w, k);
      TouchAbs(w, k);
      RemoveAt(v, e, k);
      IdsKept(w, Remove(v, e, k));
    }
  }

  /** Looking a class up may give it a code, and changes nothing else. */
  lemma TouchCorrect(w: World, k: Kind)
    requires WorldOk(w)
    ensures WorldOk(Touch(w, k)) && Abs(Touch(w, k)) == Abs(w) && Touch(w, k).next == w.next
  {
    TouchSound(w, k);
    TouchAbs(w, k);
    IdsKept(w, Touch(w, k));
  }
}
