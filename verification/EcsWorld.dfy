/** The ECS world as objects that change in place: `ecs/world.py`, `ecs/entity.py`, `ecs/archetype.py`. */
module EcsWorld {
  import opened Json
  import opened Ordering
  import opened Storages
  import opened Ecs
  import opened Queries
  import opened EcsRuns

  /** Ids are handed out in ascending order and never again. */
  class EntityAllocator {
    var nextId: EntityId
    var alive: set<EntityId>

    constructor ()
      ensures nextId == 1 && alive == {}
    {
      nextId, alive := 1, {};
    }

    method Allocate() returns (e: EntityId)
      modifies this
      ensures e == old(nextId) && nextId == e + 1 && alive == old(alive) + {e}
    {
      e := nextId;
      alive := alive + {e};
      nextId := e + 1;
    }

    method Destroy(e: EntityId)
      modifies this`alive
      ensures alive == old(alive) - {e}
    {
      alive := alive - {e};
    }
  }

  // Each signature's number is its position.
  ghost predicate Numbered(signatures: seq<Signature>, idOf: map<Signature, int>) {
    match |signatures|
    case n =>
      && (forall s :: s in idOf ==> 0 <= idOf[s] < n && signatures[idOf[s]] == s)
      && (forall i :: 0 <= i < n ==> signatures[i] in idOf && idOf[signatures[i]] == i)
  }

  /** Signatures numbered in the order they were first seen. */
  class ArchetypeRegistry {
    var idOf: map<Signature, int>
    var signatures: seq<Signature>

    ghost predicate Valid()
      reads this
    {
      Numbered(signatures, idOf)
    }

    constructor ()
      ensures Valid() && signatures == []
    {
      idOf, signatures := map[], [];
    }

    /** An id once given stays; a new signature gets the next one. */
    method GetOrRegister(s: Signature) returns (id: int)
      requires Valid()
      modifies this
      ensures Valid() && signatures == (if s in old(signatures) then old(signatures) else old(signatures) + [s])
      ensures 0 <= id < |signatures| && signatures[id] == s
    {
      if s in idOf { return idOf[s]; }
      id := |signatures|;
      idOf := idOf[s := id];
      signatures := signatures + [s];
    }

    method GetSignature(id: int) returns (s: Option<Signature>)
      ensures s == if 0 <= id < |signatures| then Some(signatures[id])
                   else if -|signatures| <= id < 0 then Some(signatures[id + |signatures|]) else None
    {
      if 0 <= id < |signatures| { return Some(signatures[id]); }
      // A negative index counts from the end of the list.
      if -|signatures| <= id < 0 { return Some(signatures[id + |signatures|]); }
      s := None;
    }
  }

  ghost predicate Holds(st: ArchetypeStorage, sig: Signature, t: Table)
    reads st
  {
    st.codes == sig && st.State() == t
  }

  function Find(w: World, e: EntityId): Option<Place> { if e in w.entities then Some(w.entities[e]) else None }

  // The entity's row can be taken out.
  ghost predicate Ready(w: World, e: EntityId) {
    match Find(w, e)
    case None => false
    case Some(p) => CanTake(w, e) && TableOk(w.storages[p.sig]) && p.row == w.storages[p.sig].index[e]
  }

  lemma SoundReady(w: World, e: EntityId)
    requires WorldOk(w) && e in w.entities
    ensures Ready(w, e)
  {
    SoundEntity(w, e);
  }

  lemma ReadyEnsure(w: World, e: EntityId, sig: Signature)
    requires Ready(w, e)
    ensures Ready(Ensure(w, sig), e)
    ensures Ensure(w, sig).storages[w.entities[e].sig] == w.storages[w.entities[e].sig]
    ensures sig in Ensure(w, sig).storages && Ensure(w, sig).entities == w.entities
  {
  }

  // A row for the entity can be added under the signature.
  ghost predicate Clear(tables: Tables, sig: Signature, e: EntityId) {
    sig in tables ==> TableOk(tables[sig]) && e !in tables[sig].index
  }

  ghost predicate AllClear(tables: Tables, e: EntityId) { forall sig :: sig in tables ==> Clear(tables, sig, e) }

  lemma EmptyIsClear(sig: Signature, e: EntityId)
    requires Ascends(sig)
    ensures TableOk(EmptyTable(sig)) && e !in EmptyTable(sig).index
  {
  }

  lemma EnsureAllClear(w: World, sig: Signature, e: EntityId)
    requires AllClear(w.storages, e) && Ascends(sig)
    ensures AllClear(Ensure(w, sig).storages, e)
  {
    EmptyIsClear(sig, e);
    forall s | s in Ensure(w, sig).storages ensures Clear(Ensure(w, sig).storages, s, e) {
      assert s in w.storages ==> Clear(w.storages, s, e);
    }
  }

  lemma ClearNext(w: World)
    requires WorldOk(w)
    ensures AllClear(w.storages, w.next)
  {
    forall sig | sig in w.storages ensures Clear(w.storages, sig, w.next) {
      assert TableFits(w.kinds, sig, w.storages[sig]) && Placed(w.entities, sig, w.storages[sig]);
    }
  }

  lemma TakeRowIs(w: World, e: EntityId, tables: Tables, entities: Places)
    requires CanTake(w, e) && tables == w.storages[w.entities[e].sig := DropRow(w.storages[w.entities[e].sig], e)]
    requires entities == Moved(w.entities, w.storages[w.entities[e].sig].ids, w.entities[e]) - {e}
    ensures TakeRow(w, e) == w.(storages := tables, entities := entities)
  {
  }

  // The entity can be taken out, and then no storage has it.
  ghost predicate Alone(w: World, e: EntityId) {
    Ready(w, e) && forall sig :: sig in w.storages && sig != w.entities[e].sig ==> Clear(w.storages, sig, e)
  }

  lemma SoundAlone(w: World, e: EntityId)
    requires WorldOk(w) && e in w.entities
    ensures Alone(w, e)
  {
    SoundReady(w, e);
    forall sig | sig in w.storages && sig != w.entities[e].sig ensures Clear(w.storages, sig, e) {
      assert TableFits(w.kinds, sig, w.storages[sig]) && Placed(w.entities, sig, w.storages[sig]);
    }
  }

  lemma EnsureClear(w: World, e: EntityId, sig: Signature)
    requires Alone(w, e) && Ascends(sig)
    ensures Alone(Ensure(w, sig), e)
  {
    ReadyEnsure(w, e, sig);
    EmptyIsClear(sig, e);
  }

  lemma TakenIsClear(w: World, e: EntityId)
    requires Alone(w, e)
    ensures AllClear(TakeRow(w, e).storages, e)
  {
    var t := w.storages[w.entities[e].sig];
    DropRowContents(t, e);
  }

  // Which way a change to an entity's components goes.
  datatype Way = InPlace | Relocate | Stuck

  ghost function AddWay(w: World, e: EntityId, c: Component): Way {
    if e !in w.entities || c.kind !in w.codes || !Alone(w, e) then Stuck
    else
      var sig, code := w.entities[e].sig, w.codes[c.kind];
      if code in sig then
        if code in w.storages[sig].columns && Add(w, e, c) == Overwrite(w, e, code, c) then InPlace else Stuck
      else if Ascends(With(sig, code))
        && Add(w, e, c) == Move(w, e, With(sig, code), Row(w.storages[sig], e)[code := Some(c)]) then Relocate
      else Stuck
  }

  ghost function RemoveWay(w: World, e: EntityId, k: Kind): Way {
    if e !in w.entities || k !in w.codes || !Alone(w, e) then Stuck
    else
      var sig, code := w.entities[e].sig, w.codes[k];
      if code !in sig then
        if Remove(w, e, k) == w then InPlace else Stuck
      else if Ascends(Without(sig, code))
        && Remove(w, e, k) == Move(w, e, Without(sig, code), Row(w.storages[sig], e) - {code}) then Relocate
      else Stuck
  }

  lemma AddIs(w: World, e: EntityId, c: Component)
    requires WorldOk(w) && e in w.entities && c.kind in w.codes
    ensures AddWay(w, e, c) != Stuck
  {
    var sig, code := w.entities[e].sig, w.codes[c.kind];
    SoundReady(w, e);
    assert TableFits(w.kinds, sig, w.storages[sig]);
    SoundAlone(w, e);
    if code !in sig { WithAscends(sig, code); }
  }

  lemma RemoveIs(w: World, e: EntityId, k: Kind)
    requires WorldOk(w) && e in w.entities && k in w.codes
    ensures RemoveWay(w, e, k) != Stuck
  {
    var sig, code := w.entities[e].sig, w.codes[k];
    SoundReady(w, e);
    assert TableFits(w.kinds, sig, w.storages[sig]);
    SoundAlone(w, e);
    if code in sig { WithoutMembers(sig, code); }
  }

  // Giving the class its code first makes no difference, and leaves a sound world.
  lemma AddTouched(w: World, e: EntityId, c: Component)
    requires WorldOk(w) && e in w.entities
    ensures AddWay(Touch(w, c.kind), e, c) != Stuck && Add(Touch(w, c.kind), e, c) == Add(w, e, c)
  {
    SoundReady(w, e);
    TouchCorrect(w, c.kind);
    AddIs(Touch(w, c.kind), e, c);
  }

  lemma RemoveTouched(w: World, e: EntityId, k: Kind)
    requires WorldOk(w) && e in w.entities
    ensures RemoveWay(Touch(w, k), e, k) != Stuck && Remove(Touch(w, k), e, k) == Remove(w, e, k)
  {
    SoundReady(w, e);
    TouchCorrect(w, k);
    RemoveIs(Touch(w, k), e, k);
  }

  // The answers of `has_component` and `get_component`, read off codes and columns.
  function Has(w: World, e: EntityId, k: Kind): bool {
    e in w.entities && CodeOf(Touch(w, k).codes, k) in w.entities[e].sig
  }

  function Fetch(w: World, e: EntityId, k: Kind): Cell {
    if Has(w, e, k) && w.entities[e].sig in w.storages
    then CellOf(w.storages[w.entities[e].sig], e, CodeOf(Touch(w, k).codes, k)) else None
  }

  /** Both answers are those of the plain map. */
  lemma HasMeans(w: World, e: EntityId, k: Kind)
    requires WorldOk(w) && e in w.entities
    ensures Has(w, e, k) <==> k in Abs(w)[e]
    ensures Fetch(w, e, k) == Look(Abs(w)[e], k)
  {
    SoundEntity(w, e);
    TouchSound(w, k);
    TouchGet(w, k, e, k);
    LookBag(w, e, k);
    var p, v := w.entities[e], Touch(w, k);
    if Has(w, e, k) {
      assert TableFits(v.kinds, p.sig, v.storages[p.sig]);
      assert ColumnFits(v.kinds[v.codes[k]], v.storages[p.sig].columns[v.codes[k]]);
    }
  }

  // Whatever has been asked before, the entity's answers are those of the bag.
  ghost predicate Answerable(base: World, e: EntityId, b: Bag) {
    forall asked, k :: Answers1(Learn(base, asked), e, k, b)
  }

  ghost predicate Answers1(w: World, e: EntityId, k: Kind, b: Bag) {
    Ready(w, e) && (Has(w, e, k) <==> k in b) && Fetch(w, e, k) == Look(b, k)
  }

  lemma GoodAnswers(base: GoodWorld, e: EntityId)
    requires e in base.entities
    ensures Answerable(base, e, Abs(base)[e])
  {
    forall asked, k ensures Answers1(Learn(base, asked), e, k, Abs(base)[e]) {
      LearnCorrect(base, asked);
      SoundReady(Learn(base, asked), e);
      HasMeans(Learn(base, asked), e, k);
    }
  }

  ghost predicate AllAnswerable(base: World, m: Entities) { forall e :: e in m ==> Answerable(base, e, m[e]) }

  lemma GoodAnswersAll(base: GoodWorld)
    ensures AllAnswerable(base, Abs(base)) && Abs(base).Keys == base.entities.Keys
  {
    forall e | e in base.entities ensures Answerable(base, e, Abs(base)[e]) { GoodAnswers(base, e); }
  }

  lemma DestroyIntact(w: World, e: EntityId)
    requires Audit(w) == Intact
    ensures Audit(Destroy(w, e)) == Intact && (e in w.entities ==> Ready(w, e))
    ensures e !in w.entities ==> Destroy(w, e) == w
  {
    DestroyCorrect(w, e);
    if e in w.entities { SoundReady(w, e); }
  }

  class ECSWorld {
    const allocator: EntityAllocator
    const registry: ArchetypeRegistry
    var storages: map<Signature, ArchetypeStorage>
    var entities: Places
    var typeToCode: map<Kind, int>
    var codeToType: map<int, Kind>
    var nextTypeCode: int

    // The contents of the storages, as values.
    ghost var tables: Tables

    // The storages this world has made.
    ghost var repr: set<ArchetypeStorage>

    // Each signature's storage is its own and holds what `tables` says.
    ghost predicate Mirrors()
      reads this`storages, this`tables, this`repr, repr
    {
      && tables.Keys == storages.Keys
      && forall s :: s in storages ==> storages[s] in repr && Holds(storages[s], s, tables[s])
    }

    ghost function State(): World
      reads this, allocator, registry
    {
      World(allocator.nextId, allocator.alive, registry.signatures, typeToCode, codeToType, nextTypeCode, tables, entities)
    }

    ghost predicate Consistent()
      reads this, registry, repr
    {
      Mirrors() && registry.Valid()
    }

    // The storages made since are new objects.
    twostate predicate Grown()
      reads this`repr
    {
      forall st :: st in repr ==> st in old(repr) || fresh(st)
    }

    /** The objects agree with each other, and the world they make up is sound. */
    ghost predicate Valid()
      reads this, allocator, registry, repr
    {
      Consistent() && Audit(State()) == Intact
    }

    constructor ()
      ensures Valid() && State() == EMPTY && fresh(allocator) && fresh(registry) && repr == {}
    {
      allocator := new EntityAllocator();
      registry := new ArchetypeRegistry();
      storages, entities, tables, repr := map[], map[], map[], {};
      typeToCode, codeToType, nextTypeCode := map[], map[], 1;
      EmptyOk();
    }

    method GetTypeCode(k: Kind) returns (code: int)
      modifies this`typeToCode, this`codeToType, this`nextTypeCode
      ensures State() == Touch(old(State()), k) && k in typeToCode && code == typeToCode[k]
    {
      if k in typeToCode { return typeToCode[k]; }
      code := nextTypeCode;
      nextTypeCode := code + 1;
      typeToCode := typeToCode[k := code];
      codeToType := codeToType[code := k];
    }

    method NewStorage(sig: Signature) returns (st: ArchetypeStorage)
      requires Ascends(sig)
      ensures fresh(st) && Holds(st, sig, EmptyTable(sig))
    {
      NormalForm(sig, 0);
      st := new ArchetypeStorage(sig);
    }

    method AddStorage(sig: Signature) returns (st: ArchetypeStorage)
      requires Mirrors() && Ascends(sig) && sig !in storages
      modifies this`storages, this`tables, this`repr
      ensures Mirrors() && fresh(st) && storages == old(storages)[sig := st] && repr == old(repr) + {st}
      ensures tables == old(tables)[sig := EmptyTable(sig)]
    {
      st := NewStorage(sig);
      storages := storages[sig := st];
      tables := tables[sig := EmptyTable(sig)];
      repr := repr + {st};
    }

    method EnsureStorage(sig: Signature)
      requires Consistent() && Ascends(sig)
      modifies this`storages, this`tables, this`repr, registry
      ensures Consistent() && State() == Ensure(old(State()), sig)
      ensures sig in storages && Grown()
    {
      if sig !in storages {
        var id := registry.GetOrRegister(sig);
        var st := AddStorage(sig);
      }
    }

    method AddRowTo(sig: Signature, e: EntityId, values: map<int, Cell>)
      requires Mirrors() && sig in storages && AllClear(tables, e)
      modifies storages[sig], this`entities, this`tables
      ensures Mirrors() && State() == PutRow(old(State()), sig, e, values)
    {
      assert Clear(tables, sig, e);
      var row := storages[sig].AddEntity(e, values);
      tables := tables[sig := storages[sig].State()];
      entities := entities[e := Place(sig, row.value)];
    }

    method TakeRowFrom(e: EntityId) returns (values: map<int, Cell>)
      requires Ready(State(), e) && Mirrors()
      modifies storages[entities[e].sig], this`entities, this`tables
      ensures Mirrors() && State() == TakeRow(old(State()), e) && values == Row(old(tables[entities[e].sig]), e)
    {
      var p := entities[e];
      var ids := storages[p.sig].entityIds;
      values := RemoveFrom(p.sig, e);
      Displace(e, p, ids);
      TakeRowIs(old(State()), e, tables, entities);
    }

    // The entity leaves the index, and the one swapped into its row, if any, is corrected.
    method Displace(e: EntityId, p: Place, ids: seq<EntityId>)
      requires ids != []
      modifies this`entities
      ensures entities == Moved(old(entities), ids, p) - {e}
    {
      var last := |ids| - 1;
      if p.row != last { entities := entities[ids[last] := p]; }
      entities := entities - {e};
    }

    method RemoveFrom(sig: Signature, e: EntityId) returns (values: map<int, Cell>)
      requires Mirrors() && sig in storages && TableOk(tables[sig]) && e in tables[sig].index
      modifies storages[sig], this`tables
      ensures Mirrors() && tables == old(tables)[sig := DropRow(old(tables[sig]), e)] && values == Row(old(tables[sig]), e)
    {
      var taken := storages[sig].RemoveEntity(e);
      values := taken.value;
      tables := tables[sig := storages[sig].State()];
    }

    // ---- Entities ----

    // `_signature_from_types` and the codes behind it.
    method TouchTypes(comps: seq<Component>)
      modifies this`typeToCode, this`codeToType, this`nextTypeCode
      ensures State() == TouchAll(old(State()), comps)
    {
      for i := 0 to |comps|
        invariant TouchAll(State(), comps[i..]) == TouchAll(old(State()), comps)
      {
        var code := GetTypeCode(comps[i].kind);
        assert comps[i..][1..] == comps[i + 1..];
      }
    }

    // `_ensure_storage`, then a new row there.
    method PutIn(sig: Signature, e: EntityId, values: map<int, Cell>)
      requires Consistent() && Ascends(sig) && AllClear(tables, e)
      modifies this`storages, this`tables, this`entities, this`repr, registry, repr
      ensures Consistent() && Grown()
      ensures State() == PutRow(Ensure(old(State()), sig), sig, e, values)
    {
      EnsureAllClear(State(), sig, e);
      EnsureStorage(sig);
      AddRowTo(sig, e, values);
    }

    method AddNewRow(e: EntityId, comps: seq<Component>)
      requires Consistent() && AllClear(tables, e)
      modifies this`storages, this`tables, this`entities, this`repr, registry, repr
      ensures Consistent() && State() == NewRow(old(State()), e, comps)
      ensures Grown()
    {
      var sig := Ascending(CodeSet(typeToCode, comps));
      AscendingAscends(CodeSet(typeToCode, comps));
      PutIn(sig, e, InitMap(typeToCode, comps));
    }

    method NewId(comps: seq<Component>) returns (e: EntityId)
      modifies allocator, this`typeToCode, this`codeToType, this`nextTypeCode
      ensures e == old(State()).next && State() == TouchAll(Allocate(old(State())), comps)
    {
      e := allocator.Allocate();
      assert State() == Allocate(old(State()));
      TouchTypes(comps);
    }

    /** A fresh id, and a row in the storage of the components' signature. */
    method CreateEntity(comps: seq<Component>) returns (e: EntityId)
      requires Valid()
      modifies this, allocator, registry, repr
      ensures Valid() && e == old(State()).next && State() == Create(old(State()), comps)
      ensures Grown()
    {
      ClearNext(State());
      CreateCorrect(State(), comps);
      e := CreateRow(comps);
    }

    method CreateRow(comps: seq<Component>) returns (e: EntityId)
      requires Consistent() && AllClear(tables, allocator.nextId)
      modifies this, allocator, registry, repr
      ensures Consistent() && e == old(State()).next && State() == Create(old(State()), comps)
      ensures Grown()
    {
      e := NewId(comps);
      AddNewRow(e, comps);
    }

    method TakeOut(e: EntityId)
      requires Ready(State(), e) && Consistent()
      modifies storages[entities[e].sig], this`entities, this`tables, allocator
      ensures Consistent() && State() == Destroy(old(State()), e)
    {
      var values := TakeRowFrom(e);
      allocator.Destroy(e);
    }

    /** An unknown id changes nothing. */
    method DestroyEntity(e: EntityId)
      requires Valid()
      modifies this`entities, this`tables, allocator, repr
      ensures Valid() && State() == Destroy(old(State()), e)
    {
      DestroyIntact(State(), e);
      if e in entities { TakeOut(e); }
    }

    // ---- Components ----

    // The storage for the new signature is made before the row leaves the old one.
    method LeaveFor(e: EntityId, sig: Signature) returns (values: map<int, Cell>)
      requires Alone(State(), e) && Consistent() && Ascends(sig)
      modifies this`storages, this`tables, this`entities, this`repr, registry, repr
      ensures Consistent() && sig in storages && AllClear(tables, e) && Grown()
      ensures CanTake(Ensure(old(State()), sig), e)
      ensures State() == TakeRow(Ensure(old(State()), sig), e) && values == Row(old(tables[entities[e].sig]), e)
    {
      hide TakeRow, Ensure, DropRow, Row;
      ReadyEnsure(State(), e, sig);
      EnsureClear(State(), e, sig);
      EnsureStorage(sig);
      TakenIsClear(State(), e);
      values := TakeRowFrom(e);
    }

    // From one storage to another with new values built from the old ones.
    method MoveAdding(e: EntityId, sig: Signature, code: int, c: Component)
      requires Alone(State(), e) && Consistent() && Ascends(sig)
      modifies this`storages, this`tables, this`entities, this`repr, registry, repr
      ensures Consistent()
      ensures State() == Move(old(State()), e, sig, Row(old(tables[entities[e].sig]), e)[code := Some(c)])
      ensures Grown()
    {
      hide TakeRow, Ensure, DropRow, AddRow, Row;
      var values := LeaveFor(e, sig);
      AddRowTo(sig, e, values[code := Some(c)]);
    }

    method MoveDropping(e: EntityId, sig: Signature, code: int)
      requires Alone(State(), e) && Consistent() && Ascends(sig)
      modifies this`storages, this`tables, this`entities, this`repr, registry, repr
      ensures Consistent()
      ensures State() == Move(old(State()), e, sig, Row(old(tables[entities[e].sig]), e) - {code})
      ensures Grown()
    {
      hide TakeRow, Ensure, DropRow, AddRow, Row;
      var values := LeaveFor(e, sig);
      AddRowTo(sig, e, values - {code});
    }

    method OverwriteCell(e: EntityId, code: int, c: Component)
      requires Ready(State(), e) && Mirrors() && code in tables[entities[e].sig].columns
      modifies storages[entities[e].sig], this`tables
      ensures Mirrors() && State() == Overwrite(old(State()), e, code, c)
    {
      var sig := entities[e].sig;
      var ok := storages[sig].SetComponentForEntity(e, code, c);
      tables := tables[sig := storages[sig].State()];
    }

    method Upsert(e: EntityId, code: int, c: Component)
      requires Consistent() && AddWay(State(), e, c) != Stuck && code == typeToCode[c.kind]
      modifies this`storages, this`tables, this`entities, this`repr, registry, repr
      ensures Consistent() && State() == Add(old(State()), e, c)
      ensures Grown()
    {
      var sig := entities[e].sig;
      if code in sig {
        OverwriteCell(e, code, c);
      } else {
        MoveAdding(e, With(sig, code), code, c);
      }
    }

    method TakeOff(e: EntityId, code: int, k: Kind)
      requires Consistent() && RemoveWay(State(), e, k) != Stuck && code == typeToCode[k]
      modifies this`storages, this`tables, this`entities, this`repr, registry, repr
      ensures Consistent() && State() == Remove(old(State()), e, k)
      ensures Grown()
    {
      var sig := entities[e].sig;
      if code in sig { MoveDropping(e, Without(sig, code), code); }
    }

    method AddKnown(e: EntityId, c: Component)
      requires Consistent() && AddWay(Touch(State(), c.kind), e, c) != Stuck
      modifies this, registry, repr
      ensures Consistent() && State() == Add(Touch(old(State()), c.kind), e, c)
      ensures Grown()
    {
      var code := GetTypeCode(c.kind);
      Upsert(e, code, c);
    }

    method RemoveKnown(e: EntityId, k: Kind)
      requires Consistent() && RemoveWay(Touch(State(), k), e, k) != Stuck
      modifies this, registry, repr
      ensures Consistent() && State() == Remove(Touch(old(State()), k), e, k)
      ensures Grown()
    {
      var code := GetTypeCode(k);
      TakeOff(e, code, k);
    }

    /** Overwrites in place or moves the entity to the larger archetype; an unknown id changes nothing. */
    method AddComponent(e: EntityId, c: Component)
      requires Valid()
      modifies this, registry, repr
      ensures Valid() && State() == Add(old(State()), e, c)
      ensures Grown()
    {
      AddCorrect(State(), e, c);
      if e in entities {
        AddTouched(State(), e, c);
        AddKnown(e, c);
      }
    }

    /** Moves the entity to the smaller archetype; an unknown id or a missing component changes no entity. */
    method RemoveComponent(e: EntityId, k: Kind)
      requires Valid()
      modifies this, registry, repr
      ensures Valid() && State() == Remove(old(State()), e, k)
      ensures Grown()
    {
      RemoveCorrect(State(), e, k);
      if e in entities {
        RemoveTouched(State(), e, k);
        RemoveKnown(e, k);
      }
    }

    method GetComponent(e: EntityId, k: Kind) returns (c: Cell)
      requires Mirrors() && (e in entities ==> Ready(State(), e))
      modifies this`typeToCode, this`codeToType, this`nextTypeCode
      ensures State() == if e in entities then Touch(old(State()), k) else old(State())
      ensures c == Fetch(old(State()), e, k)
    {
      if e !in entities { return None; }
      var sig := entities[e].sig;
      var code := GetTypeCode(k);
      if code !in sig { return None; }
      var cell := storages[sig].GetComponentForEntity(e, code);
      c := cell.value;
    }

    method HasComponent(e: EntityId, k: Kind) returns (has: bool)
      modifies this`typeToCode, this`codeToType, this`nextTypeCode
      ensures State() == if e in entities then Touch(old(State()), k) else old(State())
      ensures has == Has(old(State()), e, k)
    {
      if e !in entities { return false; }
      var code := GetTypeCode(k);
      has := code in entities[e].sig;
    }

    // ---- Queries ----

    // One question about one entity; `base` is the world before any was asked.
    method AskHas(e: EntityId, k: Kind, ghost b: Bag, ghost base: World, ghost asked: seq<Kind>) returns (has: bool)
      requires State() == Learn(base, asked) && Answerable(base, e, b)
      modifies this`typeToCode, this`codeToType, this`nextTypeCode
      ensures State() == Learn(base, asked + [k]) && has == (k in b)
    {
      LearnMore(base, asked, k);
      assert Answers1(Learn(base, asked), e, k, b);
      has := HasComponent(e, k);
    }

    method AskFor(e: EntityId, k: Kind, ghost b: Bag, ghost base: World, ghost asked: seq<Kind>) returns (c: Cell)
      requires Mirrors() && State() == Learn(base, asked) && Answerable(base, e, b)
      modifies this`typeToCode, this`codeToType, this`nextTypeCode
      ensures State() == Learn(base, asked + [k]) && c == Look(b, k)
    {
      LearnMore(base, asked, k);
      assert Answers1(Learn(base, asked), e, k, b);
      c := GetComponent(e, k);
    }

    method AskAll(e: EntityId, kinds: seq<Kind>, ghost b: Bag, ghost base: World, ghost before: seq<Kind>)
        returns (all: bool, ghost asked: seq<Kind>)
      requires State() == Learn(base, before) && Answerable(base, e, b)
      modifies this`typeToCode, this`codeToType, this`nextTypeCode
      ensures State() == Learn(base, asked) && all == HasAll(b, kinds)
    {
      asked := before;
      for i := 0 to |kinds|
        invariant State() == Learn(base, asked) && HasAll(b, kinds[..i])
      {
        HasAllStep(b, kinds, i);
        var has := AskHas(e, kinds[i], b, base, asked);
        asked := asked + [kinds[i]];
        if !has { return false, asked; }
      }
      assert kinds[..|kinds|] == kinds;
      all := true;
    }

    method AskAny(e: EntityId, kinds: seq<Kind>, ghost b: Bag, ghost base: World, ghost before: seq<Kind>)
        returns (any: bool, ghost asked: seq<Kind>)
      requires State() == Learn(base, before) && Answerable(base, e, b)
      modifies this`typeToCode, this`codeToType, this`nextTypeCode
      ensures State() == Learn(base, asked) && any == HasAny(b, kinds)
    {
      asked := before;
      for i := 0 to |kinds|
        invariant State() == Learn(base, asked) && !HasAny(b, kinds[..i])
      {
        HasAnyStep(b, kinds, i);
        var has := AskHas(e, kinds[i], b, base, asked);
        asked := asked + [kinds[i]];
        if has { return true, asked; }
      }
      assert kinds[..|kinds|] == kinds;
      any := false;
    }

    method Gather(e: EntityId, kinds: seq<Kind>, ghost b: Bag, ghost base: World, ghost before: seq<Kind>)
        returns (comps: seq<Cell>, ghost asked: seq<Kind>)
      requires Mirrors() && State() == Learn(base, before) && Answerable(base, e, b)
      modifies this`typeToCode, this`codeToType, this`nextTypeCode
      ensures State() == Learn(base, asked) && comps == Slots(b, kinds)
    {
      comps, asked := [], before;
      for i := 0 to |kinds|
        invariant State() == Learn(base, asked) && comps == Slots(b, kinds[..i])
      {
        SlotsStep(b, kinds, i);
        var c := AskFor(e, kinds[i], b, base, asked);
        asked := asked + [kinds[i]];
        comps := comps + [c];
      }
      assert kinds[..|kinds|] == kinds;
    }

    // The row of one entity, if it matches.
    method RowOf(e: EntityId, q: QuerySignature, ghost b: Bag, ghost base: World, ghost before: seq<Kind>)
        returns (row: Option<RowView>, ghost asked: seq<Kind>)
      requires Mirrors() && State() == Learn(base, before) && Answerable(base, e, b)
      modifies this`typeToCode, this`codeToType, this`nextTypeCode
      ensures State() == Learn(base, asked)
      ensures row == if Matches(b, q) then Some(RowFor(e, b, q)) else None
    {
      var all, any, comps;
      all, asked := AskAll(e, q.read + q.write, b, base, before);
      if !all { return None, asked; }
      any, asked := AskAny(e, q.without, b, base, asked);
      if any { return None, asked; }
      comps, asked := Gather(e, q.read + q.write + q.optional, b, base, asked);
      row := Some(RowView(e, comps));
    }

    method RowsInOrder(ids: seq<EntityId>, q: QuerySignature, ghost base: World, ghost m: Entities)
        returns (rows: seq<RowView>, ghost asked: seq<Kind>)
      requires Mirrors() && State() == base && AllAnswerable(base, m) && forall e :: e in ids ==> e in m
      modifies this`typeToCode, this`codeToType, this`nextTypeCode
      ensures State() == Learn(base, asked) && rows == RowsFor(m, ids, q)
    {
      rows, asked := [], [];
      for i := 0 to |ids|
        invariant State() == Learn(base, asked)
        invariant rows + RowsFor(m, ids[i..], q) == RowsFor(m, ids, q)
      {
        var e := ids[i];
        assert e in ids;
        var row;
        row, asked := RowOf(e, q, m[e], base, asked);
        RowsStep(m, ids, i, q, rows, row);
        if row.Some? { rows := rows + [row.value]; }
      }
    }

    /** Exactly the brute-force answer; the world learns type codes and nothing else. */
    method Query(q: QuerySignature) returns (rows: seq<RowView>, ghost asked: seq<Kind>)
      requires Valid()
      modifies this`typeToCode, this`codeToType, this`nextTypeCode
      ensures State() == Learn(old(State()), asked)
      ensures rows == Answer(Abs(old(State())), q)
    {
      GoodAnswersAll(State());
      rows, asked := RowsInOrder(Ascending(entities.Keys), q, State(), Abs(State()));
    }

    // ---- Commands ----

    method AddEach(e: EntityId, comps: seq<Component>, ghost from: World)
      requires Valid() && State() == from
      modifies this, registry, repr
      ensures Valid() && State() == AddAll(from, e, comps) && Grown()
    {
      for i := 0 to |comps|
        invariant Valid() && Grown()
        invariant AddAll(State(), e, comps[i..]) == AddAll(from, e, comps)
      {
        assert comps[i..][1..] == comps[i + 1..];
        AddComponent(e, comps[i]);
      }
    }

    method ApplyCreateEntity(comps: seq<Component>) returns (ok: bool)
      requires Valid()
      modifies this, allocator, registry, repr
      ensures Valid() && (State(), ok) == Act(old(State()), Action.CreateEntity(comps)) && Grown()
    {
      CreateThenAdd(comps);
      ok := true;
    }

    // An empty entity first, then its components one after another.
    method CreateThenAdd(comps: seq<Component>)
      requires Valid()
      modifies this, allocator, registry, repr
      ensures Valid() && Grown()
      ensures State() == AddAll(Create(old(State()), []), old(State()).next, comps)
    {
      ghost var created := Create(State(), []);
      var e := CreateEntity([]);
      AddEach(e, comps, created);
    }

    method ApplyDestroyEntity(e: Option<EntityId>) returns (ok: bool)
      requires Valid()
      modifies this`entities, this`tables, allocator, repr
      ensures Valid() && (State(), ok) == Act(old(State()), DestroyAction(e))
    {
      if e.None? { return false; }
      if e.value in entities { DestroyEntity(e.value); }
      ok := true;
    }

    method ApplySetComponent(e: Option<EntityId>, c: Option<Component>) returns (ok: bool)
      requires Valid()
      modifies this, registry, repr
      ensures Valid() && (State(), ok) == Act(old(State()), SetComponent(e, c)) && Grown()
    {
      if e.None? || c.None? || e.value !in entities { return false; }
      AddComponent(e.value, c.value);
      ok := true;
    }

    method ApplyRemoveComponent(e: Option<EntityId>, k: Option<Kind>) returns (ok: bool)
      requires Valid()
      modifies this, registry, repr
      ensures Valid() && (State(), ok) == Act(old(State()), RemoveAction(e, k)) && Grown()
    {
      hide Remove, Add, Destroy, Create, AddAll;
      if e.None? || k.None? || e.value !in entities { return false; }
      RemoveComponent(e.value, k.value);
      ok := true;
    }

    method ApplyCommand(a: Action) returns (ok: bool)
      requires Valid()
      modifies this, allocator, registry, repr
      ensures Valid() && (State(), ok) == Act(old(State()), a) && Grown()
    {
      match a {
        case CreateEntity(comps) => ok := ApplyCreateEntity(comps);
        case DestroyAction(e) => ok := ApplyDestroyEntity(e);
        case SetComponent(e, c) => ok := ApplySetComponent(e, c);
        case AddAction(e, c) => ok := ApplySetComponent(e, c);
        case RemoveAction(e, k) => ok := ApplyRemoveComponent(e, k);
      }
    }

    method ApplyInOrder(actions: seq<Action>) returns (ok: bool)
      requires Valid()
      modifies this, allocator, registry, repr
      ensures Valid() && (State(), ok) == ActAll(old(State()), actions)
    {
      for i := 0 to |actions|
        invariant Valid() && Grown()
        invariant ActAll(State(), actions[i..]) == ActAll(old(State()), actions)
      {
        assert actions[i..][1..] == actions[i + 1..];
        ok := ApplyCommand(actions[i]);
        if !ok { return; }
      }
      ok := true;
    }

    /** By rising sequence number, equal ones as listed, one by one until one raises. */
    method ApplyBatch(cmds: seq<Command>) returns (ok: bool)
      requires Valid()
      modifies this, allocator, registry, repr
      ensures Valid() && forall cs :: InSequence(cs, cmds) ==> (State(), ok) == ActAll(old(State()), Actions(cs))
    {
      var sorted := Sort(cmds, CommandLe);
      ok := ApplyInOrder(Actions(sorted));
      SortedInSequence(cmds);
      forall cs | InSequence(cs, cmds) ensures cs == sorted { SequenceUnique(cs, sorted, cmds); }
    }
  }
}
