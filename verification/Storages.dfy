/** Column storage of one archetype, `ecs/storage.py`, and archetype signatures, `ecs/archetype.py`. */
module Storages {
  import opened Json
  import opened Ordering

  type EntityId = int

  /** A component instance as a value: its class and its contents. */
  datatype Component = Component(kind: string, data: string)

  type Cell = Option<Component>

  // ---- Signatures ----

  /** `ArchetypeSignature`: ascending type codes without repetition. */
  type Signature = seq<int>

  function Codes(s: Signature): set<int> { set c | c in s }

  function SignatureOf(codes: seq<int>): Signature { Ascending(set c | c in codes) }

  function With(s: Signature, code: int): Signature {
    if code in s then s else Sort(s + [code], IntLe)
  }

  function Without(s: Signature, code: int): Signature {
    if s == [] then [] else (if s[0] == code then [] else [s[0]]) + Without(s[1..], code)
  }

  lemma {:induction false} WithoutMembers(s: Signature, code: int)
    ensures forall c :: c in Without(s, code) <==> c in s && c != code
    ensures Ascends(s) ==> Ascends(Without(s, code))
  {
    if s != [] {
      WithoutMembers(s[1..], code);
      if Ascends(s) && s[0] != code {
        var r := Without(s[1..], code);
        assert forall i :: 0 <= i < |r| ==> r[i] in r;
        ConsAscendsInt(s[0], r);
      }
    }
  }

  lemma WithNormal(s: Signature, code: int)
    requires Ascends(s)
    ensures With(s, code) == Ascending(Codes(s) + {code})
  {
    if code in s {
      assert Codes(s) + {code} == Codes(s);
      AscendingUnique(s, Codes(s));
    } else {
      IntLeIsTotalOrder();
      AscendsIsSorted(s);
      SortedSetUnique(s + [code], Codes(s) + {code}, IntLe);
    }
  }

  lemma WithoutNormal(s: Signature, code: int)
    requires Ascends(s)
    ensures Without(s, code) == Ascending(Codes(s) - {code})
  {
    WithoutMembers(s, code);
    AscendingUnique(Without(s, code), Codes(s) - {code});
  }

  /**
   The normal form: a signature is determined by its set of codes, and adding or
   removing a code gives the normal form of the larger or smaller set.
   */
  lemma NormalForm(s: Signature, code: int)
    requires Ascends(s)
    ensures s == Ascending(Codes(s))
    ensures With(s, code) == Ascending(Codes(s) + {code}) && Without(s, code) == Ascending(Codes(s) - {code})
  {
    AscendingUnique(s, Codes(s));
    WithNormal(s, code);
    WithoutNormal(s, code);
  }

  // ---- One table ----

  datatype Table = Table(codes: Signature, ids: seq<EntityId>, index: map<EntityId, int>, columns: map<int, seq<Cell>>)

  // Every column has one cell per row.
  predicate Aligned(t: Table) {
    t.columns.Keys == Codes(t.codes) && forall c | c in t.columns :: |t.columns[c]| == |t.ids|
  }

  // The index is the inverse of the list of ids.
  ghost predicate Indexed(ids: seq<EntityId>, index: map<EntityId, int>) {
    && (forall i :: 0 <= i < |ids| ==> ids[i] in index && index[ids[i]] == i)
    && (forall e :: e in index ==> 0 <= index[e] < |ids| && ids[index[e]] == e)
  }

  ghost predicate TableOk(t: Table) { Ascends(t.codes) && Aligned(t) && Indexed(t.ids, t.index) }

  // The cell of an entity under a code; empty where there is none.
  function CellOf(t: Table, e: EntityId, c: int): Cell {
    if c in t.columns && e in t.index && 0 <= t.index[e] < |t.columns[c]| then t.columns[c][t.index[e]] else None
  }

  function Row(t: Table, e: EntityId): map<int, Cell> { map c | c in t.columns :: CellOf(t, e, c) }

  lemma RowCells(t: Table, e: EntityId)
    requires TableOk(t) && e in t.index
    ensures Row(t, e) == map c | c in t.columns :: t.columns[c][t.index[e]]
  {
  }

  function EmptyTable(codes: Signature): Table { Table(codes, [], map[], map c | c in Codes(codes) :: []) }

  function Filled(codes: set<int>, values: map<int, Cell>): map<int, Cell> {
    map c | c in codes :: if c in values then values[c] else None
  }

  function AddRow(t: Table, e: EntityId, values: map<int, Cell>): Table
  {
    t.(ids := t.ids + [e], index := t.index[e := |t.ids|],
       columns := map c | c in t.columns :: t.columns[c] + [Filled(t.columns.Keys, values)[c]])
  }

  // The last element takes the place of the i-th.
  function SwapOut<T>(s: seq<T>, i: int): seq<T>
    requires 0 <= i < |s|
  {
    s[i := s[|s| - 1]][..|s| - 1]
  }

  function SwapIndex(ids: seq<EntityId>, index: map<EntityId, int>, e: EntityId): map<EntityId, int>
    requires e in index && 0 <= index[e] < |ids|
  {
    var last := |ids| - 1;
    (if index[e] == last then index else index[ids[last] := index[e]]) - {e}
  }

  function DropRow(t: Table, e: EntityId): Table
    requires Aligned(t) && e in t.index && 0 <= t.index[e] < |t.ids|
  {
    t.(ids := SwapOut(t.ids, t.index[e]), index := SwapIndex(t.ids, t.index, e),
       columns := map c | c in t.columns :: SwapOut(t.columns[c], t.index[e]))
  }

  function SetCell(t: Table, e: EntityId, code: int, v: Component): Table
    requires Aligned(t) && e in t.index && 0 <= t.index[e] < |t.ids| && code in t.columns
  {
    t.(columns := t.columns[code := t.columns[code][t.index[e] := Some(v)]])
  }

  lemma AppendIndexed(ids: seq<EntityId>, index: map<EntityId, int>, e: EntityId)
    requires Indexed(ids, index) && e !in index
    ensures Indexed(ids + [e], index[e := |ids|])
  {
  }

  function CellAfterAdd(t: Table, e: EntityId, values: map<int, Cell>, f: EntityId, c: int): Cell {
    if f != e then CellOf(t, f, c) else if c in t.columns && c in values then values[c] else None
  }

  lemma AddRowCell(t: Table, e: EntityId, values: map<int, Cell>, f: EntityId, c: int)
    requires TableOk(t) && e !in t.index
    ensures CellOf(AddRow(t, e, values), f, c) == CellAfterAdd(t, e, values, f, c)
  {
  }

  /** Adding a row adds that entity's cells, missing ones empty, and touches no other row. */
  lemma AddRowContents(t: Table, e: EntityId, values: map<int, Cell>)
    requires TableOk(t) && e !in t.index
    ensures TableOk(AddRow(t, e, values)) && AddRow(t, e, values).index.Keys == t.index.Keys + {e}
    ensures forall f, c :: CellOf(AddRow(t, e, values), f, c) == CellAfterAdd(t, e, values, f, c)
  {
    AppendIndexed(t.ids, t.index, e);
    forall f, c ensures CellOf(AddRow(t, e, values), f, c) == CellAfterAdd(t, e, values, f, c) {
      AddRowCell(t, e, values, f, c);
    }
  }

  lemma SwapIndexed(ids: seq<EntityId>, index: map<EntityId, int>, e: EntityId)
    requires Indexed(ids, index) && e in index
    ensures Indexed(SwapOut(ids, index[e]), SwapIndex(ids, index, e))
    ensures SwapIndex(ids, index, e).Keys == index.Keys - {e}
  {
    assert ids[|ids| - 1] in index;
  }

  lemma SwapKeeps<T>(ids: seq<EntityId>, index: map<EntityId, int>, e: EntityId, f: EntityId, s: seq<T>)
    requires Indexed(ids, index) && e in index && f in index && f != e && |s| == |ids|
    ensures 0 <= SwapIndex(ids, index, e)[f] < |s| - 1
    ensures SwapOut(s, index[e])[SwapIndex(ids, index, e)[f]] == s[index[f]]
  {
    assert ids[|ids| - 1] in index;
  }

  lemma DropRowCell(t: Table, e: EntityId, f: EntityId, c: int)
    requires TableOk(t) && e in t.index
    ensures CellOf(DropRow(t, e), f, c) == if f == e then None else CellOf(t, f, c)
  {
    SwapIndexed(t.ids, t.index, e);
    if f != e && f in t.index && c in t.columns { SwapKeeps(t.ids, t.index, e, f, t.columns[c]); }
  }

  /** Swap-removal takes out exactly the one row: every other entity keeps its cells, wherever they moved. */
  lemma DropRowContents(t: Table, e: EntityId)
    requires TableOk(t) && e in t.index
    ensures TableOk(DropRow(t, e)) && DropRow(t, e).index.Keys == t.index.Keys - {e}
    ensures forall f, c :: CellOf(DropRow(t, e), f, c) == if f == e then None else CellOf(t, f, c)
  {
    SwapIndexed(t.ids, t.index, e);
    forall f, c ensures CellOf(DropRow(t, e), f, c) == if f == e then None else CellOf(t, f, c) {
      DropRowCell(t, e, f, c);
    }
  }

  /** Overwriting a cell changes that cell alone. */
  lemma SetCellContents(t: Table, e: EntityId, code: int, v: Component)
    requires TableOk(t) && e in t.index && code in t.columns
    ensures TableOk(SetCell(t, e, code, v)) && SetCell(t, e, code, v).index == t.index
    ensures forall f, c :: CellOf(SetCell(t, e, code, v), f, c) == (if f == e && c == code then Some(v) else CellOf(t, f, c))
  {
    forall f, c ensures CellOf(SetCell(t, e, code, v), f, c) == if f == e && c == code then Some(v) else CellOf(t, f, c) {
      if f in t.index { assert t.ids[t.index[f]] == f; }
    }
  }

  // ---- The storage as it runs ----

  // The columns named so far changed by f, the others as they were.
  ghost predicate ColumnsSoFar(before: map<int, seq<Cell>>, now: map<int, seq<Cell>>, done: seq<int>,
                               after: map<int, seq<Cell>>) {
    && now.Keys == before.Keys == after.Keys
    && forall c :: c in now ==> now[c] == if c in done then after[c] else before[c]
  }

  lemma ColumnStep(before: map<int, seq<Cell>>, now: map<int, seq<Cell>>, codes: Signature, i: nat,
                   after: map<int, seq<Cell>>)
    requires i < |codes| && Ascends(codes) && codes[i] in before && ColumnsSoFar(before, now, codes[..i], after)
    ensures now[codes[i]] == before[codes[i]]
    ensures ColumnsSoFar(before, now[codes[i] := after[codes[i]]], codes[..i + 1], after)
  {
    assert codes[..i + 1] == codes[..i] + [codes[i]];
    assert codes[i] !in codes[..i];
    var next := now[codes[i] := after[codes[i]]];
    assert next.Keys == now.Keys;
    forall c | c in next ensures next[c] == if c in codes[..i + 1] then after[c] else before[c] {
      assert c in codes[..i + 1] <==> c in codes[..i] || c == codes[i];
    }
  }

  lemma ColumnsDone(before: map<int, seq<Cell>>, now: map<int, seq<Cell>>, codes: Signature, after: map<int, seq<Cell>>)
    requires ColumnsSoFar(before, now, codes[..|codes|], after) && before.Keys == Codes(codes)
    ensures now == after
  {
    assert codes[..|codes|] == codes;
    forall c | c in now ensures now[c] == after[c] { assert c in codes; }
  }

  class ArchetypeStorage {
    const codes: Signature
    var entityIds: seq<EntityId>
    var entityIndex: map<EntityId, int>
    var columns: map<int, seq<Cell>>

    function State(): Table
      reads this
    {
      Table(codes, entityIds, entityIndex, columns)
    }

    constructor (typeCodes: seq<int>)
      ensures State() == EmptyTable(SignatureOf(typeCodes)) && TableOk(State())
    {
      AscendingAscends(set c | c in typeCodes);
      codes := SignatureOf(typeCodes);
      entityIds := [];
      entityIndex := map[];
      columns := map c | c in Codes(SignatureOf(typeCodes)) :: [];
    }

    /** Appends a row; an entity already present raises. */
    method AddEntity(e: EntityId, values: map<int, Cell>) returns (row: Option<int>)
      requires TableOk(State())
      modifies this
      ensures e in old(entityIndex) ==> row == None && State() == old(State())
      ensures e !in old(entityIndex) ==>
        row == Some(|old(entityIds)|) && State() == AddRow(old(State()), e, values) && TableOk(State())
    {
      if e in entityIndex { return None; }
      ghost var was := State();
      row := Some(|entityIds|);
      entityIds := entityIds + [e];
      entityIndex := entityIndex[e := row.value];
      AddRowContents(was, e, values);
      AppendCells(values);
    }

    // One value, or an empty cell, at the end of each column in code order.
    method AppendCells(values: map<int, Cell>)
      requires Ascends(codes) && columns.Keys == Codes(codes)
      modifies this`columns
      ensures columns == map c | c in old(columns) :: old(columns)[c] + [Filled(old(columns).Keys, values)[c]]
    {
      ghost var was := columns;
      ghost var after := map c | c in was :: was[c] + [Filled(was.Keys, values)[c]];
      for i := 0 to |codes|
        invariant ColumnsSoFar(was, columns, codes[..i], after)
      {
        var c := codes[i];
        ColumnStep(was, columns, codes, i, after);
        columns := columns[c := columns[c] + [if c in values then values[c] else None]];
      }
      ColumnsDone(was, columns, codes, after);
    }

    /** Swap-removal; the values of the removed row are returned, an unknown entity raises. */
    method RemoveEntity(e: EntityId) returns (values: Option<map<int, Cell>>)
      requires TableOk(State())
      modifies this
      ensures e !in old(entityIndex) ==> values == None && State() == old(State())
      ensures e in old(entityIndex) ==>
        values == Some(Row(old(State()), e)) && State() == DropRow(old(State()), e) && TableOk(State())
    {
      if e !in entityIndex { return None; }
      DropRowContents(State(), e);
      var row, last := entityIndex[e], |entityIds| - 1;
      values := Some(map c | c in columns :: columns[c][row]);
      RowCells(State(), e);
      DropId(e, row, last);
      SwapOutCells(row, last);
    }

    method DropId(e: EntityId, row: int, last: int)
      requires Indexed(entityIds, entityIndex) && e in entityIndex && row == entityIndex[e] && last == |entityIds| - 1
      modifies this`entityIds, this`entityIndex
      ensures entityIds == SwapOut(old(entityIds), row)
      ensures entityIndex == SwapIndex(old(entityIds), old(entityIndex), e)
    {
      if row == last {
        entityIds := entityIds[..last];
        entityIndex := entityIndex - {e};
      } else {
        var lastId := entityIds[last];
        entityIds := entityIds[row := lastId][..last];
        entityIndex := entityIndex[lastId := row] - {e};
      }
    }

    // The last cell of each column over the removed one, then the columns one shorter.
    method SwapOutCells(row: int, last: int)
      requires Ascends(codes) && columns.Keys == Codes(codes) && 0 <= row <= last
      requires forall c :: c in columns ==> |columns[c]| == last + 1
      modifies this`columns
      ensures columns == map c | c in old(columns) :: SwapOut(old(columns)[c], row)
    {
      ghost var was := columns;
      ghost var after := map c | c in was :: SwapOut(was[c], row);
      for i := 0 to |codes|
        invariant ColumnsSoFar(was, columns, codes[..i], after)
      {
        var c := codes[i];
        ColumnStep(was, columns, codes, i, after);
        columns := columns[c := if row == last then columns[c][..last] else columns[c][row := columns[c][last]][..last]];
      }
      ColumnsDone(was, columns, codes, after);
    }

    /** An unknown code or entity raises. */
    method GetComponentForEntity(e: EntityId, code: int) returns (cell: Option<Cell>)
      requires TableOk(State())
      ensures cell == if code in columns && e in entityIndex then Some(Row(State(), e)[code]) else None
    {
      if code !in columns || e !in entityIndex { return None; }
      cell := Some(columns[code][entityIndex[e]]);
    }

    method SetComponentForEntity(e: EntityId, code: int, v: Component) returns (ok: bool)
      requires TableOk(State())
      modifies this
      ensures ok == (code in old(columns) && e in old(entityIndex))
      ensures State() == if ok then SetCell(old(State()), e, code, v) else old(State())
    {
      if code !in columns || e !in entityIndex { return false; }
      var row := entityIndex[e];
      columns := columns[code := columns[code][row := Some(v)]];
      ok := true;
    }
  }
}
