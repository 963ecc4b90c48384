/**
 Lists whose items carry a key: sorting them by key, indexing them in a dictionary,
 and listing a dictionary back in key order.
 */
module KeyedLists {
  import opened Json
  import opened Ordering

  /** An identifier; Python compares two of one kind and raises for two of different kinds. */
  datatype Id = IntId(n: int) | TextId(text: string)

  // What orders an item: its id, or an event's tick and event id.
  datatype Key = Key(major: Id, minor: Id)

  predicate IdLe(a: Id, b: Id) {
    match (a, b)
    case (IntId(m), IntId(n)) => m <= n
    case (IntId(_), TextId(_)) => true
    case (TextId(_), IntId(_)) => false
    case (TextId(s), TextId(t)) => StrLe(s, t)
  }

  predicate KeyLe(a: Key, b: Key) { if a.major == b.major then IdLe(a.minor, b.minor) else IdLe(a.major, b.major) }

  // Whether Python can compare two keys: the ids that decide are of one kind.
  predicate Comparable(a: Key, b: Key) {
    a.major.IntId? == b.major.IntId? && (a.major == b.major ==> a.minor.IntId? == b.minor.IntId?)
  }

  predicate AllComparable(keys: set<Key>) { forall a, b | a in keys && b in keys :: Comparable(a, b) }

  predicate KeyOptLe(a: Option<Key>, b: Option<Key>) { a.None? || (b.Some? && KeyLe(a.value, b.value)) }

  // Items in the order of their keys.
  function By<T>(key: T -> Option<Key>): (T, T) -> bool { (a, b) => KeyOptLe(key(a), key(b)) }

  lemma IdLeTotal(a: Id, b: Id)
    ensures IdLe(a, b) || IdLe(b, a)
    ensures IdLe(a, b) && IdLe(b, a) ==> a == b
  {
    if a.TextId? && b.TextId? { StrLeTotal(a.text, b.text); }
  }

  lemma IdLeTransitive(a: Id, b: Id, c: Id)
    requires IdLe(a, b) && IdLe(b, c)
    ensures IdLe(a, c)
  {
    if a.TextId? { StrLeTransitive(a.text, b.text, c.text); }
  }

  lemma KeyLeTotal(a: Key, b: Key)
    ensures KeyLe(a, b) || KeyLe(b, a)
    ensures KeyLe(a, b) && KeyLe(b, a) ==> a == b
  {
    IdLeTotal(a.major, b.major);
    IdLeTotal(a.minor, b.minor);
  }

  lemma KeyLeTransitive(a: Key, b: Key, c: Key)
    requires KeyLe(a, b) && KeyLe(b, c)
    ensures KeyLe(a, c)
  {
    IdLeTotal(a.major, b.major);
    if a.major == b.major && b.major == c.major {
      IdLeTransitive(a.minor, b.minor, c.minor);
    } else if a.major != b.major && b.major != c.major {
      IdLeTransitive(a.major, b.major, c.major);
    }
  }

  lemma KeyLeIsTotalOrder()
    ensures TotalOrder(KeyLe)
  {
    forall a, b ensures Total(KeyLe, a, b) && Antisymmetric(KeyLe, a, b) { KeyLeTotal(a, b); }
    forall a, b, c ensures Transitive(KeyLe, a, b, c) {
      if KeyLe(a, b) && KeyLe(b, c) { KeyLeTransitive(a, b, c); }
    }
  }

  lemma ByIsPreorder<T(!new)>(key: T -> Option<Key>)
    ensures TotalPreorder(By(key))
  {
    forall a, b ensures Total(By(key), a, b) {
      if key(a).Some? && key(b).Some? { KeyLeTotal(key(a).value, key(b).value); }
    }
    forall a, b, c ensures Transitive(By(key), a, b, c) {
      if By(key)(a, b) && By(key)(b, c) && key(a).Some? {
        KeyLeTransitive(key(a).value, key(b).value, key(c).value);
      }
    }
  }

  ghost predicate Keyed<T>(key: T -> Option<Key>, items: seq<T>) {
    forall i :: 0 <= i < |items| ==> key(items[i]).Some?
  }

  ghost predicate UniqueKeys<T>(key: T -> Option<Key>, items: seq<T>) {
    forall i, j :: 0 <= i < j < |items| ==> key(items[i]) != key(items[j])
  }

  // Items sharing a key are the same item.
  ghost predicate KeysIdentify<T>(key: T -> Option<Key>, items: seq<T>) {
    forall x, y :: x in items && y in items && key(x) == key(y) ==> x == y
  }

  lemma SortForgetsItemOrder<T(!new)>(key: T -> Option<Key>, a: seq<T>, b: seq<T>)
    requires multiset(a) == multiset(b) && KeysIdentify(key, a)
    ensures Sort(a, By(key)) == Sort(b, By(key))
  {
    ByIsPreorder(key);
    forall x, y | x in a && y in a ensures Antisymmetric(By(key), x, y) {
      if key(x).Some? && key(y).Some? { KeyLeTotal(key(x).value, key(y).value); }
    }
    SortForgetsOrder(a, b, By(key));
  }

  // ---- Dictionaries ----

  /** `_index_by_id`: the last item with a key wins; an item without a key is an error. */
  function Index<T>(key: T -> Option<Key>, items: seq<T>): Option<map<Key, T>> {
    if items == [] then Some(map[])
    else
      var last := items[|items| - 1];
      match Index(key, items[..|items| - 1])
      case None => None
      case Some(m) => if key(last).None? then None else Some(m[key(last).value := last])
  }

  function SortedKeys(s: set<Key>): (r: seq<Key>)
    ensures |r| == |s| && forall k :: k in r <==> k in s
    ensures Sorted(r, KeyLe) && NoDuplicates(r)
  {
    KeyLeIsTotalOrder();
    SortedSetAscends(s, KeyLe);
    SortedSet(s, KeyLe)
  }

  /** `sort_rooms(list(rooms.values()))` and its siblings. */
  function ListOf<T>(items: map<Key, T>): (r: seq<T>)
    ensures |r| == |items|
  {
    var keys := SortedKeys(items.Keys);
    seq(|keys|, i requires 0 <= i < |keys| => items[keys[i]])
  }

  // Every item sits under its own key.
  ghost predicate IsIndex<T>(key: T -> Option<Key>, m: map<Key, T>) {
    forall k :: k in m ==> key(m[k]) == Some(k)
  }

  // The dictionary holds exactly the keys of the list, each with an item of the list.
  ghost predicate Indexes<T>(key: T -> Option<Key>, items: seq<T>, m: map<Key, T>) {
    && IsIndex(key, m)
    && (forall i :: 0 <= i < |items| ==> key(items[i]).Some? && key(items[i]).value in m)
    && (forall k :: k in m ==> m[k] in items)
  }

  lemma {:induction false} IndexDefined<T>(key: T -> Option<Key>, items: seq<T>)
    ensures Index(key, items).Some? <==> Keyed(key, items)
  {
    if items != [] {
      IndexDefined(key, items[..|items| - 1]);
      assert Keyed(key, items) ==> Keyed(key, items[..|items| - 1]);
    }
  }

  lemma {:induction false} IndexIndexes<T>(key: T -> Option<Key>, items: seq<T>)
    requires Index(key, items).Some?
    ensures Indexes(key, items, Index(key, items).value)
  {
    if items != [] {
      var rest := items[..|items| - 1];
      IndexIndexes(key, rest);
      var m, n := Index(key, rest).value, Index(key, items).value;
      forall k | k in n ensures n[k] in items {
        if n[k] != items[|items| - 1] { assert m[k] in rest; }
      }
    }
  }

  lemma SameKeys(keys: seq<Key>, s: set<Key>)
    requires Sorted(keys, KeyLe) && NoDuplicates(keys) && forall k :: k in keys <==> k in s
    ensures keys == SortedKeys(s)
  {
    KeyLeIsTotalOrder();
    SortedSetUnique(keys, s, KeyLe);
    SortIdempotent(keys, KeyLe);
  }

  lemma SortedByKey<T>(key: T -> Option<Key>, items: seq<T>) returns (keys: seq<Key>)
    requires Keyed(key, items) && Sorted(items, By(key)) && UniqueKeys(key, items)
    ensures |keys| == |items| && Sorted(keys, KeyLe) && NoDuplicates(keys)
    ensures forall i :: 0 <= i < |items| ==> key(items[i]) == Some(keys[i])
  {
    keys := seq(|items|, i requires 0 <= i < |items| => key(items[i]).value);
    forall i, j | 0 <= i < j < |keys| ensures KeyLe(keys[i], keys[j]) && keys[i] != keys[j] {
      assert By(key)(items[i], items[j]);
    }
  }

  /** Listing an index gives back the list it was built from, when keys are unique. */
  lemma ListOfIndex<T>(key: T -> Option<Key>, items: seq<T>, m: map<Key, T>)
    requires Keyed(key, items) && Sorted(items, By(key)) && UniqueKeys(key, items) && Indexes(key, items, m)
    ensures ListOf(m) == items
  {
    hide KeyLe;
    var keys := SortedByKey(key, items);
    forall k ensures k in keys <==> k in m.Keys {
      if k in m {
        var i :| 0 <= i < |items| && items[i] == m[k];
        assert keys[i] == k;
      }
    }
    SameKeys(keys, m.Keys);
    forall i | 0 <= i < |items| ensures m[keys[i]] == items[i] {
      var j :| 0 <= j < |items| && items[j] == m[keys[i]];
      assert keys[j] == keys[i];
    }
  }

  lemma ListOfKeys<T>(key: T -> Option<Key>, m: map<Key, T>)
    requires IsIndex(key, m)
    ensures var keys := SortedKeys(m.Keys);
      forall i :: 0 <= i < |keys| ==> key(ListOf(m)[i]) == Some(keys[i]) && ListOf(m)[i] == m[keys[i]]
  {
    var keys := SortedKeys(m.Keys);
    assert forall i :: 0 <= i < |keys| ==> keys[i] in m.Keys;
  }

  lemma ListOfItems<T>(key: T -> Option<Key>, m: map<Key, T>)
    requires IsIndex(key, m)
    ensures Keyed(key, ListOf(m)) && UniqueKeys(key, ListOf(m)) && Sorted(ListOf(m), By(key))
    ensures forall x :: x in ListOf(m) ==> exists k :: k in m && m[k] == x
  {
    ListOfKeys(key, m);
    var keys := SortedKeys(m.Keys);
    forall x | x in ListOf(m) ensures exists k :: k in m && m[k] == x {
      var i :| 0 <= i < |keys| && ListOf(m)[i] == x;
      assert keys[i] in m.Keys && m[keys[i]] == x;
    }
  }

  lemma SameListSameKeys<T>(key: T -> Option<Key>, m: map<Key, T>, n: map<Key, T>)
    requires IsIndex(key, m) && IsIndex(key, n) && ListOf(m) == ListOf(n)
    ensures SortedKeys(m.Keys) == SortedKeys(n.Keys)
  {
    ListOfKeys(key, m);
    ListOfKeys(key, n);
    var ks, ls := SortedKeys(m.Keys), SortedKeys(n.Keys);
    assert forall i :: 0 <= i < |ks| ==> ks[i] == ls[i];
  }

  lemma ListOfInjective<T>(key: T -> Option<Key>, m: map<Key, T>, n: map<Key, T>)
    requires IsIndex(key, m) && IsIndex(key, n) && ListOf(m) == ListOf(n)
    ensures m == n
  {
    SameListSameKeys(key, m, n);
    var ks := SortedKeys(m.Keys);
    assert m.Keys == n.Keys by { assert forall k :: k in m.Keys <==> k in ks; }
    forall k | k in m ensures m[k] == n[k] {
      var i :| 0 <= i < |ks| && ks[i] == k;
      assert ListOf(m)[i] == ListOf(n)[i];
    }
  }
}
