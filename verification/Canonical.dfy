/** Quantization and canonical ordering of a state, `integration/canonicalize.py`. */
module Canonical {
  import opened Json
  import opened KeyedLists
  import opened Ordering

  // ---- Quantization to three decimals, halves away from zero ----

  function Normalize(neg: bool, coef: nat, exp: int): (n: Decimal)
    ensures n.exp >= exp || coef == 0
    decreases coef
  {
    if coef == 0 then Number(neg, 0, 0)
    else if coef % 10 == 0 then Normalize(neg, coef / 10, exp + 1)
    else Number(neg, coef, exp)
  }

  function QuantizeNumber(n: Decimal): Decimal {
    if n.exp >= -3 then n
    else
      Normalize(n.neg, HalfUp(n.coef, Pow10(-n.exp - 3)), -3)
  }

  // c / p to the nearest whole number, a half upward.
  function HalfUp(c: nat, p: nat): (q: nat)
    requires p >= 1
    ensures q * (2 * p) <= 2 * c + p < (q + 1) * (2 * p)
  {
    (2 * c + p) / (2 * p)
  }

  function Quantize(j: Json): Json {
    match j
    case Num(n) => Num(QuantizeNumber(n))
    case Arr(items) => Arr(seq(|items|, i requires 0 <= i < |items| => Quantize(items[i])))
    case Obj(fields) => Obj(map k | k in fields :: Quantize(fields[k]))
    case _ => j
  }

  lemma QuantizeNumberIdempotent(n: Decimal)
    ensures QuantizeNumber(QuantizeNumber(n)) == QuantizeNumber(n)
  {
    assert QuantizeNumber(n).exp >= -3;
  }

  lemma {:induction false} QuantizeIdempotent(j: Json)
    ensures Quantize(Quantize(j)) == Quantize(j)
  {
    match j {
      case Num(n) => QuantizeNumberIdempotent(n);
      case Arr(items) => forall i | 0 <= i < |items| { QuantizeIdempotent(items[i]); }
      case Obj(fields) => forall k | k in fields { QuantizeIdempotent(fields[k]); }
      case _ =>
    }
  }

  // ---- What quantization does to the value of a number ----

  // The value of n counted in units of 10^-s, for any s that makes it whole.
  function Units(n: Number, s: nat): int
    requires n.exp + s >= 0
  {
    (if n.neg then -1 else 1) * Magnitude(n.coef, n.exp, s)
  }

  function Magnitude(coef: nat, exp: int, s: nat): nat
    requires exp + s >= 0
  {
    coef * Pow10(exp + s)
  }

  lemma {:induction false} PowerAdd(a: nat, b: nat)
    ensures Pow10(a + b) == Pow10(a) * Pow10(b)
  {
    if a > 0 {
      PowerAdd(a - 1, b);
      assert Pow10(a) == 10 * Pow10(a - 1);
    }
  }

  lemma {:induction false} NormalizeKeepsValue(neg: bool, coef: nat, exp: int, s: nat)
    requires exp + s >= 0
    ensures var n := Normalize(neg, coef, exp);
            n.neg == neg && n.exp + s >= 0 && Magnitude(n.coef, n.exp, s) == Magnitude(coef, exp, s)
    decreases coef
  {
    if coef != 0 && coef % 10 == 0 {
      NormalizeKeepsValue(neg, coef / 10, exp + 1, s);
      assert coef == 10 * (coef / 10);
    }
  }

  // r is q thousandths, and q is the nearest count to the magnitude, a half going up.
  ghost predicate NearestCount(r: nat, magnitude: nat, thousandth: nat, q: nat) {
    && r == q * thousandth
    && 2 * r <= 2 * magnitude + thousandth < 2 * (r + thousandth)
  }

  lemma HalfUpBounds(c: nat, p: nat)
    requires p >= 1
    ensures var q := HalfUp(c, p); 2 * (q * p) <= 2 * c + p < 2 * (q * p) + 2 * p
  {
    var q := HalfUp(c, p);
    assert q * (2 * p) == 2 * (q * p) && (q + 1) * (2 * p) == 2 * (q * p) + 2 * p;
  }

  lemma Distribute(a: nat, b: nat, t: nat)
    ensures (2 * a + b) * t == 2 * (a * t) + b * t
  {
  }

  lemma HalfUpScaled(c: nat, p: nat, t: nat)
    requires p >= 1 && t >= 1
    ensures NearestCount(HalfUp(c, p) * (p * t), c * t, p * t, HalfUp(c, p))
  {
    var q := HalfUp(c, p);
    var m := q * p;
    HalfUpBounds(c, p);
    KeepFactor(2 * m + 0, 2 * c + p, t);
    CancelOrKeep(2 * c + p, 2 * m + 2 * p, t);
    Distribute(m, 0, t);
    Distribute(c, p, t);
    Distribute(m, 2 * p, t);
    Distribute(p, 0, t);
    assert m * t == q * (p * t);
  }

  lemma CancelOrKeep(a: nat, b: nat, t: nat)
    requires a < b && t >= 1
    ensures a * t < b * t
  {
  }

  lemma RoundsFraction(n: Decimal, s: nat)
    requires n.exp < -3 && n.exp + s >= 0
    ensures var q := HalfUp(n.coef, Pow10(-n.exp - 3));
            NearestCount(Magnitude(q, -3, s), Magnitude(n.coef, n.exp, s), Pow10(s - 3), q)
  {
    PowerAdd(-n.exp - 3, n.exp + s);
    HalfUpScaled(n.coef, Pow10(-n.exp - 3), Pow10(n.exp + s));
  }

  lemma RoundsWhole(n: Decimal, s: nat)
    requires n.exp >= -3 && s >= 3
    ensures var x := Magnitude(n.coef, n.exp, s);
            NearestCount(x, x, Pow10(s - 3), n.coef * Pow10(n.exp + 3))
  {
    PowerAdd(n.exp + 3, s - 3);
    assert n.coef * (Pow10(n.exp + 3) * Pow10(s - 3)) == n.coef * Pow10(n.exp + 3) * Pow10(s - 3);
  }

  /** The nearest thousandth to the magnitude, a half going away from zero. */
  lemma RoundsHalfUp(n: Decimal, s: nat) returns (q: nat)
    requires n.exp + s >= 0 && s >= 3
    ensures var r := QuantizeNumber(n);
            && r.neg == n.neg && r.exp + s >= 0
            && NearestCount(Magnitude(r.coef, r.exp, s), Magnitude(n.coef, n.exp, s), Pow10(s - 3), q)
  {
    if n.exp >= -3 {
      q := n.coef * Pow10(n.exp + 3);
      RoundsWhole(n, s);
    } else {
      q := HalfUp(n.coef, Pow10(-n.exp - 3));
      RoundsFraction(n, s);
      NormalizeKeepsValue(n.neg, q, -3, s);
    }
  }

  /** Quantization moves a number by at most half a thousandth. */
  lemma QuantizeIsClose(n: Decimal, s: nat)
    requires n.exp + s >= 0 && s >= 3
    ensures var r := QuantizeNumber(n);
            r.exp + s >= 0 && 2 * Units(n, s) - Pow10(s - 3) <= 2 * Units(r, s) <= 2 * Units(n, s) + Pow10(s - 3)
  {
    var q := RoundsHalfUp(n, s);
  }

  lemma CancelFactor(a: nat, b: nat, t: nat)
    requires a * t < b * t
    ensures a < b
  {
  }

  lemma KeepFactor(a: nat, b: nat, t: nat)
    requires a <= b
    ensures a * t <= b * t
  {
  }

  lemma OnTheGrid(p: nat, q: nat, t: nat)
    requires p * t < q * t + t
    ensures p * t <= q * t
  {
    assert (q + 1) * t == q * t + t;
    CancelFactor(p, q + 1, t);
    KeepFactor(p, q, t);
  }

  lemma NearestKeepsOrder(x: nat, p: nat, r: nat, y: nat, q: nat, u: nat, t: nat)
    requires x <= y && NearestCount(r, x, t, p) && NearestCount(u, y, t, q)
    ensures r <= u
  {
    OnTheGrid(p, q, t);
  }

  /** Quantization keeps the order of numbers. */
  lemma QuantizeIsMonotone(m: Decimal, n: Decimal, s: nat)
    requires m.exp + s >= 0 && n.exp + s >= 0 && s >= 3
    requires Units(m, s) <= Units(n, s)
    ensures var (r, t) := (QuantizeNumber(m), QuantizeNumber(n));
            r.exp + s >= 0 && t.exp + s >= 0 && Units(r, s) <= Units(t, s)
  {
    var p := RoundsHalfUp(m, s);
    var q := RoundsHalfUp(n, s);
    var r, u := QuantizeNumber(m), QuantizeNumber(n);
    var t, x, y := Pow10(s - 3), Magnitude(m.coef, m.exp, s), Magnitude(n.coef, n.exp, s);
    var x', y' := Magnitude(r.coef, r.exp, s), Magnitude(u.coef, u.exp, s);
    if !n.neg && !m.neg {
      NearestKeepsOrder(x, p, x', y, q, y', t);
    } else if n.neg && m.neg {
      NearestKeepsOrder(y, q, y', x, p, x', t);
    } else if n.neg {
      assert NearestCount(0, 0, t, 0);
      NearestKeepsOrder(x, p, x', 0, 0, 0, t);
      NearestKeepsOrder(y, q, y', 0, 0, 0, t);
    }
  }

  // ---- States and their five identified lists ----

  type State = map<string, Json>

  datatype Group = Rooms | Agents | Items | Objects | Events

  function GroupName(g: Group): string {
    match g
    case Rooms => "rooms"
    case Agents => "agents"
    case Items => "items"
    case Objects => "objects"
    case Events => "events"
  }

  function IdField(g: Group): string {
    match g
    case Rooms => "room_id"
    case Agents => "agent_id"
    case Items => "item_id"
    case Objects => "object_id"
    case Events => "tick"
  }

  function GroupOf(name: string): Option<Group> {
    if name == "rooms" then Some(Rooms)
    else if name == "agents" then Some(Agents)
    else if name == "items" then Some(Items)
    else if name == "objects" then Some(Objects)
    else if name == "events" then Some(Events)
    else None
  }

  lemma GroupNames(g: Group, name: string)
    ensures GroupOf(name) == Some(g) <==> name == GroupName(g)
  {
    assert "rooms"[0] == 'r' && "items"[0] == 'i' && "agents"[0] == 'a' && "events"[0] == 'e';
  }

  lemma GroupNamesInjective(g: Group, h: Group)
    ensures GroupName(g) == GroupName(h) <==> g == h
  {
    GroupNames(g, GroupName(g));
    GroupNames(h, GroupName(g));
  }

  function FieldId(item: Json, field: string): Option<Id> {
    if !(item.Obj? && field in item.fields) then None
    else if item.fields[field].Str? then Some(TextId(item.fields[field].s))
    else
      match IntOf(item.fields[field])
      case None => None
      case Some(n) => Some(IntId(n))
  }

  function ItemKey(g: Group, item: Json): Option<Key> {
    match FieldId(item, IdField(g))
    case None => None
    case Some(id) =>
      if g != Events then Some(Key(id, IntId(0)))
      else
        match FieldId(item, "event_id")
        case None => None
        case Some(n) => Some(Key(id, n))
  }

  function KeyOf(g: Group): Json -> Option<Key> { item => ItemKey(g, item) }

  function SortField(name: string, value: Json): Json {
    match GroupOf(name)
    case Some(g) => if value.Arr? then Arr(Sort(value.items, By(KeyOf(g)))) else value
    case None => value
  }

  function QuantizeState(s: State): State { map k | k in s :: Quantize(s[k]) }

  /** `canonicalize_state_obj`. */
  function Canonicalize(s: State): State { map k | k in s :: SortField(k, Quantize(s[k])) }

  const GROUPS: seq<Group> := [Rooms, Agents, Items, Objects, Events]

  predicate BothComparable(a: Option<Key>, b: Option<Key>) { a.Some? && b.Some? && Comparable(a.value, b.value) }

  // Python can order the list: at most one item, or keys of which any two can be compared.
  predicate Orderable(name: string, value: Json) {
    GroupOf(name).Some? && value.Arr? && |value.items| > 1 ==>
      forall i, j | 0 <= i < |value.items| && 0 <= j < |value.items| ::
        BothComparable(KeyOf(GroupOf(name).value)(value.items[i]), KeyOf(GroupOf(name).value)(value.items[j]))
  }

  predicate AllOrderable(q: State) {
    forall k | k in q :: Orderable(k, q[k])
  }

  lemma AllGroups(g: Group)
    ensures g in GROUPS
  {
    assert GROUPS[0] == Rooms && GROUPS[1] == Agents && GROUPS[2] == Items && GROUPS[3] == Objects;
    assert GROUPS[4] == Events;
  }

  // The first few lists sorted, everything else as quantized.
  ghost predicate SortedSoFar(q: State, r: State, done: seq<Group>) {
    r.Keys == q.Keys && forall k :: k in q ==> FieldSoFar(k, q[k], r[k], done)
  }

  ghost predicate FieldSoFar(k: string, v: Json, w: Json, done: seq<Group>) {
    if GroupOf(k).Some? && GroupOf(k).value in done then Orderable(k, v) && w == SortField(k, v) else w == v
  }

  lemma SortStep(q: State, r: State, done: seq<Group>, g: Group)
    requires SortedSoFar(q, r, done) && g !in done
    ensures var name := GroupName(g);
            if name !in q then SortedSoFar(q, r, done + [g])
            else r[name] == q[name] && (Orderable(name, q[name]) ==>
              SortedSoFar(q, r[name := SortField(name, q[name])], done + [g]))
  {
    var name := GroupName(g);
    GroupNames(g, name);
    if name in q { assert FieldSoFar(name, q[name], r[name], done); }
    forall k | k in q && k != name ensures FieldSoFar(k, q[k], r[k], done + [g]) {
      GroupNames(g, k);
      assert FieldSoFar(k, q[k], r[k], done);
    }
  }

  lemma SortDone(q: State, r: State)
    requires SortedSoFar(q, r, GROUPS)
    ensures r == map k | k in q :: SortField(k, q[k])
    ensures AllOrderable(q)
  {
    forall k | k in q ensures Orderable(k, q[k]) && r[k] == SortField(k, q[k]) {
      assert FieldSoFar(k, q[k], r[k], GROUPS);
      if GroupOf(k).Some? { AllGroups(GroupOf(k).value); }
    }
  }

  /**
   The canonicalizer as it runs: quantize everything, then sort the lists one after
   another.  It raises exactly when some list cannot be ordered.
   */
  method CanonicalizeStateObj(state: State) returns (result: Option<State>)
    ensures result == if AllOrderable(QuantizeState(state)) then Some(Canonicalize(state)) else None
  {
    var q := QuantizeState(state);
    var r := q;
    for i := 0 to |GROUPS|
      invariant SortedSoFar(q, r, GROUPS[..i])
    {
      var name := GroupName(GROUPS[i]);
      assert GROUPS[..i + 1] == GROUPS[..i] + [GROUPS[i]];
      SortStep(q, r, GROUPS[..i], GROUPS[i]);
      if name in r {
        if !Orderable(name, r[name]) {
          assert !AllOrderable(q);
          return None;
        }
        r := r[name := SortField(name, r[name])];
      }
    }
    assert GROUPS[..|GROUPS|] == GROUPS;
    SortDone(q, r);
    assert r == Canonicalize(state);
    result := Some(r);
  }

  lemma QuantizeItems(items: seq<Json>)
    requires forall i :: 0 <= i < |items| ==> Quantize(items[i]) == items[i]
    ensures Quantize(Arr(items)) == Arr(items)
  {
  }

  lemma SortFieldIdempotent(name: string, v: Json)
    requires Quantize(v) == v
    ensures var r := SortField(name, v); SortField(name, Quantize(r)) == r && Quantize(r) == r
  {
    if GroupOf(name).Some? && v.Arr? {
      var g := GroupOf(name).value;
      var items := Sort(v.items, By(KeyOf(g)));
      ByIsPreorder(KeyOf(g));
      SortCorrect(v.items, By(KeyOf(g)));
      forall i | 0 <= i < |items| ensures Quantize(items[i]) == items[i] {
        assert items[i] in multiset(items);
        var j :| 0 <= j < |v.items| && v.items[j] == items[i];
        assert Quantize(v).items[j] == Quantize(v.items[j]);
      }
      QuantizeItems(items);
      SortIdempotent(items, By(KeyOf(g)));
    }
  }

  /** Canonicalizing twice changes nothing more, at any depth. */
  lemma CanonicalizeIdempotent(s: State)
    ensures Canonicalize(Canonicalize(s)) == Canonicalize(s)
  {
    forall k | k in s ensures Canonicalize(Canonicalize(s))[k] == Canonicalize(s)[k] {
      QuantizeIdempotent(s[k]);
      SortFieldIdempotent(k, Quantize(s[k]));
    }
  }

  lemma {:induction false} QuantizeList(items: seq<Json>)
    ensures Quantize(Arr(items)) == Arr(Map(Quantize, items))
  {
    if items != [] { QuantizeList(items[1..]); }
  }

  /**
   Reordering any of the five lists gives the same canonical state, as long as
   quantized items that share a key are equal.
   */
  lemma CanonicalizeForgetsOrder(s: State, t: State)
    requires s.Keys == t.Keys && forall k :: k in s ==> Reordered(k, s[k], t[k])
    ensures Canonicalize(s) == Canonicalize(t)
  {
    forall k | k in s ensures SortField(k, Quantize(s[k])) == SortField(k, Quantize(t[k])) {
      ReorderedField(k, s[k], t[k]);
    }
  }

  ghost predicate Reordered(name: string, v: Json, w: Json) {
    if GroupOf(name).Some? && v.Arr? then
      && w.Arr? && multiset(v.items) == multiset(w.items)
      && KeysIdentify(KeyOf(GroupOf(name).value), Map(Quantize, v.items))
    else v == w
  }

  lemma ReorderedField(name: string, v: Json, w: Json)
    requires Reordered(name, v, w)
    ensures SortField(name, Quantize(v)) == SortField(name, Quantize(w))
  {
    if GroupOf(name).Some? && v.Arr? {
      MapPermutes(Quantize, v.items, w.items);
      QuantizeList(v.items);
      QuantizeList(w.items);
      SortForgetsItemOrder(KeyOf(GroupOf(name).value), Map(Quantize, v.items), Map(Quantize, w.items));
    }
  }

  // ---- The canonical form, place by place ----

  /** A step into a value: to an item of a list or an entry of an object. */
  datatype Into = Item(i: nat) | Entry(name: string)

  function Walk(j: Json, path: seq<Into>): Option<Json>
    decreases |path|
  {
    if path == [] then Some(j)
    else
      match path[0]
      case Item(i) => if j.Arr? && i < |j.items| then Walk(j.items[i], path[1..]) else None
      case Entry(name) => if j.Obj? && name in j.fields then Walk(j.fields[name], path[1..]) else None
  }

  lemma {:induction false} WalkQuantized(j: Json, path: seq<Into>)
    ensures Walk(Quantize(j), path) == match Walk(j, path) { case None => None case Some(v) => Some(Quantize(v)) }
    decreases |path|
  {
    if path != [] {
      match path[0] {
        case Item(i) => if j.Arr? && i < |j.items| { WalkQuantized(j.items[i], path[1..]); }
        case Entry(name) => if j.Obj? && name in j.fields { WalkQuantized(j.fields[name], path[1..]); }
      }
    }
  }

  /** Quantization rounds the number at every path into a value and changes nothing else on the way. */
  lemma QuantizedEverywhere(j: Json, path: seq<Into>)
    ensures var (was, now) := (Walk(j, path), Walk(Quantize(j), path));
      match was
      case None => now == None
      case Some(Num(n)) => now == Some(Num(QuantizeNumber(n)))
      case Some(Arr(items)) => now.Some? && now.value.Arr? && |now.value.items| == |items|
      case Some(Obj(fields)) => now.Some? && now.value.Obj? && now.value.fields.Keys == fields.Keys
      case Some(_) => now == was
  {
    WalkQuantized(j, path);
  }

  lemma {:induction false} LessScaled(a: int, b: int, p: nat)
    requires a < b && p >= 1
    ensures a * p < b * p
    decreases p
  {
    if p > 1 {
      LessScaled(a, b, p - 1);
      assert a * p == a * (p - 1) + a && b * p == b * (p - 1) + b;
    }
  }

  lemma SameScaled(a: int, b: int, p: nat)
    requires p >= 1
    ensures a * p == b * p <==> a == b
  {
    if a < b { LessScaled(a, b, p); }
    if b < a { LessScaled(b, a, p); }
  }

  lemma SignOut(sign: int, a: int, p: int)
    ensures sign * (a * p) == (sign * a) * p
  {
  }

  lemma WholeAt(d: Decimal, s: nat)
    requires d.exp >= 0
    ensures Units(d, s) == IntValue(d) * Pow10(s)
  {
    PowerAdd(d.exp, s);
    SignOut(d.coef, Pow10(d.exp), Pow10(s));
    SignOut(if d.neg then -1 else 1, d.coef * Pow10(d.exp), Pow10(s));
  }

  // A whole value with a fractional exponent ends in a zero.
  lemma FractionAt(neg: bool, coef: nat, exp: int, n: int, s: nat)
    requires exp < 0 && exp + s >= 0 && Units(Number(neg, coef, exp), s) == n * Pow10(s)
    ensures coef % 10 == 0
  {
    var sign := if neg then -1 else 1;
    var p, r := Pow10(-exp), Pow10(exp + s);
    PowerAdd(-exp, exp + s);
    SignOut(sign, coef, r);
    SignOut(n, p, r);
    SameScaled(sign * coef, n * p, r);
    SignOut(sign, n, p);
    TenDivides(coef, sign * n, Pow10(-exp - 1));
  }

  lemma TenDivides(c: nat, m: int, p: nat)
    requires c == m * (10 * p)
    ensures c % 10 == 0
  {
    assert c == 10 * (m * p);
  }

  /** A number identifies by its value, and exactly if that is whole. */
  lemma WholeIds(d: Decimal, n: int, s: nat)
    requires d.exp + s >= 0
    ensures IntOf(Num(d)) == Some(n) <==> Units(d, s) == n * Pow10(s)
  {
    hide IntValue, Units;
    if d.exp >= 0 {
      WholeAt(d, s);
      SameScaled(IntValue(d), n, Pow10(s));
    } else if Units(d, s) == n * Pow10(s) {
      FractionAt(d.neg, d.coef, d.exp, n, s);
    }
  }

  /** What identifies an item: a text as it stands, a number if it is whole, nothing else. */
  lemma IdsExactly(item: Json, field: string, id: Id)
    ensures FieldId(item, field) == Some(id) <==>
      && item.Obj? && field in item.fields
      && (match id
          case TextId(t) => item.fields[field] == Str(t)
          case IntId(n) => item.fields[field].Num? && IntOf(item.fields[field]) == Some(n))
  {
    hide IntValue;
  }

  /** Whole numbers by value, texts by their first difference. */
  ghost predicate IdBefore(a: Id, b: Id) {
    match (a, b)
    case (IntId(m), IntId(n)) => m < n
    case (TextId(s), TextId(t)) => TextBefore(s, t)
    case _ => false
  }

  /** By id; events by tick, and within a tick by event id. */
  ghost predicate ItemBefore(g: Group, x: Json, y: Json) {
    var (a, b) := (FieldId(x, IdField(g)), FieldId(y, IdField(g)));
    && a.Some? && b.Some?
    && (|| IdBefore(a.value, b.value)
        || (&& g == Events && a == b && FieldId(x, "event_id").Some? && FieldId(y, "event_id").Some?
            && IdBefore(FieldId(x, "event_id").value, FieldId(y, "event_id").value)))
  }

  lemma IdLeMeans(a: Id, b: Id)
    requires a.IntId? == b.IntId?
    ensures IdLe(a, b) <==> a == b || IdBefore(a, b)
  {
    if a.TextId? { StrLeMeans(a.text, b.text); }
  }

  lemma KeyLeMeans(a: Key, b: Key)
    requires Comparable(a, b)
    ensures KeyLe(a, b) <==> a == b || IdBefore(a.major, b.major) || (a.major == b.major && IdBefore(a.minor, b.minor))
  {
    IdLeMeans(a.major, b.major);
    BeforeItself(a.major);
    if a.major == b.major { IdLeMeans(a.minor, b.minor); }
    hide IdBefore, IdLe;
  }

  lemma BeforeItself(a: Id)
    ensures !IdBefore(a, a)
  {
  }

  // What the key of an item is made of.
  lemma KeyParts(g: Group, x: Json)
    requires ItemKey(g, x).Some?
    ensures var key := ItemKey(g, x).value;
      && FieldId(x, IdField(g)) == Some(key.major)
      && (if g == Events then FieldId(x, "event_id") == Some(key.minor) else key.minor == IntId(0))
  {
    hide FieldId, IdField;
  }

  lemma ByMeans(g: Group, x: Json, y: Json)
    requires By(KeyOf(g))(x, y) && ItemKey(g, x).Some?
    ensures ItemKey(g, y).Some? && KeyLe(ItemKey(g, x).value, ItemKey(g, y).value)
  {
    assert KeyOf(g)(x) == ItemKey(g, x) && KeyOf(g)(y) == ItemKey(g, y);
    assert KeyOptLe(KeyOf(g)(x), KeyOf(g)(y));
  }

  lemma SortedMeans(g: Group, x: Json, y: Json)
    requires By(KeyOf(g))(x, y) && BothComparable(ItemKey(g, x), ItemKey(g, y))
    ensures ItemBefore(g, x, y) || ItemKey(g, x) == ItemKey(g, y)
  {
    hide By, KeyOf, KeyLe, IdBefore, Comparable, IdField, FieldId, ItemKey;
    ByMeans(g, x, y);
    KeyParts(g, x);
    KeyParts(g, y);
    var (a, b) := (ItemKey(g, x).value, ItemKey(g, y).value);
    KeyLeMeans(a, b);
    BeforeItself(a.minor);
  }

  /** A canonical list holds the quantized items, each before or on a par with all that follow. */
  lemma ListsInOrder(s: State, g: Group)
    requires var name := GroupName(g); name in s && s[name].Arr? && Orderable(name, Quantize(s[name]))
    ensures var after := Canonicalize(s)[GroupName(g)];
      && after.Arr? && multiset(after.items) == multiset(Map(Quantize, s[GroupName(g)].items))
      && forall i, j :: 0 <= i < j < |after.items| ==>
           ItemBefore(g, after.items[i], after.items[j]) || ItemKey(g, after.items[i]) == ItemKey(g, after.items[j])
  {
    var name := GroupName(g);
    GroupNames(g, name);
    var items := s[name].items;
    QuantizeList(items);
    var before := Map(Quantize, items);
    assert Quantize(s[name]) == Arr(before);
    var after := Sort(before, By(KeyOf(g)));
    assert Canonicalize(s)[name] == Arr(after);
    ByIsPreorder(KeyOf(g));
    SortCorrect(before, By(KeyOf(g)));
    hide ItemBefore, By, ItemKey, Canonicalize, Quantize;
    forall i, j | 0 <= i < j < |after|
      ensures ItemBefore(g, after[i], after[j]) || ItemKey(g, after[i]) == ItemKey(g, after[j])
    {
      assert after[i] in multiset(after) && after[j] in multiset(after);
      OrderableItems(g, before, after[i], after[j]);
      SortedMeans(g, after[i], after[j]);
    }
  }

  lemma OrderableItems(g: Group, items: seq<Json>, x: Json, y: Json)
    requires Orderable(GroupName(g), Arr(items)) && x in items && y in items && |items| > 1
    ensures BothComparable(ItemKey(g, x), ItemKey(g, y))
  {
    GroupNames(g, GroupName(g));
    var i :| 0 <= i < |items| && items[i] == x;
    var j :| 0 <= j < |items| && items[j] == y;
    assert BothComparable(KeyOf(g)(Arr(items).items[i]), KeyOf(g)(Arr(items).items[j]));
  }

  /** Everything but the five lists is quantized and left where it was. */
  lemma TheRestIsQuantized(s: State, k: string)
    requires k in s && (s[k].Arr? ==> forall g :: k != GroupName(g))
    ensures Canonicalize(s).Keys == s.Keys && Canonicalize(s)[k] == Quantize(s[k])
  {
    if GroupOf(k).Some? { GroupNames(GroupOf(k).value, k); }
  }
}
