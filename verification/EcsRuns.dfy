/** Runs of the ECS world: sequences of calls, and command batches as `apply_commands` runs them. */
module EcsRuns {
  import opened Json
  import opened Ordering
  import opened Storages
  import opened Ecs

  // ---- Sequences of calls ----

  /** A call that may change the world; looking a class up may still give it a type code. */
  datatype Call =
    | NewEntity(comps: seq<Component>)
    | DestroyEntity(e: EntityId)
    | AddComponent(e: EntityId, c: Component)
    | RemoveComponent(e: EntityId, k: Kind)
    | LookUp(k: Kind)

  ghost function After(w: GoodWorld, call: Call): GoodWorld {
    match call
    case NewEntity(comps) => CreateCorrect(w, comps); Create(w, comps)
    case DestroyEntity(e) => DestroyCorrect(w, e); Destroy(w, e)
    case AddComponent(e, c) => AddCorrect(w, e, c); Add(w, e, c)
    case RemoveComponent(e, k) => RemoveCorrect(w, e, k); Remove(w, e, k)
    case LookUp(k) => TouchCorrect(w, k); Touch(w, k)
  }

  /** The plain model: entities with their components, and the next id. */
  datatype Plain = Plain(entities: Entities, next: EntityId)

  function PlainCall(p: Plain, call: Call): Plain {
    match call
    case NewEntity(comps) => Plain(p.entities[p.next := LastWins(comps)], p.next + 1)
    case DestroyEntity(e) => p.(entities := p.entities - {e})
    case AddComponent(e, c) => p.(entities := AddTo(p.entities, e, c))
    case RemoveComponent(e, k) => p.(entities := RemoveFrom(p.entities, e, k))
    case LookUp(_) => p
  }

  function PlainOf(w: World): Plain { Plain(Abs(w), w.next) }

  lemma CallRefines(w: GoodWorld, call: Call)
    ensures PlainOf(After(w, call)) == PlainCall(PlainOf(w), call)
  {
    match call {
      case NewEntity(comps) => CreateCorrect(w, comps);
      case DestroyEntity(e) => DestroyCorrect(w, e);
      case AddComponent(e, c) => AddCorrect(w, e, c);
      case RemoveComponent(e, k) => RemoveCorrect(w, e, k);
      case LookUp(k) => TouchCorrect(w, k);
    }
  }

  ghost function Run(w: GoodWorld, calls: seq<Call>): GoodWorld
    decreases |calls|
  {
    if calls == [] then w else Run(After(w, calls[0]), calls[1..])
  }

  function PlainRun(p: Plain, calls: seq<Call>): Plain
    decreases |calls|
  {
    if calls == [] then p else PlainRun(PlainCall(p, calls[0]), calls[1..])
  }

  /**
   Refinement: after any sequence of calls the world is sound -- every entity in exactly
   one storage, at the row both indexes say -- and means what the same calls make of a
   plain map.
   */
  lemma {:induction false} RunRefines(w: GoodWorld, calls: seq<Call>)
    ensures PlainOf(Run(w, calls)) == PlainRun(PlainOf(w), calls)
    decreases |calls|
  {
    if calls != [] {
      CallRefines(w, calls[0]);
      RunRefines(After(w, calls[0]), calls[1..]);
    }
  }

  // ---- Ids ----

  // The ids a run hands out, in order.
  function Handed(p: Plain, calls: seq<Call>): seq<EntityId>
    decreases |calls|
  {
    if calls == [] then []
    else (if calls[0].NewEntity? then [p.next] else []) + Handed(PlainCall(p, calls[0]), calls[1..])
  }

  ghost predicate AllFrom(s: seq<int>, least: int) { forall i :: 0 <= i < |s| ==> least <= s[i] }

  lemma HandNew(next: int, rest: seq<int>)
    requires Ascends(rest) && AllFrom(rest, next + 1)
    ensures Ascends([next] + rest) && AllFrom([next] + rest, next)
  {
    ConsAscendsInt(next, rest);
  }

  lemma HandedHead(p: Plain, calls: seq<Call>)
    requires calls != []
    ensures var rest := Handed(PlainCall(p, calls[0]), calls[1..]);
      Handed(p, calls) == if calls[0].NewEntity? then [p.next] + rest else rest
  {
  }

  lemma NextAfter(p: Plain, call: Call)
    ensures PlainCall(p, call).next == if call.NewEntity? then p.next + 1 else p.next
  {
  }

  /** No id is ever handed out twice: they ascend, one for each new entity. */
  lemma {:induction false} HandedAscends(p: Plain, calls: seq<Call>)
    ensures Ascends(Handed(p, calls)) && AllFrom(Handed(p, calls), p.next)
    ensures PlainRun(p, calls).next == p.next + |Handed(p, calls)|
    decreases |calls|
  {
    if calls != [] {
      var q := PlainCall(p, calls[0]);
      HandedAscends(q, calls[1..]);
      HandedHead(p, calls);
      NextAfter(p, calls[0]);
      if calls[0].NewEntity? { HandNew(p.next, Handed(q, calls[1..])); }
    }
  }

  lemma CallHands(p: Plain, call: Call)
    ensures PlainCall(p, call).entities.Keys <= p.entities.Keys + if call.NewEntity? then {p.next} else {}
  {
  }

  // Every entity was there before or has been handed out.
  lemma {:induction false} OnlyHanded(p: Plain, calls: seq<Call>, e: EntityId)
    requires e in PlainRun(p, calls).entities
    ensures e in p.entities || e in Handed(p, calls)
    decreases |calls|
  {
    if calls != [] {
      CallHands(p, calls[0]);
      HandedHead(p, calls);
      OnlyHanded(PlainCall(p, calls[0]), calls[1..], e);
    }
  }

  lemma EmptyMeansNothing()
    ensures WorldOk(EMPTY) && PlainOf(EMPTY) == Plain(map[], 1)
  {
    EmptyOk();
  }

  /**
   From a new world on: any calls build what they build of the empty map, and whatever is
   in it stands under an id that was handed out, each once and in ascending order from 1.
   */
  lemma RunsFromNothing(w: GoodWorld, calls: seq<Call>)
    requires w == EMPTY
    ensures PlainOf(Run(w, calls)) == PlainRun(Plain(map[], 1), calls)
    ensures Ascends(Handed(Plain(map[], 1), calls)) && AllFrom(Handed(Plain(map[], 1), calls), 1)
    ensures forall e :: e in Abs(Run(w, calls)) ==> e in Handed(Plain(map[], 1), calls)
  {
    EmptyMeansNothing();
    RunRefines(w, calls);
    HandedAscends(Plain(map[], 1), calls);
    forall e | e in Abs(Run(w, calls)) ensures e in Handed(Plain(map[], 1), calls) {
      OnlyHanded(Plain(map[], 1), calls, e);
    }
  }

  /** A destroyed entity stays gone. */
  lemma {:induction false} GoneForGood(p: Plain, calls: seq<Call>, e: EntityId)
    requires e < p.next && e !in p.entities
    ensures e !in PlainRun(p, calls).entities
    decreases |calls|
  {
    if calls != [] { GoneForGood(PlainCall(p, calls[0]), calls[1..], e); }
  }

  // ---- Commands ----

  /** What a command asks for; a missing field is `None`. */
  datatype Action =
    | SetComponent(e: Option<EntityId>, c: Option<Component>)
    | CreateEntity(comps: seq<Component>)
    | DestroyAction(e: Option<EntityId>)
    | AddAction(e: Option<EntityId>, c: Option<Component>)
    | RemoveAction(e: Option<EntityId>, k: Option<Kind>)

  datatype Command = Command(order: int, action: Action)

  function AddsFor(e: EntityId, comps: seq<Component>): seq<Call> {
    if comps == [] then [] else [AddComponent(e, comps[0])] + AddsFor(e, comps[1..])
  }

  /**
   The calls a command makes given which entities exist and the next id, or `None` where
   it raises: a missing field, or a change to an entity that is not there.  Destroying a
   missing entity does nothing.
   */
  function Effect(present: EntityId -> bool, next: EntityId, a: Action): Option<seq<Call>> {
    match a
    case CreateEntity(comps) => Some([NewEntity([])] + AddsFor(next, comps))
    case DestroyAction(e) => if e.None? then None else if present(e.value) then Some([DestroyEntity(e.value)]) else Some([])
    case SetComponent(e, c) =>
      if e.None? || c.None? || !present(e.value) then None else Some([AddComponent(e.value, c.value)])
    case AddAction(e, c) =>
      if e.None? || c.None? || !present(e.value) then None else Some([AddComponent(e.value, c.value)])
    case RemoveAction(e, k) =>
      if e.None? || k.None? || !present(e.value) then None else Some([RemoveComponent(e.value, k.value)])
  }

  function EffectOn(p: Plain, a: Action): Option<seq<Call>> { Effect(e => e in p.entities, p.next, a) }

  /** Commands in order; the first that raises ends the batch with the earlier ones applied. */
  ghost function Batch(w: GoodWorld, actions: seq<Action>): (GoodWorld, bool)
    decreases |actions|
  {
    if actions == [] then (w, true)
    else
      match EffectOn(PlainOf(w), actions[0])
      case None => (w, false)
      case Some(calls) => Batch(Run(w, calls), actions[1..])
  }

  function PlainBatch(p: Plain, actions: seq<Action>): (Plain, bool)
    decreases |actions|
  {
    if actions == [] then (p, true)
    else
      match EffectOn(p, actions[0])
      case None => (p, false)
      case Some(calls) => PlainBatch(PlainRun(p, calls), actions[1..])
  }

  /** A batch does to the world what it does to the plain map, and raises at the same command. */
  lemma {:induction false} BatchRefines(w: GoodWorld, actions: seq<Action>)
    ensures PlainOf(Batch(w, actions).0) == PlainBatch(PlainOf(w), actions).0
    ensures Batch(w, actions).1 == PlainBatch(PlainOf(w), actions).1
    decreases |actions|
  {
    if actions != [] {
      var effect := EffectOn(PlainOf(w), actions[0]);
      if effect.Some? {
        RunRefines(w, effect.value);
        BatchRefines(Run(w, effect.value), actions[1..]);
      }
    }
  }

  // The same command as the world carries it out.
  function AddAll(w: World, e: EntityId, comps: seq<Component>): World
    decreases |comps|
  {
    if comps == [] then w else AddAll(Add(w, e, comps[0]), e, comps[1..])
  }

  function Act(w: World, a: Action): (World, bool) {
    match a
    case CreateEntity(comps) => (AddAll(Create(w, []), w.next, comps), true)
    case DestroyAction(e) => if e.None? then (w, false) else (Destroy(w, e.value), true)
    case SetComponent(e, c) =>
      if e.None? || c.None? || e.value !in w.entities then (w, false) else (Add(w, e.value, c.value), true)
    case AddAction(e, c) =>
      if e.None? || c.None? || e.value !in w.entities then (w, false) else (Add(w, e.value, c.value), true)
    case RemoveAction(e, k) =>
      if e.None? || k.None? || e.value !in w.entities then (w, false) else (Remove(w, e.value, k.value), true)
  }

  lemma {:induction false} AddAllRuns(w: GoodWorld, e: EntityId, comps: seq<Component>)
    ensures AddAll(w, e, comps) == Run(w, AddsFor(e, comps))
    decreases |comps|
  {
    if comps != [] { AddAllRuns(After(w, AddComponent(e, comps[0])), e, comps[1..]); }
  }

  lemma RunOne(w: GoodWorld, call: Call)
    ensures Run(w, [call]) == After(w, call)
  {
    assert [call][1..] == [];
  }

  lemma ActCreates(w: GoodWorld, comps: seq<Component>)
    ensures AddAll(Create(w, []), w.next, comps) == Run(w, [NewEntity([])] + AddsFor(w.next, comps))
  {
    var calls := [NewEntity([])] + AddsFor(w.next, comps);
    assert calls[1..] == AddsFor(w.next, comps);
    AddAllRuns(After(w, NewEntity([])), w.next, comps);
  }

  lemma RunAdd(w: GoodWorld, e: EntityId, c: Component)
    ensures Run(w, [AddComponent(e, c)]) == Add(w, e, c)
  {
    RunOne(w, AddComponent(e, c));
  }

  lemma RunRemove(w: GoodWorld, e: EntityId, k: Kind)
    ensures Run(w, [RemoveComponent(e, k)]) == Remove(w, e, k)
  {
    RunOne(w, RemoveComponent(e, k));
  }

  lemma RunDestroy(w: GoodWorld, e: EntityId)
    ensures Run(w, [DestroyEntity(e)]) == Destroy(w, e)
    ensures e !in w.entities ==> Destroy(w, e) == w
  {
    RunOne(w, DestroyEntity(e));
  }

  /** Carrying a command out is running its calls. */
  lemma ActRuns(w: GoodWorld, a: Action)
    ensures var effect := EffectOn(PlainOf(w), a);
      Act(w, a) == if effect.None? then (w, false) else (Run(w, effect.value), true)
  {
    match a {
      case CreateEntity(comps) => ActCreates(w, comps);
      case DestroyAction(e) => if e.Some? { RunDestroy(w, e.value); }
      case SetComponent(e, c) => if e.Some? && c.Some? { RunAdd(w, e.value, c.value); }
      case AddAction(e, c) => if e.Some? && c.Some? { RunAdd(w, e.value, c.value); }
      case RemoveAction(e, k) => if e.Some? && k.Some? { RunRemove(w, e.value, k.value); }
    }
  }

  // `sorted(commands, key=seq)`.
  predicate CommandLe(a: Command, b: Command) { a.order <= b.order }

  function Actions(cmds: seq<Command>): seq<Action> {
    if cmds == [] then [] else [cmds[0].action] + Actions(cmds[1..])
  }

  /** `apply_commands`. */
  ghost function ApplyCommands(w: GoodWorld, cmds: seq<Command>): (GoodWorld, bool) {
    Batch(w, Actions(Sort(cmds, CommandLe)))
  }

  // ---- The order a batch runs in ----

  // The commands with one sequence number, as listed.
  function WithNumber(cmds: seq<Command>, n: int): seq<Command> {
    if cmds == [] then [] else (if cmds[0].order == n then [cmds[0]] else []) + WithNumber(cmds[1..], n)
  }

  /** The commands by rising sequence number, those with the same number as they were listed. */
  ghost predicate InSequence(cs: seq<Command>, cmds: seq<Command>) {
    && (forall i, j :: 0 <= i < j < |cs| ==> cs[i].order <= cs[j].order)
    && forall n :: WithNumber(cs, n) == WithNumber(cmds, n)
  }

  lemma {:induction false} NumberedMembers(cmds: seq<Command>, n: int)
    ensures forall c :: c in WithNumber(cmds, n) <==> c in cmds && c.order == n
  {
    if cmds != [] {
      NumberedMembers(cmds[1..], n);
      forall c ensures c in cmds <==> c == cmds[0] || c in cmds[1..] { assert cmds == [cmds[0]] + cmds[1..]; }
    }
  }

  lemma {:induction false} InsertNumbered(c: Command, s: seq<Command>, n: int)
    ensures WithNumber(Insert(c, s, CommandLe), n) == WithNumber([c] + s, n)
  {
    assert ([c] + s)[1..] == s;
    if s != [] && !CommandLe(c, s[0]) {
      InsertNumbered(c, s[1..], n);
      assert ([c] + s[1..])[1..] == s[1..];
      assert Insert(c, s, CommandLe)[1..] == Insert(c, s[1..], CommandLe);
    }
  }

  lemma {:induction false} SortNumbered(cmds: seq<Command>, n: int)
    ensures WithNumber(Sort(cmds, CommandLe), n) == WithNumber(cmds, n)
  {
    if cmds != [] {
      SortNumbered(cmds[1..], n);
      InsertNumbered(cmds[0], Sort(cmds[1..], CommandLe), n);
      assert ([cmds[0]] + Sort(cmds[1..], CommandLe))[1..] == Sort(cmds[1..], CommandLe);
    }
  }

  lemma CommandLeIsPreorder()
    ensures TotalPreorder(CommandLe)
  {
    forall a, b ensures Total(CommandLe, a, b) {}
    forall a, b, c ensures Transitive(CommandLe, a, b, c) {}
  }

  lemma SortedInSequence(cmds: seq<Command>)
    ensures InSequence(Sort(cmds, CommandLe), cmds)
  {
    CommandLeIsPreorder();
    SortCorrect(cmds, CommandLe);
    var cs := Sort(cmds, CommandLe);
    forall i, j | 0 <= i < j < |cs| ensures cs[i].order <= cs[j].order { assert CommandLe(cs[i], cs[j]); }
    forall n ensures WithNumber(cs, n) == WithNumber(cmds, n) { SortNumbered(cmds, n); }
  }

  lemma FirstIsLeast(a: seq<Command>, b: seq<Command>, cmds: seq<Command>)
    requires InSequence(a, cmds) && InSequence(b, cmds) && a != []
    ensures b != [] && b[0].order <= a[0].order
  {
    var n := a[0].order;
    NumberedMembers(a, n);
    NumberedMembers(b, n);
    assert WithNumber(a, n) == WithNumber(b, n);
    assert a[0] in WithNumber(a, n);
    var i :| 0 <= i < |b| && b[i] == a[0];
    assert i > 0 ==> b[0].order <= b[i].order;
  }

  lemma {:induction false} SequenceUnique(a: seq<Command>, b: seq<Command>, cmds: seq<Command>)
    requires InSequence(a, cmds) && InSequence(b, cmds)
    ensures a == b
    decreases |a|
  {
    if a == [] {
      if b != [] { FirstIsLeast(b, a, cmds); }
    } else {
      FirstIsLeast(a, b, cmds);
      FirstIsLeast(b, a, cmds);
      var n := a[0].order;
      assert WithNumber(a, n) == WithNumber(b, n);
      assert WithNumber(a, n)[0] == a[0] && WithNumber(b, n)[0] == b[0];
      forall m ensures WithNumber(b[1..], m) == WithNumber(a[1..], m) {
        assert WithNumber(a, m) == WithNumber(b, m);
        assert WithNumber(a[1..], m) == if m == n then WithNumber(a, m)[1..] else WithNumber(a, m);
        assert WithNumber(b[1..], m) == if m == n then WithNumber(b, m)[1..] else WithNumber(b, m);
      }
      SequenceUnique(a[1..], b[1..], a[1..]);
      assert a == [a[0]] + a[1..] && b == [b[0]] + b[1..];
    }
  }

  /** A batch runs its commands by rising sequence number, those with equal numbers as listed. */
  lemma RunsInSequence(w: GoodWorld, cmds: seq<Command>, cs: seq<Command>)
    requires InSequence(cs, cmds)
    ensures ApplyCommands(w, cmds) == Batch(w, Actions(cs))
    ensures Actions(Sort(cmds, CommandLe)) == Actions(cs)
  {
    SortedInSequence(cmds);
    SequenceUnique(cs, Sort(cmds, CommandLe), cmds);
  }

  lemma {:induction false} NumberedCounts(cmds: seq<Command>, n: int, c: Command)
    ensures multiset(WithNumber(cmds, n))[c] == if c.order == n then multiset(cmds)[c] else 0
  {
    if cmds != [] {
      NumberedCounts(cmds[1..], n, c);
      assert cmds == [cmds[0]] + cmds[1..];
    }
  }

  lemma OneOrNone(a: seq<Command>, b: seq<Command>)
    requires |a| <= 1 && multiset(a) == multiset(b)
    ensures a == b
  {
    assert |multiset(a)| == |a| && |multiset(b)| == |b|;
    if a != [] { assert a[0] in multiset(b); }
  }

  lemma {:induction false} NumberedAscending(cs: seq<Command>, n: int)
    requires forall i, j :: 0 <= i < j < |cs| ==> cs[i].order < cs[j].order
    ensures |WithNumber(cs, n)| <= 1
  {
    if cs != [] {
      NumberedAscending(cs[1..], n);
      NumberedMembers(cs[1..], n);
      if WithNumber(cs[1..], n) != [] {
        var c := WithNumber(cs[1..], n)[0];
        assert c in WithNumber(cs[1..], n);
        var i :| 0 <= i < |cs[1..]| && cs[1..][i] == c;
        assert cs[0].order < cs[i + 1].order;
      }
    }
  }

  /** With distinct sequence numbers that is the one ascending rearrangement of the batch. */
  lemma AscendingInSequence(cmds: seq<Command>, cs: seq<Command>)
    requires multiset(cs) == multiset(cmds) && forall i, j :: 0 <= i < j < |cs| ==> cs[i].order < cs[j].order
    ensures InSequence(cs, cmds)
  {
    forall n ensures WithNumber(cs, n) == WithNumber(cmds, n) {
      NumberedAscending(cs, n);
      forall c ensures multiset(WithNumber(cs, n))[c] == multiset(WithNumber(cmds, n))[c] {
        NumberedCounts(cs, n, c);
        NumberedCounts(cmds, n, c);
      }
      assert multiset(WithNumber(cs, n)) == multiset(WithNumber(cmds, n));
      OneOrNone(WithNumber(cs, n), WithNumber(cmds, n));
    }
  }

  lemma TwoActions(a: Command, b: Command)
    ensures Actions([a, b]) == [a.action, b.action]
  {
    assert [a, b][1..] == [b] && [b][1..] == [];
    assert Actions([b]) == [b.action] + Actions([]);
  }

  /** In particular, of two commands the lower number runs first, even when it is listed last. */
  lemma LowerNumberFirst(w: GoodWorld, a: Command, b: Command)
    requires a.order < b.order
    ensures ApplyCommands(w, [b, a]) == Batch(w, [a.action, b.action])
  {
    hide Batch, ApplyCommands, InSequence, Actions;
    assert multiset([a, b]) == multiset([b, a]);
    AscendingInSequence([b, a], [a, b]);
    RunsInSequence(w, [b, a], [a, b]);
    TwoActions(a, b);
  }

  /** With distinct sequence numbers the listing order of a batch does not matter. */
  lemma BatchOrderIrrelevant(w: GoodWorld, a: seq<Command>, b: seq<Command>)
    requires multiset(a) == multiset(b)
    requires forall x, y :: x in a && y in a && x.order == y.order ==> x == y
    ensures ApplyCommands(w, a) == ApplyCommands(w, b)
  {
    forall x, y ensures Total(CommandLe, x, y) {}
    forall x, y, z ensures Transitive(CommandLe, x, y, z) {}
    SortForgetsOrder(a, b, CommandLe);
  }

  // ---- CREATE_ENTITY ----

  function Puts(b: Bag, comps: seq<Component>): Bag
    decreases |comps|
  {
    if comps == [] then b else Puts(b[comps[0].kind := comps[0]], comps[1..])
  }

  lemma {:induction false} PutsLast(b: Bag, comps: seq<Component>, c: Component)
    ensures Puts(b, comps + [c]) == Puts(b, comps)[c.kind := c]
    decreases |comps|
  {
    if comps == [] {
      assert ([] + [c])[1..] == [];
    } else {
      assert (comps + [c])[1..] == comps[1..] + [c];
      PutsLast(b[comps[0].kind := comps[0]], comps[1..], c);
    }
  }

  lemma {:induction false} PutsLastWins(comps: seq<Component>)
    ensures Puts(map[], comps) == LastWins(comps)
    decreases |comps|
  {
    if comps != [] {
      var front, last := comps[..|comps| - 1], comps[|comps| - 1];
      PutsLastWins(front);
      PutsLast(map[], front, last);
      assert comps == front + [last];
    }
  }

  lemma {:induction false} AddsPut(p: Plain, e: EntityId, comps: seq<Component>)
    requires e in p.entities
    ensures PlainRun(p, AddsFor(e, comps)) == p.(entities := p.entities[e := Puts(p.entities[e], comps)])
    decreases |comps|
  {
    if comps == [] {
      assert p.entities[e := p.entities[e]] == p.entities;
    } else {
      AddsPut(PlainCall(p, AddComponent(e, comps[0])), e, comps[1..]);
    }
  }

  lemma PlainCreate(p: Plain, comps: seq<Component>)
    ensures PlainBatch(p, [CreateEntity(comps)]) == (PlainCall(p, NewEntity(comps)), true)
  {
    var calls := [NewEntity([])] + AddsFor(p.next, comps);
    assert [CreateEntity(comps)][1..] == [];
    assert calls[1..] == AddsFor(p.next, comps);
    AddsPut(PlainCall(p, NewEntity([])), p.next, comps);
    PutsLastWins(comps);
    assert p.entities[p.next := map[]][p.next := LastWins(comps)] == p.entities[p.next := LastWins(comps)];
  }

  /** The command's empty-then-add path and `create_entity` with everything at once mean the same. */
  lemma CreateByAdds(w: GoodWorld, comps: seq<Component>)
    ensures var r := Batch(w, [CreateEntity(comps)]);
      r.1 && PlainOf(r.0) == PlainOf(After(w, NewEntity(comps)))
  {
    BatchRefines(w, [CreateEntity(comps)]);
    PlainCreate(PlainOf(w), comps);
    CallRefines(w, NewEntity(comps));
  }

  // ---- The batch as the world carries it out ----

  function ActAll(w: World, actions: seq<Action>): (World, bool)
    decreases |actions|
  {
    if actions == [] then (w, true)
    else
      var (v, ok) := Act(w, actions[0]);
      if ok then ActAll(v, actions[1..]) else (v, false)
  }

  lemma {:induction false} ActAllRuns(w: GoodWorld, actions: seq<Action>)
    ensures ActAll(w, actions) == Batch(w, actions)
    decreases |actions|
  {
    if actions != [] {
      ActRuns(w, actions[0]);
      var effect := EffectOn(PlainOf(w), actions[0]);
      if effect.Some? { ActAllRuns(Run(w, effect.value), actions[1..]); }
    }
  }
}
