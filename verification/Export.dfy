/** A recorded run, exported and read back: canonical form, differ, patcher, printer and hash chain together. */
module Export {
  import opened Json
  import opened Ordering
  import opened KeyedLists
  import opened Canonical
  import opened DiffOps
  import opened RoundTrip
  import Jcs
  import opened Manifests
  import opened Records

  type Ops = seq<Op>

  // ---- The KVP codec ----

  function Raise<T>(r: Result<T>): Outcome<T> {
    match r
    case Ok(v) => Done(v)
    case Err(_) => Raised(BadItems)
  }

  /** `compute_step_hash`: a digest of the canonical text. */
  function StepHash(h: string -> string, s: State): string { h(Jcs.Encode(Obj(s))) }

  function Kvp(h: string -> string): Codec<State, Ops> {
    Codec((a, b) => Raise(Diff(a, b)), (s, ops) => Raise(Apply(s, ops)), s => StepHash(h, s))
  }

  // The canonical state of a tick, as both payload builders obtain it.
  function Source(states: map<int, State>): int -> Outcome<State> {
    t => if t in states && AllOrderable(QuantizeState(states[t])) then Done(Canonicalize(states[t])) else Raised(BadState)
  }

  lemma KeyedIsOrderable(s: State)
    requires WellKeyed(Canonicalize(s))
    ensures AllOrderable(QuantizeState(s))
  {
    hide Sort;
    var q, c := QuantizeState(s), Canonicalize(s);
    forall k | k in q ensures Orderable(k, q[k]) {
      if GroupOf(k).Some? && q[k].Arr? {
        var g := GroupOf(k).value;
        GroupNames(g, k);
        assert c[k] == SortField(k, q[k]) && c[k] == c[GroupName(g)];
        ComparableAsSorted(g, q[k].items);
      }
    }
  }

  lemma ComparableAsSorted(g: Group, items: seq<Json>)
    requires KeysComparable(IdOf(g), Sort(items, By(KeyOf(g))))
    ensures forall i, j :: 0 <= i < |items| && 0 <= j < |items| ==> BothComparable(KeyOf(g)(items[i]), KeyOf(g)(items[j]))
  {
    hide Sort;
    ByIsPreorder(KeyOf(g));
    SortCorrect(items, By(KeyOf(g)));
    forall i | 0 <= i < |items| ensures items[i] in Sort(items, By(KeyOf(g))) {
      assert items[i] in multiset(items);
    }
    forall i, j | 0 <= i < |items| && 0 <= j < |items| ensures BothComparable(KeyOf(g)(items[i]), KeyOf(g)(items[j])) {
      assert BothComparable(IdOf(g)(items[i]), IdOf(g)(items[j]));
    }
  }

  // ---- One transition ----

  // The states of a window are all recorded, and their items have ids that can be compared.
  ghost predicate Recorded(states: map<int, State>, start: int, end: int) {
    forall t :: start <= t <= end ==> t in states && WellKeyed(Canonicalize(states[t]))
  }

  lemma RecordedState(states: map<int, State>, start: int, end: int, t: int)
    requires Recorded(states, start, end) && start <= t <= end
    ensures Source(states)(t) == Done(Canonicalize(states[t])) && IsCanonical(Canonicalize(states[t]))
  {
    KeyedIsOrderable(states[t]);
    CanonicalizeGivesCanonical(states[t]);
  }

  ghost predicate FaithfulAt(states: map<int, State>, t: int) {
    t in states && t + 1 in states && Faithful(Canonicalize(states[t]), Canonicalize(states[t + 1]))
  }

  ghost predicate FaithfulBetween(states: map<int, State>, k: int, target: int) {
    forall t :: k <= t < target ==> FaithfulAt(states, t)
  }

  lemma RecordedTransition(states: map<int, State>, start: int, end: int, h: string -> string, t: int)
    requires Recorded(states, start, end) && start <= t < end
    ensures Transition(Source(states), Kvp(h), t).Done?
    ensures Exact(Source(states), Kvp(h), t) <==> FaithfulAt(states, t)
  {
    RecordedState(states, start, end, t);
    RecordedState(states, start, end, t + 1);
    DiffRoundTrip(Canonicalize(states[t]), Canonicalize(states[t + 1]));
  }

  ghost predicate Injective(h: string -> string) { forall x, y :: h(x) == h(y) ==> x == y }

  lemma StepHashCollisionFree(h: string -> string)
    requires Injective(h)
    ensures CollisionFree(Kvp(h))
  {
    forall a: State, b: State | Kvp(h).hash(a) == Kvp(h).hash(b) ensures a == b {
      assert h(Jcs.Encode(Obj(a))) == h(Jcs.Encode(Obj(b)));
      Jcs.SameTextSameValue(Obj(a), Obj(b));
    }
  }

  // ---- The export of a run ----

  // A manifest from `_build_manifest` under some keyframe policy.
  ghost predicate BuiltFor(m: Manifest, start: int, end: int, interval: Option<int>, ticks: Option<seq<int>>) {
    && (interval.Some? ==> interval.value >= 1) && (interval.Some? || ticks.Some?)
    && exists channels, integrity :: Build(channels, start, end, interval, ticks, integrity) == Done(m)
  }

  lemma BuiltIsLaid(m: Manifest, start: int, end: int, interval: Option<int>, ticks: Option<seq<int>>)
      returns (ks: seq<int>)
    requires BuiltFor(m, start, end, interval, ticks) && start <= end
    ensures m.start == start && m.end == end && ks == Keyframes(interval, ticks, start, end) && Laid(m, ks)
    ensures Ascends(ks) && ks != [] && ks[0] == start && Within(ks, start, end) && start in ks
  {
    var channels, integrity :| Build(channels, start, end, interval, ticks, integrity) == Done(m);
    var n;
    n, ks := BuiltFields(channels, start, end, interval, ticks, integrity);
    KeyframesAscend(interval, ticks, start, end);
  }

  lemma ExportRun(m: Manifest, start: int, end: int, interval: Option<int>, ticks: Option<seq<int>>,
      states: map<int, State>, h: string -> string) returns (ks: seq<int>, store: Store<State, Ops>)
    requires BuiltFor(m, start, end, interval, ticks) && start <= end && Recorded(states, start, end)
    ensures m.start == start && m.end == end && ks == Keyframes(interval, ticks, start, end) && Laid(m, ks)
    ensures Ascends(ks) && Within(ks, start, end) && start in ks
    ensures Export(m, Source(states), Kvp(h)) == Done(store) && Exported(store, m, ks, Source(states), Kvp(h))
  {
    ks := BuiltIsLaid(m, start, end, interval, ticks);
    forall t | t in ks ensures Source(states)(t).Done? { RecordedState(states, start, end, t); }
    forall t | start <= t < end ensures Transition(Source(states), Kvp(h), t).Done? {
      RecordedTransition(states, start, end, h, t);
    }
    store := ExportHolds(m, Source(states), Kvp(h), ks);
  }

  /**
   The pipeline's promise.  Under every keyframe policy, exporting a recorded run raises
   nothing, and reconstruction at any tick of the window gives back that tick's canonical
   state if every transition since the last keyframe is faithful; if the digest has no
   collisions, then exactly then, and otherwise reconstruction raises.
   */
  lemma ExportThenReconstruct(m: Manifest, start: int, end: int, interval: Option<int>, ticks: Option<seq<int>>,
      states: map<int, State>, h: string -> string, target: int) returns (k: int, store: Store<State, Ops>)
    requires BuiltFor(m, start, end, interval, ticks) && Recorded(states, start, end)
    requires 0 <= start <= target <= end
    ensures Export(m, Source(states), Kvp(h)) == Done(store) && PolicyEnds(m)
    ensures Nearest(Keyframes(interval, ticks, start, end), target) == Some(k) && start <= k <= target
    ensures FaithfulBetween(states, k, target) ==>
      Reconstruct(m, store, Kvp(h), target) == Done(Canonicalize(states[target]))
    ensures Injective(h) && Reconstruct(m, store, Kvp(h), target).Done? ==> FaithfulBetween(states, k, target)
  {
    var ks;
    ks, store := ExportRun(m, start, end, interval, ticks, states, h);
    k := ReconstructRun(m, ks, store, states, h, target);
  }

  /**
   The case the pipeline is for: in a run whose states share one key set, with unique ids,
   constant uncovered fields and visible changes, every tick reads back under every policy.
   */
  lemma OneShapeReadsBack(m: Manifest, start: int, end: int, interval: Option<int>, ticks: Option<seq<int>>,
      states: map<int, State>, h: string -> string, target: int)
    requires BuiltFor(m, start, end, interval, ticks) && Recorded(states, start, end)
    requires 0 <= start <= target <= end
    requires forall t :: start <= t < end ==> SameShape(Canonicalize(states[t]), Canonicalize(states[t + 1]))
    ensures PolicyEnds(m) && Export(m, Source(states), Kvp(h)).Done?
    ensures Reconstruct(m, Export(m, Source(states), Kvp(h)).value, Kvp(h), target) == Done(Canonicalize(states[target]))
  {
    hide Export, Reconstruct, SameShape, Faithful, BuiltFor;
    var k, store := ExportThenReconstruct(m, start, end, interval, ticks, states, h, target);
    forall t | k <= t < target ensures FaithfulAt(states, t) {
      SameShapeIsFaithful(Canonicalize(states[t]), Canonicalize(states[t + 1]));
    }
  }

  lemma ReconstructRun(m: Manifest, ks: seq<int>, store: Store<State, Ops>, states: map<int, State>,
      h: string -> string, target: int) returns (k: int)
    requires Laid(m, ks) && Exported(store, m, ks, Source(states), Kvp(h)) && Recorded(states, m.start, m.end)
    requires 0 <= m.start <= target <= m.end && m.start in ks && Ascends(ks) && Within(ks, m.start, m.end)
    ensures Nearest(ks, target) == Some(k) && m.start <= k <= target
    ensures FaithfulBetween(states, k, target) ==>
      Reconstruct(m, store, Kvp(h), target) == Done(Canonicalize(states[target]))
    ensures Injective(h) && Reconstruct(m, store, Kvp(h), target).Done? ==> FaithfulBetween(states, k, target)
  {
    k := ReconstructExported(m, ks, store, Source(states), Kvp(h), target);
    RecordedState(states, m.start, m.end, target);
    ExactBetween(states, m.start, m.end, h, k, target);
    if Injective(h) { StepHashCollisionFree(h); }
  }

  lemma ExactBetween(states: map<int, State>, start: int, end: int, h: string -> string, k: int, target: int)
    requires Recorded(states, start, end) && start <= k <= target <= end
    ensures FaithfulBetween(states, k, target) <==> forall t :: k <= t < target ==> Exact(Source(states), Kvp(h), t)
  {
    forall t | k <= t < target ensures Exact(Source(states), Kvp(h), t) <==> FaithfulAt(states, t) {
      RecordedTransition(states, start, end, h, t);
    }
  }

  /** A change to a field no op covers is never lost in silence: reading past it raises. */
  lemma UncoveredChangeIsCaught(m: Manifest, start: int, end: int, interval: Option<int>, ticks: Option<seq<int>>,
      states: map<int, State>, h: string -> string, target: int, t: int, n: string)
    requires BuiltFor(m, start, end, interval, ticks) && Recorded(states, start, end) && Injective(h)
    requires 0 <= start <= t < target <= end && SlotOf(n).Uncovered?
    requires forall k :: k in Keyframes(interval, ticks, start, end) && k <= target ==> k <= t
    requires Lookup(Canonicalize(states[t]), n) != Lookup(Canonicalize(states[t + 1]), n)
    ensures PolicyEnds(m) && Export(m, Source(states), Kvp(h)).Done?
    ensures Reconstruct(m, Export(m, Source(states), Kvp(h)).value, Kvp(h), target).Raised?
  {
    var k, store := ExportThenReconstruct(m, start, end, interval, ticks, states, h, target);
    NearestBefore(Keyframes(interval, ticks, start, end), target, t);
    UncoveredUnfaithful(Canonicalize(states[t]), Canonicalize(states[t + 1]), n);
    assert !FaithfulAt(states, t);
  }

  lemma UncoveredUnfaithful(from: State, to: State, n: string)
    requires SlotOf(n).Uncovered? && Lookup(from, n) != Lookup(to, n)
    ensures !Faithful(from, to)
  {
    assert !Survives(from, to, n);
  }

  lemma NearestBefore(ks: seq<int>, target: int, t: int)
    requires Nearest(ks, target).Some? && forall k :: k in ks && k <= target ==> k <= t
    ensures Nearest(ks, target).value <= t
  {
    NearestIs(ks, target);
  }

  // ---- The offline artifacts of one run ----

  /** A manifest rebuilt with the checksums of what was exported under it validates. */
  lemma RebuiltValidates(channels: seq<string>, start: int, end: int, interval: Option<int>, ticks: Option<seq<int>>,
      draft: Manifest, integrity: map<string, string>, store: Store<State, Ops>, src: int -> Outcome<State>,
      c: Codec<State, Ops>, digest: Envelope<State, Ops> -> Sha) returns (final: Manifest)
    requires (interval.Some? ==> interval.value >= 1) && (interval.Some? || ticks.Some?) && 0 <= start <= end
    requires Build(channels, start, end, interval, ticks, integrity) == Done(draft)
    requires Exported(store, draft, Keyframes(interval, ticks, start, end), src, c)
    ensures PathsOf(draft.snapshots) <= store.Keys && PathsOf(draft.diffs) <= store.Keys
    ensures Build(channels, start, end, interval, ticks, Checksums(draft, store, digest)) == Done(final)
    ensures Validates(final) && Exported(store, final, Keyframes(interval, ticks, start, end), src, c)
  {
    var n, ks := BuiltFields(channels, start, end, interval, ticks, integrity);
    KeyframesAscend(interval, ticks, start, end);
    ExportedPaths(draft, ks, store, src, c);
    ChecksumsCover(draft, ks, store, digest);
    var sums := Checksums(draft, store, digest);
    BuiltAgain(channels, start, end, interval, ticks, integrity, sums);
    BuiltValidates(channels, start, end, interval, ticks, sums);
    final := Build(channels, start, end, interval, ticks, sums).value;
  }

  lemma BuiltAgain(channels: seq<string>, start: int, end: int, interval: Option<int>, ticks: Option<seq<int>>,
      before: map<string, string>, after: map<string, string>)
    requires (interval.Some? ==> interval.value >= 1) && IntegrityOk(after)
    requires Build(channels, start, end, interval, ticks, before).Done?
    ensures Build(channels, start, end, interval, ticks, after).Done?
  {
  }

  // The policy in force: every hundredth tick when none is asked for.
  function ChosenInterval(interval: Option<int>, ticks: Option<seq<int>>): Option<int> {
    if interval.None? && ticks.None? then Some(100) else interval
  }

  /**
   `_write_offline_artifacts`: draft manifest, export, checksums, final manifest.  With a
   known channel and at most one policy nothing raises on a recorded run, the final
   manifest validates, and every tick up to which the run is faithful, the last one that
   is tried out included, reads back under it.
   */
  lemma OfflineArtifacts(channels: seq<string>, start: int, end: int, interval: Option<int>, ticks: Option<seq<int>>,
      states: map<int, State>, h: string -> string, digest: Envelope<State, Ops> -> Sha)
      returns (draft: Manifest, store: Store<State, Ops>, final: Manifest)
    requires (interval.Some? ==> interval.value >= 1) && !(interval.Some? && ticks.Some?) && 0 <= start <= end
    requires (exists c :: c in channels && c in ALLOWED_CHANNELS) && Recorded(states, start, end)
    ensures var every := ChosenInterval(interval, ticks);
      Build(NormalizeChannels(channels), start, end, every, ticks, Placeholders(every, ticks, start, end)) == Done(draft)
    ensures PolicyEnds(draft) && Export(draft, Source(states), Kvp(h)) == Done(store)
    ensures PathsOf(draft.snapshots) <= store.Keys && PathsOf(draft.diffs) <= store.Keys
    ensures Build(NormalizeChannels(channels), start, end, ChosenInterval(interval, ticks), ticks,
                  Checksums(draft, store, digest)) == Done(final)
    ensures Validates(final) && PolicyEnds(final)
    ensures forall t :: start <= t <= end && FaithfulBetween(states, start, t) ==>
      Reconstruct(final, store, Kvp(h), t) == Done(Canonicalize(states[t]))
  {
    hide Build, Export, Validates, Recorded, Keyframes, Placeholders, Exported;
    var every := ChosenInterval(interval, ticks);
    DraftIsBuilt(channels, start, end, every, ticks);
    draft, store, final := ArtifactsFrom(NormalizeChannels(channels), start, end, every, ticks,
                                         Placeholders(every, ticks, start, end), states, h, digest);
  }

  // The same for any draft checksums.
  lemma ArtifactsFrom(channels: seq<string>, start: int, end: int, interval: Option<int>, ticks: Option<seq<int>>,
      integrity: map<string, string>, states: map<int, State>, h: string -> string,
      digest: Envelope<State, Ops> -> Sha) returns (draft: Manifest, store: Store<State, Ops>, final: Manifest)
    requires (interval.Some? ==> interval.value >= 1) && (interval.Some? || ticks.Some?) && 0 <= start <= end
    requires Build(channels, start, end, interval, ticks, integrity).Done? && Recorded(states, start, end)
    ensures Build(channels, start, end, interval, ticks, integrity) == Done(draft) && PolicyEnds(draft)
    ensures Export(draft, Source(states), Kvp(h)) == Done(store)
    ensures PathsOf(draft.snapshots) <= store.Keys && PathsOf(draft.diffs) <= store.Keys
    ensures Build(channels, start, end, interval, ticks, Checksums(draft, store, digest)) == Done(final)
    ensures Validates(final) && PolicyEnds(final)
    ensures forall t :: start <= t <= end && FaithfulBetween(states, start, t) ==>
      Reconstruct(final, store, Kvp(h), t) == Done(Canonicalize(states[t]))
  {
    draft := Build(channels, start, end, interval, ticks, integrity).value;
    assert BuiltFor(draft, start, end, interval, ticks);
    var ks;
    ks, store := ExportRun(draft, start, end, interval, ticks, states, h);
    final := RebuiltValidates(channels, start, end, interval, ticks, draft, integrity, store, Source(states), Kvp(h), digest);
    ReadsBack(channels, start, end, interval, ticks, Checksums(draft, store, digest), final, store, states, h);
  }

  lemma ReadsBack(channels: seq<string>, start: int, end: int, interval: Option<int>, ticks: Option<seq<int>>,
      integrity: map<string, string>, m: Manifest, store: Store<State, Ops>, states: map<int, State>, h: string -> string)
    requires (interval.Some? ==> interval.value >= 1) && (interval.Some? || ticks.Some?) && 0 <= start <= end
    requires Build(channels, start, end, interval, ticks, integrity) == Done(m) && Recorded(states, start, end)
    requires Exported(store, m, Keyframes(interval, ticks, start, end), Source(states), Kvp(h))
    ensures PolicyEnds(m)
    ensures forall t :: start <= t <= end && FaithfulBetween(states, start, t) ==>
      Reconstruct(m, store, Kvp(h), t) == Done(Canonicalize(states[t]))
  {
    assert BuiltFor(m, start, end, interval, ticks);
    var ks := BuiltIsLaid(m, start, end, interval, ticks);
    forall t | start <= t <= end && FaithfulBetween(states, start, t)
      ensures Reconstruct(m, store, Kvp(h), t) == Done(Canonicalize(states[t]))
    {
      var k := ReconstructRun(m, ks, store, states, h, t);
    }
  }
}
