/**
 Hash-chained record runs: `export_state.py` writes them, `export_verify.py` replays
 them.  The differ, the patcher and the step hash are parameters here; `Export.dfy`
 puts the KVP ones in.
 */
module Records {
  import opened Json
  import opened Manifests
  import opened Ordering

  datatype Payload<S, O> =
    | SnapshotPayload(version: string, tick: int, state: S, hash: string)
    | DiffPayload(version: string, from: int, to: int, prev: string, ops: O, hash: string)

  datatype Envelope<S, O> = Envelope(msgType: MsgType, payload: Payload<S, O>)

  type Store<S, O> = map<string, Envelope<S, O>>

  datatype Codec<!S, !O> = Codec(diff: (S, S) -> Outcome<O>, apply: (S, O) -> Outcome<S>, hash: S -> string)

  // ---- Writing ----

  function SnapshotRecord<S, O>(c: Codec<S, O>, t: int, s: S): Envelope<S, O> {
    Envelope(FullSnapshot, SnapshotPayload(SCHEMA_VERSION, t, s, c.hash(s)))
  }

  // The record of one transition; its previous hash is that of the state it starts from.
  function DiffRecord<S, O>(c: Codec<S, O>, t: int, s: S, s': S): Outcome<Envelope<S, O>> {
    match c.diff(s, s')
    case Raised(e) => Raised(e)
    case Done(ops) => Done(Envelope(FrameDiff, DiffPayload(SCHEMA_VERSION, t, t + 1, c.hash(s), ops, c.hash(s'))))
  }

  predicate SnapshotPointerOk(m: Manifest, t: int) {
    t in m.snapshots && m.snapshots[t].msgType == FullSnapshot && m.snapshots[t].tick == Some(t)
  }

  // `ptr.to_tick or (from_tick + 1)`: zero reads as missing.
  predicate DiffPointerOk(m: Manifest, t: int) {
    && t in m.diffs && m.diffs[t].msgType == FrameDiff
    && (m.diffs[t].to in {None, Some(0)} || m.diffs[t].to == Some(t + 1))
  }

  function WriteSnapshots<S, O>(m: Manifest, src: int -> Outcome<S>, c: Codec<S, O>, ticks: seq<int>,
                                store: Store<S, O>): Outcome<Store<S, O>>
    decreases ticks
  {
    if ticks == [] then Done(store)
    else
      var t := ticks[0];
      if !SnapshotPointerOk(m, t) then Raised(BadPointer)
      else
        match src(t)
        case Raised(e) => Raised(e)
        case Done(s) => WriteSnapshots(m, src, c, ticks[1..], store[m.snapshots[t].path := SnapshotRecord(c, t, s)])
  }

  function Transition<S, O>(src: int -> Outcome<S>, c: Codec<S, O>, t: int): Outcome<Envelope<S, O>> {
    var a, b := src(t), src(t + 1);
    if a.Raised? then Raised(a.failure)
    else if b.Raised? then Raised(b.failure)
    else DiffRecord(c, t, a.value, b.value)
  }

  function WriteDiffs<S, O>(m: Manifest, src: int -> Outcome<S>, c: Codec<S, O>, ks: seq<int>, t: int,
                            store: Store<S, O>): Outcome<Store<S, O>>
    decreases m.end - t
  {
    if t >= m.end then Done(store)
    else if !DiffPointerOk(m, t) then Raised(BadPointer)
    else if t == m.start && t !in ks then Raised(BrokenChain)
    else
      match Transition(src, c, t)
      case Raised(e) => Raised(e)
      case Done(record) => WriteDiffs(m, src, c, ks, t + 1, store[m.diffs[t].path := record])
  }

  /** `export_state_records`. */
  function Export<S, O>(m: Manifest, src: int -> Outcome<S>, c: Codec<S, O>): Outcome<Store<S, O>>
    requires PolicyEnds(m)
  {
    match DerivedKeyframes(m)
    case Raised(e) => Raised(e)
    case Done(ks) =>
      match WriteSnapshots(m, src, c, ks, map[])
      case Raised(e) => Raised(e)
      case Done(store) => WriteDiffs(m, src, c, ks, m.start, store)
  }

  // ---- Reading ----

  // `max` of the keyframes at or before the target.
  function Nearest(ks: seq<int>, target: int): Option<int> {
    if ks == [] then None
    else
      var rest := Nearest(ks[1..], target);
      if ks[0] <= target && (rest.None? || rest.value < ks[0]) then Some(ks[0]) else rest
  }

  lemma {:induction false} NearestIs(ks: seq<int>, target: int)
    ensures Nearest(ks, target).None? ==> forall k :: k in ks ==> k > target
    ensures Nearest(ks, target).Some? ==>
      var n := Nearest(ks, target).value; n in ks && n <= target && forall k :: k in ks && k <= target ==> k <= n
  {
    if ks != [] {
      NearestIs(ks[1..], target);
      forall k | k in ks ensures k == ks[0] || k in ks[1..] {}
    }
  }

  /** `_verify_snapshot_payload`, and the tick check that follows it. */
  function VerifySnapshot<S, O>(c: Codec<S, O>, e: Envelope<S, O>, t: int): Outcome<S> {
    if e.msgType != FullSnapshot || e.payload.DiffPayload? || e.payload.version != SCHEMA_VERSION then Raised(BadRecord)
    else if c.hash(e.payload.state) != e.payload.hash then Raised(HashMismatch)
    else if e.payload.tick < 0 || e.payload.tick != t then Raised(BadRecord)
    else Done(e.payload.state)
  }

  /** `_verify_diff_payload`, and the transition check that follows it. */
  function VerifyDiff<S, O>(c: Codec<S, O>, e: Envelope<S, O>, t: int, hash: string, s: S): Outcome<S> {
    if e.msgType != FrameDiff || e.payload.SnapshotPayload? || e.payload.version != SCHEMA_VERSION then Raised(BadRecord)
    else if e.payload.to != e.payload.from + 1 then Raised(BadRecord)
    else if e.payload.prev != hash then Raised(BrokenChain)
    else
      match c.apply(s, e.payload.ops)
      case Raised(x) => Raised(x)
      case Done(s') =>
        if c.hash(s') != e.payload.hash then Raised(HashMismatch)
        else if e.payload.from != t then Raised(BadRecord)
        else Done(s')
  }

  function Load<S, O>(store: Store<S, O>, pointers: map<int, Pointer>, t: int): Outcome<Envelope<S, O>> {
    if t !in pointers || pointers[t].path !in store then Raised(MissingRecord) else Done(store[pointers[t].path])
  }

  function Replay<S, O>(m: Manifest, store: Store<S, O>, c: Codec<S, O>, s: S, hash: string, t: int, target: int): Outcome<S>
    decreases target - t
  {
    if t >= target then Done(s)
    else
      match Load(store, m.diffs, t)
      case Raised(x) => Raised(x)
      case Done(e) =>
        match VerifyDiff(c, e, t, hash, s)
        case Raised(x) => Raised(x)
        case Done(s') => Replay(m, store, c, s', e.payload.hash, t + 1, target)
  }

  /** `reconstruct_state_at_tick`. */
  function Reconstruct<S, O>(m: Manifest, store: Store<S, O>, c: Codec<S, O>, target: int): Outcome<S>
    requires PolicyEnds(m)
  {
    if !(m.start <= target <= m.end) then Raised(OutOfWindow)
    else
      match DerivedKeyframes(m)
      case Raised(x) => Raised(x)
      case Done(ks) =>
        match Nearest(ks, target)
        case None => Raised(NoKeyframe)
        case Some(k) =>
          match Load(store, m.snapshots, k)
          case Raised(x) => Raised(x)
          case Done(e) =>
            match VerifySnapshot(c, e, k)
            case Raised(x) => Raised(x)
            case Done(s) => Replay(m, store, c, s, e.payload.hash, k, target)
  }

  // ---- What the exporter leaves in the store ----

  ghost predicate SnapshotHeld<S, O>(store: Store<S, O>, src: int -> Outcome<S>, c: Codec<S, O>, t: int) {
    src(t).Done? && SnapshotPath(t) in store && store[SnapshotPath(t)] == SnapshotRecord(c, t, src(t).value)
  }

  ghost predicate DiffHeld<S, O>(store: Store<S, O>, src: int -> Outcome<S>, c: Codec<S, O>, t: int) {
    DiffPath(t) in store && Transition(src, c, t) == Done(store[DiffPath(t)])
  }

  // A manifest with the pointers the builder gives: keyframes ks, one diff per transition.
  ghost predicate Laid(m: Manifest, ks: seq<int>) {
    && m.snapshots == SnapshotPointers(ks) && m.diffs == DiffPointers(m.start, m.end)
    && PolicyEnds(m) && DerivedKeyframes(m) == Done(ks)
  }

  lemma {:induction false} SnapshotsWritten<S, O>(m: Manifest, src: int -> Outcome<S>, c: Codec<S, O>,
      ks: seq<int>, ticks: seq<int>, store: Store<S, O>) returns (store': Store<S, O>)
    requires Laid(m, ks) && (forall t :: t in ticks ==> t in ks && src(t).Done?)
    ensures WriteSnapshots(m, src, c, ticks, store) == Done(store')
    ensures forall t :: t in ticks || SnapshotHeld(store, src, c, t) ==> SnapshotHeld(store', src, c, t)
    decreases ticks
  {
    if ticks == [] {
      store' := store;
    } else {
      var t := ticks[0];
      var next := store[SnapshotPath(t) := SnapshotRecord(c, t, src(t).value)];
      store' := SnapshotsWritten(m, src, c, ks, ticks[1..], next);
      forall u | u in ticks || SnapshotHeld(store, src, c, u) ensures SnapshotHeld(store', src, c, u) {
        PathsDistinct(t, u);
        assert SnapshotHeld(store, src, c, u) ==> SnapshotHeld(next, src, c, u);
        assert SnapshotHeld(next, src, c, t);
      }
    }
  }

  lemma {:induction false} DiffsWritten<S, O>(m: Manifest, src: int -> Outcome<S>, c: Codec<S, O>,
      ks: seq<int>, t: int, store: Store<S, O>) returns (store': Store<S, O>)
    requires Laid(m, ks) && m.start in ks && m.start <= t <= m.end
    requires forall u :: t <= u < m.end ==> Transition(src, c, u).Done?
    ensures WriteDiffs(m, src, c, ks, t, store) == Done(store')
    ensures forall u :: SnapshotHeld(store, src, c, u) ==> SnapshotHeld(store', src, c, u)
    ensures forall u :: DiffHeld(store, src, c, u) || t <= u < m.end ==> DiffHeld(store', src, c, u)
    decreases m.end - t
  {
    if t == m.end {
      store' := store;
    } else {
      var next := store[DiffPath(t) := Transition(src, c, t).value];
      store' := DiffsWritten(m, src, c, ks, t + 1, next);
      forall u | SnapshotHeld(store, src, c, u) ensures SnapshotHeld(store', src, c, u) {
        PathsDistinct(u, t);
        assert SnapshotHeld(next, src, c, u);
      }
      forall u | DiffHeld(store, src, c, u) || t <= u < m.end ensures DiffHeld(store', src, c, u) {
        PathsDistinct(t, u);
        assert u == t ==> DiffHeld(next, src, c, t);
        assert DiffHeld(store, src, c, u) ==> DiffHeld(next, src, c, u);
      }
    }
  }

  // Every keyframe's snapshot and every transition's diff are in place.
  ghost predicate Exported<S, O>(store: Store<S, O>, m: Manifest, ks: seq<int>, src: int -> Outcome<S>, c: Codec<S, O>) {
    && (forall t :: t in ks ==> SnapshotHeld(store, src, c, t))
    && (forall t :: m.start <= t < m.end ==> DiffHeld(store, src, c, t))
  }

  /** The exporter fails nowhere in a laid-out window whose states and transitions can be computed. */
  lemma ExportHolds<S, O>(m: Manifest, src: int -> Outcome<S>, c: Codec<S, O>, ks: seq<int>) returns (store: Store<S, O>)
    requires Laid(m, ks) && m.start <= m.end && m.start in ks
    requires forall t :: t in ks ==> src(t).Done?
    requires forall t :: m.start <= t < m.end ==> Transition(src, c, t).Done?
    ensures Export(m, src, c) == Done(store) && Exported(store, m, ks, src, c)
  {
    var first := SnapshotsWritten(m, src, c, ks, ks, map[]);
    store := DiffsWritten(m, src, c, ks, m.start, first);
  }

  // ---- Checksums of the written records ----

  type Sha = s: string | IsHexSha(s) && Lower(s) == s witness seq(64, _ => '0')

  function PathsOf(pointers: map<int, Pointer>): set<string> { set t | t in pointers :: pointers[t].path }

  /** `_compute_integrity_map`: a checksum for every record the manifest points to. */
  function Checksums<S, O>(m: Manifest, store: Store<S, O>, digest: Envelope<S, O> -> Sha): map<string, string>
    requires PathsOf(m.snapshots) <= store.Keys && PathsOf(m.diffs) <= store.Keys
  {
    map p | p in PathsOf(m.snapshots) + PathsOf(m.diffs) :: p := digest(store[p])
  }

  lemma ExportedPaths<S, O>(m: Manifest, ks: seq<int>, store: Store<S, O>, src: int -> Outcome<S>, c: Codec<S, O>)
    requires Laid(m, ks) && Exported(store, m, ks, src, c)
    ensures PathsOf(m.snapshots) <= store.Keys && PathsOf(m.diffs) <= store.Keys
  {
    forall t | t in m.snapshots ensures m.snapshots[t].path in store { assert SnapshotHeld(store, src, c, t); }
    forall t | t in m.diffs ensures m.diffs[t].path in store { assert DiffHeld(store, src, c, t); }
  }

  lemma PathListed(pointers: map<int, Pointer>, t: int)
    requires t in pointers
    ensures pointers[t].path in PathsOf(pointers)
  {
  }

  /** The computed checksums pass `IntegritySpec` and cover every record of the manifest. */
  lemma ChecksumsCover<S, O>(m: Manifest, ks: seq<int>, store: Store<S, O>, digest: Envelope<S, O> -> Sha)
    requires Laid(m, ks) && ks != [] && PathsOf(m.snapshots) <= store.Keys && PathsOf(m.diffs) <= store.Keys
    ensures var sums := Checksums(m, store, digest); IntegrityOk(sums) && CoversAll(sums, ks, m.start, m.end)
  {
    var sums := Checksums(m, store, digest);
    forall t | t in ks ensures SnapshotPointer(t).path in sums { PathListed(m.snapshots, t); }
    forall t | m.start <= t < m.end ensures Covered(DiffPointer(t), sums) { PathListed(m.diffs, t); }
    assert SnapshotPointer(ks[0]).path in sums;
    forall p | p in sums ensures p != "" {
      PathNotEmpty(m, ks, p);
    }
  }

  lemma PathNotEmpty(m: Manifest, ks: seq<int>, p: string)
    requires Laid(m, ks) && p in PathsOf(m.snapshots) + PathsOf(m.diffs)
    ensures p != ""
  {
  }

  // ---- What the reader gets back ----

  // Patching with the computed ops leads exactly to the next state.
  ghost predicate Exact<S, O>(src: int -> Outcome<S>, c: Codec<S, O>, t: int) {
    && src(t).Done? && src(t + 1).Done? && c.diff(src(t).value, src(t + 1).value).Done?
    && c.apply(src(t).value, c.diff(src(t).value, src(t + 1).value).value) == src(t + 1)
  }

  ghost predicate CollisionFree<S(!new), O>(c: Codec<S, O>) {
    forall a, b :: c.hash(a) == c.hash(b) ==> a == b
  }

  lemma DiffStep<S(!new), O>(m: Manifest, store: Store<S, O>, src: int -> Outcome<S>, c: Codec<S, O>, t: int) returns (e: Envelope<S, O>)
    requires m.diffs == DiffPointers(m.start, m.end) && m.start <= t < m.end && DiffHeld(store, src, c, t)
    ensures src(t).Done? && src(t + 1).Done? && Load(store, m.diffs, t) == Done(e)
    ensures e.payload.DiffPayload? && e.payload.hash == c.hash(src(t + 1).value)
    ensures var r := VerifyDiff(c, e, t, c.hash(src(t).value), src(t).value);
      (Exact(src, c, t) ==> r == src(t + 1)) && (CollisionFree(c) && r.Done? ==> Exact(src, c, t))
  {
    e := store[DiffPath(t)];
  }

  /** Replaying exact transitions from a tick's own state arrives at the target's state. */
  lemma {:induction false} ReplayExact<S(!new), O>(m: Manifest, store: Store<S, O>, src: int -> Outcome<S>,
      c: Codec<S, O>, t: int, target: int)
    requires m.diffs == DiffPointers(m.start, m.end) && m.start <= t <= target <= m.end && src(t).Done?
    requires forall u :: t <= u < target ==> DiffHeld(store, src, c, u) && Exact(src, c, u)
    ensures src(target).Done?
    ensures Replay(m, store, c, src(t).value, c.hash(src(t).value), t, target) == src(target)
    decreases target - t
  {
    if t < target {
      var e := DiffStep(m, store, src, c, t);
      ReplayExact(m, store, src, c, t + 1, target);
    }
  }

  /** With a collision-free hash, replay succeeds on nothing but exact transitions. */
  lemma {:induction false} ReplayOnlyExact<S(!new), O>(m: Manifest, store: Store<S, O>, src: int -> Outcome<S>,
      c: Codec<S, O>, t: int, target: int)
    requires m.diffs == DiffPointers(m.start, m.end) && m.start <= t <= target <= m.end && src(t).Done?
    requires forall u :: t <= u < target ==> DiffHeld(store, src, c, u)
    requires CollisionFree(c) && Replay(m, store, c, src(t).value, c.hash(src(t).value), t, target).Done?
    ensures forall u :: t <= u < target ==> Exact(src, c, u)
    decreases target - t
  {
    if t < target {
      var e := DiffStep(m, store, src, c, t);
      ReplayOnlyExact(m, store, src, c, t + 1, target);
    }
  }

  lemma Start<S(!new), O>(m: Manifest, ks: seq<int>, store: Store<S, O>, src: int -> Outcome<S>, c: Codec<S, O>, target: int)
      returns (k: int)
    requires Laid(m, ks) && Exported(store, m, ks, src, c)
    requires 0 <= m.start <= target <= m.end && m.start in ks && Ascends(ks) && Within(ks, m.start, m.end)
    ensures Nearest(ks, target) == Some(k) && m.start <= k <= target && src(k).Done?
    ensures Reconstruct(m, store, c, target) == Replay(m, store, c, src(k).value, c.hash(src(k).value), k, target)
  {
    NearestIs(ks, target);
    k := Nearest(ks, target).value;
    assert SnapshotHeld(store, src, c, k);
  }

  /**
   After an export, reconstruction at any tick of the window returns that tick's state
   if the transitions since the last keyframe are exact, and with a collision-free hash
   only then; otherwise it raises rather than return another state.
   */
  lemma ReconstructExported<S(!new), O>(m: Manifest, ks: seq<int>, store: Store<S, O>, src: int -> Outcome<S>,
      c: Codec<S, O>, target: int) returns (k: int)
    requires Laid(m, ks) && Exported(store, m, ks, src, c)
    requires 0 <= m.start <= target <= m.end && m.start in ks && Ascends(ks) && Within(ks, m.start, m.end)
    ensures Nearest(ks, target) == Some(k) && m.start <= k <= target
    ensures (forall u :: k <= u < target ==> Exact(src, c, u)) ==>
      src(target).Done? && Reconstruct(m, store, c, target) == src(target)
    ensures CollisionFree(c) && Reconstruct(m, store, c, target).Done? ==>
      forall u :: k <= u < target ==> Exact(src, c, u)
  {
    k := Start(m, ks, store, src, c, target);
    if forall u :: k <= u < target ==> Exact(src, c, u) { ReplayExact(m, store, src, c, k, target); }
    if CollisionFree(c) && Reconstruct(m, store, c, target).Done? { ReplayOnlyExact(m, store, src, c, k, target); }
  }

  // ---- Any store at all ----

  // The step hash the store keeps for a tick: in the diff that leads there, or in the keyframe.
  function KeptHash<S, O>(m: Manifest, store: Store<S, O>, k: int, target: int): Option<string> {
    match if k < target then Load(store, m.diffs, target - 1) else Load(store, m.snapshots, k)
    case Raised(_) => None
    case Done(e) => Some(e.payload.hash)
  }

  lemma {:induction false} ReplayMatchesHash<S, O>(m: Manifest, store: Store<S, O>, c: Codec<S, O>, s: S, hash: string,
      t: int, target: int)
    requires t < target && Replay(m, store, c, s, hash, t, target).Done?
    ensures Load(store, m.diffs, target - 1).Done?
    ensures c.hash(Replay(m, store, c, s, hash, t, target).value) == Load(store, m.diffs, target - 1).value.payload.hash
    decreases target - t
  {
    if t + 1 < target {
      var e := Load(store, m.diffs, t).value;
      ReplayMatchesHash(m, store, c, VerifyDiff(c, e, t, hash, s).value, e.payload.hash, t + 1, target);
    }
  }

  /** Whatever is in the store, a reconstructed state has the step hash kept for its tick. */
  lemma ReconstructMatchesHash<S, O>(m: Manifest, store: Store<S, O>, c: Codec<S, O>, ks: seq<int>, k: int, target: int)
    requires PolicyEnds(m) && DerivedKeyframes(m) == Done(ks) && Nearest(ks, target) == Some(k)
    requires Reconstruct(m, store, c, target).Done?
    ensures KeptHash(m, store, k, target) == Some(c.hash(Reconstruct(m, store, c, target).value))
  {
    NearestIs(ks, target);
    if k < target {
      var e := Load(store, m.snapshots, k).value;
      ReplayMatchesHash(m, store, c, e.payload.state, e.payload.hash, k, target);
    }
  }

  /**
   Records may be altered at will: as long as the hash kept for a tick is the right one
   and the hash is collision-free, reconstruction there returns the right state or raises.
   */
  lemma TamperEvident<S(!new), O>(m: Manifest, store: Store<S, O>, c: Codec<S, O>, ks: seq<int>, k: int, target: int, s: S)
    requires PolicyEnds(m) && DerivedKeyframes(m) == Done(ks) && Nearest(ks, target) == Some(k)
    requires CollisionFree(c) && KeptHash(m, store, k, target) == Some(c.hash(s))
    ensures Reconstruct(m, store, c, target) == Done(s) || Reconstruct(m, store, c, target).Raised?
  {
    if Reconstruct(m, store, c, target).Done? { ReconstructMatchesHash(m, store, c, ks, k, target); }
  }

  // ---- What a reconstruction certifies ----

  // The record of one keyframe, good in every respect, for state s.
  ghost predicate GoodSnapshot<S(!new), O>(m: Manifest, store: Store<S, O>, c: Codec<S, O>, t: int, s: S) {
    && t >= 0 && t in m.snapshots && m.snapshots[t].path in store
    && store[m.snapshots[t].path] == Envelope(FullSnapshot, SnapshotPayload(SCHEMA_VERSION, t, s, c.hash(s)))
  }

  // The record of one transition, good in every respect, chained from s and leading to s'.
  ghost predicate GoodDiff<S(!new), O(!new)>(m: Manifest, store: Store<S, O>, c: Codec<S, O>, t: int, s: S, s': S) {
    && t in m.diffs && m.diffs[t].path in store
    && exists ops :: store[m.diffs[t].path] == Envelope(FrameDiff, DiffPayload(SCHEMA_VERSION, t, t + 1, c.hash(s), ops, c.hash(s')))
                     && c.apply(s, ops) == Done(s')
  }

  // One state after another from tick t on, joined by good records.
  ghost predicate Chained<S(!new), O(!new)>(m: Manifest, store: Store<S, O>, c: Codec<S, O>, t: int, states: seq<S>) {
    forall i :: 0 <= i < |states| - 1 ==> GoodDiff(m, store, c, t + i, states[i], states[i + 1])
  }

  lemma VerifiedIsGood<S(!new), O(!new)>(m: Manifest, store: Store<S, O>, c: Codec<S, O>, t: int, s: S, s': S)
    ensures Load(store, m.diffs, t).Done? && VerifyDiff(c, Load(store, m.diffs, t).value, t, c.hash(s), s) == Done(s')
      <==> GoodDiff(m, store, c, t, s, s')
    ensures GoodDiff(m, store, c, t, s, s') ==> Load(store, m.diffs, t).value.payload.hash == c.hash(s')
  {
    if Load(store, m.diffs, t).Done? {
      var e := Load(store, m.diffs, t).value;
      if VerifyDiff(c, e, t, c.hash(s), s) == Done(s') {
        assert e == Envelope(FrameDiff, DiffPayload(SCHEMA_VERSION, t, t + 1, c.hash(s), e.payload.ops, c.hash(s')));
      }
    }
  }

  lemma {:induction false} ReplayTraces<S(!new), O(!new)>(m: Manifest, store: Store<S, O>, c: Codec<S, O>, s: S, t: int,
      target: int) returns (states: seq<S>)
    requires t <= target && Replay(m, store, c, s, c.hash(s), t, target).Done?
    ensures |states| == target - t + 1 && states[0] == s && Chained(m, store, c, t, states)
    ensures Replay(m, store, c, s, c.hash(s), t, target) == Done(states[target - t])
    decreases target - t
  {
    if t == target {
      states := [s];
    } else {
      var e := Load(store, m.diffs, t).value;
      var s' := VerifyDiff(c, e, t, c.hash(s), s).value;
      VerifiedIsGood(m, store, c, t, s, s');
      var rest := ReplayTraces(m, store, c, s', t + 1, target);
      states := [s] + rest;
      forall i | 0 <= i < |states| - 1 ensures GoodDiff(m, store, c, t + i, states[i], states[i + 1]) {
        assert i > 0 ==> GoodDiff(m, store, c, t + 1 + (i - 1), rest[i - 1], rest[i]);
      }
    }
  }

  lemma {:induction false} TraceReplays<S(!new), O(!new)>(m: Manifest, store: Store<S, O>, c: Codec<S, O>, t: int, states: seq<S>)
    requires states != [] && Chained(m, store, c, t, states)
    ensures Replay(m, store, c, states[0], c.hash(states[0]), t, t + |states| - 1) == Done(states[|states| - 1])
    decreases |states|
  {
    if |states| > 1 {
      assert GoodDiff(m, store, c, t + 0, states[0], states[1]);
      VerifiedIsGood(m, store, c, t, states[0], states[1]);
      var rest := states[1..];
      forall i | 0 <= i < |rest| - 1 ensures GoodDiff(m, store, c, t + 1 + i, rest[i], rest[i + 1]) {
        assert GoodDiff(m, store, c, t + (i + 1), states[i + 1], states[i + 2]);
      }
      TraceReplays(m, store, c, t + 1, rest);
    }
  }

  // A good keyframe record and an unbroken chain of good diff records behind a state.
  ghost predicate Certified<S(!new), O(!new)>(m: Manifest, store: Store<S, O>, c: Codec<S, O>, k: int, target: int, s: S) {
    exists states :: |states| == target - k + 1 && k <= target && states[target - k] == s
                     && GoodSnapshot(m, store, c, k, states[0]) && Chained(m, store, c, k, states)
  }

  lemma SnapshotVerifies<S(!new), O>(m: Manifest, store: Store<S, O>, c: Codec<S, O>, k: int, s: S)
    ensures GoodSnapshot(m, store, c, k, s) <==>
      Load(store, m.snapshots, k).Done? && VerifySnapshot(c, Load(store, m.snapshots, k).value, k) == Done(s)
    ensures GoodSnapshot(m, store, c, k, s) ==> Load(store, m.snapshots, k).value.payload.hash == c.hash(s)
  {
    if Load(store, m.snapshots, k).Done? {
      var e := Load(store, m.snapshots, k).value;
      if VerifySnapshot(c, e, k) == Done(s) {
        assert e == Envelope(FullSnapshot, SnapshotPayload(SCHEMA_VERSION, k, s, c.hash(s)));
      }
    }
  }

  /**
   Whatever is in the store, reconstruction returns a state exactly when the window has
   the tick, a keyframe comes at or before it, and that keyframe's record and every diff
   record from there on are in place, of the right kind, version and ticks, with right
   hashes and chained one to the next, the last of them leading to that state.
   */
  lemma ReconstructCertifies<S(!new), O(!new)>(m: Manifest, store: Store<S, O>, c: Codec<S, O>, target: int, s: S)
    requires PolicyEnds(m)
    ensures Reconstruct(m, store, c, target) == Done(s) <==>
      && m.start <= target <= m.end && DerivedKeyframes(m).Done? && Nearest(DerivedKeyframes(m).value, target).Some?
      && Certified(m, store, c, Nearest(DerivedKeyframes(m).value, target).value, target, s)
  {
    if m.start <= target <= m.end && DerivedKeyframes(m).Done? && Nearest(DerivedKeyframes(m).value, target).Some? {
      var k := Nearest(DerivedKeyframes(m).value, target).value;
      NearestIs(DerivedKeyframes(m).value, target);
      if Reconstruct(m, store, c, target) == Done(s) {
        var e := Load(store, m.snapshots, k).value;
        SnapshotVerifies(m, store, c, k, e.payload.state);
        var states := ReplayTraces(m, store, c, e.payload.state, k, target);
        assert Certified(m, store, c, k, target, s);
      }
      if Certified(m, store, c, k, target, s) {
        var states :| |states| == target - k + 1 && k <= target && states[target - k] == s
                      && GoodSnapshot(m, store, c, k, states[0]) && Chained(m, store, c, k, states);
        SnapshotVerifies(m, store, c, k, states[0]);
        TraceReplays(m, store, c, k, states);
      }
    }
  }

  // A diff record of one tick's transition, whatever its hashes and ops.
  predicate DiffForm<S, O>(e: Envelope<S, O>) {
    e.msgType == FrameDiff && e.payload.DiffPayload? && e.payload.version == SCHEMA_VERSION && e.payload.to == e.payload.from + 1
  }

  /**
   What is reported of a record that is not good: a wrong form first, then for a diff a
   broken chain, a patch that fails, a wrong hash, and a wrong tick last; for a snapshot a
   wrong hash before a wrong tick.
   */
  lemma FaultsExactly<S, O>(c: Codec<S, O>, e: Envelope<S, O>, t: int, hash: string, s: S)
    ensures VerifySnapshot(c, e, t) == Raised(HashMismatch) <==>
      && e.msgType == FullSnapshot && e.payload.SnapshotPayload? && e.payload.version == SCHEMA_VERSION
      && c.hash(e.payload.state) != e.payload.hash
    ensures VerifySnapshot(c, e, t).Raised? ==> VerifySnapshot(c, e, t).failure in {HashMismatch, BadRecord}
    ensures var r := VerifyDiff(c, e, t, hash, s);
      if !DiffForm(e) then r == Raised(BadRecord)
      else if e.payload.prev != hash then r == Raised(BrokenChain)
      else if c.apply(s, e.payload.ops).Raised? then r == c.apply(s, e.payload.ops)
      else if c.hash(c.apply(s, e.payload.ops).value) != e.payload.hash then r == Raised(HashMismatch)
      else if e.payload.from != t then r == Raised(BadRecord) else r.Done?
  {
  }

  /** What is reported before any record is read. */
  lemma NoWayIn<S, O>(m: Manifest, store: Store<S, O>, c: Codec<S, O>, target: int)
    requires PolicyEnds(m)
    ensures target < m.start || target > m.end ==> Reconstruct(m, store, c, target) == Raised(OutOfWindow)
    ensures m.start <= target <= m.end && m.interval.None? && m.ticks.None? ==> Reconstruct(m, store, c, target) == Raised(NoPolicy)
    ensures m.start <= target <= m.end && m.ticks.Some? && (forall k :: k in m.ticks.value ==> k > target) ==>
      Reconstruct(m, store, c, target) == Raised(NoKeyframe)
    ensures m.start <= target <= m.end && m.ticks == Some([target]) && (target in m.snapshots ==> m.snapshots[target].path !in store) ==>
      Reconstruct(m, store, c, target) == Raised(MissingRecord)
  {
    if m.ticks.Some? { NearestIs(m.ticks.value, target); }
  }

  // ---- The exporter and the verifier as they run ----

  // The hashes remembered so far are those of the states at their ticks.
  ghost predicate Remembers<S, O>(hashes: map<int, string>, src: int -> Outcome<S>, c: Codec<S, O>) {
    forall t :: t in hashes ==> src(t).Done? && hashes[t] == c.hash(src(t).value)
  }

  method ExportSnapshots<S, O>(m: Manifest, src: int -> Outcome<S>, c: Codec<S, O>, ks: seq<int>)
      returns (r: Outcome<Store<S, O>>, hashes: map<int, string>)
    ensures r == WriteSnapshots(m, src, c, ks, map[])
    ensures r.Done? ==> Remembers(hashes, src, c) && forall t :: t in ks <==> t in hashes
  {
    var store: Store<S, O> := map[];
    hashes := map[];
    for i := 0 to |ks|
      invariant WriteSnapshots(m, src, c, ks, map[]) == WriteSnapshots(m, src, c, ks[i..], store)
      invariant Remembers(hashes, src, c) && forall t :: t in ks[..i] <==> t in hashes
    {
      var t := ks[i];
      assert ks[i..][1..] == ks[i + 1..] && ks[..i + 1] == ks[..i] + [t];
      if !SnapshotPointerOk(m, t) { r := Raised(BadPointer); return; }
      var s := src(t);
      if s.Raised? { r := Raised(s.failure); return; }
      store := store[m.snapshots[t].path := SnapshotRecord(c, t, s.value)];
      hashes := hashes[t := c.hash(s.value)];
    }
    assert ks[..|ks|] == ks;
    r := Done(store);
  }

  lemma DiffUnderHash<S, O>(src: int -> Outcome<S>, c: Codec<S, O>, t: int, prev: string)
    requires src(t).Done? && prev == c.hash(src(t).value)
    ensures Transition(src, c, t).Done? ==>
      Transition(src, c, t).value.payload.DiffPayload? && Transition(src, c, t).value.payload.prev == prev
      && src(t + 1).Done? && Transition(src, c, t).value.payload.hash == c.hash(src(t + 1).value)
  {
  }

  // `_diff_payload` in its envelope, chained to the hash the exporter remembers.
  method DiffEnvelope<S, O>(src: int -> Outcome<S>, c: Codec<S, O>, t: int, prev: string) returns (r: Outcome<Envelope<S, O>>)
    requires src(t).Done? ==> prev == c.hash(src(t).value)
    ensures r == Transition(src, c, t)
  {
    var a := src(t);
    if a.Raised? { return Raised(a.failure); }
    var b := src(t + 1);
    if b.Raised? { return Raised(b.failure); }
    var ops := c.diff(a.value, b.value);
    if ops.Raised? { return Raised(ops.failure); }
    r := Done(Envelope(FrameDiff, DiffPayload(SCHEMA_VERSION, t, t + 1, prev, ops.value, c.hash(b.value))));
  }

  method ExportStateRecords<S, O>(m: Manifest, src: int -> Outcome<S>, c: Codec<S, O>) returns (r: Outcome<Store<S, O>>)
    requires PolicyEnds(m)
    ensures r == Export(m, src, c)
  {
    var ks := DeriveKeyframeTicks(m);
    if ks.Raised? { return Raised(ks.failure); }
    var first, snapshotHash := ExportSnapshots(m, src, c, ks.value);
    if first.Raised? { return first; }
    var store, lastHash := first.value, snapshotHash;
    var from := m.start;
    while from < m.end
      invariant m.start <= from
      invariant WriteDiffs(m, src, c, ks.value, m.start, first.value) == WriteDiffs(m, src, c, ks.value, from, store)
      invariant Remembers(lastHash, src, c)
      invariant forall t :: t in ks.value ==> t in lastHash
      invariant from > m.start ==> from - 1 in m.diffs && from in lastHash && m.start in ks.value
      invariant from == m.start ==> lastHash == snapshotHash
      decreases m.end - from
    {
      if !DiffPointerOk(m, from) { return Raised(BadPointer); }
      NearestIs(ks.value, from);
      var k := Nearest(ks.value, from);
      if k.None? { return Raised(BrokenChain); }
      if from != k.value && (from - 1 !in m.diffs || from !in lastHash) { return Raised(BrokenChain); }
      var prev := if from == k.value then snapshotHash[from] else lastHash[from];
      var record := DiffEnvelope(src, c, from, prev);
      if record.Raised? { return Raised(record.failure); }
      DiffUnderHash(src, c, from, prev);
      store := store[m.diffs[from].path := record.value];
      lastHash := lastHash[from + 1 := record.value.payload.hash];
      from := from + 1;
    }
    r := Done(store);
  }

  method ReconstructStateAtTick<S, O>(m: Manifest, store: Store<S, O>, c: Codec<S, O>, target: int) returns (r: Outcome<S>)
    requires PolicyEnds(m)
    ensures r == Reconstruct(m, store, c, target)
  {
    if !(m.start <= target <= m.end) { return Raised(OutOfWindow); }
    var ks := DeriveKeyframeTicks(m);
    if ks.Raised? { return Raised(ks.failure); }
    var k := Nearest(ks.value, target);
    if k.None? { return Raised(NoKeyframe); }
    var snapshot := Load(store, m.snapshots, k.value);
    if snapshot.Raised? { return Raised(snapshot.failure); }
    r := VerifySnapshot(c, snapshot.value, k.value);
    if r.Raised? { return; }
    NearestIs(ks.value, target);
    var state, hash, tick := r.value, snapshot.value.payload.hash, k.value;
    while tick < target
      invariant Replay(m, store, c, r.value, snapshot.value.payload.hash, k.value, target)
             == Replay(m, store, c, state, hash, tick, target)
      decreases target - tick
    {
      var e := Load(store, m.diffs, tick);
      if e.Raised? { return Raised(e.failure); }
      var next := VerifyDiff(c, e.value, tick, hash, state);
      if next.Raised? { return Raised(next.failure); }
      state, hash, tick := next.value, e.value.payload.hash, tick + 1;
    }
    r := Done(state);
  }
}
