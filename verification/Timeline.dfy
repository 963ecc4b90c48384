/** The case timeline applied to the cast, `case_mbam/npc_timeline_runtime.py` and `npc_state.py`. */
module Timeline {
  import opened Json
  import opened Ordering

  datatype Beat = Beat(id: string, offset: int, actor: Option<string>, location: Option<string>)

  datatype Cast = Elodie | Marc | Samira | Laurent | Jo

  function CastName(c: Cast): string {
    match c
    case Elodie => "elodie"
    case Marc => "marc"
    case Samira => "samira"
    case Laurent => "laurent"
    case Jo => "jo"
  }

  // `_as_npc_id`.
  function CastOf(actor: Option<string>): Option<Cast> {
    if actor == Some("elodie") then Some(Elodie)
    else if actor == Some("marc") then Some(Marc)
    else if actor == Some("samira") then Some(Samira)
    else if actor == Some("laurent") then Some(Laurent)
    else if actor == Some("jo") then Some(Jo)
    else None
  }

  datatype Availability = Available | Busy | Gone | Restricted
  datatype Trend = Up | Flat | Down
  datatype Stance = Helpful | Procedural | Evasive | Defensive | Manipulative | Flustered
  datatype Emotion = Calm | Stressed | Amused | Annoyed | Nervous | Guarded

  datatype Npc = Npc(
    roleSlot: string, room: string, availability: Availability, trust: real, stress: real,
    stance: Stance, emotion: Emotion, flags: set<string>, trend: Trend,
    current: Option<string>, next: Option<string>, lastTransition: Option<int>)

  type Npcs = map<Cast, Npc>

  // ---- What one beat does to its actor ----

  datatype Affect = Affect(
    trustDelta: real, stressDelta: real, stance: Option<Stance>, emotion: Option<Emotion>, flag: Option<string>)

  const NO_AFFECT := Affect(0.0, 0.0, None, None, None)

  function AffectFor(b: Beat, n: Npc): Affect {
    if b.id == "T_PLUS_02_CURATOR_CONTAINMENT" then
      Affect(0.0, 0.10, Some(Procedural), Some(Guarded), Some("beat_curator_containment"))
    else if b.id == "T_PLUS_05_GUARD_PATROL_SHIFT" then
      Affect(0.0, 0.05, Some(Procedural), Some(Guarded), Some("beat_guard_patrol_shift"))
    else if b.id == "T_PLUS_08_INTERN_MOVEMENT" then
      Affect(0.0, 0.10, Some(if n.roleSlot == "CULPRIT" then Flustered else n.stance), Some(Nervous),
             Some("beat_intern_movement"))
    else if b.id == "T_PLUS_10_DONOR_EVENT" then
      Affect(0.0, 0.05, Some(Defensive), Some(Guarded), Some("beat_donor_event"))
    else if b.id == "T_PLUS_12_BARISTA_WITNESS_WINDOW" then
      Affect(0.0, -0.05, Some(Helpful), Some(Calm), Some("beat_witness_window"))
    else if b.id == "T_PLUS_15_TERMINAL_ARCHIVE" then
      Affect(-0.05, 0.10, Some(Procedural), Some(Annoyed), Some("beat_terminal_archive"))
    else NO_AFFECT
  }

  function AvailabilityFor(b: Beat, n: Npc): Availability {
    if b.id == "T_PLUS_02_CURATOR_CONTAINMENT" then Busy
    else if b.id == "T_PLUS_10_DONOR_EVENT" then (if b.location == Some("PHONE_REMOTE") then Busy else Available)
    else if b.id == "T_PLUS_15_TERMINAL_ARCHIVE" then Restricted
    else n.availability
  }

  /** `min(1.0, max(0.0, x))`. */
  function Clamp(x: real): (r: real)
    ensures 0.0 <= r <= 1.0 && (0.0 <= x <= 1.0 ==> r == x) && (x > 1.0 ==> r == 1.0) && (x < 0.0 ==> r == 0.0)
  {
    if x < 0.0 then 0.0 else if x > 1.0 then 1.0 else x
  }

  function Or<T>(a: Option<T>, b: T): T { if a.Some? then a.value else b }

  // `apply_npc_affect_update`.
  function Affected(n: Npc, a: Affect): Npc {
    n.(trust := Clamp(n.trust + a.trustDelta), stress := Clamp(n.stress + a.stressDelta),
       stance := Or(a.stance, n.stance), emotion := Or(a.emotion, n.emotion),
       flags := n.flags + (if a.flag.Some? then {a.flag.value} else {}),
       trend := if a.trustDelta > 0.0 then Up else if a.trustDelta < 0.0 then Down else Flat)
  }

  function Moved(n: Npc, b: Beat): Npc {
    var m := Affected(n, AffectFor(b, n));
    m.(room := Or(b.location, m.room), availability := AvailabilityFor(b, m),
       current := Some(b.id), lastTransition := Some(b.offset))
  }

  // A beat without an actor in the cast only counts as applied.
  function Play1(npcs: Npcs, b: Beat): Npcs {
    var c := CastOf(b.actor);
    if c.Some? && c.value in npcs then npcs[c.value := Moved(npcs[c.value], b)] else npcs
  }

  function Play(npcs: Npcs, beats: seq<Beat>): Npcs {
    if beats == [] then npcs else Play(Play1(npcs, beats[0]), beats[1..])
  }

  // ---- Which beats are due ----

  // `(time_offset_sec, beat_id)`.
  predicate BeatLe(a: Beat, b: Beat) { a.offset < b.offset || (a.offset == b.offset && StrLe(a.id, b.id)) }

  predicate IsDue(b: Beat, t: real, applied: set<string>) { b.offset as real <= t && b.id !in applied }

  function Pick(beats: seq<Beat>, t: real, applied: set<string>): seq<Beat> {
    if beats == [] then []
    else (if IsDue(beats[0], t, applied) then [beats[0]] else []) + Pick(beats[1..], t, applied)
  }

  function Due(schedule: seq<Beat>, t: real, applied: set<string>): seq<Beat> {
    Sort(Pick(schedule, t, applied), BeatLe)
  }

  function Ids(beats: seq<Beat>): set<string> { set b | b in beats :: b.id }

  // The schedule's own check: no beat id twice.
  ghost predicate UniqueIds(schedule: seq<Beat>) {
    forall i, j :: 0 <= i < j < |schedule| ==> schedule[i].id != schedule[j].id
  }

  // ---- One application ----

  function NextBeat(schedule: seq<Beat>, c: Cast, applied: set<string>, t: real): Option<string> {
    var later := Sort(Later(schedule, c, applied, t), BeatLe);
    if later == [] then None else Some(later[0].id)
  }

  function Later(schedule: seq<Beat>, c: Cast, applied: set<string>, t: real): seq<Beat> {
    if schedule == [] then []
    else
      var b := schedule[0];
      (if b.actor == Some(CastName(c)) && b.id !in applied && b.offset as real > t then [b] else [])
      + Later(schedule[1..], c, applied, t)
  }

  function Refresh(npcs: Npcs, schedule: seq<Beat>, applied: set<string>, t: real): Npcs {
    map c | c in npcs :: npcs[c].(next := NextBeat(schedule, c, applied, t))
  }

  datatype Run = Run(npcs: Npcs, applied: set<string>)

  /** `apply_case_timeline_to_npc_states`. */
  function Apply(schedule: seq<Beat>, r: Run, t: real): Run {
    var due := Due(schedule, t, r.applied);
    var applied := r.applied + Ids(due);
    Run(Refresh(Play(r.npcs, due), schedule, applied, t), applied)
  }

  /** The timeline sampled at several times, one after another. */
  function Samples(schedule: seq<Beat>, r: Run, times: seq<real>): Run
    decreases |times|
  {
    if times == [] then r else Samples(schedule, Apply(schedule, r, times[0]), times[1..])
  }

  // ---- Due beats ----

  lemma BeatLeIsPreorder()
    ensures TotalPreorder(BeatLe)
  {
    forall a, b ensures Total(BeatLe, a, b) { StrLeTotal(a.id, b.id); }
    forall a, b, c ensures Transitive(BeatLe, a, b, c) {
      if BeatLe(a, b) && BeatLe(b, c) && a.offset == c.offset { StrLeTransitive(a.id, b.id, c.id); }
    }
  }

  lemma {:induction false} PickExact(beats: seq<Beat>, t: real, applied: set<string>)
    ensures forall b :: b in Pick(beats, t, applied) <==> b in beats && IsDue(b, t, applied)
    ensures UniqueIds(beats) ==> UniqueIds(Pick(beats, t, applied))
  {
    if beats != [] {
      PickExact(beats[1..], t, applied);
      var rest := Pick(beats[1..], t, applied);
      forall b | b in beats ensures b == beats[0] || b in beats[1..] {}
      if UniqueIds(beats) {
        forall i | 0 <= i < |rest| ensures rest[i].id != beats[0].id { assert rest[i] in beats[1..]; }
      }
    }
  }

  lemma SortMembers(beats: seq<Beat>)
    ensures forall b :: b in Sort(beats, BeatLe) <==> b in beats
    ensures Sorted(Sort(beats, BeatLe), BeatLe) && multiset(Sort(beats, BeatLe)) == multiset(beats)
  {
    BeatLeIsPreorder();
    SortCorrect(beats, BeatLe);
    forall b ensures b in Sort(beats, BeatLe) <==> b in beats {
      assert b in multiset(beats) <==> b in beats;
      assert b in multiset(Sort(beats, BeatLe)) <==> b in Sort(beats, BeatLe);
    }
  }

  lemma DueExact(schedule: seq<Beat>, t: real, applied: set<string>)
    ensures forall b :: b in Due(schedule, t, applied) <==> b in schedule && IsDue(b, t, applied)
    ensures Sorted(Due(schedule, t, applied), BeatLe)
  {
    PickExact(schedule, t, applied);
    SortMembers(Pick(schedule, t, applied));
  }

  // What is due by t is what is due by s, and then the rest.
  lemma {:induction false} PickSplit(beats: seq<Beat>, s: real, t: real, before: set<string>, after: set<string>)
    requires s <= t && forall b :: b in beats ==> (b.id in after <==> b.id in before || IsDue(b, s, before))
    ensures multiset(Pick(beats, t, before)) == multiset(Pick(beats, s, before)) + multiset(Pick(beats, t, after))
  {
    if beats != [] {
      assert beats[0] in beats;
      PickSplit(beats[1..], s, t, before, after);
    }
  }

  lemma IdsAfter(schedule: seq<Beat>, s: real, before: set<string>)
    requires UniqueIds(schedule)
    ensures forall b :: b in schedule ==> (b.id in before + Ids(Due(schedule, s, before)) <==> b.id in before || IsDue(b, s, before))
  {
    DueExact(schedule, s, before);
    forall b | b in schedule && b.id in Ids(Due(schedule, s, before)) ensures IsDue(b, s, before) {
      var d :| d in Due(schedule, s, before) && d.id == b.id;
      SameBeat(schedule, b, d);
    }
  }

  lemma SameBeat(schedule: seq<Beat>, a: Beat, b: Beat)
    requires UniqueIds(schedule) && a in schedule && b in schedule && a.id == b.id
    ensures a == b
  {
    var i :| 0 <= i < |schedule| && schedule[i] == a;
    var j :| 0 <= j < |schedule| && schedule[j] == b;
    assert i == j;
  }

  lemma DueStrict(schedule: seq<Beat>, t: real, applied: set<string>)
    requires UniqueIds(schedule)
    ensures StrictOn(Due(schedule, t, applied), BeatLe)
  {
    DueExact(schedule, t, applied);
    var due := Due(schedule, t, applied);
    forall a, b | a in due && b in due ensures Antisymmetric(BeatLe, a, b) {
      if BeatLe(a, b) && BeatLe(b, a) {
        StrLeTotal(a.id, b.id);
        SameBeat(schedule, a, b);
      }
    }
  }

  // Earlier due beats come before those that fall due later.
  lemma DueInOrder(schedule: seq<Beat>, s: real, t: real, before: set<string>)
    requires s <= t && UniqueIds(schedule)
    ensures var first := Due(schedule, s, before);
      Sorted(first + Due(schedule, t, before + Ids(first)), BeatLe)
  {
    var first := Due(schedule, s, before);
    var after := before + Ids(first);
    var rest := Due(schedule, t, after);
    DueExact(schedule, s, before);
    DueExact(schedule, t, after);
    IdsAfter(schedule, s, before);
    forall a, b | a in first && b in rest ensures BeatLe(a, b) {
      assert a.offset as real <= s && b.id !in before;
      assert !IsDue(b, s, before);
    }
    SortedAppend(first, rest);
  }

  lemma SortedAppend(a: seq<Beat>, b: seq<Beat>)
    requires Sorted(a, BeatLe) && Sorted(b, BeatLe) && forall x, y :: x in a && y in b ==> BeatLe(x, y)
    ensures Sorted(a + b, BeatLe)
  {
    forall i, j | 0 <= i < j < |a + b| ensures BeatLe((a + b)[i], (a + b)[j]) {
      if i < |a| <= j { assert a[i] in a && b[j - |a|] in b; }
    }
  }

  /** The beats due by the later time are those due by the earlier one followed by the ones that then remain. */
  lemma DueSplit(schedule: seq<Beat>, s: real, t: real, before: set<string>)
    requires s <= t && UniqueIds(schedule)
    ensures var first := Due(schedule, s, before);
      Due(schedule, t, before) == first + Due(schedule, t, before + Ids(first))
  {
    var first := Due(schedule, s, before);
    var after := before + Ids(first);
    IdsAfter(schedule, s, before);
    PickSplit(schedule, s, t, before, after);
    SortMembers(Pick(schedule, s, before));
    SortMembers(Pick(schedule, t, after));
    SortMembers(Pick(schedule, t, before));
    DueInOrder(schedule, s, t, before);
    DueStrict(schedule, t, before);
    BeatLeIsPreorder();
    SortedUnique(Due(schedule, t, before), first + Due(schedule, t, after), BeatLe);
  }

  // ---- Sampling ----

  lemma {:induction false} PlayAppend(npcs: Npcs, a: seq<Beat>, b: seq<Beat>)
    ensures Play(npcs, a + b) == Play(Play(npcs, a), b)
    decreases |a|
  {
    if a == [] {
      assert a + b == b;
    } else {
      assert (a + b)[1..] == a[1..] + b;
      PlayAppend(Play1(npcs, a[0]), a[1..], b);
    }
  }

  // Equal but for the announced next beats.
  ghost predicate SameButNext(x: Npcs, y: Npcs) {
    x.Keys == y.Keys && forall c :: c in x ==> x[c].(next := None) == y[c].(next := None)
  }

  lemma {:induction false} PlaySame(x: Npcs, y: Npcs, beats: seq<Beat>)
    requires SameButNext(x, y)
    ensures SameButNext(Play(x, beats), Play(y, beats))
    decreases |beats|
  {
    if beats != [] {
      PlaySame1(x, y, beats[0]);
      PlaySame(Play1(x, beats[0]), Play1(y, beats[0]), beats[1..]);
    }
  }

  lemma PlaySame1(x: Npcs, y: Npcs, b: Beat)
    requires SameButNext(x, y)
    ensures SameButNext(Play1(x, b), Play1(y, b))
  {
    var c := CastOf(b.actor);
    if c.Some? && c.value in x { MovedSame(x[c.value], y[c.value], b); }
  }

  lemma MovedSame(m: Npc, n: Npc, b: Beat)
    requires m.(next := None) == n.(next := None)
    ensures Moved(m, b).(next := None) == Moved(n, b).(next := None)
  {
    SameAffect(m, n, b);
  }

  lemma SameAffect(m: Npc, n: Npc, b: Beat)
    requires m.roleSlot == n.roleSlot && m.stance == n.stance
    ensures AffectFor(b, m) == AffectFor(b, n)
  {
  }

  lemma RefreshSame(x: Npcs, y: Npcs, schedule: seq<Beat>, applied: set<string>, t: real)
    requires SameButNext(x, y)
    ensures Refresh(x, schedule, applied, t) == Refresh(y, schedule, applied, t)
  {
    forall c | c in x
      ensures x[c].(next := NextBeat(schedule, c, applied, t)) == y[c].(next := NextBeat(schedule, c, applied, t))
    {
      assert x[c].(next := None) == y[c].(next := None);
    }
  }

  lemma RefreshKeeps(x: Npcs, schedule: seq<Beat>, applied: set<string>, t: real)
    ensures SameButNext(Refresh(x, schedule, applied, t), x)
  {
  }

  /** Applying the timeline at an earlier time first makes no difference. */
  lemma ApplyTwice(schedule: seq<Beat>, r: Run, s: real, t: real)
    requires s <= t && UniqueIds(schedule)
    ensures Apply(schedule, Apply(schedule, r, s), t) == Apply(schedule, r, t)
  {
    hide Due, Play, Refresh, SameButNext, Ids;
    var first := Due(schedule, s, r.applied);
    var mid := Apply(schedule, r, s);
    var rest := Due(schedule, t, mid.applied);
    DueSplit(schedule, s, t, r.applied);
    AppliedTwice(r.applied, first, rest);
    assert Due(schedule, t, r.applied) == first + rest;
    assert mid.applied + Ids(rest) == r.applied + Ids(first + rest);
    PlayTwice(schedule, r.npcs, first, rest, mid.applied, s);
    RefreshSame(Play(mid.npcs, rest), Play(r.npcs, first + rest), schedule, r.applied + Ids(first + rest), t);
  }

  // Announcing the next beats between two stretches changes nothing but the announcements.
  lemma PlayTwice(schedule: seq<Beat>, npcs: Npcs, first: seq<Beat>, rest: seq<Beat>, applied: set<string>, s: real)
    ensures SameButNext(Play(Refresh(Play(npcs, first), schedule, applied, s), rest), Play(npcs, first + rest))
  {
    PlayAppend(npcs, first, rest);
    RefreshKeeps(Play(npcs, first), schedule, applied, s);
    PlaySame(Refresh(Play(npcs, first), schedule, applied, s), Play(npcs, first), rest);
  }

  lemma AppliedTwice(applied: set<string>, a: seq<Beat>, b: seq<Beat>)
    ensures (applied + Ids(a)) + Ids(b) == applied + Ids(a + b)
  {
    IdsOfBoth(a, b);
  }

  lemma IdsOfBoth(a: seq<Beat>, b: seq<Beat>)
    ensures Ids(a + b) == Ids(a) + Ids(b)
  {
  }

  ghost predicate NonDecreasing(times: seq<real>) { forall i, j :: 0 <= i < j < |times| ==> times[i] <= times[j] }

  /** Sampling does not matter: any non-decreasing sequence of times does what its last one does alone. */
  lemma {:induction false} SamplingDoesNotMatter(schedule: seq<Beat>, r: Run, times: seq<real>)
    requires UniqueIds(schedule) && times != [] && NonDecreasing(times)
    ensures Samples(schedule, r, times) == Apply(schedule, r, times[|times| - 1])
    decreases |times|
  {
    if |times| > 1 {
      SamplingDoesNotMatter(schedule, Apply(schedule, r, times[0]), times[1..]);
      ApplyTwice(schedule, r, times[0], times[|times| - 1]);
    }
  }

  // The beats that take effect over the samples, in order.
  function Played(schedule: seq<Beat>, r: Run, times: seq<real>): seq<Beat>
    decreases |times|
  {
    if times == [] then []
    else Due(schedule, times[0], r.applied) + Played(schedule, Apply(schedule, r, times[0]), times[1..])
  }

  /** However it is sampled, each beat due by the end takes effect exactly once, in timeline order. */
  lemma {:induction false} EachBeatOnce(schedule: seq<Beat>, r: Run, times: seq<real>)
    requires UniqueIds(schedule) && times != [] && NonDecreasing(times)
    ensures Played(schedule, r, times) == Due(schedule, times[|times| - 1], r.applied)
    decreases |times|
  {
    if |times| > 1 {
      EachBeatOnce(schedule, Apply(schedule, r, times[0]), times[1..]);
      DueSplit(schedule, times[0], times[|times| - 1], r.applied);
    } else {
      assert Played(schedule, r, times) == Due(schedule, times[0], r.applied) + [];
    }
  }

  // ---- Trust and stress ----

  ghost predicate InRange(npcs: Npcs) {
    forall c :: c in npcs ==> 0.0 <= npcs[c].trust <= 1.0 && 0.0 <= npcs[c].stress <= 1.0
  }

  lemma {:induction false} PlayInRange(npcs: Npcs, beats: seq<Beat>)
    requires InRange(npcs)
    ensures InRange(Play(npcs, beats)) && Play(npcs, beats).Keys == npcs.Keys
    decreases |beats|
  {
    if beats != [] { PlayInRange(Play1(npcs, beats[0]), beats[1..]); }
  }

  /** Trust and stress never leave the unit interval, and no one joins or leaves the cast. */
  lemma {:induction false} SamplesInRange(schedule: seq<Beat>, r: Run, times: seq<real>)
    requires InRange(r.npcs)
    ensures InRange(Samples(schedule, r, times).npcs) && Samples(schedule, r, times).npcs.Keys == r.npcs.Keys
    decreases |times|
  {
    if times != [] {
      var t := times[0];
      PlayInRange(r.npcs, Due(schedule, t, r.applied));
      SamplesInRange(schedule, Apply(schedule, r, t), times[1..]);
    }
  }

  // ---- Each actor by themselves ----

  // The beats of one actor, in order.
  function Own(beats: seq<Beat>, c: Cast): seq<Beat> {
    if beats == [] then []
    else (if beats[0].actor == Some(CastName(c)) then [beats[0]] else []) + Own(beats[1..], c)
  }

  // One actor's life through beats.
  function Life(n: Npc, beats: seq<Beat>): Npc
    decreases |beats|
  {
    if beats == [] then n else Life(Moved(n, beats[0]), beats[1..])
  }

  lemma CastNames(actor: Option<string>, c: Cast)
    ensures CastOf(actor) == Some(c) <==> actor == Some(CastName(c))
  {
    assert "elodie"[0] == 'e' && "marc"[0] == 'm' && "samira"[0] == 's' && "laurent"[0] == 'l' && "jo"[0] == 'j';
  }

  lemma {:induction false} PlayedAlone(npcs: Npcs, beats: seq<Beat>, c: Cast)
    requires c in npcs
    ensures c in Play(npcs, beats) && Play(npcs, beats)[c] == Life(npcs[c], Own(beats, c))
    decreases |beats|
  {
    hide Moved, CastOf, CastName;
    if beats != [] {
      var b := beats[0];
      CastNames(b.actor, c);
      PlayedAlone(Play1(npcs, b), beats[1..], c);
      if CastOf(b.actor) == Some(c) {
        assert Own(beats, c)[0] == b && Own(beats, c)[1..] == Own(beats[1..], c);
      } else {
        assert [] + Own(beats[1..], c) == Own(beats[1..], c);
      }
    }
  }

  /** The timeline moves each actor through their own due beats, in order, and through no one else's, and announces the next. */
  lemma ActorsLiveAlone(schedule: seq<Beat>, r: Run, t: real, c: Cast)
    requires c in r.npcs
    ensures var v := Apply(schedule, r, t);
      && v.npcs.Keys == r.npcs.Keys && v.applied == r.applied + Ids(Due(schedule, t, r.applied))
      && v.npcs[c] == Life(r.npcs[c], Own(Due(schedule, t, r.applied), c)).(next := NextBeat(schedule, c, v.applied, t))
  {
    PlayedAlone(r.npcs, Due(schedule, t, r.applied), c);
    PlayKeys(r.npcs, Due(schedule, t, r.applied));
    hide Play, Due, NextBeat, Life, Own, Moved;
  }

  // ---- What a beat moves ----

  // By how many hundredths a beat moves its actor's stress.
  function Strain(b: Beat): int {
    if b.id in {"T_PLUS_02_CURATOR_CONTAINMENT", "T_PLUS_08_INTERN_MOVEMENT", "T_PLUS_15_TERMINAL_ARCHIVE"} then 10
    else if b.id in {"T_PLUS_05_GUARD_PATROL_SHIFT", "T_PLUS_10_DONOR_EVENT"} then 5
    else if b.id == "T_PLUS_12_BARISTA_WITNESS_WINDOW" then -5
    else 0
  }

  // Only the terminal's closing costs trust.
  function Cost(b: Beat): int { if b.id == "T_PLUS_15_TERMINAL_ARCHIVE" then 5 else 0 }

  lemma AffectIs(n: Npc, b: Beat)
    ensures AffectFor(b, n).stressDelta == Strain(b) as real / 100.0
    ensures AffectFor(b, n).trustDelta == -(Cost(b) as real / 100.0)
  {
  }

  // The flag a beat leaves on its actor.
  function MarkOf(b: Beat): set<string> {
    if b.id == "T_PLUS_02_CURATOR_CONTAINMENT" then {"beat_curator_containment"}
    else if b.id == "T_PLUS_05_GUARD_PATROL_SHIFT" then {"beat_guard_patrol_shift"}
    else if b.id == "T_PLUS_08_INTERN_MOVEMENT" then {"beat_intern_movement"}
    else if b.id == "T_PLUS_10_DONOR_EVENT" then {"beat_donor_event"}
    else if b.id == "T_PLUS_12_BARISTA_WITNESS_WINDOW" then {"beat_witness_window"}
    else if b.id == "T_PLUS_15_TERMINAL_ARCHIVE" then {"beat_terminal_archive"}
    else {}
  }

  lemma FlagIs(n: Npc, b: Beat)
    ensures (if AffectFor(b, n).flag.Some? then {AffectFor(b, n).flag.value} else {}) == MarkOf(b)
  {
  }

  /**
   A beat moves its actor's stress up or down by its strain and takes its cost from their
   trust, both stopping at the ends of the unit interval; it adds its flag, records itself
   and its time, and leaves the role and the announced beat alone.
   */
  lemma BeatMoves(n: Npc, b: Beat)
    requires 0.0 <= n.trust <= 1.0 && 0.0 <= n.stress <= 1.0
    ensures var m := Moved(n, b); var (strain, cost) := (Strain(b) as real / 100.0, Cost(b) as real / 100.0);
      && m.stress == (if n.stress + strain > 1.0 then 1.0 else if n.stress + strain < 0.0 then 0.0 else n.stress + strain)
      && m.trust == (if n.trust < cost then 0.0 else n.trust - cost)
      && m.trend == (if Cost(b) > 0 then Down else Flat)
      && m.current == Some(b.id) && m.lastTransition == Some(b.offset) && m.next == n.next
      && m.room == (if b.location.Some? then b.location.value else n.room)
      && m.roleSlot == n.roleSlot && m.flags == n.flags + MarkOf(b)
  {
    AffectIs(n, b);
    FlagIs(n, b);
    CostNotNegative(b);
    hide AffectFor, Strain, Cost, AvailabilityFor, MarkOf;
  }

  /** Whom a beat makes busy or hard to reach, and in which mood and stance it leaves them. */
  lemma BeatManners(n: Npc, b: Beat)
    ensures var m := Moved(n, b);
      && m.availability == (if b.id == "T_PLUS_15_TERMINAL_ARCHIVE" then Restricted
                            else if b.id == "T_PLUS_02_CURATOR_CONTAINMENT" then Busy
                            else if b.id != "T_PLUS_10_DONOR_EVENT" then n.availability
                            else if b.location == Some("PHONE_REMOTE") then Busy else Available)
      && m.emotion == (if b.id in {"T_PLUS_02_CURATOR_CONTAINMENT", "T_PLUS_05_GUARD_PATROL_SHIFT", "T_PLUS_10_DONOR_EVENT"}
                       then Guarded
                       else if b.id == "T_PLUS_08_INTERN_MOVEMENT" then Nervous
                       else if b.id == "T_PLUS_12_BARISTA_WITNESS_WINDOW" then Calm
                       else if b.id == "T_PLUS_15_TERMINAL_ARCHIVE" then Annoyed else n.emotion)
      && m.stance == (if b.id in {"T_PLUS_02_CURATOR_CONTAINMENT", "T_PLUS_05_GUARD_PATROL_SHIFT",
                                  "T_PLUS_15_TERMINAL_ARCHIVE"} then Procedural
                      else if b.id == "T_PLUS_08_INTERN_MOVEMENT" then (if n.roleSlot == "CULPRIT" then Flustered else n.stance)
                      else if b.id == "T_PLUS_10_DONOR_EVENT" then Defensive
                      else if b.id == "T_PLUS_12_BARISTA_WITNESS_WINDOW" then Helpful else n.stance)
  {
  }

  lemma CostNotNegative(b: Beat)
    ensures Cost(b) >= 0
  {
  }

  /** Beats that are due together take effect by time, and at the same time by their ids' first difference. */
  lemma DueByTime(schedule: seq<Beat>, t: real, applied: set<string>)
    ensures var due := Due(schedule, t, applied);
      forall i, j :: 0 <= i < j < |due| ==>
        due[i].offset < due[j].offset
        || (due[i].offset == due[j].offset && (due[i].id == due[j].id || TextBefore(due[i].id, due[j].id)))
  {
    DueExact(schedule, t, applied);
    var due := Due(schedule, t, applied);
    forall i, j | 0 <= i < j < |due|
      ensures due[i].offset < due[j].offset
        || (due[i].offset == due[j].offset && (due[i].id == due[j].id || TextBefore(due[i].id, due[j].id)))
    {
      assert BeatLe(due[i], due[j]);
      StrLeMeans(due[i].id, due[j].id);
    }
  }

  // ---- The announced next beat ----

  ghost predicate Awaits(b: Beat, c: Cast, applied: set<string>, t: real) {
    b.actor == Some(CastName(c)) && b.id !in applied && b.offset as real > t
  }

  lemma {:induction false} LaterExact(schedule: seq<Beat>, c: Cast, applied: set<string>, t: real)
    ensures forall b :: b in Later(schedule, c, applied, t) <==> b in schedule && Awaits(b, c, applied, t)
  {
    if schedule != [] {
      LaterExact(schedule[1..], c, applied, t);
      forall b | b in schedule ensures b == schedule[0] || b in schedule[1..] {}
    }
  }

  /** The next beat is the earliest one still ahead of the actor, ties going to the smaller id. */
  lemma NextIsEarliest(schedule: seq<Beat>, c: Cast, applied: set<string>, t: real)
    ensures NextBeat(schedule, c, applied, t).None? <==> forall b :: b in schedule ==> !Awaits(b, c, applied, t)
    ensures NextBeat(schedule, c, applied, t).Some? ==>
      exists b :: b in schedule && Awaits(b, c, applied, t) && b.id == NextBeat(schedule, c, applied, t).value
        && forall d :: d in schedule && Awaits(d, c, applied, t) ==> d == b || BeatLe(b, d)
  {
    var later := Later(schedule, c, applied, t);
    LaterExact(schedule, c, applied, t);
    SortMembers(later);
    var sorted := Sort(later, BeatLe);
    if sorted == [] {
      forall b | b in schedule ensures !Awaits(b, c, applied, t) { assert b !in sorted; }
    } else {
      var b := sorted[0];
      assert b in sorted;
      forall d | d in schedule && Awaits(d, c, applied, t) ensures d == b || BeatLe(b, d) {
        assert d in sorted;
      }
    }
  }

  // ---- The application as it runs ----

  const CAST: seq<Cast> := [Elodie, Marc, Samira, Laurent, Jo]

  ghost predicate AllCast(npcs: Npcs) { forall c: Cast :: c in npcs }

  lemma CastIsAll(c: Cast)
    ensures c in CAST
  {
    assert CAST[0] == Elodie && CAST[1] == Marc && CAST[2] == Samira && CAST[3] == Laurent && CAST[4] == Jo;
  }

  method PlayDue(npcs: Npcs, applied: set<string>, due: seq<Beat>) returns (updated: Npcs, all: set<string>)
    requires AllCast(npcs)
    ensures updated == Play(npcs, due) && all == applied + Ids(due)
  {
    updated, all := npcs, applied;
    for i := 0 to |due|
      invariant AllCast(updated) && Play(updated, due[i..]) == Play(npcs, due)
      invariant all == applied + Ids(due[..i])
    {
      var beat := due[i];
      assert due[i..][1..] == due[i + 1..] && due[..i + 1] == due[..i] + [beat];
      var actor := CastOf(beat.actor);
      if actor.Some? { updated := updated[actor.value := Moved(updated[actor.value], beat)]; }
      IdsOfBoth(due[..i], [beat]);
      all := all + {beat.id};
    }
    assert due[..|due|] == due;
  }

  method AnnounceNext(npcs: Npcs, schedule: seq<Beat>, applied: set<string>, t: real) returns (updated: Npcs)
    requires AllCast(npcs)
    ensures updated == Refresh(npcs, schedule, applied, t)
  {
    updated := npcs;
    for i := 0 to |CAST|
      invariant updated.Keys == npcs.Keys
      invariant forall c :: c in npcs ==>
        updated[c] == if c in CAST[..i] then npcs[c].(next := NextBeat(schedule, c, applied, t)) else npcs[c]
    {
      var c := CAST[i];
      updated := updated[c := updated[c].(next := NextBeat(schedule, c, applied, t))];
    }
    forall c | c in npcs ensures c in CAST[..|CAST|] { CastIsAll(c); }
  }

  method ApplyCaseTimeline(schedule: seq<Beat>, r: Run, t: real) returns (after: Run)
    requires AllCast(r.npcs)
    ensures after == Apply(schedule, r, t)
  {
    var due := Due(schedule, t, r.applied);
    var played, applied := PlayDue(r.npcs, r.applied, due);
    PlayKeys(r.npcs, due);
    var npcs := AnnounceNext(played, schedule, applied, t);
    after := Run(npcs, applied);
  }

  lemma {:induction false} PlayKeys(npcs: Npcs, beats: seq<Beat>)
    ensures Play(npcs, beats).Keys == npcs.Keys
    decreases |beats|
  {
    if beats != [] { PlayKeys(Play1(npcs, beats[0]), beats[1..]); }
  }
}
