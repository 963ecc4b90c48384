/** The clock of a case: over every play the cast's timeline follows it, and affect stays in range. */
module CaseClock {
  import opened Json
  import opened Timeline
  import opened CaseRules
  import D = Dialogue
  import opened Investigation
  import opened Outcome
  import opened CaseRun
  import opened CaseHistory

  ghost predicate CastOk(u: Setup, npcs: Npcs) { InRange(npcs) && npcs.Keys == u.npcs.Keys }

  // The beats applied by a run that has reached time t.
  predicate AppliedBy(u: Setup, applied: set<string>, t: real) { applied == Ids(Due(u.k.schedule, t, {})) }

  ghost predicate OnTime(u: Setup, s: State) {
    CastOk(u, s.cast.npcs) && AppliedBy(u, s.cast.applied, Elapsed(u, s))
  }

  lemma FeelKeeps(u: Setup, npcs: Npcs, npc: Option<Cast>, deltas: (real, real))
    requires CastOk(u, npcs)
    ensures CastOk(u, Feel(npcs, npc, deltas))
  {
  }

  lemma ApplyKeeps(u: Setup, r: Timeline.Run, t: real)
    requires CastOk(u, r.npcs)
    ensures CastOk(u, Apply(u.k.schedule, r, t).npcs)
  {
    PlayInRange(r.npcs, Due(u.k.schedule, t, r.applied));
  }

  lemma ApplyCatchesUp(u: Setup, r: Timeline.Run, s: real, t: real)
    requires s <= t && UniqueIds(u.k.schedule) && AppliedBy(u, r.applied, s)
    ensures AppliedBy(u, Apply(u.k.schedule, r, t).applied, t)
  {
    DueSplit(u.k.schedule, s, t, {});
    var first := Due(u.k.schedule, s, {});
    assert {} + Ids(first) == r.applied;
    IdsOfBoth(first, Due(u.k.schedule, t, r.applied));
  }

  // Only ticks move the clock; commands leave it and the timeline alone.
  lemma CommandCast(u: Setup, s: State, step: Step)
    requires !step.TickStep?
    ensures Next(u, s, step).tick == s.tick && Next(u, s, step).cast.applied == s.cast.applied
    ensures Next(u, s, step).cast.npcs == if step.TalkStep? then Talk(u, s, step.request, step.cap).cast.npcs else s.cast.npcs
  {
    hide Latch, Recover, AccuseSomeone, Investigate, AfterExecution, Contradict, D.Turn, TurnActions, Deltas, Feel;
  }

  lemma TalkCast(u: Setup, s: State, q: D.Request, cap: int) returns (deltas: (real, real))
    ensures Talk(u, s, q, cap).cast.npcs == Feel(s.cast.npcs, q.npc, deltas)
  {
    hide D.Turn, TurnActions, Deltas, Feel, Trim, Passed;
    var res := D.Turn(u.k, s.runtime, q, ContextOf(s, Elapsed(u, s))).0;
    deltas := Deltas(q.intent, res.status, res.code);
  }

  lemma TickCast(u: Setup, s: State)
    ensures Elapsed(u, Next(u, s, TickStep)) == NextElapsed(u, s)
    ensures Next(u, s, TickStep).cast == Apply(u.k.schedule, s.cast, NextElapsed(u, s))
  {
    hide Latch, Apply, Archive;
  }

  lemma NextOnTime(u: Setup, s: State, step: Step)
    requires u.dt >= 0.0 && UniqueIds(u.k.schedule) && OnTime(u, s)
    ensures OnTime(u, Next(u, s, step))
  {
    hide Next, Talk, Feel, Apply, CastOk, AppliedBy;
    var v := Next(u, s, step);
    match step {
      case TickStep =>
        TickCast(u, s);
        ApplyKeeps(u, s.cast, NextElapsed(u, s));
        LaterTick(u, s);
        ApplyCatchesUp(u, s.cast, Elapsed(u, s), NextElapsed(u, s));
      case TalkStep(q, cap) =>
        CommandCast(u, s, step);
        var deltas := TalkCast(u, s, q, cap);
        FeelKeeps(u, s.cast.npcs, q.npc, deltas);
        assert CastOk(u, v.cast.npcs) && Elapsed(u, v) == Elapsed(u, s);
      case _ =>
        CommandCast(u, s, step);
        assert Elapsed(u, v) == Elapsed(u, s);
    }
  }

  lemma LaterTick(u: Setup, s: State)
    requires u.dt >= 0.0
    ensures Elapsed(u, s) <= NextElapsed(u, s)
  {
  }

  lemma StartOnTime(u: Setup)
    requires UniqueIds(u.k.schedule) && InRange(u.npcs)
    ensures OnTime(u, Start(u))
  {
    hide Latch, Apply;
    var cast := Apply(u.k.schedule, Timeline.Run(u.npcs, {}), 0.0);
    assert Start(u).cast == cast && Start(u).tick == 0;
    ApplyKeeps(u, Timeline.Run(u.npcs, {}), 0.0);
    FirstApplied(u);
  }

  lemma FirstApplied(u: Setup)
    ensures AppliedBy(u, Apply(u.k.schedule, Timeline.Run(u.npcs, {}), 0.0).applied, 0.0)
  {
  }

  lemma {:induction false} PlayOnTime(u: Setup, s: State, steps: seq<Step>)
    requires u.dt >= 0.0 && UniqueIds(u.k.schedule) && OnTime(u, s)
    ensures OnTime(u, Playthrough(u, s, steps))
    decreases |steps|
  {
    hide Next, OnTime;
    if steps != [] {
      NextOnTime(u, s, steps[0]);
      PlayOnTime(u, Next(u, s, steps[0]), steps[1..]);
    }
  }

  /**
   Whatever is said, searched or charged in between, every play has applied exactly the
   beats its clock has reached, and no one's trust or stress has left the unit interval.
   */
  lemma ClockDrivesCast(u: Setup, steps: seq<Step>, b: Beat)
    requires u.dt >= 0.0 && UniqueIds(u.k.schedule) && InRange(u.npcs) && b in u.k.schedule
    ensures var s := Playthrough(u, Start(u), steps);
      && InRange(s.cast.npcs) && s.cast.npcs.Keys == u.npcs.Keys
      && (b.id in s.cast.applied <==> b.offset as real <= Elapsed(u, s))
  {
    hide Start, Playthrough;
    StartOnTime(u);
    PlayOnTime(u, Start(u), steps);
    ReachedIsApplied(u, b, Elapsed(u, Playthrough(u, Start(u), steps)));
  }

  lemma ReachedIsApplied(u: Setup, b: Beat, t: real)
    requires UniqueIds(u.k.schedule) && b in u.k.schedule
    ensures b.id in Ids(Due(u.k.schedule, t, {})) <==> b.offset as real <= t
  {
    DueExact(u.k.schedule, t, {});
    var due := Due(u.k.schedule, t, {});
    if b.id in Ids(due) {
      var d :| d in due && d.id == b.id;
      SameBeat(u.k.schedule, b, d);
    }
  }

  // ---- How a turn is taken ----

  /** By how many hundredths a turn moves trust and stress: an accepted one by its intent, a denied one by what it failed. */
  function Shift(u: Setup, s: State, q: D.Request): (int, int) {
    var c := ContextOf(s, Elapsed(u, s));
    var first := D.FirstFailing(D.EntryChecks(u.k, s.runtime, q, c) + D.TurnChecks(u.k, s.runtime, q, c));
    if first.None? then
      match q.intent
      case RequestAccess => (2, 0)
      case RequestPermission => (2, 0)
      case PresentEvidence => (3, -1)
      case ChallengeContradiction => (1, 4)
      case Reassure => (4, -5)
      case SummarizeUnderstanding => (5, -3)
      case _ => (0, 0)
    else if first.value.status == D.Refused then (-3, 2)
    else if first.value.status != D.Repair then (0, 0)
    else if first.value.code in {D.RegisterRepair, D.ToneRepair} then (-2, 3)
    else if first.value.code in {D.MissingSlots, D.TooFewFacts, D.SummaryNeeded} then (0, 1)
    else (-1, 2)
  }

  lemma ShiftIs(u: Setup, s: State, q: D.Request)
    ensures var res := D.Turn(u.k, s.runtime, q, ContextOf(s, Elapsed(u, s))).0; var (trust, stress) := Shift(u, s, q);
      Deltas(q.intent, res.status, res.code) == (trust as real / 100.0, stress as real / 100.0)
  {
    hide D.Turn, D.FirstFailing, D.EntryChecks, D.TurnChecks, ContextOf, Elapsed;
    var c := ContextOf(s, Elapsed(u, s));
    var checks := D.EntryChecks(u.k, s.runtime, q, c) + D.TurnChecks(u.k, s.runtime, q, c);
    D.TurnVerdict(u.k, s.runtime, q, c);
    D.NoneFailing(checks);
    if D.FirstFailing(checks).None? {
      AcceptedIs(u.k, s.runtime, q, c);
    } else {
      D.RepairsAre(u.k, s.runtime, q, c);
    }
  }

  /** A turn moves the one it addresses, by its verdict, within the unit interval, and nobody else. */
  lemma TurnMoves(u: Setup, s: State, q: D.Request, cap: int, c: Cast)
    requires c in s.cast.npcs
    ensures var (n, v) := (s.cast.npcs[c], Talk(u, s, q, cap).cast.npcs); var (trust, stress) := Shift(u, s, q);
      && v.Keys == s.cast.npcs.Keys
      && v[c] == if q.npc != Some(c) then n
                 else n.(trust := Clamp(n.trust + trust as real / 100.0), stress := Clamp(n.stress + stress as real / 100.0),
                         trend := if trust > 0 then Up else if trust < 0 then Down else Flat)
  {
    ShiftIs(u, s, q);
    hide D.Turn, Shift, TurnActions, Deltas, Trim, Passed;
    if q.npc == Some(c) { assert s.cast.npcs[c].flags + {} == s.cast.npcs[c].flags; }
  }
}
