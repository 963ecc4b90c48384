/** Where everything comes from that a play knows, holds or has flagged: exactly which steps bring it about. */
module CaseHistory {
  import opened Json
  import opened Timeline
  import opened CaseRules
  import D = Dialogue
  import opened Investigation
  import opened Outcome
  import opened CaseRun

  /** What a play can come by, and once it has never loses. */
  datatype Mark =
    | KnowsFact(fact: Fact) | HasFound(item: Evidence) | HasCollected(item: Evidence) | HasFlag(action: Action)
    | HasExamined | BenchCleared | DoorOpened | ReceiptTaken | LogsArchived | MayUseTerminal
    | HasFinished(scene: Scene) | HoldsMedallion | HasOutcome(flag: OutcomeFlag)
    | HasRecorded(action: Action) | HasBond(relationship: Relationship)

  predicate Holds(s: State, m: Mark) {
    match m
    case KnowsFact(f) => f in s.progress.facts
    case HasFound(e) => e in s.progress.discovered
    case HasCollected(e) => e in s.progress.collected
    case HasFlag(a) => a in s.progress.actions
    case HasExamined => s.objects.examined
    case BenchCleared => !s.objects.benchFull
    case DoorOpened => !s.objects.doorLocked
    case ReceiptTaken => s.objects.receipts == 0
    case LogsArchived => s.objects.archived
    case MayUseTerminal => s.terminalGranted
    case HasFinished(c) => c in s.runtime.completion && s.runtime.completion[c] == D.Completed
    case HoldsMedallion => s.objects.status == Recovered
    case HasOutcome(flag) => flag in s.outcomes
    case HasRecorded(a) => a in s.extra
    case HasBond(r) => r in s.relationships
  }

  // ---- What each step brings ----

  predicate ConfrontsNow(u: Setup, s: State) { MayConfront(u.k, s.runtime, s.cast.npcs) }

  predicate SearchBrings(u: Setup, s: State, cmd: Command, available: set<Prereq>, m: Mark) {
    var prereqs := available + AutoPrereqs(u, s, cmd);
    var o := Archive(s.objects, Elapsed(u, s));
    var done := CarriedOut(cmd, o, prereqs);
    match m
    case KnowsFact(f) => Teaches(u.k, cmd, o, prereqs, f)
    case HasFound(e) => done && Finds(u.k, cmd.what, e)
    case HasCollected(e) => done && Finds(u.k, cmd.what, e) && e != MethodTrace && cmd.what in {InspectBench, AskForReceipt}
    case HasExamined => done && cmd.what == ExamineMedallion
    case BenchCleared => done && cmd.what == InspectBench
    case DoorOpened => done && cmd.what == AttemptCode
    case ReceiptTaken => done && cmd.what == AskForReceipt && o.receipts == 1
    case LogsArchived => Elapsed(u, s) >= 900.0
    case MayUseTerminal =>
      cmd.what == RequestTerminal && (done || (cmd.mode == ValidateOnly && Validate(cmd, o, prereqs) == Success))
    case _ => false
  }

  predicate RecoveryBrings(u: Setup, s: State, quiet: bool, m: Mark) {
    && ConfrontsNow(u, s) && N8 in s.progress.facts && MethodTrace in Items(s.progress)
    && match m
       case HasFlag(a) => a == RecoverMedallion && s.objects.status != Recovered
       case HoldsMedallion => true
       case HasOutcome(flag) => flag == PublicEscalation && !quiet
       case _ => false
  }

  // The proof an accusation of the culprit takes.
  predicate CanProve(s: State) {
    && N3 in s.progress.facts && N4 in s.progress.facts && N5 in s.progress.facts && CafeReceipt in Items(s.progress)
    && (StateContradiction in s.progress.actions || StateContradiction in s.extra)
  }

  predicate AccusationBrings(u: Setup, s: State, accused: Option<Culprit>, public: bool, m: Mark) {
    && accused.Some? && ConfrontsNow(u, s) && (accused.value == u.k.culprit ==> CanProve(s))
    && match m
       case HasFlag(a) => a == if accused.value == u.k.culprit then Accuse(u.k.culprit) else WrongAccusation
       case HasOutcome(flag) => flag == PublicEscalation && public
       case _ => false
  }

  predicate TurnBrings(u: Setup, s: State, q: D.Request, m: Mark) {
    var c := ContextOf(s, Elapsed(u, s));
    && D.Passes(u.k, s.runtime, q, c)
    && match m
       case KnowsFact(f) =>
         || (D.CanReveal(f, q, D.Sees(s.runtime, q, c), c.evidence) && f !in D.Sees(s.runtime, q, c))
         || (q.intent == SummarizeUnderstanding && f in UnlockFacts(q.scene))
       case HasFlag(a) =>
         (match a
          case PoliteGateUsage => q.intent in {RequestAccess, RequestPermission}
          case StateContradiction => q.intent == ChallengeContradiction && N3 in q.facts && N4 in q.facts
          case FrenchSummaryTwice => q.intent == SummarizeUnderstanding && exists e :: e in s.log && e.passed
          case _ => false)
       case HasFinished(scene) => q.intent == SummarizeUnderstanding && scene == q.scene
       case _ => false
  }

  /** What a step brings about itself, before the outcome is settled. */
  predicate Brings(u: Setup, s: State, step: Step, m: Mark) {
    match step
    case RecordActions(flags) => m.HasRecorded? && m.action in flags
    case RecordRelationships(flags) => m.HasBond? && m.relationship in flags
    case RecordOutcomes(flags) => m.HasOutcome? && m.flag in flags
    case InvestigateStep(cmd, available) => SearchBrings(u, s, cmd, available, m)
    case ContradictStep(e) =>
      m == HasFlag(StateContradiction) && e == Edge3 && N3 in s.progress.facts && N4 in s.progress.facts
    case RecoverStep(quiet) => RecoveryBrings(u, s, quiet, m)
    case AccuseStep(accused, public) => AccusationBrings(u, s, accused, public, m)
    case TalkStep(q, _) => TurnBrings(u, s, q, m)
    case TickStep => m == LogsArchived && NextElapsed(u, s) >= 900.0
  }

  /** The steps after which the outcome is settled; flags recorded by hand wait for the next of them. */
  predicate Settles(s: State, step: Step) {
    match step
    case RecordActions(_) => false
    case RecordRelationships(_) => false
    case RecordOutcomes(_) => false
    case ContradictStep(e) => e == Edge3 && N3 in s.progress.facts && N4 in s.progress.facts
    case _ => true
  }

  // What settling the outcome of a situation latches.
  predicate Latches(u: Setup, z: Situation, m: Mark) {
    && m.HasOutcome?
    && (|| (m.flag in {SoftFailLatched, ItemLeftBuilding, ItemLeavesBuilding, RelationshipPenalty} && Lost(z))
        || (&& m.flag in {BestOutcomeAwarded, ContinuityQuietRecovery, ContinuityNoEscalation, ContinuityStrongTrust}
            && Flawless(u.k, z, 0)))
  }

  predicate Gains(u: Setup, s: State, step: Step, m: Mark) {
    Brings(u, s, step, m)
    || (Settles(s, step) && var v := Next(u, s, step); Latches(u, SituationOf(v, Elapsed(u, v)), m))
  }

  // ---- Step by step ----

  lemma SearchGains(u: Setup, s: State, cmd: Command, available: set<Prereq>, m: Mark)
    ensures Holds(Search(u, s, cmd, available), m) <==> Holds(s, m) || SearchBrings(u, s, cmd, available, m)
  {
    assert Archive(s.objects, Elapsed(u, s)).receipts == s.objects.receipts;
    hide AutoPrereqs, Investigate, AfterExecution, CarriedOut, Teaches, Finds, Validate, Archive;
    var prereqs := available + AutoPrereqs(u, s, cmd);
    var elapsed := Elapsed(u, s);
    match m {
      case KnowsFact(f) => KnownAfter(s.progress, u.k, cmd, s.objects, elapsed, prereqs, f);
      case HasFound(e) => EvidenceExactly(s.progress, u.k, cmd, s.objects, elapsed, prereqs, e);
      case HasCollected(e) => EvidenceExactly(s.progress, u.k, cmd, s.objects, elapsed, prereqs, e);
      case HasFlag(a) => EvidenceExactly(s.progress, u.k, cmd, s.objects, elapsed, prereqs, CafeReceipt);
      case MayUseTerminal => TerminalAnswer(u.k, cmd, s.objects, elapsed, prereqs);
      case _ => ObjectsExactly(u.k, cmd, s.objects, elapsed, prereqs);
    }
  }

  lemma TerminalAnswer(k: Case, cmd: Command, o: Objects, elapsed: real, available: set<Prereq>)
    ensures cmd.what == RequestTerminal && Investigate(k, cmd, o, elapsed, available).ack == Success <==>
      var archived := Archive(o, elapsed);
      cmd.what == RequestTerminal && (CarriedOut(cmd, archived, available)
                                      || (cmd.mode == ValidateOnly && Validate(cmd, archived, available) == Success))
  {
    hide Investigate, Obstructed, Validate;
    AcknowledgedExactly(k, cmd, o, elapsed, available);
  }

  lemma ContradictGains(u: Setup, s: State, e: Edge, m: Mark)
    requires Ledger(s.progress)
    ensures Holds(s.(progress := Contradict(s.progress, e).1), m) <==> Holds(s, m) || Brings(u, s, ContradictStep(e), m)
    ensures Contradict(s.progress, e).0 in {Recorded, AlreadyKnown} <==> Settles(s, ContradictStep(e))
  {
    hide Contradict;
    ContradictExactly(s.progress, e);
  }

  lemma RecoveryGains(u: Setup, s: State, quiet: bool, m: Mark)
    ensures var w := WithSituation(s, Recover(u.k, SituationOf(s, Elapsed(u, s)), s.runtime, quiet).1);
      Holds(w, m) <==> Holds(s, m) || RecoveryBrings(u, s, quiet, m)
  {
    hide Recover, MayConfront;
    RecoverExactly(u.k, SituationOf(s, Elapsed(u, s)), s.runtime, quiet);
  }

  lemma AccusationGains(u: Setup, s: State, accused: Option<Culprit>, public: bool, m: Mark)
    ensures var w := WithSituation(s, AccuseSomeone(u.k, SituationOf(s, Elapsed(u, s)), s.runtime, accused, public).1);
      Holds(w, m) <==> Holds(s, m) || AccusationBrings(u, s, accused, public, m)
  {
    hide AccuseSomeone, MayConfront;
    AccuseExactly(u.k, SituationOf(s, Elapsed(u, s)), s.runtime, accused, public);
  }

  lemma {:induction false} PassedSome(log: seq<LogEntry>)
    ensures Passed(log) >= 1 <==> exists e :: e in log && e.passed
  {
    if log != [] {
      PassedSome(log[1..]);
      assert log[0] in log;
      assert forall e :: e in log <==> e == log[0] || e in log[1..];
    }
  }

  lemma TurnGains(u: Setup, s: State, q: D.Request, cap: int, m: Mark)
    requires Sound(s.progress, s.runtime)
    ensures Holds(Talk(u, s, q, cap), m) <==> Holds(s, m) || TurnBrings(u, s, q, m)
  {
    hide D.Turn, D.Passes, D.CanReveal, D.FirstFailing, TurnActions, Trim, Feel, Deltas, EntryOf, Sound;
    var c := ContextOf(s, Elapsed(u, s));
    D.TurnVerdict(u.k, s.runtime, q, c);
    match m {
      case KnowsFact(f) => TurnTeaches(u, s, q, f);
      case HasFlag(a) => TurnFlags(u, s, q, a);
      case HasFinished(scene) => D.FinishedExactly(u.k, s.runtime, q, c, scene);
      case _ =>
    }
  }

  lemma TurnTeaches(u: Setup, s: State, q: D.Request, f: Fact)
    ensures var c := ContextOf(s, Elapsed(u, s));
      f in D.Turn(u.k, s.runtime, q, c).0.revealed <==> TurnBrings(u, s, q, KnowsFact(f))
  {
    hide D.Turn, D.Passes, D.CanReveal, D.FirstFailing;
    var c := ContextOf(s, Elapsed(u, s));
    D.TurnVerdict(u.k, s.runtime, q, c);
    if D.Turn(u.k, s.runtime, q, c).0.status == D.Accepted { D.RevealedExactly(u.k, s.runtime, q, c, f); }
    else { D.RejectionTeachesNothing(u.k, s.runtime, q, c); }
  }

  /** The flags a turn derives, flag by flag. */
  lemma TurnFlags(u: Setup, s: State, q: D.Request, a: Action)
    ensures var c := ContextOf(s, Elapsed(u, s));
      a in TurnActions(u, q, D.Turn(u.k, s.runtime, q, c).0, Passed(s.log)) <==> TurnBrings(u, s, q, HasFlag(a))
  {
    hide D.Turn, D.Passes, D.FirstFailing, Passed;
    var c := ContextOf(s, Elapsed(u, s));
    var res := D.Turn(u.k, s.runtime, q, c).0;
    D.TurnVerdict(u.k, s.runtime, q, c);
    PassedSome(s.log);
    if res.status == D.Accepted { AcceptedIs(u.k, s.runtime, q, c); }
  }

  lemma AcceptedIs(k: Case, r: D.Runtime, q: D.Request, c: D.Context)
    requires D.Turn(k, r, q, c).0.status == D.Accepted
    ensures q.tone == D.Plain && q.intent != AccuseIntent
    ensures D.Turn(k, r, q, c).0.summaryPassed <==> q.intent == SummarizeUnderstanding
  {
    hide D.Turn, D.Passes, D.FirstFailing;
    D.PassedMeansAccepted(k, r, q, c);
    D.TurnVerdict(k, r, q, c);
    D.PassesGives(k, r, q, c);
    if q.intent == SummarizeUnderstanding { D.CompletedPasses(k, r, q, c); }
  }

  lemma SettleLatches(u: Setup, w: State, elapsed: real, m: Mark)
    ensures Holds(Settle(u, w, elapsed), m) <==> Holds(w, m) || Latches(u, SituationOf(w, elapsed), m)
    ensures var v := Settle(u, w, elapsed);
      Latches(u, SituationOf(v, elapsed), m) <==> Latches(u, SituationOf(w, elapsed), m)
  {
    hide Latch;
    LatchExactly(u.k, SituationOf(w, elapsed));
  }

  /** A step gains a mark exactly when it brings it or settling the outcome after it latches it; it loses none. */
  lemma StepGains(u: Setup, s: State, step: Step, m: Mark)
    requires Sound(s.progress, s.runtime)
    ensures Holds(Next(u, s, step), m) <==> Holds(s, m) || Gains(u, s, step, m)
  {
    hide Sound, Holds, Settle, Search, Talk, Latches, Recover, AccuseSomeone, Contradict, SituationOf, WithSituation, Passing,
      Brings;
    UnsettledGains(u, s, step, m);
    var w := Unsettled(u, s, step);
    if Settles(s, step) {
      var t := if step.TickStep? then NextElapsed(u, s) else Elapsed(u, s);
      SettledAt(u, s, step, w, t);
      SettleLatches(u, w, t, m);
      SituationNow(u, Settle(u, w, t), t, step.TickStep?);
      HoldsTicked(Settle(u, w, t), m);
    } else {
      NotSettled(u, s, step, m);
    }
  }

  lemma SoundLedger(s: State)
    requires Sound(s.progress, s.runtime)
    ensures Ledger(s.progress)
  {
  }

  // A step's own change.
  lemma UnsettledGains(u: Setup, s: State, step: Step, m: Mark)
    requires Sound(s.progress, s.runtime)
    ensures !step.RecordActions? && !step.RecordRelationships? && !step.RecordOutcomes? ==>
      (Holds(Unsettled(u, s, step), m) <==> Holds(s, m) || Brings(u, s, step, m))
  {
    hide Holds, Search, Talk, Passing, SearchBrings, TurnBrings, RecoveryBrings, AccusationBrings, Contradict, Recover,
      AccuseSomeone, Sound, Ledger, SituationOf, WithSituation, NextElapsed, Elapsed;
    SoundLedger(s);
    match step {
      case InvestigateStep(cmd, available) => SearchGains(u, s, cmd, available, m);
      case ContradictStep(e) => ContradictGains(u, s, e, m);
      case RecoverStep(quiet) => RecoveryGains(u, s, quiet, m);
      case AccuseStep(accused, public) => AccusationGains(u, s, accused, public, m);
      case TalkStep(q, cap) => TurnGains(u, s, q, cap, m);
      case TickStep => PassingHolds(u, s, m);
      case _ =>
    }
  }

  lemma PassingHolds(u: Setup, s: State, m: Mark)
    ensures Holds(Passing(u, s, NextElapsed(u, s)), m) <==> Holds(s, m) || Brings(u, s, TickStep, m)
  {
    hide Timeline.Apply;
  }

  lemma SettledAt(u: Setup, s: State, step: Step, w: State, t: real)
    requires Sound(s.progress, s.runtime) && Settles(s, step) && w == Unsettled(u, s, step)
    requires t == if step.TickStep? then NextElapsed(u, s) else Elapsed(u, s)
    ensures Next(u, s, step) == if step.TickStep? then Ticked(Settle(u, w, t)) else Settle(u, w, t)
    ensures Elapsed(u, Settle(u, w, t)) == Elapsed(u, s) && NextElapsed(u, Settle(u, w, t)) == NextElapsed(u, s)
  {
    hide Sound, Search, Talk, Latch, Recover, AccuseSomeone;
    if step.ContradictStep? { ContradictExactly(s.progress, step.edge); }
    UnsettledTick(u, s, step);
  }

  lemma UnsettledTick(u: Setup, s: State, step: Step)
    ensures Unsettled(u, s, step).tick == s.tick
  {
    hide Latch, Recover, AccuseSomeone, Investigate, AfterExecution, Contradict, D.Turn, TurnActions, Deltas, Feel;
  }

  lemma SituationNow(u: Setup, v: State, t: real, ticked: bool)
    ensures SituationOf(Ticked(v), t) == SituationOf(v, t) && Elapsed(u, Ticked(v)) == NextElapsed(u, v)
  {
  }

  lemma HoldsTicked(v: State, m: Mark)
    ensures Holds(Ticked(v), m) <==> Holds(v, m)
  {
  }

  lemma NotSettled(u: Setup, s: State, step: Step, m: Mark)
    requires !Settles(s, step)
    ensures Holds(Next(u, s, step), m) <==> Holds(s, m) || Brings(u, s, step, m)
  {
    if step.ContradictStep? { ContradictExactly(s.progress, step.edge); }
  }

  lemma {:induction false} PlayInTwo(u: Setup, s: State, a: seq<Step>, b: seq<Step>)
    ensures Playthrough(u, s, a + b) == Playthrough(u, Playthrough(u, s, a), b)
    decreases |a|
  {
    hide Next;
    if a == [] {
      assert a + b == b;
    } else {
      assert (a + b)[1..] == a[1..] + b;
      PlayInTwo(u, Next(u, s, a[0]), a[1..], b);
    }
  }

  // The state before the i-th step.
  function Before(u: Setup, s: State, steps: seq<Step>, i: nat): State
    requires i <= |steps|
  {
    Playthrough(u, s, steps[..i])
  }

  lemma {:induction false} PlayGains(u: Setup, s: State, steps: seq<Step>, m: Mark)
    requires Sound(s.progress, s.runtime)
    ensures Holds(Playthrough(u, s, steps), m) <==>
      Holds(s, m) || exists i :: 0 <= i < |steps| && Gains(u, Before(u, s, steps, i), steps[i], m)
    decreases |steps|
  {
    hide Sound, Holds, Gains, Next;
    if steps != [] {
      var n := |steps| - 1;
      var most := steps[..n];
      assert steps == most + [steps[n]] && [steps[n]][1..] == [];
      PlayInTwo(u, s, most, [steps[n]]);
      PlaySound(u, s, most);
      PlayGains(u, s, most, m);
      StepGains(u, Playthrough(u, s, most), steps[n], m);
      assert forall i :: 0 <= i < n ==> most[..i] == steps[..i];
      assert Before(u, s, steps, n) == Playthrough(u, s, most);
      assert forall i :: 0 <= i < n ==> Before(u, s, most, i) == Before(u, s, steps, i);
    }
  }

  lemma StartHolds(u: Setup, m: Mark)
    ensures Holds(Start(u), m) <==> m == KnowsFact(N1) || (m == BenchCleared && u.k.bench == NothingThere)
  {
    StartFacts(u);
    var cast := Timeline.Apply(u.k.schedule, Timeline.Run(u.npcs, {}), 0.0);
    var s := State(0, cast, Archive(InitialObjects(u.k), 0.0), InitialProgress(), D.Initial(STARTING_FACTS), [],
                   {}, {}, {}, false);
    SettleLatches(u, s, 0.0, m);
    hide Timeline.Apply, Settle;
  }

  /**
   Origins: a play starts out knowing N1 alone, the bench cleared if nothing was ever on it,
   and holds any other mark at its end exactly when one of its steps gained it.
   */
  lemma Origins(u: Setup, steps: seq<Step>, m: Mark)
    ensures Holds(Playthrough(u, Start(u), steps), m) <==>
      || m == KnowsFact(N1) || (m == BenchCleared && u.k.bench == NothingThere)
      || exists i :: 0 <= i < |steps| && Gains(u, Before(u, Start(u), steps, i), steps[i], m)
  {
    hide Start, Playthrough, Gains, Sound, Holds;
    StartSound(u);
    StartHolds(u, m);
    PlayGains(u, Start(u), steps, m);
  }

  // ---- What that means for a public scandal ----

  /** A flag recorded by hand, or a completed attempt that was made loudly. */
  predicate Loud(u: Setup, s: State, step: Step) {
    match step
    case RecordOutcomes(flags) => PublicEscalation in flags
    case RecoverStep(quiet) => !quiet && Recover(u.k, SituationOf(s, Elapsed(u, s)), s.runtime, quiet).0 == Done
    case AccuseStep(accused, public) =>
      public && AccuseSomeone(u.k, SituationOf(s, Elapsed(u, s)), s.runtime, accused, public).0 == Done
    case _ => false
  }

  lemma LoudIs(u: Setup, s: State, step: Step)
    ensures Loud(u, s, step) <==> Gains(u, s, step, HasOutcome(PublicEscalation))
  {
    hide Recover, AccuseSomeone, MayConfront, Next;
    var z := SituationOf(s, Elapsed(u, s));
    match step {
      case RecoverStep(quiet) => RecoverExactly(u.k, z, s.runtime, quiet);
      case AccuseStep(accused, public) => AccuseExactly(u.k, z, s.runtime, accused, public);
      case _ =>
    }
  }

  /** The case escalates in public exactly by what is recorded by hand and by completed attempts that were made loudly. */
  lemma EscalationExactly(u: Setup, steps: seq<Step>)
    ensures PublicEscalation in Playthrough(u, Start(u), steps).outcomes <==>
      exists i :: 0 <= i < |steps| && Loud(u, Before(u, Start(u), steps, i), steps[i])
  {
    hide Start, Playthrough, Gains, Loud;
    Origins(u, steps, HasOutcome(PublicEscalation));
    forall i | 0 <= i < |steps|
      ensures Loud(u, Before(u, Start(u), steps, i), steps[i])
        <==> Gains(u, Before(u, Start(u), steps, i), steps[i], HasOutcome(PublicEscalation))
    {
      LoudIs(u, Before(u, Start(u), steps, i), steps[i]);
    }
  }

  // ---- What every flag rests on ----

  // Proof in hand for each flag of the case.
  ghost predicate Earned(u: Setup, s: State) {
    && (StateContradiction in s.progress.actions ==> N3 in s.progress.facts && N4 in s.progress.facts)
    && (RecoverMedallion in s.progress.actions || s.objects.status == Recovered ==>
          N8 in s.progress.facts && MethodTrace in Items(s.progress))
    && (forall x :: Accuse(x) in s.progress.actions ==>
          && x == u.k.culprit && N3 in s.progress.facts && N4 in s.progress.facts && N5 in s.progress.facts
          && CafeReceipt in Items(s.progress))
  }

  // A passed turn names only what is known.
  lemma NamedIsKnown(u: Setup, s: State, q: D.Request, f: Fact)
    requires Sound(s.progress, s.runtime) && D.Passes(u.k, s.runtime, q, ContextOf(s, Elapsed(u, s))) && f in q.facts
    ensures f in s.progress.facts
  {
    D.PassesGives(u.k, s.runtime, q, ContextOf(s, Elapsed(u, s)));
    hide D.Passes;
  }

  lemma ContradictionEarned(u: Setup, s: State, step: Step)
    requires Sound(s.progress, s.runtime) && Gains(u, s, step, HasFlag(StateContradiction))
    ensures N3 in s.progress.facts && N4 in s.progress.facts
  {
    hide Next, Sound, D.Passes, MayConfront;
    if step.TalkStep? {
      NamedIsKnown(u, s, step.request, N3);
      NamedIsKnown(u, s, step.request, N4);
    }
  }

  lemma RecoveryEarned(u: Setup, s: State, step: Step)
    requires Gains(u, s, step, HasFlag(RecoverMedallion)) || Gains(u, s, step, HoldsMedallion)
    ensures N8 in s.progress.facts && MethodTrace in Items(s.progress)
  {
    hide Next, D.Passes, MayConfront;
  }

  lemma ChargeEarned(u: Setup, s: State, step: Step, x: Culprit)
    requires Gains(u, s, step, HasFlag(Accuse(x)))
    ensures x == u.k.culprit && CanProve(s)
  {
    hide Next, D.Passes, MayConfront;
  }

  lemma StepStates(u: Setup, s: State, step: Step)
    requires Sound(s.progress, s.runtime)
    ensures StateContradiction in Next(u, s, step).progress.actions ==>
      StateContradiction in s.progress.actions || (N3 in s.progress.facts && N4 in s.progress.facts)
  {
    hide Next, Sound, Gains;
    StepGains(u, s, step, HasFlag(StateContradiction));
    if Gains(u, s, step, HasFlag(StateContradiction)) { ContradictionEarned(u, s, step); }
  }

  lemma StepRecovers(u: Setup, s: State, step: Step)
    requires Sound(s.progress, s.runtime)
    ensures RecoverMedallion in Next(u, s, step).progress.actions || Next(u, s, step).objects.status == Recovered ==>
      || RecoverMedallion in s.progress.actions || s.objects.status == Recovered
      || (N8 in s.progress.facts && MethodTrace in Items(s.progress))
  {
    hide Next, Sound, Gains;
    StepGains(u, s, step, HasFlag(RecoverMedallion));
    StepGains(u, s, step, HoldsMedallion);
    if Gains(u, s, step, HasFlag(RecoverMedallion)) || Gains(u, s, step, HoldsMedallion) { RecoveryEarned(u, s, step); }
  }

  lemma StepCharges(u: Setup, s: State, step: Step, x: Culprit)
    requires Sound(s.progress, s.runtime)
    ensures Accuse(x) in Next(u, s, step).progress.actions ==>
      Accuse(x) in s.progress.actions || (x == u.k.culprit && CanProve(s))
  {
    hide Next, Sound, Gains;
    StepGains(u, s, step, HasFlag(Accuse(x)));
    if Gains(u, s, step, HasFlag(Accuse(x))) { ChargeEarned(u, s, step, x); }
  }

  lemma StepEarns(u: Setup, s: State, step: Step)
    requires Sound(s.progress, s.runtime) && Earned(u, s)
    ensures Earned(u, Next(u, s, step))
  {
    hide Next, Sound;
    SoundLedger(s);
    NextGrows(u, s, step);
    StepStates(u, s, step);
    StepRecovers(u, s, step);
    forall x | Accuse(x) in Next(u, s, step).progress.actions
      ensures Accuse(x) in s.progress.actions || (x == u.k.culprit && CanProve(s))
    {
      StepCharges(u, s, step, x);
    }
  }

  lemma {:induction false} PlayEarns(u: Setup, s: State, steps: seq<Step>)
    requires Sound(s.progress, s.runtime) && Earned(u, s)
    ensures Earned(u, Playthrough(u, s, steps))
    decreases |steps|
  {
    hide Sound, Earned, Next;
    if steps != [] {
      StepEarns(u, s, steps[0]);
      NextSound(u, s, steps[0]);
      PlayEarns(u, Next(u, s, steps[0]), steps[1..]);
    }
  }

  /**
   Whoever stated the contradiction knew both times; whoever recovered the medallion knew
   where it was and how it went; nobody but the culprit is ever charged in full, and never
   without the proof.
   */
  lemma FlagsEarned(u: Setup, steps: seq<Step>)
    ensures Earned(u, Playthrough(u, Start(u), steps))
  {
    hide Playthrough, Sound;
    StartSound(u);
    StartHolds(u, HasFlag(StateContradiction));
    StartHolds(u, HasFlag(RecoverMedallion));
    StartHolds(u, HoldsMedallion);
    forall x ensures Accuse(x) !in Start(u).progress.actions { StartHolds(u, HasFlag(Accuse(x))); }
    hide Start;
    PlayEarns(u, Start(u), steps);
  }

  // ---- What a search is let into by itself ----

  // Surfaced scenes stay surfaced, and the second and fourth are so from the start.
  lemma OpenFromTheStart(u: Setup, steps: seq<Step>)
    ensures var r := Playthrough(u, Start(u), steps).runtime; D.SceneMachine(r) && S2 in r.surfaced && S4 in r.surfaced
  {
    hide Start, Playthrough;
    StartSound(u);
    StartFacts(u);
    PlayGrows(u, Start(u), steps);
    PlaySound(u, Start(u), steps);
  }

  lemma SurfacedIsOpen(r: D.Runtime, s: Scene)
    requires D.SceneMachine(r) && s in r.surfaced
    ensures D.StateOf(r, s) in {D.Completion.Available, D.InProgress, D.Completed}
  {
    assert s in r.completion && r.completion[s] != D.Locked && r.completion[s] != D.FailedSoft;
  }

  /**
   The prerequisites the runner finds by itself, one by one.  The two scene prerequisites
   are met in every state a play can reach, so they never hold a search back.
   */
  lemma PrereqsExactly(u: Setup, steps: seq<Step>, cmd: Command, p: Prereq)
    ensures var s := Playthrough(u, Start(u), steps);
      p in AutoPrereqs(u, s, cmd) <==>
        match p
        case TerminalGranted => s.terminalGranted
        case SceneTwo => true
        case SceneFour => true
        case MarcTrusts =>
          Marc in s.cast.npcs && s.cast.npcs[Marc].trust >= if u.k.ally == AllyMarc then 0.25 else 0.45
        case HoldsReceipt => CafeReceipt in Items(s.progress)
        case FourDigits => cmd.what == AttemptCode && cmd.item in {WrongCode, RightCode}
        case _ => false
  {
    OpenFromTheStart(u, steps);
    var s := Playthrough(u, Start(u), steps);
    hide Start, Playthrough;
    SurfacedIsOpen(s.runtime, S2);
    SurfacedIsOpen(s.runtime, S4);
    hide D.SceneMachine, D.StateOf;
  }

  // ---- Settling ----

  /** After every step that settles it, the outcome is settled at the new state's own time: settling again changes nothing. */
  lemma SettledStays(u: Setup, s: State, step: Step)
    requires Sound(s.progress, s.runtime) && Settles(s, step)
    ensures var v := Next(u, s, step); Settle(u, v, Elapsed(u, v)) == v
  {
    var w := Unsettled(u, s, step);
    var t := if step.TickStep? then NextElapsed(u, s) else Elapsed(u, s);
    hide Sound, Settles, Unsettled, Next;
    SettledAt(u, s, step, w, t);
    SettledTwice(u, w, t);
    SituationNow(u, Settle(u, w, t), t, step.TickStep?);
    assert Settle(u, Ticked(Settle(u, w, t)), t) == Ticked(Settle(u, Settle(u, w, t), t));
  }

  lemma SettledTwice(u: Setup, w: State, t: real)
    ensures Settle(u, Settle(u, w, t), t) == Settle(u, w, t)
  {
    LatchIdempotent(u.k, SituationOf(w, t));
    LatchKeeps(u.k, SituationOf(w, t));
    assert SituationOf(Settle(u, w, t), t) == Latch(u.k, SituationOf(w, t));
    hide Latch;
  }

  // ---- Two summaries ----

  // The flag for two summaries rests on two that passed in the history h.
  ghost predicate TwicePassed(s: State, h: seq<LogEntry>) { FrenchSummaryTwice in s.progress.actions ==> Passed(h) >= 2 }

  lemma TalkTwice(u: Setup, s: State, h: seq<LogEntry>, q: D.Request, cap: int)
    requires Sound(s.progress, s.runtime) && LogOk(s, h) && TwicePassed(s, h)
    ensures FrenchSummaryTwice in Talk(u, s, q, cap).progress.actions ==> Passed(h + [EntryOf(u, s, q)]) >= 2
  {
    hide Talk, TurnBrings, EntryOf, Passed, Sound;
    TurnGains(u, s, q, cap, HasFlag(FrenchSummaryTwice));
    PassedAppend(h, EntryOf(u, s, q));
    PassedTail(h, |h| - |s.log|);
    PassedSome(s.log);
    SecondPasses(u, s, q);
  }

  lemma SecondPasses(u: Setup, s: State, q: D.Request)
    ensures TurnBrings(u, s, q, HasFlag(FrenchSummaryTwice)) ==> EntryOf(u, s, q).passed && exists e :: e in s.log && e.passed
  {
    hide D.Turn, D.Passes, D.FirstFailing;
    var c := ContextOf(s, Elapsed(u, s));
    D.TurnVerdict(u.k, s.runtime, q, c);
    if TurnBrings(u, s, q, HasFlag(FrenchSummaryTwice)) { D.CompletedPasses(u.k, s.runtime, q, c); }
  }

  lemma StepTwice(u: Setup, s: State, h: seq<LogEntry>, step: Step)
    requires Sound(s.progress, s.runtime) && LogOk(s, h) && TwicePassed(s, h)
    ensures TwicePassed(Next(u, s, step), if step.TalkStep? then h + [EntryOf(u, s, step.request)] else h)
  {
    hide Sound, LogOk, Passed, EntryOf, D.Passes, MayConfront, Next;
    StepGains(u, s, step, HasFlag(FrenchSummaryTwice));
    if step.TalkStep? {
      TalkTwice(u, s, h, step.request, step.cap);
      TurnGains(u, s, step.request, step.cap, HasFlag(FrenchSummaryTwice));
    }
  }

  lemma {:induction false} PlayTwicePassed(u: Setup, s: State, h: seq<LogEntry>, steps: seq<Step>)
    requires Sound(s.progress, s.runtime) && LogOk(s, h) && TwicePassed(s, h)
    ensures TwicePassed(Playthrough(u, s, steps), h + Taken(u, s, steps))
    decreases |steps|
  {
    hide Next, EntryOf, LogOk, Sound, TwicePassed;
    if steps == [] {
      assert h + Taken(u, s, steps) == h;
    } else {
      var now := if steps[0].TalkStep? then [EntryOf(u, s, steps[0].request)] else [];
      NextLog(u, s, h, steps[0]);
      NextSound(u, s, steps[0]);
      StepTwice(u, s, h, steps[0]);
      assert (if steps[0].TalkStep? then h + [EntryOf(u, s, steps[0].request)] else h) == h + now;
      PlayTwicePassed(u, Next(u, s, steps[0]), h + now, steps[1..]);
      assert h + Taken(u, s, steps) == (h + now) + Taken(u, Next(u, s, steps[0]), steps[1..]);
    }
  }

  ghost predicate Uncapped(steps: seq<Step>) { forall i :: 0 <= i < |steps| && steps[i].TalkStep? ==> steps[i].cap <= 0 }

  lemma StepLog(u: Setup, s: State, step: Step)
    requires step.TalkStep? ==> step.cap <= 0
    ensures Next(u, s, step).log == s.log + if step.TalkStep? then [EntryOf(u, s, step.request)] else []
  {
    NextSettles(u, s, step);
    UnsettledLog(u, s, step);
    if step.TalkStep? { TalkKeepsAll(u, s, step.request, step.cap); }
    hide Next, Unsettled, EntryOf, Talk;
  }

  lemma {:induction false} UncappedLog(u: Setup, s: State, steps: seq<Step>)
    requires Uncapped(steps)
    ensures Playthrough(u, s, steps).log == s.log + Taken(u, s, steps)
    decreases |steps|
  {
    hide Next, EntryOf;
    if steps != [] {
      StepLog(u, s, steps[0]);
      UncappedLog(u, Next(u, s, steps[0]), steps[1..]);
    }
  }

  lemma TalkKeepsAll(u: Setup, s: State, q: D.Request, cap: int)
    requires cap <= 0
    ensures Talk(u, s, q, cap).log == s.log + [EntryOf(u, s, q)]
  {
    hide D.Turn, TurnActions, Feel, Deltas, Passed;
  }

  /**
   The flag for summing up twice is never derived without two passed summaries; where no
   turn asks for a shorter log, two of them are also enough.
   */
  lemma SummingUpTwice(u: Setup, steps: seq<Step>)
    ensures FrenchSummaryTwice in Playthrough(u, Start(u), steps).progress.actions ==> Passed(Taken(u, Start(u), steps)) >= 2
    ensures Uncapped(steps) && Passed(Taken(u, Start(u), steps)) >= 2 ==>
      FrenchSummaryTwice in Playthrough(u, Start(u), steps).progress.actions
  {
    StartSound(u);
    StartFacts(u);
    StartLog(u);
    StartHolds(u, HasFlag(FrenchSummaryTwice));
    hide Start, Playthrough, Taken, Sound, Passed, LogOk;
    PlayTwicePassed(u, Start(u), [], steps);
    assert [] + Taken(u, Start(u), steps) == Taken(u, Start(u), steps);
    if Uncapped(steps) {
      UncappedLog(u, Start(u), steps);
      SummariesAlwaysFlagged(u, steps);
    }
  }

  /** With a log cut down to its last turn they are not: one turn in between, and the second summary counts as the first. */
  lemma ShortLogForgets(u: Setup, s: State, q: D.Request, r: D.Request, cap: int)
    requires Sound(s.progress, s.runtime) && q.intent != SummarizeUnderstanding
    ensures var v := Next(u, Next(u, s, TalkStep(q, 1)), TalkStep(r, cap));
      FrenchSummaryTwice in v.progress.actions <==> FrenchSummaryTwice in s.progress.actions
  {
    NextSound(u, s, TalkStep(q, 1));
    SettledLog(u, s, q);
    NoSecondSummary(u, s, q, 1);
    NoSecondSummary(u, Next(u, s, TalkStep(q, 1)), r, cap);
    hide Next, Sound;
  }

  lemma NoSecondSummary(u: Setup, s: State, q: D.Request, cap: int)
    requires Sound(s.progress, s.runtime)
    requires q.intent != SummarizeUnderstanding || forall e :: e in s.log ==> !e.passed
    ensures FrenchSummaryTwice in Next(u, s, TalkStep(q, cap)).progress.actions <==> FrenchSummaryTwice in s.progress.actions
  {
    hide Next, Sound, D.Passes;
    StepGains(u, s, TalkStep(q, cap), HasFlag(FrenchSummaryTwice));
  }

  lemma SettledLog(u: Setup, s: State, q: D.Request)
    requires q.intent != SummarizeUnderstanding
    ensures forall e :: e in Next(u, s, TalkStep(q, 1)).log ==> !e.passed
  {
    hide Next, Talk, Unsettled;
    NextSettles(u, s, TalkStep(q, 1));
    UnsettledLog(u, s, TalkStep(q, 1));
    OnlyThisTurn(u, s, q);
  }

  lemma OnlyThisTurn(u: Setup, s: State, q: D.Request)
    requires q.intent != SummarizeUnderstanding
    ensures forall e :: e in Talk(u, s, q, 1).log ==> !e.passed
  {
    D.PassedMeansAccepted(u.k, s.runtime, q, ContextOf(s, Elapsed(u, s)));
    hide D.Turn, TurnActions, Feel, Deltas, Passed;
  }
}
