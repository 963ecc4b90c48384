/** One case played through `SimRunner`: every command and tick as a step, and what holds over whole runs. */
module CaseRun {
  import opened Json
  import opened Timeline
  import opened CaseRules
  import D = Dialogue
  import opened Investigation
  import opened Outcome

  datatype LogEntry = LogEntry(turn: nat, scene: Scene, intent: Intent, status: D.Status, code: D.Code, passed: bool)

  datatype State = State(
    tick: nat, cast: Timeline.Run, objects: Objects, progress: Progress, runtime: D.Runtime, log: seq<LogEntry>,
    extra: set<Action>, relationships: set<Relationship>, outcomes: set<OutcomeFlag>, terminalGranted: bool)

  /** The case, the seconds a tick lasts, and the overlaid cast at the start. */
  datatype Setup = Setup(k: Case, dt: real, npcs: Npcs)

  datatype Step =
    | RecordActions(actions: set<Action>)
    | RecordRelationships(relationships: set<Relationship>)
    | RecordOutcomes(outcomes: set<OutcomeFlag>)
    | InvestigateStep(command: Command, available: set<Prereq>)
    | ContradictStep(edge: Edge)
    | RecoverStep(quiet: bool)
    | AccuseStep(accused: Option<Culprit>, public: bool)
    | TalkStep(request: D.Request, cap: int)
    | TickStep

  function Elapsed(u: Setup, s: State): real { s.tick as real * u.dt }

  function SituationOf(s: State, elapsed: real): Situation {
    Situation(s.progress, s.objects, s.cast.npcs, elapsed, s.extra, s.relationships, s.outcomes)
  }

  function WithSituation(s: State, z: Situation): State {
    s.(progress := z.progress, objects := z.objects, outcomes := z.outcomes)
  }

  // `_apply_case_outcome_branch_transitions`.
  function Settle(u: Setup, s: State, elapsed: real): State { WithSituation(s, Latch(u.k, SituationOf(s, elapsed))) }

  function ContextOf(s: State, elapsed: real): D.Context {
    D.Context(s.progress.facts, s.progress.discovered + s.progress.collected, s.progress.collected, s.cast.npcs, elapsed)
  }

  // `_derive_auto_investigation_prerequisites`.
  function AutoPrereqs(u: Setup, s: State, cmd: Command): set<Prereq> {
    (if s.terminalGranted then {TerminalGranted} else {})
    + (if D.StateOf(s.runtime, S2) in {D.Completion.Available, D.InProgress, D.Completed} then {SceneTwo} else {})
    + (if D.StateOf(s.runtime, S4) in {D.Completion.Available, D.InProgress, D.Completed} then {SceneFour} else {})
    + (if Marc in s.cast.npcs && s.cast.npcs[Marc].trust >= GateTrust(u.k, S2).value then {MarcTrusts} else {})
    + (if CafeReceipt in s.progress.discovered + s.progress.collected then {HoldsReceipt} else {})
    + (if cmd.what == AttemptCode && cmd.item in {WrongCode, RightCode} then {FourDigits} else {})
  }

  // `action_flags_from_dialogue_turn`.
  function TurnActions(u: Setup, q: D.Request, res: D.Result, passedBefore: nat): set<Action> {
    if res.status != D.Accepted then {}
    else
      (if q.intent in {RequestAccess, RequestPermission} && q.tone == D.Plain then {PoliteGateUsage} else {})
      + (if q.intent == ChallengeContradiction && N3 in q.facts && N4 in q.facts then {StateContradiction} else {})
      + (if q.intent == SummarizeUnderstanding && res.summaryPassed && passedBefore >= 1 then {FrenchSummaryTwice} else {})
      + (if q.intent == AccuseIntent then
           (if q.accused == Some(u.k.culprit) then {Accuse(u.k.culprit)} else {WrongAccusation})
         else {})
  }

  function Passed(log: seq<LogEntry>): nat {
    if log == [] then 0 else (if log[0].passed then 1 else 0) + Passed(log[1..])
  }

  // The last `cap` entries; a cap of zero or less keeps them all.
  function Trim(log: seq<LogEntry>, cap: int): seq<LogEntry> {
    if cap > 0 && |log| > cap then log[|log| - cap..] else log
  }

  // `_intent_affect`.
  function Deltas(i: Intent, status: D.Status, code: D.Code): (real, real) {
    match status
    case Accepted =>
      if i == Reassure then (0.04, -0.05)
      else if i == SummarizeUnderstanding then (0.05, -0.03)
      else if i == PresentEvidence then (0.03, -0.01)
      else if i == ChallengeContradiction then (0.01, 0.04)
      else if i == AccuseIntent then (-0.08, 0.10)
      else if i in {RequestAccess, RequestPermission} then (0.02, 0.0)
      else (0.0, 0.0)
    case Repair =>
      if code in {D.RegisterRepair, D.ToneRepair} then (-0.02, 0.03)
      else if code in {D.NoEvidenceNamed, D.SummaryRequired, D.SummaryTooShort, D.SummaryMissesKey} then (-0.01, 0.02)
      else (0.0, 0.01)
    case Refused => (-0.03, 0.02)
    case _ => (0.0, 0.0)
  }

  function Feel(npcs: Npcs, npc: Option<Cast>, deltas: (real, real)): Npcs {
    if npc.Some? && npc.value in npcs
    then npcs[npc.value := Affected(npcs[npc.value], Affect(deltas.0, deltas.1, None, None, None))]
    else npcs
  }

  // What a turn leaves in the log.
  function EntryOf(u: Setup, s: State, q: D.Request): LogEntry {
    var (res, after) := D.Turn(u.k, s.runtime, q, ContextOf(s, Elapsed(u, s)));
    LogEntry(after.turn, q.scene, q.intent, res.status, res.code, res.summaryPassed)
  }

  // `submit_dialogue_turn` before the outcome is settled.
  function Talk(u: Setup, s: State, q: D.Request, cap: int): State {
    var (res, after) := D.Turn(u.k, s.runtime, q, ContextOf(s, Elapsed(u, s)));
    var actions := TurnActions(u, q, res, Passed(s.log));
    s.(runtime := after,
       progress := s.progress.(facts := s.progress.facts + res.revealed, actions := s.progress.actions + actions),
       log := Trim(s.log + [EntryOf(u, s, q)], cap),
       cast := s.cast.(npcs := Feel(s.cast.npcs, q.npc, Deltas(q.intent, res.status, res.code))))
  }

  // `submit_investigation_command` before the outcome is settled.
  function Search(u: Setup, s: State, cmd: Command, available: set<Prereq>): State {
    var x := Investigate(u.k, cmd, s.objects, Elapsed(u, s), available + AutoPrereqs(u, s, cmd));
    s.(objects := x.objects, progress := AfterExecution(s.progress, cmd, x),
       terminalGranted := s.terminalGranted || (cmd.what == RequestTerminal && x.ack == Success))
  }

  // What a tick changes before the outcome is settled, at the time it is about to emit.
  function Passing(u: Setup, s: State, elapsed: real): State {
    s.(cast := Timeline.Apply(u.k.schedule, s.cast, elapsed), objects := Archive(s.objects, elapsed))
  }

  // The time a tick is about to emit.
  function NextElapsed(u: Setup, s: State): real { (s.tick + 1) as real * u.dt }

  function Ticked(s: State): State { s.(tick := s.tick + 1) }

  function Tick(u: Setup, s: State): State {
    Ticked(Settle(u, Passing(u, s, NextElapsed(u, s)), NextElapsed(u, s)))
  }

  /** One call of a `SimRunner` method, or one tick of `run`. */
  function Next(u: Setup, s: State, step: Step): State {
    match step
    case RecordActions(a) => s.(extra := s.extra + a)
    case RecordRelationships(r) => s.(relationships := s.relationships + r)
    case RecordOutcomes(o) => s.(outcomes := s.outcomes + o)
    case InvestigateStep(cmd, available) => Settle(u, Search(u, s, cmd, available), Elapsed(u, s))
    case ContradictStep(e) =>
      if Contradict(s.progress, e).0 in {Recorded, AlreadyKnown}
      then Settle(u, s.(progress := Contradict(s.progress, e).1), Elapsed(u, s)) else s
    case RecoverStep(quiet) =>
      Settle(u, WithSituation(s, Recover(u.k, SituationOf(s, Elapsed(u, s)), s.runtime, quiet).1), Elapsed(u, s))
    case AccuseStep(accused, public) =>
      Settle(u, WithSituation(s, AccuseSomeone(u.k, SituationOf(s, Elapsed(u, s)), s.runtime, accused, public).1), Elapsed(u, s))
    case TalkStep(q, cap) => Settle(u, Talk(u, s, q, cap), Elapsed(u, s))
    case TickStep => Tick(u, s)
  }

  function Start(u: Setup): State {
    var cast := Timeline.Apply(u.k.schedule, Timeline.Run(u.npcs, {}), 0.0);
    var s := State(0, cast, Archive(InitialObjects(u.k), 0.0), InitialProgress(), D.Initial(STARTING_FACTS), [],
                   {}, {}, {}, false);
    Settle(u, s, 0.0)
  }

  function Playthrough(u: Setup, s: State, steps: seq<Step>): State
    decreases |steps|
  {
    if steps == [] then s else Playthrough(u, Next(u, s, steps[0]), steps[1..])
  }

  /** The outcome the runner reports, dialogue log included. */
  function Report(u: Setup, s: State): Primary { Evaluate(u.k, SituationOf(s, Elapsed(u, s)), Passed(s.log)) }

  // ---- What every step keeps ----

  /**
   The run invariant: the hidden fact rests on its ingredients, dialogue reveals nothing
   progress does not know, the contradiction ledger is sound and the scene machine in order.
   */
  ghost predicate Sound(p: Progress, r: D.Runtime) {
    && D.Grounded(p.facts, p.discovered + p.collected)
    && r.revealed <= p.facts && N1 in p.facts
    && Ledger(p) && D.SceneMachine(r)
  }

  // What settling leaves alone.
  lemma SettleFacts(u: Setup, s: State, elapsed: real)
    ensures var v := Settle(u, s, elapsed);
      && v.progress == s.progress && v.runtime == s.runtime && v.log == s.log && v.extra == s.extra && v.tick == s.tick
      && v.relationships == s.relationships && s.outcomes <= v.outcomes
      && (v.objects.status == Recovered <==> s.objects.status == Recovered)
  {
    LatchKeeps(u.k, SituationOf(s, elapsed));
  }

  lemma TalkSound(u: Setup, s: State, q: D.Request, cap: int)
    requires Sound(s.progress, s.runtime)
    ensures Sound(Talk(u, s, q, cap).progress, Talk(u, s, q, cap).runtime)
  {
    var c := ContextOf(s, Elapsed(u, s));
    D.TurnGrounded(u.k, s.runtime, q, c);
    D.TurnMachine(u.k, s.runtime, q, c);
    UnlockableGrows(s.progress.facts, s.progress.facts + D.Turn(u.k, s.runtime, q, c).0.revealed);
  }

  lemma SearchSound(u: Setup, s: State, cmd: Command, available: set<Prereq>)
    requires Sound(s.progress, s.runtime)
    ensures Sound(Search(u, s, cmd, available).progress, Search(u, s, cmd, available).runtime)
  {
    var prereqs := available + AutoPrereqs(u, s, cmd);
    ExecutionHidesN8(s.progress, u.k, cmd, s.objects, Elapsed(u, s), prereqs);
    ExecutionLedger(s.progress, cmd, Investigate(u.k, cmd, s.objects, Elapsed(u, s), prereqs));
  }

  // More action flags never hurt.
  lemma MoreActions(p: Progress, r: D.Runtime, actions: set<Action>)
    requires Sound(p, r)
    ensures Sound(p.(actions := p.actions + actions), r)
  {
  }

  // What an attempt does to progress.
  lemma AttemptProgress(k: Case, z: Situation, r: D.Runtime, quiet: bool, accused: Option<Culprit>, public: bool)
      returns (a: set<Action>, b: set<Action>)
    ensures Recover(k, z, r, quiet).1.progress == z.progress.(actions := z.progress.actions + a)
    ensures AccuseSomeone(k, z, r, accused, public).1.progress == z.progress.(actions := z.progress.actions + b)
    ensures z.outcomes <= Recover(k, z, r, quiet).1.outcomes && z.outcomes <= AccuseSomeone(k, z, r, accused, public).1.outcomes
    ensures z.objects.status == Recovered ==> Recover(k, z, r, quiet).1.objects.status == Recovered
    ensures AccuseSomeone(k, z, r, accused, public).1.objects == z.objects
  {
    a := Recover(k, z, r, quiet).1.progress.actions;
    b := AccuseSomeone(k, z, r, accused, public).1.progress.actions;
  }

  // The state a step settles, if it settles one.
  function Unsettled(u: Setup, s: State, step: Step): State {
    match step
    case InvestigateStep(cmd, available) => Search(u, s, cmd, available)
    case ContradictStep(e) => s.(progress := Contradict(s.progress, e).1)
    case RecoverStep(quiet) => WithSituation(s, Recover(u.k, SituationOf(s, Elapsed(u, s)), s.runtime, quiet).1)
    case AccuseStep(accused, public) =>
      WithSituation(s, AccuseSomeone(u.k, SituationOf(s, Elapsed(u, s)), s.runtime, accused, public).1)
    case TalkStep(q, cap) => Talk(u, s, q, cap)
    case TickStep => Passing(u, s, NextElapsed(u, s))
    case _ => s
  }

  // v is w after its outcome was settled, or w itself with flags recorded.
  ghost predicate SettledFrom(w: State, v: State) {
    && v.progress == w.progress && v.runtime == w.runtime && v.log == w.log
    && w.outcomes <= v.outcomes && w.extra <= v.extra
    && (w.objects.status == Recovered ==> v.objects.status == Recovered)
  }

  lemma SettleSettles(u: Setup, w: State, elapsed: real)
    ensures SettledFrom(w, Settle(u, w, elapsed))
  {
    SettleFacts(u, w, elapsed);
  }

  // A step is its own change, then perhaps a settlement.
  lemma NextSettles(u: Setup, s: State, step: Step)
    ensures SettledFrom(Unsettled(u, s, step), Next(u, s, step))
  {
    var w := Unsettled(u, s, step);
    match step {
      case RecordActions(_) =>
      case RecordRelationships(_) =>
      case RecordOutcomes(_) =>
      case TickStep => SettleSettles(u, w, NextElapsed(u, s));
      case _ => SettleSettles(u, w, Elapsed(u, s));
    }
  }

  /** No command and no tick breaks the invariant. */
  lemma NextSound(u: Setup, s: State, step: Step)
    requires Sound(s.progress, s.runtime)
    ensures Sound(Next(u, s, step).progress, Next(u, s, step).runtime)
  {
    NextSettles(u, s, step);
    match step {
      case InvestigateStep(cmd, available) => SearchSound(u, s, cmd, available);
      case ContradictStep(e) => ContradictLedger(s.progress, e);
      case RecoverStep(quiet) =>
        var a, b := AttemptProgress(u.k, SituationOf(s, Elapsed(u, s)), s.runtime, quiet, None, false);
        MoreActions(s.progress, s.runtime, a);
      case AccuseStep(accused, public) =>
        var a, b := AttemptProgress(u.k, SituationOf(s, Elapsed(u, s)), s.runtime, true, accused, public);
        MoreActions(s.progress, s.runtime, b);
      case TalkStep(q, cap) => TalkSound(u, s, q, cap);
      case _ =>
    }
  }

  lemma StartFacts(u: Setup)
    ensures Start(u).progress == InitialProgress() && Start(u).runtime == D.Initial(STARTING_FACTS) && Start(u).log == []
  {
  }

  lemma StartSound(u: Setup)
    ensures Sound(Start(u).progress, Start(u).runtime)
  {
    StartFacts(u);
    D.InitialMachine(STARTING_FACTS);
  }

  lemma {:induction false} PlaySound(u: Setup, s: State, steps: seq<Step>)
    requires Sound(s.progress, s.runtime)
    ensures Sound(Playthrough(u, s, steps).progress, Playthrough(u, s, steps).runtime)
    decreases |steps|
  {
    if steps != [] {
      NextSound(u, s, steps[0]);
      PlaySound(u, Next(u, s, steps[0]), steps[1..]);
    }
  }

  /** Every state a play can reach is sound. */
  lemma Reachable(u: Setup, steps: seq<Step>)
    ensures Sound(Playthrough(u, Start(u), steps).progress, Playthrough(u, Start(u), steps).runtime)
  {
    StartSound(u);
    PlaySound(u, Start(u), steps);
  }

  lemma RecoveryNeedsN8(u: Setup, s: State)
    ensures Report(u, s) == RecoverySuccess || Report(u, s) == BestOutcome ==> N8 in s.progress.facts
  {
  }

  /**
   Provenance: in every state any play can reach, the hidden fact is known only together
   with both badge and receipt times and the receipt itself; so a reported recovery always
   rests on the contradiction's ingredients.
   */
  lemma Provenance(u: Setup, steps: seq<Step>)
    ensures var s := Playthrough(u, Start(u), steps);
      N8 in s.progress.facts || Report(u, s) == RecoverySuccess || Report(u, s) == BestOutcome ==>
        {N3, N4} <= s.progress.facts && CafeReceipt in s.progress.discovered + s.progress.collected
  {
    Reachable(u, steps);
    RecoveryNeedsN8(u, Playthrough(u, Start(u), steps));
  }

  // ---- What only grows ----

  ghost predicate ProgressGrows(p: Progress, q: Progress) {
    && p.facts <= q.facts && p.discovered <= q.discovered && p.collected <= q.collected
    && p.contradictions <= q.contradictions && p.actions <= q.actions
  }

  ghost predicate RuntimeGrows(r: D.Runtime, v: D.Runtime) {
    && r.revealed <= v.revealed && r.surfaced <= v.surfaced && r.turn <= v.turn
    && forall c :: D.StateOf(r, c) == D.Completed ==> D.StateOf(v, c) == D.Completed
  }

  ghost predicate Grows(s: State, v: State) {
    && ProgressGrows(s.progress, v.progress) && RuntimeGrows(s.runtime, v.runtime)
    && s.extra <= v.extra && s.outcomes <= v.outcomes
    && (s.objects.status == Recovered ==> v.objects.status == Recovered)
  }

  lemma UnsettledGrows(u: Setup, s: State, step: Step)
    requires Ledger(s.progress)
    ensures Grows(s, Unsettled(u, s, step))
  {
    match step {
      case InvestigateStep(cmd, available) =>
        var prereqs := available + AutoPrereqs(u, s, cmd);
        ExecutionLedger(s.progress, cmd, Investigate(u.k, cmd, s.objects, Elapsed(u, s), prereqs));
        ExecutionKeepsRecovered(u.k, cmd, s.objects, Elapsed(u, s), prereqs);
      case RecoverStep(quiet) =>
        var a, b := AttemptProgress(u.k, SituationOf(s, Elapsed(u, s)), s.runtime, quiet, None, false);
      case AccuseStep(accused, public) =>
        var a, b := AttemptProgress(u.k, SituationOf(s, Elapsed(u, s)), s.runtime, true, accused, public);
      case TalkStep(q, cap) => D.TurnProgress(u.k, s.runtime, q, ContextOf(s, Elapsed(u, s)));
      case _ =>
    }
  }

  /** Knowledge, flags, completed scenes and a recovered medallion survive every step. */
  lemma NextGrows(u: Setup, s: State, step: Step)
    requires Ledger(s.progress)
    ensures Grows(s, Next(u, s, step))
  {
    UnsettledGrows(u, s, step);
    NextSettles(u, s, step);
  }

  lemma {:induction false} PlayGrows(u: Setup, s: State, steps: seq<Step>)
    requires Sound(s.progress, s.runtime)
    ensures Grows(s, Playthrough(u, s, steps))
    decreases |steps|
  {
    if steps != [] {
      NextGrows(u, s, steps[0]);
      NextSound(u, s, steps[0]);
      PlayGrows(u, Next(u, s, steps[0]), steps[1..]);
    }
  }

  /** A wrong accusation is final: from then on every play reports the soft failure and never the best outcome. */
  lemma WrongAccusationIsFinal(u: Setup, s: State, steps: seq<Step>)
    requires Sound(s.progress, s.runtime) && WrongAccusation in s.progress.actions + s.extra
    ensures Report(u, Playthrough(u, s, steps)) == SoftFail
    ensures var v := Playthrough(u, s, steps); !BestReached(u.k, SituationOf(v, Elapsed(u, v)), Passed(v.log))
  {
    PlayGrows(u, s, steps);
    var v := Playthrough(u, s, steps);
    NeverBoth(u.k, SituationOf(v, Elapsed(u, v)), Passed(v.log));
  }

  /** A recovered medallion stays recovered, and a timeout can then no longer cost the case. */
  lemma RecoveryIsFinal(u: Setup, s: State, steps: seq<Step>)
    requires Sound(s.progress, s.runtime) && s.objects.status == Recovered
    ensures Playthrough(u, s, steps).objects.status == Recovered
    ensures Report(u, Playthrough(u, s, steps)) == SoftFail ==>
      WrongAccusation in Playthrough(u, s, steps).progress.actions + Playthrough(u, s, steps).extra
  {
    PlayGrows(u, s, steps);
  }

  // ---- The dialogue log ----

  /** Every turn a play takes, in order. */
  function Taken(u: Setup, s: State, steps: seq<Step>): seq<LogEntry>
    decreases |steps|
  {
    if steps == [] then []
    else
      (if steps[0].TalkStep? then [EntryOf(u, s, steps[0].request)] else [])
      + Taken(u, Next(u, s, steps[0]), steps[1..])
  }

  // The log is the end of the history h, which numbers every turn taken so far.
  ghost predicate LogOk(s: State, h: seq<LogEntry>) {
    && |s.log| <= |h| && s.log == h[|h| - |s.log|..]
    && |h| == s.runtime.turn && forall i :: 0 <= i < |h| ==> h[i].turn == i + 1
  }

  lemma TrimTail(log: seq<LogEntry>, h: seq<LogEntry>, cap: int)
    requires |log| <= |h| && log == h[|h| - |log|..]
    ensures var t := Trim(log, cap); |t| <= |h| && t == h[|h| - |t|..] && (cap > 0 ==> |t| <= cap)
  {
  }

  lemma TalkLog(u: Setup, s: State, h: seq<LogEntry>, q: D.Request, cap: int)
    requires LogOk(s, h)
    ensures LogOk(Talk(u, s, q, cap), h + [EntryOf(u, s, q)])
    ensures cap > 0 ==> |Talk(u, s, q, cap).log| <= cap
  {
    hide D.Turn, TurnActions, Feel, Deltas, Passed, Trim;
    D.TurnProgress(u.k, s.runtime, q, ContextOf(s, Elapsed(u, s)));
    TrimTail(s.log + [EntryOf(u, s, q)], h + [EntryOf(u, s, q)], cap);
  }

  lemma NextLog(u: Setup, s: State, h: seq<LogEntry>, step: Step)
    requires LogOk(s, h)
    ensures LogOk(Next(u, s, step), if step.TalkStep? then h + [EntryOf(u, s, step.request)] else h)
  {
    hide Next, Talk, EntryOf;
    NextSettles(u, s, step);
    UnsettledLog(u, s, step);
    if step.TalkStep? { TalkLog(u, s, h, step.request, step.cap); }
  }

  lemma UnsettledLog(u: Setup, s: State, step: Step)
    ensures var w := Unsettled(u, s, step);
      if step.TalkStep? then w == Talk(u, s, step.request, step.cap) else w.log == s.log && w.runtime == s.runtime
  {
  }

  lemma {:induction false} HistoryTail(u: Setup, s: State, h: seq<LogEntry>, steps: seq<Step>)
    requires LogOk(s, h)
    ensures LogOk(Playthrough(u, s, steps), h + Taken(u, s, steps))
    decreases |steps|
  {
    hide Next, EntryOf, LogOk;
    if steps == [] {
      assert h + Taken(u, s, steps) == h;
    } else {
      var now := if steps[0].TalkStep? then [EntryOf(u, s, steps[0].request)] else [];
      NextLog(u, s, h, steps[0]);
      assert (if steps[0].TalkStep? then h + [EntryOf(u, s, steps[0].request)] else h) == h + now;
      HistoryTail(u, Next(u, s, steps[0]), h + now, steps[1..]);
      assert h + Taken(u, s, steps) == (h + now) + Taken(u, Next(u, s, steps[0]), steps[1..]);
    }
  }

  lemma StartLog(u: Setup)
    ensures LogOk(Start(u), [])
  {
    hide Start;
    StartFacts(u);
  }

  /**
   The kept log of every play is the unbroken end of all the turns it took, whatever caps
   were asked for, and those are numbered from one.
   */
  lemma LogIsTail(u: Setup, steps: seq<Step>)
    ensures LogOk(Playthrough(u, Start(u), steps), Taken(u, Start(u), steps))
  {
    hide Start, Playthrough, Taken, LogOk;
    StartLog(u);
    HistoryTail(u, Start(u), [], steps);
    assert [] + Taken(u, Start(u), steps) == Taken(u, Start(u), steps);
  }

  // Two passed summaries in the log leave their flag in progress.
  ghost predicate SummariesFlagged(s: State) { Passed(s.log) >= 2 ==> FrenchSummaryTwice in s.progress.actions }

  lemma {:induction false} PassedAppend(log: seq<LogEntry>, e: LogEntry)
    ensures Passed(log + [e]) == Passed(log) + if e.passed then 1 else 0
  {
    if log == [] {
      assert ([] + [e])[1..] == [];
    } else {
      assert (log + [e])[1..] == log[1..] + [e];
      PassedAppend(log[1..], e);
    }
  }

  lemma {:induction false} PassedTail(log: seq<LogEntry>, n: nat)
    requires n <= |log|
    ensures Passed(log[n..]) <= Passed(log)
  {
    if n > 0 {
      assert log[n..] == log[1..][n - 1..];
      PassedTail(log[1..], n - 1);
    }
  }

  lemma TalkFlags(u: Setup, s: State, q: D.Request, cap: int)
    requires SummariesFlagged(s)
    ensures SummariesFlagged(Talk(u, s, q, cap))
  {
    var (res, after) := D.Turn(u.k, s.runtime, q, ContextOf(s, Elapsed(u, s)));
    var e := LogEntry(after.turn, q.scene, q.intent, res.status, res.code, res.summaryPassed);
    D.PassedMeansAccepted(u.k, s.runtime, q, ContextOf(s, Elapsed(u, s)));
    PassedAppend(s.log, e);
    if cap > 0 && |s.log + [e]| > cap { PassedTail(s.log + [e], |s.log + [e]| - cap); }
  }

  lemma NextFlags(u: Setup, s: State, step: Step)
    requires SummariesFlagged(s) && Sound(s.progress, s.runtime)
    ensures SummariesFlagged(Next(u, s, step))
  {
    NextSettles(u, s, step);
    NextGrows(u, s, step);
    if step.TalkStep? { TalkFlags(u, s, step.request, step.cap); }
  }

  lemma {:induction false} PlayFlags(u: Setup, s: State, steps: seq<Step>)
    requires SummariesFlagged(s) && Sound(s.progress, s.runtime)
    ensures SummariesFlagged(Playthrough(u, s, steps))
    decreases |steps|
  {
    if steps != [] {
      NextFlags(u, s, steps[0]);
      NextSound(u, s, steps[0]);
      PlayFlags(u, Next(u, s, steps[0]), steps[1..]);
    }
  }

  lemma SummariesAlwaysFlagged(u: Setup, steps: seq<Step>)
    ensures SummariesFlagged(Playthrough(u, Start(u), steps))
  {
    StartSound(u);
    StartFacts(u);
    PlayFlags(u, Start(u), steps);
  }

  lemma SameActions(z: Situation, a: nat, b: nat)
    requires a <= b && (b >= 2 ==> FrenchSummaryTwice in z.progress.actions)
    ensures ActionsOf(z, a) == ActionsOf(z, b)
  {
  }

  lemma SameEvaluation(k: Case, z: Situation, a: nat, b: nat)
    requires ActionsOf(z, a) == ActionsOf(z, b)
    ensures Evaluate(k, z, a) == Evaluate(k, z, b)
  {
  }

  /** The report, which reads the dialogue log, and the latch, which does not, never disagree on the outcome. */
  lemma ReportNeedsNoLog(u: Setup, steps: seq<Step>)
    ensures var s := Playthrough(u, Start(u), steps); Evaluate(u.k, SituationOf(s, Elapsed(u, s)), 0) == Report(u, s)
  {
    SummariesAlwaysFlagged(u, steps);
    var s := Playthrough(u, Start(u), steps);
    var z := SituationOf(s, Elapsed(u, s));
    SameActions(z, 0, Passed(s.log));
    SameEvaluation(u.k, z, 0, Passed(s.log));
  }
}
