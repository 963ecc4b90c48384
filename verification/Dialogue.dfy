/** The scene runtime of `case_mbam/dialogue_runtime.py`. */
module Dialogue {
  import opened Json
  import opened Timeline
  import opened CaseRules

  datatype Completion = Locked | Available | InProgress | Completed | FailedSoft

  datatype Runtime = Runtime(
    completion: map<Scene, Completion>, active: Option<Scene>, revealed: set<Fact>, surfaced: set<Scene>, turn: nat)

  /** What a turn may look at besides the runtime. */
  datatype Context = Context(facts: set<Fact>, evidence: set<Evidence>, collected: set<Evidence>, npcs: Npcs, elapsed: real)

  datatype Tone = Plain | WrongRegister | Aggressive

  datatype Request = Request(
    scene: Scene, npc: Option<Cast>, intent: Intent, slots: set<Slot>, facts: seq<Fact>, evidence: set<Evidence>,
    tone: Tone, accused: Option<Culprit>)

  datatype Status = Accepted | BlockedGate | Repair | Refused | InvalidIntent | InvalidSceneState

  datatype Code =
    | MissingFacts | MissingItems | OutsideWindow | LowTrust | NpcMismatch | SceneTerminal
    | NpcMissing | TrustRefusal | StressRefusal | IntentNotAllowed | RegisterRepair | ToneRepair | MissingSlots
    | FactNotKnown | EvidenceNotKnown | NoEvidenceNamed | TooFewFacts | SummaryRequired
    | SummaryTooShort | SummaryMissesKey | SummaryNeeded | TurnAccepted | SceneCompleted | ScenePaused

  datatype Result = Result(status: Status, code: Code, revealed: set<Fact>, unlocks: bool, summaryPassed: bool)

  // ---- Entering a scene ----

  function StateOf(r: Runtime, s: Scene): Completion { if s in r.completion then r.completion[s] else Locked }

  function Known(r: Runtime, c: Context): set<Fact> { c.facts + r.revealed }

  predicate TrustTooLow(k: Case, s: Scene, c: Context) {
    GateTrust(k, s).Some?
    && (Primary(k, s) !in c.npcs || c.npcs[Primary(k, s)].trust < GateTrust(k, s).value)
  }

  predicate OutsideTheWindow(s: Scene, elapsed: real) {
    GateWindow(s).Some?
    && var (low, high) := GateWindow(s).value; !(low * 60.0 <= elapsed <= high * 60.0)
  }

  // The failed checks' codes are sorted by name, and the first one is reported.
  function GateFailure(k: Case, s: Scene, r: Runtime, c: Context): Option<Code> {
    if !(GateFacts(s) <= Known(r, c)) then Some(MissingFacts)
    else if !(GateItems(s) <= c.collected) then Some(MissingItems)
    else if OutsideTheWindow(s, c.elapsed) then Some(OutsideWindow)
    else if TrustTooLow(k, s, c) then Some(LowTrust)
    else None
  }

  datatype Entry = Entry(status: Option<Status>, code: Code, after: Runtime)

  /** `enter_dialogue_scene`; the status is `None` when the scene was entered. */
  function Enter(k: Case, r: Runtime, s: Scene, npc: Option<Cast>, c: Context): Entry {
    if npc != Some(Primary(k, s)) then Entry(Some(InvalidSceneState), NpcMismatch, r)
    else if StateOf(r, s) in {Completed, FailedSoft} then Entry(Some(InvalidSceneState), SceneTerminal, r)
    else if GateFailure(k, s, r, c).Some? then Entry(Some(BlockedGate), GateFailure(k, s, r, c).value, r)
    else
      Entry(None, TurnAccepted, r.(
        completion := r.completion[s := InProgress], active := Some(s),
        revealed := r.revealed + OpeningFacts(s), surfaced := r.surfaced + {s}))
  }

  // ---- What a turn can reveal ----

  // `_legal_turn_fact_reveals` before the filter.
  function Candidates(q: Request, known: set<Fact>, evidence: set<Evidence>): set<Fact> {
    match q.scene
    case S1 =>
      if q.intent in {AskWhatHappened, AskWhen, AskWhere, AskWho} then {N1}
      else if q.intent == RequestPermission then {N7} else {}
    case S2 =>
      if q.intent in {RequestAccess, AskWhen, AskWhatSeen} then {N2}
      else if q.intent == PresentEvidence then
        (if MethodTrace in q.evidence then {N7} else {}) + (if CafeReceipt in q.evidence then {N3} else {})
      else {}
    case S3 =>
      if q.intent == AskWhen then {N3}
      else if q.intent == AskWhere then {N6}
      else if q.intent == AskWho then {N5}
      else if q.intent == AskWhatSeen then {N5, N6}
      else if q.intent == ChallengeContradiction && {N3, N4} <= known && CafeReceipt in evidence then {N8}
      else {}
    case S4 =>
      if q.intent == AskWhatSeen then {N5}
      else if q.intent == AskWhen then {N4}
      else if q.intent in {AskWhere, AskWho} then {N5}
      else if q.intent == PresentEvidence && CafeReceipt in q.evidence then {N4}
      else {}
    case S5 =>
      if q.intent == PresentEvidence then
        (if CafeReceipt in q.evidence then {N4} else {}) + (if MethodTrace in q.evidence then {N7} else {})
      else if q.intent == ChallengeContradiction && {N3, N4} <= known && CafeReceipt in evidence then {N8}
      else {}
  }

  function Reveals(q: Request, known: set<Fact>, evidence: set<Evidence>): set<Fact> {
    set f | f in Candidates(q, known, evidence) && VisibilityOf(f).Some? && f in AllowedFacts(q.scene) && f !in known
  }

  // ---- The checks a turn passes in order ----

  function SocialRefusal(k: Case, q: Request, c: Context): Option<Code> {
    var npc := Primary(k, q.scene);
    if npc !in c.npcs then Some(NpcMissing)
    else if GateTrust(k, q.scene).Some? && c.npcs[npc].trust < GateTrust(k, q.scene).value then Some(TrustRefusal)
    else if c.npcs[npc].stress > StressLimit(q.scene) then Some(StressRefusal)
    else None
  }

  // The facts of a summary that count, repetitions included.
  function SummaryCount(s: Scene, known: set<Fact>, facts: seq<Fact>): nat {
    if facts == [] then 0
    else (if facts[0] in known && facts[0] in AllowedFacts(s) then 1 else 0) + SummaryCount(s, known, facts[1..])
  }

  // The different facts of a summary that count.
  function Counted(s: Scene, known: set<Fact>, facts: seq<Fact>): set<Fact> {
    set f | f in facts && f in known && f in AllowedFacts(s)
  }

  function SummaryFailure(k: Case, q: Request, known: set<Fact>): Option<Code> {
    if SummaryCount(q.scene, known, q.facts) < SummaryMinimum(k, q.scene) then Some(SummaryTooShort)
    else if !(SummaryKeys(k, q.scene) <= Counted(q.scene, known, q.facts)) then Some(SummaryMissesKey)
    else None
  }

  function Fail(status: Status, code: Code): Result { Result(status, code, {}, false, false) }

  /** The outcome of a turn once the scene has been entered; every scene requires a summary. */
  function Respond(k: Case, r: Runtime, q: Request, c: Context): Result {
    var known := Known(r, c);
    var social := SocialRefusal(k, q, c);
    if GateFailure(k, q.scene, r, c).Some? then Fail(BlockedGate, GateFailure(k, q.scene, r, c).value)
    else if social.Some? then Fail(Refused, social.value)
    else if q.intent !in Intents(q.scene) then Fail(InvalidIntent, IntentNotAllowed)
    else if q.tone == WrongRegister then Fail(Repair, RegisterRepair)
    else if q.tone == Aggressive then Fail(Repair, ToneRepair)
    else if !(SceneSlots(q.scene) + IntentSlots(q.intent) <= q.slots) then Fail(Repair, MissingSlots)
    else if exists f | f in q.facts :: f !in known then Fail(Refused, FactNotKnown)
    else if !(q.evidence <= c.evidence) then Fail(Refused, EvidenceNotKnown)
    else if q.intent == PresentEvidence && q.evidence == {} then Fail(Repair, NoEvidenceNamed)
    else if q.intent == ChallengeContradiction && |q.facts| < 2 then Fail(Repair, TooFewFacts)
    else if q.intent == AccuseIntent then Fail(Repair, SummaryRequired)
    else if q.intent == SummarizeUnderstanding then
      var failure := SummaryFailure(k, q, known);
      if failure.Some? then Fail(Repair, failure.value)
      else Result(Accepted, SceneCompleted, Reveals(q, known, c.evidence) + UnlockFacts(q.scene), true, true)
    else if q.intent == Goodbye && StateOf(r, q.scene) == InProgress then Fail(Repair, SummaryNeeded)
    else if q.intent == Goodbye then Result(Accepted, ScenePaused, Reveals(q, known, c.evidence), false, false)
    else Result(Accepted, TurnAccepted, Reveals(q, known, c.evidence), false, false)
  }

  function Advance(r: Runtime): Runtime { r.(turn := r.turn + 1) }

  // Locked scenes the completed one leads to become available.
  function Unlock(completion: map<Scene, Completion>, scenes: set<Scene>): map<Scene, Completion> {
    map s | s in completion :: if s in scenes && completion[s] == Locked then Completion.Available else completion[s]
  }

  function AfterAccepted(r: Runtime, s: Scene, res: Result): Runtime {
    var state := if res.code == SceneCompleted then Completed
                 else if res.code == ScenePaused then Completion.Available else StateOf(r, s);
    var reached := if res.unlocks then UnlockScenes(s) else {};
    Runtime(Unlock(r.completion[s := state], reached),
            if res.code == TurnAccepted then r.active else None,
            r.revealed + res.revealed, r.surfaced + reached, r.turn + 1)
  }

  /** `execute_dialogue_turn`. */
  function Turn(k: Case, r: Runtime, q: Request, c: Context): (Result, Runtime) {
    var entry := Enter(k, r, q.scene, q.npc, c);
    if entry.status.Some? then (Fail(entry.status.value, entry.code), Advance(entry.after))
    else
      var res := Respond(k, entry.after, q, c);
      if res.status != Accepted then (res, Advance(entry.after))
      else (res, AfterAccepted(entry.after, q.scene, res))
  }

  // ---- The scene machine ----

  /**
   Every scene has a state; the surfaced scenes are exactly those that are not locked;
   an active scene is in progress; no scene fails softly.
   */
  ghost predicate SceneMachine(r: Runtime) {
    && r.completion.Keys == ALL_SCENES
    && (forall s :: s in r.completion ==> (s in r.surfaced <==> r.completion[s] != Locked))
    && (forall s :: s in r.surfaced ==> s in r.completion)
    && (r.active.Some? ==> StateOf(r, r.active.value) == InProgress)
    && (forall s :: s in r.completion ==> r.completion[s] != FailedSoft)
  }

  function Initial(facts: set<Fact>): Runtime {
    Runtime(map[S1 := Completion.Available, S2 := Completion.Available, S3 := Locked, S4 := Completion.Available, S5 := Locked], None,
            STARTING_FACTS + facts, {S1, S2, S4}, 0)
  }

  lemma InitialMachine(facts: set<Fact>)
    ensures SceneMachine(Initial(facts))
  {
  }

  lemma EnterMachine(k: Case, r: Runtime, s: Scene, npc: Option<Cast>, c: Context)
    requires SceneMachine(r)
    ensures SceneMachine(Enter(k, r, s, npc, c).after)
  {
  }

  lemma AcceptedMachine(r: Runtime, s: Scene, res: Result)
    requires SceneMachine(r) && StateOf(r, s) == InProgress && r.active == Some(s)
    ensures SceneMachine(AfterAccepted(r, s, res))
  {
  }

  lemma EnteredState(k: Case, r: Runtime, s: Scene, npc: Option<Cast>, c: Context)
    ensures var entry := Enter(k, r, s, npc, c);
      entry.status.None? ==> StateOf(entry.after, s) == InProgress && entry.after.active == Some(s)
  {
  }

  lemma AdvanceMachine(r: Runtime)
    ensures SceneMachine(Advance(r)) <==> SceneMachine(r)
  {
  }

  /** Every turn, whatever is asked, keeps the scene machine in order. */
  lemma TurnMachine(k: Case, r: Runtime, q: Request, c: Context)
    requires SceneMachine(r)
    ensures SceneMachine(Turn(k, r, q, c).1)
  {
    hide Enter, Respond, AfterAccepted, SceneMachine, Advance;
    var entry := Enter(k, r, q.scene, q.npc, c);
    EnterMachine(k, r, q.scene, q.npc, c);
    AdvanceMachine(entry.after);
    if entry.status.None? {
      EnteredState(k, r, q.scene, q.npc, c);
      AcceptedMachine(entry.after, q.scene, Respond(k, entry.after, q, c));
    }
  }

  /** A turn counts itself, forgets no fact, and reopens no completed scene. */
  lemma TurnProgress(k: Case, r: Runtime, q: Request, c: Context)
    ensures var v := Turn(k, r, q, c).1;
      v.turn == r.turn + 1 && r.revealed <= v.revealed && r.surfaced <= v.surfaced
      && forall s :: StateOf(r, s) == Completed ==> StateOf(v, s) == Completed
  {
  }

  lemma RespondNeverAccepts(k: Case, r: Runtime, q: Request, c: Context)
    requires q.intent == AccuseIntent || (q.intent == Goodbye && StateOf(r, q.scene) == InProgress)
    ensures Respond(k, r, q, c).status != Accepted
  {
  }

  /** Accusing and saying goodbye are never accepted, so dialogue alone neither accuses nor pauses a scene. */
  lemma NeverAccepted(k: Case, r: Runtime, q: Request, c: Context)
    requires q.intent == AccuseIntent || q.intent == Goodbye
    ensures Turn(k, r, q, c).0.status != Accepted
  {
    var entry := Enter(k, r, q.scene, q.npc, c);
    if entry.status.None? { RespondNeverAccepts(k, entry.after, q, c); }
  }

  lemma OnlyPassedSummaries(k: Case, r: Runtime, q: Request, c: Context)
    ensures Respond(k, r, q, c).code == SceneCompleted ==>
      q.intent == SummarizeUnderstanding && Respond(k, r, q, c).summaryPassed
      && SummaryFailure(k, q, Known(r, c)).None? && GateFailure(k, q.scene, r, c).None?
  {
  }

  lemma RespondPassed(k: Case, r: Runtime, q: Request, c: Context)
    ensures Respond(k, r, q, c).summaryPassed ==>
      Respond(k, r, q, c).status == Accepted && q.intent == SummarizeUnderstanding
  {
    hide GateFailure, SocialRefusal, SummaryFailure, Reveals, Intents, SceneSlots, IntentSlots, UnlockFacts, StateOf;
  }

  lemma PassedMeansAccepted(k: Case, r: Runtime, q: Request, c: Context)
    ensures Turn(k, r, q, c).0.summaryPassed ==>
      Turn(k, r, q, c).0.status == Accepted && q.intent == SummarizeUnderstanding
  {
    var entry := Enter(k, r, q.scene, q.npc, c);
    if entry.status.None? { RespondPassed(k, entry.after, q, c); }
  }

  lemma EnterCompletesNone(k: Case, r: Runtime, e: Scene, npc: Option<Cast>, c: Context, s: Scene)
    ensures StateOf(Enter(k, r, e, npc, c).after, s) == Completed ==> StateOf(r, s) == Completed
  {
  }

  lemma AcceptedCompletes(r: Runtime, e: Scene, res: Result, s: Scene)
    ensures StateOf(AfterAccepted(r, e, res), s) == Completed && StateOf(r, s) != Completed ==>
      s == e && res.code == SceneCompleted
  {
  }

  /** A scene is completed by nothing but a passed summary in that scene, behind its open gate. */
  lemma CompletedBySummary(k: Case, r: Runtime, q: Request, c: Context, s: Scene)
    requires StateOf(r, s) != Completed && StateOf(Turn(k, r, q, c).1, s) == Completed
    ensures s == q.scene && q.intent == SummarizeUnderstanding && Turn(k, r, q, c).0.summaryPassed
    ensures GateFacts(s) <= Known(r, c) + OpeningFacts(s) && GateItems(s) <= c.collected
    ensures !TrustTooLow(k, s, c) && !OutsideTheWindow(s, c.elapsed)
  {
    var entry := Enter(k, r, q.scene, q.npc, c);
    EnterCompletesNone(k, r, q.scene, q.npc, c, s);
    if entry.status.None? {
      OnlyPassedSummaries(k, entry.after, q, c);
      AcceptedCompletes(entry.after, q.scene, Respond(k, entry.after, q, c), s);
    }
  }

  /** A scene is entered by its own character, unless it is over, exactly when every condition of its gate holds. */
  lemma EntryIsGated(k: Case, r: Runtime, s: Scene, npc: Option<Cast>, c: Context)
    ensures Enter(k, r, s, npc, c).status.None? <==>
      && npc == Some(Primary(k, s)) && StateOf(r, s) !in {Completed, FailedSoft}
      && GateFacts(s) <= c.facts + r.revealed && GateItems(s) <= c.collected
      && !OutsideTheWindow(s, c.elapsed) && !TrustTooLow(k, s, c)
    ensures Enter(k, r, s, npc, c).after ==
      if Enter(k, r, s, npc, c).status.Some? then r
      else Runtime(r.completion[s := InProgress], Some(s), r.revealed + OpeningFacts(s), r.surfaced + {s}, r.turn)
  {
  }

  // ---- Exactly when a turn is accepted ----

  type Denial = status: Status | status != Accepted witness Repair

  /** A check a turn must pass, and what failing it is answered with. */
  datatype Check = Check(holds: bool, status: Denial, code: Code)

  function Sees(r: Runtime, q: Request, c: Context): set<Fact> { c.facts + r.revealed + OpeningFacts(q.scene) }

  predicate Trusting(k: Case, s: Scene, c: Context) {
    GateTrust(k, s).Some? ==> Primary(k, s) in c.npcs && c.npcs[Primary(k, s)].trust >= GateTrust(k, s).value
  }

  predicate InWindow(s: Scene, c: Context) {
    GateWindow(s).Some? ==> GateWindow(s).value.0 * 60.0 <= c.elapsed <= GateWindow(s).value.1 * 60.0
  }

  /** What entering a scene depends on, in the order it is checked. */
  function EntryChecks(k: Case, r: Runtime, q: Request, c: Context): seq<Check> {
    [Check(q.npc == Some(Primary(k, q.scene)), InvalidSceneState, NpcMismatch),
     Check(StateOf(r, q.scene) !in {Completed, FailedSoft}, InvalidSceneState, SceneTerminal),
     Check(GateFacts(q.scene) <= c.facts + r.revealed, BlockedGate, MissingFacts),
     Check(GateItems(q.scene) <= c.collected, BlockedGate, MissingItems),
     Check(InWindow(q.scene, c), BlockedGate, OutsideWindow),
     Check(Trusting(k, q.scene, c), BlockedGate, LowTrust)]
  }

  /** What a turn in the scene depends on then, in the order it is checked. */
  function TurnChecks(k: Case, r: Runtime, q: Request, c: Context): seq<Check> {
    var npc := Primary(k, q.scene);
    var sees := Sees(r, q, c);
    [Check(npc in c.npcs, Refused, NpcMissing),
     Check(npc in c.npcs ==> c.npcs[npc].stress <= StressLimit(q.scene), Refused, StressRefusal),
     Check(q.intent in Intents(q.scene), InvalidIntent, IntentNotAllowed),
     Check(q.tone != WrongRegister, Repair, RegisterRepair),
     Check(q.tone != Aggressive, Repair, ToneRepair),
     Check(SceneSlots(q.scene) + IntentSlots(q.intent) <= q.slots, Repair, MissingSlots),
     Check(forall f | f in q.facts :: f in sees, Refused, FactNotKnown),
     Check(q.evidence <= c.evidence, Refused, EvidenceNotKnown),
     Check(q.intent == PresentEvidence ==> q.evidence != {}, Repair, NoEvidenceNamed),
     Check(q.intent == ChallengeContradiction ==> |q.facts| >= 2, Repair, TooFewFacts),
     Check(q.intent != AccuseIntent, Repair, SummaryRequired),
     Check(q.intent == SummarizeUnderstanding ==>
             SummaryCount(q.scene, sees, q.facts) >= SummaryMinimum(k, q.scene), Repair, SummaryTooShort),
     Check(q.intent == SummarizeUnderstanding ==>
             SummaryKeys(k, q.scene) <= Counted(q.scene, sees, q.facts), Repair, SummaryMissesKey),
     Check(q.intent != Goodbye, Repair, SummaryNeeded)]
  }

  /** Every check holds. */
  predicate Passes(k: Case, r: Runtime, q: Request, c: Context) {
    var checks := EntryChecks(k, r, q, c) + TurnChecks(k, r, q, c);
    forall i :: 0 <= i < |checks| ==> checks[i].holds
  }

  predicate AnsweredWith(res: Result, check: Check) { res.status == check.status && res.code == check.code }

  function FirstFailing(checks: seq<Check>): Option<Check> {
    if checks == [] then None else if !checks[0].holds then Some(checks[0]) else FirstFailing(checks[1..])
  }

  lemma {:induction false} NoneFailing(checks: seq<Check>)
    ensures FirstFailing(checks) == None <==> forall i :: 0 <= i < |checks| ==> checks[i].holds
  {
    if checks != [] {
      NoneFailing(checks[1..]);
      assert forall i :: 1 <= i < |checks| ==> checks[i] == checks[1..][i - 1];
    }
  }

  lemma {:induction false} FailingIn(a: seq<Check>, b: seq<Check>)
    ensures FirstFailing(a + b) == if FirstFailing(a).Some? then FirstFailing(a) else FirstFailing(b)
  {
    if a == [] {
      assert a + b == b;
    } else {
      assert (a + b)[1..] == a[1..] + b;
      FailingIn(a[1..], b);
    }
  }

  lemma {:induction false} FailingAmong(checks: seq<Check>)
    ensures FirstFailing(checks).Some? ==>
      exists i :: 0 <= i < |checks| && checks[i] == FirstFailing(checks).value && !checks[i].holds
  {
    if checks != [] && checks[0].holds && FirstFailing(checks).Some? {
      FailingAmong(checks[1..]);
      var i :| 0 <= i < |checks[1..]| && checks[1..][i] == FirstFailing(checks).value && !checks[1..][i].holds;
      assert checks[i + 1] == checks[1..][i];
    }
  }

  // The ways a turn can be sent back for repair.
  lemma RepairsAre(k: Case, r: Runtime, q: Request, c: Context)
    ensures var first := FirstFailing(EntryChecks(k, r, q, c) + TurnChecks(k, r, q, c));
      first.Some? && first.value.status == Repair ==>
        first.value.code in {RegisterRepair, ToneRepair, MissingSlots, NoEvidenceNamed, TooFewFacts, SummaryRequired,
                             SummaryTooShort, SummaryMissesKey, SummaryNeeded}
  {
    hide Sees, Counted, SummaryCount, SummaryKeys, SummaryMinimum, SceneSlots, IntentSlots, Intents, StressLimit, GateFacts,
      GateItems, InWindow, Trusting, Primary, StateOf, FirstFailing;
    FailingAmong(EntryChecks(k, r, q, c) + TurnChecks(k, r, q, c));
  }

  lemma EntryVerdict(k: Case, r: Runtime, q: Request, c: Context)
    ensures var entry := Enter(k, r, q.scene, q.npc, c); var first := FirstFailing(EntryChecks(k, r, q, c));
      if first.None? then entry.status.None? else entry.status == Some(first.value.status) && entry.code == first.value.code
  {
    var checks := EntryChecks(k, r, q, c);
    Unroll6(checks);
  }

  lemma Unroll6(c: seq<Check>)
    requires |c| == 6
    ensures FirstFailing(c) ==
      if !c[0].holds then Some(c[0]) else if !c[1].holds then Some(c[1]) else if !c[2].holds then Some(c[2])
      else if !c[3].holds then Some(c[3]) else if !c[4].holds then Some(c[4]) else if !c[5].holds then Some(c[5]) else None
  {
    Unroll3(c[..3]);
    Unroll3(c[3..]);
    assert c == c[..3] + c[3..];
    FailingIn(c[..3], c[3..]);
  }

  lemma Unroll3(c: seq<Check>)
    requires |c| == 3
    ensures FirstFailing(c) ==
      if !c[0].holds then Some(c[0]) else if !c[1].holds then Some(c[1]) else if !c[2].holds then Some(c[2]) else None
  {
    var d := c[1..];
    var e := d[1..];
    assert d[0] == c[1] && e[0] == c[2] && e[1..] == [];
    assert FirstFailing(e) == if !c[2].holds then Some(c[2]) else None;
    assert FirstFailing(d) == if !c[1].holds then Some(c[1]) else FirstFailing(e);
  }

  lemma Unroll7(c: seq<Check>)
    requires |c| == 7
    ensures FirstFailing(c) ==
      if !c[0].holds then Some(c[0]) else if !c[1].holds then Some(c[1]) else if !c[2].holds then Some(c[2])
      else if !c[3].holds then Some(c[3]) else if !c[4].holds then Some(c[4]) else if !c[5].holds then Some(c[5])
      else if !c[6].holds then Some(c[6]) else None
  {
    Unroll6(c[..6]);
    assert c == c[..6] + [c[6]] && [c[6]][1..] == [];
    FailingIn(c[..6], [c[6]]);
  }

  lemma Unroll14(c: seq<Check>)
    requires |c| == 14
    ensures FirstFailing(c) == if FirstFailing(c[..7]).Some? then FirstFailing(c[..7]) else FirstFailing(c[7..])
  {
    assert c == c[..7] + c[7..];
    FailingIn(c[..7], c[7..]);
  }

  // The same for a turn in a scene just entered, whose gate still stands open.
  lemma RespondVerdict(k: Case, r: Runtime, q: Request, c: Context)
    requires Enter(k, r, q.scene, q.npc, c).status.None?
    ensures var res := Respond(k, Enter(k, r, q.scene, q.npc, c).after, q, c); var first := FirstFailing(TurnChecks(k, r, q, c));
      && (first.Some? ==> AnsweredWith(res, first.value))
      && (first.None? ==> res.status == Accepted
                          && res.code == if q.intent == SummarizeUnderstanding then SceneCompleted else TurnAccepted)
  {
    var entered := Enter(k, r, q.scene, q.npc, c).after;
    EntryOpen(k, r, q, c);
    assert Known(entered, c) == Sees(r, q, c);
    var checks := TurnChecks(k, r, q, c);
    assert |checks| == 14 && checks == TurnChecks(k, entered, q, c);
    hide FirstFailing, Enter, TurnChecks, Respond;
    RespondInOrder(k, entered, q, c, checks);
    if checks[0].holds && checks[1].holds && checks[2].holds {
      RespondInOrderThen(k, entered, q, c, checks);
    }
    Unroll14(checks);
    Unroll7(checks[..7]);
    Unroll7(checks[7..]);
    if FirstFailing(checks[..7]).None? { RespondInOrderToo(k, entered, q, c, checks); }
  }

  lemma SocialVerdict(k: Case, r: Runtime, q: Request, c: Context, checks: seq<Check>)
    requires !TrustTooLow(k, q.scene, c) && checks == TurnChecks(k, r, q, c)
    ensures SocialRefusal(k, q, c)
      == if !checks[0].holds then Some(checks[0].code) else if !checks[1].holds then Some(checks[1].code) else None
  {
  }

  // The failing check of an entered scene, one after another.
  lemma RespondInOrder(k: Case, r: Runtime, q: Request, c: Context, checks: seq<Check>)
    requires GateFailure(k, q.scene, r, c).None? && StateOf(r, q.scene) == InProgress && !TrustTooLow(k, q.scene, c)
    requires Sees(r, q, c) == Known(r, c) && checks == TurnChecks(k, r, q, c)
    ensures var res := Respond(k, r, q, c);
      if !checks[0].holds then AnsweredWith(res, checks[0]) else if !checks[1].holds then AnsweredWith(res, checks[1])
      else !checks[2].holds ==> AnsweredWith(res, checks[2])
  {
    hide SocialRefusal, GateFailure, Reveals, SummaryFailure, Intents, SceneSlots, IntentSlots, StressLimit, Primary, GateTrust,
      SummaryMinimum, SummaryKeys, SummaryCount, Counted, UnlockFacts, StateOf, TrustTooLow;
    SocialVerdict(k, r, q, c, checks);
  }

  lemma RespondInOrderThen(k: Case, r: Runtime, q: Request, c: Context, checks: seq<Check>)
    requires GateFailure(k, q.scene, r, c).None? && StateOf(r, q.scene) == InProgress && !TrustTooLow(k, q.scene, c)
    requires Sees(r, q, c) == Known(r, c) && checks == TurnChecks(k, r, q, c)
    requires checks[0].holds && checks[1].holds && checks[2].holds
    ensures var res := Respond(k, r, q, c);
      if !checks[3].holds then AnsweredWith(res, checks[3]) else if !checks[4].holds then AnsweredWith(res, checks[4])
      else if !checks[5].holds then AnsweredWith(res, checks[5]) else !checks[6].holds ==> AnsweredWith(res, checks[6])
  {
    hide SocialRefusal, GateFailure, Reveals, SummaryFailure, Intents, SceneSlots, IntentSlots, StressLimit, Primary, GateTrust,
      SummaryMinimum, SummaryKeys, SummaryCount, Counted, UnlockFacts, StateOf, TrustTooLow, GateFacts, GateItems, InWindow,
      Trusting;
    SocialVerdict(k, r, q, c, checks);
  }

  lemma RespondInOrderToo(k: Case, r: Runtime, q: Request, c: Context, checks: seq<Check>)
    requires GateFailure(k, q.scene, r, c).None? && StateOf(r, q.scene) == InProgress && !TrustTooLow(k, q.scene, c)
    requires Sees(r, q, c) == Known(r, c) && checks == TurnChecks(k, r, q, c)
    requires checks[0].holds && checks[1].holds && checks[2].holds && checks[3].holds && checks[4].holds && checks[5].holds
    requires checks[6].holds
    ensures var res := Respond(k, r, q, c);
      if !checks[7].holds then AnsweredWith(res, checks[7]) else if !checks[8].holds then AnsweredWith(res, checks[8])
      else if !checks[9].holds then AnsweredWith(res, checks[9]) else if !checks[10].holds then AnsweredWith(res, checks[10])
      else if !checks[11].holds then AnsweredWith(res, checks[11]) else if !checks[12].holds then AnsweredWith(res, checks[12])
      else if !checks[13].holds then AnsweredWith(res, checks[13])
      else res.status == Accepted && res.code == if q.intent == SummarizeUnderstanding then SceneCompleted else TurnAccepted
  {
    hide SocialRefusal, GateFailure, Reveals, Intents, SceneSlots, IntentSlots, StressLimit, Primary, GateTrust,
      SummaryMinimum, SummaryKeys, SummaryCount, Counted, UnlockFacts;
    SocialVerdict(k, r, q, c, checks);
  }

  lemma EntryOpen(k: Case, r: Runtime, q: Request, c: Context)
    requires Enter(k, r, q.scene, q.npc, c).status.None?
    ensures var entered := Enter(k, r, q.scene, q.npc, c).after;
      && GateFailure(k, q.scene, entered, c).None? && StateOf(entered, q.scene) == InProgress && !TrustTooLow(k, q.scene, c)
  {
  }

  /**
   A turn is answered with the first check it fails, entry first; it is accepted exactly when
   it fails none, and completes the scene exactly when it is then a summary.
   */
  lemma TurnVerdict(k: Case, r: Runtime, q: Request, c: Context)
    ensures var res := Turn(k, r, q, c).0; var checks := EntryChecks(k, r, q, c) + TurnChecks(k, r, q, c);
      && (res.status == Accepted <==> Passes(k, r, q, c))
      && (res.status != Accepted ==> FirstFailing(checks).Some? && AnsweredWith(res, FirstFailing(checks).value))
      && (res.status == Accepted ==> res.code == if q.intent == SummarizeUnderstanding then SceneCompleted else TurnAccepted)
  {
    var a, b := EntryChecks(k, r, q, c), TurnChecks(k, r, q, c);
    EntryVerdict(k, r, q, c);
    FailingIn(a, b);
    NoneFailing(a + b);
    if Enter(k, r, q.scene, q.npc, c).status.None? { RespondVerdict(k, r, q, c); }
    hide Enter, Respond, EntryChecks, TurnChecks, FirstFailing, AfterAccepted;
  }

  /** A passed summary completes its scene, opens what it leads to, reveals its facts, and touches no other scene. */
  lemma CompletionDelivers(k: Case, r: Runtime, q: Request, c: Context, t: Scene)
    requires SceneMachine(r) && Turn(k, r, q, c).0.summaryPassed
    ensures var (res, v) := Turn(k, r, q, c);
      && StateOf(v, t) == (if t == q.scene then Completed
                           else if t in UnlockScenes(q.scene) && StateOf(r, t) == Locked then Completion.Available
                           else StateOf(r, t))
      && v.active == None && v.revealed == r.revealed + OpeningFacts(q.scene) + res.revealed
      && UnlockFacts(q.scene) <= res.revealed && v.surfaced == r.surfaced + {q.scene} + UnlockScenes(q.scene)
  {
    hide Respond, AfterAccepted, SceneMachine;
    var entry := Enter(k, r, q.scene, q.npc, c);
    EnterMachine(k, r, q.scene, q.npc, c);
    PassedCompletes(k, entry.after, q, c);
    CompletedState(entry.after, q.scene, Respond(k, entry.after, q, c), t);
  }

  lemma CompletedPasses(k: Case, r: Runtime, q: Request, c: Context)
    requires Turn(k, r, q, c).0.status == Accepted && q.intent == SummarizeUnderstanding
    ensures Turn(k, r, q, c).0.summaryPassed
  {
    var entered := Enter(k, r, q.scene, q.npc, c).after;
    AcceptedSummary(k, entered, q, c);
    hide Respond, AfterAccepted, GateFailure, Primary, StateOf;
  }

  lemma AcceptedSummary(k: Case, r: Runtime, q: Request, c: Context)
    ensures q.intent == SummarizeUnderstanding && Respond(k, r, q, c).status == Accepted ==> Respond(k, r, q, c).summaryPassed
  {
    hide GateFailure, SocialRefusal, SummaryFailure, Reveals;
  }

  // What passing every check says about tone, intent and facts.
  lemma PassesGives(k: Case, r: Runtime, q: Request, c: Context)
    requires Passes(k, r, q, c)
    ensures q.tone == Plain && q.intent != AccuseIntent && q.intent != Goodbye
    ensures forall f :: f in q.facts ==> f in Sees(r, q, c)
  {
    hide Sees, Counted, SummaryCount, SummaryKeys, SummaryMinimum, SceneSlots, IntentSlots, Intents, StressLimit, GateFacts,
      GateItems, InWindow, Trusting, Primary, StateOf;
    var entry, turn := EntryChecks(k, r, q, c), TurnChecks(k, r, q, c);
    assert |entry| == 6 && |turn| == 14;
    assert forall i :: 0 <= i < 14 ==> (entry + turn)[6 + i] == turn[i];
    assert turn[3].holds && turn[4].holds && turn[6].holds && turn[10].holds && turn[13].holds;
  }

  /** A turn finishes exactly its own scene, and exactly by a summary that passes every check. */
  lemma FinishedExactly(k: Case, r: Runtime, q: Request, c: Context, s: Scene)
    ensures StateOf(Turn(k, r, q, c).1, s) == Completed <==>
      StateOf(r, s) == Completed || (Passes(k, r, q, c) && q.intent == SummarizeUnderstanding && s == q.scene)
  {
    TurnVerdict(k, r, q, c);
    TurnProgress(k, r, q, c);
    PassedMeansAccepted(k, r, q, c);
    if StateOf(Turn(k, r, q, c).1, s) == Completed && StateOf(r, s) != Completed { CompletedBySummary(k, r, q, c, s); }
    hide Respond, Enter, Passes, FirstFailing;
  }

  /** Any other accepted turn leaves its scene open and active, and adds what it reveals. */
  lemma AcceptedGoesOn(k: Case, r: Runtime, q: Request, c: Context)
    requires Turn(k, r, q, c).0.status == Accepted && q.intent != SummarizeUnderstanding
    ensures var (res, v) := Turn(k, r, q, c);
      v == Runtime(r.completion[q.scene := InProgress], Some(q.scene), r.revealed + OpeningFacts(q.scene) + res.revealed,
                   r.surfaced + {q.scene}, r.turn + 1)
  {
    TurnVerdict(k, r, q, c);
    EntryVerdict(k, r, q, c);
    var entered := Enter(k, r, q.scene, q.npc, c).after;
    EntryIsGated(k, r, q.scene, q.npc, c);
    RespondGoesOn(k, entered, q, c);
    hide EntryChecks, TurnChecks, FirstFailing, Respond;
    var res := Turn(k, r, q, c).0;
    assert Unlock(entered.completion[q.scene := InProgress], {}) == entered.completion;
  }

  lemma RespondGoesOn(k: Case, r: Runtime, q: Request, c: Context)
    ensures Respond(k, r, q, c).code == TurnAccepted ==> !Respond(k, r, q, c).unlocks
  {
    hide GateFailure, SocialRefusal, SummaryFailure, Reveals;
  }

  // ---- Which turns reveal which fact ----

  /** The turns that can reveal a fact, fact by fact. */
  predicate CanReveal(f: Fact, q: Request, sees: set<Fact>, held: set<Evidence>) {
    match f
    case N1 => q.scene == S1 && q.intent in {AskWhatHappened, AskWhen, AskWhere, AskWho}
    case N2 => q.scene == S2 && q.intent in {RequestAccess, AskWhen, AskWhatSeen}
    case N3 =>
      || (q.scene == S2 && q.intent == PresentEvidence && CafeReceipt in q.evidence)
      || (q.scene == S3 && q.intent == AskWhen)
    case N4 =>
      || (q.scene == S4 && q.intent == AskWhen)
      || (q.scene in {S4, S5} && q.intent == PresentEvidence && CafeReceipt in q.evidence)
    case N5 =>
      || (q.scene == S3 && q.intent in {AskWho, AskWhatSeen})
      || (q.scene == S4 && q.intent in {AskWhatSeen, AskWhere, AskWho})
    case N6 => q.scene == S3 && q.intent in {AskWhere, AskWhatSeen}
    case N7 =>
      || (q.scene == S1 && q.intent == RequestPermission)
      || (q.scene in {S2, S5} && q.intent == PresentEvidence && MethodTrace in q.evidence)
    case N8 =>
      && q.scene in {S3, S5} && q.intent == ChallengeContradiction && {N3, N4} <= sees && CafeReceipt in held
    case OtherFact(_) => false
  }

  lemma RevealsExactly(q: Request, sees: set<Fact>, held: set<Evidence>, f: Fact)
    ensures f in Reveals(q, sees, held) <==> CanReveal(f, q, sees, held) && f !in sees
  {
  }

  lemma RespondReveals(k: Case, r: Runtime, q: Request, c: Context)
    ensures var res := Respond(k, r, q, c);
      res.status == Accepted ==>
        res.revealed == Reveals(q, Known(r, c), c.evidence) + if res.code == SceneCompleted then UnlockFacts(q.scene) else {}
  {
    hide GateFailure, SocialRefusal, SummaryFailure, Reveals;
  }

  /** An accepted turn reveals exactly the unknown facts it can, and those its passed summary unlocks. */
  lemma RevealedExactly(k: Case, r: Runtime, q: Request, c: Context, f: Fact)
    requires Turn(k, r, q, c).0.status == Accepted
    ensures f in Turn(k, r, q, c).0.revealed <==>
      || (CanReveal(f, q, Sees(r, q, c), c.evidence) && f !in Sees(r, q, c))
      || (q.intent == SummarizeUnderstanding && f in UnlockFacts(q.scene))
  {
    TurnVerdict(k, r, q, c);
    var entered := Enter(k, r, q.scene, q.npc, c).after;
    EntryIsGated(k, r, q.scene, q.npc, c);
    RespondReveals(k, entered, q, c);
    RevealsExactly(q, Sees(r, q, c), c.evidence, f);
    assert Enter(k, r, q.scene, q.npc, c).status.None?;
    assert Known(entered, c) == Sees(r, q, c);
    hide EntryChecks, TurnChecks, FirstFailing, Respond, Reveals, CanReveal, Enter;
  }

  lemma CompletedState(r: Runtime, s: Scene, res: Result, t: Scene)
    requires SceneMachine(r) && res.code == SceneCompleted && res.unlocks
    ensures var v := AfterAccepted(r, s, res);
      && StateOf(v, t) == (if t == s then Completed
                           else if t in UnlockScenes(s) && StateOf(r, t) == Locked then Completion.Available
                           else StateOf(r, t))
      && v.active == None && v.revealed == r.revealed + res.revealed && v.surfaced == r.surfaced + UnlockScenes(s)
  {
  }

  lemma PassedCompletes(k: Case, r: Runtime, q: Request, c: Context)
    ensures var res := Respond(k, r, q, c);
      res.summaryPassed ==> res.status == Accepted && res.code == SceneCompleted && res.unlocks && UnlockFacts(q.scene) <= res.revealed
  {
    hide GateFailure, SocialRefusal, SummaryFailure, Reveals;
  }

  /** A turn that is not accepted reveals nothing itself; only entering the scene leaves a trace. */
  lemma RejectionTeachesNothing(k: Case, r: Runtime, q: Request, c: Context)
    requires Turn(k, r, q, c).0.status != Accepted
    ensures Turn(k, r, q, c).0.revealed == {} && Turn(k, r, q, c).1 == Advance(Enter(k, r, q.scene, q.npc, c).after)
  {
    RespondRejects(k, Enter(k, r, q.scene, q.npc, c).after, q, c);
  }

  lemma RespondRejects(k: Case, r: Runtime, q: Request, c: Context)
    ensures Respond(k, r, q, c).status != Accepted ==> Respond(k, r, q, c).revealed == {}
  {
  }

  // ---- What a summary counts ----

  lemma CountedHead(s: Scene, known: set<Fact>, facts: seq<Fact>)
    requires facts != []
    ensures Counted(s, known, facts)
      == Counted(s, known, facts[1..]) + if facts[0] in known && facts[0] in AllowedFacts(s) then {facts[0]} else {}
  {
    assert facts == [facts[0]] + facts[1..];
  }

  // Something is counted as soon as the count is positive, and a summary never counts less than its different facts.
  lemma {:induction false} CountsAtLeast(s: Scene, known: set<Fact>, facts: seq<Fact>)
    ensures |Counted(s, known, facts)| <= SummaryCount(s, known, facts)
    ensures SummaryCount(s, known, facts) > 0 <==> Counted(s, known, facts) != {}
    ensures NoRepeats(facts) ==> |Counted(s, known, facts)| == SummaryCount(s, known, facts)
    decreases facts
  {
    if facts != [] {
      CountsAtLeast(s, known, facts[1..]);
      CountedHead(s, known, facts);
      assert NoRepeats(facts) ==> NoRepeats(facts[1..]) && facts[0] !in facts[1..];
    }
  }

  ghost predicate NoRepeats(facts: seq<Fact>) { forall i, j :: 0 <= i < j < |facts| ==> facts[i] != facts[j] }

  lemma OnlyOne(a: set<Fact>, f: Fact)
    requires f in a
    ensures |a| < 2 <==> a == {f}
  {
    if |a| < 2 {
      assert a == {f} + (a - {f});
      assert |a - {f}| == 0;
    }
  }

  /**
   A summary that passes may name too few different facts in exactly one case: the strict
   last scene, where it counts nothing but its key fact and names it more than once.
   */
  lemma RepetitionCounts(k: Case, q: Request, known: set<Fact>)
    requires SummaryFailure(k, q, known) == None
    ensures var counted := Counted(q.scene, known, q.facts);
      && (|counted| < SummaryMinimum(k, q.scene) <==> q.scene == S5 && k.difficulty != D0 && counted == {N8})
      && (|counted| < SummaryMinimum(k, q.scene) ==> !NoRepeats(q.facts))
  {
    var counted := Counted(q.scene, known, q.facts);
    CountsAtLeast(q.scene, known, q.facts);
    if q.scene == S5 && k.difficulty != D0 { OnlyOne(counted, N8); }
  }

  /** So a passed turn rests on enough different facts unless it is the strict last scene with its key fact repeated. */
  lemma PassedRepetition(k: Case, r: Runtime, q: Request, c: Context)
    requires Turn(k, r, q, c).0.summaryPassed
    ensures var counted := Counted(q.scene, Known(r, c) + OpeningFacts(q.scene), q.facts);
      && (|counted| < SummaryMinimum(k, q.scene) <==> q.scene == S5 && k.difficulty != D0 && counted == {N8})
      && (|counted| < SummaryMinimum(k, q.scene) ==> !NoRepeats(q.facts))
  {
    var entered := Enter(k, r, q.scene, q.npc, c).after;
    PassedSummary(k, entered, q, c);
    EnterReveals(k, r, q.scene, q.npc, c);
    assert Known(entered, c) == Known(r, c) + OpeningFacts(q.scene);
    RepetitionCounts(k, q, Known(r, c) + OpeningFacts(q.scene));
  }

  lemma PassedSummary(k: Case, r: Runtime, q: Request, c: Context)
    ensures Respond(k, r, q, c).summaryPassed ==> SummaryFailure(k, q, Known(r, c)) == None
  {
  }

  /** One such turn: the last scene of a strict case is completed by a summary that names N8 twice. */
  lemma RepeatedKeyFactPasses(r: Runtime, n: Npc)
    requires StateOf(r, S5) == Completion.Available && n.trust == 1.0 && n.stress == 0.0
    ensures var k := Case(CulpritSamira, AllyMarc, D1, NothingThere, []);
      var q := Request(S5, Some(Elodie), SummarizeUnderstanding, {PersonSlot, ReasonSlot}, [N8, N8], {}, Plain, None);
      var c := Context({N3, N4, N8}, {CafeReceipt}, {CafeReceipt}, map[Elodie := n], 0.0);
      Turn(k, r, q, c).0.summaryPassed && |Counted(S5, Known(r, c), q.facts)| == 1 && SummaryMinimum(k, S5) == 2
  {
    var k := Case(CulpritSamira, AllyMarc, D1, NothingThere, []);
    var q := Request(S5, Some(Elodie), SummarizeUnderstanding, {PersonSlot, ReasonSlot}, [N8, N8], {}, Plain, None);
    var c := Context({N3, N4, N8}, {CafeReceipt}, {CafeReceipt}, map[Elodie := n], 0.0);
    var entered := Enter(k, r, S5, q.npc, c);
    TwiceIsEnough(k, q, Known(entered.after, c));
    assert entered.status.None?;
    assert forall f :: f in q.facts ==> f in Known(entered.after, c);
    assert Counted(S5, Known(r, c), q.facts) == {N8};
  }

  lemma TwiceIsEnough(k: Case, q: Request, known: set<Fact>)
    requires q.facts == [N8, N8] && q.scene == S5 && N8 in known
    ensures SummaryFailure(k, q, known) == None
  {
    assert q.facts[1..] == [N8] && [N8][1..] == [];
    assert SummaryCount(S5, known, [N8]) == 1;
    assert N8 in q.facts;
  }

  // ---- Where facts come from ----

  // What must be known for the hidden fact to come out.
  ghost predicate Grounded(facts: set<Fact>, evidence: set<Evidence>) {
    N8 in facts ==> N3 in facts && N4 in facts && CafeReceipt in evidence
  }

  lemma CandidatesGrounded(q: Request, known: set<Fact>, evidence: set<Evidence>)
    requires N8 in Candidates(q, known, evidence)
    ensures {N3, N4} <= known && CafeReceipt in evidence
  {
  }

  lemma RespondGrounded(k: Case, r: Runtime, q: Request, c: Context)
    requires N8 in Respond(k, r, q, c).revealed
    ensures N8 in Known(r, c) || ({N3, N4} <= Known(r, c) && CafeReceipt in c.evidence)
  {
    var known := Known(r, c);
    if N8 in Reveals(q, known, c.evidence) {
      CandidatesGrounded(q, known, c.evidence);
    } else {
      assert N8 in UnlockFacts(q.scene);
      assert N8 in GateFacts(q.scene);
    }
  }

  lemma EnterReveals(k: Case, r: Runtime, s: Scene, npc: Option<Cast>, c: Context)
    ensures Enter(k, r, s, npc, c).after.revealed <= r.revealed + {N1}
  {
  }

  lemma TurnReveals(k: Case, r: Runtime, q: Request, c: Context)
    ensures var (res, v) := Turn(k, r, q, c); v.revealed <= r.revealed + {N1} + res.revealed
  {
    EnterReveals(k, r, q.scene, q.npc, c);
  }

  /** A turn reveals the hidden fact only where both times and the receipt are already known. */
  lemma TurnGrounded(k: Case, r: Runtime, q: Request, c: Context)
    requires r.revealed <= c.facts && N1 in c.facts && Grounded(c.facts, c.evidence)
    ensures var (res, v) := Turn(k, r, q, c);
      Grounded(c.facts + res.revealed, c.evidence) && v.revealed <= c.facts + res.revealed
  {
    var entry := Enter(k, r, q.scene, q.npc, c);
    EnterReveals(k, r, q.scene, q.npc, c);
    TurnReveals(k, r, q, c);
    if entry.status.None? && N8 in Respond(k, entry.after, q, c).revealed {
      RespondGrounded(k, entry.after, q, c);
    }
  }
}
