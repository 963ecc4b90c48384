/** Objects, evidence and contradictions: `investigation_execution.py` and `investigation_progress.py`. */
module Investigation {
  import opened Json
  import opened Timeline
  import opened CaseRules

  // ---- Objects ----

  datatype MedallionStatus = Present | Missing | Recovered

  datatype Place = AtDrop | PlayerInventory | UnknownPlace

  /** What changes about the objects; the rest of them never does. */
  datatype Objects = Objects(
    status: MedallionStatus, place: Place, examined: bool,
    benchFull: bool, archived: bool, doorLocked: bool, receipts: nat)

  function InitialObjects(k: Case): Objects {
    Objects(Missing, AtDrop, false, k.bench != NothingThere, false, true, 1)
  }

  // `_apply_timeline_effects`: the terminal is archived from minute 15 on.
  function Archive(o: Objects, elapsed: real): Objects {
    if elapsed >= 900.0 && !o.archived then o.(archived := true) else o
  }

  // ---- Commands ----

  /** The fifteen affordances, by object; anything else is `NoSuchAffordance`. */
  datatype Affordance =
    | InspectCase | CheckLock | ExamineSurface | ExamineMedallion | ReadLabel | InspectBench | ReadLogbook
    | RequestTerminal | ViewLogs | ReadBinder | InspectKeypad | AttemptCode | AskForReceipt | ReadReceipt | ReadBoard
    | NoSuchAffordance

  datatype Mode = Execute | ValidateOnly | BadMode

  /** What a context id spells as a keypad code. */
  datatype Typed = NoCode | Malformed | WrongCode | RightCode

  datatype Command = Command(what: Affordance, mode: Mode, item: Typed, evidence: Typed)

  datatype Prereq =
    | MedallionAtHand | TerminalOnline | TerminalNotArchived | ReceiptAvailable | DoorUnlocked
    | SceneTwo | SceneFour | MarcTrusts | TerminalGranted | HoldsReceipt | FourDigits | ArchiveOverride
    | OtherPrereq(id: string)

  function Needs(a: Affordance): set<Prereq> {
    match a
    case ExamineMedallion => {MedallionAtHand}
    case RequestTerminal => {SceneTwo, MarcTrusts}
    case ViewLogs => {TerminalGranted}
    case AttemptCode => {FourDigits}
    case AskForReceipt => {SceneFour}
    case ReadReceipt => {HoldsReceipt}
    case _ => {}
  }

  function FactsOf(a: Affordance): set<Fact> {
    match a
    case CheckLock => {N7}
    case ExamineSurface => {N7}
    case ReadLabel => {N1}
    case RequestTerminal => {N2}
    case ViewLogs => {N3}
    case InspectKeypad => {N2}
    case ReadReceipt => {N4}
    case _ => {}
  }

  function FromObjects(o: Objects): set<Prereq> {
    (if o.status in {Present, Recovered} then {MedallionAtHand} else {}) + {TerminalOnline}
    + (if o.archived then {} else {TerminalNotArchived}) + (if o.receipts > 0 then {ReceiptAvailable} else {})
    + (if o.doorLocked then {} else {DoorUnlocked})
  }

  datatype Ack = Success | NoOp | BlockedPrerequisite | InvalidAction

  // `_is_noop_for_state`; the log is never empty.
  predicate NothingToDo(a: Affordance, o: Objects) {
    || (a == InspectBench && !o.benchFull)
    || (a == AttemptCode && !o.doorLocked)
    || (a == AskForReceipt && o.receipts == 0)
  }

  /** `validate_investigation_command`; no affordance is one-shot, so none is ever consumed. */
  function Validate(cmd: Command, o: Objects, available: set<Prereq>): Ack {
    if cmd.mode == BadMode || cmd.what == NoSuchAffordance then InvalidAction
    else if !(Needs(cmd.what) <= available + FromObjects(o)) then BlockedPrerequisite
    else if NothingToDo(cmd.what, o) then NoOp
    else Success
  }

  datatype Execution = Execution(ack: Ack, objects: Objects, evidence: set<Evidence>, facts: set<Fact>)

  // Facts a player may be given: nodes of the graph that are not hidden.
  function Legal(facts: set<Fact>): set<Fact> {
    set f | f in facts && VisibilityOf(f).Some? && VisibilityOf(f).value != Hidden
  }

  // The supplied code: the item context, or else the evidence context.
  function Supplied(cmd: Command): Typed { if cmd.item != NoCode then cmd.item else cmd.evidence }

  // Carrying out a validated command: the final acknowledgement and the new objects.
  function Perform(cmd: Command, o: Objects, ack: Ack, available: set<Prereq>): (Ack, Objects) {
    match cmd.what
    case ExamineMedallion =>
      if o.status == Missing then (BlockedPrerequisite, o)
      else if o.examined then (NoOp, o)
      else (ack, o.(examined := true))
    case InspectBench => if !o.benchFull then (NoOp, o) else (ack, o.(benchFull := false))
    case RequestTerminal => if o.archived && ArchiveOverride !in available then (NoOp, o) else (ack, o)
    case ViewLogs => if o.archived && ArchiveOverride !in available then (NoOp, o) else (ack, o)
    case AttemptCode =>
      if !o.doorLocked then (NoOp, o)
      else if Supplied(cmd) in {NoCode, Malformed} then (BlockedPrerequisite, o)
      else if Supplied(cmd) == WrongCode then (NoOp, o)
      else (ack, o.(doorLocked := false))
    case AskForReceipt => if o.receipts == 0 then (NoOp, o) else (ack, o.(receipts := o.receipts - 1))
    case _ => (ack, o)
  }

  function EvidenceOf(k: Case, a: Affordance): set<Evidence> {
    match a
    case ExamineSurface => {MethodTrace}
    case InspectBench =>
      if k.bench == NoteFragment then {TornNote} else if k.bench == ReceiptFragment then {CafeReceipt} else {}
    case AskForReceipt => {CafeReceipt}
    case ReadReceipt => {CafeReceipt}
    case _ => {}
  }

  /** `execute_investigation_command`: evidence and facts come from success alone, or from validating alone. */
  function Investigate(k: Case, cmd: Command, o: Objects, elapsed: real, available: set<Prereq>): Execution {
    var archived := Archive(o, elapsed);
    var ack := Validate(cmd, archived, available);
    if ack in {InvalidAction, BlockedPrerequisite} then Execution(ack, archived, {}, {})
    else if cmd.mode == ValidateOnly then Execution(ack, archived, {}, Legal(FactsOf(cmd.what)))
    else
      var (final, after) := Perform(cmd, archived, ack, available);
      if final != Success then Execution(final, after, {}, {})
      else Execution(final, after, EvidenceOf(k, cmd.what), Legal(FactsOf(cmd.what)))
  }

  // ---- Progress ----

  datatype Progress = Progress(
    discovered: set<Evidence>, collected: set<Evidence>, facts: set<Fact>,
    unlockable: set<Edge>, contradictions: set<Edge>, actions: set<Action>)

  function Unlockable(facts: set<Fact>): set<Edge> {
    set e | e in GRAPH_EDGES && LinkOf(e).Some? && LinkOf(e).value.relation == Contradicts
            && LinkOf(e).value.from in facts && LinkOf(e).value.to in facts
  }

  function InitialProgress(): Progress { Progress({}, {}, STARTING_FACTS, Unlockable(STARTING_FACTS), {}, {}) }

  // Evidence picked up on the spot.
  predicate Collects(a: Affordance, e: Evidence) { e != MethodTrace && a in {InspectBench, AskForReceipt} }

  function FactsFrom(e: Evidence): set<Fact> {
    match e
    case TornNote => {N6}
    case CafeReceipt => {N4}
    case MethodTrace => {N7}
    case OtherEvidence(_) => {}
  }

  /** `apply_execution_result_to_progress`. */
  function AfterExecution(p: Progress, cmd: Command, x: Execution): Progress {
    var counts := x.ack in {Success, NoOp};
    var evidence := if counts then x.evidence else {};
    var facts := p.facts + (if counts then Legal(x.facts) + (set e, f | e in evidence && f in Legal(FactsFrom(e)) :: f) else {});
    p.(discovered := p.discovered + evidence,
       collected := p.collected + (set e | e in evidence && Collects(cmd.what, e)),
       facts := facts, unlockable := Unlockable(facts), contradictions := p.contradictions * Unlockable(facts))
  }

  datatype Verdict = Recorded | AlreadyKnown | FactsMissing | NotAContradiction | UnknownEdge

  /** `execute_contradiction_edge`. */
  function Contradict(p: Progress, e: Edge): (Verdict, Progress) {
    if LinkOf(e).None? then (UnknownEdge, p)
    else if LinkOf(e).value.relation != Contradicts then (NotAContradiction, p)
    else if !({LinkOf(e).value.from, LinkOf(e).value.to} <= p.facts) then (FactsMissing, p)
    else if e in p.contradictions then (AlreadyKnown, p)
    else (Recorded, p.(contradictions := p.contradictions + {e}, actions := p.actions + {StateContradiction}))
  }

  // ---- The contradiction ledger ----

  /**
   Recorded and unlockable edges are contradictions whose two facts are known, and
   every recorded edge has its action flag.
   */
  ghost predicate Ledger(p: Progress) {
    && p.contradictions <= Unlockable(p.facts)
    && p.unlockable <= Unlockable(p.facts)
    && (p.contradictions != {} ==> StateContradiction in p.actions)
  }

  lemma UnlockableIs(facts: set<Fact>)
    ensures Unlockable(facts) == if N3 in facts && N4 in facts then {Edge3} else {}
  {
    forall e ensures e in Unlockable(facts) <==> e == Edge3 && N3 in facts && N4 in facts {}
  }

  lemma UnlockableGrows(a: set<Fact>, b: set<Fact>)
    requires a <= b
    ensures Unlockable(a) <= Unlockable(b)
  {
  }

  /** After an investigation step the unlockable edges are exact, and no recorded edge is dropped. */
  lemma ExecutionLedger(p: Progress, cmd: Command, x: Execution)
    requires Ledger(p)
    ensures var q := AfterExecution(p, cmd, x);
      Ledger(q) && q.unlockable == Unlockable(q.facts) && q.contradictions == p.contradictions && p.facts <= q.facts
  {
    UnlockableGrows(p.facts, AfterExecution(p, cmd, x).facts);
  }

  lemma ContradictLedger(p: Progress, e: Edge)
    requires Ledger(p)
    ensures Ledger(Contradict(p, e).1) && p.contradictions <= Contradict(p, e).1.contradictions
    ensures Contradict(p, e).0 in {Recorded, AlreadyKnown} <==> e == Edge3 && N3 in p.facts && N4 in p.facts
  {
    UnlockableIs(p.facts);
  }

  // ---- The hidden fact ----

  /** Investigation never gives the hidden fact away, whatever is asked of whichever object. */
  lemma ExecutionHidesN8(p: Progress, k: Case, cmd: Command, o: Objects, elapsed: real, available: set<Prereq>)
    ensures N8 in AfterExecution(p, cmd, Investigate(k, cmd, o, elapsed, available)).facts <==> N8 in p.facts
  {
  }

  /** A command carried out without success changes no object and teaches nothing. */
  lemma FailureTeachesNothing(p: Progress, k: Case, cmd: Command, o: Objects, elapsed: real, available: set<Prereq>)
    requires Ledger(p) && cmd.mode != ValidateOnly && Investigate(k, cmd, o, elapsed, available).ack != Success
    ensures Investigate(k, cmd, o, elapsed, available).objects == Archive(o, elapsed)
    ensures AfterExecution(p, cmd, Investigate(k, cmd, o, elapsed, available)) == p.(unlockable := Unlockable(p.facts))
  {
    var archived := Archive(o, elapsed);
    if Validate(cmd, archived, available) in {Success, NoOp} { FailureKeepsObjects(cmd, archived, available); }
  }

  lemma FailureKeepsObjects(cmd: Command, o: Objects, available: set<Prereq>)
    requires Validate(cmd, o, available) in {Success, NoOp}
    ensures var (final, after) := Perform(cmd, o, Validate(cmd, o, available), available); final == Success || after == o
  {
  }

  // What the objects put in the way of a command that passed validation.
  predicate Obstructed(cmd: Command, o: Objects, available: set<Prereq>) {
    match cmd.what
    case ExamineMedallion => o.status == Missing || o.examined
    case InspectBench => !o.benchFull
    case RequestTerminal => o.archived && ArchiveOverride !in available
    case ViewLogs => o.archived && ArchiveOverride !in available
    case AttemptCode => !o.doorLocked || Supplied(cmd) != RightCode
    case AskForReceipt => o.receipts == 0
    case _ => false
  }

  lemma PerformsUnlessObstructed(cmd: Command, o: Objects, available: set<Prereq>)
    requires Validate(cmd, o, available) in {Success, NoOp}
    ensures Perform(cmd, o, Validate(cmd, o, available), available).0 == Success
      <==> Validate(cmd, o, available) == Success && !Obstructed(cmd, o, available)
  {
  }

  // The facts behind the evidence a command turns up.
  function FactsFound(k: Case, a: Affordance): set<Fact> { set e, f | e in EvidenceOf(k, a) && f in FactsFrom(e) :: f }

  /** What a command teaches, in terms of its validation and what stands in its way. */
  function Lesson(k: Case, cmd: Command, o: Objects, available: set<Prereq>): set<Fact> {
    if Validate(cmd, o, available) !in {Success, NoOp} then {}
    else if cmd.mode == ValidateOnly then FactsOf(cmd.what)
    else if Validate(cmd, o, available) == NoOp || Obstructed(cmd, o, available) then {}
    else FactsOf(cmd.what) + FactsFound(k, cmd.what)
  }

  lemma AllLegal(k: Case, a: Affordance)
    ensures Legal(FactsOf(a)) == FactsOf(a) && Legal({}) == {}
    ensures (set e, f | e in EvidenceOf(k, a) && f in Legal(FactsFrom(e)) :: f) == FactsFound(k, a)
  {
    assert forall e :: Legal(FactsFrom(e)) == FactsFrom(e);
  }

  /**
   A command adds exactly its lesson to the known facts; so it teaches something new if and
   only if its lesson holds a fact not known yet.
   */
  lemma LessonsExact(p: Progress, k: Case, cmd: Command, o: Objects, elapsed: real, available: set<Prereq>)
    ensures var facts := AfterExecution(p, cmd, Investigate(k, cmd, o, elapsed, available)).facts;
      var lesson := Lesson(k, cmd, Archive(o, elapsed), available);
      facts == p.facts + lesson && (facts != p.facts <==> exists f :: f in lesson && f !in p.facts)
  {
    hide AfterExecution, Investigate, Lesson, Archive;
    var x := Investigate(k, cmd, o, elapsed, available);
    Findings(k, cmd, o, elapsed, available);
    AllLegal(k, cmd.what);
    AfterFindings(p, cmd, x);
    assert AfterExecution(p, cmd, x).facts == p.facts + Lesson(k, cmd, Archive(o, elapsed), available);
  }

  // What an execution hands to progress.
  lemma Findings(k: Case, cmd: Command, o: Objects, elapsed: real, available: set<Prereq>)
    ensures var x := Investigate(k, cmd, o, elapsed, available); var lesson := Lesson(k, cmd, Archive(o, elapsed), available);
      || (lesson == {} && (x.ack !in {Success, NoOp} || (x.evidence == {} && x.facts == {})))
      || (x.ack in {Success, NoOp} && x.evidence == {} && x.facts == Legal(FactsOf(cmd.what)) && lesson == FactsOf(cmd.what))
      || (x.ack in {Success, NoOp} && x.evidence == EvidenceOf(k, cmd.what) && x.facts == Legal(FactsOf(cmd.what))
          && lesson == FactsOf(cmd.what) + FactsFound(k, cmd.what))
  {
    hide Obstructed, Legal, FactsOf, EvidenceOf, FactsFound;
    var archived := Archive(o, elapsed);
    if Validate(cmd, archived, available) in {Success, NoOp} { PerformsUnlessObstructed(cmd, archived, available); }
  }

  lemma AfterFindings(p: Progress, cmd: Command, x: Execution)
    ensures AfterExecution(p, cmd, x).facts == p.facts +
      if x.ack in {Success, NoOp} then Legal(x.facts) + (set e, f | e in x.evidence && f in Legal(FactsFrom(e)) :: f) else {}
  {
  }

  /**
   Validating a command teaches something that carrying it out would not in exactly one
   case: it asks for the terminal or its logs, may do so, finds the logs archived without
   an override, and the fact behind them is still unknown.
   */
  lemma ValidatingTeachesMore(p: Progress, k: Case, cmd: Command, o: Objects, elapsed: real, available: set<Prereq>)
    ensures var (trial, done) := (cmd.(mode := ValidateOnly), cmd.(mode := Execute));
      var archived := Archive(o, elapsed);
      !(AfterExecution(p, trial, Investigate(k, trial, o, elapsed, available)).facts
        <= AfterExecution(p, done, Investigate(k, done, o, elapsed, available)).facts)
      <==> && cmd.what in {RequestTerminal, ViewLogs} && Needs(cmd.what) <= available + FromObjects(archived)
           && archived.archived && ArchiveOverride !in available && !(FactsOf(cmd.what) <= p.facts)
  {
    var (trial, done) := (cmd.(mode := ValidateOnly), cmd.(mode := Execute));
    LessonsExact(p, k, trial, o, elapsed, available);
    LessonsExact(p, k, done, o, elapsed, available);
    TrialLessons(k, cmd, Archive(o, elapsed), available);
    hide AfterExecution, Investigate, Lesson, Needs, FromObjects, FactsOf;
  }

  lemma TrialLessons(k: Case, cmd: Command, o: Objects, available: set<Prereq>)
    ensures var (trial, done) := (Lesson(k, cmd.(mode := ValidateOnly), o, available), Lesson(k, cmd.(mode := Execute), o, available));
      if && cmd.what in {RequestTerminal, ViewLogs} && Needs(cmd.what) <= available + FromObjects(o)
         && o.archived && ArchiveOverride !in available
      then trial == FactsOf(cmd.what) && done == {} else trial <= done
  {
  }

  /** So the archived logs' fact is there for the validating, though not for the asking. */
  lemma ValidatingUnlocks(k: Case, o: Objects, elapsed: real, available: set<Prereq>, p: Progress)
    requires TerminalGranted in available && o.archived && ArchiveOverride !in available
    ensures N3 in AfterExecution(p, Command(ViewLogs, ValidateOnly, NoCode, NoCode),
                    Investigate(k, Command(ViewLogs, ValidateOnly, NoCode, NoCode), o, elapsed, available)).facts
    ensures N3 in AfterExecution(p, Command(ViewLogs, Execute, NoCode, NoCode),
                    Investigate(k, Command(ViewLogs, Execute, NoCode, NoCode), o, elapsed, available)).facts
      <==> N3 in p.facts
  {
    hide AfterExecution, Investigate;
    LessonsExact(p, k, Command(ViewLogs, ValidateOnly, NoCode, NoCode), o, elapsed, available);
    LessonsExact(p, k, Command(ViewLogs, Execute, NoCode, NoCode), o, elapsed, available);
    TrialLessons(k, Command(ViewLogs, Execute, NoCode, NoCode), Archive(o, elapsed), available);
  }

  // ---- What a command finds and changes ----

  /** What a command must find at hand; a medallion in sight needs no one to say so. */
  predicate Equipped(cmd: Command, o: Objects, available: set<Prereq>) {
    match cmd.what
    case ExamineMedallion => MedallionAtHand in available || o.status != Missing
    case RequestTerminal => SceneTwo in available && MarcTrusts in available
    case ViewLogs => TerminalGranted in available
    case AttemptCode => FourDigits in available
    case AskForReceipt => SceneFour in available
    case ReadReceipt => HoldsReceipt in available
    case _ => true
  }

  /** Validation in terms of the command, the objects and the prerequisites at hand. */
  lemma ValidationExactly(cmd: Command, o: Objects, available: set<Prereq>)
    ensures var ack := Validate(cmd, o, available);
      var known := cmd.mode != BadMode && cmd.what != NoSuchAffordance;
      var idle := match cmd.what
                  case InspectBench => !o.benchFull
                  case AttemptCode => !o.doorLocked
                  case AskForReceipt => o.receipts == 0
                  case _ => false;
      && (ack == InvalidAction <==> !known)
      && (ack == BlockedPrerequisite <==> known && !Equipped(cmd, o, available))
      && (ack == NoOp <==> known && Equipped(cmd, o, available) && idle)
      && (ack == Success <==> known && Equipped(cmd, o, available) && !idle)
  {
    EquippedIs(cmd, o, available);
    hide Equipped, Needs, FromObjects;
  }

  lemma EquippedIs(cmd: Command, o: Objects, available: set<Prereq>)
    ensures Needs(cmd.what) <= available + FromObjects(o) <==> Equipped(cmd, o, available)
  {
  }

  /** A command that is carried out, all the way. */
  predicate CarriedOut(cmd: Command, o: Objects, available: set<Prereq>) {
    cmd.mode == Execute && Validate(cmd, o, available) == Success && !Obstructed(cmd, o, available)
  }

  // The evidence a search can turn up, item by item.
  predicate Finds(k: Case, a: Affordance, e: Evidence) {
    match e
    case TornNote => a == InspectBench && k.bench == NoteFragment
    case CafeReceipt => a in {AskForReceipt, ReadReceipt} || (a == InspectBench && k.bench == ReceiptFragment)
    case MethodTrace => a == ExamineSurface
    case OtherEvidence(_) => false
  }

  lemma FindsExactly(k: Case, a: Affordance, e: Evidence)
    ensures e in EvidenceOf(k, a) <==> Finds(k, a, e)
  {
  }

  /** Evidence is discovered exactly by carrying out a search that turns it up, and collected from the bench or the printer. */
  lemma EvidenceExactly(p: Progress, k: Case, cmd: Command, o: Objects, elapsed: real, available: set<Prereq>, e: Evidence)
    ensures var q := AfterExecution(p, cmd, Investigate(k, cmd, o, elapsed, available));
      var found := CarriedOut(cmd, Archive(o, elapsed), available) && Finds(k, cmd.what, e);
      && (e in q.discovered <==> e in p.discovered || found)
      && (e in q.collected <==> e in p.collected || (found && e != MethodTrace && cmd.what in {InspectBench, AskForReceipt}))
      && q.actions == p.actions
  {
    hide Perform, Validate, Obstructed, FactsOf, FactsFrom, EvidenceOf, Finds, Unlockable, Legal;
    FindsExactly(k, cmd.what, e);
    Acknowledged(k, cmd, o, elapsed, available);
  }

  // How a command ends, and with which evidence.
  lemma Acknowledged(k: Case, cmd: Command, o: Objects, elapsed: real, available: set<Prereq>)
    ensures var x := Investigate(k, cmd, o, elapsed, available); var archived := Archive(o, elapsed);
      && (CarriedOut(cmd, archived, available) ==> x.ack == Success && x.evidence == EvidenceOf(k, cmd.what))
      && (!CarriedOut(cmd, archived, available) ==> x.evidence == {})
  {
    hide EvidenceOf, Obstructed, Legal, FactsOf;
    var archived := Archive(o, elapsed);
    if Validate(cmd, archived, available) in {Success, NoOp} { PerformsUnlessObstructed(cmd, archived, available); }
  }

  /** The final acknowledgement: validation's, unless the objects get in the way. */
  lemma AcknowledgedExactly(k: Case, cmd: Command, o: Objects, elapsed: real, available: set<Prereq>)
    ensures var archived := Archive(o, elapsed); var first := Validate(cmd, archived, available);
      Investigate(k, cmd, o, elapsed, available).ack ==
        if first in {InvalidAction, BlockedPrerequisite} || cmd.mode == ValidateOnly || CarriedOut(cmd, archived, available) then first
        else if (cmd.what == ExamineMedallion && o.status == Missing)
                || (cmd.what == AttemptCode && o.doorLocked && Supplied(cmd) in {NoCode, Malformed}) then BlockedPrerequisite
        else NoOp
  {
  }

  /** The objects change by what was carried out and by the clock, and in no other way. */
  lemma ObjectsExactly(k: Case, cmd: Command, o: Objects, elapsed: real, available: set<Prereq>)
    ensures var v := Investigate(k, cmd, o, elapsed, available).objects;
      var done := CarriedOut(cmd, Archive(o, elapsed), available);
      && v.status == o.status && v.place == o.place
      && (v.examined <==> o.examined || (done && cmd.what == ExamineMedallion))
      && (v.benchFull <==> o.benchFull && !(done && cmd.what == InspectBench))
      && (v.archived <==> o.archived || elapsed >= 900.0)
      && (v.doorLocked <==> o.doorLocked && !(done && cmd.what == AttemptCode))
      && v.receipts == o.receipts - (if done && cmd.what == AskForReceipt then 1 else 0)
  {
    var archived := Archive(o, elapsed);
    if cmd.mode == Execute && Validate(cmd, archived, available) in {Success, NoOp} { ChangedExactly(cmd, archived, available); }
    assert cmd.mode == BadMode ==> Validate(cmd, archived, available) == InvalidAction;
    hide Validate, EvidenceOf, FactsOf, Legal, Obstructed, Perform;
  }

  lemma ChangedExactly(cmd: Command, o: Objects, available: set<Prereq>)
    requires Validate(cmd, o, available) in {Success, NoOp} && cmd.mode == Execute
    ensures var v := Perform(cmd, o, Validate(cmd, o, available), available).1; var done := CarriedOut(cmd, o, available);
      v == o.(examined := o.examined || (done && cmd.what == ExamineMedallion),
              benchFull := o.benchFull && !(done && cmd.what == InspectBench),
              doorLocked := o.doorLocked && !(done && cmd.what == AttemptCode),
              receipts := if done && cmd.what == AskForReceipt then o.receipts - 1 else o.receipts)
  {
  }

  /** The facts a command teaches, fact by fact: some when it is carried out or validated, some only when carried out. */
  predicate Teaches(k: Case, cmd: Command, o: Objects, available: set<Prereq>, f: Fact) {
    var a := cmd.what;
    var done := CarriedOut(cmd, o, available);
    var learns := done || (cmd.mode == ValidateOnly && Validate(cmd, o, available) in {Success, NoOp});
    match f
    case N1 => learns && a == ReadLabel
    case N2 => learns && a in {RequestTerminal, InspectKeypad}
    case N3 => learns && a == ViewLogs
    case N4 => (learns && a == ReadReceipt) || (done && Finds(k, a, CafeReceipt))
    case N6 => done && Finds(k, a, TornNote)
    case N7 => learns && a in {CheckLock, ExamineSurface}
    case _ => false
  }

  lemma TaughtBy(k: Case, cmd: Command, o: Objects, available: set<Prereq>, f: Fact)
    ensures f in Lesson(k, cmd, o, available) <==> Teaches(k, cmd, o, available, f)
  {
    assert cmd.mode == BadMode ==> Validate(cmd, o, available) == InvalidAction;
    FoundFacts(k, cmd.what, f);
    hide Validate, Obstructed, FactsFound;
  }

  /** So a command adds a fact to the known ones exactly when it teaches it. */
  lemma KnownAfter(p: Progress, k: Case, cmd: Command, o: Objects, elapsed: real, available: set<Prereq>, f: Fact)
    ensures f in AfterExecution(p, cmd, Investigate(k, cmd, o, elapsed, available)).facts
      <==> f in p.facts || Teaches(k, cmd, Archive(o, elapsed), available, f)
  {
    hide AfterExecution, Investigate, Lesson, Archive, Teaches;
    LessonsExact(p, k, cmd, o, elapsed, available);
    TaughtBy(k, cmd, Archive(o, elapsed), available, f);
  }

  lemma FoundFacts(k: Case, a: Affordance, f: Fact)
    ensures f in FactsFound(k, a) <==>
      || (f == N4 && Finds(k, a, CafeReceipt)) || (f == N6 && Finds(k, a, TornNote)) || (f == N7 && Finds(k, a, MethodTrace))
  {
    FindsExactly(k, a, CafeReceipt);
    FindsExactly(k, a, TornNote);
    FindsExactly(k, a, MethodTrace);
    if f in FactsFound(k, a) {
      var e :| e in EvidenceOf(k, a) && f in FactsFrom(e);
      FindsExactly(k, a, e);
    }
    if Finds(k, a, CafeReceipt) { assert N4 in FactsFrom(CafeReceipt); }
    if Finds(k, a, TornNote) { assert N6 in FactsFrom(TornNote); }
    if Finds(k, a, MethodTrace) { assert N7 in FactsFrom(MethodTrace); }
  }

  /** An attempt to state a contradiction, answer and effect: only the one edge with both facts known is recorded, once. */
  lemma ContradictExactly(p: Progress, e: Edge)
    ensures Contradict(p, e) ==
      if e.OtherEdge? then (UnknownEdge, p)
      else if e != Edge3 then (NotAContradiction, p)
      else if N3 !in p.facts || N4 !in p.facts then (FactsMissing, p)
      else if Edge3 in p.contradictions then (AlreadyKnown, p)
      else (Recorded, p.(contradictions := p.contradictions + {Edge3}, actions := p.actions + {StateContradiction}))
  {
  }

  /** A recovered medallion stays recovered, whatever is done to the objects. */
  lemma ExecutionKeepsRecovered(k: Case, cmd: Command, o: Objects, elapsed: real, available: set<Prereq>)
    ensures Investigate(k, cmd, o, elapsed, available).objects.status == o.status
  {
  }
}
