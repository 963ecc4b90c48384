/** The generated case: its truth graph, scene tables, gates and resolution rules. */
module CaseRules {
  import opened Json
  import opened Timeline

  // ---- Facts, evidence, scenes ----

  /** Truth-graph facts; an id outside the graph is `OtherFact`. */
  datatype Fact = N1 | N2 | N3 | N4 | N5 | N6 | N7 | N8 | OtherFact(id: string)

  datatype Evidence = TornNote | CafeReceipt | MethodTrace | OtherEvidence(id: string)

  datatype Scene = S1 | S2 | S3 | S4 | S5

  const ALL_SCENES: set<Scene> := {S1, S2, S3, S4, S5}

  datatype Culprit = CulpritSamira | CulpritLaurent | CulpritOutsider

  datatype Ally = AllyMarc | AllyElodie | AllyJo

  datatype Difficulty = D0 | D1

  datatype BenchItem = NoteFragment | ReceiptFragment | NothingThere

  /** What differs between generated cases. */
  datatype Case = Case(culprit: Culprit, ally: Ally, difficulty: Difficulty, bench: BenchItem, schedule: seq<Beat>)

  datatype Visibility = Public | Discoverable | Hidden

  // `None` for ids that are not nodes of the graph.
  function VisibilityOf(f: Fact): Option<Visibility> {
    match f
    case N1 => Some(Public)
    case N8 => Some(Hidden)
    case OtherFact(_) => None
    case _ => Some(Discoverable)
  }

  const STARTING_FACTS: set<Fact> := {N1}

  /** Truth-graph edges; an id outside the graph is `OtherEdge`. */
  datatype Edge = Edge1 | Edge2 | Edge3 | Edge4 | Edge5 | Edge6 | Edge7 | OtherEdge(id: string)

  datatype Relation = Supports | Narrows | Contradicts | Unlocks

  datatype Link = Link(from: Fact, to: Fact, relation: Relation)

  function LinkOf(e: Edge): Option<Link> {
    match e
    case Edge1 => Some(Link(N1, N7, Supports))
    case Edge2 => Some(Link(N2, N3, Narrows))
    case Edge3 => Some(Link(N3, N4, Contradicts))
    case Edge4 => Some(Link(N4, N8, Unlocks))
    case Edge5 => Some(Link(N5, N8, Narrows))
    case Edge6 => Some(Link(N6, N8, Supports))
    case Edge7 => Some(Link(N7, N8, Narrows))
    case OtherEdge(_) => None
  }

  const GRAPH_EDGES: set<Edge> := {Edge1, Edge2, Edge3, Edge4, Edge5, Edge6, Edge7}

  // ---- Dialogue vocabulary ----

  datatype Intent =
    | AskWhatHappened | AskWhen | AskWhere | AskWho | AskWhatSeen | RequestAccess | RequestPermission
    | PresentEvidence | ChallengeContradiction | SummarizeUnderstanding | AccuseIntent | Reassure | Goodbye

  datatype Slot = TimeSlot | LocationSlot | ItemSlot | PersonSlot | ReasonSlot

  // `required_slot_names` of the intent catalogue.
  function IntentSlots(i: Intent): set<Slot> {
    match i
    case PresentEvidence => {ItemSlot}
    case AccuseIntent => {PersonSlot, ReasonSlot}
    case _ => {}
  }

  // ---- Scene definitions ----

  function Primary(k: Case, s: Scene): Cast {
    match s
    case S1 => Elodie
    case S2 => Marc
    case S3 => if k.culprit == CulpritSamira then Elodie else Samira
    case S4 => Jo
    case S5 => Elodie
  }

  function Intents(s: Scene): set<Intent> {
    match s
    case S1 => {AskWhatHappened, AskWhen, AskWhere, AskWho, RequestPermission, SummarizeUnderstanding, Reassure, Goodbye}
    case S2 => {AskWhatSeen, AskWhen, RequestAccess, RequestPermission, PresentEvidence, SummarizeUnderstanding, Reassure,
                Goodbye}
    case S3 => {AskWhen, AskWhere, AskWho, AskWhatSeen, PresentEvidence, ChallengeContradiction, SummarizeUnderstanding,
                Reassure, Goodbye}
    case S4 => {AskWhatSeen, AskWhen, AskWhere, AskWho, PresentEvidence, SummarizeUnderstanding, Reassure, Goodbye}
    case S5 => {PresentEvidence, ChallengeContradiction, SummarizeUnderstanding, AccuseIntent, RequestPermission, Reassure,
                Goodbye}
  }

  function SceneSlots(s: Scene): set<Slot> {
    match s
    case S1 => {}
    case S2 => {ReasonSlot}
    case S3 => {TimeSlot}
    case S4 => {TimeSlot}
    case S5 => {PersonSlot, ReasonSlot}
  }

  function AllowedFacts(s: Scene): set<Fact> {
    match s
    case S1 => {N1, N7}
    case S2 => {N1, N2, N3, N7}
    case S3 => {N2, N3, N5, N6, N7, N8}
    case S4 => {N1, N4, N5}
    case S5 => {N3, N4, N5, N6, N7, N8}
  }

  // Revealed by entering the scene.
  function OpeningFacts(s: Scene): set<Fact> { if s == S1 then {N1} else {} }

  function UnlockFacts(s: Scene): set<Fact> {
    match s
    case S1 => {N1}
    case S2 => {N2}
    case S3 => {N3, N6}
    case S4 => {N4, N5}
    case S5 => {N8}
  }

  function UnlockScenes(s: Scene): set<Scene> {
    match s
    case S1 => {S2, S4}
    case S2 => {S3}
    case S3 => {S4, S5}
    case S4 => {S5}
    case S5 => {}
  }

  // ---- Gates ----

  function GateFacts(s: Scene): set<Fact> {
    match s
    case S1 => {}
    case S2 => {N1}
    case S3 => {N2}
    case S4 => {N1}
    case S5 => {N3, N4, N8}
  }

  function GateItems(s: Scene): set<Evidence> { if s == S5 then {CafeReceipt} else {} }

  function GateTrust(k: Case, s: Scene): Option<real> {
    match s
    case S2 => Some(if k.ally == AllyMarc then 0.25 else 0.45)
    case S5 => Some(if k.ally == AllyMarc || k.ally == AllyElodie then 0.30 else 0.40)
    case _ => None
  }

  // First and last minute.
  function GateWindow(s: Scene): Option<(real, real)> {
    match s
    case S2 => Some((0.0, 15.0))
    case S4 => Some((8.0, 18.0))
    case _ => None
  }

  function StressLimit(s: Scene): real {
    match s
    case S1 => 0.90
    case S2 => 0.85
    case S3 => 0.88
    case S4 => 0.95
    case S5 => 0.82
  }

  // ---- Summaries ----

  // `effective_summary_min_fact_count` over the scene's own minimum.
  function SummaryMinimum(k: Case, s: Scene): nat {
    if s != S5 then 1 else if k.difficulty == D0 then 1 else 2
  }

  function SummaryKeys(k: Case, s: Scene): set<Fact> {
    if k.difficulty == D0 then {}
    else
      match s
      case S1 => {N1}
      case S2 => {N2}
      case S3 => {N3}
      case S4 => {N4}
      case S5 => {N8}
  }

  // ---- Flags ----

  /** Action flags; any the rules never name is `OtherAction`. */
  datatype Action =
    | RecoverMedallion | StateContradiction | Accuse(who: Culprit) | FrenchSummaryTwice | PoliteGateUsage
    | WrongAccusation | PublicAccusation | OtherAction(id: string)

  datatype Relationship = ElodiePositive | MarcPositive | OtherRelationship(id: string)

  datatype OutcomeFlag =
    | SoftFailLatched | ItemLeavesBuilding | ItemLeftBuilding | RelationshipPenalty | BestOutcomeAwarded
    | ContinuityQuietRecovery | ContinuityNoEscalation | ContinuityStrongTrust | PublicEscalation | OtherOutcome(id: string)

  // ---- Resolution rules ----

  datatype Requirement = Requirement(facts: set<Fact>, items: set<Evidence>, actions: set<Action>)

  const RECOVERY_RULE := Requirement({N8}, {MethodTrace}, {RecoverMedallion})

  function AccusationRule(k: Case): Requirement {
    Requirement({N3, N4, N5}, {CafeReceipt}, {StateContradiction, Accuse(k.culprit)})
  }

  function BestRule(k: Case): Requirement {
    Requirement({N3, N4, N8}, {CafeReceipt, MethodTrace},
                {RecoverMedallion, StateContradiction, Accuse(k.culprit), FrenchSummaryTwice, PoliteGateUsage})
  }

  const BEST_RELATIONSHIPS: set<Relationship> := {ElodiePositive, MarcPositive}

  const SOFT_FAIL_FLAGS: set<OutcomeFlag> := {ItemLeavesBuilding, RelationshipPenalty}

  const TIMEOUT_SECONDS := 1200.0
}
