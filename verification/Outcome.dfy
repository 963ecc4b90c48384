/** Outcome evaluation, latching and completion attempts: `outcome_engine.py` and `completion_flow.py`. */
module Outcome {
  import opened Json
  import opened Timeline
  import opened CaseRules
  import D = Dialogue
  import opened Investigation

  /** Everything an evaluation looks at. */
  datatype Situation = Situation(
    progress: Progress, objects: Objects, npcs: Npcs, elapsed: real,
    extra: set<Action>, relationships: set<Relationship>, outcomes: set<OutcomeFlag>)

  datatype Primary = InProgress | RecoverySuccess | AccusationSuccess | SoftFail | BestOutcome

  function Items(p: Progress): set<Evidence> { p.discovered + p.collected }

  // The action flags in force, `passed` being the number of passed summaries in the log.
  function ActionsOf(z: Situation, passed: nat): set<Action> {
    z.progress.actions + z.extra + (if passed >= 2 then {FrenchSummaryTwice} else {})
    + (if z.objects.status == Recovered then {RecoverMedallion} else {})
  }

  predicate Meets(r: Requirement, z: Situation, actions: set<Action>) {
    r.facts <= z.progress.facts && r.items <= Items(z.progress) && r.actions <= actions
  }

  function Liked(npcs: Npcs, c: Cast, flag: Relationship): set<Relationship> {
    if c in npcs && npcs[c].trust >= 0.0 && npcs[c].stress <= 0.8 then {flag} else {}
  }

  function RelationshipsOf(z: Situation): set<Relationship> {
    z.relationships + Liked(z.npcs, Elodie, ElodiePositive) + Liked(z.npcs, Marc, MarcPositive)
  }

  predicate Escalated(z: Situation, passed: nat) {
    PublicEscalation in z.outcomes || PublicAccusation in ActionsOf(z, passed) || WrongAccusation in ActionsOf(z, passed)
  }

  predicate Quiet(z: Situation, passed: nat) { z.objects.status == Recovered && !Escalated(z, passed) }

  /** A wrong accusation, or twenty minutes without the medallion. */
  predicate SoftFailed(z: Situation, passed: nat) {
    WrongAccusation in ActionsOf(z, passed) || (z.elapsed >= TIMEOUT_SECONDS && z.objects.status != Recovered)
  }

  predicate BestReached(k: Case, z: Situation, passed: nat) {
    Meets(BestRule(k), z, ActionsOf(z, passed)) && BEST_RELATIONSHIPS <= RelationshipsOf(z) && Quiet(z, passed)
  }

  predicate RecoveryReached(z: Situation, passed: nat) { Meets(RECOVERY_RULE, z, ActionsOf(z, passed)) }

  predicate AccusationReached(k: Case, z: Situation, passed: nat) { Meets(AccusationRule(k), z, ActionsOf(z, passed)) }

  /** `evaluate_mbam_case_outcome`: the best outcome first, then the soft failure. */
  function Evaluate(k: Case, z: Situation, passed: nat): Primary {
    if BestReached(k, z, passed) then BestOutcome
    else if SoftFailed(z, passed) then SoftFail
    else if RecoveryReached(z, passed) then RecoverySuccess
    else if AccusationReached(k, z, passed) then AccusationSuccess
    else InProgress
  }

  // ---- Latching ----

  function LatchSoftFail(z: Situation): Situation {
    if !SoftFailed(z, 0) then z
    else z.(outcomes := z.outcomes + {SoftFailLatched, ItemLeftBuilding} + SOFT_FAIL_FLAGS,
            objects := if z.objects.status == Recovered then z.objects
                       else z.objects.(status := Missing, place := UnknownPlace))
  }

  function LatchBest(k: Case, z: Situation): Situation {
    if !BestReached(k, z, 0) then z
    else z.(outcomes := z.outcomes + {BestOutcomeAwarded, ContinuityQuietRecovery, ContinuityNoEscalation, ContinuityStrongTrust})
  }

  /** `apply_outcome_branch_transitions`, which sees no dialogue log. */
  function Latch(k: Case, z: Situation): Situation { LatchBest(k, LatchSoftFail(z)) }

  /** The best outcome and the soft failure exclude each other in every situation. */
  lemma NeverBoth(k: Case, z: Situation, passed: nat)
    ensures !(BestReached(k, z, passed) && SoftFailed(z, passed))
  {
  }

  lemma LatchKeeps(k: Case, z: Situation)
    ensures var v := Latch(k, z);
      && v.progress == z.progress && v.npcs == z.npcs && v.elapsed == z.elapsed && v.extra == z.extra
      && v.relationships == z.relationships && z.outcomes <= v.outcomes
      && (v.objects.status == Recovered <==> z.objects.status == Recovered)
      && (forall passed :: SoftFailed(v, passed) == SoftFailed(z, passed))
  {
  }

  // The flags a latch adds decide nothing.
  lemma LatchBestStable(k: Case, z: Situation)
    ensures BestReached(k, Latch(k, z), 0) == BestReached(k, LatchSoftFail(z), 0)
  {
  }

  /** Latching again changes neither flags nor objects. */
  lemma LatchIdempotent(k: Case, z: Situation)
    ensures Latch(k, Latch(k, z)) == Latch(k, z)
  {
    LatchKeeps(k, z);
    LatchBestStable(k, z);
    var v := Latch(k, z);
    assert LatchSoftFail(v) == v;
  }

  // ---- Completion attempts ----

  /** Whether the confrontation can be held: the last scene surfaced or open, and enough trust. */
  predicate CanConfront(k: Case, r: D.Runtime, npcs: Npcs) {
    && (S5 in r.surfaced || D.StateOf(r, S5) in {D.Completion.Available, D.InProgress, D.Completed})
    && Elodie in npcs && npcs[Elodie].trust >= GateTrust(k, S5).value
  }

  datatype Attempt = Invalid | Blocked | Done

  function TakeMedallion(z: Situation): Situation {
    if z.objects.status == Recovered then z
    else z.(progress := z.progress.(actions := z.progress.actions + {RecoverMedallion}),
            objects := z.objects.(status := Recovered, place := PlayerInventory))
  }

  function Escalate(z: Situation, public: bool): Situation {
    if public then z.(outcomes := z.outcomes + {PublicEscalation}) else z
  }

  /** `attempt_recovery_completion`. */
  function Recover(k: Case, z: Situation, r: D.Runtime, quiet: bool): (Attempt, Situation) {
    if !CanConfront(k, r, z.npcs) then (Blocked, z)
    else if !(N8 in z.progress.facts && MethodTrace in Items(z.progress)) then (Blocked, z)
    else var v := Escalate(TakeMedallion(z), !quiet); (if RecoveryReached(v, 0) then Done else Blocked, v)
  }

  function Charge(z: Situation, action: Action): Situation {
    z.(progress := z.progress.(actions := z.progress.actions + {action}))
  }

  /** `attempt_accusation_completion`; an id that names no suspect is `None`. */
  function AccuseSomeone(k: Case, z: Situation, r: D.Runtime, accused: Option<Culprit>, public: bool): (Attempt, Situation) {
    if accused.None? then (Invalid, z)
    else if !CanConfront(k, r, z.npcs) then (Blocked, z)
    else if accused.value == k.culprit then
      if !({N3, N4, N5} <= z.progress.facts && CafeReceipt in Items(z.progress)
           && StateContradiction in z.progress.actions + z.extra) then (Blocked, z)
      else var v := Escalate(Charge(z, Accuse(k.culprit)), public); (if AccusationReached(k, v, 0) then Done else Blocked, v)
    else var v := Escalate(Charge(z, WrongAccusation), public); (if SoftFailed(v, 0) then Done else Blocked, v)
  }

  // ---- Verdicts, latches and attempts in the situation's own terms ----

  predicate Likes(z: Situation, c: Cast, flag: Relationship) {
    flag in z.relationships || (c in z.npcs && z.npcs[c].trust >= 0.0 && z.npcs[c].stress <= 0.8)
  }

  function Deeds(z: Situation): set<Action> { z.progress.actions + z.extra }

  /** Everything the best outcome takes. */
  predicate Flawless(k: Case, z: Situation, passed: nat) {
    && N3 in z.progress.facts && N4 in z.progress.facts && N8 in z.progress.facts
    && CafeReceipt in Items(z.progress) && MethodTrace in Items(z.progress) && z.objects.status == Recovered
    && StateContradiction in Deeds(z) && Accuse(k.culprit) in Deeds(z) && PoliteGateUsage in Deeds(z)
    && (FrenchSummaryTwice in Deeds(z) || passed >= 2)
    && Likes(z, Elodie, ElodiePositive) && Likes(z, Marc, MarcPositive)
    && PublicEscalation !in z.outcomes && PublicAccusation !in Deeds(z) && WrongAccusation !in Deeds(z)
  }

  predicate Lost(z: Situation) {
    WrongAccusation in Deeds(z) || (z.elapsed >= 1200.0 && z.objects.status != Recovered)
  }

  predicate Retrieved(z: Situation) {
    && N8 in z.progress.facts && MethodTrace in Items(z.progress)
    && (RecoverMedallion in Deeds(z) || z.objects.status == Recovered)
  }

  predicate Exposed(k: Case, z: Situation) {
    && N3 in z.progress.facts && N4 in z.progress.facts && N5 in z.progress.facts && CafeReceipt in Items(z.progress)
    && StateContradiction in Deeds(z) && Accuse(k.culprit) in Deeds(z)
  }

  lemma BestIsFlawless(k: Case, z: Situation, passed: nat)
    ensures BestReached(k, z, passed) <==> Flawless(k, z, passed)
  {
  }

  lemma TheRest(k: Case, z: Situation, passed: nat)
    ensures SoftFailed(z, passed) <==> Lost(z)
    ensures RecoveryReached(z, passed) <==> Retrieved(z)
    ensures AccusationReached(k, z, passed) <==> Exposed(k, z)
  {
  }

  /** The verdict on every situation. */
  lemma VerdictExactly(k: Case, z: Situation, passed: nat)
    ensures Evaluate(k, z, passed) ==
      if Flawless(k, z, passed) then BestOutcome
      else if Lost(z) then SoftFail
      else if Retrieved(z) then RecoverySuccess
      else if Exposed(k, z) then AccusationSuccess
      else InProgress
    ensures Flawless(k, z, passed) ==> !Lost(z)
  {
    BestIsFlawless(k, z, passed);
    TheRest(k, z, passed);
  }

  lemma FlawlessLatched(k: Case, z: Situation)
    ensures BestReached(k, LatchSoftFail(z), 0) <==> Flawless(k, z, 0)
  {
    BestIsFlawless(k, LatchSoftFail(z), 0);
    TheRest(k, z, 0);
  }

  /** A latch adds exactly these flags, and takes the medallion out of sight when the case is lost without it. */
  lemma LatchExactly(k: Case, z: Situation)
    ensures Latch(k, z) == z.(
      outcomes := z.outcomes
        + (if Lost(z) then {SoftFailLatched, ItemLeftBuilding, ItemLeavesBuilding, RelationshipPenalty} else {})
        + (if Flawless(k, z, 0)
           then {BestOutcomeAwarded, ContinuityQuietRecovery, ContinuityNoEscalation, ContinuityStrongTrust} else {}),
      objects := if Lost(z) && z.objects.status != Recovered then z.objects.(status := Missing, place := UnknownPlace)
                 else z.objects)
  {
    TheRest(k, z, 0);
    FlawlessLatched(k, z);
    hide BestReached, SoftFailed, Flawless;
  }

  /** The confrontation can be held once the last scene is open or past and Elodie trusts enough. */
  predicate MayConfront(k: Case, r: D.Runtime, npcs: Npcs) {
    && (S5 in r.surfaced || (S5 in r.completion && r.completion[S5] in {D.Completion.Available, D.InProgress, D.Completed}))
    && Elodie in npcs && npcs[Elodie].trust >= (if k.ally in {AllyMarc, AllyElodie} then 0.3 else 0.4)
  }

  /**
   A recovery whose checks pass takes the medallion and, unless it is quiet, escalates in
   public; any other changes nothing.
   */
  lemma RecoverExactly(k: Case, z: Situation, r: D.Runtime, quiet: bool)
    ensures Recover(k, z, r, quiet) ==
      if MayConfront(k, r, z.npcs) && N8 in z.progress.facts && MethodTrace in Items(z.progress)
      then (Done, z.(
        progress := z.progress.(actions := z.progress.actions + if z.objects.status == Recovered then {} else {RecoverMedallion}),
        objects := if z.objects.status == Recovered then z.objects else z.objects.(status := Recovered, place := PlayerInventory),
        outcomes := z.outcomes + if quiet then {} else {PublicEscalation}))
      else (Blocked, z)
  {
    var v := Escalate(TakeMedallion(z), !quiet);
    TheRest(k, v, 0);
    assert z.outcomes + {} == z.outcomes && z.progress.actions + {} == z.progress.actions;
    hide RecoveryReached, SoftFailed, AccusationReached;
  }

  /**
   An accusation that names a suspect where the confrontation can be held: the wrong name
   is always recorded, the right one with the proof in hand; in public it escalates.
   */
  lemma AccuseExactly(k: Case, z: Situation, r: D.Runtime, accused: Option<Culprit>, public: bool)
    ensures AccuseSomeone(k, z, r, accused, public) ==
      if accused.None? then (Invalid, z)
      else if !MayConfront(k, r, z.npcs) then (Blocked, z)
      else if accused.value == k.culprit
              && !({N3, N4, N5} <= z.progress.facts && CafeReceipt in Items(z.progress) && StateContradiction in Deeds(z))
      then (Blocked, z)
      else (Done, z.(
        progress := z.progress.(actions := z.progress.actions
                                + {if accused.value == k.culprit then Accuse(k.culprit) else WrongAccusation}),
        outcomes := z.outcomes + if public then {PublicEscalation} else {}))
  {
    TheRest(k, Escalate(Charge(z, Accuse(k.culprit)), public), 0);
    TheRest(k, Escalate(Charge(z, WrongAccusation), public), 0);
    assert z.outcomes + {} == z.outcomes;
    hide RecoveryReached, SoftFailed, AccusationReached;
  }

  /** When a recovery that goes through is the best outcome: quietly made, with all the rest in place. */
  lemma BestRecovery(k: Case, z: Situation, r: D.Runtime, quiet: bool, passed: nat)
    requires Recover(k, z, r, quiet).0 == Done
    ensures Evaluate(k, Latch(k, Recover(k, z, r, quiet).1), passed) == BestOutcome <==>
      && quiet && PublicEscalation !in z.outcomes && PublicAccusation !in Deeds(z) && WrongAccusation !in Deeds(z)
      && N3 in z.progress.facts && N4 in z.progress.facts && CafeReceipt in Items(z.progress)
      && StateContradiction in Deeds(z) && Accuse(k.culprit) in Deeds(z) && PoliteGateUsage in Deeds(z)
      && (FrenchSummaryTwice in Deeds(z) || passed >= 2)
      && Likes(z, Elodie, ElodiePositive) && Likes(z, Marc, MarcPositive)
  {
    hide Latch, Evaluate, CanConfront, MayConfront, Recover;
    var v := Recover(k, z, r, quiet).1;
    RecoverExactly(k, z, r, quiet);
    LatchKeepsVerdict(k, v, passed);
    VerdictExactly(k, v, passed);
  }

  /** An attempt that passes its checks always completes; none is left half done. */
  lemma AttemptsComplete(k: Case, z: Situation, r: D.Runtime, quiet: bool, accused: Option<Culprit>, public: bool)
    ensures Recover(k, z, r, quiet).0 == Done <==>
      CanConfront(k, r, z.npcs) && N8 in z.progress.facts && MethodTrace in Items(z.progress)
    ensures Recover(k, z, r, quiet).0 == Blocked ==> Recover(k, z, r, quiet).1 == z
    ensures AccuseSomeone(k, z, r, accused, public).0 != Done ==> AccuseSomeone(k, z, r, accused, public).1 == z
    ensures accused.Some? && accused.value != k.culprit && CanConfront(k, r, z.npcs) ==>
      SoftFailed(AccuseSomeone(k, z, r, accused, public).1, 0)
  {
  }

  /** Latching a situation, soft failure or best outcome included, changes no verdict on it. */
  lemma LatchKeepsVerdict(k: Case, z: Situation, passed: nat)
    ensures Evaluate(k, Latch(k, z), passed) == Evaluate(k, z, passed)
  {
    LatchKeeps(k, z);
  }

  /** A recovery that goes through wins the case, unless somebody was wrongly accused before. */
  lemma RecoveryDecides(k: Case, z: Situation, r: D.Runtime, quiet: bool, passed: nat)
    requires Recover(k, z, r, quiet).0 == Done
    ensures Evaluate(k, Latch(k, Recover(k, z, r, quiet).1), passed)
      in if WrongAccusation in z.progress.actions + z.extra then {SoftFail} else {RecoverySuccess, BestOutcome}
  {
    hide Latch, BestReached, CanConfront;
    LatchKeepsVerdict(k, Recover(k, z, r, quiet).1, passed);
    NeverBoth(k, Recover(k, z, r, quiet).1, passed);
  }

  /**
   An accusation that goes through loses the case with the wrong name.  With the right one
   it wins, unless the case was lost before; a recovery outranks it.
   */
  lemma AccusationDecides(k: Case, z: Situation, r: D.Runtime, accused: Option<Culprit>, public: bool, passed: nat)
    requires AccuseSomeone(k, z, r, accused, public).0 == Done
    ensures var verdict := Evaluate(k, Latch(k, AccuseSomeone(k, z, r, accused, public).1), passed);
      if accused != Some(k.culprit) || SoftFailed(z, passed) then verdict == SoftFail
      else if RecoveryReached(z, passed) then verdict in {RecoverySuccess, BestOutcome}
      else verdict in {AccusationSuccess, BestOutcome}
  {
    hide Latch, BestReached, CanConfront;
    LatchKeepsVerdict(k, AccuseSomeone(k, z, r, accused, public).1, passed);
    NeverBoth(k, AccuseSomeone(k, z, r, accused, public).1, passed);
  }

  /**
   A timeout is not final: a recovery whose checks pass lifts the soft failure, latched or
   not, exactly when nobody has been wrongly accused.
   */
  lemma LateRecovery(k: Case, z: Situation, r: D.Runtime, quiet: bool, passed: nat)
    requires CanConfront(k, r, z.npcs) && N8 in z.progress.facts && MethodTrace in Items(z.progress)
    ensures SoftFailed(Latch(k, Recover(k, z, r, quiet).1), passed) <==> WrongAccusation in z.progress.actions + z.extra
  {
    LatchKeeps(k, Recover(k, z, r, quiet).1);
  }
}
