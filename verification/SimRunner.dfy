/** `SimRunner`'s case methods as they run, each one step of the case. */
module Runner {
  import opened Json
  import opened Timeline
  import opened CaseRules
  import D = Dialogue
  import opened Investigation
  import opened Outcome
  import opened CaseRun

  /** `SimRunner`'s case fields, reassigned by its methods; each method is one step. */
  class SimRunner {
    const setup: Setup
    var tickIndex: nat
    var cast: Timeline.Run
    var objects: Objects
    var progress: Progress
    var runtime: D.Runtime
    var log: seq<LogEntry>
    var actionFlags: set<Action>
    var relationshipFlags: set<Relationship>
    var outcomeFlags: set<OutcomeFlag>
    var terminalGranted: bool

    ghost function Now(): State
      reads this
    {
      State(tickIndex, cast, objects, progress, runtime, log, actionFlags, relationshipFlags, outcomeFlags, terminalGranted)
    }

    constructor (u: Setup)
      requires AllCast(u.npcs)
      ensures setup == u && Now() == Start(u)
    {
      setup := u;
      tickIndex, log, terminalGranted := 0, [], false;
      actionFlags, relationshipFlags, outcomeFlags := {}, {}, {};
      objects, progress := Archive(InitialObjects(u.k), 0.0), InitialProgress();
      runtime := D.Initial(STARTING_FACTS);
      cast := Timeline.Run(u.npcs, {});
      new;
      var started := ApplyCaseTimeline(setup.k.schedule, cast, 0.0);
      cast := started;
      SettleOutcome(0.0);
    }

    // `_apply_case_outcome_branch_transitions`.
    method SettleOutcome(elapsed: real)
      modifies this`objects, this`outcomeFlags
      ensures Now() == Settle(setup, old(Now()), elapsed)
    {
      var z := Latch(setup.k, Situation(progress, objects, cast.npcs, elapsed, actionFlags, relationshipFlags, outcomeFlags));
      LatchKeeps(setup.k, SituationOf(Now(), elapsed));
      objects, outcomeFlags := z.objects, z.outcomes;
    }

    // The same, for a state known by name.
    method SettleNow(elapsed: real, ghost w: State)
      requires Now() == w
      modifies this`objects, this`outcomeFlags
      ensures Now() == Settle(setup, w, elapsed)
    {
      SettleOutcome(elapsed);
    }

    method RecordCaseActionFlags(flags: set<Action>)
      modifies this`actionFlags
      ensures Now() == Next(setup, old(Now()), RecordActions(flags))
    {
      actionFlags := actionFlags + flags;
    }

    method RecordCaseRelationshipFlags(flags: set<Relationship>)
      modifies this`relationshipFlags
      ensures Now() == Next(setup, old(Now()), RecordRelationships(flags))
    {
      relationshipFlags := relationshipFlags + flags;
    }

    method RecordCaseOutcomeFlags(flags: set<OutcomeFlag>)
      modifies this`outcomeFlags
      ensures Now() == Next(setup, old(Now()), RecordOutcomes(flags))
    {
      outcomeFlags := outcomeFlags + flags;
    }

    method CurrentPrereqs(cmd: Command) returns (tokens: set<Prereq>)
      ensures tokens == AutoPrereqs(setup, Now(), cmd)
    {
      var s := State(tickIndex, cast, objects, progress, runtime, log, actionFlags, relationshipFlags, outcomeFlags, terminalGranted);
      tokens := AutoPrereqs(setup, s, cmd);
    }

    // The time in force between ticks.
    method ElapsedSeconds() returns (t: real)
      ensures t == Elapsed(setup, Now())
    {
      t := tickIndex as real * setup.dt;
    }

    method CarryOut(cmd: Command, available: set<Prereq>, ghost s: State) returns (x: Execution)
      requires Now() == s
      modifies this`objects, this`progress, this`terminalGranted
      ensures Now() == Search(setup, s, cmd, available)
    {
      hide Investigate, AfterExecution, AutoPrereqs;
      var current := CurrentPrereqs(cmd);
      var elapsed := ElapsedSeconds();
      x := Investigate(setup.k, cmd, objects, elapsed, available + current);
      assert x == Investigate(setup.k, cmd, s.objects, Elapsed(setup, s), available + AutoPrereqs(setup, s, cmd));
      objects := x.objects;
      progress := AfterExecution(progress, cmd, x);
      terminalGranted := terminalGranted || (cmd.what == RequestTerminal && x.ack == Success);
    }

    method SubmitInvestigationCommand(cmd: Command, available: set<Prereq>) returns (x: Execution)
      modifies this
      ensures Now() == Next(setup, old(Now()), InvestigateStep(cmd, available))
    {
      hide Search, Settle;
      ghost var s := Now();
      var elapsed := ElapsedSeconds();
      x := CarryOut(cmd, available, s);
      SettleNow(elapsed, Search(setup, s, cmd, available));
    }

    method SubmitContradictionEdge(e: Edge) returns (verdict: Verdict)
      modifies this
      ensures Now() == Next(setup, old(Now()), ContradictStep(e))
    {
      hide Settle, Contradict;
      ghost var s := Now();
      var elapsed := ElapsedSeconds();
      var (v, after) := Contradict(progress, e);
      verdict := v;
      if verdict in {Recorded, AlreadyKnown} {
        progress := after;
        SettleNow(elapsed, s.(progress := after));
      }
    }

    method Adopt(after: Situation, ghost s: State)
      requires Now() == s
      modifies this`progress, this`objects, this`outcomeFlags
      ensures Now() == WithSituation(s, after)
    {
      progress, objects, outcomeFlags := after.progress, after.objects, after.outcomes;
    }

    method CurrentSituation(elapsed: real) returns (z: Situation)
      ensures z == SituationOf(Now(), elapsed)
    {
      z := Situation(progress, objects, cast.npcs, elapsed, actionFlags, relationshipFlags, outcomeFlags);
    }

    method AttemptCaseRecovery(quiet: bool) returns (attempt: Attempt)
      modifies this
      ensures Now() == Next(setup, old(Now()), RecoverStep(quiet))
    {
      hide Recover, Settle, WithSituation, SituationOf;
      ghost var s := Now();
      var elapsed := ElapsedSeconds();
      var z := CurrentSituation(elapsed);
      var tried := Recover(setup.k, z, runtime, quiet);
      attempt := tried.0;
      Adopt(tried.1, s);
      SettleNow(elapsed, WithSituation(s, tried.1));
    }

    method AttemptCaseAccusation(accused: Option<Culprit>, public: bool) returns (attempt: Attempt)
      modifies this
      ensures Now() == Next(setup, old(Now()), AccuseStep(accused, public))
    {
      hide AccuseSomeone, Settle, WithSituation, SituationOf;
      ghost var s := Now();
      var elapsed := ElapsedSeconds();
      var z := CurrentSituation(elapsed);
      var tried := AccuseSomeone(setup.k, z, runtime, accused, public);
      attempt := tried.0;
      Adopt(tried.1, s);
      SettleNow(elapsed, WithSituation(s, tried.1));
    }

    method CurrentContext(elapsed: real) returns (c: D.Context)
      ensures c == ContextOf(Now(), elapsed)
    {
      c := D.Context(progress.facts, progress.discovered + progress.collected, progress.collected, cast.npcs, elapsed);
    }

    method TakeTurn(q: D.Request, cap: int, ghost s: State) returns (res: D.Result)
      requires Now() == s
      modifies this`runtime, this`progress, this`log, this`cast
      ensures Now() == Talk(setup, s, q, cap)
    {
      hide D.Turn, ContextOf, TurnActions, Passed, Trim, Feel, Deltas;
      var elapsed := ElapsedSeconds();
      var c := CurrentContext(elapsed);
      var (r, after) := D.Turn(setup.k, runtime, q, c);
      res, runtime := r, after;
      var derived := TurnActions(setup, q, res, Passed(log));
      progress := progress.(facts := progress.facts + res.revealed, actions := progress.actions + derived);
      log := Trim(log + [LogEntry(after.turn, q.scene, q.intent, res.status, res.code, res.summaryPassed)], cap);
      cast := cast.(npcs := Feel(cast.npcs, q.npc, Deltas(q.intent, res.status, res.code)));
    }

    method SubmitDialogueTurn(q: D.Request, cap: int) returns (res: D.Result)
      modifies this
      ensures Now() == Next(setup, old(Now()), TalkStep(q, cap))
    {
      hide Talk, Settle;
      ghost var s := Now();
      var elapsed := ElapsedSeconds();
      res := TakeTurn(q, cap, s);
      SettleNow(elapsed, Talk(setup, s, q, cap));
    }

    method LetPass(elapsed: real, ghost s: State)
      requires Now() == s && AllCast(cast.npcs)
      modifies this`cast, this`objects
      ensures Now() == Passing(setup, s, elapsed) && AllCast(cast.npcs)
    {
      var after := ApplyCaseTimeline(setup.k.schedule, cast, elapsed);
      PlayKeys(cast.npcs, Due(setup.k.schedule, elapsed, cast.applied));
      cast := after;
      objects := Archive(objects, elapsed);
    }

    method RunTicks(n: nat)
      requires AllCast(cast.npcs)
      modifies this
      ensures Now() == Playthrough(setup, old(Now()), seq(n, _ => TickStep))
    {
      ghost var steps := seq(n, (_: int) => TickStep);
      for i := 0 to n
        invariant AllCast(cast.npcs)
        invariant Playthrough(setup, Now(), steps[i..]) == Playthrough(setup, old(Now()), steps)
      {
        assert steps[i..][0] == TickStep && steps[i..][1..] == steps[i + 1..];
        RunTick();
      }
      assert steps == seq(n, _ => TickStep);
    }

    method RunTick()
      requires AllCast(cast.npcs)
      modifies this
      ensures Now() == Next(setup, old(Now()), TickStep) && AllCast(cast.npcs)
    {
      hide Settle, Passing;
      ghost var s := Now();
      var elapsed := (tickIndex + 1) as real * setup.dt;
      assert elapsed == NextElapsed(setup, s);
      LetPass(elapsed, s);
      SettleNow(elapsed, Passing(setup, s, elapsed));
      ghost var settled := Now();
      tickIndex := tickIndex + 1;
      assert Now() == Ticked(settled);
    }
  }
}
