# Verification of the simulation back end

A Dafny model of four parts of the back end, with proofs that hold for every input,
every run and every interleaving.  Code made of expressions is modelled by datatypes and
functions; code that changes state step by step is modelled by methods and classes, each
proved to compute such a function, and the properties are proved of the functions.

`dafny verify dfyconfig.toml` checks everything.

**The KVP record pipeline.**  `Json` holds JSON values with exact decimals, negative zero
included.  `Jcs` is the canonical printer, `Canonical` the canonicalizer, `DiffOps` the
differ and the op interpreter, `DiffRun` both as they run, `DiffExact`, `RoundTrip` and
`OpOrder` their laws.  `Rfc8785` is the canonical form of that RFC and says where the printer departs from
it.  `Manifests` builds and validates manifests, `Records` is the hash chain of snapshots
and diffs over any state and any hash, and `Export` puts the real printer, differ and
manifest into it.  `Ordering` and `KeyedLists` are the sorting these share.

**The ECS archetype store.**  `Storages` is one storage with its swap-removal, `Ecs` the
world as a value with its invariant (`WorldOk`), `EcsRuns` runs of calls and command
batches, `Queries` the query, and `EcsWorld` the mutable classes.

**The MBAM case.**  `CaseRules` holds the generated tables, `Timeline` the cast's schedule,
`Dialogue` the scene runtime, `Investigation` objects, evidence and contradictions,
`Outcome` evaluation, latching and attempts.  `CaseRun` makes every `SimRunner` method and
every tick a step and proves what holds over whole plays, `CaseHistory` says which steps
bring about everything a play ends up with, `CaseClock` ties the schedule to
the clock, and `SimRunner` (module `Runner`) is the mutable runner.

**The live session cursor.**  `LiveSessions` treats each stretch of host code between two
suspension points as one step of any session, and `LiveHost` is the mutable host.

## What the proofs found

- The printer is not RFC 8785's in three ways.  It sorts keys by code point where section
  3.2.3 asks for UTF-16 units, prints negative zero as `-0`, and never uses an exponent where
  section 3.2.2.3 does.  `Rfc8785.Conformance` says exactly for which values the two texts
  agree: no object has two keys whose first difference is a character beyond U+FFFF against
  one in U+E000 to U+FFFF, and every number is zero without a sign or lies between a millionth
  and below ten to the twenty-first.  `Rfc8785.LetterBeforeEmoji` and `Rfc8785.OnlyMinusZero`
  are inputs that differ.  The text is uniquely decodable all the same
  (`Jcs.SameTextSameValue`).
- The differ compares with Python's `==`, which takes `True` for `1` and `-0.0` for `0`.
  Such a change leaves no op behind (`RoundTrip.SignOfZeroAndBooleansAreLost`), and a world
  that becomes null is deleted instead (`RoundTrip.NullWorldIsLost`).
  `RoundTrip.DiffRoundTrip` gives the exact condition for the round trip.
- A change to `learning`, `debug` or any other field no op covers makes reconstruction raise
  instead of returning a wrong state (`Export.UncoveredChangeIsCaught`).
- The placeholder checksums of a draft miss the start tick when keyframes are listed without
  it (`Manifests.DraftCovers`).
- With no keyframe policy the builder stores snapshots no reader can derive
  (`Manifests.BuiltValidates`).
- Every scene requires a summary, so an accusing or farewell intent is never accepted in
  dialogue (`Dialogue.NeverAccepted`).
- A summary may count one fact twice.  A passed summary names too few different facts in
  exactly one case, the strict last scene with nothing but N8, repeated
  (`Dialogue.RepetitionCounts`, `Dialogue.PassedRepetition`), and such a turn exists
  (`Dialogue.RepeatedKeyFactPasses`).
- Validating an investigation command without executing it teaches its facts
  (`Investigation.LessonsExact`).  It teaches more than executing would in exactly one case:
  the terminal or its logs are asked for and may be, the logs are archived without an
  override, and their fact is unknown (`Investigation.ValidatingTeachesMore`).
- The scene prerequisites of a search are met in every state a play can reach, so they never
  hold one back (`CaseHistory.PrereqsExactly`).
- The flag for two passed summaries is read off the kept log.  Uncapped, two are enough;
  with a short log the first may be forgotten (`CaseHistory.SummingUpTwice`,
  `CaseHistory.ShortLogForgets`).
- The twenty-minute soft failure is not final: a late recovery lifts it unless somebody has
  been wrongly accused (`Outcome.LateRecovery`).
- Two live sessions on one run stop each other: the one that is out of step fails only
  after it has moved the run, so then neither streams again
  (`LiveSessions.FailureStopsAll`).

## Model

| member | source | states |
|---|---|---|
| Jcs.EscapeInjective | backend/sim4/integration/jcs.py:24-46 | A quoted string determines the string and where it ends, whatever text follows |
| Jcs.FractionShape | backend/sim4/integration/jcs.py:49-72 | A negative exponent prints as digits, a point, and exactly as many places as the exponent asks for, the digits padded with zeros in front |
| Jcs.NumberInjective | backend/sim4/integration/jcs.py:49-84 | No two decimals print alike, even with a delimiter and any text behind them |
| Jcs.EncodeInjective | backend/sim4/integration/jcs.py:87-109 | Unique decodability: the text of a value followed by any text that does not extend a number determines both the value and the rest |
| Jcs.SameTextSameValue | backend/sim4/integration/jcs.py:87-118 | Two values have the same canonical text if and only if they are equal |
| Jcs.EscapeStr | backend/sim4/integration/jcs.py:24-46 | The appending loop yields the quoted string |
| Jcs.EncodeObject | backend/sim4/integration/jcs.py:96-108 | The object case gives the same text for every insertion order of the keys |
| Rfc8785.ContraryMeans | backend/sim4/integration/jcs.py:103-108 | Contrary keys are those whose first difference pairs a character beyond U+FFFF with one in U+E000 to U+FFFF |
| Rfc8785.OrdersDisagree | backend/sim4/integration/jcs.py:103-108 | Code-point and UTF-16 order disagree on two keys if and only if these are contrary |
| Rfc8785.KeyListsAgree | backend/sim4/integration/jcs.py:96-108 | The sorted key lists agree if and only if no two keys of the object are contrary |
| Rfc8785.KeysTurnedRound | backend/sim4/integration/jcs.py:96-108 | Any two contrary keys are printed the other way round |
| Rfc8785.LetterBeforeEmoji | backend/sim4/integration/jcs.py:96-108 | An object with two keys the encoder prints the other way round |
| Rfc8785.NumberAgrees | backend/sim4/integration/jcs.py:49-84 | A number prints as ECMAScript would if and only if it is zero without a sign or in the plain range |
| Rfc8785.OnlyMinusZero | backend/sim4/integration/jcs.py:49-72 | Negative zero, and no other number, prints as `-0` |
| Rfc8785.PlainRange | backend/sim4/integration/jcs.py:49-72 | The plain range is from 10^-6 to below 10^21, for every decimal and scale |
| Rfc8785.StringAgrees | backend/sim4/integration/jcs.py:24-46 | Every string prints as section 3.2.2.2 of the RFC has it: the two-character escapes, lower-case `\u00xx` for the other controls, every other character as it is |
| Rfc8785.Conformance | backend/sim4/integration/jcs.py:87-109 | The encoder's text of a value is the RFC's, whose literals, strings, numbers and key order are all written out anew, if and only if every number in it, at any depth, and the keys of every object conform |
| Canonical.RoundsHalfUp | backend/sim4/integration/canonicalize.py:25-36 | Quantizing takes the nearest thousandth of the magnitude, a half going away from zero, and keeps the sign |
| Canonical.QuantizeIsClose | backend/sim4/integration/canonicalize.py:25-36 | A number moves by at most 0.0005 |
| Canonical.QuantizeIsMonotone | backend/sim4/integration/canonicalize.py:25-36 | Quantization never reverses the order of two numbers |
| Canonical.QuantizeIdempotent | backend/sim4/integration/canonicalize.py:39-58 | Quantizing a quantized value changes nothing at any depth |
| Canonical.QuantizedEverywhere | backend/sim4/integration/canonicalize.py:39-58 | Down every path into a value the number there is rounded, and everything else, shapes and keys included, is as it was |
| Canonical.CanonicalizeIdempotent | backend/sim4/integration/canonicalize.py:117-145 | Canonicalizing twice is canonicalizing once |
| Canonical.ListsInOrder | backend/sim4/integration/canonicalize.py:75-145 | Each of the five canonical lists holds exactly the quantized items, and each item comes before all that follow or has the same key: by id, events by tick and then by event id, texts by their first difference |
| Canonical.TheRestIsQuantized | backend/sim4/integration/canonicalize.py:117-145 | Every other field is quantized and nothing more |
| Canonical.WholeIds | backend/sim4/integration/canonicalize.py:95-117 | A number identifies by its value, whatever its coefficient and exponent, and only if that is whole |
| Canonical.IdsExactly | backend/sim4/integration/canonicalize.py:88-117 | What identifies an item is a text as it stands or a whole number under its id field, and nothing else |
| Canonical.CanonicalizeForgetsOrder | backend/sim4/integration/canonicalize.py:95-145 | States that differ in the order of the five lists, with integer or string keys that identify items, have one canonical form |
| Canonical.CanonicalizeStateObj | backend/sim4/integration/canonicalize.py:117-145 | The method that copies, quantizes and sorts list after list returns that form, and raises exactly when some list holds ids, integers or strings, that cannot be compared |
| KeyedLists.ListOfIndex | backend/sim4/integration/diff_ops.py:44-59 | Listing the index of a sorted list with unique keys gives the list back |
| DiffOps.PatchExact | backend/sim4/integration/diff_ops.py:95-118 | One group's removals and upserts turn the old index into the new one exactly when no change hides from `==` |
| DiffExact.PyEqMeans | backend/sim4/integration/diff_ops.py:78-93 | Python's `==` on JSON values in its own terms: numbers by value with one zero, truth values as one and zero, lists item by item, dictionaries key by key |
| DiffExact.OpsExactly | backend/sim4/integration/diff_ops.py:62-170 | Whatever the two states, the differ computes an op if and only if they call for it: the world or a field differs, a key is gone, or an item is new or differs |
| DiffExact.OpsInTurn | backend/sim4/integration/diff_ops.py:62-170 | The ops come in one order: the world, the six fields, then group by group removals before upserts, each by ascending keys |
| DiffExact.DiffSucceeds | backend/sim4/integration/diff_ops.py:44-118 | The differ fails exactly when some list cannot be indexed or keys it has to sort cannot be compared |
| DiffExact.IndexedExactly | backend/sim4/integration/diff_ops.py:44-59 | A list has an index if and only if it is absent or all its items have ids, and the error tells a field that is no list from an item without id |
| DiffExact.FiledUnder | backend/sim4/integration/diff_ops.py:28-59 | Items are filed under their id, events under tick and event id, both whole numbers |
| DiffRun.DiffGroup | backend/sim4/integration/diff_ops.py:95-118 | The loops over removed and then changed keys produce the group's ops in key order |
| DiffRun.ComputeStateDiffOps | backend/sim4/integration/diff_ops.py:62-170 | The whole differ as it runs is the function the laws are about, errors included |
| DiffRun.ApplyStateDiffOps | backend/sim4/integration/diff_ops.py:173-300 | Opening the dictionaries, running op after op and rebuilding the lists is the function the laws are about, errors included |
| RoundTrip.DiffRoundTrip | backend/sim4/integration/diff_ops.py:62-300 | On canonical states whose items have comparable ids, integers or strings, neither call fails, and applying the computed ops to the source gives the target if and only if the pair is faithful: every field's change is one the ops can carry |
| RoundTrip.FieldRoundTrip | backend/sim4/integration/diff_ops.py:62-300 | Each field by itself comes out as the target's if and only if it survives, whatever happens to the others |
| RoundTrip.UncoveredIsKept | backend/sim4/integration/kvp_state_history.py:143-158 | A field without ops, such as `learning` or `debug`, keeps the source's value |
| RoundTrip.SameShapeIsFaithful | backend/sim4/integration/diff_ops.py:62-170 | States of one key set with unique ids that agree on uncovered fields and differ visibly are faithful |
| RoundTrip.SignOfZeroAndBooleansAreLost | backend/sim4/integration/diff_ops.py:78-93 | Concrete pairs, zero's sign and true against one, on which the round trip fails |
| RoundTrip.NullWorldIsLost | backend/sim4/integration/diff_ops.py:78-93 | A world set to null does not survive the round trip |
| OpOrder.DiffTargets | backend/sim4/integration/diff_ops.py:95-170 | No two computed ops name the same key of the same group or the same field |
| OpOrder.AppliesIfSound | backend/sim4/integration/diff_ops.py:190-300 | An op fails exactly when it sets a null world or brings in a null item or one without id |
| OpOrder.OpOrderIrrelevant | backend/sim4/integration/diff_ops.py:173-300 | Every permutation of the computed ops applies to the same result |
| Manifests.PathsDistinct | backend/sim4/host/sim_runner.py:1006-1025 | Snapshot and diff paths are pairwise distinct for all ticks, those with more than ten digits and negative ones included |
| Manifests.TickTextReads | backend/sim4/host/sim_runner.py:1006-1025 | The tick in a path has ten characters, or more without padding, and its digits read back as the tick |
| Manifests.IntTextReads | backend/sim4/host/sim_runner.py:1006-1035 | The tick in a pointer's id reads back as the tick, signed only where negative and never padded |
| Manifests.EveryAt | backend/sim4/host/sim_runner.py:999-1004 | The interval policy lists start + i * interval for exactly the i that fit |
| Manifests.IntervalTicks | backend/sim4/host/sim_runner.py:999-1004 | The `while` loop computes that list |
| Manifests.KeyframesAscend | backend/sim4/host/sim_runner.py:985-1004 | Under every policy the keyframes ascend strictly inside the window, and the first is the start tick |
| Manifests.KeyframesExactly | backend/sim4/host/sim_runner.py:985-1004 | A tick is a keyframe if and only if it is the start or a listed tick inside the window, or without a list a whole number of intervals after the start and not after the end |
| Manifests.BuildManifest | backend/sim4/host/sim_runner.py:964-1058 | The builder as it runs computes the manifest the laws are about, refusing two policies at once and bad checksums, and keeping checksums in lower case |
| Manifests.DeriveKeyframeTicks | backend/sim4/integration/manifest_schema.py:433-445 | Deriving keyframes from the policy as it runs, both error cases included |
| Manifests.BuiltFields | backend/sim4/host/sim_runner.py:1006-1058 | A built manifest's records are exactly those of its keyframes and transitions, and a reader derives the same keyframes |
| Manifests.PointersTell | backend/sim4/host/sim_runner.py:1006-1035 | There is a snapshot pointer for exactly the keyframes and a diff pointer for exactly the transitions, each with its id, path, type and ticks and no checksum of its own |
| Manifests.BuiltValidates | backend/sim4/integration/manifest_schema.py:447-483 | A built manifest passes `validate` if and only if the window is one, a policy was given, and the checksums cover every record |
| Manifests.DraftIsBuilt | backend/sim4/host/sim_runner.py:1061-1089 | With the placeholder checksums the draft is built, whatever the window, if and only if a channel is known and not both policies are given |
| Manifests.DraftCovers | backend/sim4/host/sim_runner.py:1061-1089 | The placeholders cover every record of the draft if and only if the listed keyframes, if there are any, include the start |
| Manifests.HexMeans | backend/sim4/integration/manifest_schema.py:280-291 | A checksum is sixty-four hexadecimal digits of either case, and lowering changes its capitals alone |
| Records.NearestIs | backend/sim4/integration/export_verify.py:31-34 | The chosen keyframe is the greatest not after the target, and there is none exactly when all are after it |
| Records.ExportHolds | backend/sim4/integration/export_state.py:100-184 | Export fails nowhere when states and transitions can be computed, and afterwards every snapshot and diff is in the store with chained hashes |
| Records.ReplayExact | backend/sim4/integration/export_verify.py:99-112 | Replaying exact transitions from a tick's state arrives at the target's state |
| Records.ReplayOnlyExact | backend/sim4/integration/export_verify.py:60-112 | With a collision-free hash a replay that raises nothing went through exact transitions only |
| Records.ReconstructExported | backend/sim4/integration/export_verify.py:82-112 | After an export every tick of the window reads back as itself if the transitions since its keyframe are exact, and with a collision-free hash only then |
| Records.ReconstructMatchesHash | backend/sim4/integration/export_verify.py:45-112 | Over any store, a returned state has the step hash the store keeps for that tick |
| Records.TamperEvident | backend/sim4/integration/export_verify.py:45-112 | If the kept hash is right and collision-free, any change elsewhere in the store gives the right state or an error |
| Records.ReconstructCertifies | backend/sim4/integration/export_verify.py:31-112 | Over any store, reconstruction returns a state if and only if the tick is in the window and there is an unbroken chain to it: a keyframe record and then one diff record a tick, each of the right kind, version and ticks, with a right hash and the hash before it, and each patch leading to the next state |
| Records.FaultsExactly | backend/sim4/integration/export_verify.py:45-79 | Which error a bad record gives: a wrong form first, then a broken chain, a patch that fails, a wrong hash, a wrong tick |
| Records.NoWayIn | backend/sim4/integration/export_verify.py:82-97 | Which error an unreachable tick gives: outside the window, no policy, no keyframe before it, or its record missing |
| Records.ChecksumsCover | backend/sim4/host/sim_runner.py:1092-1100 | The computed checksums pass the integrity rules and name every record |
| Records.ExportSnapshots | backend/sim4/integration/export_state.py:113-135 | The snapshot loop writes the snapshots and remembers exactly their hashes |
| Records.DiffEnvelope | backend/sim4/integration/export_state.py:58-77 | A diff record links the remembered hash of its tick to the hash of the next |
| Records.ExportStateRecords | backend/sim4/integration/export_state.py:100-184 | The exporter's two loops compute the export function, errors included |
| Records.ReconstructStateAtTick | backend/sim4/integration/export_verify.py:82-112 | The replay loop over current state, hash and tick computes the reconstruction function, errors included |
| Export.RecordedTransition | backend/sim4/integration/export_state.py:146-184 | The transition of two recorded states can always be computed, and is exact if and only if the pair is faithful |
| Export.StepHashCollisionFree | backend/sim4/integration/export_state.py:47-57 | Since the canonical text determines the state, an injective digest gives a collision-free step hash |
| Export.ExportThenReconstruct | backend/sim4/integration/export_verify.py:82-112 | Under every keyframe policy exporting a recorded run raises nothing, and every tick reads back as its canonical state if the transitions since its keyframe are faithful, and with an injective digest only then |
| Export.OneShapeReadsBack | backend/sim4/integration/export_verify.py:82-112 | In a run whose states share one key set, with unique ids, constant uncovered fields and visible changes, every tick reads back under every policy |
| Export.UncoveredChangeIsCaught | backend/sim4/integration/kvp_state_history.py:143-158 | Reading past a change to an uncovered field raises |
| Export.RebuiltValidates | backend/sim4/host/sim_runner.py:925-948 | The manifest rebuilt with the checksums of what was exported validates |
| Export.OfflineArtifacts | backend/sim4/host/sim_runner.py:881-954 | Draft with placeholder checksums, export, checksums, final manifest: with a known channel and at most one policy, every hundredth tick by default, nothing raises on a recorded run, the final manifest validates and every faithful tick reads back under it |
| Storages.NormalForm | backend/sim4/ecs/archetype.py:8-59 | A signature is the ascending list of its set of codes, and adding or removing a code gives that of the new set |
| Storages.AddRowContents | backend/sim4/ecs/storage.py:48-79 | A new row holds the entity's cells, missing ones empty, and no other row changes |
| Storages.DropRowContents | backend/sim4/ecs/storage.py:81-121 | Swap-removal takes out exactly one entity; all others keep their cells wherever they moved, and index and columns stay aligned |
| Storages.SetCellContents | backend/sim4/ecs/storage.py:137-141 | Overwriting changes one cell of one entity |
| Storages.ArchetypeStorage.AddEntity | backend/sim4/ecs/storage.py:48-79 | In place: the row is appended, or the call raises for an entity already present and changes nothing |
| Storages.ArchetypeStorage.RemoveEntity | backend/sim4/ecs/storage.py:81-121 | In place: the swap-removal, returning the removed values, or raising for an unknown entity |
| Storages.ArchetypeStorage.GetComponentForEntity | backend/sim4/ecs/storage.py:131-135 | The entity's own cell, or an error for an unknown code or entity |
| Storages.ArchetypeStorage.SetComponentForEntity | backend/sim4/ecs/storage.py:137-141 | In place: one cell overwritten, or an error and no change |
| Ecs.CreateCorrect | backend/sim4/ecs/world.py:93-105 | Creating keeps the world invariant, uses an id never alive before, and adds exactly one entity with the last component of each class |
| Ecs.DestroyCorrect | backend/sim4/ecs/world.py:107-126 | Destroying keeps the invariant and removes exactly that entity, correcting the row of the one swapped into its place |
| Ecs.AddCorrect | backend/sim4/ecs/world.py:128-158 | Adding a component, in place or by moving the entity, keeps the invariant and changes that entity's component alone |
| Ecs.RemoveCorrect | backend/sim4/ecs/world.py:160-185 | Removing a component keeps the invariant and takes it from that entity alone |
| Ecs.TouchCorrect | backend/sim4/ecs/world.py:56-65 | Asking for a class's code changes nothing but codes, which stay one to one and are always those from 1 on |
| EcsRuns.RunRefines | backend/sim4/ecs/world.py:93-185 | After any sequence of calls the world is sound, each entity in one storage at the row both indexes say, and equals a plain entity map updated by the same calls |
| EcsRuns.RunsFromNothing | backend/sim4/ecs/world.py:42-54 | From a new world every run equals the plain run from the empty map, and holds only entities whose ids were handed out, in ascending order from 1 |
| EcsRuns.HandedAscends | backend/sim4/ecs/entity.py:28-41 | Over any run the ids handed out ascend strictly, one for each creation, so none comes twice |
| EcsRuns.GoneForGood | backend/sim4/ecs/entity.py:28-68 | An entity once gone stays gone in every continuation |
| EcsRuns.BatchRefines | backend/sim4/ecs/world.py:301-321 | A batch does to the world what it does to the plain map and raises at the same command |
| EcsRuns.ActRuns | backend/sim4/ecs/world.py:323-437 | Each command is a run of the calls its effect lists, and raises without change when the entity is missing where that matters |
| EcsRuns.BatchOrderIrrelevant | backend/sim4/ecs/world.py:301-302 | With distinct sequence numbers the listing order of a batch does not matter |
| EcsRuns.RunsInSequence | backend/sim4/ecs/world.py:301-302 | A batch acts exactly as its commands one after another in the one arrangement that goes up in sequence numbers and keeps equal numbers as listed |
| EcsRuns.AscendingInSequence | backend/sim4/ecs/world.py:301-302 | With distinct numbers that arrangement is the one in ascending numbers |
| EcsRuns.LowerNumberFirst | backend/sim4/ecs/world.py:301-302 | Creating an entity and destroying it in the next number leaves no entity, however the two are listed |
| EcsRuns.CreateByAdds | backend/sim4/ecs/world.py:375-396 | The empty-then-add path of the command and creating with all components at once mean the same |
| Queries.AnswerExact | backend/sim4/ecs/world.py:206-269 | A query's rows are exactly those of the entities with every component read or written and none excluded, once each, in ascending id order, holding the components read, written and optional in that order with empty slots for missing ones |
| Queries.LearnCorrect | backend/sim4/ecs/world.py:206-225 | What a query learns is codes; entities, storages and meaning stay |
| EcsWorld.EntityAllocator.Allocate | backend/sim4/ecs/entity.py:28-41 | In place: returns the next id, marks it alive and moves on |
| EcsWorld.ArchetypeRegistry.GetOrRegister | backend/sim4/ecs/archetype.py:75-84 | In place: a known signature keeps its number, a new one gets the next |
| EcsWorld.ArchetypeRegistry.GetSignature | backend/sim4/ecs/archetype.py:86-95 | The signature at a number, negative indices counting from the end, or an error |
| EcsWorld.ECSWorld.GetTypeCode | backend/sim4/ecs/world.py:56-65 | In place: the class's code, the next one if it has none |
| EcsWorld.ECSWorld.CreateEntity | backend/sim4/ecs/world.py:93-105 | In place, through allocator, registry and storage objects: the pure creation, keeping validity |
| EcsWorld.ECSWorld.DestroyEntity | backend/sim4/ecs/world.py:107-126 | In place: the pure destruction; an unknown id changes nothing |
| EcsWorld.ECSWorld.AddComponent | backend/sim4/ecs/world.py:128-158 | In place: overwrite or move between storage objects; an unknown id changes nothing |
| EcsWorld.ECSWorld.RemoveComponent | backend/sim4/ecs/world.py:160-185 | In place: move to the smaller archetype; an unknown id or missing component changes no entity |
| EcsWorld.ECSWorld.GetComponent | backend/sim4/ecs/world.py:187-195 | The component, or nothing; only codes may be learnt |
| EcsWorld.ECSWorld.HasComponent | backend/sim4/ecs/world.py:197-204 | Whether the entity has the class; only codes may be learnt |
| EcsWorld.ECSWorld.Query | backend/sim4/ecs/world.py:206-269 | The loops over storages and rows return the brute-force answer of the state before, and only codes are learnt |
| EcsWorld.ECSWorld.ApplyCommand | backend/sim4/ecs/world.py:301-321 | In place: one command, or an error |
| EcsWorld.ECSWorld.ApplyBatch | backend/sim4/ecs/world.py:277-321 | In place: the commands in ascending sequence numbers, equal numbers as listed, until one raises |
| Timeline.Clamp | backend/sim4/case_mbam/npc_state.py:250-288 | A value is put on the nearest end of [0,1] when it lies outside and kept otherwise |
| Timeline.DueSplit | backend/sim4/case_mbam/npc_timeline_runtime.py:125-130 | The beats due by a time are those due by an earlier one followed by those that then remain |
| Timeline.SamplingDoesNotMatter | backend/sim4/case_mbam/npc_timeline_runtime.py:114-168 | Any non-decreasing sequence of application times gives the states and applied set of its last time alone |
| Timeline.EachBeatOnce | backend/sim4/case_mbam/npc_timeline_runtime.py:114-168 | However sampled, each due beat takes effect exactly once and in timeline order |
| Timeline.DueByTime | backend/sim4/case_mbam/npc_timeline_runtime.py:125-130 | Due beats are in order of time, and at one time of the first difference of their ids |
| Timeline.ActorsLiveAlone | backend/sim4/case_mbam/npc_timeline_runtime.py:132-168 | One application takes each actor through their own due beats in order, whatever others do, records all due beats and announces the actor's next |
| Timeline.BeatMoves | backend/sim4/case_mbam/npc_state.py:250-288 | What a beat does to its actor: stress by its strain, trust by its cost, both stopping at the ends of [0,1], its flag, the trend, the place, itself and its time |
| Timeline.BeatManners | backend/sim4/case_mbam/npc_timeline_runtime.py:37-93 | Whom each beat makes busy or hard to reach, and in which mood and stance it leaves them |
| Timeline.SamplesInRange | backend/sim4/case_mbam/npc_state.py:250-288 | Trust and stress stay in [0,1] and the cast stays the same |
| Timeline.NextIsEarliest | backend/sim4/case_mbam/npc_timeline_runtime.py:96-111 | The announced next beat is the actor's earliest one still ahead, and there is none exactly when none is ahead |
| Timeline.PlayDue | backend/sim4/case_mbam/npc_timeline_runtime.py:132-155 | The loop over due beats plays them in order and records their ids |
| Timeline.AnnounceNext | backend/sim4/case_mbam/npc_timeline_runtime.py:157-166 | The loop over the cast announces each one's next beat and changes nothing else |
| Timeline.ApplyCaseTimeline | backend/sim4/case_mbam/npc_timeline_runtime.py:114-168 | The application as it runs computes the function the laws are about |
| Dialogue.InitialMachine | backend/sim4/case_mbam/dialogue_runtime.py:299-327 | The initial runtime satisfies the scene machine invariant |
| Dialogue.TurnMachine | backend/sim4/case_mbam/dialogue_runtime.py:700-1174 | Every turn keeps it: surfaced scenes are exactly those not locked, and an active scene is in progress |
| Dialogue.TurnProgress | backend/sim4/case_mbam/dialogue_runtime.py:700-1174 | A turn advances the turn index by one, forgets no fact and no surfaced scene, and reopens no completed scene |
| Dialogue.NeverAccepted | backend/sim4/case_mbam/dialogue_runtime.py:1004-1115 | Accusing and saying goodbye are never accepted |
| Dialogue.PassedMeansAccepted | backend/sim4/case_mbam/dialogue_runtime.py:651-697 | A passed summary belongs to an accepted summarizing turn |
| Dialogue.CompletedBySummary | backend/sim4/case_mbam/dialogue_runtime.py:1000-1174 | A scene is completed only by a passed summary in that scene, with its facts, items, trust and time window met |
| Dialogue.EntryIsGated | backend/sim4/case_mbam/dialogue_runtime.py:329-415 | A scene is entered if and only if the right character is addressed, it is not over, and its facts, items, time window and trust are all met; it is then in progress, active and surfaced with its opening facts, and otherwise nothing changes |
| Dialogue.TurnVerdict | backend/sim4/case_mbam/dialogue_runtime.py:700-1080 | A turn is accepted if and only if it passes six checks of entry and fourteen of the turn, each in terms of the request, the runtime and the context, and is otherwise answered with the status and code of the first one it fails |
| Dialogue.RevealedExactly | backend/sim4/case_mbam/dialogue_runtime.py:505-569 | An accepted turn reveals a fact if and only if scene, intent and evidence can and it is unknown, or its summary unlocks it |
| Dialogue.CompletionDelivers | backend/sim4/case_mbam/dialogue_runtime.py:1081-1174 | A passed summary completes exactly its scene, makes exactly the locked scenes it leads to available and surfaced, ends the active scene and reveals its facts |
| Dialogue.AcceptedGoesOn | backend/sim4/case_mbam/dialogue_runtime.py:1081-1174 | Any other accepted turn leaves its scene in progress and active, adds what it reveals and counts itself, and changes nothing else |
| Dialogue.FinishedExactly | backend/sim4/case_mbam/dialogue_runtime.py:1000-1174 | A turn finishes a scene if and only if it is a summary in that scene that passes every check |
| Dialogue.RejectionTeachesNothing | backend/sim4/case_mbam/dialogue_runtime.py:700-1080 | A turn that is not accepted reveals nothing, and leaves only the scene's entry and the turn count |
| Dialogue.RepetitionCounts | backend/sim4/case_mbam/dialogue_runtime.py:651-697 | A summary that passes names too few different facts if and only if it is in the strict last scene and counts N8 alone; it then repeats a fact |
| Dialogue.PassedRepetition | backend/sim4/case_mbam/dialogue_runtime.py:1000-1080 | The same for every turn that passes, in terms of the state before it |
| Dialogue.RepeatedKeyFactPasses | backend/sim4/case_mbam/dialogue_runtime.py:651-697 | One such turn: a strict last scene passed by a summary naming N8 twice |
| Dialogue.TurnGrounded | backend/sim4/case_mbam/dialogue_runtime.py:505-569 | A turn reveals N8 only where N3, N4 and the receipt are known, and reveals nothing progress will not know |
| Investigation.UnlockableGrows | backend/sim4/case_mbam/investigation_progress.py:107-116 | Knowing more facts never locks a contradiction |
| Investigation.ExecutionLedger | backend/sim4/case_mbam/investigation_progress.py:164-253 | After an investigation step the unlockable edges are exact, no recorded edge is dropped, and the ledger stays sound |
| Investigation.ContradictLedger | backend/sim4/case_mbam/investigation_progress.py:256-340 | Recording succeeds exactly for the one contradiction edge with both facts known, keeps the ledger sound and drops nothing |
| Investigation.ContradictExactly | backend/sim4/case_mbam/investigation_progress.py:256-340 | Verdict and effect of every attempt to state a contradiction: only the one edge with both facts known is recorded, once, with its flag |
| Investigation.ExecutionHidesN8 | backend/sim4/case_mbam/investigation_execution.py:106-120 | No investigation command reveals the hidden fact |
| Investigation.FailureTeachesNothing | backend/sim4/case_mbam/investigation_execution.py:209-537 | A command carried out without success changes no object, adds no evidence and no fact |
| Investigation.LessonsExact | backend/sim4/case_mbam/investigation_progress.py:164-253 | For every command the known facts grow by exactly what its validation and the objects allow, so they change if and only if that holds an unknown fact |
| Investigation.ValidationExactly | backend/sim4/case_mbam/investigation_execution.py:209-260 | A command is invalid, blocked, idle or valid if and only if its kind, what it needs at hand and the object it is about say so |
| Investigation.AcknowledgedExactly | backend/sim4/case_mbam/investigation_execution.py:209-537 | The final answer is that of validation unless the objects get in the way, for a missing medallion or a missing code by blocking, else as idle |
| Investigation.KnownAfter | backend/sim4/case_mbam/investigation_progress.py:164-253 | A command makes a fact known if and only if it is carried out, or for some facts merely validated, and that fact is the one its object or evidence teaches |
| Investigation.EvidenceExactly | backend/sim4/case_mbam/investigation_execution.py:209-537 | Evidence is discovered if and only if a search that turns it up is carried out, and collected if and only if it then comes from the bench or the printer; no search derives a flag |
| Investigation.ObjectsExactly | backend/sim4/case_mbam/investigation_execution.py:78-103 | Each object changes if and only if the command about it was carried out or, for the terminal, the clock has reached minute fifteen |
| Investigation.ValidatingTeachesMore | backend/sim4/case_mbam/investigation_execution.py:209-260 | Validating any command teaches a fact executing it would not if and only if the terminal or its logs are asked for with all that needs, archived and without override, and the fact is unknown |
| Investigation.ValidatingUnlocks | backend/sim4/case_mbam/investigation_execution.py:209-260 | So validating to view archived logs gives their fact, which executing does not |
| Investigation.ExecutionKeepsRecovered | backend/sim4/case_mbam/investigation_execution.py:209-537 | No command changes whether the medallion is recovered |
| Outcome.NeverBoth | backend/sim4/case_mbam/outcome_engine.py:211-298 | No situation reaches the best outcome and the soft failure together |
| Outcome.VerdictExactly | backend/sim4/case_mbam/outcome_engine.py:190-476 | The verdict on every situation: the best outcome if everything it takes is there, listed out, and nobody escalated; else lost by a wrong accusation or the clock; else recovered; else the culprit exposed; else in progress |
| Outcome.LatchKeeps | backend/sim4/case_mbam/completion_flow.py:463-565 | Latching only adds flags, leaves knowledge and recovery alone, and changes no later verdict on soft failure |
| Outcome.LatchIdempotent | backend/sim4/case_mbam/completion_flow.py:463-565 | Latching twice is latching once, in flags and objects |
| Outcome.LatchExactly | backend/sim4/case_mbam/completion_flow.py:463-565 | Latching adds exactly the four flags of a lost case and the four of a flawless one, and takes an unrecovered medallion of a lost case out of sight |
| Outcome.AttemptsComplete | backend/sim4/case_mbam/completion_flow.py:124-445 | A recovery completes exactly when its checks pass, a blocked attempt changes nothing, and a wrong accusation that passes its checks fails the case |
| Outcome.RecoverExactly | backend/sim4/case_mbam/completion_flow.py:124-259 | A recovery whose checks pass takes the medallion and escalates in public exactly when it is not quiet; any other changes nothing |
| Outcome.AccuseExactly | backend/sim4/case_mbam/completion_flow.py:261-445 | An accusation naming a suspect where the confrontation can be held records the wrong name always and the right one with the proof, and escalates exactly when it is public; any other changes nothing |
| Outcome.LatchKeepsVerdict | backend/sim4/case_mbam/completion_flow.py:463-565 | Latching changes no verdict: the latched situation evaluates as the original does |
| Outcome.RecoveryDecides | backend/sim4/case_mbam/outcome_engine.py:365-476 | A recovery that goes through, once latched, evaluates to recovery or best outcome, or to soft failure exactly when somebody was wrongly accused |
| Outcome.BestRecovery | backend/sim4/case_mbam/outcome_engine.py:211-248 | A recovery that goes through is the best outcome if and only if it was quiet, nothing had escalated before, and every other fact, flag and relationship was in place |
| Outcome.AccusationDecides | backend/sim4/case_mbam/outcome_engine.py:365-476 | An accusation that goes through, once latched, loses with the wrong name; with the right one it wins unless the case was lost, and a recovery outranks it |
| Outcome.LateRecovery | backend/sim4/case_mbam/completion_flow.py:124-259 | A recovery after the timeout lifts the soft failure if and only if nobody was wrongly accused |
| CaseRun.NextSound | backend/sim4/host/sim_runner.py:401-638 | No command and no tick breaks the run invariant |
| CaseRun.Reachable | backend/sim4/host/sim_runner.py:401-638 | Every reachable state satisfies it: dialogue reveals only known facts, the contradiction ledger is sound, the scene machine in order |
| CaseRun.Provenance | backend/sim4/case_mbam/dialogue_runtime.py:505-569 | In every reachable state N8, and any reported recovery or best outcome, rests on N3, N4 and the receipt |
| CaseRun.PlayGrows | backend/sim4/host/sim_runner.py:401-638 | Over any run facts, evidence, contradictions, flags, completed scenes and a recovery only grow |
| CaseRun.WrongAccusationIsFinal | backend/sim4/case_mbam/outcome_engine.py:398-454 | Once somebody was wrongly accused every continuation reports soft failure and never reaches the best outcome |
| CaseRun.RecoveryIsFinal | backend/sim4/case_mbam/completion_flow.py:501-511 | A recovered medallion stays recovered, and then only a wrong accusation can fail the case |
| CaseRun.LogIsTail | backend/sim4/host/sim_runner.py:599-604 | In every play from the start the kept log is the unbroken end of all the turns taken, whatever caps are asked for, and those are numbered from one |
| CaseRun.ReportNeedsNoLog | backend/sim4/host/sim_runner.py:789-803 | The report, which reads the log, and the latch, which does not, agree in every reachable state |
| CaseHistory.Origins | backend/sim4/host/sim_runner.py:401-638 | In every play, a fact, piece of evidence, flag, object change, finished scene, recovery or outcome flag is there at the end if and only if it was at the start or some step gained it, by conditions on the state before that step and its request alone or by the outcome settled after it |
| CaseHistory.StepGains | backend/sim4/host/sim_runner.py:401-638 | Step by step: nothing is lost, and what is gained is exactly what the request, the checks it passes and the settled outcome bring |
| CaseHistory.EscalationExactly | backend/sim4/case_mbam/completion_flow.py:175-259 | Over every play the case has escalated in public if and only if that was recorded by hand or some completed recovery was not quiet or some completed accusation was public |
| CaseHistory.FlagsEarned | backend/sim4/case_mbam/outcome_engine.py:150-187 | Over every play a stated contradiction rests on N3 and N4, a recovery on N8 and the method trace, and a full charge names the culprit and rests on N3, N4, N5 and the receipt |
| CaseHistory.TurnFlags | backend/sim4/case_mbam/outcome_engine.py:150-187 | Which flags a turn derives: the polite request, the contradiction with both facts named, the second summary, each only from an accepted turn |
| CaseHistory.SummingUpTwice | backend/sim4/host/sim_runner.py:599-604 | The flag for two summaries is never derived without two that passed, and where no cap is asked for two are enough |
| CaseHistory.ShortLogForgets | backend/sim4/host/sim_runner.py:599-604 | With a cap of one they are not: after any turn in between, a second summary derives no flag |
| CaseHistory.PrereqsExactly | backend/sim4/host/sim_runner.py:649-682 | The automatic prerequisites in every reachable state, one by one; the two scene prerequisites are always met |
| CaseHistory.SettledStays | backend/sim4/host/sim_runner.py:622-638 | After every step that settles the outcome, settling again at the new state's time changes nothing |
| CaseClock.ClockDrivesCast | backend/sim4/host/sim_runner.py:838-855 | In every reachable state a beat has been applied if and only if the clock has reached it, and trust and stress are in [0,1] |
| CaseClock.TurnMoves | backend/sim4/case_mbam/dialogue_runtime.py:435-458 | A turn moves the trust and stress of the one it addresses by its verdict, accepted by intent and denied by the check it failed, within [0,1], and nobody else |
| Runner.SimRunner.constructor | backend/sim4/host/sim_runner.py:240-263 | A new runner is in the start state, timeline and outcome settled at time zero |
| Runner.SimRunner.SubmitInvestigationCommand | backend/sim4/host/sim_runner.py:401-439 | In place: exactly one investigation step of the case |
| Runner.SimRunner.SubmitContradictionEdge | backend/sim4/host/sim_runner.py:441-458 | In place: exactly one contradiction step, settling the outcome only on success |
| Runner.SimRunner.AttemptCaseRecovery | backend/sim4/host/sim_runner.py:460-491 | In place: exactly one recovery step |
| Runner.SimRunner.AttemptCaseAccusation | backend/sim4/host/sim_runner.py:493-522 | In place: exactly one accusation step |
| Runner.SimRunner.SubmitDialogueTurn | backend/sim4/host/sim_runner.py:524-620 | In place: exactly one dialogue step, log and affect included |
| Runner.SimRunner.SettleOutcome | backend/sim4/host/sim_runner.py:622-638 | In place: the outcome latched at the given time |
| Runner.SimRunner.RecordCaseActionFlags | backend/sim4/host/sim_runner.py:377-383 | In place: action flags recorded and nothing else changed |
| Runner.SimRunner.RecordCaseRelationshipFlags | backend/sim4/host/sim_runner.py:385-391 | In place: relationship flags recorded and nothing else changed |
| Runner.SimRunner.RecordCaseOutcomeFlags | backend/sim4/host/sim_runner.py:393-399 | In place: outcome flags recorded and nothing else changed |
| Runner.SimRunner.CurrentPrereqs | backend/sim4/host/sim_runner.py:649-682 | The automatic prerequisites of a command in the current state |
| Runner.SimRunner.RunTicks | backend/sim4/host/sim_runner.py:829-875 | In place: the loop over n ticks is the play of n tick steps |
| LiveSessions.StepSound | backend/api/live_ws.py:489-584 | No step of any session's handler breaks any session: cursor and log agree, and the cursor is never ahead of the run |
| LiveSessions.Delivered | backend/api/live_ws.py:489-561 | In every interleaving each connection gets a snapshot and then diffs that count up from the baseline by one, each naming the hash last sent; the open session's cursor is where its log ends, and a client that applied the ops holds its state |
| LiveSessions.InStep | backend/api/live_ws.py:505-561 | A turn of the loop sends a diff if and only if the session is subscribed with a baseline and its cursor stands where the run does; otherwise the run still moves to its next tick, nothing is sent and the handler fails |
| LiveSessions.DiffShowsTheTick | backend/api/live_ws.py:529-561 | That diff leads from the hash and state last sent to the hash and view, by the session's channels and locale, of the world after the tick; the cursor stands there and a lawful client holds it |
| LiveSessions.SnapshotShowsTheRun | backend/api/live_ws.py:463-503 | A snapshot carries the run's tick and what the session's channels and locale show of its world, and the baseline and cursor are set to it |
| LiveSessions.CommandChangesTheWorld | backend/api/live_ws.py:429-450 | A command that reaches the runner changes its world and no tick, session or log; in any other phase it fails the handler |
| LiveSessions.SubscribedInOrder | backend/api/live_ws.py:292-422 | In every interleaving a session that can be sent state was greeted in its locale and then subscribed to its channels and policy, by well-formed requests, in that order |
| LiveSessions.JoiningLeadsToStreaming | backend/api/live_ws.py:1453-1471 | A client that goes through hello and subscribe with a snapshot on joining is sent the run's state and hash and ends up in step with the run |
| LiveSessions.LoneSessionStreams | backend/api/live_ws.py:1590-1640 | While no other session moves the run, every turn of an open session sends exactly one diff |
| LiveSessions.RaisedOnlyCloses | backend/api/live_ws.py:1620-1640 | A handler that failed changes nothing of its session any more but to close it |
| LiveSessions.OpenedAndClosed | backend/api/live_ws.py:261-277 | Attaching opens a session in its first state, closing moves it away ended, cleaning up and evicting forget one closed session or one run, and each leaves all else alone |
| LiveSessions.MarkedAndFailed | backend/api/live_ws.py:279-283 | A handshake mark puts an idle session back before its subscription, so nothing can be sent to it; a violation fails its handler |
| LiveSessions.StoppedForGood | backend/api/live_ws.py:505-561 | A session that is behind its run, or failed, or closed is never sent anything again |
| LiveSessions.ClosedForGood | backend/api/live_ws.py:563-587 | A closed connection never opens again and is never sent anything more |
| LiveSessions.NeverMeansNothing | backend/api/live_ws.py:1459-1471 | A session subscribed with snapshot policy NEVER is sent no snapshot and no diff in any continuation |
| LiveSessions.OthersStop | backend/api/live_ws.py:505-561 | Once one session has moved a run, no other session of it that has its snapshot is sent another diff, in any continuation |
| LiveSessions.FailureStopsAll | backend/api/live_ws.py:529-540 | After an out-of-step turn no session of that run that has its snapshot streams again |
| LiveHost.LiveSessionHost.AttachConnection | backend/api/live_ws.py:261-277 | In place: a new session object under a fresh id, or nothing when the run is unknown |
| LiveHost.LiveSessionHost.MarkHandshaking | backend/api/live_ws.py:279-283 | In place: the handshake step on the one session object |
| LiveHost.LiveSessionHost.RecordViewerHello | backend/api/live_ws.py:292-348 | In place: the hello step, failing out of sequence or on a bad payload |
| LiveHost.LiveSessionHost.RecordSubscribe | backend/api/live_ws.py:350-422 | In place: the subscribe step, failing out of sequence or on a bad payload |
| LiveHost.LiveSessionHost.BuildFullSnapshot | backend/api/live_ws.py:463-487 | In place: the snapshot step, returning the message that is sent |
| LiveHost.LiveSessionHost.MarkBaselineSent | backend/api/live_ws.py:489-503 | In place: the cursor starts at the snapshot that was sent |
| LiveHost.LiveSession.CanStreamFrameDiff | backend/api/live_ws.py:452-461 | Whether the session may be streamed to |
| LiveHost.LiveSessionHost.AdvanceRunnerAndBuildFrameDiff | backend/api/live_ws.py:505-561 | In place: the run moves first, then the tick is checked and the cursor moved; returns the message that is sent, if any |
| LiveHost.LiveSessionHost.CloseConnection | backend/api/live_ws.py:563-584 | In place: the session object moves from the open to the closed map |
| LiveHost.LiveSessionHost.CleanupClosedSession | backend/api/live_ws.py:586-587 | In place: a closed session is forgotten |

## Left out

- Canonical.CanonicalizeStateObj: ids are integers or strings; other ids, and events that lack a tick or event id, count as not orderable, though Python can order some of them.
- DiffRun.ComputeStateDiffOps: ids are integers or strings, event ids integers; an event id spelled in digits, which the source would convert, counts as an error.
- DiffRun.ApplyStateDiffOps: the same ids.
- RoundTrip.DiffRoundTrip: the same ids; with others the calls may still succeed.
- RoundTrip.FieldRoundTrip: the same ids.
- RoundTrip.UncoveredIsKept: the same ids.
- Rfc8785.NumberAgrees: a number is taken by its exact digits; integers that no double holds, which the RFC would round first, are compared unrounded.
- Malformed op dictionaries and group values that are not lists.
- NaN, infinities and the rounding of binary floating point; numbers are exact decimals in the pipeline and reals in the case.
- SHA-256: a digest is any function of the text, and where a statement needs it to be injective it says so.
- File input and output, and the reading back of written JSON, which is taken to be the identity; message ids, clocks and run constants.
- Overlay files, layout hints, render specification and world layout.
- A keyframe interval of zero or less, for which the source's loop does not end.
- Records.ReconstructStateAtTick: an out-of-window tick, a missing record and an unsortable state are all errors, with fewer kinds than the source has messages.
- EcsRuns.BatchRefines: SET_FIELD is missing, since it edits a component object that several entities may share and components are values here.
- EcsRuns.ActRuns: SET_FIELD is missing.
- EcsWorld.ECSWorld.ApplyCommand: SET_FIELD is missing.
- EcsWorld.ECSWorld.ApplyBatch: SET_FIELD is missing.
- Export.OfflineArtifacts: overlay files are missing from the final manifest.
- Sharing of one component object between entities, an allocator or registry handed in from outside, `mark_alive` and `reset`.
- Observed clue ids and consumed action keys; no affordance of the case is one-shot.
- Scene flags and object unlocks that a turn emits but nothing in the runner reads.
- Presentation adapter, learning hints, localization, projections and recaps.
- Spelling of keypad codes and of person slots, and the tone prefix of an utterance: the model says what they mean (`Typed`, `accused`, `Tone`).
- The initial overlay of the cast, which is a parameter; the schedule of beats is one too, with distinct ids where a statement needs them.
- Timeline.ApplyCaseTimeline: requires the whole cast to be present, as its initialization makes it; the source raises a KeyError otherwise.
- Runner.SimRunner.RunTicks: the systems run inside a tick (`run_tick`) are not part of this model; only what `run` does to the case before each tick is.
- LiveHost.LiveSessionHost.RecordViewerHello: whether the payload is well formed is a parameter.
- LiveHost.LiveSessionHost.RecordSubscribe: whether the payload is well formed is a parameter.
- LiveHost.LiveSessionHost.MarkHandshaking: one handler runs at a time for each connection, so these methods are called while the handler is idle or at the point that leads to them.
- The operations inside a live FRAME_DIFF are opaque; `LiveSessions.Delivered` speaks of any client that applies them back.
- Websocket transport, envelopes, pings and warnings, the dispatch of input commands to the runner (any command that reaches the runner may change the world), and the run registry beyond a run's presence.
