/** The orchestrator's run logic: five stages in a fixed order, each wrapped so
    that an exception from its component becomes a `false` result, a results
    table that starts all `false`, and an early exit on the first failure when
    asked to stop on failure. What each component does is an input here. */
module Pipeline {

  datatype Stage = Generation | Ingestion | Transformation | WarehouseLoad | QualityChecks

  /** The order in which `run_pipeline` runs the stages. */
  const StageOrder: seq<Stage> := [Generation, Ingestion, Transformation, WarehouseLoad, QualityChecks]

  const AllStages: set<Stage> := {Generation, Ingestion, Transformation, WarehouseLoad, QualityChecks}

  /** How a call into a component ended. */
  datatype ComponentRun = Returned | Raised

  /** How `run_all_checks` ended: with the gate's verdict, or by raising. */
  datatype QualityRun = ChecksReturned(allPassed: bool) | ChecksRaised

  /** What each component does when called, in stage order. */
  datatype StageInputs = StageInputs(
    generation: ComponentRun,
    ingestion: ComponentRun,
    transformation: ComponentRun,
    warehouse: ComponentRun,
    quality: QualityRun)

  // ---------------------------------------------------------------------------
  // The stage wrappers
  // ---------------------------------------------------------------------------

  /** `run_generation_stage`, `run_ingestion_stage`, `run_transformation_stage` and
      `run_warehouse_stage`: `true` when the component returns, `false` when it
      raises; the exception never reaches the caller. */
  function RunStage(run: ComponentRun): (ok: bool)
    ensures ok <==> run == Returned
  {
    match run
    case Returned => true
    case Raised => false
  }

  /** `run_quality_checks`: the gate's verdict when the checks return, `false` when
      they raise. */
  function RunQualityChecks(run: QualityRun): (ok: bool)
    ensures ok <==> run == ChecksReturned(true)
  {
    match run
    case ChecksReturned(passed) => passed
    case ChecksRaised => false
  }

  /** The result a stage's wrapper reports. */
  function Outcome(inputs: StageInputs, s: Stage): bool
  {
    match s
    case Generation => RunStage(inputs.generation)
    case Ingestion => RunStage(inputs.ingestion)
    case Transformation => RunStage(inputs.transformation)
    case WarehouseLoad => RunStage(inputs.warehouse)
    case QualityChecks => RunQualityChecks(inputs.quality)
  }

  predicate AllSucceed(inputs: StageInputs)
  {
    forall j :: 0 <= j < |StageOrder| ==> Outcome(inputs, StageOrder[j])
  }

  /** The position in `StageOrder` of the first stage that reports `false`, or 5. */
  function FirstFailure(inputs: StageInputs): (k: nat)
    ensures k <= |StageOrder|
    ensures forall j :: 0 <= j < k ==> Outcome(inputs, StageOrder[j])
    ensures k < |StageOrder| ==> !Outcome(inputs, StageOrder[k])
  {
    if !Outcome(inputs, Generation) then 0
    else if !Outcome(inputs, Ingestion) then 1
    else if !Outcome(inputs, Transformation) then 2
    else if !Outcome(inputs, WarehouseLoad) then 3
    else if !Outcome(inputs, QualityChecks) then 4
    else 5
  }

  /** The stages that run: with `stop_on_failure`, those up to and including the first
      failing one; otherwise all five. */
  function StagesRun(inputs: StageInputs, stopOnFailure: bool): (ran: seq<Stage>)
    ensures |ran| <= |StageOrder| && ran == StageOrder[..|ran|]
    ensures !stopOnFailure ==> ran == StageOrder
    ensures stopOnFailure ==> forall j :: 0 <= j < |StageOrder| ==> (StageOrder[j] in ran <==> j <= FirstFailure(inputs))
  {
    var k := FirstFailure(inputs);
    if stopOnFailure && k < |StageOrder| then StageOrder[..k + 1] else StageOrder
  }

  // ---------------------------------------------------------------------------
  // run_pipeline
  // ---------------------------------------------------------------------------

  /** `run_pipeline`: the verdict, the final results table and the stages that ran. */
  method RunPipeline(inputs: StageInputs, stopOnFailure: bool)
    returns (success: bool, results: map<Stage, bool>, ran: seq<Stage>)
    ensures success <==> AllSucceed(inputs)
    ensures ran == StagesRun(inputs, stopOnFailure)
    ensures results.Keys == AllStages
    ensures forall s :: s in results ==> (results[s] <==> s in ran && Outcome(inputs, s))
  {
    results := map[Generation := false, Ingestion := false, Transformation := false,
                   WarehouseLoad := false, QualityChecks := false];
    ran := [];
    assert results == ResultsAfter(inputs, 0);

    results := results[Generation := RunStage(inputs.generation)];
    ran := ran + [Generation];
    assert results == ResultsAfter(inputs, 1) && ran == StageOrder[..1];
    if stopOnFailure && !results[Generation] {
      StopsAt(inputs, 0, ran);
      ResultsAfterMeaning(inputs, 1);
      return false, results, ran;
    }

    results := results[Ingestion := RunStage(inputs.ingestion)];
    ran := ran + [Ingestion];
    assert results == ResultsAfter(inputs, 2) && ran == StageOrder[..2];
    if stopOnFailure && !results[Ingestion] {
      StopsAt(inputs, 1, ran);
      ResultsAfterMeaning(inputs, 2);
      return false, results, ran;
    }

    results := results[Transformation := RunStage(inputs.transformation)];
    ran := ran + [Transformation];
    assert results == ResultsAfter(inputs, 3) && ran == StageOrder[..3];
    if stopOnFailure && !results[Transformation] {
      StopsAt(inputs, 2, ran);
      ResultsAfterMeaning(inputs, 3);
      return false, results, ran;
    }

    results := results[WarehouseLoad := RunStage(inputs.warehouse)];
    ran := ran + [WarehouseLoad];
    assert results == ResultsAfter(inputs, 4) && ran == StageOrder[..4];
    if stopOnFailure && !results[WarehouseLoad] {
      StopsAt(inputs, 3, ran);
      ResultsAfterMeaning(inputs, 4);
      return false, results, ran;
    }

    results := results[QualityChecks := RunQualityChecks(inputs.quality)];
    ran := ran + [QualityChecks];
    assert results == ResultsAfter(inputs, 5) && ran == StageOrder[..5];
    if stopOnFailure && !results[QualityChecks] {
      StopsAt(inputs, 4, ran);
      ResultsAfterMeaning(inputs, 5);
      return false, results, ran;
    }

    assert ran == StageOrder;
    ResultsAfterMeaning(inputs, 5);
    success := results[Generation] && results[Ingestion] && results[Transformation]
               && results[WarehouseLoad] && results[QualityChecks];
  }

  /** The results table once the first `n` stages have reported: `results` starts
      with every stage `false`, and each stage that runs overwrites its own entry. */
  function ResultsAfter(inputs: StageInputs, n: nat): map<Stage, bool>
    requires n <= |StageOrder|
  {
    if n == 0 then
      map[Generation := false, Ingestion := false, Transformation := false,
          WarehouseLoad := false, QualityChecks := false]
    else
      ResultsAfter(inputs, n - 1)[StageOrder[n - 1] := Outcome(inputs, StageOrder[n - 1])]
  }

  lemma {:induction false} ResultsAfterMeaning(inputs: StageInputs, n: nat)
    requires n <= |StageOrder|
    ensures ResultsAfter(inputs, n).Keys == AllStages
    ensures forall s :: s in ResultsAfter(inputs, n) ==> (ResultsAfter(inputs, n)[s] <==> s in StageOrder[..n] && Outcome(inputs, s))
  {
    if n > 0 {
      ResultsAfterMeaning(inputs, n - 1);
      assert StageOrder[..n] == StageOrder[..n - 1] + [StageOrder[n - 1]];
    }
  }

  /** A stop at stage `k`: the stages before it succeeded and it failed. */
  lemma StopsAt(inputs: StageInputs, k: nat, ran: seq<Stage>)
    requires k < |StageOrder| && ran == StageOrder[..k + 1]
    requires forall j :: 0 <= j < k ==> Outcome(inputs, StageOrder[j])
    requires !Outcome(inputs, StageOrder[k])
    ensures FirstFailure(inputs) == k && ran == StagesRun(inputs, true) && !AllSucceed(inputs)
  {
  }

  // ---------------------------------------------------------------------------
  // Properties of the run
  // ---------------------------------------------------------------------------

  /** With `stop_on_failure`, no stage after the first failing one runs. */
  lemma NothingRunsAfterFailure(inputs: StageInputs, j: nat, k: nat)
    requires j < k < |StageOrder| && !Outcome(inputs, StageOrder[j])
    ensures StageOrder[k] !in StagesRun(inputs, true)
  {
  }

  /** The warehouse stage runs before the checks, so whether it runs does not
      depend on what the checks do. */
  lemma QualityNeverBlocksWarehouse(a: StageInputs, b: StageInputs, stopOnFailure: bool)
    requires a.generation == b.generation && a.ingestion == b.ingestion
    requires a.transformation == b.transformation && a.warehouse == b.warehouse
    ensures WarehouseLoad in StagesRun(a, stopOnFailure) <==> WarehouseLoad in StagesRun(b, stopOnFailure)
  {
    assert StageOrder[3] == WarehouseLoad;
    assert forall j :: 0 <= j <= 3 ==> Outcome(a, StageOrder[j]) == Outcome(b, StageOrder[j]);
  }

  /** The stages that run are all five exactly when no stage before the last fails
      (or the run does not stop on failure). */
  lemma AllStagesRunIff(inputs: StageInputs, stopOnFailure: bool)
    ensures StagesRun(inputs, stopOnFailure) == StageOrder <==>
      !stopOnFailure || forall j :: 0 <= j < |StageOrder| - 1 ==> Outcome(inputs, StageOrder[j])
  {
    var ran := StagesRun(inputs, stopOnFailure);
    if stopOnFailure && ran == StageOrder {
      assert QualityChecks in ran;
    }
  }

  /** Two runs of the pipeline, one stopping on failure and one not, agree on the verdict. */
  method BothModesAgree(inputs: StageInputs) returns (stopping: bool, continuing: bool)
    ensures stopping == continuing
  {
    var r1, ran1;
    var r2, ran2;
    stopping, r1, ran1 := RunPipeline(inputs, true);
    continuing, r2, ran2 := RunPipeline(inputs, false);
  }
}
