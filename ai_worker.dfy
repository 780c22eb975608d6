/**
 * The worker-facing API for AI training and grading. Workers fetch the
 * parameters of a task and report its result; each call looks a workflow
 * up by UUID, sorts every failure it catches into a request error (the
 * caller's fault) or an internal error, and completes a workflow at most
 * once, so that a task delivered twice, one delivery after the other, does
 * no harm.
 *
 * Storage failures cannot be predicted from the stored data, so each call
 * takes them as explicit inputs:
 *  - lookupFault: a DatabaseError while retrieving the workflow;
 *  - readFault: a ValueError, IOError or DatabaseError while loading the
 *    classifiers of a grading workflow;
 *  - completeFault: a DatabaseError while recording an assessment;
 *  - saveFault: a serialize, upload or database failure while storing
 *    a classifier set.
 */
module AiWorker {
  import opened Wrappers
  import opened Workflows

  /** The error classes the API raises. */
  datatype ApiError =
    | GradingRequestError
    | GradingInternalError
    | TrainingRequestError
    | TrainingInternalError

  /** What can go wrong while a classifier set is stored. */
  datatype SaveFault = NoSaveFault | SerializeFailure | UploadFailure | DatabaseFailure

  /** What a grading worker needs: the essay, the classifiers and the algorithm. */
  datatype GradingTaskParams = GradingTaskParams(
    essayText: string,
    classifierSet: ClassifierSet,
    algorithmId: AlgorithmId)

  /** What a training worker needs: one record per example and the algorithm. */
  datatype TrainingTaskParams = TrainingTaskParams(
    trainingExamples: seq<ExampleRecord>,
    algorithmId: AlgorithmId)

  // ---------------------------------------------------------------------
  // get_grading_task_params
  // ---------------------------------------------------------------------

  /**
   * The parameters of a grading task. An unknown UUID is the caller's
   * fault; a storage failure caught while retrieving the workflow or
   * loading its classifiers, or a workflow that has no classifier set
   * (tasks are never scheduled before a set exists), is internal.
   */
  function GetGradingTaskParams(
    grading: map<Uuid, GradingWorkflow>, uuid: Uuid, lookupFault: bool, readFault: bool)
    : (r: Result<GradingTaskParams, ApiError>)
    ensures r == Err(GradingRequestError) <==> !lookupFault && uuid !in grading
    ensures r == Err(GradingInternalError) <==>
      lookupFault || (uuid in grading && (grading[uuid].classifierSet.None? || readFault))
    ensures r.Ok? <==>
      !lookupFault && !readFault && uuid in grading && grading[uuid].classifierSet.Some?
    ensures r.Ok? ==>
      r.value.essayText == grading[uuid].essayText &&
      Some(r.value.classifierSet) == grading[uuid].classifierSet &&
      r.value.algorithmId == grading[uuid].algorithmId
  {
    if lookupFault then Err(GradingInternalError)
    else if uuid !in grading then Err(GradingRequestError)
    else
      var workflow := grading[uuid];
      if workflow.classifierSet.None? then Err(GradingInternalError)
      else if readFault then Err(GradingInternalError)
      else Ok(GradingTaskParams(workflow.essayText, workflow.classifierSet.value, workflow.algorithmId))
  }

  // ---------------------------------------------------------------------
  // create_assessment: its outcome and its effect on the grading table
  // ---------------------------------------------------------------------

  /**
   * Whether create_assessment passes. An already complete workflow passes
   * without touching storage, so the completion failure cannot occur there.
   */
  function AssessmentOutcome(
    grading: map<Uuid, GradingWorkflow>, uuid: Uuid, lookupFault: bool, completeFault: bool)
    : (r: Outcome<ApiError>)
    ensures r == Fail(GradingRequestError) <==> !lookupFault && uuid !in grading
    ensures r == Fail(GradingInternalError) <==>
      lookupFault || (uuid in grading && !grading[uuid].isComplete && completeFault)
    ensures r.Pass? <==>
      !lookupFault && uuid in grading && (grading[uuid].isComplete || !completeFault)
  {
    if lookupFault then Fail(GradingInternalError)
    else if uuid !in grading then Fail(GradingRequestError)
    else if !grading[uuid].isComplete && completeFault then Fail(GradingInternalError)
    else Pass
  }

  /**
   * The grading table after a successful create_assessment: an incomplete
   * workflow records the scores and becomes complete; a complete one keeps
   * its first assessment; no other workflow changes.
   */
  function Assessed(grading: map<Uuid, GradingWorkflow>, uuid: Uuid, scores: CriterionScores)
    : (r: map<Uuid, GradingWorkflow>)
    ensures r.Keys == grading.Keys
    ensures forall u :: u in grading && u != uuid ==> r[u] == grading[u]
    ensures uuid in grading && grading[uuid].isComplete ==> r == grading
    ensures uuid in grading && !grading[uuid].isComplete ==>
      r[uuid].isComplete && r[uuid].criterionScores == Some(scores) &&
      r[uuid].essayText == grading[uuid].essayText &&
      r[uuid].algorithmId == grading[uuid].algorithmId &&
      r[uuid].classifierSet == grading[uuid].classifierSet
    ensures GradingTableValid(grading) ==> GradingTableValid(r)
  {
    if uuid in grading && !grading[uuid].isComplete then
      grading[uuid := grading[uuid].Completed(scores)]
    else
      grading
  }

  /** Assessing a workflow twice, with any scores, leaves it as assessing it once. */
  lemma AssessedIdempotent(
    grading: map<Uuid, GradingWorkflow>, uuid: Uuid, first: CriterionScores, second: CriterionScores)
    ensures Assessed(Assessed(grading, uuid, first), uuid, second) == Assessed(grading, uuid, first)
  {
  }

  /**
   * A grading task delivered again after it succeeded: the second call
   * passes unless its own lookup fails, and whatever scores it carries it
   * changes nothing.
   */
  lemma DuplicateAssessmentHarmless(
    grading: map<Uuid, GradingWorkflow>, uuid: Uuid,
    first: CriterionScores, lookupFault1: bool, completeFault1: bool,
    second: CriterionScores, lookupFault2: bool, completeFault2: bool)
    requires AssessmentOutcome(grading, uuid, lookupFault1, completeFault1).Pass?
    ensures var once := Assessed(grading, uuid, first);
      AssessmentOutcome(once, uuid, lookupFault2, completeFault2) ==
        (if lookupFault2 then Fail(GradingInternalError) else Pass) &&
      Assessed(once, uuid, second) == once
  {
  }

  /** Recording an assessment never changes what a grading task is given. */
  lemma AssessmentKeepsGradingTaskParams(
    grading: map<Uuid, GradingWorkflow>, uuid: Uuid, scores: CriterionScores,
    other: Uuid, lookupFault: bool, readFault: bool)
    ensures GetGradingTaskParams(Assessed(grading, uuid, scores), other, lookupFault, readFault) ==
            GetGradingTaskParams(grading, other, lookupFault, readFault)
  {
  }

  // ---------------------------------------------------------------------
  // create_classifiers: its outcome and its effect on the training table
  // ---------------------------------------------------------------------

  /**
   * Whether create_classifiers passes. A complete workflow passes at once.
   * Completing an incomplete one fails internally when it has no examples,
   * fails as a request error when the classifier set misses a criterion
   * the examples score, and fails internally when storing the set fails.
   */
  function ClassifiersOutcome(
    training: map<Uuid, TrainingWorkflow>, uuid: Uuid, classifiers: ClassifierSet,
    lookupFault: bool, saveFault: SaveFault)
    : (r: Outcome<ApiError>)
    ensures r == Fail(TrainingRequestError) <==>
      !lookupFault &&
      (uuid !in training ||
       (!training[uuid].isComplete && |training[uuid].examples| > 0 &&
        !Covers(classifiers, ExampleCriteria(training[uuid].examples))))
    ensures r == Fail(TrainingInternalError) <==>
      lookupFault ||
      (uuid in training && !training[uuid].isComplete &&
       (|training[uuid].examples| == 0 ||
        (Covers(classifiers, ExampleCriteria(training[uuid].examples)) && saveFault != NoSaveFault)))
    ensures r.Pass? <==>
      !lookupFault && uuid in training &&
      (training[uuid].isComplete ||
       (|training[uuid].examples| > 0 &&
        Covers(classifiers, ExampleCriteria(training[uuid].examples)) && saveFault == NoSaveFault))
  {
    if lookupFault then Fail(TrainingInternalError)
    else if uuid !in training then Fail(TrainingRequestError)
    else
      var workflow := training[uuid];
      if workflow.isComplete then Pass
      else if |workflow.examples| == 0 then Fail(TrainingInternalError)
      else if !Covers(classifiers, ExampleCriteria(workflow.examples)) then Fail(TrainingRequestError)
      else if saveFault != NoSaveFault then Fail(TrainingInternalError)
      else Pass
  }

  /**
   * The training table after a successful create_classifiers: an incomplete
   * workflow gets the classifier set and becomes complete; a complete one
   * keeps the set it has; no other workflow changes.
   */
  function Trained(training: map<Uuid, TrainingWorkflow>, uuid: Uuid, classifiers: ClassifierSet)
    : (r: map<Uuid, TrainingWorkflow>)
    ensures r.Keys == training.Keys
    ensures forall u :: u in training && u != uuid ==> r[u] == training[u]
    ensures uuid in training && training[uuid].isComplete ==> r == training
    ensures uuid in training && !training[uuid].isComplete ==>
      r[uuid].isComplete && r[uuid].classifierSet == Some(classifiers) &&
      r[uuid].examples == training[uuid].examples &&
      r[uuid].algorithmId == training[uuid].algorithmId
    ensures TrainingTableValid(training) &&
      (uuid in training && !training[uuid].isComplete ==>
        |training[uuid].examples| > 0 && Covers(classifiers, ExampleCriteria(training[uuid].examples)))
      ==> TrainingTableValid(r)
  {
    if uuid in training && !training[uuid].isComplete then
      training[uuid := training[uuid].Completed(classifiers)]
    else
      training
  }

  /**
   * A training task delivered again after it succeeded: the second call
   * passes unless its own lookup fails, and whatever classifiers it
   * carries, the first classifier set stays attached.
   */
  lemma DuplicateClassifiersHarmless(
    training: map<Uuid, TrainingWorkflow>, uuid: Uuid,
    first: ClassifierSet, lookupFault1: bool, saveFault1: SaveFault,
    second: ClassifierSet, lookupFault2: bool, saveFault2: SaveFault)
    requires ClassifiersOutcome(training, uuid, first, lookupFault1, saveFault1).Pass?
    ensures var once := Trained(training, uuid, first);
      ClassifiersOutcome(once, uuid, second, lookupFault2, saveFault2) ==
        (if lookupFault2 then Fail(TrainingInternalError) else Pass) &&
      Trained(once, uuid, second) == once &&
      once[uuid].classifierSet ==
        (if training[uuid].isComplete then training[uuid].classifierSet else Some(first))
  {
  }

  /**
   * In a well-formed training table, a complete workflow has a classifier
   * for every criterion that appears in the scores of the records a
   * training worker was given for it.
   */
  lemma CompleteTrainingCoversTaskScores(training: map<Uuid, TrainingWorkflow>, uuid: Uuid)
    requires TrainingTableValid(training)
    requires uuid in training && training[uuid].isComplete
    ensures forall i, c ::
      0 <= i < |training[uuid].examples| && c in RecordOf(training[uuid].examples[i]).scores
      ==> c in training[uuid].classifierSet.value
  {
  }

  // ---------------------------------------------------------------------
  // The workflow store and the operations that work on it step by step
  // ---------------------------------------------------------------------

  /** The workflow tables, keyed by UUID. */
  class WorkflowStore {
    var training: map<Uuid, TrainingWorkflow>
    var grading: map<Uuid, GradingWorkflow>

    /** A store over existing, well-formed workflow tables. */
    constructor (training0: map<Uuid, TrainingWorkflow>, grading0: map<Uuid, GradingWorkflow>)
      requires TrainingTableValid(training0) && GradingTableValid(grading0)
      ensures Valid() && training == training0 && grading == grading0
    {
      training := training0;
      grading := grading0;
    }

    ghost predicate Valid()
      reads this
    {
      TrainingTableValid(training) && GradingTableValid(grading)
    }

    /**
     * get_training_task_params: one record per stored example, in the
     * stored order, and the workflow's algorithm.
     */
    method GetTrainingTaskParams(uuid: Uuid, lookupFault: bool)
      returns (r: Result<TrainingTaskParams, ApiError>)
      ensures lookupFault ==> r == Err(TrainingInternalError)
      ensures !lookupFault && uuid !in training ==> r == Err(TrainingRequestError)
      ensures !lookupFault && uuid in training ==>
        r.Ok? &&
        r.value.algorithmId == training[uuid].algorithmId &&
        |r.value.trainingExamples| == |training[uuid].examples| &&
        forall i :: 0 <= i < |training[uuid].examples| ==>
          r.value.trainingExamples[i] == RecordOf(training[uuid].examples[i])
    {
      if lookupFault {
        return Err(TrainingInternalError);
      }
      if uuid !in training {
        return Err(TrainingRequestError);
      }
      var workflow := training[uuid];
      var returned: seq<ExampleRecord> := [];
      for i := 0 to |workflow.examples|
        invariant |returned| == i
        invariant forall k :: 0 <= k < i ==> returned[k] == RecordOf(workflow.examples[k])
      {
        var example := workflow.examples[i];
        var text;
        match example.answer {
          case DictAnswer(fields) =>
            text := if "answer" in fields then fields["answer"] else "";
          case TextAnswer(answer) =>
            text := answer;
        }
        var scores := ScoresOf(example.optionsSelected);
        returned := returned + [ExampleRecord(text, scores)];
      }
      return Ok(TrainingTaskParams(returned, workflow.algorithmId));
    }

    /**
     * create_assessment: completes an incomplete grading workflow with the
     * scores; does nothing to a complete one; on any error changes nothing.
     */
    method CreateAssessment(
      uuid: Uuid, scores: CriterionScores, lookupFault: bool, completeFault: bool)
      returns (r: Outcome<ApiError>)
      requires Valid()
      modifies this
      ensures Valid()
      ensures r == AssessmentOutcome(old(grading), uuid, lookupFault, completeFault)
      ensures grading == if r.Pass? then Assessed(old(grading), uuid, scores) else old(grading)
      ensures training == old(training)
    {
      if lookupFault {
        return Fail(GradingInternalError);
      }
      if uuid !in grading {
        return Fail(GradingRequestError);
      }
      var workflow := grading[uuid];
      if !workflow.isComplete {
        if completeFault {
          return Fail(GradingInternalError);
        }
        grading := grading[uuid := workflow.Completed(scores)];
      }
      return Pass;
    }

    /**
     * create_classifiers: attaches the classifier set to an incomplete
     * training workflow and completes it; leaves a complete one alone; on
     * any error changes nothing, so the workflow stays incomplete.
     */
    method CreateClassifiers(
      uuid: Uuid, classifiers: ClassifierSet, lookupFault: bool, saveFault: SaveFault)
      returns (r: Outcome<ApiError>)
      requires Valid()
      modifies this
      ensures Valid()
      ensures r == ClassifiersOutcome(old(training), uuid, classifiers, lookupFault, saveFault)
      ensures training == if r.Pass? then Trained(old(training), uuid, classifiers) else old(training)
      ensures grading == old(grading)
    {
      if lookupFault {
        return Fail(TrainingInternalError);
      }
      if uuid !in training {
        return Fail(TrainingRequestError);
      }
      var workflow := training[uuid];
      if workflow.isComplete {
        // Already trained by an earlier delivery of the same task.
        return Pass;
      }
      if |workflow.examples| == 0 {
        return Fail(TrainingInternalError);
      }
      if !Covers(classifiers, ExampleCriteria(workflow.examples)) {
        return Fail(TrainingRequestError);
      }
      if saveFault != NoSaveFault {
        return Fail(TrainingInternalError);
      }
      training := training[uuid := workflow.Completed(classifiers)];
      return Pass;
    }
  }
}
