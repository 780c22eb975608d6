/**
 * The workflow records the worker API reads and completes: AI training
 * workflows (training examples in, a classifier set out) and AI grading
 * workflows (an essay and a classifier set in, criterion scores out).
 * The database rows become values; the store that holds them is
 * WorkflowStore in module AiWorker.
 */
module Workflows {
  import opened Wrappers

  type Uuid = string
  type CriterionName = string
  type AlgorithmId = string

  /** A trained classifier, in the serialized form the classifier set stores. */
  type SerializedClassifier = string

  /** A classifier set: one serialized classifier per rubric criterion. */
  type ClassifierSet = map<CriterionName, SerializedClassifier>

  /** Integer points per criterion, as a grading worker reports them. */
  type CriterionScores = map<CriterionName, int>

  /** A stored training answer: either plain text or a dictionary of answer parts. */
  datatype Answer = TextAnswer(text: string) | DictAnswer(fields: map<string, string>)

  /** One rubric option an instructor selected for a training example. */
  datatype SelectedOption = SelectedOption(criterionName: CriterionName, points: int)

  /** A training example: an answer and the options that score it, in stored order. */
  datatype TrainingExample = TrainingExample(answer: Answer, optionsSelected: seq<SelectedOption>)

  /** Every criterion some option of some example scores. */
  function ExampleCriteria(examples: seq<TrainingExample>): set<CriterionName>
  {
    set e, o | e in examples && o in e.optionsSelected :: o.criterionName
  }

  /** A classifier set is complete for a set of criteria when it has a classifier for each. */
  predicate Covers(classifiers: ClassifierSet, criteria: set<CriterionName>)
  {
    criteria <= classifiers.Keys
  }

  datatype TrainingWorkflow = TrainingWorkflow(
    examples: seq<TrainingExample>,
    algorithmId: AlgorithmId,
    isComplete: bool,
    classifierSet: Option<ClassifierSet>)
  {
    /**
     * A training workflow is complete exactly when a classifier set is attached,
     * and only a workflow with examples, whose set covers the criteria those
     * examples score, can be complete.
     */
    ghost predicate Wellformed()
    {
      (isComplete <==> classifierSet.Some?) &&
      (isComplete ==> |examples| > 0 && Covers(classifierSet.value, ExampleCriteria(examples)))
    }

    /** The workflow after `complete(classifier_set)` has attached the set. */
    function Completed(classifiers: ClassifierSet): TrainingWorkflow
    {
      this.(isComplete := true, classifierSet := Some(classifiers))
    }
  }

  datatype GradingWorkflow = GradingWorkflow(
    essayText: string,
    algorithmId: AlgorithmId,
    classifierSet: Option<ClassifierSet>,
    isComplete: bool,
    criterionScores: Option<CriterionScores>)
  {
    /** A grading workflow is complete exactly when its assessment scores are recorded. */
    ghost predicate Wellformed()
    {
      isComplete <==> criterionScores.Some?
    }

    /** The workflow after `complete(criterion_scores)` has recorded the assessment. */
    function Completed(scores: CriterionScores): GradingWorkflow
    {
      this.(isComplete := true, criterionScores := Some(scores))
    }
  }

  ghost predicate TrainingTableValid(training: map<Uuid, TrainingWorkflow>)
  {
    forall u :: u in training ==> training[u].Wellformed()
  }

  ghost predicate GradingTableValid(grading: map<Uuid, GradingWorkflow>)
  {
    forall u :: u in grading ==> grading[u].Wellformed()
  }

  /** The `{text, scores}` record a training worker receives for one example. */
  datatype ExampleRecord = ExampleRecord(text: string, scores: CriterionScores)

  /** The text of an answer: a dictionary answer's 'answer' entry ('' if missing), else the answer itself. */
  function AnswerText(answer: Answer): string
  {
    match answer
    case DictAnswer(fields) => if "answer" in fields then fields["answer"] else ""
    case TextAnswer(text) => text
  }

  /**
   * The scores dictionary built from the selected options: each option's
   * criterion maps to its points, a later option overwriting an earlier one
   * with the same criterion, as a dictionary comprehension does.
   */
  function ScoresOf(options: seq<SelectedOption>): (r: CriterionScores)
    ensures r.Keys == set o | o in options :: o.criterionName
  {
    if options == [] then map[]
    else
      var last := options[|options| - 1];
      var earlier := options[..|options| - 1];
      assert options == earlier + [last];
      ScoresOf(earlier)[last.criterionName := last.points]
  }

  /** The record of one training example. */
  function RecordOf(example: TrainingExample): ExampleRecord
  {
    ExampleRecord(AnswerText(example.answer), ScoresOf(example.optionsSelected))
  }

  /**
   * The points an option contributes survive in the scores dictionary unless
   * a later option names the same criterion.
   */
  lemma {:induction false} ScoresOfLastWins(options: seq<SelectedOption>, i: nat)
    requires i < |options|
    requires forall j :: i < j < |options| ==> options[j].criterionName != options[i].criterionName
    ensures options[i].criterionName in ScoresOf(options)
    ensures ScoresOf(options)[options[i].criterionName] == options[i].points
  {
    if i < |options| - 1 {
      var earlier := options[..|options| - 1];
      assert earlier[i] == options[i];
      ScoresOfLastWins(earlier, i);
    }
  }

  /** When every criterion is selected at most once, each option's points are its criterion's score. */
  lemma ScoresOfDistinct(options: seq<SelectedOption>)
    requires forall i, j :: 0 <= i < j < |options| ==> options[i].criterionName != options[j].criterionName
    ensures forall i :: 0 <= i < |options| ==> ScoresOf(options)[options[i].criterionName] == options[i].points
  {
    forall i | 0 <= i < |options|
      ensures ScoresOf(options)[options[i].criterionName] == options[i].points
    {
      ScoresOfLastWins(options, i);
    }
  }
}
