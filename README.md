# AI worker API — a Dafny model

This project models the worker-facing API of an assessment plugin's AI training and
grading service (`apps/openassessment/assessment/api/ai_worker.py`). Queue workers call
four operations:

- `get_grading_task_params` fetches the essay, classifier set and algorithm of a grading
  workflow;
- `create_assessment` records the criterion scores a grading worker computed and
  completes the grading workflow;
- `get_training_task_params` fetches a training workflow's examples as `{text, scores}`
  records, together with its algorithm;
- `create_classifiers` attaches the trained classifier set and completes the training
  workflow.

Each operation looks a workflow up by UUID. It sorts every failure it catches into a
*request error* (the caller's fault) or an *internal error*. It completes a workflow at
most once, so a task the queue delivers twice, one delivery after the other, does no
harm.

Files:

- `wrappers.dfy` (module `Wrappers`): `Option`, `Result` and `Outcome`.
- `workflows.dfy` (module `Workflows`): the workflow records, how well-formed they are,
  and the conversion of a training example into the record a worker receives.
- `ai_worker.dfy` (module `AiWorker`): the error classes and the four operations.
  `GetGradingTaskParams` is a pure function over the grading table. The outcome and the
  table update of each completion are specification functions, with lemmas about
  duplicate delivery. `WorkflowStore` is a class holding the two tables as `map` fields.
  Its constructor takes two well-formed tables. Its methods are `GetTrainingTaskParams`
  (builds the record list in a loop, as the source does), `CreateAssessment` and
  `CreateClassifiers` (update the table in place).

The database becomes two maps from UUID to workflow. Storage failures cannot be predicted
from the stored data, so every operation takes them as explicit inputs: `lookupFault` is
a `DatabaseError` while retrieving the workflow; `readFault` is a `ValueError`, `IOError`
or `DatabaseError` while loading a grading workflow's classifiers; `completeFault` is a
`DatabaseError` while recording an assessment; `saveFault` is a serialize, upload or
database failure while storing a classifier set. A raised exception becomes an `Err` or
`Fail` carrying one of four error classes.

The code that completes a training workflow (`AITrainingWorkflow.complete`) is not part
of this model. It raises `NoTrainingExamples` and `IncompleteClassifierSet`, and the model
decides both from the stored data. A workflow without training examples raises
`NoTrainingExamples`. How an incomplete classifier set is recognised is listed under
"Left out".

The store invariant `WorkflowStore.Valid` says three things. A grading workflow is
complete exactly when it has recorded scores. A training workflow is complete exactly
when it has a classifier set. A complete training workflow has examples, and its
classifier set covers every criterion they score. Both completions preserve the
invariant.

## Model

| member | source | states |
|---|---|---|
| `AiWorker.GetGradingTaskParams` | apps/openassessment/assessment/api/ai_worker.py:40-77 | an unknown UUID is a grading request error, and nothing else is; a storage failure caught while retrieving the workflow or loading its classifiers, or a missing classifier set, is a grading internal error, never a request error or success; on success the result is that workflow's essay text, classifier set and algorithm id; the tables are not changed |
| `AiWorker.AssessmentOutcome` | apps/openassessment/assessment/api/ai_worker.py:96-124 | create_assessment fails with a request error exactly for an unknown UUID; it fails with an internal error exactly on a lookup failure, or on a recording failure for an incomplete workflow; it passes otherwise, always for an already complete workflow |
| `AiWorker.Assessed` | apps/openassessment/assessment/api/ai_worker.py:111-117 | a successful create_assessment completes an incomplete workflow with exactly the given scores and keeps its essay, algorithm and classifier set; it leaves a complete workflow and every other workflow unchanged; it keeps the grading table well-formed |
| `AiWorker.AssessedIdempotent` | apps/openassessment/assessment/api/ai_worker.py:111-117 | assessing twice, with any second scores, gives the same table as assessing once |
| `AiWorker.DuplicateAssessmentHarmless` | apps/openassessment/assessment/api/ai_worker.py:111-124 | after a successful create_assessment, a redelivered call passes unless its own lookup fails, and with any scores and faults it changes nothing |
| `AiWorker.AssessmentKeepsGradingTaskParams` | apps/openassessment/assessment/api/ai_worker.py:65-70 | recording an assessment never changes what get_grading_task_params returns for any UUID |
| `AiWorker.ClassifiersOutcome` | apps/openassessment/assessment/api/ai_worker.py:225-255 | create_classifiers fails with a request error exactly for an unknown UUID or an incomplete classifier set; it fails with an internal error exactly on a lookup failure, on an incomplete workflow without examples, or on a serialize, upload or database failure; it passes otherwise, always for an already complete workflow |
| `AiWorker.Trained` | apps/openassessment/assessment/api/ai_worker.py:228-234 | a successful create_classifiers attaches exactly the given set to an incomplete workflow and completes it, keeping its examples and algorithm; it leaves a complete workflow and every other workflow unchanged; it keeps the training table well-formed when the set is complete and examples exist |
| `AiWorker.DuplicateClassifiersHarmless` | apps/openassessment/assessment/api/ai_worker.py:228-234 | after a successful create_classifiers, a redelivered call passes unless its own lookup fails; with any classifiers and faults it changes nothing; the first classifier set stays attached |
| `AiWorker.CompleteTrainingCoversTaskScores` | apps/openassessment/assessment/api/ai_worker.py:178-181 | in a well-formed table, a complete training workflow has a classifier for every criterion in the scores of every record get_training_task_params returns for it |
| `AiWorker.WorkflowStore.GetTrainingTaskParams` | apps/openassessment/assessment/api/ai_worker.py:167-203 | a storage failure is a training internal error; an unknown UUID is a training request error; otherwise the result has the workflow's algorithm id and one record per stored example, in stored order, each the example's `RecordOf` |
| `AiWorker.WorkflowStore.CreateAssessment` | apps/openassessment/assessment/api/ai_worker.py:96-124 | returns `AssessmentOutcome`; on success the grading table becomes `Assessed`, on failure it is unchanged; the training table is untouched; the store stays valid |
| `AiWorker.WorkflowStore.CreateClassifiers` | apps/openassessment/assessment/api/ai_worker.py:225-255 | returns `ClassifiersOutcome`; on success the training table becomes `Trained`; on failure it is unchanged, so the workflow stays incomplete; the grading table is untouched; the store stays valid |
| `Workflows.ScoresOf` | apps/openassessment/assessment/api/ai_worker.py:178-181 | the scores dictionary has exactly the criterion names of the selected options as its keys |
| `Workflows.ScoresOfLastWins` | apps/openassessment/assessment/api/ai_worker.py:178-181 | an option's points are its criterion's score unless a later option names the same criterion (the dictionary comprehension's last-wins rule) |
| `Workflows.ScoresOfDistinct` | apps/openassessment/assessment/api/ai_worker.py:178-181 | when each criterion is selected at most once, every selected option's criterion maps to that option's points |

`Workflows.RecordOf` and `Workflows.AnswerText` carry no contract of their own. A
record's text is the `'answer'` entry of a dictionary answer, `''` when that entry is
missing, and the answer itself otherwise (lines 172-176). Its scores are `ScoresOf` the
example's selected options.

## Left out

- Rescheduling of grading tasks that waited for classifiers: that happens inside
  `AITrainingWorkflow.complete` and in the queue workers, which are not part of this model.
- Logging and the text of error messages: an error is its class only.
- `apps/openassessment/assessment/tasks.py` only registers queue entry points and has no
  logic.
- `apps/openassessment/xblock/test/test_student_training.py` tests the student-training
  views. The answer-matching logic they exercise is not part of this model, and neither
  is the student training workflow.
- The second `except DatabaseError` handler of `create_classifiers` (lines 256-262) can
  never run, because the handler before it already catches `DatabaseError`.
- Serializing and uploading classifiers, and deserializing them for a grading task, are
  I/O. They appear only as the `saveFault` and `readFault` inputs.
- `AiWorker.ClassifiersOutcome`: a database failure is modelled only at the lookup and
  while the set is stored. A database failure inside `complete` before the completeness
  check (for instance while the rubric is looked up) would turn an incomplete-set request
  error into an internal error, and that case is not distinguished.
- `AiWorker.ClassifiersOutcome`: the rubric is not modelled. A classifier set counts as
  incomplete (`IncompleteClassifierSet`) when it lacks a classifier for some criterion
  that the workflow's training examples score; those criteria stand in for the rubric's
  criteria. This choice is also why `AiWorker.CompleteTrainingCoversTaskScores` holds.
- `AiWorker.GetGradingTaskParams`: a storage failure while following the workflow's
  classifier-set reference (line 55) is outside every handler of the source, so it would
  escape as a raw `DatabaseError` rather than a grading error. It is not modelled.
- Concurrency: each call is modelled as one atomic step. The source reads `is_complete`
  and then calls `complete` (lines 116-117 and 230-234) with no lock or transaction in
  this file. Two overlapping deliveries could both see an incomplete workflow and both
  complete it. Such overlapping deliveries are not modelled, and whether `complete` guards
  against them is not part of this model. The duplicate-delivery lemmas cover only a
  delivery that starts after the first one has finished.
- A failure inside either `complete` is taken to leave storage unchanged. Partial writes
  are not modelled.
- A database failure part-way through the loop of `get_training_task_params` discards the
  partial list, so it is modelled as the single `lookupFault` input.
- Answers are strings or dictionaries of strings. A stored answer of another JSON type is
  not modelled.
- The order of `training_examples.all()` and `options_selected.all()` is taken to be the
  stored sequence order.
