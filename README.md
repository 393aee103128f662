# Classifier training-job services, modelled in Dafny

This project models `core/domain/classifier_services.py` of Oppia. That module is the
service layer behind the machine-learning classifiers that match learners' free-text
answers. It covers four things:

- **Classification** (`classification.dfy`).
  - `classify` normalises an answer and hands it to the string classifier.
  - The string classifier builds a training set and trains a classifier algorithm.
    - Each confirmed unclassified answer is labelled `[]`.
    - Each training document of answer group *g*'s classifier rule is labelled `[str(g)]`.
  - The classifier predicts a label. The label is read back with `int()` into an answer-group index.
  - `classify` reports that group's outcome. When nothing matches, it falls back to the
    default outcome with rule spec 0 and certainty 0.0.
  - Labels are written with `str()` and read with `int()`. `labels.dfy` models both on
    decimal strings and proves the round trip.
- **Training jobs** (`classifier_services.dfy`, class `ClassifierStore`, with the
  specification functions and lemmas in `job_specs.dfy`).
  - Create, read and delete.
  - All-or-nothing status updates checked against the table of allowed status changes.
  - Lease renewal by the job TTL.
  - `fetch_next_job`'s paged scan:
    - it marks PENDING jobs FAILED;
    - it hands out the first non-pending job in the order of the query's pages;
    - it renews that job's lease.
- **Exploration–job mappings.** A mapping goes from (exploration id, version, state name)
  to a job id. Three operations use them:
  - `handle_trainable_states` creates one NEW job per state and maps each state to its job.
  - `handle_non_retrainable_states` maps every state of a new version to the job of its
    old-named state in the previous version.
  - `get_classifier_training_jobs` returns the mapped jobs aligned with the state names,
    with `None` where no mapping exists.
- **Classifier data.** The trained classifier is stored under the id of the job that
  trained it. Creating it checks that the job's algorithm is the configured one, and it
  is read back or deleted by id.

`classifier_domain.dfy` holds the records and the configuration:

- job, mapping and classifier-data rows;
- their domain objects, and the projections between the two (both round trips are proved);
- the exploration content that is read;
- the errors raised, one constructor per raising site.

Configuration (`ENABLE_ML_CLASSIFIERS`, `INTERACTION_CLASSIFIER_MAPPING`,
`ALLOWED_TRAINING_JOB_STATUS_CHANGES`, `CLASSIFIER_JOB_TTL_MINS`,
`DEFAULT_CLASSIFIER_LABEL`, the classifier rule type) is a `Config` value. The
domain objects' `validate()` checks are predicates in it.

Each datastore model is a map field of `ClassifierStore`:

- `jobs` maps a job id to a `JobModel`;
- `mappings` maps a `MappingKey` to a job id;
- `classifiers` maps a job id to a `ClassifierDataModel`.

Job ids come from a counter `nextJobId`. The invariant that every stored id is below
the counter makes the ids handed out by `create_multi` fresh.

Every exception becomes an `Err`, or a `Some(error)` result, and the store is then left
unchanged. The exceptions are named by `Error`: `KeyError`s on a configuration table,
failed `validate()` calls, failed lookups and invalid status changes.

The one exception is `handle_trainable_states`, because its source creates the jobs
before it validates the mappings. When a mapping fails validation, the model keeps the
new jobs, as the source does.

The store methods are proved against specification functions:

- `FirstStatusError`, `SetStatus` and `Lease` for the status updates;
- `Select`, `Scanned` and `FlattenFrom` for the scan;
- `TrainableJobModels`, `AddJobs` and `NewJobMappings` for job creation;
- `OldStateNames` and `CarriedOverMappings` for the carry-over;
- `MappingLookup`, `Compact`, `ResolveAll` and `AlignedJobs` for the lookup.

The lemmas in `job_specs.dfy` then state what those functions mean.

Where the code and its documentation disagree, the model follows the code:

- The rule spec index a string-classifier match reports is the one the training-set
  loop left behind, which belongs to the last answer group. The documented index, the
  predicted group's own classifier rule, is modelled beside it; see "## Findings".
- `fetch_next_job` returns the job as it was read during the scan, so with its old
  next-check time. The store gets the renewed time.
- `get` on a missing job or classifier is treated as raising, as the docstrings of
  `get_classifier_by_id` and `get_classifier_training_job_by_id` state. So
  `delete_classifier_training_job`'s `None` guard never fires, and a missing id is
  reported as `JobNotFound`.

## Model

| member | source | states |
|---|---|---|
| Classification.Classify | core/domain/classifier_services.py:33-80 | With classifiers disabled, an unknown interaction or a non-trainable interaction, the matching error. Otherwise the matcher's match or error on the normalised answer, with the rule spec index as the code computes it. With no match, the default outcome reported as group \|groups\|, rule spec 0 and certainty 0.0, or NoMatchForAnswer when there is no default outcome. |
| Classification.ClassifyStringClassifierRule | core/domain/classifier_services.py:83-131 | The result equals the matcher specification as written. Its error cases, in order: interaction not configured, algorithm not registered, label not an integer, index out of range. No match when the training set is empty or the default label is predicted. A match reports the predicted group and its outcome. When that group has a classifier rule, the rule spec index is the last group's classifier rule index; otherwise None. |
| Classification.BuildTrainingExamples | core/domain/classifier_services.py:95-108 | The loop builds exactly the training set: the unclassified answers labelled [], then each group's classifier-rule documents labelled [str(g)], in group order. The loop variable `classifier_rule_spec_index` ends as the last group's classifier rule index. |
| Classification.HasClassifierRule | core/domain/classifier_services.py:117-120 | The rule-spec loop finds a rule spec of the classifier type exactly when the predicted group has one. |
| Classification.ClassifierRuleIndex | core/domain/classifier_services.py:99-104 | get_classifier_rule_index gives the position of the first classifier rule spec, or None exactly when there is none. |
| Classification.GroupExamplesMembers | core/domain/classifier_services.py:97-108 | Every example from the groups is a classifier-rule document of some group g, labelled [str(g)]. |
| Classification.GroupExamplesComplete | core/domain/classifier_services.py:97-108 | Every classifier-rule document of every group is in the training set with that group's label. |
| Classification.GroupExamplesEmpty | core/domain/classifier_services.py:97-109 | The groups contribute no example exactly when no group's classifier rule has documents. |
| Classification.TrainingExamplesContents | core/domain/classifier_services.py:95-108 | The order of the training set: the unclassified answers first, labelled [], then the groups' examples, each with a one-element label. |
| Classification.TrainingExamplesEmpty | core/domain/classifier_services.py:95-109 | The training set is empty, so no training happens, exactly when there are no unclassified answers and no classifier-rule documents. |
| Classification.NoMatchWithoutTrainingOrOnDefaultLabel | core/domain/classifier_services.py:109-131 | With an empty training set, or when the default label is predicted, the matcher reports no match. |
| Classification.TrainedLabelGroup | core/domain/classifier_services.py:106-114 | A trained label comes from a group g with a classifier rule, and `int()` reads it back as g. |
| Classification.TrainedLabelAlwaysMatches | core/domain/classifier_services.py:106-124 | A label the classifier was trained on never makes the matcher as written fail. It reports its group g and g's outcome, with the left-over rule spec index of the last group. |
| Classification.TrainedLabelIntendedMatch | core/domain/classifier_services.py:106-124 | The same for the corrected matcher, which reports group g's own classifier rule. |
| Classification.IntendedRuleSpecIndexIsClassifierRule | core/domain/classifier_services.py:117-124 | The reported group index is in range and the outcome is that group's. A rule spec index is reported exactly when the group has a classifier rule, and then it points at one. |
| Classification.LeftoverIndexRightForLastGroup | core/domain/classifier_services.py:97-119 | The index as written agrees with the intended one when the last group is predicted. |
| Classification.LeftoverRuleSpecIndexMismatch | core/domain/classifier_services.py:97-122 | As written, on a concrete interaction, label "0" is reported with rule spec 0. That rule spec is not a classifier rule; the intended index is 1. |
| Labels.NatToStr | core/domain/classifier_services.py:107 | str(g) is a non-empty string of decimal digits; it is one character exactly when g < 10. |
| Labels.ParseInt | core/domain/classifier_services.py:114 | int(label): a result is only for non-empty text, and a negative one only with a leading minus sign. |
| Labels.ParseNatToStr | core/domain/classifier_services.py:106-114 | int(str(g)) == g for every group index g. |
| Labels.NatToStrInjective | core/domain/classifier_services.py:107 | Different groups get different labels. |
| ClassifierDomain.JobProjectionRoundTrip | core/domain/classifier_services.py:353-373 | A job row and its domain object convert into each other without loss, and the domain object carries the row's id. |
| ClassifierDomain.ClassifierProjectionRoundTrip | core/domain/classifier_services.py:253-267 | The same round trip for classifier data. |
| JobSpecs.FirstStatusErrorNone | core/domain/classifier_services.py:440-464 | A status update succeeds exactly when every listed job exists, may change to the new status and validates. |
| JobSpecs.FirstStatusErrorIsFirst | core/domain/classifier_services.py:443-459 | The error raised is the one for the first listed job that fails a check. |
| JobSpecs.SetStatusAt | core/domain/classifier_services.py:460-464 | After the update, a listed job has the new status and an unlisted job is unchanged. |
| JobSpecs.DisallowedChangeFailsUpdate | core/domain/classifier_services.py:449-454 | One disallowed change anywhere in the list makes the whole update fail. |
| JobSpecs.PutMappingsLast | core/domain/classifier_services.py:190-191 | After create_multi, a key written once holds its job id. |
| JobSpecs.PutMappingsUntouched | core/domain/classifier_services.py:190-191 | Keys that are not written keep their old mapping, or stay absent. |
| JobSpecs.JobModelFor | core/domain/classifier_services.py:147-169 | The row built for one state exists only for a state of the exploration. It has status NEW and check time `now`. It carries the exploration id, version and state name, the state's interaction id and training data, and the algorithm configured for that interaction, and it validates. |
| JobSpecs.TrainableJobModelsShape | core/domain/classifier_services.py:147-169 | One row per listed state, in order: row i is the one built for state i. |
| JobSpecs.TrainableJobModelsOk | core/domain/classifier_services.py:147-169 | The rows are built exactly when every listed state yields one. |
| JobSpecs.TrainableJobModelsErr | core/domain/classifier_services.py:147-169 | Otherwise the error is that of the first state that fails: missing state, interaction not configured or validation failure. |
| JobSpecs.AddJobsEffect | core/domain/classifier_services.py:171-173 | create_multi adds exactly the fresh ids base..base+n-1, holding row i under id base+i, and leaves the existing jobs alone. |
| JobSpecs.NewJobMappingsEffect | core/domain/classifier_services.py:180-191 | For distinct state names, state i of the exploration version is mapped to job base+i. |
| JobSpecs.TrainableStatesCreateJobsAndMappings | core/domain/classifier_services.py:144-191 | handle_trainable_states adds exactly the fresh ids base..base+N-1 and keeps the old jobs. For every state i, `TrainableStateCreated` holds: job base+i is NEW, with the exploration's id and version and the state's name, interaction id and training data, and state i is mapped to it. |
| JobSpecs.TrainableStateCreatesJob | core/domain/classifier_services.py:147-191 | The same facts for one state i. |
| JobSpecs.OldStateNamesShape | core/domain/classifier_services.py:226-229 | The old names are found exactly when every new name has one; they are aligned with the new names. |
| JobSpecs.OldStateNamesErr | core/domain/classifier_services.py:226-229 | The KeyError is raised for the first new name without an old name. |
| JobSpecs.CarriedOverEffect | core/domain/classifier_services.py:234-250 | Each state whose old job was found is mapped to that job's id. A state without one is skipped, and its key keeps what it held. |
| JobSpecs.CarryOverSharesOldJobs | core/domain/classifier_services.py:218-250 | The new version's state is mapped to the very job the previous version mapped its old-named state to. |
| JobSpecs.CompactMembers | core/domain/classifier_services.py:580-584 | Every loaded id comes from a present mapping. |
| JobSpecs.CompactComplete | core/domain/classifier_services.py:580-584 | Every present mapping's id is loaded. |
| JobSpecs.CompactMembership | core/domain/classifier_services.py:580-584 | An id is loaded exactly when some present mapping names it. |
| JobSpecs.Select | core/domain/classifier_services.py:533-537 | The sorted-out ids are stored jobs of the scanned pages, pending or not as asked. |
| JobSpecs.SelectComplete | core/domain/classifier_services.py:533-537 | Conversely, every listed stored job that is pending (or not) as asked is sorted out. |
| JobSpecs.ScannedPendingMarkedFailed | core/domain/classifier_services.py:533-543 | Marking the scanned PENDING jobs FAILED reaches every PENDING job on the scanned pages and changes nothing else about it. |
| JobSpecs.ScanFindsFirstRunnable | core/domain/classifier_services.py:529-547 | The scan stops after the first page with a runnable job. It finds a runnable job exactly when some page of the query holds one, and then the first such job in query order. With none, it reads every page. |
| JobSpecs.ScannedIsPrefix | core/domain/classifier_services.py:529-540 | The scan reads a prefix of the query's pages, in order. |
| ClassifierServices.MappedJobIds | core/domain/classifier_services.py:580-584 | The job ids of the present mappings, in order; an id is collected exactly when some mapping names it. |
| ClassifierServices.JobsFromModels | core/domain/classifier_services.py:585-590 | Loads every listed job as its domain object, or fails with JobNotFound for a listed id that is not stored. |
| ClassifierServices.BackfillMissing | core/domain/classifier_services.py:592-597 | After the Nones are put back, entry i resolves mapping i. |
| ClassifierServices.SortPage | core/domain/classifier_services.py:533-537 | A page is split into its runnable and pending jobs, each in page order. |
| ClassifierServices.CheckStatusChanges | core/domain/classifier_services.py:440-461 | Fails exactly when some listed job fails its check, with the first such error. Otherwise it gives the store with every listed job at the new status. |
| ClassifierServices.BuildTrainableJobModels | core/domain/classifier_services.py:147-169 | The loop builds exactly the rows of TrainableJobModels, or its first error. |
| ClassifierServices.MappingsValid | core/domain/classifier_services.py:180-188 | True exactly when every new mapping validates. |
| ClassifierServices.CollectOldStateNames | core/domain/classifier_services.py:226-229 | The loop collects exactly the old names, or the first KeyError. |
| ClassifierServices.BuildCarriedOverMappings | core/domain/classifier_services.py:233-247 | Gives the carried-over mappings exactly when they all validate, and ValidationFailed otherwise. |
| ClassifierServices.ClassifierStore.GetClassifierById | core/domain/classifier_services.py:270-285 | Finds the classifier exactly when it is stored, as the domain object of its row; otherwise ClassifierNotFound. |
| ClassifierServices.ClassifierStore.NewClassifier | core/domain/classifier_services.py:306-331 | In order: already exists, job missing, interaction not configured, algorithm mismatch, validation failure. On success, the classifier takes the job's exploration, version, state and algorithm and the interaction's current data schema version. |
| ClassifierServices.ClassifierStore.CreateClassifier | core/domain/classifier_services.py:288-339 | Stores exactly that classifier under the job id and nothing else; reading it back yields it. Any error leaves the store unchanged. |
| ClassifierServices.ClassifierStore.DeleteClassifier | core/domain/classifier_services.py:342-350 | Removes exactly that classifier, which can no longer be read; a missing one raises. |
| ClassifierServices.ClassifierStore.GetClassifierTrainingJobById | core/domain/classifier_services.py:376-394 | Finds the job exactly when it is stored, as the domain object of its row with its id; otherwise JobNotFound. |
| ClassifierServices.ClassifierStore.CreateClassifierTrainingJob | core/domain/classifier_services.py:397-425 | Validates the job, then stores it under a fresh id and nothing else, and reading it back yields it. An invalid job changes nothing. |
| ClassifierServices.ClassifierStore.DeleteClassifierTrainingJob | core/domain/classifier_services.py:553-562 | Removes exactly that job, which can no longer be read. |
| ClassifierServices.ClassifierStore.UpdateClassifierTrainingJobsStatus | core/domain/classifier_services.py:428-464 | All or nothing: the first failing check's error with the store unchanged, or every listed job at the new status. |
| ClassifierServices.ClassifierStore.MarkTrainingJobComplete | core/domain/classifier_services.py:467-474 | The one-job update to COMPLETE, with its check. |
| ClassifierServices.ClassifierStore.MarkTrainingJobsFailed | core/domain/classifier_services.py:477-484 | The all-or-nothing update of every listed job to FAILED. |
| ClassifierServices.ClassifierStore.MarkTrainingJobPending | core/domain/classifier_services.py:487-494 | The one-job update to PENDING, with its check. |
| ClassifierServices.ClassifierStore.UpdateJobNextScheduledCheckTime | core/domain/classifier_services.py:497-514 | Sets the job's next check time to now + TTL and changes nothing else; a missing job raises. |
| ClassifierServices.ClassifierStore.ScanJobPages | core/domain/classifier_services.py:517-540 | The pending and the runnable jobs of the pages the scan reads. It finds a runnable job exactly when some page of the query holds one, and then the first such job in query order. |
| ClassifierServices.ClassifierStore.FetchNextJob | core/domain/classifier_services.py:517-550 | If marking the scanned pending jobs FAILED fails, that error with the store unchanged. Otherwise every PENDING job on the scanned pages is FAILED. The result is the first runnable job in query order, as read, with its lease renewed in the store; or none when no page of the query holds a runnable job. |
| ClassifierServices.ClassifierStore.GetClassifierTrainingJobs | core/domain/classifier_services.py:565-597 | One entry per state name, in order. Entry i is None exactly when state i has no mapping; otherwise it is the mapped job. A mapping to a missing job raises JobNotFound. |
| ClassifierServices.ClassifierStore.CreateJobs | core/domain/classifier_services.py:171-173 | create_multi for jobs: the rows go under consecutive fresh ids from the counter. |
| ClassifierServices.ClassifierStore.HandleTrainableStates | core/domain/classifier_services.py:134-191 | With the first state's error, nothing is written. Otherwise the new jobs are added and state i is mapped to job i when all mappings validate. When they do not, ValidationFailed is returned with the jobs already created. |
| ClassifierServices.ClassifierStore.HandleNonRetrainableStates | core/domain/classifier_services.py:194-250 | VersionTooLow for a first version. Otherwise: the KeyError for an unmapped new name, or JobNotFound for a dangling old mapping, or, when every carried-over mapping validates, those mappings written. Every error leaves the mappings unchanged. |

## Left out

- Datastore mechanics are maps and pages of ids.
  - `get`, `get_multi`, `create_multi`, `put_multi` and `delete` are map operations.
  - `query_training_jobs`, with its cursor and `more` flag, is a sequence of pages of stored job ids.
  - The query's own filter on status and check time belongs to `classifier_models`, which is not part of this model.
- `TrainingJobExplorationMappingModel.get_models` is read as a lookup of each (id, version, name) key.
- The clock (`datetime.utcnow()`) is an integer parameter `now`. The TTL is added as whole minutes.
- A job that `create_multi` makes in `handle_trainable_states` gets `now` as its next check time. The model class that chooses that default is not part of this model.
- The `validate()` methods of the domain objects are predicates of `Config`. `get_training_data()` is a field of `State`. Neither body is part of this model.
- The `logging.error` call in `handle_non_retrainable_states` is not modelled. The skip it accompanies is modelled.
- Foreign capabilities are parameters (`Registries`):
  - the classifier algorithm's `train`/`predict`, as a function from training set and input to a label;
  - the interaction registry's `normalize_answer` and `is_string_classifier_trainable`.
- Labels.ParseInt: accepts an optional sign and decimal digits only. The surrounding whitespace and digit-grouping underscores that Python's `int()` also accepts are not modelled, because labels are only ever written by `str()` on an index.
- A `KeyError` on a rule spec without `training_data` is not modelled. A classifier rule's training data is a field of `RuleSpec`.
- A job id listed twice in a status update is checked, each time, against the store as `get_multi` read it. In the source the outcome then depends on whether `get_multi` (line 441) returns the same model object twice, because line 461 changes that object. The model does not capture that aliasing.
- A status with no entry in `ALLOWED_TRAINING_JOB_STATUS_CHANGES` (a `KeyError` in the source) is treated as allowing no change. Either way the update raises.
- Concurrency and transactions between the reads and writes of one operation are not modelled.
- The exploration services that call these functions are not part of this model. Neither are the question services, moderator services, controllers and tests.

## Findings

| source | as written | input that shows it | evidently intended | confidence | as-written member | corrected member |
|---|---|---|---|---|---|---|
| core/domain/classifier_services.py:119 | The matched rule spec index is `classifier_rule_spec_index`, the loop variable left over from the training-set loop, so it is the classifier rule index of the LAST answer group whatever group was predicted. | Group 0 has rule specs [Equals, FuzzyMatches] and group 1 has [FuzzyMatches]. The predictor answers "0". The result reports group 0 with rule spec index 0, which is group 0's Equals rule. | The index of the classifier rule within the predicted group (index 1 here). This is what the documentation of `classify` at lines 49-51 describes. | not executed | Classification.LeftoverRuleSpecIndexMismatch | Classification.IntendedRuleSpecIndexIsClassifierRule |

`Classification.PredictedMatch` models the matcher as written, and `StringClassifierMatch`,
`ClassifyStringClassifierRule` and `Classify` follow it, as the code does.
`Classification.IntendedPredictedMatch` is the corrected matcher. `IntendedRuleSpecIndexIsClassifierRule`
and `TrainedLabelIntendedMatch` state the documented property of it, and
`LeftoverIndexRightForLastGroup` shows the two agree when the last group is predicted.
