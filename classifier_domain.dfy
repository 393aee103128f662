/** Records of the classifier subsystem: training jobs, the mappings from an
    exploration's (id, version, state name) to a job, and trained classifier
    data; the exploration content the services read; the configuration they
    consult; and the errors they raise. */
module ClassifierDomain {

  datatype Option<+T> = None | Some(value: T)

  datatype Result<+T> = Ok(value: T) | Err(error: Error)

  lemma ConcatAssoc<T>(a: seq<T>, b: seq<T>, c: seq<T>)
    ensures a + (b + c) == (a + b) + c
  {
  }

  /** Identifier of a training job; the classifier data trained by a job carries the same id. */
  type JobId = nat

  datatype Status = New | Pending | Complete | Failed

  /** The exceptions the services raise, one constructor per raising site or failed lookup. */
  datatype Error =
    | FeatureDisabled                               // ENABLE_ML_CLASSIFIERS is off
    | InteractionNotFound(interactionId: string)    // unknown interaction type
    | NoClassifierForInteraction                    // interaction is not string-classifier trainable
    | NoMatchForAnswer                              // no match and no default outcome
    | InteractionNotConfigured(interactionId: string) // no entry in the interaction-classifier mapping
    | AlgorithmNotFound(algorithmId: string)        // no classifier registered for the algorithm
    | LabelNotAnInteger(text: string)               // int(predicted_label) fails
    | AnswerGroupIndexOutOfRange(index: int)        // answer_groups[index] fails
    | StateNotFound(stateName: string)              // exploration.states[name] fails
    | StateNameNotMapped(stateName: string)         // new_to_old_state_names[name] fails
    | VersionTooLow(version: int)                   // carry-over called on a first version
    | ValidationFailed                              // a domain object's validate() fails
    | JobNotFound(jobId: JobId)
    | ClassifierAlreadyExists(jobId: JobId)
    | ClassifierNotFound(classifierId: JobId)
    | AlgorithmMismatch(algorithmId: string)        // job's algorithm is not the configured one
    | InvalidStatusChange(from: Status, to: Status)

  /* ---------- exploration content read by the services ---------- */

  datatype RuleSpec = RuleSpec(ruleType: string, trainingData: seq<string>)

  datatype Outcome = Outcome(dest: string, feedback: seq<string>)

  datatype AnswerGroup = AnswerGroup(outcome: Outcome, ruleSpecs: seq<RuleSpec>)

  datatype Interaction = Interaction(
    id: string,
    answerGroups: seq<AnswerGroup>,
    defaultOutcome: Option<Outcome>,
    confirmedUnclassifiedAnswers: seq<string>)

  /** One entry of the training data a state yields for its job. */
  datatype TrainingDatum = TrainingDatum(answerGroupIndex: int, answers: seq<string>)

  /** A state; `trainingData` is what the state's get_training_data() returns. */
  datatype State = State(interaction: Interaction, trainingData: seq<TrainingDatum>)

  datatype Exploration = Exploration(id: string, version: int, states: map<string, State>)

  /* ---------- stored records and their domain objects ---------- */

  /** A stored training job (the datastore row, keyed by its id). */
  datatype JobModel = JobModel(
    algorithmId: string,
    interactionId: string,
    expId: string,
    expVersion: int,
    nextScheduledCheckTime: int,
    stateName: string,
    status: Status,
    trainingData: seq<TrainingDatum>)

  /** The domain object for a training job. */
  datatype TrainingJob = TrainingJob(
    jobId: JobId,
    algorithmId: string,
    interactionId: string,
    expId: string,
    expVersion: int,
    nextScheduledCheckTime: int,
    stateName: string,
    status: Status,
    trainingData: seq<TrainingDatum>)

  /** Key of a stored job-exploration mapping. */
  datatype MappingKey = MappingKey(expId: string, expVersion: int, stateName: string)

  datatype TrainingJobExplorationMapping = TrainingJobExplorationMapping(
    expId: string, expVersion: int, stateName: string, jobId: JobId)

  /** Stored classifier data (keyed by the id of the job that trained it). */
  datatype ClassifierDataModel = ClassifierDataModel(
    expId: string,
    expVersionWhenCreated: int,
    stateName: string,
    algorithmId: string,
    classifierData: string,
    dataSchemaVersion: int)

  datatype ClassifierData = ClassifierData(
    id: JobId,
    expId: string,
    expVersionWhenCreated: int,
    stateName: string,
    algorithmId: string,
    classifierData: string,
    dataSchemaVersion: int)

  /** get_classifier_training_job_from_model: the domain object of a stored job. */
  function JobFromModel(id: JobId, m: JobModel): TrainingJob
  {
    TrainingJob(id, m.algorithmId, m.interactionId, m.expId, m.expVersion,
                m.nextScheduledCheckTime, m.stateName, m.status, m.trainingData)
  }

  /** The stored row a job domain object describes. */
  function JobToModel(j: TrainingJob): JobModel
  {
    JobModel(j.algorithmId, j.interactionId, j.expId, j.expVersion,
             j.nextScheduledCheckTime, j.stateName, j.status, j.trainingData)
  }

  /** get_classifier_from_model: the domain object of stored classifier data. */
  function ClassifierFromModel(id: JobId, m: ClassifierDataModel): ClassifierData
  {
    ClassifierData(id, m.expId, m.expVersionWhenCreated, m.stateName, m.algorithmId,
                   m.classifierData, m.dataSchemaVersion)
  }

  /** The stored row written for a classifier domain object (ClassifierDataModel.create). */
  function ClassifierToModel(c: ClassifierData): ClassifierDataModel
  {
    ClassifierDataModel(c.expId, c.expVersionWhenCreated, c.stateName, c.algorithmId,
                        c.classifierData, c.dataSchemaVersion)
  }

  lemma JobProjectionRoundTrip(id: JobId, m: JobModel, j: TrainingJob)
    ensures JobToModel(JobFromModel(id, m)) == m && JobFromModel(id, m).jobId == id
    ensures JobFromModel(j.jobId, JobToModel(j)) == j
  {
  }

  lemma ClassifierProjectionRoundTrip(id: JobId, m: ClassifierDataModel, c: ClassifierData)
    ensures ClassifierToModel(ClassifierFromModel(id, m)) == m && ClassifierFromModel(id, m).id == id
    ensures ClassifierFromModel(c.id, ClassifierToModel(c)) == c
  {
  }

  /* ---------- configuration ---------- */

  /** One row of INTERACTION_CLASSIFIER_MAPPING. */
  datatype AlgorithmConfig = AlgorithmConfig(algorithmId: string, currentDataSchemaVersion: int)

  /** The configuration the services read: ENABLE_ML_CLASSIFIERS,
      INTERACTION_CLASSIFIER_MAPPING, ALLOWED_TRAINING_JOB_STATUS_CHANGES,
      CLASSIFIER_JOB_TTL_MINS, DEFAULT_CLASSIFIER_LABEL, the classifier rule type,
      and the validate() checks of the three domain objects. */
  datatype Config = Config(
    enableMlClassifiers: bool,
    interactionClassifierMapping: map<string, AlgorithmConfig>,
    allowedStatusChanges: map<Status, set<Status>>,
    classifierJobTtlMins: int,
    defaultClassifierLabel: string,
    classifierRuleType: string,
    jobIsValid: JobModel -> bool,
    mappingIsValid: TrainingJobExplorationMapping -> bool,
    classifierIsValid: ClassifierData -> bool)

  /** `to` is in the allowed-changes entry of `from` (a missing entry allows nothing). */
  predicate StatusChangeAllowed(cfg: Config, from: Status, to: Status)
  {
    from in cfg.allowedStatusChanges && to in cfg.allowedStatusChanges[from]
  }
}
