/** Pure descriptions of what the job services do to the stores (jobs, mappings)
    and the lemmas that state their promises. The imperative services in
    ClassifierServices are proved against these functions. */
module JobSpecs {
  import opened ClassifierDomain

  type JobMap = map<JobId, JobModel>
  type MappingMap = map<MappingKey, JobId>

  /* ---------- status updates (_update_classifier_training_jobs_status) ---------- */

  /** Why one job may not move to `status`, if it may not: it is missing, the change is
      not in the allowed table for its current status, or the updated job fails validation. */
  function StatusCheck(cfg: Config, jobs: JobMap, id: JobId, status: Status): Option<Error>
  {
    if id !in jobs then Some(JobNotFound(id))
    else if !StatusChangeAllowed(cfg, jobs[id].status, status) then
      Some(InvalidStatusChange(jobs[id].status, status))
    else if !cfg.jobIsValid(jobs[id].(status := status)) then Some(ValidationFailed)
    else None
  }

  /** The error of the first listed job that may not move to `status`. */
  function FirstStatusError(cfg: Config, jobs: JobMap, ids: seq<JobId>, status: Status): Option<Error>
    decreases |ids|
  {
    if |ids| == 0 then None
    else match FirstStatusError(cfg, jobs, ids[..|ids| - 1], status)
      case Some(e) => Some(e)
      case None => StatusCheck(cfg, jobs, ids[|ids| - 1], status)
  }

  /** Every listed job that the store holds, moved to `status`. */
  function SetStatus(jobs: JobMap, ids: seq<JobId>, status: Status): (r: JobMap)
    ensures r.Keys == jobs.Keys
    decreases |ids|
  {
    if |ids| == 0 then jobs
    else
      var prev := SetStatus(jobs, ids[..|ids| - 1], status);
      var id := ids[|ids| - 1];
      if id in prev then prev[id := prev[id].(status := status)] else prev
  }

  /** One more listed job: its check decides, and then it is updated. */
  lemma StatusPrefixStep(cfg: Config, jobs: JobMap, ids: seq<JobId>, status: Status, i: nat)
    requires i < |ids|
    requires FirstStatusError(cfg, jobs, ids[..i], status).None?
    ensures FirstStatusError(cfg, jobs, ids[..i + 1], status) == StatusCheck(cfg, jobs, ids[i], status)
    ensures var prev := SetStatus(jobs, ids[..i], status);
      SetStatus(jobs, ids[..i + 1], status) == if ids[i] in prev then prev[ids[i] := prev[ids[i]].(status := status)] else prev
  {
    assert ids[..i + 1][..i] == ids[..i];
  }

  /** A status update succeeds exactly when every listed job passes its check. */
  lemma {:induction false} FirstStatusErrorNone(cfg: Config, jobs: JobMap, ids: seq<JobId>, status: Status)
    ensures FirstStatusError(cfg, jobs, ids, status).None? <==>
      forall i :: 0 <= i < |ids| ==> StatusCheck(cfg, jobs, ids[i], status).None?
    decreases |ids|
  {
    if |ids| > 0 {
      var init := ids[..|ids| - 1];
      FirstStatusErrorNone(cfg, jobs, init, status);
      assert forall i :: 0 <= i < |init| ==> init[i] == ids[i];
    }
  }

  /** The error reported is that of the first job that fails its check. */
  lemma {:induction false} FirstStatusErrorIsFirst(cfg: Config, jobs: JobMap, ids: seq<JobId>, status: Status, k: nat)
    requires k < |ids|
    requires FirstStatusError(cfg, jobs, ids[..k], status).None?
    requires StatusCheck(cfg, jobs, ids[k], status).Some?
    ensures FirstStatusError(cfg, jobs, ids, status) == StatusCheck(cfg, jobs, ids[k], status)
    decreases |ids|
  {
    var init := ids[..|ids| - 1];
    if k == |ids| - 1 {
      assert init == ids[..k];
    } else {
      assert init[..k] == ids[..k];
      FirstStatusErrorIsFirst(cfg, jobs, init, status, k);
    }
  }

  /** After an update every listed job has the new status and nothing else about it
      changed; every other job is untouched. */
  lemma {:induction false} SetStatusAt(jobs: JobMap, ids: seq<JobId>, status: Status, id: JobId)
    requires id in jobs
    ensures SetStatus(jobs, ids, status)[id] == if id in ids then jobs[id].(status := status) else jobs[id]
    decreases |ids|
  {
    if |ids| > 0 {
      var init := ids[..|ids| - 1];
      SetStatusAt(jobs, init, status, id);
      assert ids == init + [ids[|ids| - 1]];
      assert (id in ids) <==> (id in init || id == ids[|ids| - 1]);
    }
  }

  /** A job whose current status does not allow the requested one makes the whole
      update fail, whatever else is listed. */
  lemma DisallowedChangeFailsUpdate(cfg: Config, jobs: JobMap, ids: seq<JobId>, status: Status, k: nat)
    requires k < |ids| && ids[k] in jobs
    requires !StatusChangeAllowed(cfg, jobs[ids[k]].status, status)
    ensures FirstStatusError(cfg, jobs, ids, status).Some?
  {
    FirstStatusErrorNone(cfg, jobs, ids, status);
  }

  /** The lease _update_job_next_scheduled_check_time writes. */
  function Lease(jobs: JobMap, id: JobId, until: int): JobMap
    requires id in jobs
  {
    jobs[id := jobs[id].(nextScheduledCheckTime := until)]
  }

  /* ---------- mapping writes (TrainingJobExplorationMappingModel.create_multi) ---------- */

  /** The mappings after writing the pairs in order; a later pair for a key wins. */
  function PutMappings(m: MappingMap, ps: seq<(MappingKey, JobId)>): MappingMap
    decreases |ps|
  {
    if |ps| == 0 then m
    else PutMappings(m, ps[..|ps| - 1])[ps[|ps| - 1].0 := ps[|ps| - 1].1]
  }

  lemma PutMappingsAppend(m: MappingMap, ps: seq<(MappingKey, JobId)>, p: (MappingKey, JobId))
    ensures PutMappings(m, ps + [p]) == PutMappings(m, ps)[p.0 := p.1]
  {
    assert (ps + [p])[..|ps|] == ps;
  }

  /** A key written by no pair keeps its old mapping (or stays absent). */
  lemma {:induction false} PutMappingsUntouched(m: MappingMap, ps: seq<(MappingKey, JobId)>, k: MappingKey)
    requires forall j :: 0 <= j < |ps| ==> ps[j].0 != k
    ensures (k in PutMappings(m, ps)) == (k in m)
    ensures k in m ==> PutMappings(m, ps)[k] == m[k]
    decreases |ps|
  {
    if |ps| > 0 {
      PutMappingsUntouched(m, ps[..|ps| - 1], k);
    }
  }

  /** The last pair written for a key decides its mapping. */
  lemma {:induction false} PutMappingsLast(m: MappingMap, ps: seq<(MappingKey, JobId)>, i: nat)
    requires i < |ps|
    requires forall j :: i < j < |ps| ==> ps[j].0 != ps[i].0
    ensures ps[i].0 in PutMappings(m, ps) && PutMappings(m, ps)[ps[i].0] == ps[i].1
    decreases |ps|
  {
    if i < |ps| - 1 {
      PutMappingsLast(m, ps[..|ps| - 1], i);
    }
  }

  function MappingOf(p: (MappingKey, JobId)): TrainingJobExplorationMapping
  {
    TrainingJobExplorationMapping(p.0.expId, p.0.expVersion, p.0.stateName, p.1)
  }

  predicate AllMappingsValid(cfg: Config, ps: seq<(MappingKey, JobId)>)
  {
    forall i :: 0 <= i < |ps| ==> cfg.mappingIsValid(MappingOf(ps[i]))
  }

  predicate Distinct(names: seq<string>)
  {
    forall i, j :: 0 <= i < j < |names| ==> names[i] != names[j]
  }

  /* ---------- handle_trainable_states ---------- */

  /** The job row built for one trainable state, or the error its lookups or
      validation raise. Its check time is the clock at creation. */
  function JobModelFor(cfg: Config, exploration: Exploration, stateName: string, now: int): (r: Result<JobModel>)
    ensures r.Ok? ==> (
      && r.value.status == New && r.value.stateName == stateName
      && r.value.expId == exploration.id && r.value.expVersion == exploration.version
      && stateName in exploration.states
      && r.value.interactionId == exploration.states[stateName].interaction.id
      && r.value.trainingData == exploration.states[stateName].trainingData
      && r.value.nextScheduledCheckTime == now
      && r.value.interactionId in cfg.interactionClassifierMapping
      && r.value.algorithmId == cfg.interactionClassifierMapping[r.value.interactionId].algorithmId
      && cfg.jobIsValid(r.value))
  {
    if stateName !in exploration.states then Err(StateNotFound(stateName))
    else
      var state := exploration.states[stateName];
      var interactionId := state.interaction.id;
      if interactionId !in cfg.interactionClassifierMapping then Err(InteractionNotConfigured(interactionId))
      else
        var m := JobModel(cfg.interactionClassifierMapping[interactionId].algorithmId, interactionId,
                          exploration.id, exploration.version, now, stateName, New, state.trainingData);
        if !cfg.jobIsValid(m) then Err(ValidationFailed) else Ok(m)
  }

  /** The job rows for the listed states, in order, or the first state's error. */
  function TrainableJobModels(cfg: Config, exploration: Exploration, names: seq<string>, now: int): Result<seq<JobModel>>
    decreases |names|
  {
    if |names| == 0 then Ok([])
    else match TrainableJobModels(cfg, exploration, names[..|names| - 1], now)
      case Err(e) => Err(e)
      case Ok(ms) =>
        match JobModelFor(cfg, exploration, names[|names| - 1], now)
        case Err(e) => Err(e)
        case Ok(m) => Ok(ms + [m])
  }

  /** The rows are built one per state, in the order of the names. */
  lemma {:induction false} TrainableJobModelsShape(cfg: Config, exploration: Exploration, names: seq<string>, now: int)
    requires TrainableJobModels(cfg, exploration, names, now).Ok?
    ensures var ms := TrainableJobModels(cfg, exploration, names, now).value;
      |ms| == |names| && forall i :: 0 <= i < |names| ==> JobModelFor(cfg, exploration, names[i], now) == Ok(ms[i])
    decreases |names|
  {
    if |names| > 0 {
      var init := names[..|names| - 1];
      TrainableJobModelsShape(cfg, exploration, init, now);
      assert forall i :: 0 <= i < |init| ==> init[i] == names[i];
    }
  }

  /** The rows are built exactly when every listed state yields one. */
  lemma {:induction false} TrainableJobModelsOk(cfg: Config, exploration: Exploration, names: seq<string>, now: int)
    ensures TrainableJobModels(cfg, exploration, names, now).Ok? <==>
      forall i :: 0 <= i < |names| ==> JobModelFor(cfg, exploration, names[i], now).Ok?
    decreases |names|
  {
    if |names| > 0 {
      var init := names[..|names| - 1];
      TrainableJobModelsOk(cfg, exploration, init, now);
      assert forall i :: 0 <= i < |init| ==> init[i] == names[i];
    }
  }

  /** The error is that of the first state whose row cannot be built. */
  lemma {:induction false} TrainableJobModelsErr(cfg: Config, exploration: Exploration, names: seq<string>, now: int, k: nat)
    requires k < |names|
    requires TrainableJobModels(cfg, exploration, names[..k], now).Ok?
    requires JobModelFor(cfg, exploration, names[k], now).Err?
    ensures TrainableJobModels(cfg, exploration, names, now) == Err(JobModelFor(cfg, exploration, names[k], now).error)
    decreases |names|
  {
    var init := names[..|names| - 1];
    if k == |names| - 1 {
      assert init == names[..k];
    } else {
      assert init[..k] == names[..k];
      TrainableJobModelsErr(cfg, exploration, init, now, k);
    }
  }

  /** The jobs after create_multi: rows ms under the fresh ids base, base + 1, .... */
  function AddJobs(jobs: JobMap, base: JobId, ms: seq<JobModel>): JobMap
  {
    jobs + map id | id in IdRange(base, |ms|) :: ms[id - base]
  }

  /** The n ids handed out from `base` on. */
  function IdRange(base: JobId, n: nat): (r: set<JobId>)
    ensures forall id :: id in r <==> base <= id < base + n
    decreases n
  {
    if n == 0 then {} else IdRange(base, n - 1) + {base + n - 1}
  }

  /** The mapping of state i to the i-th created job. */
  function NewJobMappings(exploration: Exploration, names: seq<string>, base: JobId): (ps: seq<(MappingKey, JobId)>)
    ensures |ps| == |names|
  {
    seq(|names|, i requires 0 <= i < |names| => (MappingKey(exploration.id, exploration.version, names[i]), (base + i) as JobId))
  }

  /** create_multi of the rows: each row gets its own fresh id base + i, the existing
      jobs are untouched, and nothing else is added. */
  lemma AddJobsEffect(jobs: JobMap, base: JobId, ms: seq<JobModel>)
    requires forall id :: id in jobs ==> id < base
    ensures AddJobs(jobs, base, ms).Keys == jobs.Keys + IdRange(base, |ms|)
    ensures forall id :: id in AddJobs(jobs, base, ms) ==> id < base + |ms|
    ensures forall id :: id in jobs ==> AddJobs(jobs, base, ms)[id] == jobs[id]
    ensures forall i :: 0 <= i < |ms| ==> base + i !in jobs && AddJobs(jobs, base, ms)[base + i] == ms[i]
  {
    var added := map id | id in IdRange(base, |ms|) :: ms[id - base];
    assert forall i :: 0 <= i < |ms| ==> base + i in added && added[base + i] == ms[i];
  }

  /** For distinct state names, writing the new mappings maps (exp id, version, state i)
      to the i-th created job. */
  lemma NewJobMappingsEffect(exploration: Exploration, names: seq<string>, base: JobId, mappings: MappingMap, i: nat)
    requires i < |names| && Distinct(names)
    ensures var mappings' := PutMappings(mappings, NewJobMappings(exploration, names, base));
      var k := MappingKey(exploration.id, exploration.version, names[i]);
      k in mappings' && mappings'[k] == base + i
  {
    var ps := NewJobMappings(exploration, names, base);
    assert forall j :: i < j < |ps| ==> ps[j].0 != ps[i].0 by {
      forall j | i < j < |ps| ensures ps[j].0 != ps[i].0 {
        assert names[i] != names[j];
      }
    }
    PutMappingsLast(mappings, ps, i);
  }

  /** handle_trainable_states on N distinct state names creates N new jobs with status
      NEW, each carrying the exploration's id and version and its state's name,
      interaction and training data, leaves the existing jobs alone, and maps
      (exp id, version, state i) to the i-th job. */
  lemma TrainableStatesCreateJobsAndMappings(
    cfg: Config, exploration: Exploration, names: seq<string>, now: int,
    jobs: JobMap, mappings: MappingMap, base: JobId)
    requires forall id :: id in jobs ==> id < base
    requires TrainableJobModels(cfg, exploration, names, now).Ok?
    requires Distinct(names)
    ensures var jobs' := AddJobs(jobs, base, TrainableJobModels(cfg, exploration, names, now).value);
      var mappings' := PutMappings(mappings, NewJobMappings(exploration, names, base));
      && jobs'.Keys == jobs.Keys + IdRange(base, |names|)
      && (forall id :: id in jobs ==> jobs'[id] == jobs[id])
      && (forall i :: 0 <= i < |names| ==> TrainableStateCreated(cfg, exploration, names, now, jobs, mappings, base, i))
  {
    var ms := TrainableJobModels(cfg, exploration, names, now).value;
    TrainableJobModelsShape(cfg, exploration, names, now);
    AddJobsEffect(jobs, base, ms);
    forall i | 0 <= i < |names| ensures TrainableStateCreated(cfg, exploration, names, now, jobs, mappings, base, i) {
      TrainableStateCreatesJob(cfg, exploration, names, now, jobs, mappings, base, i);
    }
  }

  /** What handle_trainable_states creates for state i: a fresh job id base + i, holding
      a NEW job of the exploration's id and version with the state's name, interaction
      and training data, and the mapping of (exp id, version, state i) to it. */
  ghost predicate TrainableStateCreated(
    cfg: Config, exploration: Exploration, names: seq<string>, now: int,
    jobs: JobMap, mappings: MappingMap, base: JobId, i: nat)
    requires TrainableJobModels(cfg, exploration, names, now).Ok?
  {
    var jobs' := AddJobs(jobs, base, TrainableJobModels(cfg, exploration, names, now).value);
    var mappings' := PutMappings(mappings, NewJobMappings(exploration, names, base));
    && i < |names| && base + i !in jobs && base + i in jobs'
    && jobs'[base + i].status == New
    && jobs'[base + i].expId == exploration.id
    && jobs'[base + i].expVersion == exploration.version
    && jobs'[base + i].stateName == names[i]
    && names[i] in exploration.states
    && jobs'[base + i].interactionId == exploration.states[names[i]].interaction.id
    && jobs'[base + i].trainingData == exploration.states[names[i]].trainingData
    && MappingKey(exploration.id, exploration.version, names[i]) in mappings'
    && mappings'[MappingKey(exploration.id, exploration.version, names[i])] == base + i
  }

  lemma TrainableStateCreatesJob(
    cfg: Config, exploration: Exploration, names: seq<string>, now: int,
    jobs: JobMap, mappings: MappingMap, base: JobId, i: nat)
    requires forall id :: id in jobs ==> id < base
    requires TrainableJobModels(cfg, exploration, names, now).Ok?
    requires Distinct(names) && i < |names|
    ensures TrainableStateCreated(cfg, exploration, names, now, jobs, mappings, base, i)
  {
    var ms := TrainableJobModels(cfg, exploration, names, now).value;
    TrainableJobModelsShape(cfg, exploration, names, now);
    AddJobsEffect(jobs, base, ms);
    assert JobModelFor(cfg, exploration, names[i], now) == Ok(ms[i]);
    NewJobMappingsEffect(exploration, names, base, mappings, i);
  }

  /* ---------- get_classifier_training_jobs ---------- */

  function KeyOf(expId: string, expVersion: int, stateName: string): MappingKey
  {
    MappingKey(expId, expVersion, stateName)
  }

  /** TrainingJobExplorationMappingModel.get_models: per state name, the mapped job id or None. */
  function MappingLookup(mappings: MappingMap, expId: string, expVersion: int, names: seq<string>): (r: seq<Option<JobId>>)
    ensures |r| == |names|
  {
    seq(|names|, i requires 0 <= i < |names| =>
      if KeyOf(expId, expVersion, names[i]) in mappings then Some(mappings[KeyOf(expId, expVersion, names[i])]) else None)
  }

  /** Every mapping found for the names points at a stored job. */
  predicate MappedJobsExist(jobs: JobMap, mappings: MappingMap, expId: string, expVersion: int, names: seq<string>)
  {
    forall i :: 0 <= i < |names| && KeyOf(expId, expVersion, names[i]) in mappings ==>
      mappings[KeyOf(expId, expVersion, names[i])] in jobs
  }

  /** The job domain object for a looked-up id. */
  function Resolve(jobs: JobMap, o: Option<JobId>): Option<TrainingJob>
  {
    if o.Some? && o.value in jobs then Some(JobFromModel(o.value, jobs[o.value])) else None
  }

  function ResolveAll(jobs: JobMap, os: seq<Option<JobId>>): (r: seq<Option<TrainingJob>>)
    ensures |r| == |os|
  {
    seq(|os|, i requires 0 <= i < |os| => Resolve(jobs, os[i]))
  }

  /** The ids of the mappings found, in order (the job_ids loop). */
  function Compact(os: seq<Option<JobId>>): seq<JobId>
    decreases |os|
  {
    if |os| == 0 then []
    else (if os[0].Some? then [os[0].value] else []) + Compact(os[1..])
  }

  /** Domain objects of the jobs in `ids`, in order (the from-model loop). */
  function Lift(jobs: JobMap, ids: seq<JobId>): (r: seq<Option<TrainingJob>>)
    ensures |r| == |ids|
  {
    seq(|ids|, i requires 0 <= i < |ids| => Resolve(jobs, Some(ids[i])))
  }

  lemma {:induction false} CompactMembers(os: seq<Option<JobId>>, x: JobId)
    requires x in Compact(os)
    ensures exists i :: 0 <= i < |os| && os[i] == Some(x)
    decreases |os|
  {
    if os[0] != Some(x) {
      CompactMembers(os[1..], x);
      var i :| 0 <= i < |os[1..]| && os[1..][i] == Some(x);
      assert os[i + 1] == Some(x);
    }
  }

  lemma {:induction false} CompactComplete(os: seq<Option<JobId>>, i: nat)
    requires i < |os| && os[i].Some?
    ensures os[i].value in Compact(os)
    decreases |os|
  {
    if i > 0 {
      CompactComplete(os[1..], i - 1);
    }
  }

  /** An id is collected exactly when some present mapping names it. */
  lemma CompactMembership(os: seq<Option<JobId>>)
    ensures forall x :: x in Compact(os) <==> exists i :: 0 <= i < |os| && os[i] == Some(x)
  {
    forall x | x in Compact(os) ensures exists i :: 0 <= i < |os| && os[i] == Some(x) {
      CompactMembers(os, x);
    }
    forall x, i | 0 <= i < |os| && os[i] == Some(x) ensures x in Compact(os) {
      CompactComplete(os, i);
    }
  }

  lemma ResolveAllSnoc(jobs: JobMap, os: seq<Option<JobId>>, k: nat)
    requires k < |os|
    ensures ResolveAll(jobs, os[..k + 1]) == ResolveAll(jobs, os[..k]) + [Resolve(jobs, os[k])]
  {
  }

  /** One step of the collecting loop: mapping k contributes its id, if present. */
  lemma CompactStep(acc: seq<JobId>, os: seq<Option<JobId>>, k: nat)
    requires k < |os|
    requires acc + Compact(os[k..]) == Compact(os)
    ensures (acc + if os[k].Some? then [os[k].value] else []) + Compact(os[k + 1..]) == Compact(os)
  {
    assert os[k..][1..] == os[k + 1..];
    ConcatAssoc(acc, if os[k].Some? then [os[k].value] else [], Compact(os[k + 1..]));
  }

  lemma LiftCompactStep(jobs: JobMap, os: seq<Option<JobId>>, k: nat)
    requires k < |os|
    ensures Lift(jobs, Compact(os[k..])) ==
      (if os[k].Some? then [Resolve(jobs, os[k])] else []) + Lift(jobs, Compact(os[k + 1..]))
  {
    assert os[k..][1..] == os[k + 1..];
  }

  /** The list get_classifier_training_jobs returns: entry i is the job mapped from
      state i, or None when no mapping exists for it. */
  function AlignedJobs(jobs: JobMap, mappings: MappingMap, expId: string, expVersion: int, names: seq<string>)
    : (r: seq<Option<TrainingJob>>)
    ensures |r| == |names|
  {
    ResolveAll(jobs, MappingLookup(mappings, expId, expVersion, names))
  }

  /* ---------- handle_non_retrainable_states ---------- */

  /** The old name of each listed state, or the error of the first one without one. */
  function OldStateNames(names: seq<string>, newToOld: map<string, string>): (r: Result<seq<string>>)
    ensures r.Ok? ==> |r.value| == |names|
    decreases |names|
  {
    if |names| == 0 then Ok([])
    else match OldStateNames(names[..|names| - 1], newToOld)
      case Err(e) => Err(e)
      case Ok(olds) =>
        if names[|names| - 1] in newToOld then Ok(olds + [newToOld[names[|names| - 1]]])
        else Err(StateNameNotMapped(names[|names| - 1]))
  }

  lemma {:induction false} OldStateNamesShape(names: seq<string>, newToOld: map<string, string>)
    ensures OldStateNames(names, newToOld).Ok? <==> forall i :: 0 <= i < |names| ==> names[i] in newToOld
    ensures OldStateNames(names, newToOld).Ok? ==>
      var olds := OldStateNames(names, newToOld).value;
      |olds| == |names| && forall i :: 0 <= i < |names| ==> olds[i] == newToOld[names[i]]
    decreases |names|
  {
    if |names| > 0 {
      var init := names[..|names| - 1];
      OldStateNamesShape(init, newToOld);
      assert forall i :: 0 <= i < |init| ==> init[i] == names[i];
    }
  }

  /** The new mappings: (exp id, new version, new name i) to the job found for state i,
      skipping the states for which no job was found. */
  function CarriedOverMappings(expId: string, version: int, names: seq<string>, found: seq<Option<TrainingJob>>)
    : seq<(MappingKey, JobId)>
    requires |found| == |names|
    decreases |names|
  {
    if |names| == 0 then []
    else
      var n := |names| - 1;
      CarriedOverMappings(expId, version, names[..n], found[..n])
        + (if found[n].Some? then [(KeyOf(expId, version, names[n]), found[n].value.jobId)] else [])
  }

  /** The error names the first state without an old name. */
  lemma {:induction false} OldStateNamesErr(names: seq<string>, newToOld: map<string, string>, k: nat)
    requires k < |names|
    requires OldStateNames(names[..k], newToOld).Ok?
    requires names[k] !in newToOld
    ensures OldStateNames(names, newToOld) == Err(StateNameNotMapped(names[k]))
    decreases |names|
  {
    var init := names[..|names| - 1];
    if k == |names| - 1 {
      assert init == names[..k];
    } else {
      assert init[..k] == names[..k];
      OldStateNamesErr(init, newToOld, k);
    }
  }

  /** The mappings carried over for the first i states are a prefix of all of them. */
  lemma {:induction false} CarriedOverPrefix(expId: string, version: int, names: seq<string>, found: seq<Option<TrainingJob>>, i: nat)
    requires |found| == |names| && i <= |names|
    ensures CarriedOverMappings(expId, version, names[..i], found[..i]) <= CarriedOverMappings(expId, version, names, found)
    decreases |names|
  {
    if i < |names| {
      var n := |names| - 1;
      assert names[..n][..i] == names[..i] && found[..n][..i] == found[..i];
      CarriedOverPrefix(expId, version, names[..n], found[..n], i);
    } else {
      assert names[..i] == names && found[..i] == found;
    }
  }

  lemma {:induction false} CarriedOverKeys(expId: string, version: int, names: seq<string>, found: seq<Option<TrainingJob>>, k: MappingKey)
    requires |found| == |names|
    requires forall i :: 0 <= i < |names| ==> KeyOf(expId, version, names[i]) != k
    ensures forall j :: 0 <= j < |CarriedOverMappings(expId, version, names, found)| ==>
      CarriedOverMappings(expId, version, names, found)[j].0 != k
    decreases |names|
  {
    if |names| > 0 {
      var n := |names| - 1;
      CarriedOverKeys(expId, version, names[..n], found[..n], k);
    }
  }

  /** Writing the carried-over mappings maps each new state name with a found job to
      that job's id, and leaves the key of a state without a job as it was. */
  lemma {:induction false} CarriedOverEffect(
    m: MappingMap, expId: string, version: int, names: seq<string>, found: seq<Option<TrainingJob>>, i: nat)
    requires |found| == |names| && i < |names|
    requires Distinct(names)
    ensures var m' := PutMappings(m, CarriedOverMappings(expId, version, names, found));
      var k := KeyOf(expId, version, names[i]);
      && (found[i].Some? ==> k in m' && m'[k] == found[i].value.jobId)
      && (found[i].None? ==> (k in m') == (k in m) && (k in m ==> m'[k] == m[k]))
    decreases |names|
  {
    var n := |names| - 1;
    var k := KeyOf(expId, version, names[i]);
    var init := CarriedOverMappings(expId, version, names[..n], found[..n]);
    var ps := CarriedOverMappings(expId, version, names, found);
    if found[n].Some? {
      PutMappingsAppend(m, init, (KeyOf(expId, version, names[n]), found[n].value.jobId));
    } else {
      assert ps == init + [];
      assert ps == init;
      assert PutMappings(m, ps) == PutMappings(m, init);
    }
    if i == n {
      forall q | 0 <= q < |names[..n]| ensures KeyOf(expId, version, names[..n][q]) != k {
        assert names[..n][q] == names[q];
      }
      CarriedOverKeys(expId, version, names[..n], found[..n], k);
      PutMappingsUntouched(m, init, k);
    } else {
      assert Distinct(names[..n]) by {
        forall a, b | 0 <= a < b < |names[..n]| ensures names[..n][a] != names[..n][b] {
          assert names[..n][a] == names[a] && names[..n][b] == names[b];
        }
      }
      CarriedOverEffect(m, expId, version, names[..n], found[..n], i);
      assert names[..n][i] == names[i] && found[..n][i] == found[i];
      assert names[n] != names[i];
    }
  }

  /** What handle_non_retrainable_states adds, stated on the stores it reads: for
      distinct new names, (exp id, version, name i) is mapped to the job the old
      version mapped the old name to; a state whose old mapping is missing is skipped. */
  lemma CarryOverSharesOldJobs(
    jobs: JobMap, mappings: MappingMap, exploration: Exploration, names: seq<string>, olds: seq<string>, i: nat)
    requires |olds| == |names| && i < |names| && Distinct(names)
    requires MappedJobsExist(jobs, mappings, exploration.id, exploration.version - 1, olds)
    ensures var found := AlignedJobs(jobs, mappings, exploration.id, exploration.version - 1, olds);
      var m' := PutMappings(mappings, CarriedOverMappings(exploration.id, exploration.version, names, found));
      var oldKey := KeyOf(exploration.id, exploration.version - 1, olds[i]);
      var newKey := KeyOf(exploration.id, exploration.version, names[i]);
      && (oldKey in mappings ==> newKey in m' && m'[newKey] == mappings[oldKey])
      && (oldKey !in mappings ==> (newKey in m') == (newKey in mappings)
                                  && (newKey in mappings ==> m'[newKey] == mappings[newKey]))
  {
    var found := AlignedJobs(jobs, mappings, exploration.id, exploration.version - 1, olds);
    CarriedOverEffect(mappings, exploration.id, exploration.version, names, found, i);
  }

  /* ---------- fetch_next_job's scan ---------- */

  /** The listed ids of stored jobs whose status is (pending) or is not (!pending) PENDING, in order. */
  function Select(jobs: JobMap, ids: seq<JobId>, pending: bool): (r: seq<JobId>)
    ensures forall x :: x in r ==> x in ids && x in jobs && (jobs[x].status == Pending) == pending
    decreases |ids|
  {
    if |ids| == 0 then []
    else
      (if ids[0] in jobs && (jobs[ids[0]].status == Pending) == pending then [ids[0]] else [])
      + Select(jobs, ids[1..], pending)
  }

  lemma {:induction false} SelectConcat(jobs: JobMap, a: seq<JobId>, b: seq<JobId>, pending: bool)
    ensures Select(jobs, a + b, pending) == Select(jobs, a, pending) + Select(jobs, b, pending)
    decreases |a|
  {
    if |a| > 0 {
      assert (a + b)[1..] == a[1..] + b;
      SelectConcat(jobs, a[1..], b, pending);
    } else {
      assert a + b == b;
    }
  }

  /** Every listed stored job whose status qualifies is selected. */
  lemma {:induction false} SelectComplete(jobs: JobMap, ids: seq<JobId>, pending: bool, x: JobId)
    requires x in ids && x in jobs && (jobs[x].status == Pending) == pending
    ensures x in Select(jobs, ids, pending)
    decreases |ids|
  {
    if ids[0] != x {
      assert x in ids[1..];
      SelectComplete(jobs, ids[1..], pending, x);
    }
  }

  /** Reading one more id extends the selection by that id when it qualifies. */
  lemma SelectSnoc(jobs: JobMap, a: seq<JobId>, x: JobId, pending: bool)
    ensures Select(jobs, a + [x], pending) ==
      Select(jobs, a, pending) + (if x in jobs && (jobs[x].status == Pending) == pending then [x] else [])
  {
    SelectConcat(jobs, a, [x], pending);
    assert [x][1..] == [];
  }

  /** Every id on every page is a stored job: the store's query yields stored jobs. */
  predicate PagesInStore(jobs: JobMap, pages: seq<seq<JobId>>)
  {
    forall p, k :: 0 <= p < |pages| && 0 <= k < |pages[p]| ==> pages[p][k] in jobs
  }

  /** All ids on pages p, p + 1, ... in query order. */
  function FlattenFrom(pages: seq<seq<JobId>>, p: nat): seq<JobId>
    decreases |pages| - p
  {
    if p >= |pages| then [] else pages[p] + FlattenFrom(pages, p + 1)
  }

  /** The ids the scan reads from page p on: pages up to and including the first one
      holding a runnable (non-PENDING) job, or through the last page. */
  function ScannedFrom(jobs: JobMap, pages: seq<seq<JobId>>, p: nat): seq<JobId>
    decreases |pages| - p
  {
    if p >= |pages| then []
    else if p + 1 == |pages| || |Select(jobs, pages[p], false)| > 0 then pages[p]
    else pages[p] + ScannedFrom(jobs, pages, p + 1)
  }

  /** One step of the scan: page p is read; the scan goes on only when the page has
      no runnable job and another page follows. */
  lemma ScannedFromStep(jobs: JobMap, pages: seq<seq<JobId>>, p: nat)
    requires p < |pages|
    ensures |Select(jobs, pages[p], false)| > 0 || p + 1 == |pages| ==> ScannedFrom(jobs, pages, p) == pages[p]
    ensures |Select(jobs, pages[p], false)| == 0 && p + 1 < |pages| ==>
      ScannedFrom(jobs, pages, p) == pages[p] + ScannedFrom(jobs, pages, p + 1)
  {
  }

  /** One page of the scan, read while nothing runnable has been found: the selections
      grow by the page's, and the scan has read page p last or goes on with p + 1. */
  lemma ScanPageStep(jobs: JobMap, pages: seq<seq<JobId>>, p: nat, scanned: seq<JobId>)
    requires p < |pages|
    requires |Select(jobs, scanned, false)| == 0
    requires ScannedFrom(jobs, pages, 0) == scanned + ScannedFrom(jobs, pages, p)
    ensures var next := scanned + pages[p];
      && Select(jobs, next, false) == Select(jobs, scanned, false) + Select(jobs, pages[p], false)
      && Select(jobs, next, true) == Select(jobs, scanned, true) + Select(jobs, pages[p], true)
      && (|Select(jobs, next, false)| > 0 || p + 1 == |pages| ==> ScannedFrom(jobs, pages, 0) == next)
      && (|Select(jobs, next, false)| == 0 && p + 1 < |pages| ==>
            ScannedFrom(jobs, pages, 0) == next + ScannedFrom(jobs, pages, p + 1))
  {
    SelectConcat(jobs, scanned, pages[p], false);
    SelectConcat(jobs, scanned, pages[p], true);
    ScannedFromStep(jobs, pages, p);
    if |Select(jobs, pages[p], false)| == 0 && p + 1 < |pages| {
      ConcatAssoc(scanned, pages[p], ScannedFrom(jobs, pages, p + 1));
    }
  }

  function Scanned(jobs: JobMap, pages: seq<seq<JobId>>): seq<JobId>
  {
    ScannedFrom(jobs, pages, 0)
  }

  /** The scan finds a runnable job exactly when some page holds one, and the first one
      it finds is the first runnable job in query order; when it finds none it has
      read every page. */
  lemma {:induction false} ScanFindsFirstRunnable(jobs: JobMap, pages: seq<seq<JobId>>, p: nat)
    ensures var s := Select(jobs, ScannedFrom(jobs, pages, p), false);
      var all := Select(jobs, FlattenFrom(pages, p), false);
      && (|s| == 0 <==> |all| == 0)
      && (|s| > 0 ==> s[0] == all[0])
      && (|all| == 0 ==> ScannedFrom(jobs, pages, p) == FlattenFrom(pages, p))
    decreases |pages| - p
  {
    if p < |pages| {
      SelectConcat(jobs, pages[p], FlattenFrom(pages, p + 1), false);
      if p + 1 == |pages| {
        assert FlattenFrom(pages, p + 1) == [];
        assert FlattenFrom(pages, p) == pages[p] + [];
      } else if |Select(jobs, pages[p], false)| == 0 {
        ScanFindsFirstRunnable(jobs, pages, p + 1);
        SelectConcat(jobs, pages[p], ScannedFrom(jobs, pages, p + 1), false);
      }
    }
  }

  /** Marking the scanned PENDING jobs FAILED reaches every PENDING job on the scanned
      pages, and changes nothing else about it. */
  lemma ScannedPendingMarkedFailed(jobs: JobMap, pages: seq<seq<JobId>>, x: JobId)
    requires x in Scanned(jobs, pages) && x in jobs && jobs[x].status == Pending
    ensures var failed := SetStatus(jobs, Select(jobs, Scanned(jobs, pages), true), Failed);
      x in failed && failed[x] == jobs[x].(status := Failed)
  {
    SelectComplete(jobs, Scanned(jobs, pages), true, x);
    SetStatusAt(jobs, Select(jobs, Scanned(jobs, pages), true), Failed, x);
  }

  /** The scan reads a prefix of the ids in query order. */
  lemma {:induction false} ScannedIsPrefix(jobs: JobMap, pages: seq<seq<JobId>>, p: nat)
    ensures var s := ScannedFrom(jobs, pages, p);
      |s| <= |FlattenFrom(pages, p)| && s == FlattenFrom(pages, p)[..|s|]
    decreases |pages| - p
  {
    if p < |pages| {
      var rest := FlattenFrom(pages, p + 1);
      assert (pages[p] + rest)[..|pages[p]|] == pages[p];
      if p + 1 < |pages| && |Select(jobs, pages[p], false)| == 0 {
        ScannedIsPrefix(jobs, pages, p + 1);
        var s := ScannedFrom(jobs, pages, p + 1);
        assert (pages[p] + rest)[..|pages[p]| + |s|] == pages[p] + rest[..|s|];
      }
    }
  }
}
