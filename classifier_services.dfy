/** The classifier services over the three stores they write: training jobs,
    job-exploration mappings and classifier data. Each method reads and writes the
    stores as the service does and is proved against the functions of JobSpecs. */
module ClassifierServices {
  import opened ClassifierDomain
  import opened JobSpecs

  /* ---------- the loops of the services, on values ---------- */

  /** The job ids of the mappings found, in order (get_classifier_training_jobs). */
  method MappedJobIds(mm: seq<Option<JobId>>) returns (jobIds: seq<JobId>)
    ensures jobIds == Compact(mm)
    ensures forall x :: x in jobIds <==> exists i :: 0 <= i < |mm| && mm[i] == Some(x)
  {
    jobIds := [];
    var k := 0;
    while k < |mm|
      invariant 0 <= k <= |mm|
      invariant jobIds + Compact(mm[k..]) == Compact(mm)
    {
      CompactStep(jobIds, mm, k);
      jobIds := jobIds + if mm[k].Some? then [mm[k].value] else [];
      k := k + 1;
    }
    assert mm[k..] == [];
    CompactMembership(mm);
  }

  /** The domain objects of the listed jobs; a listed job missing from the store
      makes get_classifier_training_job_from_model fail on None. */
  method JobsFromModels(jobs: JobMap, jobIds: seq<JobId>) returns (r: Result<seq<Option<TrainingJob>>>)
    ensures r.Ok? <==> forall j :: 0 <= j < |jobIds| ==> jobIds[j] in jobs
    ensures r.Ok? ==> r.value == Lift(jobs, jobIds)
    ensures r.Ok? ==> forall j :: 0 <= j < |jobIds| ==> r.value[j] == Some(JobFromModel(jobIds[j], jobs[jobIds[j]]))
    ensures r.Err? ==> r.error.JobNotFound? && r.error.jobId in jobIds && r.error.jobId !in jobs
  {
    var list: seq<Option<TrainingJob>> := [];
    var k := 0;
    while k < |jobIds|
      invariant 0 <= k <= |jobIds|
      invariant forall j :: 0 <= j < k ==> jobIds[j] in jobs
      invariant list == Lift(jobs, jobIds[..k])
    {
      var id := jobIds[k];
      if id !in jobs {
        return Err(JobNotFound(id));
      }
      list := list + [Some(JobFromModel(id, jobs[id]))];
      k := k + 1;
    }
    assert jobIds[..k] == jobIds;
    return Ok(list);
  }

  /** The back-fill loop: inserts None at the index of every missing mapping, so the
      list lines up with the state names again. */
  method BackfillMissing(jobs: JobMap, mm: seq<Option<JobId>>, loaded: seq<Option<TrainingJob>>)
    returns (list: seq<Option<TrainingJob>>)
    requires loaded == Lift(jobs, Compact(mm))
    ensures list == ResolveAll(jobs, mm)
  {
    list := loaded;
    var k := 0;
    assert mm[k..] == mm && mm[..k] == [];
    while k < |mm|
      invariant 0 <= k <= |mm|
      invariant list == ResolveAll(jobs, mm[..k]) + Lift(jobs, Compact(mm[k..]))
    {
      ghost var done := ResolveAll(jobs, mm[..k]);
      ghost var rest := Lift(jobs, Compact(mm[k + 1..]));
      ResolveAllSnoc(jobs, mm, k);
      LiftCompactStep(jobs, mm, k);
      if mm[k].None? {
        assert list[..k] == done && list[k..] == rest;
        list := list[..k] + [None] + list[k..];
      } else {
        ConcatAssoc(done, [Resolve(jobs, mm[k])], rest);
      }
      k := k + 1;
    }
    assert mm[..k] == mm;
  }

  /** The inner loop of fetch_next_job over one page: PENDING jobs to the stale list,
      the others to the runnable list, each in page order. */
  method SortPage(jobs: JobMap, page: seq<JobId>) returns (runnable: seq<JobId>, stale: seq<JobId>)
    requires forall k :: 0 <= k < |page| ==> page[k] in jobs
    ensures runnable == Select(jobs, page, false)
    ensures stale == Select(jobs, page, true)
  {
    runnable, stale := [], [];
    var k := 0;
    while k < |page|
      invariant 0 <= k <= |page|
      invariant runnable == Select(jobs, page[..k], false)
      invariant stale == Select(jobs, page[..k], true)
    {
      var id := page[k];
      assert page[..k + 1] == page[..k] + [id];
      SelectSnoc(jobs, page[..k], id, false);
      SelectSnoc(jobs, page[..k], id, true);
      if jobs[id].status == Pending {
        stale := stale + [id];
      } else {
        runnable := runnable + [id];
      }
      k := k + 1;
    }
    assert page[..k] == page;
  }

  /** The loop of _update_classifier_training_jobs_status over the rows read up front:
      each listed job must exist, allow the change and stay valid after it, checked
      in order; the rows with the new status, or the first failure. */
  method CheckStatusChanges(cfg: Config, snapshot: JobMap, jobIds: seq<JobId>, status: Status)
    returns (r: Result<JobMap>)
    ensures r.Err? <==> FirstStatusError(cfg, snapshot, jobIds, status).Some?
    ensures r.Err? ==> Some(r.error) == FirstStatusError(cfg, snapshot, jobIds, status)
    ensures r.Ok? ==> r.value == SetStatus(snapshot, jobIds, status)
  {
    var updated := snapshot;
    var i := 0;
    while i < |jobIds|
      invariant 0 <= i <= |jobIds|
      invariant FirstStatusError(cfg, snapshot, jobIds[..i], status).None?
      invariant updated == SetStatus(snapshot, jobIds[..i], status)
    {
      var id := jobIds[i];
      StatusPrefixStep(cfg, snapshot, jobIds, status, i);
      if id !in snapshot {
        FirstStatusErrorIsFirst(cfg, snapshot, jobIds, status, i);
        return Err(JobNotFound(id));
      }
      var initial := snapshot[id].status;
      if !StatusChangeAllowed(cfg, initial, status) {
        FirstStatusErrorIsFirst(cfg, snapshot, jobIds, status, i);
        return Err(InvalidStatusChange(initial, status));
      }
      if !cfg.jobIsValid(snapshot[id].(status := status)) {
        FirstStatusErrorIsFirst(cfg, snapshot, jobIds, status, i);
        return Err(ValidationFailed);
      }
      updated := updated[id := updated[id].(status := status)];
      i := i + 1;
    }
    assert jobIds[..i] == jobIds;
    return Ok(updated);
  }

  /** The first loop of handle_trainable_states: one validated row per state, in order,
      or the error of the first state that fails. */
  method BuildTrainableJobModels(cfg: Config, exploration: Exploration, stateNames: seq<string>, now: int)
    returns (r: Result<seq<JobModel>>)
    ensures r == TrainableJobModels(cfg, exploration, stateNames, now)
  {
    var ms: seq<JobModel> := [];
    var i := 0;
    while i < |stateNames|
      invariant 0 <= i <= |stateNames|
      invariant TrainableJobModels(cfg, exploration, stateNames[..i], now) == Ok(ms)
    {
      assert stateNames[..i + 1][..i] == stateNames[..i];
      var m := JobModelFor(cfg, exploration, stateNames[i], now);
      if m.Err? {
        TrainableJobModelsErr(cfg, exploration, stateNames, now, i);
        return Err(m.error);
      }
      ms := ms + [m.value];
      i := i + 1;
    }
    assert stateNames[..i] == stateNames;
    return Ok(ms);
  }

  /** The validate() calls of the mapping loop of handle_trainable_states. */
  method MappingsValid(cfg: Config, ps: seq<(MappingKey, JobId)>) returns (ok: bool)
    ensures ok <==> AllMappingsValid(cfg, ps)
  {
    var i := 0;
    while i < |ps|
      invariant 0 <= i <= |ps|
      invariant forall j :: 0 <= j < i ==> cfg.mappingIsValid(MappingOf(ps[j]))
    {
      if !cfg.mappingIsValid(MappingOf(ps[i])) {
        return false;
      }
      i := i + 1;
    }
    return true;
  }

  /** The first loop of handle_non_retrainable_states: the old name of every state. */
  method CollectOldStateNames(stateNames: seq<string>, newToOld: map<string, string>)
    returns (r: Result<seq<string>>)
    ensures r == OldStateNames(stateNames, newToOld)
  {
    var olds: seq<string> := [];
    var i := 0;
    while i < |stateNames|
      invariant 0 <= i <= |stateNames|
      invariant OldStateNames(stateNames[..i], newToOld) == Ok(olds)
    {
      assert stateNames[..i + 1][..i] == stateNames[..i];
      if stateNames[i] !in newToOld {
        OldStateNamesErr(stateNames, newToOld, i);
        return Err(StateNameNotMapped(stateNames[i]));
      }
      olds := olds + [newToOld[stateNames[i]]];
      i := i + 1;
    }
    assert stateNames[..i] == stateNames;
    return Ok(olds);
  }

  /** The mapping loop of handle_non_retrainable_states: a validated mapping from the
      new version's state i to the job found for it, skipping states without one. */
  method BuildCarriedOverMappings(
    cfg: Config, expId: string, version: int, stateNames: seq<string>, found: seq<Option<TrainingJob>>)
    returns (r: Result<seq<(MappingKey, JobId)>>)
    requires |found| == |stateNames|
    ensures r.Ok? <==> AllMappingsValid(cfg, CarriedOverMappings(expId, version, stateNames, found))
    ensures r.Ok? ==> r.value == CarriedOverMappings(expId, version, stateNames, found)
    ensures r.Err? ==> r.error == ValidationFailed
  {
    var ps: seq<(MappingKey, JobId)> := [];
    var i := 0;
    while i < |found|
      invariant 0 <= i <= |found|
      invariant ps == CarriedOverMappings(expId, version, stateNames[..i], found[..i])
      invariant AllMappingsValid(cfg, ps)
    {
      assert stateNames[..i + 1][..i] == stateNames[..i] && found[..i + 1][..i] == found[..i];
      if found[i].Some? {
        var pair := (KeyOf(expId, version, stateNames[i]), found[i].value.jobId);
        if !cfg.mappingIsValid(MappingOf(pair)) {
          CarriedOverPrefix(expId, version, stateNames, found, i + 1);
          assert (ps + [pair])[|ps|] == pair;
          return Err(ValidationFailed);
        }
        ps := ps + [pair];
      }
      i := i + 1;
    }
    assert stateNames[..i] == stateNames && found[..i] == found;
    return Ok(ps);
  }

  class ClassifierStore {
    /** ClassifierTrainingJobModel rows by job id. */
    var jobs: JobMap
    /** TrainingJobExplorationMappingModel rows by (exp id, exp version, state name). */
    var mappings: MappingMap
    /** ClassifierDataModel rows by the id of the job that trained them. */
    var classifiers: map<JobId, ClassifierDataModel>
    /** The next id the job store hands out. */
    var nextJobId: JobId

    /** Every stored job has an id below the counter, so new ids are fresh. */
    ghost predicate Valid()
      reads this
    {
      forall id :: id in jobs ==> id < nextJobId
    }

    constructor()
      ensures Valid()
      ensures jobs == map[] && mappings == map[] && classifiers == map[] && nextJobId == 0
    {
      jobs := map[];
      mappings := map[];
      classifiers := map[];
      nextJobId := 0;
    }

    /* ---------- classifier data ---------- */

    /** get_classifier_by_id: the stored classifier as a domain object; a missing id raises. */
    function GetClassifierById(classifierId: JobId): (r: Result<ClassifierData>)
      reads this
      ensures r.Ok? <==> classifierId in classifiers
      ensures r.Ok? ==> r.value.id == classifierId && ClassifierToModel(r.value) == classifiers[classifierId]
      ensures r.Err? ==> r.error == ClassifierNotFound(classifierId)
    {
      if classifierId in classifiers then Ok(ClassifierFromModel(classifierId, classifiers[classifierId]))
      else Err(ClassifierNotFound(classifierId))
    }

    /** The classifier create_classifier would store for a job, or the error it raises:
        existing data first, then a missing job, then an interaction without a
        configured algorithm, then an algorithm other than the configured one, then
        validation. The data carries the job's exploration, version, state and
        algorithm and the configured schema version. */
    function NewClassifier(cfg: Config, jobId: JobId, payload: string): (r: Result<ClassifierData>)
      reads this
      ensures jobId in classifiers ==> r == Err(ClassifierAlreadyExists(jobId))
      ensures jobId !in classifiers && jobId !in jobs ==> r == Err(JobNotFound(jobId))
      ensures jobId !in classifiers && jobId in jobs && jobs[jobId].interactionId !in cfg.interactionClassifierMapping ==>
        r == Err(InteractionNotConfigured(jobs[jobId].interactionId))
      ensures (&& jobId !in classifiers && jobId in jobs
               && jobs[jobId].interactionId in cfg.interactionClassifierMapping
               && cfg.interactionClassifierMapping[jobs[jobId].interactionId].algorithmId != jobs[jobId].algorithmId)
        ==> r == Err(AlgorithmMismatch(jobs[jobId].algorithmId))
      ensures r.Ok? ==> (
        && jobId !in classifiers && jobId in jobs
        && jobs[jobId].interactionId in cfg.interactionClassifierMapping
        && cfg.classifierIsValid(r.value)
        && var job := jobs[jobId];
           r.value == ClassifierData(jobId, job.expId, job.expVersion, job.stateName, job.algorithmId, payload,
                                     cfg.interactionClassifierMapping[job.interactionId].currentDataSchemaVersion))
      ensures r.Err? && r.error == ValidationFailed ==> jobId !in classifiers && jobId in jobs
    {
      if jobId in classifiers then Err(ClassifierAlreadyExists(jobId))
      else if jobId !in jobs then Err(JobNotFound(jobId))
      else
        var job := jobs[jobId];
        if job.interactionId !in cfg.interactionClassifierMapping then Err(InteractionNotConfigured(job.interactionId))
        else
          var entry := cfg.interactionClassifierMapping[job.interactionId];
          if entry.algorithmId != job.algorithmId then Err(AlgorithmMismatch(job.algorithmId))
          else
            var c := ClassifierData(jobId, job.expId, job.expVersion, job.stateName, job.algorithmId, payload,
                                    entry.currentDataSchemaVersion);
            if !cfg.classifierIsValid(c) then Err(ValidationFailed) else Ok(c)
    }

    /** create_classifier: stores the classifier trained by a job under the job's id;
        reading it back yields exactly the classifier built for the job. */
    method CreateClassifier(cfg: Config, jobId: JobId, payload: string) returns (r: Result<JobId>)
      modifies this`classifiers
      ensures r.Ok? <==> old(NewClassifier(cfg, jobId, payload)).Ok?
      ensures r.Err? ==> r.error == old(NewClassifier(cfg, jobId, payload)).error && classifiers == old(classifiers)
      ensures r.Ok? ==> (
        && r.value == jobId
        && classifiers == old(classifiers)[jobId := ClassifierToModel(old(NewClassifier(cfg, jobId, payload)).value)]
        && GetClassifierById(jobId) == Ok(old(NewClassifier(cfg, jobId, payload)).value))
    {
      var c := NewClassifier(cfg, jobId, payload);
      if c.Err? {
        return Err(c.error);
      }
      classifiers := classifiers[jobId := ClassifierToModel(c.value)];
      return Ok(jobId);
    }

    /** delete_classifier: removes the classifier; a missing one raises. */
    method DeleteClassifier(classifierId: JobId) returns (err: Option<Error>)
      modifies this`classifiers
      ensures err.None? <==> classifierId in old(classifiers)
      ensures err.Some? ==> err.value == ClassifierNotFound(classifierId) && classifiers == old(classifiers)
      ensures err.None? ==> (classifiers == old(classifiers) - {classifierId} && GetClassifierById(classifierId).Err?)
    {
      if classifierId !in classifiers {
        return Some(ClassifierNotFound(classifierId));
      }
      classifiers := classifiers - {classifierId};
      return None;
    }

    /* ---------- training jobs ---------- */

    /** get_classifier_training_job_by_id: the stored job as a domain object; a missing id raises. */
    function GetClassifierTrainingJobById(jobId: JobId): (r: Result<TrainingJob>)
      reads this
      ensures r.Ok? <==> jobId in jobs
      ensures r.Ok? ==> r.value.jobId == jobId && JobToModel(r.value) == jobs[jobId]
      ensures r.Err? ==> r.error == JobNotFound(jobId)
    {
      if jobId in jobs then Ok(JobFromModel(jobId, jobs[jobId])) else Err(JobNotFound(jobId))
    }

    /** create_classifier_training_job: validates the job and stores it under a fresh
        id with the clock as its next check time; reading it back yields that job. */
    method CreateClassifierTrainingJob(
      cfg: Config, algorithmId: string, interactionId: string, expId: string, expVersion: int,
      stateName: string, trainingData: seq<TrainingDatum>, status: Status, now: int)
      returns (r: Result<JobId>)
      requires Valid()
      modifies this`jobs, this`nextJobId
      ensures Valid()
      ensures var m := JobModel(algorithmId, interactionId, expId, expVersion, now, stateName, status, trainingData);
        && (r.Ok? <==> cfg.jobIsValid(m))
        && (r.Err? ==> r.error == ValidationFailed && jobs == old(jobs) && nextJobId == old(nextJobId))
        && (r.Ok? ==> (r.value !in old(jobs) && jobs == old(jobs)[r.value := m]
              && GetClassifierTrainingJobById(r.value) == Ok(JobFromModel(r.value, m))))
    {
      var m := JobModel(algorithmId, interactionId, expId, expVersion, now, stateName, status, trainingData);
      if !cfg.jobIsValid(m) {
        return Err(ValidationFailed);
      }
      var id := nextJobId;
      jobs := jobs[id := m];
      nextJobId := nextJobId + 1;
      return Ok(id);
    }

    /** delete_classifier_training_job: removes the job; the store's get raises for a
        missing id before the None guard is reached. */
    method DeleteClassifierTrainingJob(jobId: JobId) returns (err: Option<Error>)
      requires Valid()
      modifies this`jobs
      ensures Valid()
      ensures err.None? <==> jobId in old(jobs)
      ensures err.Some? ==> err.value == JobNotFound(jobId) && jobs == old(jobs)
      ensures err.None? ==> (jobs == old(jobs) - {jobId} && GetClassifierTrainingJobById(jobId).Err?)
    {
      if jobId !in jobs {
        return Some(JobNotFound(jobId));
      }
      jobs := jobs - {jobId};
      return None;
    }

    /* ---------- status changes ---------- */

    /** _update_classifier_training_jobs_status: checks every listed job against the
        rows read up front (exists, allowed change, valid after the change), raising at
        the first failure before anything is written; then writes all of them. */
    method UpdateClassifierTrainingJobsStatus(cfg: Config, jobIds: seq<JobId>, status: Status)
      returns (err: Option<Error>)
      requires Valid()
      modifies this`jobs
      ensures Valid()
      ensures err == FirstStatusError(cfg, old(jobs), jobIds, status)
      ensures err.None? ==> jobs == SetStatus(old(jobs), jobIds, status)
      ensures err.Some? ==> jobs == old(jobs)
    {
      var checked := CheckStatusChanges(cfg, jobs, jobIds, status);
      if checked.Err? {
        return Some(checked.error);
      }
      jobs := checked.value;
      return None;
    }

    /** mark_training_job_complete. */
    method MarkTrainingJobComplete(cfg: Config, jobId: JobId) returns (err: Option<Error>)
      requires Valid()
      modifies this`jobs
      ensures Valid()
      ensures err == StatusCheck(cfg, old(jobs), jobId, Complete)
      ensures err.None? ==> jobs == old(jobs)[jobId := old(jobs)[jobId].(status := Complete)]
      ensures err.Some? ==> jobs == old(jobs)
    {
      assert [jobId][..0] == [];
      err := UpdateClassifierTrainingJobsStatus(cfg, [jobId], Complete);
    }

    /** mark_training_jobs_failed. */
    method MarkTrainingJobsFailed(cfg: Config, jobIds: seq<JobId>) returns (err: Option<Error>)
      requires Valid()
      modifies this`jobs
      ensures Valid()
      ensures err == FirstStatusError(cfg, old(jobs), jobIds, Failed)
      ensures err.None? ==> jobs == SetStatus(old(jobs), jobIds, Failed)
      ensures err.Some? ==> jobs == old(jobs)
    {
      err := UpdateClassifierTrainingJobsStatus(cfg, jobIds, Failed);
    }

    /** mark_training_job_pending. */
    method MarkTrainingJobPending(cfg: Config, jobId: JobId) returns (err: Option<Error>)
      requires Valid()
      modifies this`jobs
      ensures Valid()
      ensures err == StatusCheck(cfg, old(jobs), jobId, Pending)
      ensures err.None? ==> jobs == old(jobs)[jobId := old(jobs)[jobId].(status := Pending)]
      ensures err.Some? ==> jobs == old(jobs)
    {
      assert [jobId][..0] == [];
      err := UpdateClassifierTrainingJobsStatus(cfg, [jobId], Pending);
    }

    /** _update_job_next_scheduled_check_time: leases the job for the TTL from `now`. */
    method UpdateJobNextScheduledCheckTime(cfg: Config, jobId: JobId, now: int) returns (err: Option<Error>)
      requires Valid()
      modifies this`jobs
      ensures Valid()
      ensures err.None? <==> jobId in old(jobs)
      ensures err.Some? ==> err.value == JobNotFound(jobId) && jobs == old(jobs)
      ensures err.None? ==> jobs == Lease(old(jobs), jobId, now + cfg.classifierJobTtlMins)
    {
      if jobId !in jobs {
        return Some(JobNotFound(jobId));
      }
      jobs := Lease(jobs, jobId, now + cfg.classifierJobTtlMins);
      return None;
    }

    /* ---------- the job queue ---------- */

    /** The scan loop of fetch_next_job: reads the query's pages in order, sorting the
        jobs into PENDING ones (stale leases) and the others (runnable), and stops after
        the first page that yields a runnable job or when no page is left. */
    method ScanJobPages(pages: seq<seq<JobId>>) returns (runnable: seq<JobId>, stale: seq<JobId>)
      requires PagesInStore(jobs, pages)
      ensures runnable == Select(jobs, Scanned(jobs, pages), false)
      ensures stale == Select(jobs, Scanned(jobs, pages), true)
      ensures |runnable| > 0 <==> |Select(jobs, FlattenFrom(pages, 0), false)| > 0
      ensures |runnable| > 0 ==> runnable[0] == Select(jobs, FlattenFrom(pages, 0), false)[0]
    {
      ScanFindsFirstRunnable(jobs, pages, 0);
      runnable, stale := [], [];
      if |pages| == 0 {
        return;
      }
      var p := 0;
      ghost var scanned: seq<JobId> := [];
      while |runnable| == 0
        invariant p < |pages|
        invariant runnable == Select(jobs, scanned, false) && stale == Select(jobs, scanned, true)
        invariant |runnable| == 0 ==> Scanned(jobs, pages) == scanned + ScannedFrom(jobs, pages, p)
        invariant |runnable| > 0 ==> Scanned(jobs, pages) == scanned
        decreases |pages| - p
      {
        var pageRunnable, pageStale := SortPage(jobs, pages[p]);
        ScanPageStep(jobs, pages, p, scanned);
        runnable, stale := runnable + pageRunnable, stale + pageStale;
        scanned := scanned + pages[p];
        if p + 1 == |pages| {
          break;
        }
        p := p + 1;
      }
    }

    /** fetch_next_job: scans the queue, marks the stale (PENDING) jobs it read as
        FAILED, then leases the first runnable job and returns it as it was read. */
    method FetchNextJob(cfg: Config, pages: seq<seq<JobId>>, now: int) returns (r: Result<Option<TrainingJob>>)
      requires Valid() && PagesInStore(jobs, pages)
      modifies this`jobs
      ensures Valid()
      ensures var scanned := Scanned(old(jobs), pages);
        var stale := Select(old(jobs), scanned, true);
        var runnable := Select(old(jobs), scanned, false);
        var failure := FirstStatusError(cfg, old(jobs), stale, Failed);
        && (failure.Some? ==> r == Err(failure.value) && jobs == old(jobs))
        && (failure.None? ==> forall x :: x in scanned && x in old(jobs) && old(jobs)[x].status == Pending ==>
              x in jobs && jobs[x].status == Failed)
        && (failure.None? && |runnable| > 0 ==>
              && r == Ok(Some(JobFromModel(runnable[0], old(jobs)[runnable[0]])))
              && |Select(old(jobs), FlattenFrom(pages, 0), false)| > 0
              && runnable[0] == Select(old(jobs), FlattenFrom(pages, 0), false)[0]
              && jobs == Lease(SetStatus(old(jobs), stale, Failed), runnable[0], now + cfg.classifierJobTtlMins))
        && (failure.None? && |runnable| == 0 ==>
              && r == Ok(None)
              && |Select(old(jobs), FlattenFrom(pages, 0), false)| == 0
              && jobs == SetStatus(old(jobs), stale, Failed))
    {
      var before := jobs;
      var runnable, stale := ScanJobPages(pages);
      if |stale| > 0 {
        var err := MarkTrainingJobsFailed(cfg, stale);
        if err.Some? {
          return Err(err.value);
        }
      }
      forall x | x in Scanned(before, pages) && x in before && before[x].status == Pending
        ensures x in jobs && jobs[x].status == Failed
      {
        ScannedPendingMarkedFailed(before, pages, x);
      }
      if |runnable| > 0 {
        var next := JobFromModel(runnable[0], before[runnable[0]]);
        var leaseErr := UpdateJobNextScheduledCheckTime(cfg, runnable[0], now);
        return Ok(Some(next));
      }
      return Ok(None);
    }

    /* ---------- exploration-job mappings ---------- */

    /** get_classifier_training_jobs: the job mapped from each listed state of the
        exploration version, None for a state without a mapping, in the order of the
        names; a mapping to a missing job raises. */
    method GetClassifierTrainingJobs(expId: string, expVersion: int, stateNames: seq<string>)
      returns (r: Result<seq<Option<TrainingJob>>>)
      ensures r.Ok? <==> MappedJobsExist(jobs, mappings, expId, expVersion, stateNames)
      ensures r.Err? ==> r.error.JobNotFound? && r.error.jobId !in jobs
      ensures r.Ok? ==> r.value == AlignedJobs(jobs, mappings, expId, expVersion, stateNames)
      ensures r.Ok? ==> forall i :: 0 <= i < |stateNames| ==>
        var key := KeyOf(expId, expVersion, stateNames[i]);
        && (r.value[i].None? <==> key !in mappings)
        && (r.value[i].Some? ==> r.value[i].value == JobFromModel(mappings[key], jobs[mappings[key]]))
    {
      var mm := MappingLookup(mappings, expId, expVersion, stateNames);
      var jobIds := MappedJobIds(mm);
      var loaded := JobsFromModels(jobs, jobIds);
      if loaded.Err? {
        CompactMembers(mm, loaded.error.jobId);
        return Err(loaded.error);
      }
      assert MappedJobsExist(jobs, mappings, expId, expVersion, stateNames) by {
        forall i | 0 <= i < |stateNames| && KeyOf(expId, expVersion, stateNames[i]) in mappings
          ensures mappings[KeyOf(expId, expVersion, stateNames[i])] in jobs
        {
          CompactComplete(mm, i);
        }
      }
      var list := BackfillMissing(jobs, mm, loaded.value);
      return Ok(list);
    }

    /** ClassifierTrainingJobModel.create_multi: stores the rows under fresh ids
        handed out by the counter, in order. */
    method CreateJobs(ms: seq<JobModel>) returns (base: JobId)
      requires Valid()
      modifies this`jobs, this`nextJobId
      ensures Valid()
      ensures base == old(nextJobId) && nextJobId == base + |ms|
      ensures jobs == AddJobs(old(jobs), base, ms)
    {
      base := nextJobId;
      AddJobsEffect(jobs, base, ms);
      jobs := AddJobs(jobs, base, ms);
      nextJobId := nextJobId + |ms|;
    }

    /** handle_trainable_states: builds and validates a NEW job for every listed state
        (raising before any write), creates them all, then validates and writes the
        mapping of each state of this exploration version to its job. */
    method HandleTrainableStates(cfg: Config, exploration: Exploration, stateNames: seq<string>, now: int)
      returns (err: Option<Error>)
      requires Valid()
      modifies this`jobs, this`mappings, this`nextJobId
      ensures Valid()
      ensures classifiers == old(classifiers)
      ensures TrainableJobModels(cfg, exploration, stateNames, now).Err? ==>
        && err == Some(TrainableJobModels(cfg, exploration, stateNames, now).error)
        && jobs == old(jobs) && mappings == old(mappings) && nextJobId == old(nextJobId)
      ensures TrainableJobModels(cfg, exploration, stateNames, now).Ok? ==>
        var ms := TrainableJobModels(cfg, exploration, stateNames, now).value;
        var ps := NewJobMappings(exploration, stateNames, old(nextJobId));
        && jobs == AddJobs(old(jobs), old(nextJobId), ms)
        && nextJobId == old(nextJobId) + |ms|
        && (AllMappingsValid(cfg, ps) ==> err.None? && mappings == PutMappings(old(mappings), ps))
        && (!AllMappingsValid(cfg, ps) ==> err == Some(ValidationFailed) && mappings == old(mappings))
    {
      var built := BuildTrainableJobModels(cfg, exploration, stateNames, now);
      if built.Err? {
        return Some(built.error);
      }
      var ms := built.value;
      var base := CreateJobs(ms);
      var ps := NewJobMappings(exploration, stateNames, base);
      var ok := MappingsValid(cfg, ps);
      if !ok {
        return Some(ValidationFailed);
      }
      mappings := PutMappings(mappings, ps);
      return None;
    }

    /** handle_non_retrainable_states: for a later exploration version, maps each listed
        state to the job of its old-named state in the previous version, skipping states
        whose old job is absent; mappings are validated before any write, and no job
        is created or changed. */
    method HandleNonRetrainableStates(
      cfg: Config, exploration: Exploration, stateNames: seq<string>, newToOld: map<string, string>)
      returns (err: Option<Error>)
      modifies this`mappings
      ensures exploration.version - 1 <= 0 ==>
        err == Some(VersionTooLow(exploration.version)) && mappings == old(mappings)
      ensures exploration.version - 1 > 0 && OldStateNames(stateNames, newToOld).Err? ==>
        err == Some(OldStateNames(stateNames, newToOld).error) && mappings == old(mappings)
      ensures exploration.version - 1 > 0 && OldStateNames(stateNames, newToOld).Ok? ==>
        var olds := OldStateNames(stateNames, newToOld).value;
        var oldVersion := exploration.version - 1;
        if !MappedJobsExist(jobs, old(mappings), exploration.id, oldVersion, olds) then
          err.Some? && err.value.JobNotFound? && mappings == old(mappings)
        else
          var found := AlignedJobs(jobs, old(mappings), exploration.id, oldVersion, olds);
          var ps := CarriedOverMappings(exploration.id, exploration.version, stateNames, found);
          && (AllMappingsValid(cfg, ps) ==> err.None? && mappings == PutMappings(old(mappings), ps))
          && (!AllMappingsValid(cfg, ps) ==> err == Some(ValidationFailed) && mappings == old(mappings))
    {
      var oldVersion := exploration.version - 1;
      if oldVersion <= 0 {
        return Some(VersionTooLow(exploration.version));
      }
      var oldNames := CollectOldStateNames(stateNames, newToOld);
      if oldNames.Err? {
        return Some(oldNames.error);
      }
      var olds := oldNames.value;
      var found := GetClassifierTrainingJobs(exploration.id, oldVersion, olds);
      if found.Err? {
        return Some(found.error);
      }
      var carried := BuildCarriedOverMappings(cfg, exploration.id, exploration.version, stateNames, found.value);
      if carried.Err? {
        return Some(carried.error);
      }
      var ps := carried.value;
      mappings := PutMappings(mappings, ps);
      return None;
    }
  }
}
