/** The two tables of the release store and the atomic steps taken on them.

    A row keeps the whole request: the canonical JSON and its SHA-256 are taken
    to be injective, so comparing hashes is comparing requests. */
module ReleaseStore {
  import opened Wrappers
  import opened ReleaseContract

  datatype Status = Running | Succeeded | Failed

  datatype Step = NoStep | AtExpectedRelease | AtPreflight | AtBackup | AtApply | AtHealth | AtRollback
  datatype Code =
    | NoCode | CurrentUnavailable | CurrentMismatch | PreflightFailed | BackupNotVerified
    | ApplyFailed | MigrationNotApplied | HealthFailed | RollbackFailed

  datatype Preflight = Preflight(composeValid: bool, imagesResolved: bool, migrationReady: bool)
  datatype Backup = Backup(id: string, manifest: string, verified: bool, encrypted: bool, offsite: bool)
  datatype Rollback = Rollback(backupId: string, mode: string, restored: bool, healthVerified: bool)
  datatype Applied = Applied(components: int, migrationApplied: bool)
  datatype Health = Health(profile: string, checksPassed: int, attempts: int)

  datatype Result = Result(
    jobId: string, key: string, releaseId: string, targetId: string,
    status: Status, startedAt: int, finishedAt: Option<int>,
    preflight: Option<Preflight>, backup: Option<Backup>, rollback: Option<Rollback>,
    apply: Option<Applied>, health: Option<Health>, failedStep: Step, code: Code)

  datatype Row = Row(request: Request, status: Status, result: Option<Result>, startedAt: int)
  datatype TargetRow = TargetRow(release: string, manifest: string, updatedAt: int)

  /** jobs is keyed by idempotency key (its primary key), targets by target id. */
  datatype Tables = Tables(jobs: map<string, Row>, targets: map<string, TargetRow>)

  datatype Refusal = KeyReused | InProgress | NoStoredResult | TargetBusy | JobIdTaken | Unavailable
  datatype Reservation = Acquired | Replay(result: Result) | Refused(why: Refusal)

  /** How a database call can go wrong: without effect, or after its effect. */
  datatype Fault = NoFault | BeforeCommit | AfterCommit

  predicate Busy(t: Tables, target: string) {
    exists k :: k in t.jobs && t.jobs[k].status == Running && t.jobs[k].request.target.id == target
  }

  predicate HasJobId(t: Tables, job: string) {
    exists k :: k in t.jobs && t.jobs[k].request.jobId == job
  }

  function Reserved(t: Tables, r: Request, at: int): (Tables, Reservation) {
    if r.key in t.jobs then
      var row := t.jobs[r.key];
      (t, if row.request != r then Refused(KeyReused)
          else if row.status == Running then Refused(InProgress)
          else if row.result.None? then Refused(NoStoredResult)
          else Replay(row.result.value))
    else if Busy(t, r.target.id) then (t, Refused(TargetBusy))
    else if HasJobId(t, r.jobId) then (t, Refused(JobIdTaken))
    else (t.(jobs := t.jobs[r.key := Row(r, Running, None, at)]), Acquired)
  }

  function Current(t: Tables, target: string): Option<string> {
    if target in t.targets then Some(t.targets[target].release) else None
  }

  /** The compare-and-set condition shared by both completions. */
  predicate Owns(t: Tables, r: Result) {
    && r.key in t.jobs
    && t.jobs[r.key].request.jobId == r.jobId
    && t.jobs[r.key].status == Running
  }

  predicate DigestShape(manifest: string) {
    DIGEST_PREFIX <= manifest && |manifest| == DIGEST_LENGTH
  }

  predicate MaySucceed(t: Tables, r: Result, manifest: string) {
    r.status == Succeeded && r.finishedAt.Some? && DigestShape(manifest) && Owns(t, r)
  }

  predicate MayFail(t: Tables, r: Result) {
    r.status == Failed && r.finishedAt.Some? && r.code != NoCode && Owns(t, r)
  }

  function Closed(t: Tables, r: Result): map<string, Row>
    requires r.key in t.jobs
  {
    t.jobs[r.key := t.jobs[r.key].(status := r.status, result := Some(r))]
  }

  function AfterSuccess(t: Tables, r: Result, manifest: string): Tables {
    if MaySucceed(t, r, manifest)
    then Tables(Closed(t, r), t.targets[r.targetId := TargetRow(r.releaseId, manifest, r.finishedAt.value)])
    else t
  }

  function AfterFailure(t: Tables, r: Result): Tables {
    if MayFail(t, r) then t.(jobs := Closed(t, r)) else t
  }

  class Database {
    var jobs: map<string, Row>
    var targets: map<string, TargetRow>

    function View(): Tables reads this { Tables(jobs, targets) }

    constructor ()
      ensures View() == Tables(map[], map[])
    {
      jobs, targets := map[], map[];
    }

    method Reserve(request: Request, at: int, fault: Fault) returns (r: Reservation)
      modifies this
      ensures r == if fault == NoFault then Reserved(old(View()), request, at).1 else Refused(Unavailable)
      ensures View() == if fault == BeforeCommit then old(View()) else Reserved(old(View()), request, at).0
    {
      if fault == BeforeCommit { return Refused(Unavailable); }
      if request.key in jobs {
        var row := jobs[request.key];
        if fault == AfterCommit { return Refused(Unavailable); }
        if row.request != request { return Refused(KeyReused); }
        if row.status == Running { return Refused(InProgress); }
        if row.result.None? { return Refused(NoStoredResult); }
        return Replay(row.result.value);
      }
      if exists k :: k in jobs && jobs[k].status == Running && jobs[k].request.target.id == request.target.id {
        assert Busy(View(), request.target.id);
        return Refused(if fault == AfterCommit then Unavailable else TargetBusy);
      }
      if exists k :: k in jobs && jobs[k].request.jobId == request.jobId {
        assert HasJobId(View(), request.jobId);
        return Refused(if fault == AfterCommit then Unavailable else JobIdTaken);
      }
      jobs := jobs[request.key := Row(request, Running, None, at)];
      r := if fault == AfterCommit then Refused(Unavailable) else Acquired;
    }

    method CurrentRelease(target: string) returns (release: Option<string>)
      ensures release == Current(View(), target)
    {
      if target in targets { return Some(targets[target].release); }
      return None;
    }

    method CompleteSuccess(r: Result, manifest: string, fault: Fault) returns (ok: bool)
      modifies this
      ensures ok <==> MaySucceed(old(View()), r, manifest) && fault == NoFault
      ensures View() == if fault == BeforeCommit then old(View()) else AfterSuccess(old(View()), r, manifest)
    {
      if r.status != Succeeded || r.finishedAt.None? { return false; }
      if !(DIGEST_PREFIX <= manifest) || |manifest| != DIGEST_LENGTH { return false; }
      if fault == BeforeCommit { return false; }
      if r.key !in jobs || jobs[r.key].request.jobId != r.jobId || jobs[r.key].status != Running {
        return false;
      }
      jobs := jobs[r.key := jobs[r.key].(status := Succeeded, result := Some(r))];
      targets := targets[r.targetId := TargetRow(r.releaseId, manifest, r.finishedAt.value)];
      ok := fault == NoFault;
    }

    method CompleteFailure(r: Result, fault: Fault) returns (ok: bool)
      modifies this
      ensures ok <==> MayFail(old(View()), r) && fault == NoFault
      ensures View() == if fault == BeforeCommit then old(View()) else AfterFailure(old(View()), r)
    {
      if r.status != Failed || r.finishedAt.None? || r.code == NoCode { return false; }
      if fault == BeforeCommit { return false; }
      if r.key !in jobs || jobs[r.key].request.jobId != r.jobId || jobs[r.key].status != Running {
        return false;
      }
      jobs := jobs[r.key := jobs[r.key].(status := Failed, result := Some(r))];
      ok := fault == NoFault;
    }
  }
}
