/** One run of the executor, as a machine that makes one outside call a turn.

    The order of the stages, the checks between them and the fields filled in
    on the way are those of Execute, fail and recoverAndFail. */
module ReleaseExecutor {
  import opened Wrappers
  import opened ReleaseContract
  import opened ReleaseStore

  /** The call the executor is about to make. */
  datatype Stage = Reading | Preflighting | BackingUp | Applying | Verifying | Restoring | Finishing | Failing

  datatype Op = PreflightOp | BackupOp | ApplyOp | HealthOp | RestoreOp

  /** What Execute returns: an error, a result, or a result with an error. */
  datatype Out =
    | Invalid
    | NotReserved(why: Refusal)
    | Replayed(result: Result)
    | Done(result: Result)
    | Broken(result: Result)
    | NotPersisted

  datatype Proc =
    | Reserving(req: Request)
    | Working(req: Request, stage: Stage, result: Result, step: Step, code: Code)
    | Returned(req: Request, out: Out)
    | Crashed(req: Request)

  /** Everything the outside world may answer during one run. */
  datatype Answers = Answers(
    startedAt: int, finishedAt: int,
    reserveFault: Fault, readFails: bool,
    preflight: Preflight, preflightErr: bool,
    backup: Backup, backupErr: bool,
    apply: Applied, applyErr: bool,
    health: Health, healthErr: bool,
    rollback: Rollback, rollbackErr: bool,
    completeFault: Fault)

  function Blank(req: Request, at: int): Result {
    Result(req.jobId, req.key, req.releaseId, req.target.id, Running, at, None,
           None, None, None, None, None, NoStep, NoCode)
  }

  predicate PreflightOk(p: Preflight) { p.composeValid && p.imagesResolved && p.migrationReady }

  predicate BackupOk(b: Backup) {
    b.verified && b.encrypted && b.offsite && Digest(b.manifest) && b.id != ""
  }

  predicate ApplyOk(req: Request, a: Applied) {
    a.components == |req.images| && (req.migration == MIGRATE ==> a.migrationApplied)
  }

  predicate HealthOk(req: Request, h: Health) { h.profile == req.healthProfile && h.checksPassed >= 1 }

  predicate RollbackOk(req: Request, b: Backup, rb: Rollback) {
    rb.backupId == b.id && rb.mode == req.recovery && rb.restored && rb.healthVerified
  }

  function Fail(p: Proc, at: int, step: Step, code: Code): Proc
    requires p.Working?
  {
    p.(stage := Failing,
       result := p.result.(status := Failed, finishedAt := Some(at), failedStep := step, code := code))
  }

  function RecoverOrFail(p: Proc, at: int, step: Step, code: Code): Proc
    requires p.Working?
  {
    if p.result.backup.Some? && p.req.recovery == RUNTIME_ONLY
    then p.(stage := Restoring, step := step, code := code)
    else Fail(p, at, step, code)
  }

  function Advance(p: Proc, a: Answers, current: Option<string>): Proc
    requires p.Working? && p.stage != Finishing && p.stage != Failing
  {
    match p.stage
    case Reading =>
      if a.readFails then Fail(p, a.finishedAt, AtExpectedRelease, CurrentUnavailable)
      else if current != p.req.target.expected then Fail(p, a.finishedAt, AtExpectedRelease, CurrentMismatch)
      else p.(stage := Preflighting)
    case Preflighting =>
      var q := p.(result := p.result.(preflight := Some(a.preflight)));
      if a.preflightErr || !PreflightOk(a.preflight) then Fail(q, a.finishedAt, AtPreflight, PreflightFailed)
      else q.(stage := if p.req.backupRequired then BackingUp else Applying)
    case BackingUp =>
      var q := p.(result := p.result.(backup := Some(a.backup)));
      if a.backupErr || !BackupOk(a.backup) then Fail(q, a.finishedAt, AtBackup, BackupNotVerified)
      else q.(stage := Applying)
    case Applying =>
      var q := p.(result := p.result.(apply := Some(a.apply)));
      if a.applyErr || a.apply.components != |p.req.images| then RecoverOrFail(q, a.finishedAt, AtApply, ApplyFailed)
      else if p.req.migration == MIGRATE && !a.apply.migrationApplied then
        RecoverOrFail(q, a.finishedAt, AtApply, MigrationNotApplied)
      else q.(stage := Verifying)
    case Verifying =>
      var q := p.(result := p.result.(health := Some(a.health)));
      if a.healthErr || !HealthOk(p.req, a.health) then RecoverOrFail(q, a.finishedAt, AtHealth, HealthFailed)
      else q.(stage := Finishing, result := q.result.(status := Succeeded, finishedAt := Some(a.finishedAt)))
    case Restoring =>
      var q := p.(result := p.result.(rollback := Some(a.rollback)));
      if a.rollbackErr || p.result.backup.None? || !RollbackOk(p.req, p.result.backup.value, a.rollback)
      then Fail(q, a.finishedAt, AtRollback, RollbackFailed)
      else Fail(q, a.finishedAt, p.step, p.code)
  }

  /** The constraints of a valid request that the run relies on. */
  predicate Governed(req: Request) {
    && (req.target.environment == STAGING || req.target.environment == PRODUCTION)
    && (req.target.environment == STAGING ==> req.recovery == MANUAL)
    && (req.target.environment == PRODUCTION ==> req.backupRequired && req.recovery == RUNTIME_ONLY)
    && DigestShape(req.manifest)
  }

  predicate SameJob(req: Request, r: Result) {
    && r.jobId == req.jobId && r.key == req.key
    && r.releaseId == req.releaseId && r.targetId == req.target.id
  }

  /** A verified preflight, and a verified backup exactly when one is required. */
  predicate Prepared(req: Request, r: Result) {
    && r.preflight.Some? && PreflightOk(r.preflight.value)
    && r.backup.Some? == req.backupRequired
    && (r.backup.Some? ==> BackupOk(r.backup.value))
  }

  predicate Recoverable(req: Request) { req.backupRequired && req.recovery == RUNTIME_ONLY }

  predicate FullEvidence(req: Request, r: Result) {
    && Prepared(req, r) && r.rollback.None?
    && r.apply.Some? && ApplyOk(req, r.apply.value)
    && r.health.Some? && HealthOk(req, r.health.value)
  }

  /** Each failing step reports its own codes. */
  predicate Explains(step: Step, code: Code) {
    match step
    case NoStep => code == NoCode
    case AtExpectedRelease => code == CurrentUnavailable || code == CurrentMismatch
    case AtPreflight => code == PreflightFailed
    case AtBackup => code == BackupNotVerified
    case AtApply => code == ApplyFailed || code == MigrationNotApplied
    case AtHealth => code == HealthFailed
    case AtRollback => code == RollbackFailed
  }

  /** What a terminal result proves about the run that produced it. */
  predicate Terminal(req: Request, r: Result) {
    && SameJob(req, r)
    && r.finishedAt.Some?
    && r.status != Running
    && (r.status == Succeeded ==> FullEvidence(req, r) && r.failedStep == NoStep && r.code == NoCode)
    && (r.status == Failed ==>
          && Explains(r.failedStep, r.code)
          && match r.failedStep
             case NoStep => false
             case AtExpectedRelease => r.preflight.None? && r.backup.None? && r.apply.None? && r.rollback.None?
             case AtPreflight => r.preflight.Some? && r.backup.None? && r.apply.None? && r.rollback.None?
             case AtBackup => req.backupRequired && r.backup.Some? && r.apply.None? && r.rollback.None?
             case AtApply => Undone(req, r) && r.health.None?
             case AtHealth => Undone(req, r) && r.health.Some? && ApplyOk(req, r.apply.value)
             case AtRollback => Recoverable(req) && Prepared(req, r) && r.apply.Some? && r.rollback.Some?)
  }

  /** Failed after Apply: rolled back to the run's own backup when that is the
      recovery mode, and never touched by a restore otherwise. */
  predicate Undone(req: Request, r: Result) {
    && Prepared(req, r) && r.apply.Some?
    && r.rollback.Some? == Recoverable(req)
    && (r.rollback.Some? ==> RollbackOk(req, r.backup.value, r.rollback.value))
  }

  /** What has been collected when a call is still to be made. */
  predicate Pending(req: Request, stage: Stage, r: Result) {
    && r.status == Running && r.finishedAt.None? && r.failedStep == NoStep && r.code == NoCode
    && r.rollback.None?
    && (stage == Reading || stage == Preflighting ==> r.preflight.None? && r.backup.None?)
    && (stage == BackingUp ==>
          req.backupRequired && r.preflight.Some? && PreflightOk(r.preflight.value) && r.backup.None?)
    && (stage == Applying || stage == Verifying || stage == Restoring ==> Prepared(req, r))
    && (r.apply.Some? <==> stage == Verifying || stage == Restoring)
    && (stage == Verifying ==> ApplyOk(req, r.apply.value))
    && (stage != Restoring ==> r.health.None?)
  }

  /** The failure that a pending restore will report if it verifies. */
  predicate Cause(req: Request, r: Result, step: Step, code: Code) {
    && Recoverable(req) && r.apply.Some? && Explains(step, code)
    && (step == AtApply || step == AtHealth)
    && (step == AtApply ==> r.health.None?)
    && (step == AtHealth ==> r.health.Some? && ApplyOk(req, r.apply.value))
  }

  /** What holds of a working executor between two calls. */
  predicate Local(p: Proc)
    requires p.Working?
  {
    && SameJob(p.req, p.result)
    && (if p.stage == Failing then p.result.status == Failed && Terminal(p.req, p.result)
        else if p.stage == Finishing then p.result.status == Succeeded && Terminal(p.req, p.result)
        else Pending(p.req, p.stage, p.result))
    && (p.stage == Restoring ==> Cause(p.req, p.result, p.step, p.code))
  }

  lemma BlankIsLocal(req: Request, at: int)
    ensures Local(Working(req, Reading, Blank(req, at), NoStep, NoCode))
  {
  }

  lemma FailAfterApplyIsTerminal(p: Proc, at: int, step: Step, code: Code)
    requires p.Working? && SameJob(p.req, p.result) && Prepared(p.req, p.result)
    requires p.result.apply.Some? && p.result.rollback.None? && Explains(step, code)
    requires step == AtApply ==> p.result.health.None?
    requires step == AtHealth ==> p.result.health.Some? && ApplyOk(p.req, p.result.apply.value)
    requires step == AtApply || step == AtHealth
    requires p.result.status == Running && p.result.finishedAt.None? && p.result.failedStep == NoStep && p.result.code == NoCode
    ensures Local(RecoverOrFail(p, at, step, code))
  {
    var q := RecoverOrFail(p, at, step, code);
    if q.stage == Restoring {
      assert Cause(q.req, q.result, step, code);
    } else {
      assert Undone(q.req, q.result);
    }
  }

  lemma EarlyStageKeepsLocal(p: Proc, a: Answers, current: Option<string>)
    requires p.Working? && Local(p)
    requires p.stage == Reading || p.stage == Preflighting || p.stage == BackingUp
    ensures Local(Advance(p, a, current))
  {
    var q := Advance(p, a, current);
    if q.stage == Failing {
      assert Terminal(q.req, q.result);
    } else {
      assert Pending(q.req, q.stage, q.result);
    }
  }

  lemma ApplyKeepsLocal(p: Proc, a: Answers, current: Option<string>)
    requires p.Working? && Local(p) && p.stage == Applying
    ensures Local(Advance(p, a, current))
  {
    var q := p.(result := p.result.(apply := Some(a.apply)));
    FailAfterApplyIsTerminal(q, a.finishedAt, AtApply, ApplyFailed);
    FailAfterApplyIsTerminal(q, a.finishedAt, AtApply, MigrationNotApplied);
  }

  lemma HealthKeepsLocal(p: Proc, a: Answers, current: Option<string>)
    requires p.Working? && Local(p) && p.stage == Verifying
    ensures Local(Advance(p, a, current))
  {
    var q := p.(result := p.result.(health := Some(a.health)));
    FailAfterApplyIsTerminal(q, a.finishedAt, AtHealth, HealthFailed);
    var n := Advance(p, a, current);
    if n.stage == Finishing {
      assert FullEvidence(n.req, n.result);
    }
  }

  lemma RestoreKeepsLocal(p: Proc, a: Answers, current: Option<string>)
    requires p.Working? && Local(p) && p.stage == Restoring
    ensures Local(Advance(p, a, current))
  {
    var n := Advance(p, a, current);
    assert n.result.failedStep != AtRollback ==> Undone(n.req, n.result);
    assert Terminal(n.req, n.result);
  }

  /** Every answer of the runtime keeps the promises of the evidence collected. */
  lemma AdvanceKeepsLocal(p: Proc, a: Answers, current: Option<string>)
    requires p.Working? && p.stage != Finishing && p.stage != Failing && Local(p)
    ensures Local(Advance(p, a, current))
  {
    match p.stage
    case Applying => ApplyKeepsLocal(p, a, current);
    case Verifying => HealthKeepsLocal(p, a, current);
    case Restoring => RestoreKeepsLocal(p, a, current);
    case _ => EarlyStageKeepsLocal(p, a, current);
  }

  /** The fields that record the two irreversible calls follow the calls made. */
  lemma AdvanceFrame(p: Proc, a: Answers, current: Option<string>)
    requires p.Working? && p.stage != Finishing && p.stage != Failing
    ensures var q := Advance(p, a, current);
            && q.Working? && q.req == p.req && q.stage != Reading
            && (p.stage == Reading && q.stage != Failing ==> current == p.req.target.expected)
            && (q.result.apply.Some? <==> p.result.apply.Some? || p.stage == Applying)
            && (q.result.rollback.Some? <==> p.result.rollback.Some? || p.stage == Restoring)
  {
  }

  lemma ValidIsGoverned(req: Request)
    requires ValidRequest(req)
    ensures Governed(req)
  {
  }

  /** A terminal production result reached after Apply was called is one of
      three: complete success, failure with the same backup verifiably restored,
      or failure at the rollback step.  Staging never restores. */
  lemma ProductionOutcomes(req: Request, r: Result)
    requires Governed(req) && Terminal(req, r)
    ensures req.target.environment == PRODUCTION && r.apply.Some? ==>
              || (r.status == Succeeded && FullEvidence(req, r) && r.backup.Some?)
              || (r.status == Failed && r.failedStep in {AtApply, AtHealth}
                  && r.backup.Some? && r.rollback.Some? && RollbackOk(req, r.backup.value, r.rollback.value))
              || (r.status == Failed && r.failedStep == AtRollback)
    ensures req.target.environment == STAGING ==> r.rollback.None? && r.failedStep != AtRollback
    ensures r.rollback.Some? ==> r.apply.Some? && r.backup.Some?
  {
  }
}
