/** What one executor answers, read off the answers it is given: success exactly when
    all of them are as the request asks, and otherwise the step, the code and the restore
    that the first other answer calls for. */
module ReleaseOutcome {
  import opened Wrappers
  import opened ReleaseContract
  import opened Runs
  import opened ReleaseStore
  import opened ReleaseExecutor
  import opened ReleaseSystem

  // ----- the answer, over the fields alone -----

  /** Every answer is as the request asks. */
  predicate AllAsAsked(req: Request, a: Answers, current: Option<string>) {
    && !a.readFails && current == req.target.expected
    && !a.preflightErr && a.preflight.composeValid && a.preflight.imagesResolved && a.preflight.migrationReady
    && (req.backupRequired ==>
          && !a.backupErr && a.backup.verified && a.backup.encrypted && a.backup.offsite
          && Digest(a.backup.manifest) && a.backup.id != "")
    && !a.applyErr && a.apply.components == |req.images|
    && (req.migration == MIGRATE ==> a.apply.migrationApplied)
    && !a.healthErr && a.health.profile == req.healthProfile && a.health.checksPassed >= 1
  }

  datatype Flaw = Flaw(step: Step, code: Code)

  /** The first answer that is not, and how it is reported. */
  function FirstFlaw(req: Request, a: Answers, current: Option<string>): (f: Option<Flaw>)
    ensures f.None? <==> AllAsAsked(req, a, current)
  {
    if a.readFails then Some(Flaw(AtExpectedRelease, CurrentUnavailable))
    else if current != req.target.expected then Some(Flaw(AtExpectedRelease, CurrentMismatch))
    else if a.preflightErr || !(a.preflight.composeValid && a.preflight.imagesResolved && a.preflight.migrationReady) then
      Some(Flaw(AtPreflight, PreflightFailed))
    else if req.backupRequired
            && (a.backupErr || !(a.backup.verified && a.backup.encrypted && a.backup.offsite)
                || !Digest(a.backup.manifest) || a.backup.id == "") then
      Some(Flaw(AtBackup, BackupNotVerified))
    else if a.applyErr || a.apply.components != |req.images| then Some(Flaw(AtApply, ApplyFailed))
    else if req.migration == MIGRATE && !a.apply.migrationApplied then Some(Flaw(AtApply, MigrationNotApplied))
    else if a.healthErr || a.health.profile != req.healthProfile || a.health.checksPassed < 1 then
      Some(Flaw(AtHealth, HealthFailed))
    else None
  }

  /** Apply is called once everything before it is as asked. */
  predicate CallsApply(req: Request, a: Answers, current: Option<string>) {
    var f := FirstFlaw(req, a, current);
    f.None? || f.value.step == AtApply || f.value.step == AtHealth
  }

  /** Restore is called after a failed Apply or health check when that is the recovery. */
  predicate CallsRestore(req: Request, a: Answers, current: Option<string>) {
    CallsApply(req, a, current) && !AllAsAsked(req, a, current) && req.backupRequired && req.recovery == RUNTIME_ONLY
  }

  predicate RestoreVerifies(req: Request, a: Answers) {
    && !a.rollbackErr && a.rollback.backupId == a.backup.id && a.rollback.mode == req.recovery
    && a.rollback.restored && a.rollback.healthVerified
  }

  /** What is reported: a restore that does not verify takes the place of what led to it. */
  function Reported(req: Request, a: Answers, current: Option<string>): Flaw {
    if CallsRestore(req, a, current) && !RestoreVerifies(req, a) then Flaw(AtRollback, RollbackFailed)
    else FirstFlaw(req, a, current).GetOr(Flaw(NoStep, NoCode))
  }

  /** The result, with the evidence that was collected. */
  function Outcome(req: Request, at: int, a: Answers, current: Option<string>): Result {
    var first := FirstFlaw(req, a, current).GetOr(Flaw(NoStep, NoCode)).step;
    var flaw := Reported(req, a, current);
    Result(req.jobId, req.key, req.releaseId, req.target.id,
           if AllAsAsked(req, a, current) then Succeeded else Failed, at, Some(a.finishedAt),
           if first == AtExpectedRelease then None else Some(a.preflight),
           if req.backupRequired && first != AtExpectedRelease && first != AtPreflight then Some(a.backup) else None,
           if CallsRestore(req, a, current) then Some(a.rollback) else None,
           if CallsApply(req, a, current) then Some(a.apply) else None,
           if first == NoStep || first == AtHealth then Some(a.health) else None,
           flaw.step, flaw.code)
  }

  function Answer(r: Result, fault: Fault): Out {
    if fault != NoFault then NotPersisted else if r.status == Succeeded then Done(r) else Broken(r)
  }

  // ----- an executor on its own -----

  /** An executor that has its row, or the result with which it has ended. */
  datatype Solo = At(proc: Proc) | Ended(result: Result)

  function Onward(s: Solo, a: Answers, current: Option<string>): Solo {
    if s.Ended? || !s.proc.Working? then s
    else if s.proc.stage == Finishing || s.proc.stage == Failing then Ended(s.proc.result)
    else At(Advance(s.proc, a, current))
  }

  function Turner(a: Answers, current: Option<string>): Solo -> Solo {
    s => Onward(s, a, current)
  }

  /** After a number of turns. */
  function Ahead(s: Solo, a: Answers, current: Option<string>, n: nat): Solo {
    Iterate(Turner(a, current), s, n)
  }

  lemma FromClosing(p: Proc, a: Answers, current: Option<string>, n: nat)
    requires p.Working? && (p.stage == Failing || p.stage == Finishing) && n >= 1
    ensures Ahead(At(p), a, current, n) == Ended(p.result)
  {
    IterateFirst(Turner(a, current), At(p), n);
    IterateFixed(Turner(a, current), Ended(p.result), n - 1);
  }

  function Failure(r: Result, a: Answers, flaw: Flaw): Result {
    r.(status := Failed, finishedAt := Some(a.finishedAt), failedStep := flaw.step, code := flaw.code)
  }

  lemma FromRestoring(p: Proc, a: Answers, current: Option<string>, n: nat)
    requires p.Working? && p.stage == Restoring && p.result.backup == Some(a.backup) && n >= 2
    ensures Ahead(At(p), a, current, n)
            == Ended(Failure(p.result.(rollback := Some(a.rollback)), a,
                            if RestoreVerifies(p.req, a) then Flaw(p.step, p.code) else Flaw(AtRollback, RollbackFailed)))
  {
    IterateFirst(Turner(a, current), At(p), n);
    FromClosing(Advance(p, a, current), a, current, n - 1);
  }

  /** A failure after Apply, with the restore that it calls for. */
  lemma FromRecovery(p: Proc, a: Answers, current: Option<string>, flaw: Flaw, n: nat)
    requires p.Working? && p.result.backup == (if p.req.backupRequired then Some(a.backup) else None) && n >= 2
    ensures Ahead(At(RecoverOrFail(p, a.finishedAt, flaw.step, flaw.code)), a, current, n)
            == Ended(if !(p.req.backupRequired && p.req.recovery == RUNTIME_ONLY) then Failure(p.result, a, flaw)
                     else Failure(p.result.(rollback := Some(a.rollback)), a,
                                 if RestoreVerifies(p.req, a) then flaw else Flaw(AtRollback, RollbackFailed)))
  {
    var q := RecoverOrFail(p, a.finishedAt, flaw.step, flaw.code);
    if q.stage == Restoring { FromRestoring(q, a, current, n); } else { FromClosing(q, a, current, n); }
  }

  /** What an executor holds before each call, when all answers so far were as asked. */
  function Held(req: Request, at: int, a: Answers, stage: Stage): Proc {
    Working(req, stage,
            Blank(req, at).(preflight := if stage == Reading || stage == Preflighting then None else Some(a.preflight),
                            backup := if req.backupRequired && (stage == Applying || stage == Verifying) then Some(a.backup) else None,
                            apply := if stage == Verifying then Some(a.apply) else None),
            NoStep, NoCode)
  }

  lemma FromVerifying(req: Request, at: int, a: Answers, current: Option<string>, n: nat)
    requires n >= 3
    requires var f := FirstFlaw(req, a, current); f.None? || f.value.step == AtHealth
    ensures Ahead(At(Held(req, at, a, Verifying)), a, current, n) == Ended(Outcome(req, at, a, current))
  {
    var p := Held(req, at, a, Verifying);
    IterateFirst(Turner(a, current), At(p), n);
    if AllAsAsked(req, a, current) {
      FromClosing(Advance(p, a, current), a, current, n - 1);
    } else {
      FromRecovery(p.(result := p.result.(health := Some(a.health))), a, current, Flaw(AtHealth, HealthFailed), n - 1);
    }
  }

  lemma FromApplying(req: Request, at: int, a: Answers, current: Option<string>, n: nat)
    requires n >= 4 && CallsApply(req, a, current)
    ensures Ahead(At(Held(req, at, a, Applying)), a, current, n) == Ended(Outcome(req, at, a, current))
  {
    var p := Held(req, at, a, Applying);
    var f := FirstFlaw(req, a, current);
    IterateFirst(Turner(a, current), At(p), n);
    if f.Some? && f.value.step == AtApply {
      FromRecovery(p.(result := p.result.(apply := Some(a.apply))), a, current, f.value, n - 1);
    } else {
      FromVerifying(req, at, a, current, n - 1);
    }
  }

  lemma FromBackingUp(req: Request, at: int, a: Answers, current: Option<string>, n: nat)
    requires n >= 5 && req.backupRequired
    requires var f := FirstFlaw(req, a, current); f.Some? ==> f.value.step != AtExpectedRelease && f.value.step != AtPreflight
    ensures Ahead(At(Held(req, at, a, BackingUp)), a, current, n) == Ended(Outcome(req, at, a, current))
  {
    var p := Held(req, at, a, BackingUp);
    IterateFirst(Turner(a, current), At(p), n);
    if CallsApply(req, a, current) {
      FromApplying(req, at, a, current, n - 1);
    } else {
      FromClosing(Advance(p, a, current), a, current, n - 1);
    }
  }

  lemma FromPreflighting(req: Request, at: int, a: Answers, current: Option<string>, n: nat)
    requires n >= 6
    requires var f := FirstFlaw(req, a, current); f.Some? ==> f.value.step != AtExpectedRelease
    ensures Ahead(At(Held(req, at, a, Preflighting)), a, current, n) == Ended(Outcome(req, at, a, current))
  {
    var p := Held(req, at, a, Preflighting);
    var f := FirstFlaw(req, a, current);
    IterateFirst(Turner(a, current), At(p), n);
    if f.Some? && f.value.step == AtPreflight {
      FromClosing(Advance(p, a, current), a, current, n - 1);
    } else if req.backupRequired {
      FromBackingUp(req, at, a, current, n - 1);
    } else {
      FromApplying(req, at, a, current, n - 1);
    }
  }

  /** Seven turns are enough, and the result is the one that the answers call for. */
  lemma FromReading(req: Request, at: int, a: Answers, current: Option<string>, n: nat)
    requires n >= 7
    ensures Ahead(At(Held(req, at, a, Reading)), a, current, n) == Ended(Outcome(req, at, a, current))
  {
    var p := Held(req, at, a, Reading);
    var f := FirstFlaw(req, a, current);
    IterateFirst(Turner(a, current), At(p), n);
    if f.Some? && f.value.step == AtExpectedRelease {
      FromClosing(Advance(p, a, current), a, current, n - 1);
    } else {
      FromPreflighting(req, at, a, current, n - 1);
    }
  }

  /** However many turns it has had: if it has ended, it is with that result. */
  lemma EndsSo(req: Request, at: int, a: Answers, current: Option<string>, n: nat)
    ensures var s := Ahead(At(Held(req, at, a, Reading)), a, current, n);
            s.Ended? ==> s.result == Outcome(req, at, a, current)
  {
    var s := Ahead(At(Held(req, at, a, Reading)), a, current, n);
    if s.Ended? {
      IterateJoin(Turner(a, current), At(Held(req, at, a, Reading)), n, 7);
      IterateFixed(Turner(a, current), s, 7);
      FromReading(req, at, a, current, n + 7);
    }
  }

  // ----- the same executor among all others -----

  /** Apart from launching again, which does nothing, an executor only takes turns, and
      always with the same answers. */
  predicate Takes(pid: nat, a: Answers, m: Move) {
    m.pid == pid ==> m.Launch? || m == Turn(pid, a)
  }

  function Turns(pid: nat, moves: seq<Move>): nat {
    if moves == [] then 0
    else Turns(pid, moves[..|moves| - 1]) + if moves[|moves| - 1].Turn? && moves[|moves| - 1].pid == pid then 1 else 0
  }

  /** The row after an executor has ended, and the calls on record for it. */
  ghost predicate Closes(w: World, req: Request, r: Result, fault: Fault)
    requires req.key in w.tables.jobs
  {
    && r.status != Running && Admits(w.history, req, r)
    && if fault == BeforeCommit then Orphaned(w, req.key)
       else w.tables.jobs[req.key].status == r.status && w.tables.jobs[req.key].result == Some(r)
  }

  /** The executor in the system is where it would be on its own. */
  ghost predicate Tracks(w: World, pid: nat, req: Request, a: Answers, current: Option<string>, s: Solo) {
    && pid in w.procs && req.key in w.tables.jobs && w.tables.jobs[req.key].request == req
    && match s
       case At(p) => p.Working? && p.req == req && w.procs[pid] == p && (p.stage == Reading ==> Current(w.tables, req.target.id) == current)
       case Ended(r) => w.procs[pid] == Returned(req, Answer(r, a.completeFault)) && Closes(w, req, r, a.completeFault)
  }

  /** Its own turn. */
  lemma TracksOwn(w: World, pid: nat, req: Request, a: Answers, current: Option<string>, s: Solo)
    requires Inv(w) && Tracks(w, pid, req, a, current, s)
    ensures Tracks(Next(w, Turn(pid, a)), pid, req, a, current, Onward(s, a, current))
  {
    if s.At? {
      assert ProcOk(w, s.proc);
      if s.proc.stage == Finishing || s.proc.stage == Failing {
        TracksClosing(w, pid, req, a, current, s.proc);
      } else {
        TracksAdvance(w, pid, req, a, current, s.proc);
      }
    }
  }

  lemma TracksAdvance(w: World, pid: nat, req: Request, a: Answers, current: Option<string>, p: Proc)
    requires p.Working? && p.stage != Finishing && p.stage != Failing && Tracks(w, pid, req, a, current, At(p))
    ensures Tracks(Next(w, Turn(pid, a)), pid, req, a, current, At(Advance(p, a, current)))
  {
    AdvanceFrame(p, a, Current(w.tables, req.target.id));
    AdvanceReadsOnce(p, a, Current(w.tables, req.target.id), current);
  }

  /** Only the first step looks at the current release. */
  lemma AdvanceReadsOnce(p: Proc, a: Answers, c: Option<string>, d: Option<string>)
    requires p.Working? && p.stage != Finishing && p.stage != Failing && (p.stage == Reading ==> c == d)
    ensures Advance(p, a, c) == Advance(p, a, d)
  {
  }

  lemma TracksClosing(w: World, pid: nat, req: Request, a: Answers, current: Option<string>, p: Proc)
    requires Inv(w) && Tracks(w, pid, req, a, current, At(p)) && ProcOk(w, p) && (p.stage == Finishing || p.stage == Failing)
    ensures Tracks(Next(w, Turn(pid, a)), pid, req, a, current, Ended(p.result))
  {
    ClosesItsRow(w, pid);
    if a.completeFault == BeforeCommit {
      ClosingFails(w, pid, req, a, p);
    } else {
      ClosingCommits(w, pid, req, a, p);
    }
  }

  lemma ClosingFails(w: World, pid: nat, req: Request, a: Answers, p: Proc)
    requires OneHolder(w) && pid in w.procs && w.procs[pid] == p && p.Working? && p.req == req && ProcOk(w, p)
    requires (p.stage == Finishing || p.stage == Failing) && a.completeFault == BeforeCommit
    ensures var v := Next(w, Turn(pid, a));
            && v == World(w.tables, w.procs[pid := Returned(req, NotPersisted)], w.history)
            && req.key in v.tables.jobs && Closes(v, req, p.result, BeforeCommit)
  {
  }

  lemma ClosingCommits(w: World, pid: nat, req: Request, a: Answers, p: Proc)
    requires pid in w.procs && w.procs[pid] == p && p.Working? && p.req == req && ProcOk(w, p) && a.completeFault != BeforeCommit
    requires if p.stage == Finishing then MaySucceed(w.tables, p.result, req.manifest)
             else p.stage == Failing && MayFail(w.tables, p.result)
    ensures var v := Next(w, Turn(pid, a));
            && pid in v.procs && v.procs[pid] == Returned(req, Answer(p.result, a.completeFault))
            && req.key in v.tables.jobs && v.tables.jobs[req.key].request == req && Closes(v, req, p.result, a.completeFault)
  {
    var v := Next(w, Turn(pid, a));
    assert v.history == w.history || v.history == w.history + [Promoted(req)];
  }

  /** A move of somebody else. */
  lemma TracksOthers(w: World, m: Move, pid: nat, req: Request, a: Answers, current: Option<string>, s: Solo)
    requires Inv(w) && Tracks(w, pid, req, a, current, s) && (m.pid != pid || m.Launch?)
    ensures Tracks(Next(w, m), pid, req, a, current, s)
  {
    if s.Ended? {
      EndedKeeps(w, m, pid, req, a, s.result);
    } else {
      assert ProcOk(w, s.proc);
      OthersSpareIt(w, m, pid);
    }
  }

  /** While an executor works, nobody else touches it, its row, or its target. */
  lemma OthersSpareIt(w: World, m: Move, pid: nat)
    requires Inv(w) && pid in w.procs && w.procs[pid].Working? && (m.pid != pid || m.Launch?)
    ensures var v, req := Next(w, m), w.procs[pid].req;
            && pid in v.procs && v.procs[pid] == w.procs[pid]
            && req.key in w.tables.jobs && req.key in v.tables.jobs && v.tables.jobs[req.key] == w.tables.jobs[req.key]
            && Current(v.tables, req.target.id) == Current(w.tables, req.target.id)
  {
    var req := w.procs[pid].req;
    assert ProcOk(w, w.procs[pid]);
    if m.Turn? && m.pid in w.procs {
      var p := w.procs[m.pid];
      assert ProcOk(w, p);
      if p.Working? {
        assert p.req.key != req.key && p.req.target.id != req.target.id;
        WorkSpares(w, m.pid, m.answers, req.key, req.target.id);
      } else {
        ReserveSpares(w, m.pid, m.answers, req.key);
      }
    }
  }

  lemma WorkSpares(w: World, o: nat, a: Answers, key: string, target: string)
    requires o in w.procs && w.procs[o].Working? && key in w.tables.jobs
    requires w.procs[o].result.key != key && w.procs[o].result.targetId != target
    ensures var v := TurnOf(w, o, a);
            && key in v.tables.jobs && v.tables.jobs[key] == w.tables.jobs[key] && Current(v.tables, target) == Current(w.tables, target)
            && forall q :: q in w.procs && q != o ==> q in v.procs && v.procs[q] == w.procs[q]
  {
  }

  lemma ReserveSpares(w: World, o: nat, a: Answers, key: string)
    requires o in w.procs && !w.procs[o].Working? && key in w.tables.jobs
    ensures var v := TurnOf(w, o, a);
            && key in v.tables.jobs && v.tables.jobs[key] == w.tables.jobs[key] && v.tables.targets == w.tables.targets
            && forall q :: q in w.procs && q != o ==> q in v.procs && v.procs[q] == w.procs[q]
  {
  }

  lemma EndedKeeps(w: World, m: Move, pid: nat, req: Request, a: Answers, r: Result)
    requires Inv(w) && pid in w.procs && req.key in w.tables.jobs && w.tables.jobs[req.key].request == req
    requires w.procs[pid] == Returned(req, Answer(r, a.completeFault)) && Closes(w, req, r, a.completeFault) && r.status != Running
    ensures var v := Next(w, m);
            && pid in v.procs && v.procs[pid] == w.procs[pid]
            && req.key in v.tables.jobs && v.tables.jobs[req.key].request == req && Closes(v, req, r, a.completeFault)
  {
    ReturnedStays(w, m, pid);
    EndedRowKeeps(w, m, req, r, a);
    NobodyWorks(w, req.key);
    NobodyCalls(w, m, ApplyOp, req.key, req.jobId);
    NobodyCalls(w, m, RestoreOp, req.key, req.jobId);
  }

  lemma ReturnedStays(w: World, m: Move, pid: nat)
    requires pid in w.procs && w.procs[pid].Returned?
    ensures pid in Next(w, m).procs && Next(w, m).procs[pid] == w.procs[pid]
  {
  }

  lemma EndedRowKeeps(w: World, m: Move, req: Request, r: Result, a: Answers)
    requires Inv(w) && req.key in w.tables.jobs && Closes(w, req, r, a.completeFault)
    ensures var v := Next(w, m);
            && req.key in v.tables.jobs && v.tables.jobs[req.key] == w.tables.jobs[req.key]
            && (a.completeFault == BeforeCommit ==> Orphaned(v, req.key))
  {
    if a.completeFault == BeforeCommit {
      OrphanStays(w, m, req.key);
    } else {
      NextKeepsTerminal(w, m, req.key);
    }
  }

  lemma NobodyWorks(w: World, k: string)
    requires ProcsOk(w) && k in w.tables.jobs && (w.tables.jobs[k].status != Running || Orphaned(w, k))
    ensures forall q :: q in w.procs && w.procs[q].Working? ==> w.procs[q].req.key != k
  {
    forall q | q in w.procs && w.procs[q].Working?
      ensures w.procs[q].req.key != k
    {
      WorkersRun(w, q);
    }
  }

  lemma NobodyCalls(w: World, m: Move, op: Op, k: string, job: string)
    requires forall q :: q in w.procs && w.procs[q].Working? ==> w.procs[q].req.key != k
    ensures Called(op, k, job) in Next(w, m).history <==> Called(op, k, job) in w.history
  {
    HistoryGrows(w, m);
    if Called(op, k, job) in Next(w, m).history && Called(op, k, job) !in w.history {
      NewCallsOfWorkers(w, m, Called(op, k, job));
    }
  }

  lemma HistoryGrows(w: World, m: Move)
    ensures w.history <= Next(w, m).history
  {
  }

  lemma {:induction false} TracksRun(w: World, moves: seq<Move>, pid: nat, req: Request, a: Answers, current: Option<string>, s: Solo)
    requires Inv(w) && Tracks(w, pid, req, a, current, s) && forall m :: m in moves ==> Takes(pid, a, m)
    ensures Tracks(Run(w, moves), pid, req, a, current, Ahead(s, a, current, Turns(pid, moves)))
  {
    if moves != [] {
      var most := moves[..|moves| - 1];
      assert moves[|moves| - 1] in moves && forall k :: k in most ==> k in moves;
      TracksRun(w, most, pid, req, a, current, s);
      RunKeeps(w, most);
      TracksLast(w, Run(w, most), moves, pid, req, a, current, s);
    }
  }

  lemma TracksLast(w: World, v: World, moves: seq<Move>, pid: nat, req: Request, a: Answers, current: Option<string>, s: Solo)
    requires moves != [] && v == Run(w, moves[..|moves| - 1]) && Inv(v) && Takes(pid, a, moves[|moves| - 1])
    requires Tracks(v, pid, req, a, current, Ahead(s, a, current, Turns(pid, moves[..|moves| - 1])))
    ensures Tracks(Run(w, moves), pid, req, a, current, Ahead(s, a, current, Turns(pid, moves)))
  {
    LastTurn(w, moves, pid);
    TracksTurn(v, Run(w, moves), moves[|moves| - 1], pid, req, a, current, s, Turns(pid, moves[..|moves| - 1]), Turns(pid, moves));
  }

  lemma LastTurn(w: World, moves: seq<Move>, pid: nat)
    requires moves != []
    ensures var most, m := moves[..|moves| - 1], moves[|moves| - 1];
            && Run(w, moves) == Next(Run(w, most), m)
            && Turns(pid, moves) == Turns(pid, most) + if m.Turn? && m.pid == pid then 1 else 0
  {
  }

  lemma TracksTurn(w: World, v: World, m: Move, pid: nat, req: Request, a: Answers, current: Option<string>, s: Solo, n: nat, k: nat)
    requires Inv(w) && Takes(pid, a, m) && v == Next(w, m) && k == n + if m.Turn? && m.pid == pid then 1 else 0
    requires Tracks(w, pid, req, a, current, Ahead(s, a, current, n))
    ensures Tracks(v, pid, req, a, current, Ahead(s, a, current, k))
  {
    AheadOne(s, a, current, n);
    TracksMove(w, m, pid, req, a, current, Ahead(s, a, current, n));
  }

  lemma AheadOne(s: Solo, a: Answers, current: Option<string>, n: nat)
    ensures Ahead(s, a, current, n + 1) == Onward(Ahead(s, a, current, n), a, current)
  {
  }

  lemma TracksMove(w: World, m: Move, pid: nat, req: Request, a: Answers, current: Option<string>, s: Solo)
    requires Inv(w) && Tracks(w, pid, req, a, current, s) && Takes(pid, a, m)
    ensures Tracks(Next(w, m), pid, req, a, current, if m.Turn? && m.pid == pid then Onward(s, a, current) else s)
  {
    if m.pid == pid && m.Turn? {
      TracksOwn(w, pid, req, a, current, s);
    } else {
      TracksOthers(w, m, pid, req, a, current, s);
    }
  }

  /** An executor has just acquired the row of its request. */
  ghost predicate HasRow(w: World, pid: nat, req: Request, at: int) {
    pid in w.procs && w.procs[pid] == Working(req, Reading, Blank(req, at), NoStep, NoCode)
  }

  /** With a store that works, it acquires its row exactly when no row has its key or its job
      id and none is running on its target. */
  lemma AcquiresExactly(w: World, pid: nat, a: Answers)
    requires pid in w.procs && w.procs[pid].Reserving? && a.reserveFault == NoFault
    ensures var req, jobs := w.procs[pid].req, w.tables.jobs;
            HasRow(Next(w, Turn(pid, a)), pid, req, a.startedAt) <==>
              forall k :: k in jobs ==>
                && k != req.key && jobs[k].request.jobId != req.jobId
                && !(jobs[k].status == Running && jobs[k].request.target.id == req.target.id)
  {
    var req, jobs := w.procs[pid].req, w.tables.jobs;
    if req.key in jobs {
      assert !HasRow(Next(w, Turn(pid, a)), pid, req, a.startedAt);
    }
  }

  /** What the executor answers, what is on record then, and whether the release is promoted. */
  ghost predicate AnswersRightly(v: World, pid: nat, req: Request, at: int, a: Answers, current: Option<string>) {
    && pid in v.procs && v.procs[pid] == Returned(req, Answer(Outcome(req, at, a, current), a.completeFault))
    && (Called(ApplyOp, req.key, req.jobId) in v.history <==> CallsApply(req, a, current))
    && (Called(RestoreOp, req.key, req.jobId) in v.history <==> CallsRestore(req, a, current))
    && (Promoted(req) in v.history <==> AllAsAsked(req, a, current) && a.completeFault != BeforeCommit)
  }

  lemma OutcomeFrom(w: World, more: seq<Move>, pid: nat, req: Request, at: int, a: Answers)
    requires Inv(w) && HasRow(w, pid, req, at) && forall m :: m in more ==> Takes(pid, a, m)
    ensures var v := Run(w, more);
            && pid in v.procs && (Turns(pid, more) >= 7 ==> v.procs[pid].Returned?)
            && (v.procs[pid].Returned? ==> AnswersRightly(v, pid, req, at, a, Current(w.tables, req.target.id)))
  {
    var current := Current(w.tables, req.target.id);
    var start := At(Held(req, at, a, Reading));
    assert Held(req, at, a, Reading) == w.procs[pid];
    assert ProcOk(w, w.procs[pid]);
    TracksRun(w, more, pid, req, a, current, start);
    RunKeeps(w, more);
    EndsSo(req, at, a, current, Turns(pid, more));
    if Turns(pid, more) >= 7 { FromReading(req, at, a, current, Turns(pid, more)); }
  }

  /** In every run, whatever the others do: an executor that has acquired its row and has
      had seven turns has ended. It has succeeded and promoted its release exactly when
      every answer was as its request asks; otherwise it reports the first answer that was
      not, after the restore that this calls for. */
  lemma ExecutorAnswersRightly(first: seq<Move>, more: seq<Move>, pid: nat, req: Request, at: int, a: Answers)
    requires HasRow(Run(START, first), pid, req, at) && forall m :: m in more ==> Takes(pid, a, m)
    ensures var w, v := Run(START, first), Run(START, first + more);
            && pid in v.procs && (Turns(pid, more) >= 7 ==> v.procs[pid].Returned?)
            && (v.procs[pid].Returned? ==> AnswersRightly(v, pid, req, at, a, Current(w.tables, req.target.id)))
  {
    StartIsGood();
    RunKeeps(START, first);
    FoldJoin(Stepper(), START, first, more);
    OutcomeFrom(Run(START, first), more, pid, req, at, a);
  }

  /** In particular, with a store that takes the result, the answer is success exactly when
      all answers are as asked; and what is reported otherwise is fixed by the first that
      is not, and by whether a restore that it calls for verifies. */
  lemma SuccessExactly(req: Request, at: int, a: Answers, current: Option<string>)
    requires a.completeFault == NoFault
    ensures var out := Answer(Outcome(req, at, a, current), NoFault);
            && (out.Done? <==> AllAsAsked(req, a, current))
            && (out.Done? || (out.Broken? && out.result.failedStep == Reported(req, a, current).step
                              && out.result.code == Reported(req, a, current).code))
  {
  }
}
