/** Execute as it is written, run against the shared store while any other
    executors move between its calls. */
module ReleaseRun {
  import opened Wrappers
  import opened ReleaseContract
  import opened Runs
  import opened ReleaseStore
  import opened ReleaseExecutor
  import opened ReleaseSystem
  import opened ReleaseOutcome

  predicate NotBy(me: nat, moves: seq<Move>) {
    forall m :: m in moves ==> m.pid != me
  }

  /** The moves of one executor: its launch and its turns with one set of answers. */
  predicate OwnMoves(me: nat, request: Request, a: Answers, trail: seq<Move>) {
    forall m :: m in trail && m.pid == me ==> m == Launch(me, request) || m == Turn(me, a)
  }

  lemma RunStep(w: World, moves: seq<Move>, m: Move)
    ensures Run(w, moves + [m]) == Next(Run(w, moves), m)
  {
    FoldOne(Stepper(), w, moves, m);
  }

  lemma RunJoin(w: World, xs: seq<Move>, ys: seq<Move>)
    ensures Run(w, xs + ys) == Run(Run(w, xs), ys)
  {
    FoldJoin(Stepper(), w, xs, ys);
  }

  lemma {:induction false} OthersKeepFrame(w: World, moves: seq<Move>, me: nat)
    requires NotBy(me, moves) && me in w.procs
    ensures me in Run(w, moves).procs && Run(w, moves).procs[me] == w.procs[me]
  {
    if moves != [] {
      var most, last := moves[..|moves| - 1], moves[|moves| - 1];
      OthersKeepFrame(w, most, me);
      assert last in moves;
    }
  }

  /** What an executor answers that goes on from its reservation. */
  lemma ReservedAnswers(w: World, me: nat, request: Request, a: Answers, trail: seq<Move>, tail: seq<Move>)
    requires HasRow(Run(w, trail), me, request, a.startedAt) && OwnMoves(me, request, a, tail)
    requires me in Run(w, trail + tail).procs && Run(w, trail + tail).procs[me].Returned?
    ensures (trail + tail)[..|trail|] == trail
    ensures Inv(w) ==> AnswersRightly(Run(w, trail + tail), me, request, a.startedAt, a,
                                      Current(Run(w, trail).tables, request.target.id))
  {
    if Inv(w) {
      RunJoin(w, trail, tail);
      RunKeeps(w, trail);
      OutcomeFrom(Run(w, trail), tail, me, request, a.startedAt, a);
    }
  }

  class Plane {
    const store: Database
    var procs: map<nat, Proc>
    ghost var history: seq<Event>

    ghost function View(): World reads this, store { World(store.View(), procs, history) }

    constructor (store: Database)
      ensures this.store == store && procs == map[] && history == []
    {
      this.store := store;
      procs, history := map[], [];
    }

    /** One move of some other executor. */
    method Perform(m: Move)
      modifies this, store
      ensures View() == Next(old(View()), m)
    {
      match m
      case Launch(pid, req) =>
        if pid !in procs {
          var ok := Validate(req);
          procs := procs[pid := if ok then Reserving(req) else Returned(req, Invalid)];
        }
      case Turn(pid, a) =>
        if pid in procs {
          var p := procs[pid];
          match p
          case Reserving(req) =>
            var r := store.Reserve(req, a.startedAt, a.reserveFault);
            procs := procs[pid := match r
                                  case Acquired => Working(req, Reading, Blank(req, a.startedAt), NoStep, NoCode)
                                  case Replay(result) => Returned(req, Replayed(result))
                                  case Refused(why) => Returned(req, NotReserved(why))];
          case Working(req, stage, result, _, _) =>
            if stage == Finishing {
              var ok := store.CompleteSuccess(result, req.manifest, a.completeFault);
              history := history + if a.completeFault != BeforeCommit && MaySucceed(old(View()).tables, result, req.manifest)
                                   then [Promoted(req)] else [];
              procs := procs[pid := Returned(req, if ok then Done(result) else NotPersisted)];
            } else if stage == Failing {
              var ok := store.CompleteFailure(result, a.completeFault);
              procs := procs[pid := Returned(req, if ok then Broken(result) else NotPersisted)];
            } else {
              var current := store.CurrentRelease(req.target.id);
              procs, history := procs[pid := Advance(p, a, current)], history + Calls(p);
            }
          case _ =>
        }
      case Crash(pid, during) =>
        if pid in procs && !procs[pid].Returned? {
          var p := procs[pid];
          procs, history := procs[pid := Crashed(p.req)], history + if during && p.Working? then Calls(p) else [];
        }
    }
  
    /** Whatever the other executors do before the next call of executor me. */
    method Others(me: nat, moves: seq<Move>)
      requires NotBy(me, moves) && me in procs
      modifies this, store
      ensures View() == Run(old(View()), moves)
      ensures me in procs && procs[me] == old(procs[me])
    {
      for i := 0 to |moves|
        invariant View() == Run(old(View()), moves[..i])
      {
        Perform(moves[i]);
        RunStep(old(View()), moves[..i], moves[i]);
        assert moves[..i + 1] == moves[..i] + [moves[i]];
      }
      assert moves[..|moves|] == moves;
      OthersKeepFrame(old(View()), moves, me);
    }

    /** fail: mark the result, persist it, and report the step. */
    method Fail(me: nat, request: Request, result: Result, step: Step, code: Code, a: Answers,
                others: seq<Move>, frame: Proc)
      returns (out: Out, ghost trail: seq<Move>)
      requires NotBy(me, others) && me in procs
      requires frame.Working? && frame.req == request && frame.result == result
      modifies this, store
      ensures OwnMoves(me, request, a, trail)
      ensures View() == Run(old(View()).(procs := old(procs)[me := ReleaseExecutor.Fail(frame, a.finishedAt, step, code)]), trail)
      ensures me in procs && procs[me] == Returned(request, out)
    {
      var r := result.(status := Failed, finishedAt := Some(a.finishedAt), failedStep := step, code := code);
      procs := procs[me := Working(request, Failing, r, frame.step, frame.code)];
      ghost var w := View();
      Others(me, others);
      var ok := store.CompleteFailure(r, a.completeFault);
      out := if ok then Broken(r) else NotPersisted;
      procs := procs[me := Returned(request, out)];
      trail := others + [Turn(me, a)];
      RunStep(w, others, Turn(me, a));
    }
  
    /** recoverAndFail: restore this run's backup, then fail at the original
        step, or at the rollback step when the restore does not verify. */
    method RecoverAndFail(me: nat, request: Request, result: Result, backup: Backup, step: Step, code: Code, a: Answers,
                          beforeRestore: seq<Move>, beforeFailure: seq<Move>, frame: Proc)
      returns (out: Out, ghost trail: seq<Move>)
      requires NotBy(me, beforeRestore) && NotBy(me, beforeFailure) && me in procs
      requires frame.Working? && frame.req == request && frame.result == result && result.backup == Some(backup)
      modifies this, store
      ensures OwnMoves(me, request, a, trail)
      ensures View() == Run(old(View()).(procs := old(procs)[me := frame.(stage := Restoring, step := step, code := code)]), trail)
      ensures me in procs && procs[me] == Returned(request, out)
    {
      var waiting := frame.(stage := Restoring, step := step, code := code);
      procs := procs[me := waiting];
      ghost var w := View();
      Others(me, beforeRestore);
      history := history + [Called(RestoreOp, request.key, request.jobId)];
      var r := result.(rollback := Some(a.rollback));
      var failing := waiting.(result := r);
      ghost var tail;
      if a.rollbackErr || a.rollback.backupId != backup.id || a.rollback.mode != request.recovery
         || !a.rollback.restored || !a.rollback.healthVerified {
        out, tail := Fail(me, request, r, AtRollback, RollbackFailed, a, beforeFailure, failing);
      } else {
        out, tail := Fail(me, request, r, step, code, a, beforeFailure, failing);
      }
      RunStep(w, beforeRestore, Turn(me, a));
      RunJoin(w, beforeRestore + [Turn(me, a)], tail);
      trail := beforeRestore + [Turn(me, a)] + tail;
    }

    /** The part of Execute that follows a verified backup. */
    method ApplyAndVerify(me: nat, request: Request, prepared: Result, a: Answers, others: seq<seq<Move>>)
      returns (out: Out, ghost trail: seq<Move>)
      requires |others| == 5 && (forall g :: g in others ==> NotBy(me, g))
      requires me in procs && procs[me] == Working(request, Applying, prepared, NoStep, NoCode)
      modifies this, store
      ensures OwnMoves(me, request, a, trail)
      ensures View() == Run(old(View()), trail)
      ensures me in procs && procs[me] == Returned(request, out)
    {
      ghost var w := View();
      ghost var tail;
      var result := prepared;
      Others(me, others[0]);
      history := history + [Called(ApplyOp, request.key, request.jobId)];
      result := result.(apply := Some(a.apply));
      var frame := procs[me].(result := result);
      RunStep(w, others[0], Turn(me, a));
      trail := others[0] + [Turn(me, a)];
      if a.applyErr || a.apply.components != |request.images| {
        if result.backup.Some? && request.recovery == RUNTIME_ONLY {
          out, tail := RecoverAndFail(me, request, result, result.backup.value, AtApply, ApplyFailed, a,
                                      others[1], others[2], frame);
        } else {
          out, tail := Fail(me, request, result, AtApply, ApplyFailed, a, others[1], frame);
        }
        RunJoin(w, trail, tail);
        trail := trail + tail;
        return;
      }
      if request.migration == MIGRATE && !a.apply.migrationApplied {
        if result.backup.Some? && request.recovery == RUNTIME_ONLY {
          out, tail := RecoverAndFail(me, request, result, result.backup.value, AtApply, MigrationNotApplied, a,
                                      others[1], others[2], frame);
        } else {
          out, tail := Fail(me, request, result, AtApply, MigrationNotApplied, a, others[1], frame);
        }
        RunJoin(w, trail, tail);
        trail := trail + tail;
        return;
      }
      procs := procs[me := frame.(stage := Verifying)];
      out, tail := VerifyAndComplete(me, request, result, a, others[1..]);
      RunJoin(w, trail, tail);
      trail := trail + tail;
    }

    method VerifyAndComplete(me: nat, request: Request, applied: Result, a: Answers, others: seq<seq<Move>>)
      returns (out: Out, ghost trail: seq<Move>)
      requires |others| == 4 && (forall g :: g in others ==> NotBy(me, g))
      requires me in procs && procs[me] == Working(request, Verifying, applied, NoStep, NoCode)
      modifies this, store
      ensures OwnMoves(me, request, a, trail)
      ensures View() == Run(old(View()), trail)
      ensures me in procs && procs[me] == Returned(request, out)
    {
      ghost var w := View();
      ghost var tail;
      var result := applied;
      Others(me, others[0]);
      history := history + [Called(HealthOp, request.key, request.jobId)];
      result := result.(health := Some(a.health));
      var frame := procs[me].(result := result);
      RunStep(w, others[0], Turn(me, a));
      trail := others[0] + [Turn(me, a)];
      if a.healthErr || a.health.profile != request.healthProfile || a.health.checksPassed < 1 {
        if result.backup.Some? && request.recovery == RUNTIME_ONLY {
          out, tail := RecoverAndFail(me, request, result, result.backup.value, AtHealth, HealthFailed, a,
                                      others[1], others[2], frame);
        } else {
          out, tail := Fail(me, request, result, AtHealth, HealthFailed, a, others[1], frame);
        }
        RunJoin(w, trail, tail);
        trail := trail + tail;
        return;
      }
      result := result.(status := Succeeded, finishedAt := Some(a.finishedAt));
      procs := procs[me := frame.(stage := Finishing, result := result)];
      out, tail := Complete(me, request, result, a, others[1]);
      RunJoin(w, trail, tail);
      trail := trail + tail;
    }

    /** Persist a success and promote its release. */
    method Complete(me: nat, request: Request, result: Result, a: Answers, others: seq<Move>)
      returns (out: Out, ghost trail: seq<Move>)
      requires NotBy(me, others)
      requires me in procs && procs[me] == Working(request, Finishing, result, NoStep, NoCode)
      modifies this, store
      ensures OwnMoves(me, request, a, trail)
      ensures View() == Run(old(View()), trail)
      ensures me in procs && procs[me] == Returned(request, out)
    {
      ghost var w := View();
      Others(me, others);
      ghost var hit := a.completeFault != BeforeCommit && MaySucceed(store.View(), result, request.manifest);
      var ok := store.CompleteSuccess(result, request.manifest, a.completeFault);
      history := history + if hit then [Promoted(request)] else [];
      out := if ok then Done(result) else NotPersisted;
      procs := procs[me := Returned(request, out)];
      RunStep(w, others, Turn(me, a));
      trail := others + [Turn(me, a)];
    }

    /** One call of Execute.  Whatever the runtime answers and whatever other
        executors do in between, it is a run of the system in which this executor
        only launches the request and takes its turns.  Once it has acquired its row,
        it answers as the first answer calls for that is not as asked, and with
        success when there is none. */
    method Execute(me: nat, request: Request, a: Answers, others: seq<seq<Move>>)
      returns (out: Out, ghost trail: seq<Move>, ghost taken: nat)
      requires |others| == 9 && (forall g :: g in others ==> NotBy(me, g))
      requires me !in procs
      modifies this, store
      ensures OwnMoves(me, request, a, trail)
      ensures View() == Run(old(View()), trail)
      ensures me in procs && procs[me] == Returned(request, out)
      ensures out.Done? || out.Broken? || out.NotPersisted? ==>
                && taken <= |trail| && HasRow(Run(old(View()), trail[..taken]), me, request, a.startedAt)
                && (Inv(old(View())) ==>
                      AnswersRightly(View(), me, request, a.startedAt, a,
                                     Current(Run(old(View()), trail[..taken]).tables, request.target.id)))
    {
      taken := 0;
      ghost var w := View();
      ghost var tail;
      var valid := Validate(request);
      trail := [Launch(me, request)];
      RunStep(w, [], Launch(me, request));
      assert [] + [Launch(me, request)] == trail;
      if !valid {
        out := Invalid;
        procs := procs[me := Returned(request, out)];
        return;
      }
      procs := procs[me := Reserving(request)];
      ghost var v := View();
      Others(me, others[0]);
      var reservation := store.Reserve(request, a.startedAt, a.reserveFault);
      RunStep(v, others[0], Turn(me, a));
      RunJoin(w, trail, others[0] + [Turn(me, a)]);
      trail := trail + (others[0] + [Turn(me, a)]);
      match reservation {
        case Refused(why) => out := NotReserved(why);
        case Replay(stored) => out := Replayed(stored);
        case Acquired =>
          procs := procs[me := Working(request, Reading, Blank(request, a.startedAt), NoStep, NoCode)];
          taken := |trail|;
          out, tail := Prepare(me, request, Blank(request, a.startedAt), a, others[1..]);
          RunJoin(w, trail, tail);
          ReservedAnswers(w, me, request, a, trail, tail);
          trail := trail + tail;
          return;
      }
      procs := procs[me := Returned(request, out)];
    }

    /** From the reserved job to the verified backup. */
    method Prepare(me: nat, request: Request, blank: Result, a: Answers, others: seq<seq<Move>>)
      returns (out: Out, ghost trail: seq<Move>)
      requires |others| == 8 && (forall g :: g in others ==> NotBy(me, g))
      requires me in procs && procs[me] == Working(request, Reading, blank, NoStep, NoCode)
      modifies this, store
      ensures OwnMoves(me, request, a, trail)
      ensures View() == Run(old(View()), trail)
      ensures me in procs && procs[me] == Returned(request, out)
    {
      ghost var w := View();
      ghost var tail;
      var result := blank;
      Others(me, others[0]);
      var current := store.CurrentRelease(request.target.id);
      var frame := procs[me];
      RunStep(w, others[0], Turn(me, a));
      trail := others[0] + [Turn(me, a)];
      assert history + [] == history;
      if a.readFails {
        out, tail := Fail(me, request, result, AtExpectedRelease, CurrentUnavailable, a, others[1], frame);
        RunJoin(w, trail, tail);
        trail := trail + tail;
        return;
      }
      if current != request.target.expected {
        out, tail := Fail(me, request, result, AtExpectedRelease, CurrentMismatch, a, others[1], frame);
        RunJoin(w, trail, tail);
        trail := trail + tail;
        return;
      }
      procs := procs[me := frame.(stage := Preflighting)];
      out, tail := RunPreflight(me, request, result, a, others[1..]);
      RunJoin(w, trail, tail);
      trail := trail + tail;
    }

    /** The preflight, and then the backup when one is required. */
    method RunPreflight(me: nat, request: Request, blank: Result, a: Answers, others: seq<seq<Move>>)
      returns (out: Out, ghost trail: seq<Move>)
      requires |others| == 7 && (forall g :: g in others ==> NotBy(me, g))
      requires me in procs && procs[me] == Working(request, Preflighting, blank, NoStep, NoCode)
      modifies this, store
      ensures OwnMoves(me, request, a, trail)
      ensures View() == Run(old(View()), trail)
      ensures me in procs && procs[me] == Returned(request, out)
    {
      ghost var w := View();
      ghost var tail;
      var result := blank;
      Others(me, others[0]);
      history := history + [Called(PreflightOp, request.key, request.jobId)];
      result := result.(preflight := Some(a.preflight));
      var frame := procs[me].(result := result);
      RunStep(w, others[0], Turn(me, a));
      trail := others[0] + [Turn(me, a)];
      if a.preflightErr || !a.preflight.composeValid || !a.preflight.imagesResolved || !a.preflight.migrationReady {
        out, tail := Fail(me, request, result, AtPreflight, PreflightFailed, a, others[1], frame);
        RunJoin(w, trail, tail);
        trail := trail + tail;
        return;
      }
      if request.backupRequired {
        procs := procs[me := frame.(stage := BackingUp)];
        out, tail := BackUp(me, request, result, a, others[1..]);
      } else {
        procs := procs[me := frame.(stage := Applying)];
        out, tail := ApplyAndVerify(me, request, result, a, others[2..]);
      }
      RunJoin(w, trail, tail);
      trail := trail + tail;
    }

    method BackUp(me: nat, request: Request, checked: Result, a: Answers, others: seq<seq<Move>>)
      returns (out: Out, ghost trail: seq<Move>)
      requires |others| == 6 && (forall g :: g in others ==> NotBy(me, g))
      requires me in procs && procs[me] == Working(request, BackingUp, checked, NoStep, NoCode)
      modifies this, store
      ensures OwnMoves(me, request, a, trail)
      ensures View() == Run(old(View()), trail)
      ensures me in procs && procs[me] == Returned(request, out)
    {
      ghost var w := View();
      ghost var tail;
      Others(me, others[0]);
      history := history + [Called(BackupOp, request.key, request.jobId)];
      var result := checked.(backup := Some(a.backup));
      var frame := procs[me].(result := result);
      RunStep(w, others[0], Turn(me, a));
      trail := others[0] + [Turn(me, a)];
      if a.backupErr || !a.backup.verified || !a.backup.encrypted || !a.backup.offsite
         || !Digest(a.backup.manifest) || a.backup.id == "" {
        out, tail := Fail(me, request, result, AtBackup, BackupNotVerified, a, others[1], frame);
      } else {
        procs := procs[me := frame.(stage := Applying)];
        out, tail := ApplyAndVerify(me, request, result, a, others[1..]);
      }
      RunJoin(w, trail, tail);
      trail := trail + tail;
    }
  }
}
