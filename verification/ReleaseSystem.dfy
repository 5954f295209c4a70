/** Any number of executors over one store: interleavings, crashes, retries. */
module ReleaseSystem {
  import opened Wrappers
  import opened ReleaseContract
  import opened Runs
  import opened ReleaseStore
  import opened ReleaseExecutor

  /** What an observer outside the store sees, in order. */
  datatype Event =
    | Called(op: Op, key: string, job: string)
    | Promoted(req: Request)

  datatype World = World(tables: Tables, procs: map<nat, Proc>, history: seq<Event>)

  /** A crash may come between two calls or while a runtime call is under way. */
  datatype Move =
    | Launch(pid: nat, req: Request)
    | Turn(pid: nat, answers: Answers)
    | Crash(pid: nat, during: bool)

  function Calls(p: Proc): seq<Event>
    requires p.Working?
  {
    match p.stage
    case Preflighting => [Called(PreflightOp, p.req.key, p.req.jobId)]
    case BackingUp => [Called(BackupOp, p.req.key, p.req.jobId)]
    case Applying => [Called(ApplyOp, p.req.key, p.req.jobId)]
    case Verifying => [Called(HealthOp, p.req.key, p.req.jobId)]
    case Restoring => [Called(RestoreOp, p.req.key, p.req.jobId)]
    case _ => []
  }

  function Attempt(t: Tables, req: Request, a: Answers): (Tables, Proc) {
    var (t', r) := Reserved(t, req, a.startedAt);
    var answer := if a.reserveFault == NoFault then r else Refused(Unavailable);
    (if a.reserveFault == BeforeCommit then t else t',
     match answer
     case Acquired => Working(req, Reading, Blank(req, a.startedAt), NoStep, NoCode)
     case Replay(result) => Returned(req, Replayed(result))
     case Refused(why) => Returned(req, NotReserved(why)))
  }

  function TurnOf(w: World, pid: nat, a: Answers): World
    requires pid in w.procs
  {
    var p := w.procs[pid];
    match p
    case Reserving(req) =>
      var (t, q) := Attempt(w.tables, req, a);
      World(t, w.procs[pid := q], w.history)
    case Working(req, stage, result, _, _) =>
      if stage == Finishing then
        var hit := a.completeFault != BeforeCommit && MaySucceed(w.tables, result, req.manifest);
        var ok := a.completeFault == NoFault && hit;
        World(if hit then AfterSuccess(w.tables, result, req.manifest) else w.tables,
              w.procs[pid := Returned(req, if ok then Done(result) else NotPersisted)],
              if hit then w.history + [Promoted(req)] else w.history)
      else if stage == Failing then
        var hit := a.completeFault != BeforeCommit && MayFail(w.tables, result);
        var ok := a.completeFault == NoFault && hit;
        World(if hit then AfterFailure(w.tables, result) else w.tables,
              w.procs[pid := Returned(req, if ok then Broken(result) else NotPersisted)],
              w.history)
      else
        World(w.tables,
              w.procs[pid := Advance(p, a, Current(w.tables, req.target.id))],
              w.history + Calls(p))
    case _ => w
  }

  function Next(w: World, m: Move): World {
    match m
    case Launch(pid, req) =>
      if pid in w.procs then w
      else w.(procs := w.procs[pid := if ValidRequest(req) then Reserving(req) else Returned(req, Invalid)])
    case Turn(pid, a) =>
      if pid in w.procs then TurnOf(w, pid, a) else w
    case Crash(pid, during) =>
      if pid !in w.procs || w.procs[pid].Returned? then w
      else World(w.tables, w.procs[pid := Crashed(w.procs[pid].req)],
                 w.history + if during && w.procs[pid].Working? then Calls(w.procs[pid]) else [])
  }

  function Stepper(): (World, Move) -> World {
    (w, m) => Next(w, m)
  }

  function Run(w: World, moves: seq<Move>): World {
    Fold(Stepper(), w, moves)
  }

  const START := World(Tables(map[], map[]), map[], [])

  // ----- the invariant -----

  /** The release most recently promoted on a target. */
  function Last(h: seq<Event>, target: string): Option<string> {
    if h == [] then None
    else
      var e := h[|h| - 1];
      if e.Promoted? && e.req.target.id == target then Some(e.req.releaseId)
      else Last(h[..|h| - 1], target)
  }

  /** Each promoted job expected exactly the release promoted before it. */
  ghost predicate Chained(h: seq<Event>) {
    forall i :: 0 <= i < |h| && h[i].Promoted? ==>
      h[i].req.target.expected == Last(h[..i], h[i].req.target.id)
  }

  ghost predicate RowOk(key: string, row: Row) {
    && row.request.key == key
    && Governed(row.request)
    && (row.status == Running ==> row.result.None?)
    && (row.status != Running ==>
          row.result.Some? && row.result.value.status == row.status && Terminal(row.request, row.result.value))
  }

  ghost predicate RowsOk(t: Tables) {
    && (forall k :: k in t.jobs ==> RowOk(k, t.jobs[k]))
    && (forall k, l :: k in t.jobs && l in t.jobs && k != l ==> t.jobs[k].request.jobId != t.jobs[l].request.jobId)
  }

  /** At most one running job per target. */
  ghost predicate OneRunning(t: Tables) {
    forall k, l | k in t.jobs && l in t.jobs && t.jobs[k].status == Running && t.jobs[l].status == Running
                  && t.jobs[k].request.target.id == t.jobs[l].request.target.id :: k == l
  }

  ghost predicate Irreversible(e: Event) {
    e.Called? && (e.op == ApplyOp || e.op == RestoreOp)
  }

  /** No two calls of Apply, and no two of Restore, share a key or a job id. */
  ghost predicate NoRepeats(h: seq<Event>) {
    forall i, j :: 0 <= i < j < |h| && Irreversible(h[i]) && Irreversible(h[j]) && h[i].op == h[j].op ==>
      h[i].key != h[j].key && h[i].job != h[j].job
  }

  ghost predicate RestoreFollowsApply(h: seq<Event>) {
    forall j :: 0 <= j < |h| && h[j].Called? && h[j].op == RestoreOp ==>
      Called(ApplyOp, h[j].key, h[j].job) in h[..j]
  }

  ghost predicate CallsOfRows(h: seq<Event>, t: Tables) {
    forall e :: e in h && e.Called? ==>
      && e.key in t.jobs && t.jobs[e.key].request.jobId == e.job
      && (e.op == RestoreOp ==> Recoverable(t.jobs[e.key].request))
  }

  ghost predicate PromotionsOfRows(h: seq<Event>, t: Tables) {
    && (forall e :: e in h && e.Promoted? ==>
          e.req.key in t.jobs && t.jobs[e.req.key].request == e.req && t.jobs[e.req.key].status == Succeeded)
    && (forall k :: k in t.jobs && t.jobs[k].status == Succeeded ==> Promoted(t.jobs[k].request) in h)
  }

  /** The calls on record for a job are those its result admits to. */
  ghost predicate Admits(h: seq<Event>, req: Request, r: Result) {
    && (Called(ApplyOp, req.key, req.jobId) in h <==> r.apply.Some?)
    && (Called(RestoreOp, req.key, req.jobId) in h <==> r.rollback.Some?)
  }

  ghost predicate RowsAdmit(h: seq<Event>, t: Tables) {
    forall k :: k in t.jobs && t.jobs[k].result.Some? ==> Admits(h, t.jobs[k].request, t.jobs[k].result.value)
  }

  ghost predicate TargetsLast(h: seq<Event>, t: Tables) {
    forall target :: Current(t, target) == Last(h, target)
  }

  ghost predicate ProcOk(w: World, p: Proc) {
    match p
    case Reserving(req) => Governed(req)
    case Working(req, stage, result, _, _) =>
      && Local(p)
      && req.key in w.tables.jobs
      && w.tables.jobs[req.key].request == req
      && w.tables.jobs[req.key].status == Running
      && Admits(w.history, req, result)
      && (stage != Reading && stage != Failing ==> Current(w.tables, req.target.id) == req.target.expected)
    case Returned(req, out) =>
      out.Done? || out.Broken? || out.Replayed? ==>
        && req.key in w.tables.jobs
        && w.tables.jobs[req.key].request == req
        && w.tables.jobs[req.key].result == Some(out.result)
    case Crashed(_) => true
  }

  ghost predicate ProcsOk(w: World) {
    forall pid :: pid in w.procs ==> ProcOk(w, w.procs[pid])
  }

  /** Two working executors never hold the same key. */
  ghost predicate OneHolder(w: World) {
    forall p, q | p in w.procs && q in w.procs && w.procs[p].Working? && w.procs[q].Working?
                  && w.procs[p].req.key == w.procs[q].req.key :: p == q
  }

  ghost predicate HistoryOk(h: seq<Event>, t: Tables) {
    && Chained(h) && NoRepeats(h) && RestoreFollowsApply(h)
    && CallsOfRows(h, t) && PromotionsOfRows(h, t) && RowsAdmit(h, t) && TargetsLast(h, t)
  }

  ghost predicate Inv(w: World) {
    && RowsOk(w.tables) && OneRunning(w.tables)
    && HistoryOk(w.history, w.tables)
    && ProcsOk(w) && OneHolder(w)
  }

  // ----- calls on the history -----

  lemma LastSkips(h: seq<Event>, e: Event, target: string)
    requires !(e.Promoted? && e.req.target.id == target)
    ensures Last(h + [e], target) == Last(h, target)
  {
    assert (h + [e])[..|h|] == h;
  }

  lemma LastHits(h: seq<Event>, req: Request)
    ensures Last(h + [Promoted(req)], req.target.id) == Some(req.releaseId)
  {
  }

  lemma ChainGrows(h: seq<Event>, e: Event)
    requires Chained(h)
    requires e.Promoted? ==> e.req.target.expected == Last(h, e.req.target.id)
    ensures Chained(h + [e])
  {
    var g := h + [e];
    forall i | 0 <= i < |g| && g[i].Promoted?
      ensures g[i].req.target.expected == Last(g[..i], g[i].req.target.id)
    {
      assert g[..i] == h[..i];
      if i == |h| { assert h[..i] == h; }
    }
  }

  lemma CallIsNew(w: World, pid: nat, e: Event)
    requires ProcsOk(w) && pid in w.procs && w.procs[pid].Working? && Calls(w.procs[pid]) == [e]
    ensures e.Called? && e.key in w.tables.jobs && w.tables.jobs[e.key].request == w.procs[pid].req
    ensures e.key == w.procs[pid].req.key && e.job == w.procs[pid].req.jobId
    ensures Irreversible(e) ==> e !in w.history
  {
    assert ProcOk(w, w.procs[pid]);
  }

  /** An irreversible call about to be made has not been made for this job. */
  lemma CallIsFresh(w: World, pid: nat, e: Event)
    requires Inv(w) && pid in w.procs && w.procs[pid].Working? && Calls(w.procs[pid]) == [e]
    ensures Irreversible(e) ==> forall f :: f in w.history && f.Called? && f.op == e.op ==> f.key != e.key && f.job != e.job
  {
    CallIsNew(w, pid, e);
    forall f | Irreversible(e) && f in w.history && f.Called? && f.op == e.op
      ensures f.key != e.key && f.job != e.job
    {
      assert f.key in w.tables.jobs && w.tables.jobs[f.key].request.jobId == f.job;
      assert f.key == e.key ==> f == e;
    }
  }

  lemma CallDoesNotRepeat(w: World, pid: nat, e: Event)
    requires Inv(w) && pid in w.procs && w.procs[pid].Working? && Calls(w.procs[pid]) == [e]
    ensures NoRepeats(w.history + [e])
  {
    CallIsFresh(w, pid, e);
    var h := w.history;
    var g := h + [e];
    forall i, j | 0 <= i < j < |g| && Irreversible(g[i]) && Irreversible(g[j]) && g[i].op == g[j].op
      ensures g[i].key != g[j].key && g[i].job != g[j].job
    {
      assert g[i] == h[i];
      if j == |h| { assert g[i] in h; }
    }
  }

  lemma RestoreStillFollows(h: seq<Event>, e: Event)
    requires RestoreFollowsApply(h)
    requires e.Called? && e.op == RestoreOp ==> Called(ApplyOp, e.key, e.job) in h
    ensures RestoreFollowsApply(h + [e])
  {
    var g := h + [e];
    forall j | 0 <= j < |g| && g[j].Called? && g[j].op == RestoreOp
      ensures Called(ApplyOp, g[j].key, g[j].job) in g[..j]
    {
      assert g[..j] == h[..j];
      if j == |h| { assert h[..j] == h; }
    }
  }

  lemma CallOnRecord(h: seq<Event>, t: Tables, e: Event)
    requires CallsOfRows(h, t) && PromotionsOfRows(h, t) && RowsAdmit(h, t) && RowsOk(t)
    requires e.Called? && e.key in t.jobs && t.jobs[e.key].status == Running && t.jobs[e.key].request.jobId == e.job
    requires e.op == RestoreOp ==> Recoverable(t.jobs[e.key].request)
    ensures CallsOfRows(h + [e], t) && PromotionsOfRows(h + [e], t) && RowsAdmit(h + [e], t)
  {
    forall k | k in t.jobs && t.jobs[k].result.Some? ensures Admits(h + [e], t.jobs[k].request, t.jobs[k].result.value) {
      assert RowOk(k, t.jobs[k]) && RowOk(e.key, t.jobs[e.key]);
      assert Admits(h, t.jobs[k].request, t.jobs[k].result.value);
    }
  }

  /** A runtime call of a working executor keeps the history in order. */
  lemma CallKeepsHistory(w: World, pid: nat, e: Event)
    requires Inv(w) && pid in w.procs && w.procs[pid].Working? && Calls(w.procs[pid]) == [e]
    ensures HistoryOk(w.history + [e], w.tables)
  {
    var h := w.history;
    CallIsDue(w, pid, e);
    ChainGrows(h, e);
    CallDoesNotRepeat(w, pid, e);
    CallOnRecord(h, w.tables, e);
    RestoreStillFollows(h, e);
    forall target ensures Current(w.tables, target) == Last(h + [e], target) {
      assert Current(w.tables, target) == Last(h, target);
      LastSkips(h, e, target);
    }
  }

  /** A call is made for a running row; a restore only when recovery is possible, after Apply. */
  lemma CallIsDue(w: World, pid: nat, e: Event)
    requires ProcsOk(w) && pid in w.procs && w.procs[pid].Working? && Calls(w.procs[pid]) == [e]
    ensures e.Called? && e.key in w.tables.jobs && w.tables.jobs[e.key].status == Running && w.tables.jobs[e.key].request.jobId == e.job
    ensures e.op == RestoreOp ==> Recoverable(w.tables.jobs[e.key].request) && Called(ApplyOp, e.key, e.job) in w.history
  {
    var p := w.procs[pid];
    assert ProcOk(w, p);
    assert p.stage == Restoring ==> Cause(p.req, p.result, p.step, p.code);
    assert Pending(p.req, p.stage, p.result);
  }

  // ----- every move keeps the invariant -----

  lemma LaunchKeeps(w: World, pid: nat, req: Request)
    requires Inv(w)
    ensures Inv(Next(w, Launch(pid, req)))
  {
    if ValidRequest(req) { ValidIsGoverned(req); }
    var v := Next(w, Launch(pid, req));
    forall q | q in v.procs ensures ProcOk(v, v.procs[q]) {
      if q in w.procs { assert ProcOk(w, w.procs[q]); }
    }
  }

  /** Replacing the frame of one executor after its call, or at its end. */
  lemma FrameKeeps(w: World, pid: nat, q: Proc, h: seq<Event>)
    requires Inv(w) && pid in w.procs
    requires HistoryOk(h, w.tables)
    requires forall k, op :: k in w.tables.jobs && (!w.procs[pid].Working? || k != w.procs[pid].req.key) ==>
               var req := w.tables.jobs[k].request;
               Called(op, req.key, req.jobId) in h <==> Called(op, req.key, req.jobId) in w.history
    requires ProcOk(World(w.tables, w.procs, h), q)
    requires q.Working? ==> w.procs[pid].Working? && q.req == w.procs[pid].req
    ensures Inv(World(w.tables, w.procs[pid := q], h))
  {
    var v := World(w.tables, w.procs[pid := q], h);
    forall o | o in v.procs ensures ProcOk(v, v.procs[o]) {
      if o != pid {
        assert ProcOk(w, w.procs[o]);
      }
    }
  }

  lemma CallsFrame(h: seq<Event>, p: Proc, key: string, job: string, op: Op)
    requires p.Working? && key != p.req.key
    ensures Called(op, key, job) in h + Calls(p) <==> Called(op, key, job) in h
  {
  }

  lemma OthersCalled(w: World, pid: nat)
    requires Inv(w) && pid in w.procs && w.procs[pid].Working?
    ensures forall k, op :: k in w.tables.jobs && k != w.procs[pid].req.key ==>
              var req := w.tables.jobs[k].request;
              Called(op, req.key, req.jobId) in w.history + Calls(w.procs[pid]) <==> Called(op, req.key, req.jobId) in w.history
  {
    forall k, op | k in w.tables.jobs && k != w.procs[pid].req.key
      ensures var req := w.tables.jobs[k].request;
              Called(op, req.key, req.jobId) in w.history + Calls(w.procs[pid]) <==> Called(op, req.key, req.jobId) in w.history
    {
      assert RowOk(k, w.tables.jobs[k]);
      CallsFrame(w.history, w.procs[pid], k, w.tables.jobs[k].request.jobId, op);
    }
  }

  /** The evidence fields keep up with the calls on record. */
  lemma OwnCallIsAdmitted(h: seq<Event>, p: Proc, q: Proc)
    requires p.Working? && q.Working? && q.req == p.req
    requires Admits(h, p.req, p.result)
    requires q.result.apply.Some? <==> p.result.apply.Some? || p.stage == Applying
    requires q.result.rollback.Some? <==> p.result.rollback.Some? || p.stage == Restoring
    ensures Admits(h + Calls(p), q.req, q.result)
  {
  }

  lemma HistoryAfterCall(w: World, pid: nat)
    requires Inv(w) && pid in w.procs && w.procs[pid].Working?
    ensures HistoryOk(w.history + Calls(w.procs[pid]), w.tables)
  {
    var c := Calls(w.procs[pid]);
    AtMostOneCall(w.procs[pid]);
    if |c| == 0 {
      assert w.history + c == w.history;
    } else {
      CallKeepsHistory(w, pid, c[0]);
    }
  }

  lemma AtMostOneCall(p: Proc)
    requires p.Working?
    ensures |Calls(p)| == 0 || Calls(p) == [Calls(p)[0]]
  {
  }

  lemma AdvanceKeeps(w: World, pid: nat, a: Answers)
    requires Inv(w) && pid in w.procs && w.procs[pid].Working?
    requires w.procs[pid].stage != Finishing && w.procs[pid].stage != Failing
    ensures Inv(Next(w, Turn(pid, a)))
  {
    var p := w.procs[pid];
    assert ProcOk(w, p);
    var q := Advance(p, a, Current(w.tables, p.req.target.id));
    var h := w.history + Calls(p);
    HistoryAfterCall(w, pid);
    AdvanceKeepsLocal(p, a, Current(w.tables, p.req.target.id));
    AdvanceFrame(p, a, Current(w.tables, p.req.target.id));
    OwnCallIsAdmitted(w.history, p, q);
    assert ProcOk(World(w.tables, w.procs, h), q);
    OthersCalled(w, pid);
    FrameKeeps(w, pid, q, h);
  }

  /** A process that dies may have made the call it was about to make. */
  lemma CrashInCallKeeps(w: World, pid: nat)
    requires Inv(w) && pid in w.procs && w.procs[pid].Working?
    ensures Inv(World(w.tables, w.procs[pid := Crashed(w.procs[pid].req)], w.history + Calls(w.procs[pid])))
  {
    HistoryAfterCall(w, pid);
    OthersCalled(w, pid);
    FrameKeeps(w, pid, Crashed(w.procs[pid].req), w.history + Calls(w.procs[pid]));
  }

  lemma CrashKeeps(w: World, pid: nat, during: bool)
    requires Inv(w)
    ensures Inv(Next(w, Crash(pid, during)))
  {
    if pid in w.procs && !w.procs[pid].Returned? {
      if during && w.procs[pid].Working? {
        CrashInCallKeeps(w, pid);
      } else {
        FrameKeeps(w, pid, Crashed(w.procs[pid].req), w.history);
        assert w.history + [] == w.history;
      }
    }
  }

  lemma ReserveKeeps(w: World, pid: nat, a: Answers)
    requires Inv(w) && pid in w.procs && w.procs[pid].Reserving?
    ensures Inv(Next(w, Turn(pid, a)))
  {
    var req := w.procs[pid].req;
    assert ProcOk(w, w.procs[pid]);
    var (t, q) := Attempt(w.tables, req, a);
    if t == w.tables {
      FrameKeeps(w, pid, q, w.history);
    } else {
      InsertKeeps(w, pid, a);
    }
  }

  ghost predicate Fresh(t: Tables, req: Request) {
    req.key !in t.jobs && !Busy(t, req.target.id) && !HasJobId(t, req.jobId)
  }

  function Inserted(t: Tables, req: Request, at: int): Tables {
    t.(jobs := t.jobs[req.key := Row(req, Running, None, at)])
  }

  lemma InsertKeepsRows(t: Tables, req: Request, at: int)
    requires RowsOk(t) && OneRunning(t) && Governed(req) && Fresh(t, req)
    ensures RowsOk(Inserted(t, req, at)) && OneRunning(Inserted(t, req, at))
  {
    var u := Inserted(t, req, at);
    forall k | k in u.jobs ensures RowOk(k, u.jobs[k]) {
      if k != req.key { assert RowOk(k, t.jobs[k]); }
    }
  }

  lemma InsertKeepsHistory(h: seq<Event>, t: Tables, req: Request, at: int)
    requires HistoryOk(h, t) && Fresh(t, req)
    ensures HistoryOk(h, Inserted(t, req, at))
  {
    var u := Inserted(t, req, at);
    forall target ensures Current(u, target) == Last(h, target) {
      assert Current(t, target) == Last(h, target);
    }
    forall k | k in u.jobs && u.jobs[k].result.Some? ensures Admits(h, u.jobs[k].request, u.jobs[k].result.value) {
      assert u.jobs[k] == t.jobs[k];
    }
  }

  lemma InsertKeepsProcs(w: World, pid: nat, q: Proc, at: int)
    requires Inv(w) && pid in w.procs
    requires var req := w.procs[pid].req;
             && Governed(req) && Fresh(w.tables, req)
             && (q == Working(req, Reading, Blank(req, at), NoStep, NoCode) || (q.Returned? && q.out.NotReserved?))
    ensures var v := World(Inserted(w.tables, w.procs[pid].req, at), w.procs[pid := q], w.history);
            ProcsOk(v) && OneHolder(v)
  {
    var req := w.procs[pid].req;
    var v := World(Inserted(w.tables, req, at), w.procs[pid := q], w.history);
    BlankIsLocal(req, at);
    forall o | o in w.procs && w.procs[o].Working? ensures w.procs[o].req.key != req.key {
      assert ProcOk(w, w.procs[o]);
    }
    forall o | o in v.procs ensures ProcOk(v, v.procs[o]) {
      if o != pid {
        assert ProcOk(w, w.procs[o]);
      }
    }
  }

  /** A fresh reservation: neither its key, job id nor target is in use. */
  lemma InsertKeeps(w: World, pid: nat, a: Answers)
    requires Inv(w) && pid in w.procs && w.procs[pid].Reserving?
    requires Attempt(w.tables, w.procs[pid].req, a).0 != w.tables
    ensures Inv(Next(w, Turn(pid, a)))
  {
    var req := w.procs[pid].req;
    assert ProcOk(w, w.procs[pid]);
    assert Fresh(w.tables, req);
    InsertKeepsRows(w.tables, req, a.startedAt);
    InsertKeepsHistory(w.history, w.tables, req, a.startedAt);
    InsertKeepsProcs(w, pid, Attempt(w.tables, req, a).1, a.startedAt);
  }

  /** Closing the row that the executor pid holds, as succeeded or failed. */
  lemma CloseKeepsProcs(w: World, pid: nat, t: Tables, h: seq<Event>, out: Out)
    requires Inv(w) && pid in w.procs && w.procs[pid].Working?
    requires out == NotPersisted || ((out.Done? || out.Broken?) && out.result == w.procs[pid].result)
    requires var p := w.procs[pid];
             && p.req.key in w.tables.jobs
             && t.jobs == Closed(w.tables, p.result)
             && p.result.key == p.req.key
             && (forall target :: target != p.req.target.id ==> Current(t, target) == Current(w.tables, target))
    requires forall op, k, j :: Called(op, k, j) in h <==> Called(op, k, j) in w.history
    ensures ProcsOk(World(t, w.procs[pid := Returned(w.procs[pid].req, out)], h))
    ensures OneHolder(World(t, w.procs[pid := Returned(w.procs[pid].req, out)], h))
  {
    var p := w.procs[pid];
    assert ProcOk(w, p);
    var v := World(t, w.procs[pid := Returned(p.req, out)], h);
    assert ProcOk(v, v.procs[pid]);
    forall o | o in w.procs && o != pid ensures ProcOk(v, w.procs[o]) {
      CloseKeepsOther(w, pid, o, t, h);
    }
  }

  lemma CloseKeepsOther(w: World, pid: nat, o: nat, t: Tables, h: seq<Event>)
    requires Inv(w) && pid in w.procs && w.procs[pid].Working? && o in w.procs && o != pid
    requires var p := w.procs[pid];
             && p.req.key in w.tables.jobs
             && t.jobs == Closed(w.tables, p.result)
             && p.result.key == p.req.key
             && (forall target :: target != p.req.target.id ==> Current(t, target) == Current(w.tables, target))
    requires forall op, k, j :: Called(op, k, j) in h <==> Called(op, k, j) in w.history
    ensures forall procs :: ProcOk(World(t, procs, h), w.procs[o])
  {
    var p, q := w.procs[pid], w.procs[o];
    assert ProcOk(w, p) && ProcOk(w, q);
    if q.Working? {
      assert q.req.key != p.req.key;
      assert q.req.target.id != p.req.target.id;
    }
  }

  lemma CloseKeepsRows(w: World, pid: nat, t: Tables)
    requires Inv(w) && pid in w.procs && w.procs[pid].Working?
    requires w.procs[pid].stage == Finishing || w.procs[pid].stage == Failing
    requires w.procs[pid].req.key in w.tables.jobs && w.procs[pid].result.key == w.procs[pid].req.key
    requires t.jobs == Closed(w.tables, w.procs[pid].result)
    ensures RowsOk(t) && OneRunning(t) && CallsOfRows(w.history, t) && RowsAdmit(w.history, t)
  {
    assert ProcOk(w, w.procs[pid]);
    forall k | k in t.jobs ensures RowOk(k, t.jobs[k]) {
      assert RowOk(k, w.tables.jobs[k]);
    }
    CloseAdmits(w, pid, t);
  }

  lemma CloseAdmits(w: World, pid: nat, t: Tables)
    requires CallsOfRows(w.history, w.tables) && RowsAdmit(w.history, w.tables)
    requires pid in w.procs && w.procs[pid].Working? && ProcOk(w, w.procs[pid])
    requires w.procs[pid].req.key in w.tables.jobs && w.procs[pid].result.key == w.procs[pid].req.key
    requires t.jobs == Closed(w.tables, w.procs[pid].result)
    ensures CallsOfRows(w.history, t) && RowsAdmit(w.history, t)
  {
    forall k | k in t.jobs && t.jobs[k].result.Some?
      ensures Admits(w.history, t.jobs[k].request, t.jobs[k].result.value)
    {
      assert t.jobs[k].request == w.tables.jobs[k].request;
      if k != w.procs[pid].req.key { assert t.jobs[k] == w.tables.jobs[k]; }
    }
  }

  lemma FinishingMaySucceed(w: World, pid: nat)
    requires ProcsOk(w) && RowsOk(w.tables) && pid in w.procs && w.procs[pid].Working? && w.procs[pid].stage == Finishing
    ensures MaySucceed(w.tables, w.procs[pid].result, w.procs[pid].req.manifest)
  {
    assert ProcOk(w, w.procs[pid]) && RowOk(w.procs[pid].req.key, w.tables.jobs[w.procs[pid].req.key]);
  }

  lemma FailingMayFail(w: World, pid: nat)
    requires ProcsOk(w) && RowsOk(w.tables) && pid in w.procs && w.procs[pid].Working? && w.procs[pid].stage == Failing
    ensures MayFail(w.tables, w.procs[pid].result)
  {
    assert ProcOk(w, w.procs[pid]) && RowOk(w.procs[pid].req.key, w.tables.jobs[w.procs[pid].req.key]);
  }

  /** With its invariant an executor still owns the row that it closes. */
  lemma ClosesItsRow(w: World, pid: nat)
    requires Inv(w) && pid in w.procs && w.procs[pid].Working?
    ensures w.procs[pid].stage == Finishing ==> MaySucceed(w.tables, w.procs[pid].result, w.procs[pid].req.manifest)
    ensures w.procs[pid].stage == Failing ==> MayFail(w.tables, w.procs[pid].result)
  {
    if w.procs[pid].stage == Finishing { FinishingMaySucceed(w, pid); }
    if w.procs[pid].stage == Failing { FailingMayFail(w, pid); }
  }

  lemma FailureKeeps(w: World, pid: nat, a: Answers)
    requires Inv(w) && pid in w.procs && w.procs[pid].Working? && w.procs[pid].stage == Failing
    ensures Inv(Next(w, Turn(pid, a)))
  {
    var p := w.procs[pid];
    assert ProcOk(w, p);
    ClosesItsRow(w, pid);
    var v := Next(w, Turn(pid, a));
    if a.completeFault == BeforeCommit {
      FrameKeeps(w, pid, v.procs[pid], w.history);
    } else {
      var t := v.tables;
      CloseKeepsRows(w, pid, t);
      forall target ensures Current(t, target) == Last(w.history, target) {
        assert Current(w.tables, target) == Last(w.history, target);
      }
      assert PromotionsOfRows(w.history, t);
      CloseKeepsProcs(w, pid, t, w.history, v.procs[pid].out);
    }
  }

  lemma SuccessKeeps(w: World, pid: nat, a: Answers)
    requires Inv(w) && pid in w.procs && w.procs[pid].Working? && w.procs[pid].stage == Finishing
    ensures Inv(Next(w, Turn(pid, a)))
  {
    ClosesItsRow(w, pid);
    if a.completeFault == BeforeCommit {
      FrameKeeps(w, pid, Next(w, Turn(pid, a)).procs[pid], w.history);
    } else {
      SuccessCommits(w, pid, a);
    }
  }

  lemma SuccessCommits(w: World, pid: nat, a: Answers)
    requires Inv(w) && pid in w.procs && w.procs[pid].Working? && w.procs[pid].stage == Finishing
    requires MaySucceed(w.tables, w.procs[pid].result, w.procs[pid].req.manifest) && a.completeFault != BeforeCommit
    ensures Inv(Next(w, Turn(pid, a)))
  {
    var p := w.procs[pid];
    var t, h := AfterSuccess(w.tables, p.result, p.req.manifest), w.history + [Promoted(p.req)];
    var out := if a.completeFault == NoFault then Done(p.result) else NotPersisted;
    assert Next(w, Turn(pid, a)) == World(t, w.procs[pid := Returned(p.req, out)], h);
    PromotionKeeps(w, pid, t, out);
  }

  lemma PromotionKeeps(w: World, pid: nat, t: Tables, out: Out)
    requires Inv(w) && pid in w.procs && w.procs[pid].Working? && w.procs[pid].stage == Finishing
    requires MaySucceed(w.tables, w.procs[pid].result, w.procs[pid].req.manifest)
    requires t == AfterSuccess(w.tables, w.procs[pid].result, w.procs[pid].req.manifest)
    requires out == NotPersisted || out == Done(w.procs[pid].result)
    ensures Inv(World(t, w.procs[pid := Returned(w.procs[pid].req, out)], w.history + [Promoted(w.procs[pid].req)]))
  {
    PromotionKeepsTables(w, pid, t);
    PromotionKeepsProcs(w, pid, t, out);
  }

  lemma PromotionKeepsTables(w: World, pid: nat, t: Tables)
    requires Inv(w) && pid in w.procs && w.procs[pid].Working? && w.procs[pid].stage == Finishing
    requires MaySucceed(w.tables, w.procs[pid].result, w.procs[pid].req.manifest)
    requires t == AfterSuccess(w.tables, w.procs[pid].result, w.procs[pid].req.manifest)
    ensures RowsOk(t) && OneRunning(t) && HistoryOk(w.history + [Promoted(w.procs[pid].req)], t)
  {
    var p := w.procs[pid];
    assert ProcOk(w, p);
    CloseKeepsRows(w, pid, t);
    assert Current(w.tables, p.req.target.id) == Last(w.history, p.req.target.id);
    ChainGrows(w.history, Promoted(p.req));
    PromotionKeepsHistory(w, pid, t);
  }

  lemma PromotionKeepsProcs(w: World, pid: nat, t: Tables, out: Out)
    requires Inv(w) && pid in w.procs && w.procs[pid].Working? && w.procs[pid].stage == Finishing
    requires MaySucceed(w.tables, w.procs[pid].result, w.procs[pid].req.manifest)
    requires t == AfterSuccess(w.tables, w.procs[pid].result, w.procs[pid].req.manifest)
    requires out == NotPersisted || out == Done(w.procs[pid].result)
    ensures var v := World(t, w.procs[pid := Returned(w.procs[pid].req, out)], w.history + [Promoted(w.procs[pid].req)]);
            ProcsOk(v) && OneHolder(v)
  {
    assert ProcOk(w, w.procs[pid]);
    CloseKeepsProcs(w, pid, t, w.history + [Promoted(w.procs[pid].req)], out);
  }

  lemma PromotionKeepsHistory(w: World, pid: nat, t: Tables)
    requires Inv(w) && pid in w.procs && w.procs[pid].Working? && w.procs[pid].stage == Finishing
    requires t == AfterSuccess(w.tables, w.procs[pid].result, w.procs[pid].req.manifest)
    requires MaySucceed(w.tables, w.procs[pid].result, w.procs[pid].req.manifest)
    requires ProcOk(w, w.procs[pid])
    requires CallsOfRows(w.history, t) && RowsAdmit(w.history, t) && Chained(w.history + [Promoted(w.procs[pid].req)])
    ensures HistoryOk(w.history + [Promoted(w.procs[pid].req)], t)
  {
    var p := w.procs[pid];
    var g := w.history + [Promoted(p.req)];
    forall target ensures Current(t, target) == Last(g, target) {
      assert Current(w.tables, target) == Last(w.history, target);
      if target == p.req.target.id { LastHits(w.history, p.req); }
      else { LastSkips(w.history, Promoted(p.req), target); }
    }
    RestoreStillFollows(w.history, Promoted(p.req));
    PromotionIsRecorded(w, t, p.req);
    PromotionIsNoCall(w.history, t, p.req);
  }

  lemma PromotionIsRecorded(w: World, t: Tables, req: Request)
    requires PromotionsOfRows(w.history, w.tables)
    requires req.key in w.tables.jobs && w.tables.jobs[req.key].request == req && w.tables.jobs[req.key].status == Running
    requires t.jobs.Keys == w.tables.jobs.Keys
    requires forall k :: k in t.jobs && k != req.key ==> t.jobs[k] == w.tables.jobs[k]
    requires t.jobs[req.key].request == req && t.jobs[req.key].status == Succeeded
    ensures PromotionsOfRows(w.history + [Promoted(req)], t)
  {
  }

  lemma PromotionIsNoCall(h: seq<Event>, t: Tables, req: Request)
    requires NoRepeats(h) && CallsOfRows(h, t) && RowsAdmit(h, t)
    ensures NoRepeats(h + [Promoted(req)]) && CallsOfRows(h + [Promoted(req)], t) && RowsAdmit(h + [Promoted(req)], t)
  {
    var g := h + [Promoted(req)];
    forall k | k in t.jobs && t.jobs[k].result.Some? ensures Admits(g, t.jobs[k].request, t.jobs[k].result.value) {
      assert Admits(h, t.jobs[k].request, t.jobs[k].result.value);
    }
  }

  lemma NextKeeps(w: World, m: Move)
    requires Inv(w)
    ensures Inv(Next(w, m))
  {
    match m
    case Launch(pid, req) => LaunchKeeps(w, pid, req);
    case Crash(pid, during) => CrashKeeps(w, pid, during);
    case Turn(pid, a) =>
      if pid in w.procs {
        if w.procs[pid].Reserving? { ReserveKeeps(w, pid, a); }
        else if w.procs[pid].Working? {
          if w.procs[pid].stage == Finishing { SuccessKeeps(w, pid, a); }
          else if w.procs[pid].stage == Failing { FailureKeeps(w, pid, a); }
          else { AdvanceKeeps(w, pid, a); }
        }
      }
  }

  lemma RunKeeps(w: World, moves: seq<Move>)
    requires Inv(w)
    ensures Inv(Run(w, moves))
  {
    forall v, m | Inv(v)
      ensures Inv(Stepper()(v, m))
    {
      NextKeeps(v, m);
    }
    FoldKeeps(Stepper(), w, moves, v => Inv(v));
  }

  // ----- what every run of the system guarantees -----

  lemma StartIsGood()
    ensures Inv(START)
  {
  }

  /** In every run each target has at most one running job, each promoted job
      expected the release promoted before it on its target, and the stored
      current release is the last one promoted.  The promoted jobs are exactly
      the succeeded rows. */
  lemma ReleaseChain(moves: seq<Move>)
    ensures var w := Run(START, moves);
            && OneRunning(w.tables)
            && Chained(w.history)
            && (forall target :: Current(w.tables, target) == Last(w.history, target))
            && PromotionsOfRows(w.history, w.tables)
  {
    StartIsGood();
    RunKeeps(START, moves);
  }

  /** In every run an executor that is about to finish still owns its running row: it
      never loses the compare-and-set race. */
  lemma NeverLosesRace(moves: seq<Move>, pid: nat)
    requires pid in Run(START, moves).procs && Run(START, moves).procs[pid].Working?
    ensures var w := Run(START, moves);
            var p := w.procs[pid];
            && (p.stage == Finishing ==> MaySucceed(w.tables, p.result, p.req.manifest))
            && (p.stage == Failing ==> MayFail(w.tables, p.result))
  {
    StartIsGood();
    RunKeeps(START, moves);
    ClosesItsRow(Run(START, moves), pid);
  }

  /** In every run Apply is called at most once for a key and at most once for a
      job id, and so is Restore, always after the Apply of its own job. */
  lemma AtMostOnce(moves: seq<Move>)
    ensures var h := Run(START, moves).history; NoRepeats(h) && RestoreFollowsApply(h)
  {
    StartIsGood();
    RunKeeps(START, moves);
  }

  /** Every stored outcome of a job whose Apply was called has one of the three
      shapes, and no staging job ever causes a restore. */
  lemma StoredOutcomes(moves: seq<Move>, k: string)
    requires k in Run(START, moves).tables.jobs
    ensures var w := Run(START, moves);
            var row := w.tables.jobs[k];
            var req := row.request;
            && (req.target.environment == PRODUCTION && Called(ApplyOp, k, req.jobId) in w.history
                && row.result.Some? ==>
                  var r := row.result.value;
                  || (r.status == Succeeded && FullEvidence(req, r) && r.backup.Some?)
                  || (r.status == Failed && r.failedStep in {AtApply, AtHealth}
                      && r.backup.Some? && r.rollback.Some? && RollbackOk(req, r.backup.value, r.rollback.value))
                  || (r.status == Failed && r.failedStep == AtRollback))
            && (req.target.environment == STAGING ==> Called(RestoreOp, k, req.jobId) !in w.history)
  {
    StartIsGood();
    RunKeeps(START, moves);
    var w := Run(START, moves);
    var row := w.tables.jobs[k];
    assert RowOk(k, row);
    if row.result.Some? {
      assert Admits(w.history, row.request, row.result.value);
      ProductionOutcomes(row.request, row.result.value);
    }
  }

  lemma NextKeepsTerminal(w: World, m: Move, k: string)
    requires k in w.tables.jobs && w.tables.jobs[k].status != Running
    ensures k in Next(w, m).tables.jobs && Next(w, m).tables.jobs[k] == w.tables.jobs[k]
  {
  }

  /** A terminal row never changes. */
  lemma {:induction false} TerminalIsFinal(w: World, moves: seq<Move>, k: string)
    requires k in w.tables.jobs && w.tables.jobs[k].status != Running
    ensures k in Run(w, moves).tables.jobs && Run(w, moves).tables.jobs[k] == w.tables.jobs[k]
  {
    if moves != [] {
      TerminalIsFinal(w, moves[..|moves| - 1], k);
      NextKeepsTerminal(Run(w, moves[..|moves| - 1]), moves[|moves| - 1], k);
    }
  }

  /** What a move adds to the history was called by a process that works on its key. */
  lemma NewCallsOfWorkers(w: World, m: Move, e: Event)
    requires e in Next(w, m).history && e !in w.history && e.Called?
    ensures m.pid in w.procs && w.procs[m.pid].Working? && w.procs[m.pid].req.key == e.key
  {
  }

  lemma TerminalMakesNoCall(w: World, m: Move, k: string)
    requires Inv(w) && k in w.tables.jobs && w.tables.jobs[k].status != Running
    ensures forall op, job :: Called(op, k, job) in Next(w, m).history ==> Called(op, k, job) in w.history
  {
    forall op, job | Called(op, k, job) in Next(w, m).history
      ensures Called(op, k, job) in w.history
    {
      if Called(op, k, job) !in w.history {
        NewCallsOfWorkers(w, m, Called(op, k, job));
        assert false by { WorkersRun(w, m.pid); }
      }
    }
  }

  lemma WorkersRun(w: World, pid: nat)
    requires ProcsOk(w) && pid in w.procs && w.procs[pid].Working?
    ensures w.procs[pid].req.key in w.tables.jobs && w.tables.jobs[w.procs[pid].req.key].status == Running
  {
    assert ProcOk(w, w.procs[pid]);
  }

  lemma {:induction false} QuietFrom(w: World, moves: seq<Move>, k: string)
    requires Inv(w) && k in w.tables.jobs && w.tables.jobs[k].status != Running
    ensures forall op, job :: Called(op, k, job) in Run(w, moves).history ==> Called(op, k, job) in w.history
  {
    if moves != [] {
      var most := moves[..|moves| - 1];
      QuietFrom(w, most, k);
      TerminalIsFinal(w, most, k);
      RunKeeps(w, most);
      TerminalMakesNoCall(Run(w, most), moves[|moves| - 1], k);
    }
  }

  /** After its row is terminal a key causes no runtime call in any continuation of a run. */
  lemma TerminalIsQuiet(first: seq<Move>, more: seq<Move>, k: string)
    requires k in Run(START, first).tables.jobs && Run(START, first).tables.jobs[k].status != Running
    ensures forall op, job :: Called(op, k, job) in Run(START, first + more).history ==>
              Called(op, k, job) in Run(START, first).history
  {
    StartIsGood();
    RunKeeps(START, first);
    QuietFrom(Run(START, first), more, k);
    FoldJoin(Stepper(), START, first, more);
  }

  /** In every run, every later Execute of the same request, in any interleaving, returns
      exactly the stored result and makes no runtime call. */
  lemma ReplayReturnsStored(first: seq<Move>, more: seq<Move>, pid: nat, a: Answers)
    requires a.reserveFault == NoFault
    requires pid in Run(START, first + more).procs && Run(START, first + more).procs[pid].Reserving?
    requires var w, req := Run(START, first), Run(START, first + more).procs[pid].req;
             && req.key in w.tables.jobs && w.tables.jobs[req.key].request == req
             && w.tables.jobs[req.key].result.Some?
    ensures var w, v := Run(START, first), Run(START, first + more);
            var req := v.procs[pid].req;
            var v' := Next(v, Turn(pid, a));
            && v'.procs[pid] == Returned(req, Replayed(w.tables.jobs[req.key].result.value))
            && v'.history == v.history && v'.tables == v.tables
  {
    StartIsGood();
    RunKeeps(START, first);
    FoldJoin(Stepper(), START, first, more);
    var w, req := Run(START, first), Run(START, first + more).procs[pid].req;
    assert RowOk(req.key, w.tables.jobs[req.key]);
    TerminalIsFinal(w, more, req.key);
  }

  /** All results ever returned for one key, by any executors, are equal. */
  lemma OneResultPerKey(moves: seq<Move>, p: nat, q: nat)
    requires var w := Run(START, moves);
             && p in w.procs && q in w.procs && w.procs[p].Returned? && w.procs[q].Returned?
             && w.procs[p].req.key == w.procs[q].req.key
             && (w.procs[p].out.Done? || w.procs[p].out.Broken? || w.procs[p].out.Replayed?)
             && (w.procs[q].out.Done? || w.procs[q].out.Broken? || w.procs[q].out.Replayed?)
    ensures var w := Run(START, moves);
            w.procs[p].req == w.procs[q].req && w.procs[p].out.result == w.procs[q].out.result
  {
    StartIsGood();
    RunKeeps(START, moves);
    var w := Run(START, moves);
    assert ProcOk(w, w.procs[p]) && ProcOk(w, w.procs[q]);
  }

  ghost predicate Orphaned(w: World, k: string) {
    && k in w.tables.jobs && w.tables.jobs[k].status == Running
    && forall pid :: pid in w.procs && w.procs[pid].Working? ==> w.procs[pid].req.key != k
  }

  lemma OrphanStays(w: World, m: Move, k: string)
    requires Inv(w) && Orphaned(w, k)
    ensures Orphaned(Next(w, m), k) && Next(w, m).tables.jobs[k] == w.tables.jobs[k]
  {
    if m.Turn? && m.pid in w.procs {
      var p := w.procs[m.pid];
      assert ProcOk(w, p);
      if p.Reserving? {
        OrphanSurvivesAttempt(w.tables, p.req, m.answers, k);
      } else if p.Working? {
        OrphanSurvivesTurn(w, m.pid, m.answers, k);
      }
    }
  }

  lemma OrphanSurvivesTurn(w: World, pid: nat, a: Answers, k: string)
    requires Orphaned(w, k) && pid in w.procs && w.procs[pid].Working?
    requires w.procs[pid].result.key == w.procs[pid].req.key
    ensures var v := TurnOf(w, pid, a);
            && k in v.tables.jobs && v.tables.jobs[k] == w.tables.jobs[k] && v.procs.Keys == w.procs.Keys
            && (forall o :: o in w.procs && o != pid ==> v.procs[o] == w.procs[o])
            && (v.procs[pid].Working? ==> v.procs[pid].req.key != k)
  {
    var p := w.procs[pid];
    if p.stage != Finishing && p.stage != Failing {
      AdvanceFrame(p, a, Current(w.tables, p.req.target.id));
    }
  }

  lemma OrphanSurvivesAttempt(t: Tables, req: Request, a: Answers, k: string)
    requires k in t.jobs && t.jobs[k].status == Running
    ensures var (u, q) := Attempt(t, req, a);
            k in u.jobs && u.jobs[k] == t.jobs[k] && (q.Working? ==> q.req.key != k)
  {
  }

  lemma {:induction false} OrphanFrom(w: World, moves: seq<Move>, k: string)
    requires Inv(w) && Orphaned(w, k)
    ensures Orphaned(Run(w, moves), k) && Run(w, moves).tables.jobs[k] == w.tables.jobs[k]
  {
    if moves != [] {
      var most := moves[..|moves| - 1];
      OrphanFrom(w, most, k);
      RunKeeps(w, most);
      OrphanStays(Run(w, most), moves[|moves| - 1], k);
    }
  }

  /** The price of the guarantee: once in some run the executor holding a running row is
      gone, that row stays running in every continuation, and every reservation of
      another key on the same target is refused. */
  lemma OrphanBlocksTarget(first: seq<Move>, more: seq<Move>, k: string, req: Request, at: int)
    requires Orphaned(Run(START, first), k)
    ensures var w, v := Run(START, first), Run(START, first + more);
            && Orphaned(v, k) && v.tables.jobs[k] == w.tables.jobs[k]
            && (req.target.id == w.tables.jobs[k].request.target.id && req.key !in v.tables.jobs ==>
                  Reserved(v.tables, req, at) == (v.tables, Refused(TargetBusy)))
  {
    StartIsGood();
    RunKeeps(START, first);
    FoldJoin(Stepper(), START, first, more);
    OrphanFrom(Run(START, first), more, k);
  }

  /** How far a stage is from the end. */
  function Distance(s: Stage): nat {
    match s
    case Reading => 6
    case Preflighting => 5
    case BackingUp => 4
    case Applying => 3
    case Verifying => 2
    case Restoring => 1
    case Finishing => 0
    case Failing => 0
  }

  lemma AdvanceNears(p: Proc, a: Answers, current: Option<string>)
    requires p.Working? && p.stage != Finishing && p.stage != Failing
    ensures var q := Advance(p, a, current); q.Working? && Distance(q.stage) < Distance(p.stage)
  {
  }

  lemma TurnAdvances(w: World, pid: nat, a: Answers)
    requires pid in w.procs && w.procs[pid].Working?
    requires w.procs[pid].stage != Finishing && w.procs[pid].stage != Failing
    ensures var v := Next(w, Turn(pid, a));
            && pid in v.procs && v.procs[pid].Working? && v.procs[pid].req == w.procs[pid].req
            && Distance(v.procs[pid].stage) < Distance(w.procs[pid].stage)
  {
    var p, current := w.procs[pid], Current(w.tables, w.procs[pid].req.target.id);
    AdvanceFrame(p, a, current);
    AdvanceNears(p, a, current);
    assert Next(w, Turn(pid, a)).procs[pid] == Advance(p, a, current);
  }

  lemma TurnCloses(w: World, pid: nat, a: Answers)
    requires Inv(w) && pid in w.procs && w.procs[pid].Working? && a.completeFault == NoFault
    requires w.procs[pid].stage == Finishing || w.procs[pid].stage == Failing
    ensures var v, k := Next(w, Turn(pid, a)), w.procs[pid].req.key;
            k in v.tables.jobs && v.tables.jobs[k].status != Running
  {
    assert ProcOk(w, w.procs[pid]);
    ClosesItsRow(w, pid);
  }

  /** An executor that holds a running row and gets its turns ends it, whatever the runtime
      answers, if the store takes the result. */
  lemma {:induction false} WorkerEnds(w: World, pid: nat, a: Answers) returns (more: seq<Move>)
    requires Inv(w) && pid in w.procs && w.procs[pid].Working? && a.completeFault == NoFault
    ensures var v, k := Run(w, more), w.procs[pid].req.key;
            k in v.tables.jobs && v.tables.jobs[k].status != Running
    decreases Distance(w.procs[pid].stage)
  {
    var v := Next(w, Turn(pid, a));
    assert Run(w, [Turn(pid, a)]) == v by { FoldOne(Stepper(), w, [], Turn(pid, a)); assert [] + [Turn(pid, a)] == [Turn(pid, a)]; }
    if w.procs[pid].stage == Finishing || w.procs[pid].stage == Failing {
      TurnCloses(w, pid, a);
      more := [Turn(pid, a)];
    } else {
      TurnAdvances(w, pid, a);
      NextKeeps(w, Turn(pid, a));
      more := WorkerEnds(v, pid, a);
      FoldJoin(Stepper(), w, [Turn(pid, a)], more);
      more := [Turn(pid, a)] + more;
    }
  }

  predicate Ended(w: World, k: string) {
    k in w.tables.jobs && w.tables.jobs[k].status != Running
  }

  /** In every run, a running row can still end in some continuation exactly when it is not
      orphaned, that is, when some executor still works on it. */
  lemma RunningCanEnd(moves: seq<Move>, k: string, a: Answers)
    requires k in Run(START, moves).tables.jobs && Run(START, moves).tables.jobs[k].status == Running
    requires a.completeFault == NoFault
    ensures (exists more :: Ended(Run(START, moves + more), k)) <==> !Orphaned(Run(START, moves), k)
  {
    StartIsGood();
    RunKeeps(START, moves);
    var w := Run(START, moves);
    if Orphaned(w, k) {
      forall more
        ensures !Ended(Run(START, moves + more), k)
      {
        FoldJoin(Stepper(), START, moves, more);
        OrphanFrom(w, more, k);
      }
    } else {
      var pid :| pid in w.procs && w.procs[pid].Working? && w.procs[pid].req.key == k;
      var more := WorkerEnds(w, pid, a);
      FoldJoin(Stepper(), START, moves, more);
      assert Ended(Run(START, moves + more), k);
    }
  }

  /** Every valid request can be orphaned: its executor reserves the job and dies. */
  lemma OrphanIsReachable(req: Request, a: Answers)
    requires ValidRequest(req) && a.reserveFault == NoFault
    ensures Orphaned(Run(START, [Launch(0, req), Turn(0, a), Crash(0, false)]), req.key)
  {
    var launched := World(START.tables, map[0 := Reserving(req)], []);
    FoldOne(Stepper(), START, [], Launch(0, req));
    assert [] + [Launch(0, req)] == [Launch(0, req)];
    assert Next(START, Launch(0, req)) == launched;
    FoldOne(Stepper(), START, [Launch(0, req)], Turn(0, a));
    assert [Launch(0, req)] + [Turn(0, a)] == [Launch(0, req), Turn(0, a)];
    FoldOne(Stepper(), START, [Launch(0, req), Turn(0, a)], Crash(0, false));
    assert [Launch(0, req), Turn(0, a)] + [Crash(0, false)] == [Launch(0, req), Turn(0, a), Crash(0, false)];
    ReservedThenDead(launched, req, a);
  }

  lemma ReservedThenDead(w: World, req: Request, a: Answers)
    requires w == World(Tables(map[], map[]), map[0 := Reserving(req)], []) && a.reserveFault == NoFault
    ensures Orphaned(Next(Next(w, Turn(0, a)), Crash(0, false)), req.key)
  {
    assert !Busy(w.tables, req.target.id) && !HasJobId(w.tables, req.jobId);
  }
}
