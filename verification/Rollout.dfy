/** The trial, confirm and rollback phases of an installation, against an armed
    timer and a service that keeps applying the policy, all under one lock.

    A command may fail without effect, fail after its effect, or be the last one
    before the process dies.  A timer may fire at any moment; what it starts then
    waits for the lock like everybody else.  A reboot ends every process and every
    timer, and starts the service if it is enabled. */
module Rollout {
  import opened Wrappers
  import opened Runs

  datatype Phase = Preparing | Trial | Confirmed | RolledBack

  /** Fired is waiting for the lock; Ran has had it. */
  datatype Timer = Armed | Fired | Ran | Stopped

  datatype Kind = Apply | Confirm | Manual | Automatic

  /** The next command of the process that holds the lock. */
  datatype Pc =
    | SavePreparing | ArmTimer | WriteUnit | ReloadUnit | ApplyPolicy | StartUnit | ValidateTrial | SaveTrial
    | ValidateConfirm | EnableUnit | SaveConfirmed | StopTimerConfirmed
    | StopUnit | RestorePolicy | DisableUnit | RemoveUnit | ReloadRemoved | SaveRolledBack | StopTimer

  datatype Proc = Proc(id: nat, kind: Kind, pc: Pc)

  /** Rollouts by number: their durable phase and their timer.  unit is the
      rollout the service file belongs to, enabled tells whether the service starts
      at boot, running is the rollout whose service runs, and changed those whose
      changes to namespace policies are still in place. */
  datatype World = World(
    phases: map<nat, Phase>, used: set<nat>, timers: map<nat, Timer>,
    unit: Option<nat>, enabled: bool, running: Option<nat>, changed: set<nat>, proc: Option<Proc>)

  /** A restore may succeed and yet leave something changed. */
  datatype Effect = Done | Leaves | FailedBefore | FailedAfter

  datatype Move =
    | Begin(id: nat, kind: Kind)
    | Work(effect: Effect)
    | Crash
    | Fire(id: nat)
    | ServiceApplies
    | Reboot

  const START := World(map[], {}, map[], None, false, None, {}, None)

  predicate Unfinished(w: World, id: nat) {
    id in w.phases && (w.phases[id] == Preparing || w.phases[id] == Trial)
  }

  /** Armed, or already fired. */
  predicate Guarded(w: World, id: nat) {
    id in w.timers && w.timers[id] != Stopped
  }

  predicate NoneUnfinished(w: World) {
    forall j :: j in w.phases ==> !Unfinished(w, j)
  }

  function StopTimerOf(w: World, id: nat): World {
    if id in w.timers && w.timers[id] == Armed then w.(timers := w.timers[id := Stopped]) else w
  }

  /** What the next command does when it has its effect. */
  function Effected(w: World, id: nat, pc: Pc): World {
    match pc
    case SavePreparing => w.(phases := w.phases[id := Preparing])
    case ArmTimer => w.(timers := w.timers[id := Armed])
    case WriteUnit => w.(unit := Some(id))
    case ApplyPolicy => w.(changed := w.changed + {id})
    case StartUnit => w.(running := w.unit)
    case SaveTrial => w.(phases := w.phases[id := Trial])
    case EnableUnit => w.(enabled := true)
    case SaveConfirmed => w.(phases := w.phases[id := Confirmed])
    case StopTimerConfirmed => StopTimerOf(w, id)
    case StopUnit => w.(running := None)
    case RestorePolicy => w.(changed := w.changed - {id})
    case DisableUnit => w.(enabled := false)
    case RemoveUnit => w.(unit := None)
    case SaveRolledBack => w.(phases := w.phases[id := RolledBack])
    case StopTimer => StopTimerOf(w, id)
    case _ => w
  }

  function Following(pc: Pc): Option<Pc> {
    match pc
    case SavePreparing => Some(ArmTimer)
    case ArmTimer => Some(WriteUnit)
    case WriteUnit => Some(ReloadUnit)
    case ReloadUnit => Some(ApplyPolicy)
    case ApplyPolicy => Some(StartUnit)
    case StartUnit => Some(ValidateTrial)
    case ValidateTrial => Some(SaveTrial)
    case SaveTrial => None
    case ValidateConfirm => Some(EnableUnit)
    case EnableUnit => Some(SaveConfirmed)
    case SaveConfirmed => Some(StopTimerConfirmed)
    case StopTimerConfirmed => None
    case StopUnit => Some(RestorePolicy)
    case RestorePolicy => Some(DisableUnit)
    case DisableUnit => Some(RemoveUnit)
    case RemoveUnit => Some(ReloadRemoved)
    case ReloadRemoved => Some(SaveRolledBack)
    case SaveRolledBack => Some(StopTimer)
    case StopTimer => None
  }

  /** Inside the guarded part of apply a failure turns into a rollback. */
  predicate Guards(pc: Pc) {
    pc == WriteUnit || pc == ReloadUnit || pc == ApplyPolicy || pc == StartUnit || pc == ValidateTrial || pc == SaveTrial
  }

  /** Failures of these commands are ignored. */
  predicate Unchecked(pc: Pc) { pc == DisableUnit || pc == StopTimer }

  function Continue(p: Proc, pc: Option<Pc>): Option<Proc> {
    if pc.Some? then Some(p.(pc := pc.value)) else None
  }

  function WorkStep(w: World, effect: Effect): World
    requires w.proc.Some?
  {
    var p := w.proc.value;
    var failed := effect == FailedBefore || effect == FailedAfter
                  || ((p.pc == ValidateTrial || p.pc == ValidateConfirm) && w.running.None?);
    var v := if effect == FailedBefore || (effect == Leaves && p.pc == RestorePolicy) then w else Effected(w, p.id, p.pc);
    v.(proc := if !failed || Unchecked(p.pc) then Continue(p, Following(p.pc))
               else if Guards(p.pc) then Some(p.(pc := StopUnit))
               else None)
  }

  /** Taking the lock, reading the state, and the checks made before any effect. */
  function BeginStep(w: World, id: nat, kind: Kind): World
    requires w.proc.None?
  {
    match kind
    case Apply =>
      if w.unit.Some? || w.running.Some? || !NoneUnfinished(w) || id in w.used then w
      else w.(used := w.used + {id}, proc := Some(Proc(id, Apply, SavePreparing)))
    case Confirm =>
      if id in w.phases && w.phases[id] == Trial && id in w.timers && (w.timers[id] == Armed || w.timers[id] == Fired)
      then w.(proc := Some(Proc(id, Confirm, ValidateConfirm))) else w
    case Manual =>
      if id in w.phases && w.phases[id] != RolledBack then w.(proc := Some(Proc(id, Manual, StopUnit))) else w
    case Automatic =>
      if id !in w.timers || w.timers[id] != Fired then w
      else
        var v := w.(timers := w.timers[id := Ran]);
        if id in w.phases && w.phases[id] != RolledBack && w.phases[id] != Confirmed
        then v.(proc := Some(Proc(id, Automatic, StopUnit))) else v
  }

  function Next(w: World, m: Move): World {
    match m
    case Begin(id, kind) => if w.proc.Some? then w else BeginStep(w, id, kind)
    case Work(effect) => if w.proc.None? then w else WorkStep(w, effect)
    case Crash => w.(proc := None)
    case Fire(id) => if id in w.timers && w.timers[id] == Armed then w.(timers := w.timers[id := Fired]) else w
    case ServiceApplies => if w.running.Some? then w.(changed := w.changed + {w.running.value}) else w
    case Reboot => w.(timers := map[], running := if w.enabled then w.unit else None, changed := {}, proc := None)
  }

  function Stepper(): (World, Move) -> World { (w, m) => Next(w, m) }

  function Run(w: World, moves: seq<Move>): World { Fold(Stepper(), w, moves) }

  // ----- the invariant -----

  predicate Rollbacks(pc: Pc) {
    pc == StopUnit || pc == RestorePolicy || pc == DisableUnit || pc == RemoveUnit || pc == ReloadRemoved
    || pc == SaveRolledBack || pc == StopTimer
  }

  /** The service file and the running service belong to the unfinished rollout. */
  predicate OwnsService(w: World, id: nat) {
    (w.unit.Some? ==> w.unit.value == id) && (w.running.Some? ==> w.running.value == id)
  }

  ghost predicate ServiceOk(w: World) {
    && (w.running.Some? ==> w.unit == w.running)
    && (forall j :: j in w.phases && Unfinished(w, j) ==> OwnsService(w, j))
    && (forall i, j :: i in w.phases && j in w.phases && Unfinished(w, i) && Unfinished(w, j) ==> i == j)
    && w.changed <= w.phases.Keys
    && (w.unit.Some? ==> w.unit.value in w.phases && w.phases[w.unit.value] != RolledBack)
    && w.phases.Keys <= w.used
    && w.timers.Keys <= w.phases.Keys
  }

  ghost predicate ProcOk(w: World) {
    w.proc.Some? ==>
      var Proc(id, kind, pc) := w.proc.value;
      && (kind == Apply ==>
            if pc == SavePreparing then id in w.used && id !in w.phases && w.unit.None? && w.running.None? && NoneUnfinished(w)
            else if pc == ArmTimer then Unfinished(w, id) && w.unit.None? && id !in w.timers
            else if pc == StopTimer then id in w.phases && w.phases[id] == RolledBack
            else (Guards(pc) || Rollbacks(pc)) && Unfinished(w, id) && Guarded(w, id))
      && (kind == Confirm ==>
            if pc == StopTimerConfirmed then id in w.phases && w.phases[id] == Confirmed
            else (pc == ValidateConfirm || pc == EnableUnit || pc == SaveConfirmed)
                 && id in w.phases && w.phases[id] == Trial && Guarded(w, id) && (pc != ValidateConfirm ==> w.running == Some(id)))
      && (kind == Manual || kind == Automatic ==>
            && Rollbacks(pc)
            && id in w.phases
            && (if pc == StopTimer then w.phases[id] == RolledBack
                else if kind == Automatic then Unfinished(w, id) && id in w.timers && w.timers[id] == Ran
                else w.phases[id] != RolledBack))
      && (Rollbacks(pc) && pc != StopUnit ==> w.running.None?)
      && (pc == ReloadRemoved || pc == SaveRolledBack || pc == StopTimer ==> w.unit.None?)
      && (pc == StartUnit || pc == ApplyPolicy || pc == ReloadUnit ==> w.unit == Some(id))
  }

  ghost predicate Inv(w: World) { ServiceOk(w) && ProcOk(w) }

  lemma BeginKeeps(w: World, id: nat, kind: Kind)
    requires Inv(w) && w.proc.None?
    ensures Inv(BeginStep(w, id, kind))
  {
  }

  lemma PreparingKeeps(w: World, effect: Effect)
    requires Inv(w) && w.proc.Some? && w.proc.value.kind == Apply && w.proc.value.pc == SavePreparing
    ensures Inv(WorkStep(w, effect))
  {
  }

  lemma ArmingKeeps(w: World, effect: Effect)
    requires Inv(w) && w.proc.Some? && w.proc.value.kind == Apply && w.proc.value.pc == ArmTimer
    ensures Inv(WorkStep(w, effect))
  {
  }

  lemma WriteKeeps(w: World, effect: Effect)
    requires Inv(w) && w.proc.Some? && w.proc.value.kind == Apply && w.proc.value.pc == WriteUnit
    ensures Inv(WorkStep(w, effect))
  {
  }

  lemma ReloadKeeps(w: World, effect: Effect)
    requires Inv(w) && w.proc.Some? && w.proc.value.kind == Apply && w.proc.value.pc == ReloadUnit
    ensures Inv(WorkStep(w, effect))
  {
  }

  lemma ApplyKeeps(w: World, effect: Effect)
    requires Inv(w) && w.proc.Some? && w.proc.value.kind == Apply && w.proc.value.pc == ApplyPolicy
    ensures Inv(WorkStep(w, effect))
  {
  }

  lemma StartKeeps(w: World, effect: Effect)
    requires Inv(w) && w.proc.Some? && w.proc.value.kind == Apply && w.proc.value.pc == StartUnit
    ensures Inv(WorkStep(w, effect))
  {
  }

  lemma ValidateTrialKeeps(w: World, effect: Effect)
    requires Inv(w) && w.proc.Some? && w.proc.value.kind == Apply && w.proc.value.pc == ValidateTrial
    ensures Inv(WorkStep(w, effect))
  {
  }

  lemma SaveTrialKeeps(w: World, effect: Effect)
    requires Inv(w) && w.proc.Some? && w.proc.value.kind == Apply && w.proc.value.pc == SaveTrial
    ensures Inv(WorkStep(w, effect))
  {
  }

  lemma ValidateConfirmKeeps(w: World, effect: Effect)
    requires Inv(w) && w.proc.Some? && w.proc.value.kind == Confirm && w.proc.value.pc == ValidateConfirm
    ensures Inv(WorkStep(w, effect))
  {
  }

  lemma EnableKeeps(w: World, effect: Effect)
    requires Inv(w) && w.proc.Some? && w.proc.value.kind == Confirm && w.proc.value.pc == EnableUnit
    ensures Inv(WorkStep(w, effect))
  {
  }

  lemma ConfirmedKeeps(w: World, effect: Effect)
    requires Inv(w) && w.proc.Some? && w.proc.value.kind == Confirm && w.proc.value.pc == SaveConfirmed
    ensures Inv(WorkStep(w, effect))
  {
  }

  lemma ConfirmStopKeeps(w: World, effect: Effect)
    requires Inv(w) && w.proc.Some? && w.proc.value.kind == Confirm && w.proc.value.pc == StopTimerConfirmed
    ensures Inv(WorkStep(w, effect))
  {
  }

  lemma StopKeeps(w: World, effect: Effect)
    requires Inv(w) && w.proc.Some? && w.proc.value.kind != Confirm && w.proc.value.pc == StopUnit
    ensures Inv(WorkStep(w, effect))
  {
  }

  lemma DisableKeeps(w: World, effect: Effect)
    requires Inv(w) && w.proc.Some? && w.proc.value.kind != Confirm && w.proc.value.pc == DisableUnit
    ensures Inv(WorkStep(w, effect))
  {
  }

  lemma RestoreKeeps(w: World, effect: Effect)
    requires Inv(w) && w.proc.Some? && w.proc.value.kind != Confirm && w.proc.value.pc == RestorePolicy
    ensures Inv(WorkStep(w, effect))
  {
  }

  lemma RemoveKeeps(w: World, effect: Effect)
    requires Inv(w) && w.proc.Some? && w.proc.value.kind != Confirm && w.proc.value.pc == RemoveUnit
    ensures Inv(WorkStep(w, effect))
  {
  }

  lemma ReloadRemovedKeeps(w: World, effect: Effect)
    requires Inv(w) && w.proc.Some? && w.proc.value.kind != Confirm && w.proc.value.pc == ReloadRemoved
    ensures Inv(WorkStep(w, effect))
  {
  }

  lemma RolledBackKeeps(w: World, effect: Effect)
    requires Inv(w) && w.proc.Some? && w.proc.value.kind != Confirm && w.proc.value.pc == SaveRolledBack
    ensures Inv(WorkStep(w, effect))
  {
  }

  lemma RollbackEndKeeps(w: World, effect: Effect)
    requires Inv(w) && w.proc.Some? && w.proc.value.kind != Confirm && w.proc.value.pc == StopTimer
    ensures Inv(WorkStep(w, effect))
  {
    RollbackEnds(w, effect);
    ServiceSparesTimers(w, w.timers);
    ServiceSparesTimers(w, StopTimerOf(w, w.proc.value.id).timers);
  }

  lemma RollbackEnds(w: World, effect: Effect)
    requires w.proc.Some? && w.proc.value.pc == StopTimer
    ensures var stopped := StopTimerOf(w, w.proc.value.id);
            WorkStep(w, effect) == w.(proc := None, timers := if effect == FailedBefore then w.timers else stopped.timers)
  {
  }

  lemma ServiceSparesTimers(w: World, timers: map<nat, Timer>)
    requires ServiceOk(w) && timers.Keys <= w.timers.Keys
    ensures Inv(w.(proc := None, timers := timers))
  {
  }

  lemma WorkKeeps(w: World, effect: Effect)
    requires Inv(w) && w.proc.Some?
    ensures Inv(WorkStep(w, effect))
  {
    match w.proc.value.pc
    case SavePreparing => PreparingKeeps(w, effect);
    case ArmTimer => ArmingKeeps(w, effect);
    case WriteUnit => WriteKeeps(w, effect);
    case ReloadUnit => ReloadKeeps(w, effect);
    case ApplyPolicy => ApplyKeeps(w, effect);
    case StartUnit => StartKeeps(w, effect);
    case ValidateTrial => ValidateTrialKeeps(w, effect);
    case SaveTrial => SaveTrialKeeps(w, effect);
    case ValidateConfirm => ValidateConfirmKeeps(w, effect);
    case EnableUnit => EnableKeeps(w, effect);
    case SaveConfirmed => ConfirmedKeeps(w, effect);
    case StopTimerConfirmed => ConfirmStopKeeps(w, effect);
    case StopUnit => StopKeeps(w, effect);
    case RestorePolicy => RestoreKeeps(w, effect);
    case DisableUnit => DisableKeeps(w, effect);
    case RemoveUnit => RemoveKeeps(w, effect);
    case ReloadRemoved => ReloadRemovedKeeps(w, effect);
    case SaveRolledBack => RolledBackKeeps(w, effect);
    case StopTimer => RollbackEndKeeps(w, effect);
  }

  lemma OtherKeeps(w: World, m: Move)
    requires Inv(w) && (m.Crash? || m.Fire? || m.ServiceApplies? || m.Reboot?)
    ensures Inv(Next(w, m))
  {
  }

  lemma NextKeeps(w: World, m: Move)
    requires Inv(w)
    ensures Inv(Next(w, m))
  {
    match m
    case Begin(id, kind) => if w.proc.None? { BeginKeeps(w, id, kind); }
    case Work(effect) => if w.proc.Some? { WorkKeeps(w, effect); }
    case _ => OtherKeeps(w, m);
  }

  lemma RunKeeps(moves: seq<Move>)
    ensures Inv(Run(START, moves))
  {
    forall v, m | Inv(v)
      ensures Inv(Stepper()(v, m))
    {
      NextKeeps(v, m);
    }
    FoldKeeps(Stepper(), START, moves, v => Inv(v));
  }

  // ----- what every run guarantees -----

  /** Nothing protects a change: the rollout is neither confirmed nor rolled back, and
      no timer is armed or has fired. */
  predicate Uncovered(w: World, id: nat) {
    (id in w.changed || w.running == Some(id)) && Unfinished(w, id) && !Guarded(w, id)
  }

  /** A reboot that starts the service of an unfinished rollout. */
  predicate Boots(w: World, m: Move, id: nat) {
    m == Reboot && w.enabled && w.unit == Some(id) && Unfinished(w, id)
  }

  lemma UncoveredStep(w: World, m: Move, id: nat)
    requires Inv(w)
    ensures !Uncovered(w, id) ==> (Uncovered(Next(w, m), id) <==> Boots(w, m, id))
  {
    if m.Work? && w.proc.Some? && !Uncovered(w, id) { UncoveredWork(w, m.effect, id); }
  }

  lemma ChangingIsCovered(w: World, effect: Effect, id: nat)
    requires Inv(w) && w.proc.Some? && !Uncovered(w, id)
    requires var pc := w.proc.value.pc; pc == ApplyPolicy || pc == StartUnit
    ensures !Uncovered(WorkStep(w, effect), id)
  {
  }

  lemma SavingUncoversNothing(w: World, effect: Effect, id: nat)
    requires Inv(w) && w.proc.Some? && !Uncovered(w, id)
    requires var pc := w.proc.value.pc; pc == SavePreparing || pc == SaveTrial || pc == SaveConfirmed || pc == SaveRolledBack
    ensures !Uncovered(WorkStep(w, effect), id)
  {
  }

  lemma TimerUncoversNothing(w: World, effect: Effect, id: nat)
    requires Inv(w) && w.proc.Some? && !Uncovered(w, id)
    requires var pc := w.proc.value.pc; pc == ArmTimer || pc == StopTimer || pc == StopTimerConfirmed
    ensures !Uncovered(WorkStep(w, effect), id)
  {
  }

  lemma UncoveredWork(w: World, effect: Effect, id: nat)
    requires Inv(w) && w.proc.Some? && !Uncovered(w, id)
    ensures !Uncovered(WorkStep(w, effect), id)
  {
    var pc := w.proc.value.pc;
    if pc == ApplyPolicy || pc == StartUnit { ChangingIsCovered(w, effect, id); }
    else if pc == SavePreparing || pc == SaveTrial || pc == SaveConfirmed || pc == SaveRolledBack {
      SavingUncoversNothing(w, effect, id);
    }
    else if pc == ArmTimer || pc == StopTimer || pc == StopTimerConfirmed { TimerUncoversNothing(w, effect, id); }
  }

  ghost predicate Booted(moves: seq<Move>, id: nat) {
    exists i :: 0 <= i < |moves| && Boots(Run(START, moves[..i]), moves[i], id)
  }

  /** In every run a rollout with a changed policy, or whose service runs, is durably
      confirmed or saved as rolled back, or its rollback timer is armed or has fired,
      unless a reboot has started its service before it was confirmed. */
  lemma {:induction false} ChangeIsCovered(moves: seq<Move>, id: nat)
    ensures var w := Run(START, moves);
            id in w.changed || w.running == Some(id) ==>
              id in w.phases && (w.phases[id] == Confirmed || w.phases[id] == RolledBack || Guarded(w, id) || Booted(moves, id))
  {
    RunKeeps(moves);
    if moves != [] {
      var most, m := moves[..|moves| - 1], moves[|moves| - 1];
      ChangeIsCovered(most, id);
      RunKeeps(most);
      UncoveredStep(Run(START, most), m, id);
      if Booted(most, id) {
        var i :| 0 <= i < |most| && Boots(Run(START, most[..i]), most[i], id);
        assert moves[..i] == most[..i] && moves[i] == most[i];
        assert Booted(moves, id);
      }
      if Boots(Run(START, most), m, id) {
        assert Boots(Run(START, moves[..|moves| - 1]), moves[|moves| - 1], id);
      }
    }
  }

  /** And in every run a move uncovers a change exactly when it is a reboot while the
      service of the unfinished rollout is enabled. */
  lemma UncoveredExactly(moves: seq<Move>, m: Move, id: nat)
    requires !Uncovered(Run(START, moves), id)
    ensures Uncovered(Next(Run(START, moves), m), id) <==> Boots(Run(START, moves), m, id)
  {
    RunKeeps(moves);
    UncoveredStep(Run(START, moves), m, id);
  }

  predicate Spared(w: World, v: World, m: Move, c: nat) {
    && c in v.phases && v.phases[c] == Confirmed
    && (w.unit == Some(c) ==> v.unit == w.unit)
    && (w.running == Some(c) ==> v.running == w.running)
    && (c in w.changed ==> c in v.changed)
    && (m.Begin? && m.id == c ==> v.proc.None?)
  }

  lemma AutomaticWorkSpares(w: World, effect: Effect, c: nat)
    requires Inv(w) && c in w.phases && w.phases[c] == Confirmed && w.proc.Some? && w.proc.value.kind == Automatic
    ensures Spared(w, WorkStep(w, effect), Work(effect), c)
  {
    assert w.proc.value.id != c;
  }

  lemma AutomaticBeginSpares(w: World, id: nat, c: nat)
    requires Inv(w) && c in w.phases && w.phases[c] == Confirmed && w.proc.None?
    ensures Spared(w, BeginStep(w, id, Automatic), Begin(id, Automatic), c)
  {
  }

  /** No step of an automatic rollback takes anything from a confirmed rollout,
      not even one that was already waiting when the confirmation was saved. */
  lemma AutomaticSparesConfirmed(moves: seq<Move>, m: Move, c: nat)
    requires var w := Run(START, moves);
             && c in w.phases && w.phases[c] == Confirmed
             && ((m.Work? && w.proc.Some? && w.proc.value.kind == Automatic)
                 || (m.Begin? && m.kind == Automatic && w.proc.None?))
    ensures Spared(Run(START, moves), Next(Run(START, moves), m), m, c)
  {
    RunKeeps(moves);
    if m.Work? {
      AutomaticWorkSpares(Run(START, moves), m.effect, c);
    } else {
      AutomaticBeginSpares(Run(START, moves), m.id, c);
    }
  }

  /** The phase that a command saves. */
  function Saves(pc: Pc): Option<Phase> {
    match pc
    case SavePreparing => Some(Preparing)
    case SaveTrial => Some(Trial)
    case SaveConfirmed => Some(Confirmed)
    case SaveRolledBack => Some(RolledBack)
    case _ => None
  }

  lemma WorkSaves(w: World, effect: Effect)
    requires w.proc.Some?
    ensures var Proc(id, _, pc) := w.proc.value;
            || WorkStep(w, effect).phases == w.phases
            || (Saves(pc).Some? && WorkStep(w, effect).phases == w.phases[id := Saves(pc).value])
  {
  }

  lemma WorkConfirmsTrial(w: World, effect: Effect, c: nat)
    requires Inv(w) && w.proc.Some? && !(c in w.phases && w.phases[c] == Confirmed)
    requires var v := WorkStep(w, effect); c in v.phases && v.phases[c] == Confirmed
    ensures c in w.phases && w.phases[c] == Trial && w.running == Some(c) && w.unit == Some(c)
  {
    WorkSaves(w, effect);
    assert w.proc.value.pc == SaveConfirmed && w.proc.value.id == c;
  }

  /** Only a trial whose own service is running, and which could still have been
      rolled back by its timer, is ever saved as confirmed. */
  lemma ConfirmedWasATrial(moves: seq<Move>, m: Move, c: nat)
    requires var w := Run(START, moves); !(c in w.phases && w.phases[c] == Confirmed)
    requires var v := Next(Run(START, moves), m); c in v.phases && v.phases[c] == Confirmed
    ensures var w := Run(START, moves); c in w.phases && w.phases[c] == Trial && w.running == Some(c) && w.unit == Some(c)
  {
    RunKeeps(moves);
    var w := Run(START, moves);
    if m.Work? && w.proc.Some? {
      WorkConfirmsTrial(w, m.effect, c);
    }
  }

  function Rank(p: Phase): nat {
    match p case Preparing => 0 case Trial => 1 case Confirmed => 2 case RolledBack => 3
  }

  lemma WorkAdvances(w: World, effect: Effect, id: nat)
    requires Inv(w) && w.proc.Some? && id in w.phases
    ensures id in WorkStep(w, effect).phases && Rank(w.phases[id]) <= Rank(WorkStep(w, effect).phases[id])
  {
    var Proc(own, _, pc) := w.proc.value;
    WorkSaves(w, effect);
    if own == id && Saves(pc).Some? {
      assert pc != SavePreparing;
      assert Rank(w.phases[id]) <= Rank(Saves(pc).value);
    }
  }

  lemma PhaseAdvances(w: World, m: Move, id: nat)
    requires Inv(w) && id in w.phases
    ensures id in Next(w, m).phases && Rank(w.phases[id]) <= Rank(Next(w, m).phases[id])
  {
    if m.Work? && w.proc.Some? { WorkAdvances(w, m.effect, id); }
  }

  /** Durable phases only advance, and rolled back is the last. */
  lemma {:induction false} PhasesOnlyAdvance(first: seq<Move>, more: seq<Move>, id: nat)
    requires id in Run(START, first).phases
    ensures id in Run(START, first + more).phases
    ensures Rank(Run(START, first).phases[id]) <= Rank(Run(START, first + more).phases[id])
  {
    if more == [] {
      assert first + more == first;
    } else {
      var most, last := more[..|more| - 1], more[|more| - 1];
      PhasesOnlyAdvance(first, most, id);
      RunKeeps(first + most);
      FoldOne(Stepper(), START, first + most, last);
      assert first + more == first + most + [last];
      PhaseAdvances(Run(START, first + most), last, id);
    }
  }

  // ----- what a rollback leaves -----

  /** The latest restore for a rollout succeeded without undoing its changes. */
  ghost predicate LeftBehind(moves: seq<Move>, id: nat) {
    moves != [] &&
      var w, m := Run(START, moves[..|moves| - 1]), moves[|moves| - 1];
      if m == Reboot then false
      else if m.Work? && Restores(w, id) && m.effect != FailedBefore then m.effect == Leaves && id in w.changed
      else LeftBehind(moves[..|moves| - 1], id)
  }

  predicate Restores(w: World, id: nat) {
    w.proc.Some? && w.proc.value.id == id && w.proc.value.pc == RestorePolicy
  }

  /** Rolled back, or past the restore. */
  predicate PastRestore(w: World, id: nat) {
    || (id in w.phases && w.phases[id] == RolledBack)
    || (w.proc.Some? && w.proc.value.id == id && Rollbacks(w.proc.value.pc)
        && w.proc.value.pc != StopUnit && w.proc.value.pc != RestorePolicy)
  }

  lemma RestoreStep(w: World, m: Move, id: nat)
    requires Inv(w) && PastRestore(Next(w, m), id) && m != Reboot
    ensures if m.Work? && Restores(w, id) && m.effect != FailedBefore then
              id in Next(w, m).changed <==> m.effect == Leaves && id in w.changed
            else PastRestore(w, id) && (id in Next(w, m).changed <==> id in w.changed)
  {
    if m.Work? && w.proc.Some? { RestoreWork(w, m.effect, id); }
  }

  predicate RestoreKept(w: World, effect: Effect, id: nat)
    requires w.proc.Some?
  {
    if Restores(w, id) && effect != FailedBefore then
      id in WorkStep(w, effect).changed <==> effect == Leaves && id in w.changed
    else PastRestore(w, id) && (id in WorkStep(w, effect).changed <==> id in w.changed)
  }

  lemma RestoreWork(w: World, effect: Effect, id: nat)
    requires Inv(w) && w.proc.Some? && PastRestore(WorkStep(w, effect), id)
    ensures RestoreKept(w, effect, id)
  {
    var pc := w.proc.value.pc;
    if Rollbacks(pc) { RestoreByRollback(w, effect, id); }
    else if w.proc.value.kind == Apply { RestoreByApply(w, effect, id); }
  }

  lemma RestoreByRollback(w: World, effect: Effect, id: nat)
    requires Inv(w) && w.proc.Some? && PastRestore(WorkStep(w, effect), id) && Rollbacks(w.proc.value.pc)
    ensures RestoreKept(w, effect, id)
  {
  }

  lemma RestoreByApply(w: World, effect: Effect, id: nat)
    requires Inv(w) && w.proc.Some? && PastRestore(WorkStep(w, effect), id)
    requires !Rollbacks(w.proc.value.pc) && w.proc.value.kind == Apply
    ensures RestoreKept(w, effect, id)
  {
    assert w.proc.value.id in w.phases ==> w.phases[w.proc.value.id] != RolledBack;
  }

  /** In every run a rollout saved as rolled back has left a change in place exactly when
      its latest restore did. */
  lemma {:induction false} RolledBackLeaves(moves: seq<Move>, id: nat)
    requires PastRestore(Run(START, moves), id)
    ensures id in Run(START, moves).changed <==> LeftBehind(moves, id)
  {
    if moves != [] {
      var most, m := moves[..|moves| - 1], moves[|moves| - 1];
      RunKeeps(most);
      if m != Reboot {
        RestoreStep(Run(START, most), m, id);
        if !(m.Work? && Restores(Run(START, most), id) && m.effect != FailedBefore) {
          RolledBackLeaves(most, id);
        }
      }
    }
  }

  /** The commands of a rollback, each with its effect; the restore leaves what it leaves. */
  function Steps(w: World, n: nat, restore: Effect): World
    decreases n
  {
    if n == 0 then w
    else
      var effect := if w.proc.Some? && w.proc.value.pc == RestorePolicy then restore else Done;
      Steps(Next(w, Work(effect)), n - 1, restore)
  }

  function Remaining(pc: Pc): nat {
    match pc
    case StopUnit => 7
    case RestorePolicy => 6
    case DisableUnit => 5
    case RemoveUnit => 4
    case ReloadRemoved => 3
    case SaveRolledBack => 2
    case StopTimer => 1
    case _ => 0
  }

  /** What the commands already run by a rollback have achieved; left tells whether the
      rollout's changes are to stay. */
  predicate Progress(w: World, id: nat, left: bool) {
    && w.proc.Some? && w.proc.value.id == id && Rollbacks(w.proc.value.pc) && id in w.phases
    && var todo := Remaining(w.proc.value.pc);
       && (todo < 7 ==> w.running.None?)
       && (todo < 6 ==> (id in w.changed <==> left))
       && (todo < 4 ==> w.unit.None?)
       && (todo < 2 ==> w.phases[id] == RolledBack)
  }

  predicate Progressed(w: World, v: World, id: nat, left: bool)
    requires w.proc.Some?
  {
    && v.phases[id := RolledBack] == w.phases[id := RolledBack] && v.changed - {id} == w.changed - {id}
    && (if w.proc.value.pc == StopTimer
        then v.proc.None? && id in v.phases && v.phases[id] == RolledBack && (id in v.changed <==> left)
             && v.unit.None? && v.running.None?
        else Progress(v, id, left) && Remaining(v.proc.value.pc) == Remaining(w.proc.value.pc) - 1)
  }

  /** What a restore with some effect leaves of the rollout's changes. */
  predicate Stays(w: World, id: nat, restore: Effect) {
    id in w.changed && restore == Leaves
  }

  lemma ProgressStep(w: World, id: nat, restore: Effect, left: bool)
    requires Progress(w, id, left) && (restore == Done || restore == Leaves)
    requires Remaining(w.proc.value.pc) >= 6 ==> left == Stays(w, id, restore)
    ensures var v := Next(w, Work(if w.proc.value.pc == RestorePolicy then restore else Done));
            && Progressed(w, v, id, left)
            && (Remaining(w.proc.value.pc) == 7 ==> Stays(v, id, restore) == Stays(w, id, restore))
  {
    if Remaining(w.proc.value.pc) >= 5 { ProgressEarly(w, id, restore, left); } else { ProgressLate(w, id, left); }
  }

  lemma ProgressEarly(w: World, id: nat, restore: Effect, left: bool)
    requires Progress(w, id, left) && Remaining(w.proc.value.pc) >= 5 && (restore == Done || restore == Leaves)
    requires Remaining(w.proc.value.pc) >= 6 ==> left == Stays(w, id, restore)
    ensures var v := Next(w, Work(if w.proc.value.pc == RestorePolicy then restore else Done));
            && Progressed(w, v, id, left)
            && (Remaining(w.proc.value.pc) == 7 ==> Stays(v, id, restore) == Stays(w, id, restore))
  {
  }

  lemma ProgressLate(w: World, id: nat, left: bool)
    requires Progress(w, id, left) && Remaining(w.proc.value.pc) < 5
    ensures Progressed(w, Next(w, Work(Done)), id, left)
  {
  }

  lemma {:induction false} ProgressCompletes(w: World, id: nat, restore: Effect, left: bool)
    requires Progress(w, id, left) && (restore == Done || restore == Leaves)
    requires Remaining(w.proc.value.pc) >= 6 ==> left == Stays(w, id, restore)
    ensures var v := Steps(w, Remaining(w.proc.value.pc), restore);
            && v.proc.None? && v.phases == w.phases[id := RolledBack]
            && v.changed - {id} == w.changed - {id} && (id in v.changed <==> left) && v.unit.None? && v.running.None?
    decreases Remaining(w.proc.value.pc)
  {
    ProgressStep(w, id, restore, left);
    var effect := if w.proc.value.pc == RestorePolicy then restore else Done;
    var v := Next(w, Work(effect));
    if w.proc.value.pc == StopTimer {
      assert Steps(w, 1, restore) == Steps(v, 0, restore) == v;
      assert v.phases == v.phases[id := RolledBack];
    } else {
      ProgressCompletes(v, id, restore, left);
    }
  }

  /** The rollback that a fired timer starts, when its commands work, ends with the rollout
      saved as rolled back and no service left; its own changes are gone exactly when its
      restore has left none of them. */
  lemma AutomaticCompletes(w: World, id: nat, restore: Effect)
    requires w.proc.None? && id in w.timers && w.timers[id] == Fired && Unfinished(w, id)
    requires restore == Done || restore == Leaves
    ensures var v := Steps(Next(w, Begin(id, Automatic)), 7, restore);
            && v.proc.None? && v.phases == w.phases[id := RolledBack]
            && v.changed - {id} == w.changed - {id} && (id in v.changed <==> Stays(w, id, restore))
            && v.unit.None? && v.running.None?
  {
    var begun := Next(w, Begin(id, Automatic));
    ProgressCompletes(begun, id, restore, Stays(begun, id, restore));
  }

  /** A rollback by hand, when its commands work, ends the same way whatever the phase was: it
      does not spare a confirmed rollout. */
  lemma ManualCompletes(w: World, id: nat, restore: Effect, n: nat)
    requires w.proc.None? && id in w.phases && w.phases[id] != RolledBack
    requires (restore == Done || restore == Leaves) && n == 7
    ensures var v := Steps(Next(w, Begin(id, Manual)), n, restore);
            && v.proc.None? && v.phases == w.phases[id := RolledBack]
            && v.changed - {id} == w.changed - {id} && (id in v.changed <==> Stays(w, id, restore))
            && v.unit.None? && v.running.None?
  {
    var begun := Next(w, Begin(id, Manual));
    ProgressCompletes(begun, id, restore, Stays(begun, id, restore));
  }

  /** An apply that fails once its timer is armed, and whose rollback works, ends rolled back
      with no service left. */
  lemma FailedApplyRollsBack(w: World, effect: Effect, restore: Effect, n: nat)
    requires Inv(w) && w.proc.Some? && w.proc.value.kind == Apply && Guards(w.proc.value.pc)
    requires effect == FailedBefore || effect == FailedAfter
    requires (restore == Done || restore == Leaves) && n == 7
    ensures var id, failed := w.proc.value.id, Next(w, Work(effect));
            var v := Steps(failed, n, restore);
            && v.proc.None? && id in v.phases && v.phases[id] == RolledBack && v.unit.None? && v.running.None?
            && v.changed - {id} == failed.changed - {id} && (id in v.changed <==> Stays(failed, id, restore))
  {
    var id, failed := w.proc.value.id, Next(w, Work(effect));
    ProgressCompletes(failed, id, restore, Stays(failed, id, restore));
  }

  function Works(n: nat): seq<Move> { seq(n, _ => Work(Done)) }

  lemma WorksOne(w: World, n: nat)
    ensures Run(w, Works(n + 1)) == Run(Next(w, Work(Done)), Works(n))
  {
    FoldJoin(Stepper(), w, [Work(Done)], Works(n));
    FoldOne(Stepper(), w, [], Work(Done));
    assert [] + [Work(Done)] == [Work(Done)] && Works(n + 1) == [Work(Done)] + Works(n);
  }

  lemma WorksTwo(w: World, n: nat)
    ensures Run(w, Works(n + 2)) == Run(Next(Next(w, Work(Done)), Work(Done)), Works(n))
  {
    WorksOne(w, n + 1);
    WorksOne(Next(w, Work(Done)), n);
  }

  lemma WorksThree(w: World, n: nat)
    ensures Run(w, Works(n + 3)) == Run(Next(Next(Next(w, Work(Done)), Work(Done)), Work(Done)), Works(n))
  {
    WorksOne(w, n + 2);
    WorksTwo(Next(w, Work(Done)), n);
  }

  lemma {:induction false} WorksIdle(w: World, n: nat)
    requires w.proc.None?
    ensures Run(w, Works(n)) == w
  {
    if n > 0 {
      WorksIdle(w, n - 1);
      assert Works(n)[..n - 1] == Works(n - 1);
    }
  }

  /** An apply whose commands work leaves a trial: its service and policy are there, and its
      timer is armed. */
  lemma ApplyCompletes(w: World, id: nat, n: nat)
    requires w.proc.None? && w.unit.None? && w.running.None? && NoneUnfinished(w) && id !in w.used && n >= 8
    ensures Run(Next(w, Begin(id, Apply)), Works(n))
            == w.(used := w.used + {id}, phases := w.phases[id := Trial], timers := w.timers[id := Armed],
                  unit := Some(id), running := Some(id), changed := w.changed + {id})
  {
    var a := w.(used := w.used + {id}, proc := Some(Proc(id, Apply, SavePreparing)));
    BeginsApply(w, id);
    PrepareRuns(a, id, n - 2);
    var b := a.(phases := a.phases[id := Preparing], timers := a.timers[id := Armed], proc := Some(Proc(id, Apply, WriteUnit)));
    InstallRuns(b, id, n - 5);
    var c := b.(unit := Some(id), changed := b.changed + {id}, proc := Some(Proc(id, Apply, StartUnit)));
    TrialRuns(c, id, n - 8);
    var d := c.(running := Some(id), phases := c.phases[id := Trial], proc := None);
    WorksIdle(d, n - 8);
    assert w.phases[id := Preparing][id := Trial] == w.phases[id := Trial];
  }

  lemma BeginsApply(w: World, id: nat)
    requires w.proc.None? && w.unit.None? && w.running.None? && NoneUnfinished(w) && id !in w.used
    ensures Next(w, Begin(id, Apply)) == w.(used := w.used + {id}, proc := Some(Proc(id, Apply, SavePreparing)))
  {
  }

  lemma PrepareRuns(w: World, id: nat, n: nat)
    requires w.proc == Some(Proc(id, Apply, SavePreparing))
    ensures Run(w, Works(n + 2))
            == Run(w.(phases := w.phases[id := Preparing], timers := w.timers[id := Armed],
                  proc := Some(Proc(id, Apply, WriteUnit))), Works(n))
  {
    PrepareSteps(w, id);
    WorksTwo(w, n);
  }

  lemma InstallRuns(w: World, id: nat, n: nat)
    requires w.proc == Some(Proc(id, Apply, WriteUnit))
    ensures Run(w, Works(n + 3))
            == Run(w.(unit := Some(id), changed := w.changed + {id}, proc := Some(Proc(id, Apply, StartUnit))), Works(n))
  {
    InstallSteps(w, id);
    WorksThree(w, n);
  }

  lemma TrialRuns(w: World, id: nat, n: nat)
    requires w.proc == Some(Proc(id, Apply, StartUnit)) && w.unit == Some(id)
    ensures Run(w, Works(n + 3)) == Run(w.(running := Some(id), phases := w.phases[id := Trial], proc := None), Works(n))
  {
    TrialSteps(w, id);
    WorksThree(w, n);
  }

  /** A confirmation whose commands work, with the service running, saves the rollout as
      confirmed, enables the service and stops a timer that has not fired. */
  lemma ConfirmCompletes(w: World, id: nat, n: nat)
    requires w.proc.None? && id in w.phases && w.phases[id] == Trial && w.running.Some?
    requires id in w.timers && (w.timers[id] == Armed || w.timers[id] == Fired) && n >= 4
    ensures Run(Next(w, Begin(id, Confirm)), Works(n))
            == w.(phases := w.phases[id := Confirmed], enabled := true,
                  timers := w.timers[id := if w.timers[id] == Armed then Stopped else Fired])
  {
    var a := w.(proc := Some(Proc(id, Confirm, ValidateConfirm)));
    var b := w.(enabled := true, proc := Some(Proc(id, Confirm, SaveConfirmed)));
    var c := b.(phases := b.phases[id := Confirmed], timers := StopTimerOf(b, id).timers, proc := None);
    BeginsConfirm(w, id);
    EnableSteps(a, id);
    WorksTwo(a, n - 2);
    ConfirmSteps(b, id);
    WorksTwo(b, n - 4);
    WorksIdle(c, n - 4);
    assert w.timers[id] == Fired ==> w.timers[id := Fired] == w.timers;
  }

  lemma BeginsConfirm(w: World, id: nat)
    requires w.proc.None? && id in w.phases && w.phases[id] == Trial
    requires id in w.timers && (w.timers[id] == Armed || w.timers[id] == Fired)
    ensures Next(w, Begin(id, Confirm)) == w.(proc := Some(Proc(id, Confirm, ValidateConfirm)))
  {
  }

  lemma EnableSteps(w: World, id: nat)
    requires w.proc == Some(Proc(id, Confirm, ValidateConfirm)) && w.running.Some?
    ensures Next(Next(w, Work(Done)), Work(Done)) == w.(enabled := true, proc := Some(Proc(id, Confirm, SaveConfirmed)))
  {
  }

  lemma ConfirmSteps(w: World, id: nat)
    requires w.proc == Some(Proc(id, Confirm, SaveConfirmed))
    ensures Next(Next(w, Work(Done)), Work(Done))
            == w.(phases := w.phases[id := Confirmed], timers := StopTimerOf(w, id).timers, proc := None)
  {
  }

  // ----- two runs in which a change outlives its protection -----

  /** Save the phase, and arm the timer. */
  lemma PrepareSteps(w: World, id: nat)
    requires w.proc == Some(Proc(id, Apply, SavePreparing))
    ensures Next(Next(w, Work(Done)), Work(Done))
            == w.(phases := w.phases[id := Preparing], timers := w.timers[id := Armed], proc := Some(Proc(id, Apply, WriteUnit)))
  {
  }

  /** Write and load the service, and apply the policy. */
  lemma InstallSteps(w: World, id: nat)
    requires w.proc == Some(Proc(id, Apply, WriteUnit))
    ensures Next(Next(Next(w, Work(Done)), Work(Done)), Work(Done))
            == w.(unit := Some(id), changed := w.changed + {id}, proc := Some(Proc(id, Apply, StartUnit)))
  {
  }

  /** Start the service, validate, and save the trial. */
  lemma TrialSteps(w: World, id: nat)
    requires w.proc == Some(Proc(id, Apply, StartUnit)) && w.unit == Some(id)
    ensures Next(Next(Next(w, Work(Done)), Work(Done)), Work(Done))
            == w.(running := Some(id), phases := w.phases[id := Trial], proc := None)
  {
  }

  /** A rollout on trial. */
  lemma Tried() returns (moves: seq<Move>)
    ensures Run(START, moves) == World(map[0 := Trial], {0}, map[0 := Armed], Some(0), false, Some(0), {0}, None)
  {
    var begun := Then(Stepper(), START, [], Begin(0, Apply));
    ApplyCompletes(START, 0, 8);
    FoldJoin(Stepper(), START, begun, Works(8));
    moves := begun + Works(8);
  }

  lemma RestoredWithChange() returns (moves: seq<Move>)
    ensures Run(START, moves)
            == World(map[0 := Trial], {0}, map[0 := Armed], Some(0), false, None, {0}, Some(Proc(0, Manual, DisableUnit)))
  {
    moves := Tried();
    moves := Then(Stepper(), START, moves, Begin(0, Manual));
    moves := Then(Stepper(), START, moves, Work(Done));
    moves := Then(Stepper(), START, moves, Work(Leaves));
  }

  lemma RemovalSteps(w: World)
    requires w.proc == Some(Proc(0, Manual, DisableUnit))
    ensures Next(Next(Next(w, Work(Done)), Work(Done)), Work(Done))
            == w.(enabled := false, unit := None, proc := Some(Proc(0, Manual, SaveRolledBack)))
  {
  }

  lemma RemovedWithChange() returns (moves: seq<Move>)
    ensures Run(START, moves)
            == World(map[0 := Trial], {0}, map[0 := Armed], None, false, None, {0}, Some(Proc(0, Manual, SaveRolledBack)))
  {
    moves := RestoredWithChange();
    RemovalSteps(Run(START, moves));
    moves := Then(Stepper(), START, moves, Work(Done));
    moves := Then(Stepper(), START, moves, Work(Done));
    moves := Then(Stepper(), START, moves, Work(Done));
  }

  /** A manual rollback whose restore leaves a change is saved as rolled back and stops the
      timer: nothing will undo the change. */
  lemma RolledBackWithChange() returns (moves: seq<Move>)
    ensures Run(START, moves) == World(map[0 := RolledBack], {0}, map[0 := Stopped], None, false, None, {0}, None)
  {
    moves := RemovedWithChange();
    moves := Then(Stepper(), START, moves, Work(Done));
    moves := Then(Stepper(), START, moves, Work(Done));
  }

  /** A reboot between enabling the service and saving the confirmation: the service applies
      the policy, the rollout is still on trial, and there is no timer to end it. */
  lemma RebootBeforeConfirmed() returns (moves: seq<Move>)
    ensures var w := Run(START, moves); 0 in w.changed && w.phases == map[0 := Trial] && w.timers == map[] && Uncovered(w, 0)
  {
    moves := Tried();
    moves := Then(Stepper(), START, moves, Begin(0, Confirm));
    moves := Then(Stepper(), START, moves, Work(Done));
    moves := Then(Stepper(), START, moves, Work(Done));
    assert Run(START, moves)
           == World(map[0 := Trial], {0}, map[0 := Armed], Some(0), true, Some(0), {0}, Some(Proc(0, Confirm, SaveConfirmed)));
    moves := Then(Stepper(), START, moves, Reboot);
    moves := Then(Stepper(), START, moves, ServiceApplies);
  }
}
