/** apply, confirm and rollback as they are written, command by command, while
    timers fire, the service keeps applying, and the process may die. */
module RolloutInstaller {
  import opened Wrappers
  import opened Runs
  import opened Rollout

  class Installer {
    var phases: map<nat, Phase>
    var used: set<nat>
    var timers: map<nat, Timer>
    var unit: Option<nat>
    var enabled: bool
    var running: Option<nat>
    ghost var changed: set<nat>
    ghost var proc: Option<Proc>
    ghost const step: (World, Move) -> World

    ghost function View(): World reads this {
      World(phases, used, timers, unit, enabled, running, changed, proc)
    }

    ghost predicate Valid() {
      forall w: World, m: Move {:trigger Rollout.Next(w, m)} :: step(w, m) == Rollout.Next(w, m)
    }

    constructor ()
      ensures View() == START && Valid() && step == Stepper()
    {
      phases, used, timers, unit, enabled, running := map[], {}, map[], None, false, None;
      changed, proc, step := {}, None, Stepper();
    }

    /** A timer fires, the service applies the policy, or the process or the host stops;
        nobody else gets in. */
    method Meanwhile(m: Move)
      requires Valid() && proc.Some? && !m.Work?
      modifies this
      ensures View() == step(old(View()), m)
      ensures m.Crash? || m.Reboot? ==> proc.None?
      ensures !m.Crash? && !m.Reboot? ==> proc == old(proc) && phases == old(phases)
    {
      assert step(View(), m) == Rollout.Next(View(), m);
      match m
      case Fire(id) =>
        if id in timers && timers[id] == Armed { timers := timers[id := Fired]; }
      case ServiceApplies =>
        if running.Some? { changed := changed + {running.value}; }
      case Crash => proc := None;
      case Reboot => timers, running, changed, proc := map[], if enabled then unit else None, {}, None;
      case Begin(_, _) =>
      case Work(_) =>
    }

    /** The effect of one command. */
    method Perform(id: nat, pc: Pc)
      modifies this
      ensures View() == Effected(old(View()), id, pc)
    {
      match pc
      case SavePreparing => phases := phases[id := Preparing];
      case ArmTimer => timers := timers[id := Armed];
      case WriteUnit => unit := Some(id);
      case ApplyPolicy => changed := changed + {id};
      case StartUnit => running := unit;
      case SaveTrial => phases := phases[id := Trial];
      case EnableUnit => enabled := true;
      case SaveConfirmed => phases := phases[id := Confirmed];
      case StopUnit => running := None;
      case RestorePolicy => changed := changed - {id};
      case DisableUnit => enabled := false;
      case RemoveUnit => unit := None;
      case SaveRolledBack => phases := phases[id := RolledBack];
      case StopTimer => if id in timers && timers[id] == Armed { timers := timers[id := Stopped]; }
      case StopTimerConfirmed => if id in timers && timers[id] == Armed { timers := timers[id := Stopped]; }
      case ReloadUnit | ValidateTrial | ValidateConfirm | ReloadRemoved =>
    }

    /** Run one command: ok when it worked, dead when the process did not get
        past it. */
    method Command(id: nat, pc: Pc, script: seq<Move>, at: nat, ghost w: World, ghost start: nat)
      returns (ok: bool, dead: bool, pos: nat)
      requires Valid() && start <= at <= |script| && proc.Some? && proc.value.id == id && proc.value.pc == pc
      requires View() == FoldTo(step, w, script, start, at)
      modifies this
      ensures at <= pos <= |script| && View() == FoldTo(step, w, script, start, pos)
      ensures dead ==> !ok && (pos == |script| || proc.None?)
      ensures !dead ==>
                var p := old(proc).value;
                proc == if ok || Unchecked(pc) then Continue(p, Following(pc))
                        else if Guards(pc) then Some(p.(pc := StopUnit)) else None
    {
      pos := at;
      while pos < |script| && !script[pos].Work?
        invariant at <= pos <= |script| && View() == FoldTo(step, w, script, start, pos)
        invariant proc == old(proc)
      {
        Meanwhile(script[pos]);
        pos := pos + 1;
        if script[pos - 1].Crash? || script[pos - 1].Reboot? { return false, true, pos; }
      }
      if pos == |script| { return false, true, pos; }
      ok := Execute(id, pc, script[pos]);
      dead := false;
      pos := pos + 1;
    }

    method Affect(id: nat, pc: Pc, effect: Effect)
      requires proc.Some? && proc.value.id == id && proc.value.pc == pc
      modifies this
      ensures proc == old(proc)
      ensures forall next :: View().(proc := next) == WorkStep(old(View()), effect).(proc := next)
    {
      if effect != FailedBefore && !(effect == Leaves && pc == RestorePolicy) { Perform(id, pc); }
    }

    method Execute(id: nat, pc: Pc, m: Move) returns (ok: bool)
      requires Valid() && proc.Some? && proc.value.id == id && proc.value.pc == pc && m.Work?
      modifies this
      ensures View() == step(old(View()), m)
      ensures var p := old(proc).value;
              proc == if ok || Unchecked(pc) then Continue(p, Following(pc))
                      else if Guards(pc) then Some(p.(pc := StopUnit)) else None
    {
      assert step(View(), m) == Rollout.Next(View(), m);
      var inactive := (pc == ValidateTrial || pc == ValidateConfirm) && running.None?;
      Affect(id, pc, m.effect);
      ok := m.effect != FailedBefore && m.effect != FailedAfter && !inactive;
      ghost var p := proc.value;
      proc := if ok || Unchecked(pc) then Continue(p, Following(pc))
              else if Guards(pc) then Some(p.(pc := StopUnit)) else None;
    }

    /** rollback: stop the service, restore the namespaces, remove the service,
        and only then save the phase and stop the timer. */
    method Rollback(id: nat, script: seq<Move>, at: nat, ghost w: World, ghost start: nat) returns (pos: nat)
      requires Valid() && start <= at <= |script| && proc.Some? && proc.value.id == id && proc.value.pc == StopUnit
      requires View() == FoldTo(step, w, script, start, at)
      modifies this
      ensures at <= pos <= |script| && View() == FoldTo(step, w, script, start, pos)
      ensures pos == |script| || proc.None?
    {
      var ok, dead;
      ok, dead, pos := Command(id, StopUnit, script, at, w, start);
      if !ok { return; }
      ok, dead, pos := Command(id, RestorePolicy, script, pos, w, start);
      if !ok { return; }
      ok, dead, pos := Command(id, DisableUnit, script, pos, w, start);
      if dead { return; }
      pos := RemoveAndSave(id, script, pos, w, start);
    }

    method RemoveAndSave(id: nat, script: seq<Move>, at: nat, ghost w: World, ghost start: nat) returns (pos: nat)
      requires Valid() && start <= at <= |script| && proc.Some? && proc.value.id == id && proc.value.pc == RemoveUnit
      requires View() == FoldTo(step, w, script, start, at)
      modifies this
      ensures at <= pos <= |script| && View() == FoldTo(step, w, script, start, pos)
      ensures pos == |script| || proc.None?
    {
      var ok, dead;
      ok, dead, pos := Command(id, RemoveUnit, script, at, w, start);
      if !ok { return; }
      ok, dead, pos := Command(id, ReloadRemoved, script, pos, w, start);
      if !ok { return; }
      pos := SaveRollback(id, script, pos, w, start);
    }

    method SaveRollback(id: nat, script: seq<Move>, at: nat, ghost w: World, ghost start: nat) returns (pos: nat)
      requires Valid() && start <= at <= |script| && proc.Some? && proc.value.id == id && proc.value.pc == SaveRolledBack
      requires View() == FoldTo(step, w, script, start, at)
      modifies this
      ensures at <= pos <= |script| && View() == FoldTo(step, w, script, start, pos)
      ensures pos == |script| || proc.None?
    {
      var ok, dead;
      ok, dead, pos := Command(id, SaveRolledBack, script, at, w, start);
      if !ok { return; }
      ok, dead, pos := Command(id, StopTimer, script, pos, w, start);
    }

    /** The checks of apply, made under the lock before anything is written. */
    method Admit(id: nat) returns (ok: bool)
      requires Valid() && proc.None?
      modifies this
      ensures View() == step(old(View()), Begin(id, Kind.Apply))
      ensures proc == if ok then Some(Proc(id, Kind.Apply, SavePreparing)) else None
    {
      assert step(View(), Begin(id, Kind.Apply)) == Rollout.Next(View(), Begin(id, Kind.Apply));
      if unit.Some? || running.Some? { return false; }
      if exists j :: j in phases && phases[j] != RolledBack && phases[j] != Confirmed {
        assert !NoneUnfinished(View());
        return false;
      }
      if id in used { return false; }
      used := used + {id};
      proc := Some(Proc(id, Kind.Apply, SavePreparing));
      ok := true;
    }

    /** apply: the checks, the saved phase and the timer come before anything is
        changed; from then on every failure is rolled back. */
    method Install(id: nat, script: seq<Move>) returns (pos: nat)
      requires Valid() && proc.None?
      modifies this
      ensures pos <= |script| && View() == FoldTo(step, step(old(View()), Begin(id, Kind.Apply)), script, 0, pos)
      ensures pos == |script| || proc.None?
    {
      pos := 0;
      var ok := Admit(id);
      var dead;
      if !ok { return; }
      ghost var w := View();
      ok, dead, pos := Command(id, SavePreparing, script, pos, w, 0);
      if !ok { return; }
      ok, dead, pos := Command(id, ArmTimer, script, pos, w, 0);
      if !ok { return; }
      ok, dead, pos := Change(id, script, pos, w, 0);
      if ok || dead { return; }
      pos := Rollback(id, script, pos, w, 0);
    }

    /** The guarded part of apply, up to the applied policy. */
    method Change(id: nat, script: seq<Move>, at: nat, ghost w: World, ghost start: nat)
      returns (ok: bool, dead: bool, pos: nat)
      requires Valid() && start <= at <= |script| && proc.Some? && proc.value.id == id && proc.value.pc == WriteUnit
      requires View() == FoldTo(step, w, script, start, at)
      modifies this
      ensures at <= pos <= |script| && View() == FoldTo(step, w, script, start, pos)
      ensures dead ==> !ok && (pos == |script| || proc.None?)
      ensures ok ==> proc.None?
      ensures !ok && !dead ==> proc.Some? && proc.value.id == id && proc.value.pc == StopUnit
    {
      ok, dead, pos := Command(id, WriteUnit, script, at, w, start);
      if !ok { return; }
      ok, dead, pos := Command(id, ReloadUnit, script, pos, w, start);
      if !ok { return; }
      ok, dead, pos := Command(id, ApplyPolicy, script, pos, w, start);
      if !ok { return; }
      ok, dead, pos := StartTrial(id, script, pos, w, start);
    }

    /** The rest of it, up to the saved trial. */
    method StartTrial(id: nat, script: seq<Move>, at: nat, ghost w: World, ghost start: nat)
      returns (ok: bool, dead: bool, pos: nat)
      requires Valid() && start <= at <= |script| && proc.Some? && proc.value.id == id && proc.value.pc == StartUnit
      requires View() == FoldTo(step, w, script, start, at)
      modifies this
      ensures at <= pos <= |script| && View() == FoldTo(step, w, script, start, pos)
      ensures dead ==> !ok && (pos == |script| || proc.None?)
      ensures ok ==> proc.None?
      ensures !ok && !dead ==> proc.Some? && proc.value.id == id && proc.value.pc == StopUnit
    {
      ok, dead, pos := Command(id, StartUnit, script, at, w, start);
      if !ok { return; }
      ok, dead, pos := Command(id, ValidateTrial, script, pos, w, start);
      if !ok { return; }
      ok, dead, pos := Command(id, SaveTrial, script, pos, w, start);
    }

    /** The confirm branch: a trial whose timer is still there is validated,
        enabled and saved, and only then is the timer stopped. */
    method Confirm(id: nat, script: seq<Move>) returns (pos: nat)
      requires Valid() && proc.None?
      modifies this
      ensures pos <= |script| && View() == FoldTo(step, step(old(View()), Begin(id, Kind.Confirm)), script, 0, pos)
      ensures pos == |script| || proc.None?
    {
      pos := 0;
      var ok := Confirmable(id);
      if !ok { return; }
      ghost var w := View();
      pos := Promote(id, script, pos, w, 0);
    }

    method Promote(id: nat, script: seq<Move>, at: nat, ghost w: World, ghost start: nat) returns (pos: nat)
      requires Valid() && start <= at <= |script| && proc == Some(Proc(id, Kind.Confirm, ValidateConfirm))
      requires View() == FoldTo(step, w, script, start, at)
      modifies this
      ensures at <= pos <= |script| && View() == FoldTo(step, w, script, start, pos)
      ensures pos == |script| || proc.None?
    {
      var ok, dead;
      ok, dead, pos := Command(id, ValidateConfirm, script, at, w, start);
      if !ok { return; }
      ok, dead, pos := Command(id, EnableUnit, script, pos, w, start);
      if !ok { return; }
      pos := SaveAndStop(id, script, pos, w, start);
    }

    /** The confirmation is durable before the timer is stopped. */
    method SaveAndStop(id: nat, script: seq<Move>, at: nat, ghost w: World, ghost start: nat) returns (pos: nat)
      requires Valid() && start <= at <= |script| && proc == Some(Proc(id, Kind.Confirm, SaveConfirmed))
      requires View() == FoldTo(step, w, script, start, at)
      modifies this
      ensures at <= pos <= |script| && View() == FoldTo(step, w, script, start, pos)
      ensures pos == |script| || proc.None?
    {
      var ok, dead;
      ok, dead, pos := Command(id, SaveConfirmed, script, at, w, start);
      if !ok { return; }
      ok, dead, pos := Command(id, StopTimerConfirmed, script, pos, w, start);
    }

    method Confirmable(id: nat) returns (ok: bool)
      requires Valid() && proc.None?
      modifies this
      ensures View() == step(old(View()), Begin(id, Kind.Confirm))
      ensures proc == if ok then Some(Proc(id, Kind.Confirm, ValidateConfirm)) else None
    {
      assert step(View(), Begin(id, Kind.Confirm)) == Rollout.Next(View(), Begin(id, Kind.Confirm));
      if id !in phases || phases[id] != Trial { return false; }
      if id !in timers || (timers[id] != Armed && timers[id] != Fired) { return false; }
      proc := Some(Proc(id, Kind.Confirm, ValidateConfirm));
      ok := true;
    }

    /** The rollback branch: an automatic one leaves a confirmed rollout alone. */
    method Undo(id: nat, automatic: bool, script: seq<Move>) returns (pos: nat)
      requires Valid() && proc.None?
      modifies this
      ensures pos <= |script|
      ensures View() == FoldTo(step, step(old(View()), Begin(id, if automatic then Automatic else Manual)), script, 0, pos)
      ensures pos == |script| || proc.None?
    {
      pos := 0;
      var ok := Undoable(id, automatic);
      if ok { pos := Rollback(id, script, pos, View(), 0); }
    }

    method Undoable(id: nat, automatic: bool) returns (ok: bool)
      requires Valid() && proc.None?
      modifies this
      ensures var kind := if automatic then Automatic else Manual;
              && View() == step(old(View()), Begin(id, kind))
              && proc == if ok then Some(Proc(id, kind, StopUnit)) else None
    {
      ghost var m := Begin(id, if automatic then Automatic else Manual);
      assert step(View(), m) == Rollout.Next(View(), m);
      if automatic {
        if id !in timers || timers[id] != Fired { return false; }
        timers := timers[id := Ran];
      }
      if id !in phases { return false; }
      if automatic && phases[id] == Confirmed { return false; }
      if phases[id] == RolledBack { return false; }
      proc := Some(Proc(id, if automatic then Automatic else Manual, StopUnit));
      ok := true;
    }
  }
}
