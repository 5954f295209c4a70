/** What the phases of a rollout and the namespaces of its guard say about each other:
    when a rollout saved as rolled back has left nothing changed. */
module RolloutNamespaces {
  import N = NamespaceGuard
  import R = Rollout

  /** The effect of a restore whose guard has gone through all its namespaces. */
  ghost function RestoreEffect(v: N.World): R.Effect {
    if exists ns :: ns in v.live && N.Changed(v.live[ns]) then R.Leaves else R.Done
  }

  /** A rollback of a rollout that has changed policies, with commands that work, ends with
      the rollout saved as rolled back. It has left a change exactly when, as its restore
      began, some namespace that stays throughout had a recorded container and a record
      that does not say what the original was, or no recorded container and a change. */
  lemma RolledBackExactly(rollout: seq<R.Move>, id: nat, first: seq<N.Move>, order: seq<nat>, more: seq<N.Move>)
    requires R.Restores(R.Run(R.START, rollout), id) && id in R.Run(R.START, rollout).changed
    requires var w := N.Run(N.START, first); w.job.Idle? && N.Scans(w, order)
    requires N.Completes(N.Run(N.START, first), order, more)
    ensures var w := N.Run(N.START, first);
            var begun := N.Next(w, N.Begin(order, true));
            var v := N.Run(begun, more);
            var done := R.Steps(R.Run(R.START, rollout), 6, RestoreEffect(v));
            && done.proc.None? && id in done.phases && done.phases[id] == R.RolledBack
            && (id in done.changed <==> exists ns :: ns in v.live && N.Alive(begun, more, ns) && N.Leaves(w, ns))
  {
    var v := N.Run(N.Next(N.Run(N.START, first), N.Begin(order, true)), more);
    var w := R.Run(R.START, rollout);
    R.RunKeeps(rollout);
    R.ProgressCompletes(w, id, RestoreEffect(v), R.Stays(w, id, RestoreEffect(v)));
    N.RollbackLeavesSome(first, order, more);
  }
}
