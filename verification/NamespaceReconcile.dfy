/** reconcile and apply as they are written, command by command, while
    containers come and go and the process may die between two commands. */
module NamespaceReconcile {
  import opened Wrappers
  import opened Runs
  import opened NamespaceGuard

  class Host {
    const boot: nat
    var records: map<(nat, nat), Record>
    var live: map<nat, Namespace>
    var job: Job
    ghost const step: (World, Move) -> World

    ghost function View(): World reads this { World(boot, records, live, job) }

    ghost predicate Valid() {
      forall w: World, m: Move {:trigger NamespaceGuard.Next(w, m)} :: step(w, m) == NamespaceGuard.Next(w, m)
    }

    constructor (boot: nat, records: map<(nat, nat), Record>, live: map<nat, Namespace>)
      ensures View() == World(boot, records, live, Idle) && Valid() && step == Stepper()
    {
      this.boot, this.records, this.live, job := boot, records, live, Idle;
      step := Stepper();
    }

    /** Pinned namespaces do not go away. */
    ghost predicate PinnedLive() reads this {
      forall g :: g in Pending(job) ==> g.ns in live
    }

    ghost predicate Busy() reads this {
      !job.Idle? && job.pending != [] && PinnedLive()
    }

    /** Containers come and go until the next command of the guard is due, or the
        guard fails or dies first. */
    method Await(script: seq<Move>, start: nat) returns (due: bool, pos: nat)
      requires Valid() && start <= |script| && Busy()
      requires forall m :: m in script ==> m != Reboot
      modifies this
      ensures start <= pos <= |script| && View() == FoldTo(step, old(View()), script, start, pos)
      ensures due ==> pos < |script| && script[pos].Work? && script[pos].outcome.Succeeds? && job == old(job) && Busy()
      ensures due ==> records == old(records)
      ensures !due ==> pos == |script| || job.Idle?
    {
      pos := start;
      while pos < |script|
        invariant start <= pos <= |script| && View() == FoldTo(step, old(View()), script, start, pos)
        invariant job == old(job) && Busy() && records == old(records)
      {
        var m := script[pos];
        assert m in script;
        if m.Work? && m.outcome.Succeeds? { return true, pos; }
        Environment(m);
        pos := pos + 1;
        if m.Work? || m.Die? { return false, pos; }
      }
      due := false;
    }

    /** A move of a container, or the end of the guard. */
    method Environment(m: Move)
      requires Valid() && Busy() && m != Reboot && !(m.Work? && m.outcome.Succeeds?)
      modifies this
      ensures View() == step(old(View()), m)
      ensures records == old(records)
      ensures m.Work? || m.Die? ==> job.Idle?
      ensures !m.Work? && !m.Die? ==> job == old(job) && Busy()
    {
      assert step(View(), m) == NamespaceGuard.Next(View(), m);
      match m
      case Start(ns, inode, policy, mptcp, id) =>
        if ns !in live && (forall n :: n in live ==> live[n].inode != inode) && !(exists n :: n in live && id in live[n].occupants) {
          live := live[ns := Namespace(inode, policy, mptcp, {id}, policy, mptcp, false, {})];
        }
      case Join(ns, id) =>
        if ns in live && live[ns].occupants != {} && !(exists n :: n in live && id in live[n].occupants) {
          live := live[ns := live[ns].(occupants := live[ns].occupants + {id})];
        }
      case Stop(ns, id) =>
        if ns in live {
          live := live[ns := live[ns].(occupants := live[ns].occupants - {id}, kept := live[ns].kept - {id})];
        }
      case Vanish(ns) =>
        if ns in live && live[ns].occupants == {} && !(exists g :: g in Pending(job) && g.ns == ns) {
          live := live - {ns};
        }
      case Begin(_, _) =>
      case Work(_) => job := Idle;
      case Die => job := Idle;
      case Reboot =>
    }

    /** Use the record of this namespace, or take a new snapshot and write it. */
    method FindRecord(script: seq<Move>, start: nat) returns (ok: bool, used: Record, pos: nat)
      requires Valid() && start <= |script| && Busy() && job.Applying? && job.phase == Look
      requires forall m :: m in script ==> m != Reboot
      modifies this
      ensures start <= pos <= |script| && View() == FoldTo(step, old(View()), script, start, pos)
      ensures ok ==> Busy() && job == Applying(old(job).pending, Load(used))
      ensures !ok ==> pos == |script| || job.Idle?
    {
      var due;
      used := Record({}, None, NoTable, false, None);
      due, pos := Await(script, start);
      if !due { return false, used, pos; }
      ghost var w := View();
      assert step(w, script[pos]) == NamespaceGuard.Next(w, script[pos]);
      var group := job.pending[0];
      var n := live[group.ns];
      var key := (boot, n.inode);
      if key in records && records[key].ids * group.ids != {} {
        used := records[key];
        live := live[group.ns := AdoptFirst(n, used, group)];
        job := Applying(job.pending, Load(used));
        pos := pos + 1;
        return true, used, pos;
      }
      used := Record(group.ids, n.mptcp, n.policy, false, None);
      job := Applying(job.pending, Write(used));
      pos := pos + 1;
      ok, pos := WriteRecord(used, script, pos, old(View()), start);
    }

    /** atomic_json: the snapshot is durable before any change. */
    method WriteRecord(r: Record, script: seq<Move>, at: nat, ghost w: World, ghost start: nat) returns (ok: bool, pos: nat)
      requires Valid() && start <= at <= |script| && Busy() && job.Applying? && job.phase == Write(r)
      requires View() == FoldTo(step, w, script, start, at)
      requires forall m :: m in script ==> m != Reboot
      modifies this
      ensures at <= pos <= |script| && View() == FoldTo(step, w, script, start, pos)
      ensures ok ==> Busy() && job == Applying(old(job).pending, Load(r))
      ensures !ok ==> pos == |script| || job.Idle?
    {
      ok, pos := Await(script, at);
      FoldToSplit(step, w, script, start, at, pos);
      if !ok { return; }
      ghost var v := View();
      assert step(v, script[pos]) == NamespaceGuard.Next(v, script[pos]);
      var group := job.pending[0];
      var n := live[group.ns];
      records := records[(boot, n.inode) := r];
      live := live[group.ns := Adopt(n, r, group)];
      job := Applying(job.pending, Load(r));
      pos := pos + 1;
    }

    /** Load the guard's rules unless the record says they are in place, and
        write down what was loaded. */
    method LoadRules(r: Record, script: seq<Move>, at: nat, ghost w: World, ghost start: nat) returns (ok: bool, loaded: Record, pos: nat)
      requires Valid() && start <= at <= |script| && Busy() && job.Applying? && job.phase == Load(r)
      requires View() == FoldTo(step, w, script, start, at)
      requires forall m :: m in script ==> m != Reboot
      modifies this
      ensures at <= pos <= |script| && View() == FoldTo(step, w, script, start, pos)
      ensures ok ==> Busy() && job == Applying(old(job).pending, Tune(loaded))
      ensures !ok ==> pos == |script| || job.Idle?
    {
      loaded := r;
      ok, pos := Await(script, at);
      FoldToSplit(step, w, script, start, at, pos);
      if !ok { return; }
      loaded := ChangePolicy(r, script[pos]);
      pos := pos + 1;
      if job.phase.Tune? { return; }
      ok, pos := MarkRecord(loaded, script, pos, w, start);
    }

    method ChangePolicy(r: Record, m: Move) returns (loaded: Record)
      requires Valid() && Busy() && job.Applying? && job.phase == Load(r) && m.Work? && m.outcome.Succeeds?
      modifies this
      ensures View() == step(old(View()), m) && Busy()
      ensures job == Applying(old(job).pending, Tune(loaded)) || job == Applying(old(job).pending, Mark(loaded))
    {
      assert step(View(), m) == NamespaceGuard.Next(View(), m);
      loaded := r;
      var ns := job.pending[0].ns;
      if loaded.current && Listed(live[ns].policy, m.outcome.unreadBefore) == loaded.applied {
        job := Applying(job.pending, Tune(loaded));
        return;
      }
      live := live[ns := live[ns].(policy := GuardRules)];
      loaded := loaded.(current := true);
      loaded := loaded.(applied := Listed(live[ns].policy, m.outcome.unreadAfter));
      job := Applying(job.pending, Mark(loaded));
    }

    method MarkRecord(r: Record, script: seq<Move>, at: nat, ghost w: World, ghost start: nat) returns (ok: bool, pos: nat)
      requires Valid() && start <= at <= |script| && Busy() && job.Applying? && job.phase == Mark(r)
      requires View() == FoldTo(step, w, script, start, at)
      requires forall m :: m in script ==> m != Reboot
      modifies this
      ensures at <= pos <= |script| && View() == FoldTo(step, w, script, start, pos)
      ensures ok ==> Busy() && job == Applying(old(job).pending, Tune(r))
      ensures !ok ==> pos == |script| || job.Idle?
    {
      ok, pos := Await(script, at);
      FoldToSplit(step, w, script, start, at, pos);
      if !ok { return; }
      ghost var v := View();
      assert step(v, script[pos]) == NamespaceGuard.Next(v, script[pos]);
      records := records[(boot, live[job.pending[0].ns].inode) := r];
      job := Applying(job.pending, Tune(r));
      pos := pos + 1;
    }

    /** Turn MPTCP off where the snapshot knows the setting, or put it back. */
    method SetMptcp(r: Record, script: seq<Move>, at: nat, ghost w: World, ghost start: nat) returns (ok: bool, pos: nat)
      requires Valid() && start <= at <= |script| && Busy() && job.phase == Tune(r)
      requires View() == FoldTo(step, w, script, start, at)
      requires forall m :: m in script ==> m != Reboot
      modifies this
      ensures at <= pos <= |script| && View() == FoldTo(step, w, script, start, pos)
      ensures ok ==> PinnedLive() && job == if old(job).Applying? then Applying(old(job).pending[1..], Look)
                                            else Restoring(old(job).scan, old(job).pending[1..], Look)
      ensures !ok ==> pos == |script| || job.Idle?
    {
      ok, pos := Await(script, at);
      FoldToSplit(step, w, script, start, at, pos);
      if !ok { return; }
      ghost var v := View();
      assert step(v, script[pos]) == NamespaceGuard.Next(v, script[pos]);
      pos := pos + 1;
      var ns := job.pending[0].ns;
      if r.mptcp.Some? {
        if live[ns].mptcp.None? {
          job := Idle;
          return false, pos;
        }
        live := live[ns := live[ns].(mptcp := if job.Applying? then Some(false) else r.mptcp)];
      }
      job := if job.Applying? then Applying(job.pending[1..], Look) else Restoring(job.scan, job.pending[1..], Look);
    }

    /** apply: one namespace. */
    method Apply(script: seq<Move>, start: nat) returns (ok: bool, pos: nat)
      requires Valid() && start <= |script| && Busy() && job.Applying? && job.phase == Look
      requires forall m :: m in script ==> m != Reboot
      modifies this
      ensures start <= pos <= |script| && View() == FoldTo(step, old(View()), script, start, pos)
      ensures ok ==> PinnedLive() && job == Applying(old(job).pending[1..], Look)
      ensures !ok ==> pos == |script| || job.Idle?
    {
      ghost var w := View();
      var r;
      ok, r, pos := FindRecord(script, start);
      if !ok { return; }
      ok, r, pos := LoadRules(r, script, pos, w, start);
      if !ok { return; }
      ok, pos := SetMptcp(r, script, pos, w, start);
    }

    /** The rollback of one namespace, skipped when no record matches. */
    method Restore(script: seq<Move>, start: nat) returns (ok: bool, pos: nat)
      requires Valid() && start <= |script| && Busy() && job.Restoring? && job.phase == Look
      requires forall m :: m in script ==> m != Reboot
      modifies this
      ensures start <= pos <= |script| && View() == FoldTo(step, old(View()), script, start, pos)
      ensures ok ==> PinnedLive() && job == Restoring(old(job).scan, old(job).pending[1..], Look)
      ensures !ok ==> pos == |script| || job.Idle?
    {
      ok, pos := Await(script, start);
      if !ok { return; }
      ghost var w := View();
      assert step(w, script[pos]) == NamespaceGuard.Next(w, script[pos]);
      var group := job.pending[0];
      var n := live[group.ns];
      var key := (boot, n.inode);
      if key !in records || records[key].ids * group.ids == {} {
        job := Restoring(job.scan, job.pending[1..], Look);
        pos := pos + 1;
        return;
      }
      var r := records[key];
      live := live[group.ns := AdoptFirst(n, r, group).(policy := r.rules)];
      job := Restoring(job.scan, job.pending, Tune(r));
      pos := pos + 1;
      ok, pos := SetMptcp(r, script, pos, old(View()), start);
    }

    /** reconcile: pin the occupied namespaces, then apply to or roll back each.
        It is a run of the system, whatever containers do and wherever it ends;
        when it succeeds every namespace of the scan has been dealt with. */
    method Reconcile(order: seq<nat>, rollback: bool, script: seq<Move>) returns (ok: bool, pos: nat)
      requires Valid() && job.Idle? && Scans(View(), order)
      requires forall m :: m in script ==> m != Reboot
      modifies this
      ensures pos <= |script|
      ensures View() == FoldTo(step, step(old(View()), Begin(order, rollback)), script, 0, pos)
      ensures ok ==> job == if rollback then Restoring(Groups(old(View()), order), [], Look) else Applying([], Look)
      ensures !ok ==> pos == |script| || job.Idle?
    {
      assert step(View(), Begin(order, rollback)) == NamespaceGuard.Next(View(), Begin(order, rollback));
      var groups := Groups(World(boot, records, live, job), order);
      job := if rollback then Restoring(groups, groups, Look) else Applying(groups, Look);
      ghost var w := View();
      pos := 0;
      for i := 0 to |groups|
        invariant pos <= |script| && View() == FoldTo(step, w, script, 0, pos)
        invariant job == if rollback then Restoring(groups, groups[i..], Look) else Applying(groups[i..], Look)
        invariant PinnedLive()
      {
        ghost var at := pos;
        if rollback {
          ok, pos := Restore(script, pos);
        } else {
          ok, pos := Apply(script, pos);
        }
        FoldToSplit(step, w, script, 0, at, pos);
        if !ok { return; }
      }
      ok := true;
    }

    /** reconcile in verify mode: nothing is changed, and it succeeds exactly when every
        namespace of the scan verifies. */
    method Verify(order: seq<nat>, unreadable: set<nat>) returns (ok: bool)
      requires Scans(View(), order)
      ensures ok <==> forall n :: n in live && live[n].occupants != {} ==> Verified(View(), n, n in unreadable)
    {
      for i := 0 to |order|
        invariant forall j :: 0 <= j < i ==> Verified(View(), order[j], order[j] in unreadable)
      {
        var ns := order[i];
        var n := live[ns];
        var key := (boot, n.inode);
        if key !in records { return false; }
        var r := records[key];
        if !r.current || r.applied.None? || Listed(n.policy, ns in unreadable) != r.applied { return false; }
        if r.mptcp.Some? && n.mptcp != Some(false) { return false; }
      }
      ok := true;
    }
  }
}
