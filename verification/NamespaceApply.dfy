/** What a completed apply leaves in the namespaces of its scan. */
module NamespaceApply {
  import opened Wrappers
  import opened Runs
  import opened NamespaceGuard

  /** The record that apply goes by: the one on disk if it can be used, or a new snapshot. */
  function Base(w: World, g: Group): Record
    requires g.ns in w.live
  {
    if Usable(w, g) then w.records[Key(w, g)] else Snapshot(w.live[g.ns], g)
  }

  /** The rules are taken to be loaded already: a usable record says that they are, and what
      it says was listed after that is what is listed now. */
  predicate Skips(w: World, g: Group, o: Outcome)
    requires g.ns in w.live && o.Succeeds?
  {
    Usable(w, g) && Base(w, g).current && Base(w, g).applied == Listed(w.live[g.ns].policy, o.unreadBefore)
  }

  /** Nothing was listed after the rules had been loaded, and nothing is now: they are taken
      to be loaded although they are not. */
  predicate SkipsBlindly(w: World, g: Group, o: Outcome)
    requires g.ns in w.live && o.Succeeds?
  {
    && Usable(w, g) && w.records[Key(w, g)].current && w.records[Key(w, g)].applied.None?
    && w.live[g.ns].policy != GuardRules && (w.live[g.ns].policy == NoTable || o.unreadBefore)
  }

  /** What the record says afterwards. */
  function Final(w: World, g: Group, o: Outcome): Record
    requires g.ns in w.live && o.Succeeds?
  {
    if Skips(w, g, o) then Base(w, g) else Base(w, g).(current := true, applied := Listed(GuardRules, o.unreadAfter))
  }

  /** The outcome of the command that looks at the rules of a namespace, once it has come. */
  ghost function LoadOf(w: World, moves: seq<Move>, ns: nat): (o: Option<Outcome>)
    ensures o.Some? ==> o.value.Succeeds?
  {
    if moves == [] then None
    else
      var v, m := Run(w, moves[..|moves| - 1]), moves[|moves| - 1];
      if m.Work? && m.outcome.Succeeds? && Head(v, ns) && v.job.phase.Load? then Some(m.outcome)
      else LoadOf(w, moves[..|moves| - 1], ns)
  }

  // ----- one namespace on the way -----

  /** Nothing has been changed for it yet. */
  predicate Untouched(w: World, v: World, g: Group)
    requires g.ns in w.live && g.ns in v.live
  {
    var n, m, key := w.live[g.ns], v.live[g.ns], Key(w, g);
    && m.policy == n.policy && m.mptcp == n.mptcp
    && (key in v.records <==> key in w.records) && (key in w.records ==> v.records[key] == w.records[key])
  }

  predicate OnRecord(w: World, v: World, g: Group, r: Record)
    requires g.ns in w.live
  {
    Key(w, g) in v.records && v.records[Key(w, g)] == r
  }

  function FinalPolicy(w: World, g: Group, o: Outcome): Policy
    requires g.ns in w.live && o.Succeeds?
  {
    if Skips(w, g, o) then w.live[g.ns].policy else GuardRules
  }

  predicate IsNext(v: World, g: Group) { v.job.Applying? && v.job.pending != [] && v.job.pending[0] == g }

  /** Where the apply of one group stands. */
  predicate Stands(w: World, v: World, g: Group, lo: Option<Outcome>)
    requires g.ns in w.live && g.ns in v.live && v.job.Applying? && (lo.Some? ==> lo.value.Succeeds?)
  {
    var n, m, phase := w.live[g.ns], v.live[g.ns], v.job.phase;
    if IsNext(v, g) && phase.Load? then
      lo.None? && phase.rec == Base(w, g) && OnRecord(w, v, g, phase.rec) && m.policy == n.policy && m.mptcp == n.mptcp
    else if IsNext(v, g) && phase.Mark? then
      lo.Some? && !Skips(w, g, lo.value) && phase.rec == Final(w, g, lo.value) && m.policy == GuardRules && m.mptcp == n.mptcp
    else if IsNext(v, g) && phase.Tune? then
      && lo.Some? && phase.rec == Final(w, g, lo.value) && OnRecord(w, v, g, phase.rec)
      && m.policy == FinalPolicy(w, g, lo.value) && m.mptcp == n.mptcp
    else if g in v.job.pending then
      lo.None? && Untouched(w, v, g) && (IsNext(v, g) && phase.Write? ==> !Usable(w, g) && phase.rec == Base(w, g))
    else
      && lo.Some? && OnRecord(w, v, g, Final(w, g, lo.value)) && m.policy == FinalPolicy(w, g, lo.value)
      && m.mptcp == if Final(w, g, lo.value).mptcp.Some? then Some(false) else n.mptcp
  }

  ghost predicate Tracked(w: World, v: World, g: Group, lo: Option<Outcome>)
    requires g.ns in w.live && (lo.Some? ==> lo.value.Succeeds?)
  {
    && v.job.Applying? && g.ns in v.live && v.boot == w.boot && v.live[g.ns].inode == w.live[g.ns].inode
    && (forall h :: h in v.job.pending && h.ns == g.ns ==> h == g)
    && Stands(w, v, g, lo)
  }

  /** The load command of a group. */
  predicate Loads(v: World, m: Move, g: Group) {
    m.Work? && m.outcome.Succeeds? && Head(v, g.ns) && v.job.phase.Load?
  }

  lemma TrackedOther(w: World, v: World, m: Move, g: Group, lo: Option<Outcome>)
    requires Inv(v) && g.ns in w.live && (lo.Some? ==> lo.value.Succeeds?) && Tracked(w, v, g, lo)
    requires !m.Work? && Next(v, m).job.Applying? && g.ns in Next(v, m).live
    ensures Tracked(w, Next(v, m), g, lo)
  {
  }

  /** The command is for another group. */
  lemma TrackedElsewhere(w: World, v: World, o: Outcome, g: Group, lo: Option<Outcome>)
    requires Inv(v) && g.ns in w.live && (lo.Some? ==> lo.value.Succeeds?) && Tracked(w, v, g, lo)
    requires !IsNext(v, g) && Next(v, Work(o)).job.Applying? && g.ns in Next(v, Work(o)).live
    ensures Tracked(w, Next(v, Work(o)), g, lo)
  {
    var h := v.job.pending[0];
    assert h in v.job.pending && h.ns != g.ns;
    assert v.live[h.ns].inode != v.live[g.ns].inode;
    RestIsPending(v.job);
  }

  lemma TrackedNext(w: World, v: World, o: Outcome, g: Group, lo: Option<Outcome>)
    requires Inv(v) && g.ns in w.live && (lo.Some? ==> lo.value.Succeeds?) && Tracked(w, v, g, lo)
    requires IsNext(v, g) && Next(v, Work(o)).job.Applying? && g.ns in Next(v, Work(o)).live
    ensures Tracked(w, Next(v, Work(o)), g, if v.job.phase.Load? then Some(o) else lo)
  {
    RestIsPending(v.job);
    forall i | 0 < i < |v.job.pending|
      ensures v.job.pending[i].ns != g.ns
    {
      assert Pending(v.job)[0] == g && Pending(v.job)[i] == v.job.pending[i];
    }
    match v.job.phase
    case Look =>
    case Write(_) =>
    case Load(_) =>
    case Mark(_) =>
    case Tune(_) =>
  }

  // ----- a whole apply -----

  /** One apply, from its scan on, with whatever containers do meanwhile. */
  ghost predicate Applies(w: World, moves: seq<Move>) {
    forall i :: 0 <= i <= |moves| ==> Run(w, moves[..i]).job.Applying?
  }

  lemma AppliesShorter(w: World, moves: seq<Move>)
    requires moves != [] && Applies(w, moves)
    ensures Applies(w, moves[..|moves| - 1]) && Run(w, moves).job.Applying?
  {
    var most := moves[..|moves| - 1];
    forall i | 0 <= i <= |most|
      ensures Run(w, most[..i]).job.Applying?
    {
      PrefixRun(moves, i);
    }
    assert moves[..|moves|] == moves;
  }

  lemma TrackedStep(w: World, v: World, m: Move, g: Group, lo: Option<Outcome>)
    requires Inv(v) && g.ns in w.live && (lo.Some? ==> lo.value.Succeeds?) && Tracked(w, v, g, lo)
    requires Next(v, m).job.Applying? && g.ns in Next(v, m).live
    ensures Tracked(w, Next(v, m), g, if Loads(v, m, g) then Some(m.outcome) else lo)
  {
    if !m.Work? { TrackedOther(w, v, m, g, lo); }
    else if IsNext(v, g) { TrackedNext(w, v, m.outcome, g, lo); }
    else { TrackedElsewhere(w, v, m.outcome, g, lo); }
  }

  lemma {:induction false} TrackedRun(w: World, moves: seq<Move>, g: Group)
    requires Inv(w) && w.job.Applying? && w.job.phase == Look && g in w.job.pending
    requires Applies(w, moves) && Alive(w, moves, g.ns)
    ensures g.ns in w.live && Tracked(w, Run(w, moves), g, LoadOf(w, moves, g.ns))
  {
    AliveFromStart(w, moves, g.ns);
    if moves == [] {
      assert g in Pending(w.job);
    } else {
      var most, m := moves[..|moves| - 1], moves[|moves| - 1];
      AppliesShorter(w, moves);
      AliveShorter(w, moves, g.ns);
      TrackedRun(w, most, g);
      KeepsFrom(w, most);
      TrackedStep(w, Run(w, most), m, g, LoadOf(w, most, g.ns));
    }
  }

  /** The apply that a state is about to begin goes through its whole scan. */
  ghost predicate CompletesApply(w: World, order: seq<nat>, more: seq<Move>)
    requires Scans(w, order)
  {
    var begun := Next(w, Begin(order, false));
    Applies(begun, more) && Run(begun, more).job == Applying([], Look)
  }

  /** What a completed apply has done about one namespace. */
  ghost predicate Guards(w: World, v: World, ns: nat, o: Outcome)
    requires ns in w.live && ns in v.live && o.Succeeds?
  {
    var g, n, key := Group(ns, w.live[ns].occupants), v.live[ns], (w.boot, w.live[ns].inode);
    && v.boot == w.boot && n.inode == w.live[ns].inode && key in v.records
    && (n.policy == GuardRules <==> !SkipsBlindly(w, g, o))
    && n.mptcp == (if v.records[key].mptcp.Some? then Some(false) else w.live[ns].mptcp)
    && (Verified(v, ns, false) <==> if Skips(w, g, o) then w.records[key].applied.Some? else !o.unreadAfter)
  }

  /** A whole apply, begun in any run: every namespace of its scan that is there throughout
      has the guard's rules, unless its record says that nothing could be listed after an
      earlier load and nothing is listed now. Its MPTCP is off exactly where its record knows
      the setting. It verifies exactly when its rules could be listed after the load. */
  lemma ApplyGuardsExactly(first: seq<Move>, order: seq<nat>, more: seq<Move>, ns: nat) returns (o: Outcome)
    requires var w := Run(START, first); w.job.Idle? && Scans(w, order) && ns in order
    requires CompletesApply(Run(START, first), order, more)
    requires Alive(Next(Run(START, first), Begin(order, false)), more, ns)
    ensures var w := Run(START, first);
            var begun := Next(w, Begin(order, false));
            && ns in Run(begun, more).live && LoadOf(begun, more, ns) == Some(o) && Guards(w, Run(begun, more), ns, o)
  {
    RunKeeps(first);
    AppliedRun(first);
    o := ApplyGuards(Run(START, first), order, more, ns);
  }

  lemma ApplyGuards(w: World, order: seq<nat>, more: seq<Move>, ns: nat) returns (o: Outcome)
    requires Inv(w) && AppliedOk(w) && w.job.Idle? && Scans(w, order) && ns in order && CompletesApply(w, order, more)
    requires Alive(Next(w, Begin(order, false)), more, ns)
    ensures var begun := Next(w, Begin(order, false));
            && ns in Run(begun, more).live && LoadOf(begun, more, ns) == Some(o) && Guards(w, Run(begun, more), ns, o)
  {
    var begun := Next(w, Begin(order, false));
    var i :| 0 <= i < |order| && order[i] == ns;
    var g := Groups(w, order)[i];
    assert g in begun.job.pending && g == Group(ns, w.live[ns].occupants);
    NextKeeps(w, Begin(order, false));
    assert more[..|more|] == more;
    TrackedRun(begun, more, g);
    o := LoadOf(begun, more, ns).value;
    KeepsFrom(begun, more);
    AppliedStep(w, Begin(order, false));
    GuardedSo(begun, Run(begun, more), g, o);
  }

  lemma GuardedSo(w: World, v: World, g: Group, o: Outcome)
    requires Inv(w) && Inv(v) && g.ns in w.live && g.ns in v.live && g.ids == w.live[g.ns].occupants && o.Succeeds?
    requires v.job == Applying([], Look) && Tracked(w, v, g, Some(o)) && AppliedOk(w)
    ensures Guards(w, v, g.ns, o)
  {
  }

  // ----- that it gets through -----

  /** No namespace still to come has lost a setting that its record knows. */
  ghost predicate Settable(w: World) {
    && (forall g :: g in Pending(w.job) && g.ns in w.live && Usable(w, g) ==>
          w.records[Key(w, g)].mptcp.Some? ==> w.live[g.ns].mptcp.Some?)
    && (!w.job.Idle? && w.job.pending != [] && w.job.pending[0].ns in w.live && !w.job.phase.Look? ==>
          w.job.phase.rec.mptcp.Some? ==> w.live[w.job.pending[0].ns].mptcp.Some?)
  }

  /** How many commands are left. */
  function CommandsLeft(j: Job): nat
    requires !j.Idle?
  {
    5 * |j.pending| + match j.phase case Look => 4 case Write(_) => 3 case Load(_) => 2 case Mark(_) => 1 case Tune(_) => 0
  }

  lemma WorksOn(w: World)
    requires Inv(w) && Settable(w) && !w.job.Idle? && w.job.pending != []
    ensures var v := Next(w, Work(OK));
            && !v.job.Idle? && v.job.Applying? == w.job.Applying? && Settable(v) && CommandsLeft(v.job) < CommandsLeft(w.job)
            && v.live.Keys == w.live.Keys
  {
    var g := w.job.pending[0];
    assert g in Pending(w.job) && g.ns in w.live;
    RestIsPending(w.job);
    if w.job.Applying? { AppliesOn(w); } else { RestoresOn(w); }
  }

  lemma AppliesOn(w: World)
    requires Inv(w) && Settable(w) && w.job.Applying? && w.job.pending != [] && w.job.pending[0].ns in w.live
    requires forall g :: g in w.job.pending[1..] ==> g in w.job.pending && g.ns in w.live && g.ns != w.job.pending[0].ns
    ensures var v := Next(w, Work(OK));
            v.job.Applying? && Settable(v) && CommandsLeft(v.job) < CommandsLeft(w.job) && v.live.Keys == w.live.Keys
  {
    var g, v := w.job.pending[0], Next(w, Work(OK));
    ApplyStepFrame(w);
    forall h | h in Pending(v.job) && h.ns in v.live && Usable(v, h) && v.records[Key(v, h)].mptcp.Some?
      ensures v.live[h.ns].mptcp.Some?
    {
      if h.ns != g.ns {
        assert w.live[h.ns].inode != w.live[g.ns].inode;
        assert h in w.job.pending && Usable(w, h);
      } else {
        assert h == g;
      }
    }
  }

  /** What a command of an apply leaves as it is. */
  lemma ApplyStepFrame(w: World)
    requires Inv(w) && Settable(w) && w.job.Applying? && w.job.pending != [] && w.job.pending[0].ns in w.live
    ensures var g, v := w.job.pending[0], Next(w, Work(OK));
            && v.job.Applying? && CommandsLeft(v.job) < CommandsLeft(w.job)
            && (v.job.pending == w.job.pending || (v.job.pending == w.job.pending[1..] && v.job.phase == Look))
            && v.boot == w.boot && v.live.Keys == w.live.Keys
            && (forall a :: a in w.live ==> v.live[a].inode == w.live[a].inode && (w.live[a].mptcp.Some? ==> v.live[a].mptcp.Some?))
            && (forall k :: k != Key(w, g) ==> (k in v.records <==> k in w.records) && (k in w.records ==> v.records[k] == w.records[k]))
            && (v.job.pending == w.job.pending && !v.job.phase.Look? && v.job.phase.rec.mptcp.Some? ==> v.live[g.ns].mptcp.Some?)
            && (v.job.pending == w.job.pending && Usable(v, g) && v.records[Key(v, g)].mptcp.Some? ==> v.live[g.ns].mptcp.Some?)
  {
    assert w.job.pending[0] in Pending(w.job);
    assert |w.job.pending[1..]| < |w.job.pending|;
  }

  lemma RestoresOn(w: World)
    requires Inv(w) && Settable(w) && w.job.Restoring? && w.job.pending != [] && w.job.pending[0].ns in w.live
    requires forall g :: g in w.job.pending[1..] ==> g in w.job.pending && g.ns in w.live && g.ns != w.job.pending[0].ns
    ensures var v := Next(w, Work(OK));
            v.job.Restoring? && Settable(v) && CommandsLeft(v.job) < CommandsLeft(w.job) && v.live.Keys == w.live.Keys
  {
    var g, v := w.job.pending[0], Next(w, Work(OK));
    RestoreStepFrame(w);
    forall h | h in Pending(v.job) && h.ns in v.live && Usable(v, h) && v.records[Key(v, h)].mptcp.Some?
      ensures v.live[h.ns].mptcp.Some?
    {
      assert h in w.job.pending && Usable(w, h);
    }
  }

  /** What a command of a rollback leaves as it is. */
  lemma RestoreStepFrame(w: World)
    requires Inv(w) && Settable(w) && w.job.Restoring? && w.job.pending != [] && w.job.pending[0].ns in w.live
    ensures var v := Next(w, Work(OK));
            && v.job.Restoring? && CommandsLeft(v.job) < CommandsLeft(w.job)
            && (v.job.pending == w.job.pending || v.job.pending == w.job.pending[1..])
            && (v.job.phase == Look || (v.job.phase.Tune? && v.job.pending == w.job.pending && Usable(w, w.job.pending[0])
                                        && v.job.phase.rec == w.records[Key(w, w.job.pending[0])]))
            && v.boot == w.boot && v.records == w.records && v.live.Keys == w.live.Keys
            && forall a :: a in w.live ==> v.live[a].inode == w.live[a].inode && (w.live[a].mptcp.Some? ==> v.live[a].mptcp.Some?)
  {
  }

  /** From every state of an apply or a rollback, a number of commands that work gets through
      what is left of it, unless a namespace has lost a setting that its record knows. */
  lemma {:induction false} GetsThrough(w: World) returns (n: nat)
    requires Inv(w) && Settable(w) && !w.job.Idle?
    ensures var v := Run(w, seq(n, _ => Work(OK)));
            !v.job.Idle? && v.job.pending == [] && v.job.Applying? == w.job.Applying?
    decreases CommandsLeft(w.job)
  {
    if w.job.pending == [] {
      n := 0;
    } else {
      WorksOn(w);
      NextKeeps(w, Work(OK));
      n := GetsThrough(Next(w, Work(OK)));
      var rest := seq(n, _ => Work(OK));
      FoldJoin(Stepper(), w, [Work(OK)], rest);
      FoldOne(Stepper(), w, [], Work(OK));
      assert [] + [Work(OK)] == [Work(OK)];
      n := n + 1;
      assert seq(n, _ => Work(OK)) == [Work(OK)] + rest;
    }
  }

  // ----- an apply that leaves a namespace unguarded -----

  lemma ListedNothing() returns (moves: seq<Move>)
    ensures Run(START, moves)
            == World(0, map[(0, 7) := First(NoTable).(current := true, applied := None)],
                     map[0 := Before(NoTable).(policy := GuardRules, mptcp := Some(false))], Idle)
  {
    moves := Snapshotted(NoTable);
    BlindGuardSteps(Run(START, moves));
    moves := Then(Stepper(), START, moves, Work(Succeeds(false, true)));
    moves := Then(Stepper(), START, moves, Work(OK));
    moves := Then(Stepper(), START, moves, Work(OK));
    moves := Then(Stepper(), START, moves, Work(OK));
  }

  /** As GuardSteps, but the rules cannot be listed after they have been loaded. */
  lemma BlindGuardSteps(w: World)
    requires w == World(0, map[(0, 7) := First(NoTable)], map[0 := Before(NoTable)], Applying([Group(0, {"a"})], Load(First(NoTable))))
    ensures Next(Next(Next(w, Work(Succeeds(false, true))), Work(OK)), Work(OK))
            == World(0, map[(0, 7) := First(NoTable).(current := true, applied := None)],
                     map[0 := Before(NoTable).(policy := GuardRules, mptcp := Some(false))], Applying([], Look))
  {
    var list, done := [Group(0, {"a"})], First(NoTable).(current := true, applied := None);
    var loaded := map[0 := Before(NoTable).(policy := GuardRules)];
    assert Next(w, Work(Succeeds(false, true))) == World(0, w.records, loaded, Applying(list, Mark(done)));
    assert Next(Next(w, Work(Succeeds(false, true))), Work(OK)) == World(0, map[(0, 7) := done], loaded, Applying(list, Tune(done)));
    assert list[1..] == [];
  }

  /** After that load a rollback takes the rules away, and its record still says that they
      were loaded and that nothing was listed. */
  lemma RolledBackUnlisted() returns (moves: seq<Move>)
    ensures Run(START, moves)
            == World(0, map[(0, 7) := First(NoTable).(current := true, applied := None)], map[0 := Before(NoTable)], Idle)
  {
    moves := ListedNothing();
    moves := Then(Stepper(), START, moves, Begin([0], true));
    assert Run(START, moves).job == Restoring([Group(0, {"a"})], [Group(0, {"a"})], Look);
    assert "a" in {"a"} * {"a"};
    moves := Then(Stepper(), START, moves, Work(OK));
    assert Run(START, moves).job.phase.Tune?;
    moves := Then(Stepper(), START, moves, Work(OK));
    assert Run(START, moves).job == Restoring([Group(0, {"a"})], [], Look);
    moves := Then(Stepper(), START, moves, Work(OK));
  }

  /** The next apply then works from end to end and loads nothing. */
  lemma ApplyLeavesUnguarded() returns (moves: seq<Move>)
    ensures var w := Run(START, moves); w.job == Applying([], Look) && 0 in w.live && w.live[0].policy == NoTable
  {
    moves := RolledBackUnlisted();
    moves := Then(Stepper(), START, moves, Begin([0], false));
    assert Run(START, moves).job == Applying([Group(0, {"a"})], Look);
    assert "a" in {"a"} * {"a"};
    moves := Then(Stepper(), START, moves, Work(OK));
    SkipSteps(Run(START, moves));
    moves := Then(Stepper(), START, moves, Work(OK));
    moves := Then(Stepper(), START, moves, Work(OK));
  }

  lemma SkipSteps(w: World)
    requires w.job == Applying([Group(0, {"a"})], Load(First(NoTable).(current := true, applied := None)))
    requires w.live == map[0 := Before(NoTable)]
    ensures var v := Next(Next(w, Work(OK)), Work(OK)); v.job == Applying([], Look) && 0 in v.live && v.live[0].policy == NoTable
  {
    var v := Next(w, Work(OK));
    assert v == w.(job := Applying(w.job.pending, Tune(w.job.phase.rec)));
    assert [Group(0, {"a"})][1..] == [];
  }
}
