/** The namespace guard: one durable snapshot per network namespace, written
    before the first change, and the rollback that reads it back.

    A namespace is identified by a number of its own; its inode may be used again
    after it is gone.  Commands fail without effect, and a crash between any two
    of them leaves the state directory and the kernel as they are.  Only the
    guard changes the policy or the MPTCP setting of a namespace. */
module NamespaceGuard {
  import opened Wrappers
  import opened Runs

  /** The content of the owned table: none, the guard's own rules, or others. */
  datatype Policy = NoTable | GuardRules | Foreign(text: string)

  /** A saved record: the snapshot, and what the guard last loaded. */
  datatype Record = Record(ids: set<string>, mptcp: Option<bool>, rules: Policy, current: bool, applied: Option<Policy>)

  /** A live namespace.  The last four fields are bookkeeping that no command
      reads: its original values, whether a record was ever used for it, and the
      recorded containers that have occupied it ever since. */
  datatype Namespace = Namespace(
    inode: nat, policy: Policy, mptcp: Option<bool>, occupants: set<string>,
    original: Policy, originalMptcp: Option<bool>, adopted: bool, kept: set<string>)

  /** A pinned namespace with the containers the scan found in it. */
  datatype Group = Group(ns: nat, ids: set<string>)

  datatype Phase = Look | Write(rec: Record) | Load(rec: Record) | Mark(rec: Record) | Tune(rec: Record)

  /** A rollback goes through the groups of its scan; the first ones are done. */
  datatype Job =
    | Idle
    | Applying(pending: seq<Group>, phase: Phase)
    | Restoring(scan: seq<Group>, pending: seq<Group>, phase: Phase)

  datatype World = World(boot: nat, records: map<(nat, nat), Record>, live: map<nat, Namespace>, job: Job)

  /** The outcome of the next command.  Listing the loaded table for its hash may
      fail on its own, before the rules are loaded or after. */
  datatype Outcome = Succeeds(unreadBefore: bool, unreadAfter: bool) | Fails

  datatype Move =
    | Start(ns: nat, inode: nat, policy: Policy, mptcp: Option<bool>, id: string)
    | Join(ns: nat, id: string)
    | Stop(ns: nat, id: string)
    | Vanish(ns: nat)
    | Begin(order: seq<nat>, rollback: bool)
    | Work(outcome: Outcome)
    | Die
    | Reboot

  const START := World(0, map[], map[], Idle)

  function Pending(j: Job): seq<Group> { if j.Idle? then [] else j.pending }

  predicate Pinned(w: World, ns: nat) {
    exists g :: g in Pending(w.job) && g.ns == ns
  }

  predicate InodeFree(w: World, inode: nat) {
    forall n :: n in w.live ==> w.live[n].inode != inode
  }

  predicate Elsewhere(w: World, id: string) {
    exists n :: n in w.live && id in w.live[n].occupants
  }

  function Key(w: World, g: Group): (nat, nat)
    requires g.ns in w.live
  {
    (w.boot, w.live[g.ns].inode)
  }

  /** A record is used only for a namespace still holding one of its containers. */
  predicate Usable(w: World, g: Group)
    requires g.ns in w.live
  {
    Key(w, g) in w.records && w.records[Key(w, g)].ids * g.ids != {}
  }

  function Snapshot(n: Namespace, g: Group): Record {
    Record(g.ids, n.mptcp, n.policy, false, None)
  }

  predicate Original(n: Namespace, r: Record) {
    r.rules == n.original && r.mptcp == n.originalMptcp
  }

  /** From now on this record stands for the namespace, on behalf of the recorded
      containers that the scan found in it and that are still there. */
  function Adopt(n: Namespace, r: Record, g: Group): Namespace {
    n.(adopted := true, kept := r.ids * g.ids * n.occupants)
  }

  function AdoptFirst(n: Namespace, r: Record, g: Group): Namespace {
    if n.adopted then n else Adopt(n, r, g)
  }

  /** What listing the owned table shows: nothing when it is absent. */
  function Listed(policy: Policy, unreadable: bool): Option<Policy> {
    if unreadable || policy == NoTable then None else Some(policy)
  }

  /** The next command for the namespace at the head of the list. */
  function ApplyStep(w: World, o: Outcome): World
    requires w.job.Applying? && w.job.pending != [] && w.job.pending[0].ns in w.live && o.Succeeds?
  {
    var Applying(pending, phase) := w.job;
    var g := pending[0];
    var n := w.live[g.ns];
    var key := Key(w, g);
    match phase
    case Look =>
      if Usable(w, g) then
        var r := w.records[key];
        w.(live := w.live[g.ns := AdoptFirst(n, r, g)], job := Applying(pending, Load(r)))
      else w.(job := Applying(pending, Write(Snapshot(n, g))))
    case Write(r) =>
      w.(records := w.records[key := r], live := w.live[g.ns := Adopt(n, r, g)], job := Applying(pending, Load(r)))
    case Load(r) =>
      if r.current && r.applied == Listed(n.policy, o.unreadBefore) then w.(job := Applying(pending, Tune(r)))
      else
        w.(live := w.live[g.ns := n.(policy := GuardRules)],
           job := Applying(pending, Mark(r.(current := true, applied := Listed(GuardRules, o.unreadAfter)))))
    case Mark(r) =>
      w.(records := w.records[key := r], job := Applying(pending, Tune(r)))
    case Tune(r) =>
      if r.mptcp.None? then w.(job := Applying(pending[1..], Look))
      else if n.mptcp.None? then w.(job := Idle)
      else w.(live := w.live[g.ns := n.(mptcp := Some(false))], job := Applying(pending[1..], Look))
  }

  function RestoreStep(w: World): World
    requires w.job.Restoring? && w.job.pending != [] && w.job.pending[0].ns in w.live
  {
    var Restoring(scan, pending, phase) := w.job;
    var g := pending[0];
    var n := w.live[g.ns];
    if phase.Tune? then
      if phase.rec.mptcp.None? then w.(job := Restoring(scan, pending[1..], Look))
      else if n.mptcp.None? then w.(job := Idle)
      else w.(live := w.live[g.ns := n.(mptcp := phase.rec.mptcp)], job := Restoring(scan, pending[1..], Look))
    else if !Usable(w, g) then w.(job := Restoring(scan, pending[1..], Look))
    else
      var r := w.records[Key(w, g)];
      w.(live := w.live[g.ns := AdoptFirst(n, r, g).(policy := r.rules)], job := Restoring(scan, pending, Tune(r)))
  }

  /** The scan: every occupied namespace, in some order. */
  predicate Scans(w: World, order: seq<nat>) {
    && (forall i, j :: 0 <= i < j < |order| ==> order[i] != order[j])
    && (forall n :: n in order ==> n in w.live && w.live[n].occupants != {})
    && (forall n :: n in w.live && w.live[n].occupants != {} ==> n in order)
  }

  function Groups(w: World, order: seq<nat>): seq<Group>
    requires forall n :: n in order ==> n in w.live
  {
    seq(|order|, i requires 0 <= i < |order| => Group(order[i], w.live[order[i]].occupants))
  }

  function Next(w: World, m: Move): World {
    match m
    case Start(ns, inode, policy, mptcp, id) =>
      if ns in w.live || !InodeFree(w, inode) || Elsewhere(w, id) then w
      else w.(live := w.live[ns := Namespace(inode, policy, mptcp, {id}, policy, mptcp, false, {})])
    case Join(ns, id) =>
      if ns !in w.live || w.live[ns].occupants == {} || Elsewhere(w, id) then w
      else w.(live := w.live[ns := w.live[ns].(occupants := w.live[ns].occupants + {id})])
    case Stop(ns, id) =>
      if ns !in w.live then w
      else w.(live := w.live[ns := w.live[ns].(occupants := w.live[ns].occupants - {id}, kept := w.live[ns].kept - {id})])
    case Vanish(ns) =>
      if ns !in w.live || w.live[ns].occupants != {} || Pinned(w, ns) then w
      else w.(live := w.live - {ns})
    case Begin(order, rollback) =>
      if !w.job.Idle? || !Scans(w, order) then w
      else w.(job := if rollback then Restoring(Groups(w, order), Groups(w, order), Look) else Applying(Groups(w, order), Look))
    case Work(o) =>
      if w.job.Idle? || w.job.pending == [] || o.Fails? || w.job.pending[0].ns !in w.live then w.(job := Idle)
      else if w.job.Applying? then ApplyStep(w, o) else RestoreStep(w)
    case Die => w.(job := Idle)
    case Reboot => World(w.boot + 1, w.records, map[], Idle)
  }

  function Stepper(): (World, Move) -> World { (w, m) => Next(w, m) }

  function Run(w: World, moves: seq<Move>): World { Fold(Stepper(), w, moves) }

  // ----- the invariant -----

  predicate Changed(n: Namespace) { n.policy != n.original || n.mptcp != n.originalMptcp }

  /** What a rollback by a record would leave is the original. */
  predicate Restorable(n: Namespace, r: Record) {
    r.rules == n.original && (r.mptcp.Some? ==> r.mptcp == n.originalMptcp)
  }

  /** Untouched until a record is used; from then on a record is on disk. */
  ghost predicate NamespaceOk(w: World, n: Namespace) {
    && n.kept <= n.occupants
    && (!n.adopted ==> !Changed(n) && n.kept == {})
    && (n.adopted ==>
          && (w.boot, n.inode) in w.records
          && n.kept <= w.records[(w.boot, n.inode)].ids
          && (w.records[(w.boot, n.inode)].mptcp.None? ==> n.mptcp == n.originalMptcp))
    && (n.originalMptcp.None? <==> n.mptcp.None?)
  }

  ghost predicate InodesDiffer(w: World) {
    forall a, b :: a in w.live && b in w.live && a != b ==> w.live[a].inode != w.live[b].inode
  }

  /** A recorded container that stayed was seen by the scan. */
  ghost predicate PendingOk(w: World) {
    && (forall i, j :: 0 <= i < j < |Pending(w.job)| ==> Pending(w.job)[i].ns != Pending(w.job)[j].ns)
    && forall g :: g in Pending(w.job) ==> g.ns in w.live && w.live[g.ns].kept <= g.ids
  }

  predicate SameSnapshot(r: Record, s: Record) {
    r.ids == s.ids && r.mptcp == s.mptcp && r.rules == s.rules
  }

  ghost predicate PhaseOk(w: World) {
    !w.job.Idle? && w.job.pending != [] && w.job.pending[0].ns in w.live ==>
      var g := w.job.pending[0];
      var n := w.live[g.ns];
      match w.job.phase
      case Look => true
      case Write(r) => w.job.Applying? && r == Snapshot(n, g) && !Usable(w, g)
      case Load(r) => n.adopted && Key(w, g) in w.records && SameSnapshot(r, w.records[Key(w, g)]) && w.job.Applying?
      case Mark(r) => n.adopted && Key(w, g) in w.records && SameSnapshot(r, w.records[Key(w, g)]) && w.job.Applying?
      case Tune(r) =>
        && n.adopted && Key(w, g) in w.records && SameSnapshot(r, w.records[Key(w, g)])
        && (w.job.Restoring? ==> n.policy == r.rules && Usable(w, g))
  }

  predicate InScan(scan: seq<Group>, ns: nat) {
    exists g :: g in scan && g.ns == ns
  }

  /** A rollback has scanned every namespace that is kept, and is at some point of its scan. */
  ghost predicate ScanOk(w: World) {
    w.job.Restoring? ==>
      var Restoring(scan, pending, _) := w.job;
      && |pending| <= |scan| && scan[|scan| - |pending|..] == pending
      && (forall i, j :: 0 <= i < j < |scan| ==> scan[i].ns != scan[j].ns)
      && (forall g :: g in scan && g.ns in w.live ==> w.live[g.ns].kept <= g.ids)
      && (forall a :: a in w.live && w.live[a].kept != {} ==> InScan(scan, a))
  }

  predicate IsRestored(n: Namespace, r: Record) {
    n.policy == r.rules && (r.mptcp.Some? ==> n.mptcp == r.mptcp)
  }

  /** Rolling back, every namespace of the scan that has a usable record and is no
      longer pending is as the record says. */
  ghost predicate RestoredOk(w: World) {
    w.job.Restoring? ==>
      forall g :: g in w.job.scan && g !in w.job.pending && g.ns in w.live && w.live[g.ns].adopted && Usable(w, g) ==>
        IsRestored(w.live[g.ns], w.records[Key(w, g)])
  }

  ghost predicate Inv(w: World) {
    && (forall a :: a in w.live ==> NamespaceOk(w, w.live[a]))
    && InodesDiffer(w) && PendingOk(w) && PhaseOk(w) && ScanOk(w) && RestoredOk(w)
  }

  lemma StartKeeps(w: World, ns: nat, inode: nat, policy: Policy, mptcp: Option<bool>, id: string)
    requires Inv(w)
    ensures Inv(Next(w, Start(ns, inode, policy, mptcp, id)))
  {
  }

  lemma OccupancyKeeps(w: World, ns: nat, occupants: set<string>, kept: set<string>)
    requires Inv(w) && ns in w.live
    requires kept <= w.live[ns].kept && kept <= occupants
    ensures Inv(w.(live := w.live[ns := w.live[ns].(occupants := occupants, kept := kept)]))
  {
  }

  lemma VanishKeeps(w: World, ns: nat)
    requires Inv(w)
    ensures Inv(Next(w, Vanish(ns)))
  {
  }

  lemma BeginKeeps(w: World, order: seq<nat>, rollback: bool)
    requires Inv(w)
    ensures Inv(Next(w, Begin(order, rollback)))
  {
    if w.job.Idle? && Scans(w, order) {
      var v := Next(w, Begin(order, rollback));
      forall a | a in w.live
        ensures NamespaceOk(v, v.live[a]) && (w.live[a].kept != {} ==> InScan(Groups(w, order), a))
      {
        assert NamespaceOk(w, w.live[a]);
        if w.live[a].kept != {} { ScanCovers(w, order, a); }
      }
      ScanIsPending(w, order);
    }
  }

  lemma ScanCovers(w: World, order: seq<nat>, a: nat)
    requires Scans(w, order) && a in w.live && w.live[a].occupants != {}
    ensures InScan(Groups(w, order), a)
  {
    var i :| 0 <= i < |order| && order[i] == a;
    assert Groups(w, order)[i] in Groups(w, order);
  }

  lemma ScanIsPending(w: World, order: seq<nat>)
    requires Scans(w, order) && forall a :: a in w.live ==> NamespaceOk(w, w.live[a])
    ensures var scan := Groups(w, order);
            && (forall i, j :: 0 <= i < j < |scan| ==> scan[i].ns != scan[j].ns)
            && (forall g :: g in scan ==> g.ns in w.live && w.live[g.ns].kept <= g.ids)
  {
    forall g | g in Groups(w, order)
      ensures g.ns in w.live && w.live[g.ns].kept <= g.ids
    {
      assert NamespaceOk(w, w.live[g.ns]);
    }
  }

  /** Everything about the other namespaces survives a step on one of them. */
  lemma OthersKept(w: World, v: World, ns: nat)
    requires Inv(w) && ns in w.live && v.boot == w.boot
    requires v.live.Keys == w.live.Keys && (forall a :: a in w.live && a != ns ==> v.live[a] == w.live[a])
    requires v.live[ns].inode == w.live[ns].inode
    requires forall k :: k != (w.boot, w.live[ns].inode) ==>
               (k in w.records <==> k in v.records) && (k in w.records ==> v.records[k] == w.records[k])
    ensures InodesDiffer(v)
    ensures forall a :: a in w.live && a != ns ==> NamespaceOk(v, v.live[a])
  {
    forall a | a in w.live && a != ns ensures NamespaceOk(v, v.live[a]) {
      assert NamespaceOk(w, w.live[a]);
    }
  }

  lemma LookKeeps(w: World, o: Outcome)
    requires Inv(w) && w.job.Applying? && w.job.pending != [] && w.job.pending[0].ns in w.live && o.Succeeds?
    requires w.job.phase == Look
    ensures Inv(ApplyStep(w, o))
  {
    var g := w.job.pending[0];
    var v := ApplyStep(w, o);
    assert g in Pending(w.job) && NamespaceOk(w, w.live[g.ns]);
    OthersKept(w, v, g.ns);
  }

  lemma WriteKeeps(w: World, o: Outcome)
    requires Inv(w) && w.job.Applying? && w.job.pending != [] && w.job.pending[0].ns in w.live && o.Succeeds?
    requires w.job.phase.Write?
    ensures Inv(ApplyStep(w, o))
  {
    var g := w.job.pending[0];
    var v := ApplyStep(w, o);
    assert g in Pending(w.job) && NamespaceOk(w, w.live[g.ns]);
    OthersKept(w, v, g.ns);
    KeptIsUsable(w, g);
    assert w.live[g.ns].kept == {};
    assert PendingOk(v) by {
      forall h | h in Pending(v.job) ensures h.ns in v.live && v.live[h.ns].kept <= h.ids {
        assert h in Pending(w.job);
      }
    }
    assert NamespaceOk(v, v.live[g.ns]);
  }

  lemma KeptIsUsable(w: World, g: Group)
    requires Inv(w) && g in Pending(w.job)
    ensures w.live[g.ns].kept != {} ==> Usable(w, g)
  {
    var n := w.live[g.ns];
    assert NamespaceOk(w, n);
    if n.kept != {} {
      var id :| id in n.kept;
      assert id in w.records[Key(w, g)].ids * g.ids;
    }
  }

  lemma LoadKeeps(w: World, o: Outcome)
    requires Inv(w) && w.job.Applying? && w.job.pending != [] && w.job.pending[0].ns in w.live && o.Succeeds?
    requires w.job.phase.Load? || w.job.phase.Mark?
    ensures Inv(ApplyStep(w, o))
  {
    var g := w.job.pending[0];
    var v := ApplyStep(w, o);
    assert g in Pending(w.job) && NamespaceOk(w, w.live[g.ns]);
    OthersKept(w, v, g.ns);
    assert NamespaceOk(v, v.live[g.ns]);
  }

  lemma RestIsPending(j: Job)
    requires !j.Idle? && j.pending != []
    ensures forall g :: g in j.pending[1..] ==> g in j.pending
    ensures forall g :: g in j.pending ==> g == j.pending[0] || g in j.pending[1..]
  {
  }

  lemma TuneKeeps(w: World, o: Outcome)
    requires Inv(w) && w.job.Applying? && w.job.pending != [] && w.job.pending[0].ns in w.live && o.Succeeds?
    requires w.job.phase.Tune?
    ensures Inv(ApplyStep(w, o))
  {
    var g := w.job.pending[0];
    var v := ApplyStep(w, o);
    assert g in Pending(w.job) && NamespaceOk(w, w.live[g.ns]);
    OthersKept(w, v, g.ns);
    RestIsPending(w.job);
    assert NamespaceOk(v, v.live[g.ns]);
    assert PendingOk(v);
  }

  lemma RestoreRulesKeeps(w: World)
    requires Inv(w) && w.job.Restoring? && w.job.pending != [] && w.job.pending[0].ns in w.live
    requires !w.job.phase.Tune? && Usable(w, w.job.pending[0])
    ensures Inv(RestoreStep(w))
  {
    var g := w.job.pending[0];
    var v := RestoreStep(w);
    assert g in Pending(w.job) && NamespaceOk(w, w.live[g.ns]);
    OthersKept(w, v, g.ns);
    assert NamespaceOk(v, v.live[g.ns]);
    assert PendingOk(v) && PhaseOk(v);
    RestoreRulesScan(w);
  }

  lemma RestoreRulesScan(w: World)
    requires ScanOk(w) && RestoredOk(w)
    requires w.job.Restoring? && w.job.pending != [] && w.job.pending[0].ns in w.live
    requires !w.job.phase.Tune? && Usable(w, w.job.pending[0])
    requires w.live[w.job.pending[0].ns].kept <= w.job.pending[0].ids
    ensures ScanOk(RestoreStep(w)) && RestoredOk(RestoreStep(w))
  {
    HeadInScan(w);
    var v := RestoreStep(w);
    forall g | g in v.job.scan && g !in v.job.pending && g.ns in v.live && v.live[g.ns].adopted && Usable(v, g)
      ensures IsRestored(v.live[g.ns], v.records[Key(v, g)])
    {
      assert g != w.job.pending[0];
    }
  }

  /** The head of the list is one of the scan, and the only one with its namespace. */
  lemma HeadInScan(w: World)
    requires ScanOk(w) && w.job.Restoring? && w.job.pending != []
    ensures w.job.pending[0] in w.job.scan
    ensures forall g :: g in w.job.scan && g.ns == w.job.pending[0].ns ==> g == w.job.pending[0]
    ensures w.job.pending[0] !in w.job.pending[1..]
  {
    var Restoring(scan, pending, _) := w.job;
    assert pending[0] == scan[|scan| - |pending|];
    forall i | 0 < i < |pending| ensures pending[i] != pending[0] {
      assert pending[i] == scan[|scan| - |pending| + i];
    }
  }

  /** The head of the list is done: as its record says, or it had none to use. */
  lemma RestoreNextKeeps(w: World, n: Namespace)
    requires Inv(w) && w.job.Restoring? && w.job.pending != [] && w.job.pending[0].ns in w.live
    requires n.inode == w.live[w.job.pending[0].ns].inode && n.kept == w.live[w.job.pending[0].ns].kept
    requires NamespaceOk(w, n)
    requires n.adopted && Usable(w, w.job.pending[0]) ==> IsRestored(n, w.records[Key(w, w.job.pending[0])])
    ensures Inv(w.(live := w.live[w.job.pending[0].ns := n], job := Restoring(w.job.scan, w.job.pending[1..], Look)))
  {
    var g := w.job.pending[0];
    var v := w.(live := w.live[g.ns := n], job := Restoring(w.job.scan, w.job.pending[1..], Look));
    assert g in Pending(w.job);
    OthersKept(w, v, g.ns);
    assert NamespaceOk(v, v.live[g.ns]);
    PendingRest(w, n);
    RestoreNextScan(w, n);
  }

  lemma PendingRest(w: World, n: Namespace)
    requires PendingOk(w) && w.job.Restoring? && w.job.pending != [] && w.job.pending[0].ns in w.live
    requires n.kept == w.live[w.job.pending[0].ns].kept
    ensures var v := w.(live := w.live[w.job.pending[0].ns := n], job := Restoring(w.job.scan, w.job.pending[1..], Look));
            PendingOk(v) && PhaseOk(v)
  {
    RestIsPending(w.job);
    var pending := w.job.pending[1..];
    assert forall i :: 0 <= i < |pending| ==> pending[i] == Pending(w.job)[i + 1];
  }

  lemma RestoreNextScan(w: World, n: Namespace)
    requires ScanOk(w) && RestoredOk(w) && w.job.Restoring? && w.job.pending != [] && w.job.pending[0].ns in w.live
    requires n.inode == w.live[w.job.pending[0].ns].inode && n.kept == w.live[w.job.pending[0].ns].kept
    requires n.adopted && Usable(w, w.job.pending[0]) ==> IsRestored(n, w.records[Key(w, w.job.pending[0])])
    ensures var v := w.(live := w.live[w.job.pending[0].ns := n], job := Restoring(w.job.scan, w.job.pending[1..], Look));
            ScanOk(v) && RestoredOk(v)
  {
    var v := w.(live := w.live[w.job.pending[0].ns := n], job := Restoring(w.job.scan, w.job.pending[1..], Look));
    RestIsPending(w.job);
    HeadInScan(w);
    assert ScanOk(v);
    forall g | g in v.job.scan && g !in v.job.pending && g.ns in v.live && v.live[g.ns].adopted && Usable(v, g)
      ensures IsRestored(v.live[g.ns], v.records[Key(v, g)])
    {
      assert Usable(w, g) && Key(w, g) == Key(v, g);
    }
  }

  lemma RestoreKeeps(w: World)
    requires Inv(w) && w.job.Restoring? && w.job.pending != [] && w.job.pending[0].ns in w.live
    ensures Inv(RestoreStep(w))
  {
    var g := w.job.pending[0];
    var n := w.live[g.ns];
    assert g in Pending(w.job) && NamespaceOk(w, n);
    if w.job.phase.Tune? {
      var r := w.job.phase.rec;
      if r.mptcp.None? {
        RestoreNextKeeps(w, n);
        assert w.live == w.live[g.ns := n];
      } else if n.mptcp.Some? {
        RestoreNextKeeps(w, n.(mptcp := r.mptcp));
      }
    } else if Usable(w, g) {
      RestoreRulesKeeps(w);
    } else {
      KeptIsUsable(w, g);
      RestoreNextKeeps(w, n);
      assert w.live == w.live[g.ns := n];
    }
  }

  lemma NextKeeps(w: World, m: Move)
    requires Inv(w)
    ensures Inv(Next(w, m))
  {
    match m
    case Start(ns, inode, policy, mptcp, id) => StartKeeps(w, ns, inode, policy, mptcp, id);
    case Join(ns, id) =>
      if ns in w.live {
        assert NamespaceOk(w, w.live[ns]);
        OccupancyKeeps(w, ns, w.live[ns].occupants + {id}, w.live[ns].kept);
      }
    case Stop(ns, id) =>
      if ns in w.live {
        assert NamespaceOk(w, w.live[ns]);
        OccupancyKeeps(w, ns, w.live[ns].occupants - {id}, w.live[ns].kept - {id});
      }
    case Vanish(ns) => VanishKeeps(w, ns);
    case Begin(order, rollback) => BeginKeeps(w, order, rollback);
    case Work(o) =>
      if !w.job.Idle? && w.job.pending != [] && o.Succeeds? && w.job.pending[0].ns in w.live {
        if w.job.Restoring? { RestoreKeeps(w); }
        else {
          match w.job.phase
          case Look => LookKeeps(w, o);
          case Write(_) => WriteKeeps(w, o);
          case Tune(_) => TuneKeeps(w, o);
          case _ => LoadKeeps(w, o);
        }
      }
    case Die =>
    case Reboot =>
  }

  lemma KeepsFrom(w: World, moves: seq<Move>)
    requires Inv(w)
    ensures Inv(Run(w, moves))
  {
    forall v, m | Inv(v)
      ensures Inv(Stepper()(v, m))
    {
      NextKeeps(v, m);
    }
    FoldKeeps(Stepper(), w, moves, v => Inv(v));
  }

  lemma RunKeeps(moves: seq<Move>)
    ensures Inv(Run(START, moves))
  {
    KeepsFrom(START, moves);
  }

  // ----- what every run guarantees -----

  /** The record of a namespace holds its original. */
  predicate OnDisk(w: World, ns: nat)
    requires ns in w.live
  {
    var n := w.live[ns];
    (w.boot, n.inode) in w.records && Original(n, w.records[(w.boot, n.inode)])
  }

  predicate Head(w: World, ns: nat) {
    !w.job.Idle? && w.job.pending != [] && w.job.pending[0].ns == ns && ns in w.live
  }

  /** The command that writes a new snapshot, after no usable record was found. */
  predicate Overwrites(w: World, m: Move, ns: nat) {
    m.Work? && m.outcome.Succeeds? && Head(w, ns) && w.job.Applying? && w.job.phase.Write?
  }

  /** The command that first uses a record found on disk. */
  predicate FirstUses(w: World, m: Move, ns: nat) {
    && m.Work? && m.outcome.Succeeds? && Head(w, ns) && !w.live[ns].adopted && Usable(w, w.job.pending[0])
    && (if w.job.Applying? then w.job.phase.Look? else !w.job.phase.Tune?)
  }

  /** The original is lost when a snapshot of a namespace already changed replaces the
      record, and it is missing from the start when a record that says otherwise is used. */
  ghost predicate Lost(moves: seq<Move>, ns: nat) {
    moves != [] &&
      var w, m := Run(START, moves[..|moves| - 1]), moves[|moves| - 1];
      if ns !in w.live || ns !in Next(w, m).live then false
      else if Overwrites(w, m, ns) then Changed(w.live[ns])
      else if FirstUses(w, m, ns) then !Original(w.live[ns], w.records[Key(w, w.job.pending[0])])
      else Lost(moves[..|moves| - 1], ns)
  }

  /** How one step decides whether the original is on disk. */
  predicate Decides(w: World, m: Move, ns: nat)
    requires ns in w.live && ns in Next(w, m).live
  {
    var v := Next(w, m);
    && v.live[ns].adopted == (w.live[ns].adopted || Overwrites(w, m, ns) || FirstUses(w, m, ns))
    && (v.live[ns].adopted ==>
          OnDisk(v, ns) == if Overwrites(w, m, ns) then !Changed(w.live[ns])
                           else if FirstUses(w, m, ns) then Original(w.live[ns], w.records[Key(w, w.job.pending[0])])
                           else OnDisk(w, ns))
  }

  lemma StepDecides(w: World, m: Move, ns: nat)
    requires Inv(w) && ns in w.live && ns in Next(w, m).live
    ensures m != Reboot && Decides(w, m, ns)
  {
    NextKeeps(w, m);
    assert NamespaceOk(w, w.live[ns]) && NamespaceOk(Next(w, m), Next(w, m).live[ns]);
    if m.Work? && m.outcome.Succeeds? && Head(w, ns) {
      HeadDecides(w, m, ns);
    } else {
      OtherDecides(w, m, ns);
    }
  }

  lemma OtherDecides(w: World, m: Move, ns: nat)
    requires Inv(w) && ns in w.live && !(m.Work? && m.outcome.Succeeds? && Head(w, ns)) && NamespaceOk(w, w.live[ns])
    requires ns in Next(w, m).live && NamespaceOk(Next(w, m), Next(w, m).live[ns])
    ensures m != Reboot && Decides(w, m, ns)
  {
  }

  lemma HeadDecides(w: World, m: Move, ns: nat)
    requires Inv(w) && m.Work? && m.outcome.Succeeds? && Head(w, ns) && NamespaceOk(w, w.live[ns])
    requires ns in Next(w, m).live && NamespaceOk(Next(w, m), Next(w, m).live[ns])
    ensures Decides(w, m, ns)
  {
  }

  lemma NewIsUnadopted(w: World, m: Move, ns: nat)
    requires ns !in w.live && ns in Next(w, m).live
    ensures !Next(w, m).live[ns].adopted
  {
  }

  /** In every run, with crashes between any two commands: a changed namespace has had
      a record used for it before, its record is on disk, and that record holds the
      original exactly when it has not been lost. */
  lemma {:induction false} SnapshotBeforeChange(moves: seq<Move>, ns: nat)
    requires ns in Run(START, moves).live
    ensures var w := Run(START, moves);
            var n := w.live[ns];
            && (Changed(n) ==> n.adopted)
            && (n.adopted ==> (w.boot, n.inode) in w.records && (OnDisk(w, ns) <==> !Lost(moves, ns)))
  {
    RunKeeps(moves);
    assert NamespaceOk(Run(START, moves), Run(START, moves).live[ns]);
    if moves != [] {
      var most, m := moves[..|moves| - 1], moves[|moves| - 1];
      var w := Run(START, most);
      RunKeeps(most);
      if ns in w.live {
        SnapshotBeforeChange(most, ns);
        StepDecides(w, m, ns);
      } else {
        NewIsUnadopted(w, m, ns);
      }
    }
  }

  /** The two commands that find or replace a record. */
  lemma FindsOrReplaces(w: World, a: Outcome, b: Outcome)
    requires Inv(w) && w.job.Applying? && w.job.pending != [] && w.job.phase == Look
    requires w.job.pending[0].ns in w.live && Changed(w.live[w.job.pending[0].ns]) && OnDisk(w, w.job.pending[0].ns)
    requires a.Succeeds? && b.Succeeds?
    ensures var v := Next(Next(w, Work(a)), Work(b));
            w.job.pending[0].ns in v.live && (OnDisk(v, w.job.pending[0].ns) <==> Usable(w, w.job.pending[0]))
  {
    var g := w.job.pending[0];
    assert NamespaceOk(w, w.live[g.ns]);
    var v1 := Next(w, Work(a));
    if Usable(w, g) {
      assert v1.job == Applying(w.job.pending, Load(w.records[Key(w, g)])) && v1.records == w.records;
    } else {
      assert v1 == w.(job := Applying(w.job.pending, Write(Snapshot(w.live[g.ns], g))));
    }
  }

  /** In every run, when apply comes to a changed namespace whose original is on disk, its
      next two commands leave it there exactly when one of the containers of its record is
      among those that the scan found in it; otherwise the snapshot is overwritten. */
  lemma OverwriteExactly(moves: seq<Move>, a: Outcome, b: Outcome)
    requires a.Succeeds? && b.Succeeds?
    requires var w := Run(START, moves);
             && w.job.Applying? && w.job.pending != [] && w.job.phase == Look && w.job.pending[0].ns in w.live
             && Changed(w.live[w.job.pending[0].ns]) && OnDisk(w, w.job.pending[0].ns)
    ensures var w, v := Run(START, moves), Run(START, moves + [Work(a)] + [Work(b)]);
            var g := w.job.pending[0];
            g.ns in v.live && (OnDisk(v, g.ns) <==> w.records[Key(w, g)].ids * g.ids != {})
  {
    RunKeeps(moves);
    FindsOrReplaces(Run(START, moves), a, b);
    FoldOne(Stepper(), START, moves, Work(a));
    FoldOne(Stepper(), START, moves + [Work(a)], Work(b));
  }

  // ----- what a rollback leaves -----

  /** The rollback has a record to use for this namespace. */
  predicate Matched(w: World, scan: seq<Group>, ns: nat) {
    ns in w.live && exists g :: g in scan && g.ns == ns && Usable(w, g)
  }

  /** In every run, a completed rollback leaves a matched namespace as it was exactly
      when its record says what the original was; one in which a recorded container has
      stayed throughout is always matched. */
  lemma RollbackRestores(moves: seq<Move>, ns: nat)
    requires var w := Run(START, moves); w.job.Restoring? && w.job.pending == [] && ns in w.live
    ensures var w := Run(START, moves);
            var n := w.live[ns];
            && (n.kept != {} ==> Matched(w, w.job.scan, ns))
            && (n.adopted && Matched(w, w.job.scan, ns) ==>
                  (!Changed(n) <==> Restorable(n, w.records[(w.boot, n.inode)])))
  {
    RunKeeps(moves);
    var w := Run(START, moves);
    assert NamespaceOk(w, w.live[ns]);
    if w.live[ns].kept != {} { KeptIsMatched(w, ns); }
  }

  lemma KeptIsMatched(w: World, ns: nat)
    requires Inv(w) && w.job.Restoring? && ns in w.live && w.live[ns].kept != {}
    ensures Matched(w, w.job.scan, ns)
  {
    assert NamespaceOk(w, w.live[ns]);
    var g :| g in w.job.scan && g.ns == ns;
    var id :| id in w.live[ns].kept;
    assert id in w.records[Key(w, g)].ids * g.ids;
  }

  /** What stays of a namespace, and of the record that stands for it, while a recorded
      container stays. */
  predicate SameRecord(w: World, v: World, ns: nat)
    requires ns in w.live && ns in v.live
  {
    var n, m, key := w.live[ns], v.live[ns], (w.boot, w.live[ns].inode);
    && v.boot == w.boot && m.inode == n.inode && m.original == n.original && m.originalMptcp == n.originalMptcp
    && key in w.records && key in v.records && SameSnapshot(w.records[key], v.records[key])
  }

  /** The container neither stops nor does the host reboot. */
  predicate Stays(moves: seq<Move>, ns: nat, id: string) {
    forall m :: m in moves ==> m != Stop(ns, id) && m != Reboot
  }

  lemma KeptStep(w: World, m: Move, ns: nat, id: string)
    requires Inv(w) && ns in w.live && id in w.live[ns].kept && m != Stop(ns, id) && m != Reboot
    ensures ns in Next(w, m).live && id in Next(w, m).live[ns].kept && SameRecord(w, Next(w, m), ns)
  {
    assert NamespaceOk(w, w.live[ns]);
    if m.Work? { KeptWork(w, m.outcome, ns, id); }
  }

  lemma KeptWork(w: World, o: Outcome, ns: nat, id: string)
    requires Inv(w) && ns in w.live && id in w.live[ns].kept && NamespaceOk(w, w.live[ns])
    ensures ns in Next(w, Work(o)).live && id in Next(w, Work(o)).live[ns].kept && SameRecord(w, Next(w, Work(o)), ns)
  {
    if Head(w, ns) {
      KeptIsUsable(w, w.job.pending[0]);
      KeptHead(w, o, ns, id);
    } else if !w.job.Idle? && w.job.pending != [] && w.job.pending[0].ns in w.live {
      assert w.live[w.job.pending[0].ns].inode != w.live[ns].inode;
    }
  }

  /** The command is for its own namespace, which has a record to use. */
  lemma KeptHead(w: World, o: Outcome, ns: nat, id: string)
    requires Inv(w) && Head(w, ns) && id in w.live[ns].kept && NamespaceOk(w, w.live[ns]) && Usable(w, w.job.pending[0])
    ensures ns in Next(w, Work(o)).live && id in Next(w, Work(o)).live[ns].kept && SameRecord(w, Next(w, Work(o)), ns)
  {
  }

  lemma {:induction false} KeptRun(w: World, moves: seq<Move>, ns: nat, id: string)
    requires Inv(w) && ns in w.live && id in w.live[ns].kept && Stays(moves, ns, id)
    ensures var v := Run(w, moves);
            ns in v.live && id in v.live[ns].kept && SameRecord(w, v, ns)
  {
    if moves == [] {
      assert NamespaceOk(w, w.live[ns]);
    } else {
      var most, m := moves[..|moves| - 1], moves[|moves| - 1];
      assert m in moves && forall k :: k in most ==> k in moves;
      KeptRun(w, most, ns, id);
      KeepsFrom(w, most);
      KeptStep(Run(w, most), m, ns, id);
    }
  }

  /** In every run, from where a recorded container has occupied its namespace on until it
      stops: whatever applies, rollbacks and crashes come, the record says the same of the
      original, and a completed rollback leaves the namespace as it was exactly when the
      record did so. */
  lemma OccupiedIsRestored(first: seq<Move>, more: seq<Move>, ns: nat, id: string)
    requires var w := Run(START, first); ns in w.live && id in w.live[ns].kept
    requires Stays(more, ns, id)
    ensures var w, v := Run(START, first), Run(START, first + more);
            && ns in v.live && id in v.live[ns].kept
            && (w.boot, w.live[ns].inode) in w.records && (OnDisk(v, ns) <==> OnDisk(w, ns))
            && (v.job.Restoring? && v.job.pending == [] ==>
                  (!Changed(v.live[ns]) <==> Restorable(w.live[ns], w.records[(w.boot, w.live[ns].inode)])))
  {
    RunKeeps(first);
    FoldJoin(Stepper(), START, first, more);
    KeptRun(Run(START, first), more, ns, id);
    if Run(START, first + more).job.Restoring? && Run(START, first + more).job.pending == [] {
      RunKeeps(first + more);
      assert NamespaceOk(Run(START, first + more), Run(START, first + more).live[ns]);
      RollbackRestores(first + more, ns);
    }
  }

  /** In particular a completed rollback restores exactly the original of every namespace
      that a container of its first snapshot has occupied ever since that was written. */
  lemma FirstSnapshotIsRestored(first: seq<Move>, o: Outcome, more: seq<Move>, ns: nat, id: string)
    requires var w := Run(START, first);
             && o.Succeeds? && Overwrites(w, Work(o), ns) && !w.live[ns].adopted
             && id in w.job.phase.rec.ids && id in w.live[ns].occupants
    requires Stays(more, ns, id)
    ensures var v := Run(START, first + [Work(o)] + more);
            && ns in v.live && OnDisk(v, ns)
            && (v.job.Restoring? && v.job.pending == [] ==> !Changed(v.live[ns]))
  {
    RunKeeps(first);
    var w := Run(START, first);
    assert NamespaceOk(w, w.live[ns]);
    FoldOne(Stepper(), START, first, Work(o));
    assert id in Run(START, first + [Work(o)]).live[ns].kept;
    OccupiedIsRestored(first + [Work(o)], more, ns, id);
  }

  /** One rollback, from its scan on, with whatever containers do meanwhile. */
  ghost predicate Rolling(w: World, moves: seq<Move>, scan: seq<Group>) {
    forall i :: 0 <= i <= |moves| ==> Run(w, moves[..i]).job.Restoring? && Run(w, moves[..i]).job.scan == scan
  }

  ghost predicate Alive(w: World, moves: seq<Move>, ns: nat) {
    forall i :: 0 <= i <= |moves| ==> ns in Run(w, moves[..i]).live
  }

  lemma PrefixRun(moves: seq<Move>, i: nat)
    requires moves != [] && i < |moves|
    ensures moves[..|moves| - 1][..i] == moves[..i]
  {
  }

  lemma RollingShorter(w: World, moves: seq<Move>, scan: seq<Group>)
    requires moves != [] && Rolling(w, moves, scan)
    ensures Rolling(w, moves[..|moves| - 1], scan)
    ensures Run(w, moves).job.Restoring? && Run(w, moves).job.scan == scan
  {
    var most := moves[..|moves| - 1];
    forall i | 0 <= i <= |most|
      ensures Run(w, most[..i]).job.Restoring? && Run(w, most[..i]).job.scan == scan
    {
      PrefixRun(moves, i);
    }
    assert moves[..|moves|] == moves;
  }

  lemma AliveShorter(w: World, moves: seq<Move>, ns: nat)
    requires moves != [] && Alive(w, moves, ns)
    ensures Alive(w, moves[..|moves| - 1], ns) && ns in Run(w, moves[..|moves| - 1]).live && ns in Run(w, moves).live
  {
    var most := moves[..|moves| - 1];
    forall i | 0 <= i <= |most|
      ensures ns in Run(w, most[..i]).live
    {
      PrefixRun(moves, i);
    }
    assert moves[..|moves|] == moves && moves[..|moves| - 1] == moves[..|moves| - 1][..|moves| - 1];
  }

  /** A usable record of the scan has been used once its group is done, or about to be. */
  predicate Used(v: World, g: Group)
    requires v.job.Restoring?
  {
    g !in v.job.pending || (v.job.pending[0] == g && v.job.phase.Tune?)
  }

  /** How a rollback treats one namespace: its originals, its record and its matching stay;
      unmatched it is left alone; matched, a record has been used for it once it is done. */
  ghost predicate Treated(w: World, v: World, scan: seq<Group>, ns: nat)
    requires ns in w.live && ns in v.live && v.job.Restoring?
  {
    var n, n' := w.live[ns], v.live[ns];
    && v.boot == w.boot && v.records == w.records
    && n'.inode == n.inode && n'.original == n.original && n'.originalMptcp == n.originalMptcp
    && (!Matched(w, scan, ns) ==> n'.policy == n.policy && n'.mptcp == n.mptcp)
    && (forall g :: g in scan && g.ns == ns && Usable(w, g) && Used(v, g) ==> n'.adopted)
  }

  /** A step of a rollback changes only the head of its list, and only with a usable record. */
  lemma RollbackStep(v: World, m: Move, ns: nat)
    requires Inv(v) && v.job.Restoring? && Next(v, m).job.Restoring? && ns in v.live && ns in Next(v, m).live
    ensures var u := Next(v, m);
            && u.boot == v.boot && u.records == v.records && u.job.scan == v.job.scan
            && u.live[ns].inode == v.live[ns].inode && u.live[ns].original == v.live[ns].original
            && u.live[ns].originalMptcp == v.live[ns].originalMptcp
            && (v.live[ns].adopted ==> u.live[ns].adopted)
            && (u.live[ns].policy != v.live[ns].policy || u.live[ns].mptcp != v.live[ns].mptcp ==>
                  Head(v, ns) && Usable(v, v.job.pending[0]))
  {
  }

  lemma RollbackAdopts(v: World, m: Move, g: Group)
    requires Inv(v) && v.job.Restoring? && Next(v, m).job.Restoring? && g in v.job.scan
    requires g.ns in v.live && g.ns in Next(v, m).live && Usable(v, g) && Used(Next(v, m), g)
    ensures Used(v, g) || Next(v, m).live[g.ns].adopted
  {
    if m.Work? && v.job.pending != [] {
      RestIsPending(v.job);
      HeadInScan(v);
      WorkAdopts(v, m.outcome, g);
    }
  }

  lemma WorkAdopts(v: World, o: Outcome, g: Group)
    requires v.job.Restoring? && v.job.pending != [] && Next(v, Work(o)).job.Restoring?
    requires forall h :: h in v.job.pending ==> h == v.job.pending[0] || h in v.job.pending[1..]
    requires g.ns in v.live && g.ns in Next(v, Work(o)).live && Usable(v, g) && Used(Next(v, Work(o)), g)
    ensures Used(v, g) || Next(v, Work(o)).live[g.ns].adopted
  {
  }

  lemma {:induction false} RollbackTreats(w: World, moves: seq<Move>, scan: seq<Group>, ns: nat)
    requires Inv(w) && w.job == Restoring(scan, scan, Look) && Rolling(w, moves, scan) && Alive(w, moves, ns)
    requires ns in w.live && ns in Run(w, moves).live && Run(w, moves).job.Restoring?
    ensures Treated(w, Run(w, moves), scan, ns)
  {
    if moves == [] {
      assert Run(w, moves) == w;
    } else {
      var most, m := moves[..|moves| - 1], moves[|moves| - 1];
      RollingShorter(w, moves, scan);
      AliveShorter(w, moves, ns);
      assert most[..|most|] == most;
      RollbackTreats(w, most, scan, ns);
      var v := Run(w, most);
      KeepsFrom(w, most);
      RollbackStep(v, m, ns);
      TreatedNext(w, v, m, scan, ns);
    }
  }

  lemma TreatedNext(w: World, v: World, m: Move, scan: seq<Group>, ns: nat)
    requires Inv(v) && v.job.Restoring? && v.job.scan == scan && Next(v, m).job.Restoring?
    requires ns in w.live && ns in v.live && ns in Next(v, m).live && Treated(w, v, scan, ns)
    ensures Treated(w, Next(v, m), scan, ns)
  {
    RollbackStep(v, m, ns);
    forall g | g in scan && g.ns == ns && Usable(w, g)
      ensures Used(Next(v, m), g) ==> Next(v, m).live[ns].adopted
    {
      assert Usable(v, g);
      if Used(Next(v, m), g) { RollbackAdopts(v, m, g); }
    }
    if Head(v, ns) && Usable(v, v.job.pending[0]) {
      HeadInScan(v);
      assert Matched(w, scan, ns);
    }
  }

  /** The recorded containers are still there when a rollback begins. */
  predicate Recorded(w: World, ns: nat)
    requires ns in w.live
  {
    var key := (w.boot, w.live[ns].inode);
    key in w.records && w.records[key].ids * w.live[ns].occupants != {}
  }

  lemma ScannedIsMatched(w: World, order: seq<nat>, ns: nat)
    requires Scans(w, order) && ns in w.live
    ensures Matched(w, Groups(w, order), ns) <==> Recorded(w, ns)
  {
    var scan := Groups(w, order);
    if Recorded(w, ns) {
      assert w.live[ns].occupants != {};
      var i :| 0 <= i < |order| && order[i] == ns;
      assert scan[i] in scan && Usable(w, scan[i]);
    }
  }

  /** What a rollback begun now leaves changed: a recorded container is there and the record
      does not say what the original was, or none is and the namespace is changed already. */
  predicate Leaves(w: World, ns: nat) {
    ns in w.live
    && if Recorded(w, ns) then !Restorable(w.live[ns], w.records[(w.boot, w.live[ns].inode)]) else Changed(w.live[ns])
  }

  /** The rollback that a state is about to begin goes through its whole scan. */
  ghost predicate Completes(w: World, order: seq<nat>, more: seq<Move>)
    requires Scans(w, order)
  {
    var begun := Next(w, Begin(order, true));
    Rolling(begun, more, Groups(w, order)) && Run(begun, more).job == Restoring(Groups(w, order), [], Look)
  }

  /** A whole rollback, begun in any run: a namespace that is there throughout is left
      changed exactly when, at its beginning, a recorded container was in it and its record
      did not say what the original was, or none was and it was changed already. */
  lemma RollbackLeavesExactly(first: seq<Move>, order: seq<nat>, more: seq<Move>, ns: nat)
    requires var w := Run(START, first); w.job.Idle? && Scans(w, order) && ns in w.live
    requires Completes(Run(START, first), order, more)
    requires Alive(Next(Run(START, first), Begin(order, true)), more, ns)
    ensures var w := Run(START, first);
            var v := Run(Next(w, Begin(order, true)), more);
            ns in v.live && (Changed(v.live[ns]) <==> Leaves(w, ns))
  {
    RunKeeps(first);
    RollbackLeaves(Run(START, first), order, more, ns);
  }

  lemma RollbackLeaves(w: World, order: seq<nat>, more: seq<Move>, ns: nat)
    requires Inv(w) && w.job.Idle? && Scans(w, order) && ns in w.live
    requires Completes(w, order, more) && Alive(Next(w, Begin(order, true)), more, ns)
    ensures var v := Run(Next(w, Begin(order, true)), more);
            ns in v.live && (Changed(v.live[ns]) <==> Leaves(w, ns))
  {
    var scan := Groups(w, order);
    var begun := Next(w, Begin(order, true));
    NextKeeps(w, Begin(order, true));
    assert more[..|more|] == more;
    RollbackTreats(begun, more, scan, ns);
    KeepsFrom(begun, more);
    ScannedIsMatched(w, order, ns);
    LeftByRollback(begun, Run(begun, more), scan, ns);
  }

  lemma LeftByRollback(w: World, v: World, scan: seq<Group>, ns: nat)
    requires ns in w.live && ns in v.live && Inv(v) && v.job == Restoring(scan, [], Look) && Treated(w, v, scan, ns)
    ensures Changed(v.live[ns]) <==>
              if Matched(w, scan, ns) then !Restorable(w.live[ns], w.records[(w.boot, w.live[ns].inode)])
              else Changed(w.live[ns])
  {
    assert NamespaceOk(v, v.live[ns]);
    if Matched(w, scan, ns) {
      var g :| g in scan && g.ns == ns && Usable(w, g);
      assert g !in v.job.pending;
      assert IsRestored(v.live[ns], v.records[Key(v, g)]);
    }
  }

  // ----- namespaces that appear while a rollback is under way -----

  /** A namespace that was not there at some point of a rollback is as it started. */
  lemma {:induction false} NewStaysUnchanged(w: World, moves: seq<Move>, scan: seq<Group>, ns: nat)
    requires Inv(w) && Rolling(w, moves, scan) && !Alive(w, moves, ns)
    ensures var v := Run(w, moves);
            ns in v.live ==> !v.live[ns].adopted && !Pinned(v, ns) && !Changed(v.live[ns])
  {
    KeepsFrom(w, moves);
    var v := Run(w, moves);
    if ns in v.live {
      assert NamespaceOk(v, v.live[ns]);
      var i :| 0 <= i <= |moves| && ns !in Run(w, moves[..i]).live;
      assert moves[..|moves|] == moves;
      var most, m := moves[..|moves| - 1], moves[|moves| - 1];
      RollingShorter(w, moves, scan);
      PrefixRun(moves, i);
      assert !Alive(w, most, ns);
      NewStaysUnchanged(w, most, scan, ns);
      KeepsFrom(w, most);
      assert most[..|most|] == most;
      NewIsNotPinned(Run(w, most), m, ns);
    }
  }

  lemma NewIsNotPinned(v: World, m: Move, ns: nat)
    requires Inv(v) && v.job.Restoring? && Next(v, m).job.Restoring? && ns in Next(v, m).live
    requires ns in v.live ==> !v.live[ns].adopted && !Pinned(v, ns)
    ensures !Next(v, m).live[ns].adopted && !Pinned(Next(v, m), ns)
  {
    if ns !in v.live {
      forall g | g in Pending(v.job) ensures g.ns != ns {
        assert g.ns in v.live;
      }
    }
  }

  /** So a completed rollback has left something changed exactly when some namespace that
      was there throughout is of one of those two kinds. */
  lemma RollbackLeavesSome(first: seq<Move>, order: seq<nat>, more: seq<Move>)
    requires var w := Run(START, first); w.job.Idle? && Scans(w, order)
    requires Completes(Run(START, first), order, more)
    ensures var w := Run(START, first);
            var begun := Next(w, Begin(order, true));
            var v := Run(begun, more);
            (exists ns :: ns in v.live && Changed(v.live[ns])) <==>
              exists ns :: ns in v.live && Alive(begun, more, ns) && Leaves(w, ns)
  {
    var w := Run(START, first);
    var begun := Next(w, Begin(order, true));
    var v := Run(begun, more);
    forall ns | ns in v.live
      ensures Changed(v.live[ns]) <==> Alive(begun, more, ns) && Leaves(w, ns)
    {
      LeavesOne(first, order, more, ns);
    }
  }

  lemma LeavesOne(first: seq<Move>, order: seq<nat>, more: seq<Move>, ns: nat)
    requires var w := Run(START, first); w.job.Idle? && Scans(w, order)
    requires Completes(Run(START, first), order, more)
    requires ns in Run(Next(Run(START, first), Begin(order, true)), more).live
    ensures var w := Run(START, first);
            var begun := Next(w, Begin(order, true));
            Changed(Run(begun, more).live[ns]) <==> Alive(begun, more, ns) && Leaves(w, ns)
  {
    var w := Run(START, first);
    var begun := Next(w, Begin(order, true));
    if Alive(begun, more, ns) {
      AliveFromStart(begun, more, ns);
      RollbackLeavesExactly(first, order, more, ns);
    } else {
      RunKeeps(first);
      NextKeeps(w, Begin(order, true));
      NewStaysUnchanged(begun, more, Groups(w, order), ns);
    }
  }

  lemma AliveFromStart(w: World, moves: seq<Move>, ns: nat)
    requires Alive(w, moves, ns)
    ensures ns in w.live
  {
    assert moves[..0] == [] && ns in Run(w, moves[..0]).live;
  }

  // ----- verifying -----

  predicate GuardApplied(r: Record) {
    r.applied.None? || r.applied == Some(GuardRules)
  }

  ghost predicate AppliedOk(w: World) {
    && (forall k :: k in w.records ==> GuardApplied(w.records[k]))
    && (!w.job.Idle? && !w.job.phase.Look? ==> GuardApplied(w.job.phase.rec))
  }

  lemma AppliedStep(w: World, m: Move)
    requires AppliedOk(w)
    ensures AppliedOk(Next(w, m))
  {
  }

  lemma {:induction false} AppliedRun(moves: seq<Move>)
    ensures AppliedOk(Run(START, moves))
  {
    if moves != [] {
      AppliedRun(moves[..|moves| - 1]);
      AppliedStep(Run(START, moves[..|moves| - 1]), moves[|moves| - 1]);
    }
  }

  /** What verify asks of one namespace. */
  predicate Verified(w: World, ns: nat, unreadable: bool)
    requires ns in w.live
  {
    var key := (w.boot, w.live[ns].inode);
    && key in w.records && w.records[key].current && w.records[key].applied.Some?
    && Listed(w.live[ns].policy, unreadable) == w.records[key].applied
    && (w.records[key].mptcp.Some? ==> w.live[ns].mptcp == Some(false))
  }

  /** In every run, a namespace that verifies has the guard's rules loaded, and MPTCP
      off where its record knows the setting. */
  lemma VerifiedIsGuarded(moves: seq<Move>, ns: nat, unreadable: bool)
    requires ns in Run(START, moves).live && Verified(Run(START, moves), ns, unreadable)
    ensures var w := Run(START, moves);
            && w.live[ns].policy == GuardRules
            && (w.records[(w.boot, w.live[ns].inode)].mptcp.Some? ==> w.live[ns].mptcp == Some(false))
  {
    AppliedRun(moves);
  }

  // ----- two ways in which the original is not on disk -----

  const OK := Succeeds(false, false)

  /** The guard is applied to a namespace with one container, which is later
      joined by a second and leaves; the next apply finds no recorded container
      and takes a new snapshot, of the guard's own rules. */
  lemma HandoverLosesOriginal() returns (moves: seq<Move>)
    ensures var w := Run(START, moves);
            && 0 in w.live && Changed(w.live[0]) && w.live[0].occupants == {"b"}
            && forall k :: k in w.records ==> !Original(w.live[0], w.records[k])
  {
    moves := Protected(NoTable);
    moves := Then(Stepper(), START, moves, Join(0, "b"));
    moves := Then(Stepper(), START, moves, Stop(0, "a"));
    assert Run(START, moves).live[0].occupants == {"b"};
    moves := Then(Stepper(), START, moves, Begin([0], false));
    assert Run(START, moves).job == Applying([Group(0, {"b"})], Look);
    moves := Then(Stepper(), START, moves, Work(OK));
    assert Run(START, moves).job.phase.Write?;
    moves := Then(Stepper(), START, moves, Work(OK));
  }

  /** The namespace of one container, and its record, as they are after the first snapshot. */
  function Before(was: Policy): Namespace { Namespace(7, was, Some(true), {"a"}, was, Some(true), true, {"a"}) }

  function First(was: Policy): Record { Record({"a"}, Some(true), was, false, None) }

  lemma Snapshotted(was: Policy) returns (moves: seq<Move>)
    ensures Run(START, moves)
            == World(0, map[(0, 7) := First(was)], map[0 := Before(was)], Applying([Group(0, {"a"})], Load(First(was))))
  {
    moves := Then(Stepper(), START, [], Start(0, 7, was, Some(true), "a"));
    moves := Then(Stepper(), START, moves, Begin([0], false));
    assert Run(START, moves).job == Applying([Group(0, {"a"})], Look);
    moves := Then(Stepper(), START, moves, Work(OK));
    assert Run(START, moves).job.phase == Write(First(was));
    moves := Then(Stepper(), START, moves, Work(OK));
    assert {"a"} * {"a"} * {"a"} == {"a"};
  }

  /** Load the rules, write that down, and set MPTCP. */
  lemma GuardSteps(w: World, was: Policy)
    requires w == World(0, map[(0, 7) := First(was)], map[0 := Before(was)], Applying([Group(0, {"a"})], Load(First(was))))
    ensures Next(Next(Next(w, Work(OK)), Work(OK)), Work(OK))
            == World(0, map[(0, 7) := First(was).(current := true, applied := Some(GuardRules))],
                     map[0 := Before(was).(policy := GuardRules, mptcp := Some(false))], Applying([], Look))
  {
    var list, done := [Group(0, {"a"})], First(was).(current := true, applied := Some(GuardRules));
    var loaded := map[0 := Before(was).(policy := GuardRules)];
    assert Next(w, Work(OK)) == World(0, w.records, loaded, Applying(list, Mark(done)));
    assert Next(Next(w, Work(OK)), Work(OK)) == World(0, map[(0, 7) := done], loaded, Applying(list, Tune(done)));
    assert list[1..] == [];
  }

  /** One container, whose namespace held some table before the guard changed it. */
  lemma Protected(was: Policy) returns (moves: seq<Move>)
    ensures Run(START, moves)
            == World(0, map[(0, 7) := First(was).(current := true, applied := Some(GuardRules))],
                     map[0 := Before(was).(policy := GuardRules, mptcp := Some(false))], Idle)
  {
    moves := Snapshotted(was);
    GuardSteps(Run(START, moves), was);
    moves := Then(Stepper(), START, moves, Work(OK));
    moves := Then(Stepper(), START, moves, Work(OK));
    moves := Then(Stepper(), START, moves, Work(OK));
    moves := Then(Stepper(), START, moves, Work(OK));
  }

  /** After such a handover a rollback succeeds, finds no record to use, and leaves the
      policy changed. */
  lemma RollbackLeavesHandover() returns (moves: seq<Move>)
    ensures var w := Run(START, moves);
            w.job == Restoring([Group(0, {"b"})], [], Look) && 0 in w.live && Changed(w.live[0])
  {
    moves := Protected(NoTable);
    moves := Then(Stepper(), START, moves, Join(0, "b"));
    moves := Then(Stepper(), START, moves, Stop(0, "a"));
    assert Run(START, moves).live[0].occupants == {"b"};
    moves := Then(Stepper(), START, moves, Begin([0], true));
    assert Run(START, moves).job == Restoring([Group(0, {"b"})], [Group(0, {"b"})], Look);
    moves := Then(Stepper(), START, moves, Work(OK));
  }

  const EARLIER := Foreign("an earlier table")

  /** The container is in a new namespace with the old inode. */
  lemma Restarted() returns (moves: seq<Move>)
    ensures Run(START, moves)
            == World(0, map[(0, 7) := First(EARLIER).(current := true, applied := Some(GuardRules))],
                     map[1 := Namespace(7, NoTable, Some(true), {"a"}, NoTable, Some(true), false, {})], Idle)
  {
    moves := Protected(EARLIER);
    moves := Then(Stepper(), START, moves, Stop(0, "a"));
    assert Run(START, moves).live[0].occupants == {};
    moves := Then(Stepper(), START, moves, Vanish(0));
    assert Run(START, moves).live == map[];
    moves := Then(Stepper(), START, moves, Start(1, 7, NoTable, Some(true), "a"));
  }

  /** The first snapshot of a namespace held a table of its own. The container restarts
      into a new namespace with the old inode and without that table; the old record is
      used for it, and a rollback would load the table there. */
  lemma RecycledInodeMisleads() returns (moves: seq<Move>)
    ensures var w := Run(START, moves);
            && 1 in w.live && "a" in w.live[1].occupants && Changed(w.live[1])
            && w.live[1].original == NoTable && w.records.Keys == {(0, 7)} && w.records[(0, 7)].rules == EARLIER
            && forall k :: k in w.records ==> !Original(w.live[1], w.records[k])
  {
    moves := Restarted();
    moves := Then(Stepper(), START, moves, Begin([1], false));
    assert Run(START, moves).job == Applying([Group(1, {"a"})], Look);
    assert Usable(Run(START, moves), Group(1, {"a"})) by {
      assert "a" in {"a"} * {"a"};
    }
    moves := Then(Stepper(), START, moves, Work(OK));
    assert Run(START, moves).job.phase.Load?;
    moves := Then(Stepper(), START, moves, Work(OK));
  }
}
