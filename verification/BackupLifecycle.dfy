/** Backups on disk and in the database, with any number of processes creating,
    extending and deleting them, each of which may fail or die at any step. */
module BackupLifecycle {
  import opened Wrappers
  import opened Runs

  type Id = nat
  type Pid = nat

  /** Configuration lies under its own directory, so a source file never lands on
      a database dump or a volume archive. */
  datatype File = Config(name: string) | Data(path: string)

  datatype Content = Torn | Full(data: string)

  /** A manifest entry; the digest, where there is one, determines the content. */
  datatype Component = Component(file: File, digest: Option<string>)

  datatype Manifest = Absent | TornManifest | Whole(components: seq<Component>)

  datatype BackupDir = BackupDir(files: map<File, Content>, manifest: Manifest)

  datatype Proc =
    | Idle
    | Creating(id: Id)
    | Copying(id: Id, components: seq<Component>, at: Option<File>)
    | Listing(id: Id, components: seq<Component>)
    | Recording(id: Id, components: seq<Component>)
    | Extending(id: Id, components: seq<Component>, at: Option<File>)
    | Replacing(id: Id, components: seq<Component>)
    | Chosen(id: Id)
    | Removing(id: Id)

  /** doubtful are the backups whose record was inserted although the insert reported an error. */
  datatype World = World(records: set<Id>, doubtful: set<Id>, dirs: map<Id, BackupDir>, used: set<Id>, procs: map<Pid, Proc>)

  datatype Act =
    | StartCreate(id: Id)
    | Mkdir
    | Open(file: File)
    | Write(data: string, checked: bool)
    | OpenManifest
    | WriteManifest
    | InsertRecord
    | InsertInDoubt
    | StartExtend
    | WriteTemp
    | Replace
    | Choose(id: Id)
    | DeleteRecord
    | Drop(file: File)
    | DropManifest
    | DropDir
    | Fail
    | Crash

  datatype Move = Move(pid: Pid, act: Act)

  const START := World({}, {}, map[], {}, map[])

  function ProcOf(w: World, pid: Pid): Proc {
    if pid in w.procs then w.procs[pid] else Idle
  }

  function Set(w: World, pid: Pid, p: Proc): World {
    w.(procs := w.procs[pid := p])
  }

  function Listed(cs: seq<Component>): set<File> {
    set c | c in cs :: c.file
  }

  /** Creating a file also creates its directory; opening truncates. */
  function Truncated(w: World, id: Id, file: File): World {
    var d := if id in w.dirs then w.dirs[id] else BackupDir(map[], Absent);
    w.(dirs := w.dirs[id := d.(files := d.files[file := Torn])])
  }

  /** Writing to a file that has meanwhile been removed changes nothing on disk. */
  function Written(w: World, id: Id, file: File, data: string): World {
    if id in w.dirs && file in w.dirs[id].files then
      w.(dirs := w.dirs[id := w.dirs[id].(files := w.dirs[id].files[file := Full(data)])])
    else w
  }

  function SetManifest(w: World, id: Id, m: Manifest): World {
    if id in w.dirs then w.(dirs := w.dirs[id := w.dirs[id].(manifest := m)]) else w
  }

  function Entry(file: File, data: string, checked: bool): Component {
    Component(file, if checked then Some(data) else None)
  }

  /** CreateBackup, from the fresh id to the record. */
  function NextCreate(w: World, pid: Pid, p: Proc, a: Act): World {
    if p.Creating? && a.Mkdir? then
      Set(w.(dirs := w.dirs[p.id := BackupDir(map[], Absent)]), pid, Copying(p.id, [], None))
    else if p.Copying? && p.at.None? && a.Open? && a.file !in Listed(p.components) then
      Set(Truncated(w, p.id, a.file), pid, Copying(p.id, p.components, Some(a.file)))
    else if p.Copying? && p.at.Some? && a.Write? then
      Set(Written(w, p.id, p.at.value, a.data), pid, Copying(p.id, p.components + [Entry(p.at.value, a.data, a.checked)], None))
    else if p.Copying? && p.at.None? && a.OpenManifest? then
      Set(SetManifest(w, p.id, TornManifest), pid, Listing(p.id, p.components))
    else if p.Listing? && a.WriteManifest? then
      Set(SetManifest(w, p.id, Whole(p.components)), pid, Recording(p.id, p.components))
    else if p.Recording? && a.InsertRecord? then
      Set(w.(records := w.records + {p.id}), pid, Idle)
    else if p.Recording? && a.InsertInDoubt? then
      Set(w.(records := w.records + {p.id}, doubtful := w.doubtful + {p.id}), pid, Removing(p.id))
    else w
  }

  /** AddSourceFiles, from reading the manifest to replacing it by rename. */
  function NextExtend(w: World, pid: Pid, p: Proc, a: Act): World {
    if p.Chosen? && a.StartExtend? && p.id in w.dirs && w.dirs[p.id].manifest.Whole? then
      Set(w, pid, Extending(p.id, w.dirs[p.id].manifest.components, None))
    else if p.Extending? && p.at.None? && a.Open? && a.file.Config? && a.file !in Listed(p.components) then
      Set(Truncated(w, p.id, a.file), pid, Extending(p.id, p.components, Some(a.file)))
    else if p.Extending? && p.at.Some? && a.Write? then
      Set(Written(w, p.id, p.at.value, a.data), pid, Extending(p.id, p.components + [Entry(p.at.value, a.data, a.checked)], None))
    else if p.Extending? && p.at.None? && a.WriteTemp? then
      Set(w, pid, Replacing(p.id, p.components))
    else if p.Replacing? && a.Replace? then
      Set(SetManifest(w, p.id, Whole(p.components)), pid, Idle)
    else w
  }

  /** Deleting: the record first, then the files, one by one. */
  function NextRemove(w: World, pid: Pid, p: Proc, a: Act): World {
    if p.Chosen? && a.DeleteRecord? then Set(w.(records := w.records - {p.id}), pid, Removing(p.id))
    else if p.Removing? && a.Drop? && p.id in w.dirs then
      w.(dirs := w.dirs[p.id := w.dirs[p.id].(files := w.dirs[p.id].files - {a.file})])
    else if p.Removing? && a.DropManifest? then SetManifest(w, p.id, Absent)
    else if p.Removing? && a.DropDir? then Set(w.(dirs := w.dirs - {p.id}), pid, Idle)
    else w
  }

  function Begin(w: World, pid: Pid, a: Act): World {
    if a.StartCreate? && a.id !in w.used then Set(w.(used := w.used + {a.id}), pid, Creating(a.id))
    else if a.Choose? && a.id in w.records then Set(w, pid, Chosen(a.id))
    else w
  }

  /** A failed creation removes its directory; other failures leave things as they are. */
  function AfterFail(p: Proc): Proc {
    if p.Copying? || p.Listing? || p.Recording? then Removing(p.id) else Idle
  }

  function Next(w: World, m: Move): World {
    var p := ProcOf(w, m.pid);
    if m.act.Crash? then Set(w, m.pid, Idle)
    else if m.act.Fail? then Set(w, m.pid, AfterFail(p))
    else if p.Idle? then Begin(w, m.pid, m.act)
    else if p.Extending? || p.Replacing? || m.act.StartExtend? then NextExtend(w, m.pid, p, m.act)
    else if p.Chosen? || p.Removing? then NextRemove(w, m.pid, p, m.act)
    else NextCreate(w, m.pid, p, m.act)
  }

  function Run(moves: seq<Move>): World {
    Fold(Next, START, moves)
  }

  // ----- what every step keeps -----

  predicate Present(w: World, id: Id, cs: seq<Component>) {
    id in w.dirs && forall c :: c in cs ==> c.file in w.dirs[id].files
  }

  predicate There(w: World, id: Id, file: Option<File>) {
    file.Some? ==> id in w.dirs && file.value in w.dirs[id].files
  }

  /** A complete manifest that lists only files that are there. */
  predicate Good(w: World, id: Id) {
    id in w.dirs && w.dirs[id].manifest.Whole? && Present(w, id, w.dirs[id].manifest.components)
  }

  predicate Creates(p: Proc) {
    p.Creating? || p.Copying? || p.Listing? || p.Recording?
  }

  predicate Touches(p: Proc, id: Id) {
    !p.Idle? && p.id == id
  }

  /** Recorded by an insert that reported success. */
  predicate Sure(w: World, id: Id) {
    id in w.records && id !in w.doubtful
  }

  /** What a process relies on about its own backup. */
  predicate ProcOk(w: World, p: Proc) {
    p.Idle? || (
      && p.id in w.used
      && (Creates(p) ==> p.id !in w.records && p.id !in w.doubtful)
      && (p.Removing? ==> !Sure(w, p.id))
      && (p.Copying? || p.Listing? || p.Recording? ==> Present(w, p.id, p.components))
      && (p.Copying? ==> There(w, p.id, p.at))
      && (p.Recording? ==> w.dirs[p.id].manifest == Whole(p.components))
      && ((p.Extending? || p.Replacing?) && Sure(w, p.id) ==> Present(w, p.id, p.components))
      && (p.Extending? && Sure(w, p.id) ==> There(w, p.id, p.at)))
  }

  ghost predicate Inv(w: World) {
    && w.records <= w.used && w.doubtful <= w.used
    && (forall id :: Sure(w, id) ==> Good(w, id))
    && (forall pid :: ProcOk(w, ProcOf(w, pid)))
    && (forall p, q :: p != q && Creates(ProcOf(w, p)) ==> !Touches(ProcOf(w, q), ProcOf(w, p).id))
  }

  /** How a step of a process may change a backup on which another one relies. */
  predicate Gentle(v: World, w: World, id: Id) {
    && (id in w.records ==> id in v.records)
    && (id in w.doubtful <==> id in v.doubtful)
    && (id in v.dirs && Sure(w, id) ==> id in w.dirs && v.dirs[id].files.Keys <= w.dirs[id].files.Keys)
  }

  predicate Alone(v: World, w: World, id: Id) {
    && (id in w.records <==> id in v.records)
    && (id in w.doubtful <==> id in v.doubtful)
    && (id in v.dirs <==> id in w.dirs)
    && (id in v.dirs ==> w.dirs[id] == v.dirs[id])
  }

  lemma StepSparesOthers(w: World, m: Move, id: Id)
    requires Inv(w)
    ensures !Touches(ProcOf(w, m.pid), id) ==> Alone(w, Next(w, m), id)
    ensures !Creates(ProcOf(w, m.pid)) ==> Gentle(w, Next(w, m), id)
  {
  }

  lemma StepKeepsProc(w: World, m: Move)
    requires Inv(w)
    ensures ProcOk(Next(w, m), ProcOf(Next(w, m), m.pid))
  {
    var p := ProcOf(w, m.pid);
    assert ProcOk(w, p);
    if !p.Idle? { assert Sure(w, p.id) ==> Good(w, p.id); }
  }

  lemma StepKeepsRecords(w: World, m: Move)
    requires Inv(w)
    ensures Next(w, m).records <= Next(w, m).used && Next(w, m).doubtful <= Next(w, m).used
    ensures forall id :: Sure(Next(w, m), id) ==> Good(Next(w, m), id)
  {
    assert ProcOk(w, ProcOf(w, m.pid));
    forall id | Sure(Next(w, m), id)
      ensures Good(Next(w, m), id)
    {
      assert Sure(w, id) ==> Good(w, id);
    }
  }

  lemma StepKeepsOther(w: World, m: Move, q: Pid)
    requires Inv(w) && q != m.pid
    ensures ProcOf(Next(w, m), q) == ProcOf(w, q) && ProcOk(Next(w, m), ProcOf(w, q))
  {
    var p := ProcOf(w, q);
    assert ProcOk(w, p);
    if !p.Idle? {
      StepSparesOthers(w, m, p.id);
      assert w.used <= Next(w, m).used;
    }
  }

  /** A process creates a backup that it created before, or one whose id is new. */
  lemma CreatesBefore(w: World, m: Move, p: Pid)
    requires Creates(ProcOf(Next(w, m), p))
    ensures (Creates(ProcOf(w, p)) && ProcOf(w, p).id == ProcOf(Next(w, m), p).id)
            || (p == m.pid && ProcOf(Next(w, m), p).id !in w.used)
  {
  }

  /** A process touches a backup that it touched before, a recorded one, or a new one. */
  lemma TouchesBefore(w: World, m: Move, q: Pid, id: Id)
    requires Touches(ProcOf(Next(w, m), q), id)
    ensures Touches(ProcOf(w, q), id) || (q == m.pid && (id in w.records || id !in w.used))
  {
  }

  lemma StepKeepsApart(w: World, m: Move, p: Pid, q: Pid)
    requires Inv(w) && p != q && Creates(ProcOf(Next(w, m), p))
    ensures !Touches(ProcOf(Next(w, m), q), ProcOf(Next(w, m), p).id)
  {
    var id := ProcOf(Next(w, m), p).id;
    CreatesBefore(w, m, p);
    if Touches(ProcOf(Next(w, m), q), id) {
      TouchesBefore(w, m, q, id);
    }
    assert ProcOk(w, ProcOf(w, p)) && ProcOk(w, ProcOf(w, q));
  }

  lemma StepKeeps(w: World, m: Move)
    requires Inv(w)
    ensures Inv(Next(w, m))
  {
    var after := Next(w, m);
    StepKeepsRecords(w, m);
    forall pid
      ensures ProcOk(after, ProcOf(after, pid))
    {
      if pid == m.pid { StepKeepsProc(w, m); } else { StepKeepsOther(w, m, pid); }
    }
    forall p, q | p != q && Creates(ProcOf(after, p))
      ensures !Touches(ProcOf(after, q), ProcOf(after, p).id)
    {
      StepKeepsApart(w, m, p, q);
    }
  }

  lemma RunKeeps(moves: seq<Move>)
    ensures Inv(Run(moves))
  {
    forall v, m | Inv(v)
      ensures Inv(Next(v, m))
    {
      StepKeeps(v, m);
    }
    FoldKeeps(Next, START, moves, v => Inv(v));
  }

  /** In every run, whatever fails and whoever dies, a record points to a directory with a
      complete manifest that lists only files that are there, unless its own insert
      reported an error although it had been committed. */
  lemma RecordsAreGood(moves: seq<Move>)
    ensures forall id :: id in Run(moves).records ==> Good(Run(moves), id) || id in Run(moves).doubtful
  {
    RunKeeps(moves);
  }

  ghost predicate AllGood(w: World) {
    forall id :: id in w.records ==> Good(w, id)
  }

  /** A removal that takes something listed, or an extension that lists something missing,
      from under a record. */
  predicate Breaks(w: World, m: Move) {
    var p := ProcOf(w, m.pid);
    !p.Idle? && p.id in w.records && p.id in w.dirs && w.dirs[p.id].manifest.Whole?
    && ((p.Removing? && (m.act.DropManifest? || m.act.DropDir?
                         || (m.act.Drop? && m.act.file in Listed(w.dirs[p.id].manifest.components))))
        || (p.Replacing? && m.act.Replace? && !Present(w, p.id, p.components)))
  }

  lemma GoodStep(w: World, m: Move)
    requires Inv(w) && AllGood(w)
    ensures AllGood(Next(w, m)) <==> !Breaks(w, m)
    ensures Breaks(w, m) ==> ProcOf(w, m.pid).id in w.doubtful
  {
    var p, after := ProcOf(w, m.pid), Next(w, m);
    assert ProcOk(w, p);
    forall id | id in after.records && !(Touches(p, id) && Breaks(w, m))
      ensures Good(after, id)
    {
      if !Touches(p, id) { StepSparesOthers(w, m, id); }
    }
    if Breaks(w, m) {
      assert !Good(after, p.id);
    }
  }

  /** All records are good now and have been after every earlier move. */
  ghost predicate GoodThroughout(moves: seq<Move>) {
    AllGood(Run(moves)) && (moves != [] ==> GoodThroughout(moves[..|moves| - 1]))
  }

  ghost predicate Unbroken(moves: seq<Move>) {
    moves != [] ==> !Breaks(Run(moves[..|moves| - 1]), moves[|moves| - 1]) && Unbroken(moves[..|moves| - 1])
  }

  /** In every run the records have been good throughout exactly when no move broke one. */
  lemma {:induction false} RecordsStayGood(moves: seq<Move>)
    ensures GoodThroughout(moves) <==> Unbroken(moves)
  {
    if moves != [] {
      var most := moves[..|moves| - 1];
      RecordsStayGood(most);
      RunKeeps(most);
      if AllGood(Run(most)) { GoodStep(Run(most), moves[|moves| - 1]); }
    }
  }

  /** And a move that breaks a record breaks one that is in doubt. */
  lemma OnlyDoubtfulBreak(moves: seq<Move>, m: Move)
    requires AllGood(Run(moves)) && Breaks(Run(moves), m)
    ensures ProcOf(Run(moves), m.pid).id in Run(moves).doubtful
  {
    RunKeeps(moves);
    GoodStep(Run(moves), m);
  }

  /** An insert that reports an error after committing: the cleanup of the creation then
      takes the manifest from under the record. */
  lemma DoubtBreaksRecord()
    ensures var w := Run(DOUBT); 0 in w.records && 0 in w.doubtful && !Good(w, 0)
  {
    var w4 := Fold(Next, START, DOUBT[..4]);
    DoubtCreates();
    var w5, w6 := Next(w4, DOUBT[4]), Next(Next(w4, DOUBT[4]), DOUBT[5]);
    assert w5.procs[0] == Removing(0) && 0 in w5.records && 0 in w5.doubtful;
    assert w6.dirs[0].manifest == Absent;
    FoldOne(Next, START, DOUBT[..4], DOUBT[4]);
    FoldOne(Next, START, DOUBT[..4] + [DOUBT[4]], DOUBT[5]);
    assert DOUBT == DOUBT[..4] + [DOUBT[4]] + [DOUBT[5]];
  }

  const DOUBT := [Move(0, StartCreate(0)), Move(0, Mkdir), Move(0, OpenManifest), Move(0, WriteManifest),
                  Move(0, InsertInDoubt), Move(0, DropManifest)]

  lemma DoubtCreates()
    ensures Fold(Next, START, DOUBT[..4])
            == World({}, {}, map[0 := BackupDir(map[], Whole([]))], {0}, map[0 := Recording(0, [])])
  {
    OverlapReaches(4);
    assert DOUBT[..4] == OVERLAP[..4];
  }

  // ----- contents as well, when no two processes extend one backup at a time -----

  predicate Intact(w: World, id: Id, c: Component) {
    c.digest.Some? ==> id in w.dirs && c.file in w.dirs[id].files && w.dirs[id].files[c.file] == Full(c.digest.value)
  }

  predicate Matches(w: World, id: Id, cs: seq<Component>) {
    forall c :: c in cs ==> Intact(w, id, c)
  }

  predicate Extends(p: Proc) {
    p.Extending? || p.Replacing?
  }

  predicate NotListed(file: Option<File>, cs: seq<Component>) {
    file.Some? ==> file.value !in Listed(cs)
  }

  predicate ProcSound(w: World, p: Proc) {
    && (p.Copying? || p.Listing? || p.Recording? ==> Matches(w, p.id, p.components))
    && (p.Copying? ==> NotListed(p.at, p.components))
    && (Extends(p) && Sure(w, p.id) ==>
          && Matches(w, p.id, p.components) && Good(w, p.id)
          && Listed(w.dirs[p.id].manifest.components) <= Listed(p.components))
    && (p.Extending? ==> NotListed(p.at, p.components))
  }

  ghost predicate Sound(w: World) {
    && (forall id :: Sure(w, id) && Good(w, id) ==> Matches(w, id, w.dirs[id].manifest.components))
    && (forall pid :: ProcSound(w, ProcOf(w, pid)))
    && (forall p, q :: p != q && Extends(ProcOf(w, p)) && Extends(ProcOf(w, q)) ==> ProcOf(w, p).id != ProcOf(w, q).id)
  }

  /** Nobody else is extending the backup that a move starts to extend. */
  ghost predicate Serial(w: World, m: Move) {
    m.act.StartExtend? && ProcOf(w, m.pid).Chosen? ==>
      forall q :: Extends(ProcOf(w, q)) ==> ProcOf(w, q).id != ProcOf(w, m.pid).id
  }

  ghost predicate SerialRun(moves: seq<Move>) {
    forall i :: 0 <= i < |moves| ==> Serial(Run(moves[..i]), moves[i])
  }

  lemma SoundCreator(w: World, m: Move)
    requires Inv(w) && Sound(w) && Creates(ProcOf(w, m.pid))
    ensures ProcSound(Next(w, m), ProcOf(Next(w, m), m.pid))
  {
    var p := ProcOf(w, m.pid);
    assert ProcOk(w, p) && ProcSound(w, p);
  }

  lemma SoundExtender(w: World, m: Move)
    requires Inv(w) && Sound(w) && Extends(ProcOf(w, m.pid))
    ensures ProcSound(Next(w, m), ProcOf(Next(w, m), m.pid))
  {
    var p := ProcOf(w, m.pid);
    assert ProcOk(w, p) && ProcSound(w, p);
    assert Sure(w, p.id) ==> Good(w, p.id);
  }

  lemma SoundRemover(w: World, m: Move)
    requires Inv(w) && Sound(w) && !Creates(ProcOf(w, m.pid)) && !Extends(ProcOf(w, m.pid))
    ensures ProcSound(Next(w, m), ProcOf(Next(w, m), m.pid))
  {
    var p := ProcOf(w, m.pid);
    assert ProcOk(w, p);
    if p.Chosen? && m.act.StartExtend? && Sure(w, p.id) { assert Good(w, p.id); }
  }

  lemma SoundProc(w: World, m: Move)
    requires Inv(w) && Sound(w)
    ensures ProcSound(Next(w, m), ProcOf(Next(w, m), m.pid))
  {
    var p := ProcOf(w, m.pid);
    if Creates(p) { SoundCreator(w, m); } else if Extends(p) { SoundExtender(w, m); } else { SoundRemover(w, m); }
  }

  lemma SoundRecords(w: World, m: Move)
    requires Inv(w) && Sound(w)
    ensures forall id :: Sure(Next(w, m), id) && Good(Next(w, m), id) ==>
              Matches(Next(w, m), id, Next(w, m).dirs[id].manifest.components)
  {
    var p, after := ProcOf(w, m.pid), Next(w, m);
    assert ProcOk(w, p) && ProcSound(w, p);
  }

  lemma SoundOther(w: World, m: Move, q: Pid)
    requires Inv(w) && Sound(w) && q != m.pid
    ensures ProcSound(Next(w, m), ProcOf(w, q))
  {
    var p := ProcOf(w, q);
    assert ProcOk(w, p) && ProcSound(w, p);
    if !p.Idle? {
      StepSparesOthers(w, m, p.id);
    }
  }

  lemma ExtendsBefore(w: World, m: Move, p: Pid)
    requires Extends(ProcOf(Next(w, m), p))
    ensures (Extends(ProcOf(w, p)) && ProcOf(w, p).id == ProcOf(Next(w, m), p).id)
            || (p == m.pid && m.act.StartExtend? && ProcOf(w, p) == Chosen(ProcOf(Next(w, m), p).id))
  {
  }

  lemma SoundStep(w: World, m: Move)
    requires Inv(w) && Sound(w) && Serial(w, m)
    ensures Sound(Next(w, m))
  {
    var after := Next(w, m);
    SoundRecords(w, m);
    forall pid
      ensures ProcSound(after, ProcOf(after, pid))
    {
      if pid == m.pid { SoundProc(w, m); } else { SoundOther(w, m, pid); StepKeepsOther(w, m, pid); }
    }
    forall p, q | p != q && Extends(ProcOf(after, p)) && Extends(ProcOf(after, q))
      ensures ProcOf(after, p).id != ProcOf(after, q).id
    {
      ExtendsBefore(w, m, p);
      ExtendsBefore(w, m, q);
    }
  }

  lemma {:induction false} RunSound(moves: seq<Move>)
    requires SerialRun(moves)
    ensures Inv(Run(moves)) && Sound(Run(moves))
  {
    RunKeeps(moves);
    if moves != [] {
      var most := moves[..|moves| - 1];
      assert forall i :: 0 <= i < |most| ==> moves[..i] == most[..i] && Serial(Run(moves[..i]), moves[i]);
      RunSound(most);
      SoundStep(Run(most), moves[|moves| - 1]);
    }
  }

  /** If no two processes extend one backup at a time, every listed file with a digest
      also has exactly the content that the digest stands for. */
  lemma RecordsAreIntact(moves: seq<Move>)
    requires SerialRun(moves)
    ensures forall id :: Sure(Run(moves), id) ==>
              Good(Run(moves), id) && Matches(Run(moves), id, Run(moves).dirs[id].manifest.components)
  {
    RunSound(moves);
  }

  // ----- exactly when contents are lost -----

  /** What a creation has copied is in place, in every run. */
  predicate CreatorSound(w: World, p: Proc) {
    && (p.Copying? || p.Listing? || p.Recording? ==> Matches(w, p.id, p.components))
    && (p.Copying? ==> NotListed(p.at, p.components))
  }

  ghost predicate CreatorsSound(w: World) {
    forall pid :: CreatorSound(w, ProcOf(w, pid))
  }

  lemma CreatorStep(w: World, m: Move)
    requires Inv(w) && CreatorsSound(w)
    ensures CreatorsSound(Next(w, m))
  {
    forall q
      ensures CreatorSound(Next(w, m), ProcOf(Next(w, m), q))
    {
      assert ProcOk(w, ProcOf(w, q)) && CreatorSound(w, ProcOf(w, q));
      if q != m.pid {
        StepKeepsOther(w, m, q);
        if Creates(ProcOf(w, q)) { StepSparesOthers(w, m, ProcOf(w, q).id); }
      }
    }
  }

  lemma {:induction false} RunCreators(moves: seq<Move>)
    ensures CreatorsSound(Run(moves))
  {
    if moves != [] {
      RunCreators(moves[..|moves| - 1]);
      RunKeeps(moves[..|moves| - 1]);
      CreatorStep(Run(moves[..|moves| - 1]), moves[|moves| - 1]);
    }
  }

  /** The record, its manifest, its files and their contents all agree. */
  predicate Consistent(w: World, id: Id) {
    Good(w, id) && Matches(w, id, w.dirs[id].manifest.components)
  }

  ghost predicate AllIntact(w: World) {
    forall id :: id in w.records ==> Consistent(w, id)
  }

  /** The manifest on disk lists a file with a digest, other than that of some content. */
  predicate Pinned(w: World, id: Id, file: File, content: Content)
    requires id in w.dirs && w.dirs[id].manifest.Whole?
  {
    exists c :: c in w.dirs[id].manifest.components && c.file == file && c.digest.Some? && content != Full(c.digest.value)
  }

  /** A step of an extension that truncates or rewrites a file that the manifest lists with
      its digest, or lists a file that is not, or no longer, as it was copied; or one that
      breaks the record. */
  predicate Tears(w: World, m: Move) {
    var p := ProcOf(w, m.pid);
    || Breaks(w, m)
    || (Extends(p) && p.id in w.records && p.id in w.dirs && w.dirs[p.id].manifest.Whole?
        && ((p.Extending? && p.at.None? && m.act.Open? && m.act.file.Config? && m.act.file !in Listed(p.components)
             && Pinned(w, p.id, m.act.file, Torn))
            || (p.Extending? && p.at.Some? && m.act.Write? && Pinned(w, p.id, p.at.value, Full(m.act.data)))
            || (p.Replacing? && m.act.Replace? && !Matches(w, p.id, p.components))))
  }

  lemma IntactStep(w: World, m: Move)
    requires Inv(w) && CreatorsSound(w) && AllIntact(w)
    ensures AllIntact(Next(w, m)) <==> !Tears(w, m)
  {
    var p, after := ProcOf(w, m.pid), Next(w, m);
    assert ProcOk(w, p) && CreatorSound(w, p);
    GoodStep(w, m);
    forall id | id in after.records && !Touches(p, id)
      ensures Consistent(after, id)
    {
      StepSparesOthers(w, m, id);
      assert Consistent(w, id);
    }
    if !p.Idle? && p.id in after.records { OwnStep(w, m); }
  }

  lemma OwnStep(w: World, m: Move)
    requires Inv(w) && CreatorsSound(w) && AllIntact(w)
    requires !ProcOf(w, m.pid).Idle? && ProcOf(w, m.pid).id in Next(w, m).records
    ensures Consistent(Next(w, m), ProcOf(w, m.pid).id) <==> !Tears(w, m)
  {
    var p := ProcOf(w, m.pid);
    assert ProcOk(w, p) && CreatorSound(w, p);
    if p.id in w.records { assert Consistent(w, p.id); }
  }

  /** All records are consistent now and have been after every earlier move. */
  ghost predicate IntactThroughout(moves: seq<Move>) {
    AllIntact(Run(moves)) && (moves != [] ==> IntactThroughout(moves[..|moves| - 1]))
  }

  ghost predicate Untorn(moves: seq<Move>) {
    moves != [] ==> !Tears(Run(moves[..|moves| - 1]), moves[|moves| - 1]) && Untorn(moves[..|moves| - 1])
  }

  /** In every run, with any overlap of extensions, every recorded file has had its content
      throughout exactly when no step tore one. */
  lemma {:induction false} RecordsStayIntact(moves: seq<Move>)
    ensures IntactThroughout(moves) <==> Untorn(moves)
  {
    if moves != [] {
      var most := moves[..|moves| - 1];
      RecordsStayIntact(most);
      RunKeeps(most);
      RunCreators(most);
      if AllIntact(Run(most)) { IntactStep(Run(most), moves[|moves| - 1]); }
    }
  }

  /** In particular, opening a file of a recorded backup that is being extended keeps all
      records intact exactly when the manifest on disk does not list it with a digest. */
  lemma OpeningTears(moves: seq<Move>, pid: Pid, file: File)
    requires AllIntact(Run(moves))
    requires var p := ProcOf(Run(moves), pid);
             p.Extending? && p.at.None? && p.id in Run(moves).records && file.Config? && file !in Listed(p.components)
    ensures var w, p := Run(moves), ProcOf(Run(moves), pid);
            AllIntact(Run(moves + [Move(pid, Open(file))])) <==>
              forall c :: c in w.dirs[p.id].manifest.components && c.file == file ==> c.digest.None?
  {
    RunKeeps(moves);
    RunCreators(moves);
    FoldOne(Next, START, moves, Move(pid, Open(file)));
    assert Consistent(Run(moves), ProcOf(Run(moves), pid).id);
    IntactStep(Run(moves), Move(pid, Open(file)));
  }

  const SHARED := Config("a")
  const ENTRY := Component(SHARED, Some("x"))

  /** The steps of two overlapping extensions, and the states they lead through. */
  const OVERLAP := [
    Move(0, StartCreate(0)), Move(0, Mkdir), Move(0, OpenManifest), Move(0, WriteManifest), Move(0, InsertRecord),
    Move(0, Choose(0)), Move(0, StartExtend), Move(1, Choose(0)), Move(1, StartExtend),
    Move(0, Open(SHARED)), Move(0, Write("x", true)), Move(0, WriteTemp), Move(0, Replace), Move(1, Open(SHARED))]

  function Stop(k: nat): World {
    var extending := Extending(0, [], None);
    var empty := BackupDir(map[], Whole([]));
    if k == 0 then START
    else if k == 1 then World({}, {}, map[], {0}, map[0 := Creating(0)])
    else if k == 2 then World({}, {}, map[0 := BackupDir(map[], Absent)], {0}, map[0 := Copying(0, [], None)])
    else if k == 3 then World({}, {}, map[0 := BackupDir(map[], TornManifest)], {0}, map[0 := Listing(0, [])])
    else if k == 4 then World({}, {}, map[0 := empty], {0}, map[0 := Recording(0, [])])
    else if k == 5 then World({0}, {}, map[0 := empty], {0}, map[0 := Idle])
    else if k == 6 then World({0}, {}, map[0 := empty], {0}, map[0 := Chosen(0)])
    else if k == 7 then World({0}, {}, map[0 := empty], {0}, map[0 := extending])
    else if k == 8 then World({0}, {}, map[0 := empty], {0}, map[0 := extending, 1 := Chosen(0)])
    else if k == 9 then World({0}, {}, map[0 := empty], {0}, map[0 := extending, 1 := extending])
    else if k == 10 then World({0}, {}, map[0 := BackupDir(map[SHARED := Torn], Whole([]))], {0},
                               map[0 := Extending(0, [], Some(SHARED)), 1 := extending])
    else if k == 11 then World({0}, {}, map[0 := BackupDir(map[SHARED := Full("x")], Whole([]))], {0},
                               map[0 := Extending(0, [ENTRY], None), 1 := extending])
    else if k == 12 then World({0}, {}, map[0 := BackupDir(map[SHARED := Full("x")], Whole([]))], {0},
                               map[0 := Replacing(0, [ENTRY]), 1 := extending])
    else if k == 13 then World({0}, {}, map[0 := BackupDir(map[SHARED := Full("x")], Whole([ENTRY]))], {0},
                               map[0 := Idle, 1 := extending])
    else World({0}, {}, map[0 := BackupDir(map[SHARED := Torn], Whole([ENTRY]))], {0},
               map[0 := Idle, 1 := Extending(0, [], Some(SHARED))])
  }

  lemma OverlapStep(k: nat)
    requires k < |OVERLAP|
    ensures Next(Stop(k), OVERLAP[k]) == Stop(k + 1)
  {
    if k < 4 { OverlapEarly(k); }
    else if k < 10 { OverlapMiddle(k); }
    else if k == 10 { OverlapWrites(); }
    else if k < 13 { OverlapReplaces(k); }
    else { OverlapTears(); }
  }

  lemma OverlapEarly(k: nat)
    requires k < 4
    ensures Next(Stop(k), OVERLAP[k]) == Stop(k + 1)
  {
  }

  lemma OverlapMiddle(k: nat)
    requires 4 <= k < 10
    ensures Next(Stop(k), OVERLAP[k]) == Stop(k + 1)
  {
  }

  lemma OverlapWrites()
    ensures Next(Stop(10), OVERLAP[10]) == Stop(11)
  {
    var after := Next(Stop(10), OVERLAP[10]);
    assert [] + [Entry(SHARED, "x", true)] == [ENTRY];
    assert after.procs == Stop(11).procs;
    assert after.dirs[0].files == map[SHARED := Full("x")];
    assert after.dirs == Stop(11).dirs;
  }

  lemma OverlapReplaces(k: nat)
    requires k == 11 || k == 12
    ensures Next(Stop(k), OVERLAP[k]) == Stop(k + 1)
  {
  }

  lemma OverlapTears()
    ensures Next(Stop(13), OVERLAP[13]) == Stop(14)
  {
    var after := Next(Stop(13), OVERLAP[13]);
    assert after.dirs[0].files == map[SHARED := Torn];
    assert after.dirs == Stop(14).dirs;
  }

  lemma {:induction false} OverlapReaches(k: nat)
    requires k <= |OVERLAP|
    ensures Run(OVERLAP[..k]) == Stop(k)
  {
    if k > 0 {
      OverlapReaches(k - 1);
      OverlapStep(k - 1);
      assert OVERLAP[..k] == OVERLAP[..k - 1] + [OVERLAP[k - 1]];
      FoldOne(Next, START, OVERLAP[..k - 1], OVERLAP[k - 1]);
    }
  }

  /** Without that, one process can truncate a file that the other has just listed. */
  lemma OverlapTearsListedFile()
    ensures var w := Run(OVERLAP); 0 in w.records && Good(w, 0) && !Matches(w, 0, w.dirs[0].manifest.components)
  {
    OverlapReaches(14);
    assert OVERLAP[..14] == OVERLAP;
    assert ENTRY in Stop(14).dirs[0].manifest.components && !Intact(Stop(14), 0, ENTRY);
  }
}
