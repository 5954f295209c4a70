/** Creating, extending and deleting one backup, step by step, while other
    processes work beside this one. Every run of these methods is a run of the
    machine of BackupLifecycle. */
module BackupStore {
  import opened Wrappers
  import opened Runs
  import opened BackupLifecycle

  /** How the next step of this process goes. */
  datatype Fault = Works | Fails | Dies

  /** One file that a creation copies, dumps or archives. */
  datatype Item = Item(file: File, data: string, checked: bool)

  datatype SourceState = IsDirectory | NotThere | Refused | Holds(data: string)

  datatype Source = Source(name: string, state: SourceState)

  function Entries(items: seq<Item>): (cs: seq<Component>)
    ensures |cs| == |items|
    ensures forall i :: 0 <= i < |items| ==> cs[i] == Entry(items[i].file, items[i].data, items[i].checked)
  {
    seq(|items|, i requires 0 <= i < |items| => Entry(items[i].file, items[i].data, items[i].checked))
  }

  predicate Distinct(items: seq<Item>) {
    forall i, j :: 0 <= i < j < |items| ==> items[i].file != items[j].file
  }

  /** The directory holds exactly the items, each in full. */
  predicate HoldsExactly(d: BackupDir, items: seq<Item>) {
    && (forall f :: f in d.files ==> exists i :: 0 <= i < |items| && items[i].file == f)
    && (forall i :: 0 <= i < |items| ==> items[i].file in d.files && d.files[items[i].file] == Full(items[i].data))
  }

  /** The manifest after adding source files: the files it lists already, folders
      and missing paths are passed over. */
  function Extended(cs: seq<Component>, sources: seq<Source>): seq<Component> {
    if sources == [] then cs
    else
      var most, s := Extended(cs, sources[..|sources| - 1]), sources[|sources| - 1];
      if Config(s.name) in Listed(most) || !s.state.Holds? then most
      else most + [Entry(Config(s.name), s.state.data, true)]
  }

  /** Some source must not be copied, and is not listed when its turn comes. */
  predicate Refuses(cs: seq<Component>, sources: seq<Source>) {
    exists i :: 0 <= i < |sources| && sources[i].state.Refused?
                && Config(sources[i].name) !in Listed(Extended(cs, sources[..i]))
  }

  /** A file that must not be copied is listed already. */
  predicate NoneRefused(cs: seq<Component>, sources: seq<Source>) {
    forall s :: s in sources && s.state.Refused? ==> Config(s.name) in Listed(cs)
  }

  /** What was listed stays listed first, every readable source is listed, and
      nothing else is. */
  lemma {:induction false} ExtendedCovers(cs: seq<Component>, sources: seq<Source>)
    ensures cs <= Extended(cs, sources)
    ensures forall s :: s in sources && s.state.Holds? ==> Config(s.name) in Listed(Extended(cs, sources))
    ensures forall f :: f in Listed(Extended(cs, sources)) ==>
              f in Listed(cs) || exists s :: s in sources && s.state.Holds? && f == Config(s.name)
    ensures (forall i, j :: 0 <= i < j < |cs| ==> cs[i].file != cs[j].file) ==>
              forall i, j :: 0 <= i < j < |Extended(cs, sources)| ==> Extended(cs, sources)[i].file != Extended(cs, sources)[j].file
  {
    if sources != [] {
      var before, s := sources[..|sources| - 1], sources[|sources| - 1];
      ExtendedCovers(cs, before);
      assert sources == before + [s];
      var most, all := Extended(cs, before), Extended(cs, sources);
      assert s.state.Holds? ==> Config(s.name) in Listed(all) by {
        if all != most { assert all[|most|] in all; }
      }
      assert forall f :: f in Listed(most) ==> f in Listed(all) by {
        assert forall c :: c in most ==> c in all;
      }
      if all != most {
        assert forall c :: c in all ==> c in most || c.file == Config(s.name);
        forall i | 0 <= i < |most|
          ensures all[i].file != all[|most|].file
        {
          assert most[i] in most && most[i].file in Listed(most);
        }
      }
    }
  }

  /** Steps of other processes. */
  predicate Others(pid: Pid, moves: seq<Move>) {
    forall i :: 0 <= i < |moves| ==> moves[i].pid != pid
  }

  /** Others never change what this process is doing, nor anything of a backup it is creating. */
  lemma {:induction false} OthersSpare(w: World, pid: Pid, moves: seq<Move>)
    requires Inv(w) && Others(pid, moves)
    ensures var after := Fold(Next, w, moves);
            && Inv(after) && ProcOf(after, pid) == ProcOf(w, pid) && w.used <= after.used
            && (Creates(ProcOf(w, pid)) ==> Alone(w, after, ProcOf(w, pid).id))
            && (!ProcOf(w, pid).Idle? && ProcOf(w, pid).id in after.records ==> ProcOf(w, pid).id in w.records)
  {
    if moves != [] {
      var most, m := moves[..|moves| - 1], moves[|moves| - 1];
      OthersSpare(w, pid, most);
      var mid := Fold(Next, w, most);
      assert m.pid != pid;
      StepKeeps(mid, m);
      StepKeepsOther(mid, m, pid);
      assert mid.used <= Next(mid, m).used;
      if Creates(ProcOf(w, pid)) {
        StepSparesOthers(mid, m, ProcOf(w, pid).id);
      } else if !ProcOf(w, pid).Idle? {
        StepSparesOthers(mid, m, ProcOf(w, pid).id);
        assert Creates(ProcOf(mid, m.pid)) ==> !Touches(ProcOf(mid, pid), ProcOf(mid, m.pid).id);
      }
    }
  }

  lemma OthersRun(trail: seq<Move>, pid: Pid, moves: seq<Move>)
    requires Others(pid, moves)
    ensures var w, after := Run(trail), Run(trail + moves);
            && after == Fold(Next, w, moves) && Inv(after) && ProcOf(after, pid) == ProcOf(w, pid) && w.used <= after.used
            && (Creates(ProcOf(w, pid)) ==> Alone(w, after, ProcOf(w, pid).id))
            && (!ProcOf(w, pid).Idle? && ProcOf(w, pid).id in after.records ==> ProcOf(w, pid).id in w.records)
  {
    RunKeeps(trail);
    OthersSpare(Run(trail), pid, moves);
    FoldJoin(Next, START, trail, moves);
  }

  lemma SameDiskSameProc(v: World, w: World, p: Proc)
    requires ProcOk(v, p) && w.records == v.records && w.doubtful == v.doubtful && w.dirs == v.dirs && w.used == v.used
    ensures ProcOk(w, p)
  {
  }

  lemma OneMore(trail: seq<Move>, m: Move)
    ensures Run(trail + [m]) == Next(Run(trail), m) && Inv(Run(trail + [m]))
  {
    RunKeeps(trail + [m]);
    FoldOne(Next, START, trail, m);
  }

  /** The process itself has done nothing but look a backup up and give up. */
  predicate Quiet(pid: Pid, moves: seq<Move>) {
    forall i :: 0 <= i < |moves| && moves[i].pid == pid ==> moves[i].act.Choose? || moves[i].act.Fail? || moves[i].act.Crash?
  }

  lemma QuietJoin(pid: Pid, a: seq<Move>, b: seq<Move>, c: seq<Move>)
    requires a <= b <= c && Quiet(pid, b[|a|..]) && Quiet(pid, c[|b|..])
    ensures Quiet(pid, c[|a|..])
  {
    assert c[|a|..] == b[|a|..] + c[|b|..];
  }

  /** The backup that a process works on, the run when it began and when it last read the
      manifest, and whether it has so far kept the manifest as it was. */
  datatype Task = Task(id: Id, begun: seq<Move>, looked: seq<Move>, keep: bool)

  function ManifestOf(w: World, id: Id): Manifest {
    if id in w.dirs then w.dirs[id].manifest else Absent
  }

  /** A step that leaves every other backup alone, and the manifest of this one if it is to be kept. */
  ghost predicate SparesOne(v: World, w: World, id: Id, keep: bool) {
    && (forall o :: o != id ==> Alone(v, w, o))
    && (keep ==> ManifestOf(w, id) == ManifestOf(v, id))
  }

  ghost predicate SparesAt(t: Task, trail: seq<Move>, i: nat)
    requires i < |trail|
  {
    SparesOne(Run(trail[..i]), Run(trail[..i + 1]), t.id, t.keep)
  }

  /** Since a process began its task, none of its own steps has touched another backup. */
  ghost predicate Spares(pid: Pid, t: Task, trail: seq<Move>) {
    forall i :: |t.begun| <= i < |trail| && trail[i].pid == pid ==> SparesAt(t, trail, i)
  }

  lemma SparesWith(pid: Pid, t: Task, trail: seq<Move>, moves: seq<Move>)
    requires Spares(pid, t, trail) && Others(pid, moves)
    ensures Spares(pid, t, trail + moves)
  {
    var all := trail + moves;
    forall i | |t.begun| <= i < |all| && all[i].pid == pid
      ensures SparesAt(t, all, i)
    {
      assert i < |trail| && SparesAt(t, trail, i);
      assert all[..i] == trail[..i] && all[..i + 1] == trail[..i + 1];
    }
  }

  lemma SparesOwn(pid: Pid, t: Task, trail: seq<Move>, a: Act)
    requires Spares(pid, t, trail)
    requires ProcOf(Run(trail), pid).Idle? || ProcOf(Run(trail), pid).id == t.id
    requires t.keep ==> ManifestOf(Next(Run(trail), Move(pid, a)), t.id) == ManifestOf(Run(trail), t.id)
    ensures Spares(pid, t, trail + [Move(pid, a)])
  {
    var all := trail + [Move(pid, a)];
    OneMore(trail, Move(pid, a));
    RunKeeps(trail);
    forall i | |t.begun| <= i < |all| && all[i].pid == pid
      ensures SparesAt(t, all, i)
    {
      if i < |trail| {
        assert SparesAt(t, trail, i);
        assert all[..i] == trail[..i] && all[..i + 1] == trail[..i + 1];
      } else {
        assert all[..i] == trail && all[..i + 1] == all;
        forall o | o != t.id
          ensures Alone(Run(trail), Run(all), o)
        {
          StepSparesOthers(Run(trail), Move(pid, a), o);
        }
      }
    }
  }

  /** With nobody else at work, every other backup is as it was when the task began. */
  lemma {:induction false} OthersAsTheyWere(pid: Pid, t: Task, trail: seq<Move>, o: Id)
    requires t.begun <= trail && Spares(pid, t, trail) && o != t.id
    requires forall i :: |t.begun| <= i < |trail| ==> trail[i].pid == pid
    ensures Alone(Run(t.begun), Run(trail), o)
  {
    if t.begun != trail {
      var most := trail[..|trail| - 1];
      assert |t.begun| < |trail| by { assert trail[..|t.begun|] == t.begun; }
      assert t.begun <= most;
      assert SparesAt(t, trail, |most|) && trail[..|most|] == most && trail[..|most| + 1] == trail;
      assert Alone(Run(most), Run(trail), o);
      forall i | |t.begun| <= i < |most| && most[i].pid == pid
        ensures SparesAt(t, most, i)
      {
        assert SparesAt(t, trail, i) && most[..i] == trail[..i] && most[..i + 1] == trail[..i + 1];
      }
      OthersAsTheyWere(pid, t, most, o);
    }
  }

  class Store {
    const pid: Pid
    const fault: nat -> Fault
    /** Whether an insert that reports an error has been committed nevertheless. */
    const commits: nat -> bool
    const others: nat -> seq<Move>
    var clock: nat
    var records: set<Id>
    var doubtful: set<Id>
    var dirs: map<Id, BackupDir>
    var used: set<Id>
    var procs: map<Pid, Proc>
    ghost var trail: seq<Move>
    ghost var task: Task

    function View(): World reads this { World(records, doubtful, dirs, used, procs) }

    function Mine(): Proc reads this { ProcOf(View(), pid) }

    ghost predicate Valid() reads this {
      && View() == Run(trail) && Inv(View())
      && (forall n :: Others(pid, others(n)))
      && task.begun <= task.looked <= trail && Spares(pid, task, trail)
      && (Mine().Idle? || (Mine().id == task.id && (task.keep ==> Mine().Chosen? || Extends(Mine()))))
    }

    /** Every step of this process has worked in some stretch of its time. */
    predicate AllWork(a: nat, b: nat) {
      forall n :: a <= n < b ==> fault(n).Works?
    }

    /** The run goes on, with the same task. */
    ghost predicate Since(was: seq<Move>, t: Task) reads this { task == t && was <= trail }

    constructor (pid: Pid, fault: nat -> Fault, commits: nat -> bool, others: nat -> seq<Move>)
      requires forall n :: Others(pid, others(n))
      ensures Valid() && this.pid == pid && this.fault == fault && this.commits == commits && this.others == others && View() == START
    {
      this.pid, this.fault, this.commits, this.others := pid, fault, commits, others;
      clock, records, doubtful, dirs, used, procs, trail := 0, {}, {}, map[], {}, map[], [];
      task := Task(0, [], [], false);
    }

    /** Start on a backup. */
    ghost method Begin(id: Id, keep: bool)
      requires Valid() && Mine().Idle?
      modifies this`task
      ensures Valid() && task == Task(id, trail, trail, keep)
    {
      task := Task(id, trail, trail, keep);
    }

    /** A step of this process has been taken. */
    ghost method Took(before: World, a: Act)
      requires before == Run(trail) && Inv(before) && View() == Next(before, Move(pid, a))
      requires forall n :: Others(pid, others(n))
      requires task.begun <= task.looked <= trail && Spares(pid, task, trail)
      requires ProcOf(before, pid).Idle? || ProcOf(before, pid).id == task.id
      requires Mine().Idle? || (Mine().id == task.id && (task.keep ==> Mine().Chosen? || Extends(Mine())))
      requires task.keep ==> ManifestOf(View(), task.id) == ManifestOf(before, task.id)
      modifies this`trail
      ensures Valid() && trail == old(trail) + [Move(pid, a)]
    {
      OneMore(trail, Move(pid, a));
      SparesOwn(pid, task, trail, a);
      trail := trail + [Move(pid, a)];
    }

    method Become(p: Proc)
      modifies this`procs
      ensures procs == old(procs)[pid := p]
    {
      procs := procs[pid := p];
    }

    /** Let the others work. */
    method Meanwhile()
      requires Valid()
      modifies this
      ensures clock == old(clock) + 1
      ensures Valid() && Since(old(trail), old(task)) && Mine() == old(Mine()) && old(used) <= used
      ensures Creates(old(Mine())) ==> Alone(old(View()), View(), old(Mine()).id)
      ensures !Mine().Idle? && Mine().id in records ==> Mine().id in old(records)
      ensures trail == old(trail) + others(old(clock))
    {
      assert Others(pid, others(clock));
      OthersRun(trail, pid, others(clock));
      SparesWith(pid, task, trail, others(clock));
      Adopt(Fold(Next, View(), others(clock)), others(clock));
      clock := clock + 1;
    }

    /** The state that the others leave. */
    method Adopt(w: World, ghost moves: seq<Move>)
      modifies this`records, this`doubtful, this`dirs, this`used, this`procs, this`trail
      ensures View() == w && trail == old(trail) + moves
    {
      records, doubtful, dirs, used, procs := w.records, w.doubtful, w.dirs, w.used, w.procs;
      trail := trail + moves;
    }

    method Die()
      requires Valid()
      modifies this
      ensures clock == old(clock)
      ensures Valid() && Since(old(trail), old(task)) && Mine() == Idle && trail == old(trail) + [Move(pid, Crash)]
      ensures records == old(records) && doubtful == old(doubtful) && dirs == old(dirs) && used == old(used)
    {
      ghost var now := View();
      Become(Idle);
      Took(now, Crash);
    }

    /** Let the others work, then find out how the next step goes; a process that dies stops here. */
    method Ready() returns (f: Fault)
      requires Valid()
      modifies this
      ensures old(clock) <= clock && (AllWork(old(clock), clock) ==> f.Works?)
      ensures Valid() && Since(old(trail), old(task))
      ensures old(used) <= used
      ensures f.Dies? ==> Mine() == Idle
      ensures !f.Dies? ==> Mine() == old(Mine())
      ensures ProcOk(View(), old(Mine()))
      ensures Creates(old(Mine())) ==> Alone(old(View()), View(), old(Mine()).id)
      ensures !old(Mine()).Idle? && old(Mine()).id in records ==> old(Mine()).id in old(records)
      ensures old(trail) <= trail && Quiet(pid, trail[|old(trail)|..])
    {
      f := fault(clock);
      Meanwhile();
      assert AllWork(clock - 1, clock) ==> fault(clock - 1).Works?;
      assert ProcOk(View(), Mine());
      if f.Dies? {
        ghost var v := View();
        Die();
        SameDiskSameProc(v, View(), old(Mine()));
      }
    }

    /** Give up what this process was doing. */
    method GiveUp()
      requires Valid()
      modifies this
      ensures clock == old(clock)
      ensures Valid() && Since(old(trail), old(task)) && Mine() == AfterFail(old(Mine())) && trail == old(trail) + [Move(pid, Fail)]
      ensures records == old(records) && doubtful == old(doubtful) && dirs == old(dirs) && used == old(used)
    {
      ghost var before := View();
      Become(AfterFail(ProcOf(View(), pid)));
      Took(before, Fail);
    }

    /** Create or truncate a file of this process's backup, and write it. */
    method OpenFile(file: File)
      requires Valid() && (Mine().Copying? || (Mine().Extending? && file.Config?))
      requires Mine().at.None? && file !in Listed(Mine().components)
      modifies this
      ensures clock == old(clock)
      ensures Valid() && Since(old(trail), old(task)) && records == old(records) && used == old(used)
      ensures View().dirs == Truncated(old(View()), old(Mine()).id, file).dirs
      ensures var p := old(Mine());
              Mine() == if p.Copying? then Copying(p.id, p.components, Some(file)) else Extending(p.id, p.components, Some(file))
    {
      ghost var before := View();
      var p := ProcOf(View(), pid);
      var d := if p.id in dirs then dirs[p.id] else BackupDir(map[], Absent);
      dirs := dirs[p.id := d.(files := d.files[file := Torn])];
      Become(if p.Copying? then Copying(p.id, p.components, Some(file)) else Extending(p.id, p.components, Some(file)));
      Took(before, Open(file));
    }

    method WriteFile(data: string, checked: bool)
      requires Valid() && (Mine().Copying? || Mine().Extending?) && Mine().at.Some?
      modifies this
      ensures clock == old(clock)
      ensures Valid() && Since(old(trail), old(task)) && records == old(records) && used == old(used)
      ensures View().dirs == Written(old(View()), old(Mine()).id, old(Mine()).at.value, data).dirs
      ensures var p := old(Mine()); var cs := p.components + [Entry(p.at.value, data, checked)];
              Mine() == if p.Copying? then Copying(p.id, cs, None) else Extending(p.id, cs, None)
    {
      ghost var before := View();
      var p := ProcOf(View(), pid);
      var cs := p.components + [Entry(p.at.value, data, checked)];
      if p.id in dirs && p.at.value in dirs[p.id].files {
        dirs := dirs[p.id := dirs[p.id].(files := dirs[p.id].files[p.at.value := Full(data)])];
      }
      Become(if p.Copying? then Copying(p.id, cs, None) else Extending(p.id, cs, None));
      Took(before, Write(data, checked));
    }

    method PutManifest(m: Manifest, next: Proc, a: Act)
      requires Valid() && !Mine().Idle? && (next.Idle? || next.id == Mine().id)
      requires task.keep ==> next.Idle? && Mine().id !in dirs
      requires Next(View(), Move(pid, a)) == Set(SetManifest(View(), Mine().id, m), pid, next)
      modifies this
      ensures clock == old(clock)
      ensures Valid() && Since(old(trail), old(task)) && records == old(records) && used == old(used) && Mine() == next
      ensures View().dirs == SetManifest(old(View()), old(Mine()).id, m).dirs
    {
      ghost var before := View();
      var id := ProcOf(View(), pid).id;
      if id in dirs { dirs := dirs[id := dirs[id].(manifest := m)]; }
      Become(next);
      Took(before, a);
    }

    /** This process has copied some items and nothing else. */
    ghost predicate Copied(id: Id, done: seq<Item>) reads this {
      && Mine() == Copying(id, Entries(done), None) && id in used && id !in records
      && id in dirs && HoldsExactly(dirs[id], done) && dirs[id].manifest.Absent?
    }

    /** The next item is open, and the others are as they were copied. */
    ghost predicate Opened(id: Id, done: seq<Item>, item: Item) reads this {
      && Mine() == Copying(id, Entries(done), Some(item.file)) && id in used && id !in records
      && id in dirs && item.file in dirs[id].files && HoldsBut(dirs[id], done, item.file) && dirs[id].manifest.Absent?
    }

    /** Copy one item into a backup that is being created. */
    method CopyItem(id: Id, item: Item, ghost done: seq<Item>) returns (f: Fault)
      requires Valid() && Copied(id, done) && Distinct(done + [item])
      modifies this
      ensures old(clock) <= clock && (AllWork(old(clock), clock) ==> f.Works?)
      ensures Valid() && Since(old(trail), old(task)) && id in used && id !in records
      ensures f.Works? ==> Copied(id, done + [item])
      ensures f.Fails? ==> Mine().Copying? && Mine().id == id
      ensures f.Dies? ==> Mine().Idle?
    {
      f := OpenItem(id, item, done);
      if !f.Works? { return; }
      f := FillItem(id, item, done);
    }

    method OpenItem(id: Id, item: Item, ghost done: seq<Item>) returns (f: Fault)
      requires Valid() && Copied(id, done) && Distinct(done + [item])
      modifies this
      ensures old(clock) <= clock && (AllWork(old(clock), clock) ==> f.Works?)
      ensures Valid() && Since(old(trail), old(task)) && id in used && id !in records
      ensures f.Works? ==> Opened(id, done, item)
      ensures f.Fails? ==> Mine().Copying? && Mine().id == id
      ensures f.Dies? ==> Mine().Idle?
    {
      f := Ready();
      if !f.Works? { return; }
      NotYetListed(done, item);
      OpenFile(item.file);
      HoldsOpened(done, item);
    }

    method FillItem(id: Id, item: Item, ghost done: seq<Item>) returns (f: Fault)
      requires Valid() && Opened(id, done, item)
      modifies this
      ensures old(clock) <= clock && (AllWork(old(clock), clock) ==> f.Works?)
      ensures Valid() && Since(old(trail), old(task)) && id in used && id !in records
      ensures f.Works? ==> Copied(id, done + [item])
      ensures f.Fails? ==> Mine().Copying? && Mine().id == id
      ensures f.Dies? ==> Mine().Idle?
    {
      f := Ready();
      if !f.Works? { return; }
      WriteFile(item.data, item.checked);
      assert Entries(done + [item]) == Entries(done) + [Entry(item.file, item.data, item.checked)];
      HoldsOneMore(dirs[id], done, item);
    }

    /** CreateBackup: directory, files, manifest and only then the record. On success the
        backup holds exactly its items and its record is not in doubt; on failure there is no
        record of it, unless the insert was committed all the same. It succeeds whenever all
        its steps work. */
    method CreateBackup(id: Id, items: seq<Item>) returns (ok: bool)
      requires Valid() && Mine().Idle? && id !in used && Distinct(items)
      modifies this
      ensures old(clock) <= clock && (AllWork(old(clock), clock) ==> ok)
      ensures Valid() && Mine().Idle?
      ensures old(trail) <= trail && Spares(pid, Task(id, old(trail), old(trail), false), trail)
      ensures ok ==> id in records && id !in doubtful
      ensures ok ==> id in dirs && HoldsExactly(dirs[id], items) && dirs[id].manifest == Whole(Entries(items))
      ensures !ok ==> id !in records || id in doubtful
    {
      Begin(id, false);
      StartCreating(id);
      var f := FillDirectory(id, items);
      ok := false;
      if f.Works? {
        ok := InsertRow(id);
      } else if f.Fails? {
        CleanUp(id);
      }
    }

    /** The record, and the cleanup when its insert reports an error. */
    method InsertRow(id: Id) returns (ok: bool)
      requires Valid() && Mine().Recording? && Mine().id == id && id in dirs && !task.keep
      modifies this
      ensures old(clock) <= clock && (AllWork(old(clock), clock) ==> ok)
      ensures Valid() && Since(old(trail), old(task)) && Mine().Idle?
      ensures ok ==> id in records && id !in doubtful && id in dirs && dirs[id] == old(dirs[id])
      ensures !ok ==> id !in records || id in doubtful
    {
      ok := false;
      assert ProcOk(View(), Mine());
      var f := Ready();
      if f.Works? {
        Record(id);
        ok := true;
      } else if f.Fails? && commits(clock) {
        RecordInDoubt(id);
        var _ := RemoveAll(id);
      } else if f.Fails? {
        CleanUp(id);
      }
    }

    /** A creation that fails removes what it has made, if it has made anything. */
    method CleanUp(id: Id)
      requires Valid() && Creates(Mine()) && Mine().id == id && id !in records
      modifies this
      ensures old(clock) <= clock
      ensures Valid() && Since(old(trail), old(task)) && Mine().Idle? && id !in records
    {
      GiveUp();
      if ProcOf(View(), pid).Removing? { var _ := RemoveAll(id); }
    }

    method StartCreating(id: Id)
      requires Valid() && Mine().Idle? && id !in used && task.id == id && !task.keep
      modifies this
      ensures clock == old(clock)
      ensures Valid() && Since(old(trail), old(task)) && Mine() == Creating(id) && id in used && id !in records
    {
      ghost var before := View();
      used := used + {id};
      Become(Creating(id));
      Took(before, StartCreate(id));
    }

    method FillDirectory(id: Id, items: seq<Item>) returns (f: Fault)
      requires Valid() && Mine() == Creating(id) && Distinct(items)
      modifies this
      ensures old(clock) <= clock && (AllWork(old(clock), clock) ==> f.Works?)
      ensures Valid() && Since(old(trail), old(task)) && id in used && id !in records
      ensures f.Works? ==> Mine() == Recording(id, Entries(items))
      ensures f.Works? ==> id in dirs && HoldsExactly(dirs[id], items) && dirs[id].manifest == Whole(Entries(items))
      ensures f.Fails? ==> Creates(Mine()) && Mine().id == id
      ensures f.Dies? ==> Mine().Idle?
    {
      assert ProcOk(View(), Mine());
      f := Ready();
      if !f.Works? { return; }
      MakeDirectory(id);
      f := CopyItems(id, items);
      if !f.Works? { return; }
      f := ListItems(id, items);
    }

    method CopyItems(id: Id, items: seq<Item>) returns (f: Fault)
      requires Valid() && Mine() == Copying(id, [], None) && Distinct(items)
      requires id in dirs && dirs[id] == BackupDir(map[], Absent)
      modifies this
      ensures old(clock) <= clock && (AllWork(old(clock), clock) ==> f.Works?)
      ensures Valid() && Since(old(trail), old(task)) && id in used && id !in records
      ensures f.Works? ==> Mine() == Copying(id, Entries(items), None)
      ensures f.Works? ==> id in dirs && HoldsExactly(dirs[id], items)
      ensures f.Fails? ==> Mine().Copying? && Mine().id == id
      ensures f.Dies? ==> Mine().Idle?
    {
      assert ProcOk(View(), Mine());
      f := Works;
      assert items[..0] == [] && Copied(id, items[..0]);
      for i := 0 to |items|
        invariant old(clock) <= clock
        invariant Valid() && Since(old(trail), old(task)) && f.Works? && Copied(id, items[..i])
      {
        DistinctPrefix(items, i);
        f := CopyItem(id, items[i], items[..i]);
        if !f.Works? { return; }
      }
      assert items[..|items|] == items;
    }

    method ListItems(id: Id, items: seq<Item>) returns (f: Fault)
      requires Valid() && Mine() == Copying(id, Entries(items), None)
      requires id in dirs && HoldsExactly(dirs[id], items)
      modifies this
      ensures old(clock) <= clock && (AllWork(old(clock), clock) ==> f.Works?)
      ensures Valid() && Since(old(trail), old(task)) && id in used && id !in records
      ensures f.Works? ==> Mine() == Recording(id, Entries(items))
      ensures f.Works? ==> id in dirs && HoldsExactly(dirs[id], items) && dirs[id].manifest == Whole(Entries(items))
      ensures f.Fails? ==> (Mine().Copying? || Mine().Listing?) && Mine().id == id
      ensures f.Dies? ==> Mine().Idle?
    {
      assert ProcOk(View(), Mine());
      f := Ready();
      if !f.Works? { return; }
      TruncateManifest(id);
      f := Ready();
      if !f.Works? { return; }
      FillManifest(id);
    }

    method TruncateManifest(id: Id)
      requires Valid() && Mine().Copying? && Mine().at.None? && Mine().id == id && id in dirs
      modifies this
      ensures clock == old(clock)
      ensures Valid() && Since(old(trail), old(task)) && records == old(records) && used == old(used)
      ensures Mine() == Listing(id, old(Mine()).components)
      ensures dirs == old(dirs)[id := old(dirs)[id].(manifest := TornManifest)]
    {
      PutManifest(TornManifest, Listing(id, ProcOf(View(), pid).components), OpenManifest);
    }

    method FillManifest(id: Id)
      requires Valid() && Mine().Listing? && Mine().id == id && id in dirs
      modifies this
      ensures clock == old(clock)
      ensures Valid() && Since(old(trail), old(task)) && records == old(records) && used == old(used)
      ensures Mine() == Recording(id, old(Mine()).components)
      ensures dirs == old(dirs)[id := old(dirs)[id].(manifest := Whole(old(Mine()).components))]
    {
      PutManifest(Whole(ProcOf(View(), pid).components), Recording(id, ProcOf(View(), pid).components), WriteManifest);
    }

    method MakeDirectory(id: Id)
      requires Valid() && Mine() == Creating(id)
      modifies this
      ensures clock == old(clock)
      ensures Valid() && Since(old(trail), old(task)) && Mine() == Copying(id, [], None) && used == old(used)
      ensures dirs == old(dirs)[id := BackupDir(map[], Absent)]
    {
      ghost var before := View();
      dirs := dirs[id := BackupDir(map[], Absent)];
      Become(Copying(id, [], None));
      Took(before, Mkdir);
    }

    method Record(id: Id)
      requires Valid() && Mine().Recording? && Mine().id == id
      modifies this
      ensures clock == old(clock)
      ensures Valid() && Since(old(trail), old(task)) && Mine().Idle?
      ensures dirs == old(dirs) && records == old(records) + {id} && doubtful == old(doubtful)
    {
      ghost var before := View();
      records := records + {id};
      Become(Idle);
      Took(before, InsertRecord);
    }

    /** The insert is committed and reports an error. */
    method RecordInDoubt(id: Id)
      requires Valid() && Mine().Recording? && Mine().id == id
      modifies this
      ensures clock == old(clock)
      ensures Valid() && Since(old(trail), old(task)) && Mine() == Removing(id) && dirs == old(dirs)
      ensures records == old(records) + {id} && doubtful == old(doubtful) + {id}
    {
      ghost var before := View();
      records, doubtful := records + {id}, doubtful + {id};
      Become(Removing(id));
      Took(before, InsertInDoubt);
    }

    /** Remove the files of a backup until done or until something fails. A record that is
        gone does not come back; a removal that completes leaves no directory. */
    method RemoveAll(id: Id) returns (ok: bool)
      requires Valid() && Mine() == Removing(id)
      modifies this
      ensures old(clock) <= clock && (AllWork(old(clock), clock) ==> ok)
      ensures Valid() && Since(old(trail), old(task)) && Mine().Idle?
      ensures id in records ==> id in old(records) && id in doubtful
      ensures ok ==> id !in dirs
    {
      var rest := if id in dirs then dirs[id].files.Keys else {};
      while rest != {}
        invariant old(clock) <= clock
        invariant Valid() && Since(old(trail), old(task)) && Mine() == Removing(id)
        invariant id in records ==> id in old(records)
        decreases |rest|
      {
        var file :| file in rest;
        rest := rest - {file};
        ok := RemoveOne(id, Some(file));
        if !ok { return; }
      }
      ok := RemoveOne(id, None);
    }

    /** Remove one file, or at the end the directory with its manifest. */
    method RemoveOne(id: Id, file: Option<File>) returns (ok: bool)
      requires Valid() && Mine() == Removing(id)
      modifies this
      ensures old(clock) <= clock && (AllWork(old(clock), clock) ==> ok)
      ensures Valid() && Since(old(trail), old(task))
      ensures id in records ==> id in old(records) && id in doubtful
      ensures Mine() == if ok && file.Some? then Removing(id) else Idle
      ensures ok && file.None? ==> id !in dirs
    {
      var f := Ready();
      ok := f.Works?;
      if !ok {
        if f.Fails? { GiveUp(); }
      } else if file.Some? {
        RemoveFile(id, file.value);
      } else {
        RemoveDirectory(id);
      }
    }

    method RemoveFile(id: Id, file: File)
      requires Valid() && Mine() == Removing(id)
      modifies this
      ensures clock == old(clock)
      ensures Valid() && Since(old(trail), old(task)) && Mine() == Removing(id)
      ensures records == old(records) && doubtful == old(doubtful)
    {
      ghost var before := View();
      if id in dirs { dirs := dirs[id := dirs[id].(files := dirs[id].files - {file})]; }
      Took(before, Drop(file));
    }

    method RemoveDirectory(id: Id)
      requires Valid() && Mine() == Removing(id)
      modifies this
      ensures clock == old(clock)
      ensures Valid() && Since(old(trail), old(task)) && Mine() == Idle && id !in dirs
      ensures records == old(records) && doubtful == old(doubtful)
    {
      ghost var before := View();
      dirs := dirs - {id};
      Become(Idle);
      Took(before, DropDir);
    }

    /** Look a backup up by its record, to extend or delete it. */
    method Select(id: Id)
      requires Valid() && Mine().Idle? && id in records && task.id == id
      modifies this
      ensures clock == old(clock)
      ensures Valid() && Since(old(trail), old(task)) && Mine() == Chosen(id) && trail == old(trail) + [Move(pid, Choose(id))]
      ensures records == old(records) && dirs == old(dirs)
    {
      ghost var before := View();
      Become(Chosen(id));
      Took(before, Choose(id));
    }

    /** AddSourceFiles: copy the files that are not listed yet, then replace the manifest
        by a rename. The new manifest is what the sources call for, after a manifest that was
        read meanwhile; on failure this process has not changed the manifest at all. When all
        its steps work it fails only for a missing or broken manifest or a refused source. */
    method AddSourceFiles(id: Id, sources: seq<Source>) returns (ok: bool, ghost seen: seq<Move>)
      requires Valid() && Mine().Idle? && id in records
      modifies this
      ensures old(clock) <= clock
      ensures AllWork(old(clock), clock) && id in dirs && ManifestOf(Run(seen), id).Whole? ==>
                ok || Refuses(ManifestOf(Run(seen), id).components, sources)
      ensures Valid() && Mine().Idle?
      ensures old(trail) <= seen <= trail && Spares(pid, Task(id, old(trail), old(trail), !ok), trail)
      ensures ok ==> ManifestOf(Run(seen), id).Whole? && id in dirs
                     && dirs[id].manifest == Whole(Extended(ManifestOf(Run(seen), id).components, sources))
      ensures ok ==> NoneRefused(dirs[id].manifest.components, sources)
    {
      Begin(id, true);
      Select(id);
      ok := Extend(id, sources);
      seen := task.looked;
    }

    method Extend(id: Id, sources: seq<Source>) returns (ok: bool)
      requires Valid() && Mine() == Chosen(id) && task.keep
      modifies this
      ensures old(clock) <= clock
      ensures AllWork(old(clock), clock) && id in dirs && ManifestOf(Run(task.looked), id).Whole? ==>
                ok || Refuses(ManifestOf(Run(task.looked), id).components, sources)
      ensures Valid() && Mine().Idle?
      ensures old(trail) <= trail && task.id == id && task.begun == old(task).begun && task.keep == !ok
      ensures ok ==> ManifestOf(Run(task.looked), id).Whole? && id in dirs
                     && dirs[id].manifest == Whole(Extended(ManifestOf(Run(task.looked), id).components, sources))
      ensures ok ==> NoneRefused(dirs[id].manifest.components, sources)
    {
      ok := false;
      var f := Ready();
      Look();
      if !f.Works? || id !in dirs || !dirs[id].manifest.Whole? {
        if !f.Dies? { GiveUp(); }
        return;
      }
      ghost var read := dirs[id].manifest.components;
      ReadManifest(id);
      ok := CopyAndReplace(id, sources, read);
    }

    method CopyAndReplace(id: Id, sources: seq<Source>, ghost read: seq<Component>) returns (ok: bool)
      requires Valid() && Mine() == Extending(id, read, None) && task.keep
      modifies this
      ensures old(clock) <= clock && (AllWork(old(clock), clock) && id in dirs ==> ok || Refuses(read, sources))
      ensures Valid() && Mine().Idle? && Since(old(trail), old(task).(keep := !ok))
      ensures ok ==> id in dirs && dirs[id].manifest == Whole(Extended(read, sources))
      ensures ok ==> NoneRefused(Extended(read, sources), sources)
    {
      ok := false;
      var f := CopySources(id, sources, read);
      if f.Works? {
        ok := ReplaceManifest(id, Extended(read, sources));
      } else if f.Fails? {
        GiveUp();
      }
    }

    /** Write the whole manifest to a temporary file and rename it over the old one. */
    method ReplaceManifest(id: Id, ghost cs: seq<Component>) returns (ok: bool)
      requires Valid() && Mine() == Extending(id, cs, None) && task.keep
      modifies this
      ensures old(clock) <= clock && (AllWork(old(clock), clock) && id in dirs ==> ok)
      ensures Valid() && Mine().Idle?
      ensures Since(old(trail), old(task).(keep := !ok))
      ensures ok ==> id in dirs && dirs[id].manifest == Whole(cs)
    {
      ok := false;
      var f := Ready();
      if f.Works? {
        WriteTemporary();
        ok := RenameOver(id, cs);
      } else if f.Fails? {
        GiveUp();
      }
    }

    method RenameOver(id: Id, ghost cs: seq<Component>) returns (ok: bool)
      requires Valid() && Mine() == Replacing(id, cs) && task.keep
      modifies this
      ensures old(clock) <= clock && (AllWork(old(clock), clock) && id in dirs ==> ok)
      ensures Valid() && Mine().Idle?
      ensures Since(old(trail), old(task).(keep := !ok))
      ensures ok ==> id in dirs && dirs[id].manifest == Whole(cs)
    {
      ok := false;
      var f := Ready();
      if f.Works? {
        ok := id in dirs;
        ForgetKeep(ok);
        PutManifest(Whole(ProcOf(View(), pid).components), Idle, Replace);
      } else if f.Fails? {
        GiveUp();
      }
    }

    /** This is the run after which the manifest is read. */
    ghost method Look()
      requires Valid()
      modifies this`task
      ensures Valid() && task == old(task).(looked := trail)
    {
      task := task.(looked := trail);
      forall i | |task.begun| <= i < |trail| && trail[i].pid == pid
        ensures SparesAt(task, trail, i)
      {
        assert SparesAt(old(task), trail, i);
      }
    }

    /** From here on the manifest may change. */
    ghost method ForgetKeep(now: bool)
      requires Valid()
      modifies this`task
      ensures Valid() && task == old(task).(keep := old(task).keep && !now)
    {
      task := task.(keep := task.keep && !now);
      forall i | |task.begun| <= i < |trail| && trail[i].pid == pid
        ensures SparesAt(task, trail, i)
      {
        assert SparesAt(old(task), trail, i);
      }
    }

    method ReadManifest(id: Id)
      requires Valid() && Mine() == Chosen(id) && id in dirs && dirs[id].manifest.Whole?
      modifies this
      ensures clock == old(clock)
      ensures Valid() && Since(old(trail), old(task))
      ensures Mine() == Extending(id, old(dirs[id].manifest.components), None) && dirs == old(dirs)
    {
      ghost var before := View();
      Become(Extending(id, dirs[id].manifest.components, None));
      Took(before, StartExtend);
    }

    method WriteTemporary()
      requires Valid() && Mine().Extending? && Mine().at.None?
      modifies this
      ensures clock == old(clock)
      ensures Valid() && Since(old(trail), old(task)) && Mine() == Replacing(old(Mine()).id, old(Mine()).components) && dirs == old(dirs)
    {
      ghost var before := View();
      var p := ProcOf(View(), pid);
      Become(Replacing(p.id, p.components));
      Took(before, WriteTemp);
    }

    /** A file that must not be copied ends the extension, unless it is listed already. */
    method CopySources(id: Id, sources: seq<Source>, ghost read: seq<Component>) returns (f: Fault)
      requires Valid() && Mine() == Extending(id, read, None)
      modifies this
      ensures old(clock) <= clock && (AllWork(old(clock), clock) ==> f.Works? || Refuses(read, sources))
      ensures Valid() && Since(old(trail), old(task))
      ensures f.Works? ==> Mine() == Extending(id, Extended(read, sources), None)
      ensures f.Works? ==> NoneRefused(Extended(read, sources), sources)
      ensures f.Fails? ==> Mine().Extending?
      ensures f.Dies? ==> Mine().Idle?
    {
      f := Works;
      for i := 0 to |sources|
        invariant old(clock) <= clock
        invariant Valid() && Since(old(trail), old(task)) && f.Works? && Mine() == Extending(id, Extended(read, sources[..i]), None)
        invariant NoneRefused(Extended(read, sources[..i]), sources[..i])
      {
        ExtendedNext(read, sources, i);
        f := TakeSource(id, sources[i]);
        if !f.Works? { return; }
      }
      assert sources[..|sources|] == sources;
    }

    method TakeSource(id: Id, s: Source) returns (f: Fault)
      requires Valid() && Mine().Extending? && Mine().at.None? && Mine().id == id
      modifies this
      ensures old(clock) <= clock && (AllWork(old(clock), clock) ==>
                           f.Works? || (s.state.Refused? && Config(s.name) !in Listed(old(Mine()).components)))
      ensures Valid() && Since(old(trail), old(task))
      ensures var cs := old(Mine()).components;
              f.Works? ==>
                && (s.state.Refused? ==> Config(s.name) in Listed(cs))
                && Mine() == Extending(id, if Config(s.name) in Listed(cs) || !s.state.Holds? then cs
                                           else cs + [Entry(Config(s.name), s.state.data, true)], None)
      ensures f.Fails? ==> Mine().Extending?
      ensures f.Dies? ==> Mine().Idle?
    {
      f := Works;
      if Config(s.name) in Listed(ProcOf(View(), pid).components) { return; }
      match s.state
      case IsDirectory => return;
      case NotThere => return;
      case Refused => return Fails;
      case Holds(data) => f := CopySource(id, Config(s.name), data);
    }

    method CopySource(id: Id, file: File, data: string) returns (f: Fault)
      requires Valid() && Mine().Extending? && Mine().at.None? && Mine().id == id && file.Config? && file !in Listed(Mine().components)
      modifies this
      ensures old(clock) <= clock && (AllWork(old(clock), clock) ==> f.Works?)
      ensures Valid() && Since(old(trail), old(task))
      ensures f.Works? ==> Mine() == Extending(id, old(Mine()).components + [Entry(file, data, true)], None)
      ensures f.Fails? ==> Mine().Extending?
      ensures f.Dies? ==> Mine().Idle?
    {
      f := Ready();
      if !f.Works? { return; }
      OpenFile(file);
      f := Ready();
      if !f.Works? { return; }
      WriteFile(data, true);
    }

    /** deleteBackup: the record first. When that fails this process has done nothing to the
        backup; when it works the record stays gone, and the directory is gone as well once
        the removal is complete. */
    method DeleteBackup(id: Id) returns (ok: bool, removed: bool)
      requires Valid() && Mine().Idle? && id in records
      modifies this
      ensures old(clock) <= clock && (AllWork(old(clock), clock) ==> ok && removed)
      ensures Valid() && Mine().Idle?
      ensures ok ==> id !in records
      ensures removed ==> ok && id !in dirs
      ensures old(trail) <= trail && Spares(pid, Task(id, old(trail), old(trail), false), trail)
      ensures !ok ==> Quiet(pid, trail[|old(trail)|..])
    {
      removed := false;
      Begin(id, false);
      ok := TakeRecord(id);
      if ok { removed := RemoveAll(id); }
    }

    /** Look the backup up and delete its record; when that fails nothing else has been done. */
    method TakeRecord(id: Id) returns (ok: bool)
      requires Valid() && Mine().Idle? && id in records && task.id == id && !task.keep
      modifies this
      ensures old(clock) <= clock && (AllWork(old(clock), clock) ==> ok)
      ensures Valid() && Since(old(trail), old(task))
      ensures ok ==> Mine() == Removing(id) && id !in records
      ensures !ok ==> Mine().Idle? && Quiet(pid, trail[|old(trail)|..])
    {
      Select(id);
      ghost var chosen := trail;
      ok := Unrecord(id);
      if !ok { QuietJoin(pid, old(trail), chosen, trail); }
    }

    method Unrecord(id: Id) returns (ok: bool)
      requires Valid() && Mine() == Chosen(id) && !task.keep
      modifies this
      ensures old(clock) <= clock && (AllWork(old(clock), clock) ==> ok)
      ensures Valid() && Since(old(trail), old(task))
      ensures ok ==> Mine() == Removing(id) && id !in records
      ensures !ok ==> Mine().Idle? && Quiet(pid, trail[|old(trail)|..])
    {
      var f := Ready();
      ok := f.Works?;
      if ok {
        DropRecord(id);
      } else if f.Fails? {
        ghost var mid := trail;
        GiveUp();
        QuietJoin(pid, old(trail), mid, trail);
      }
    }

    method DropRecord(id: Id)
      requires Valid() && Mine() == Chosen(id) && !task.keep
      modifies this
      ensures clock == old(clock)
      ensures Valid() && Since(old(trail), old(task)) && Mine() == Removing(id) && id !in records
    {
      ghost var before := View();
      records := records - {id};
      Become(Removing(id));
      Took(before, DeleteRecord);
    }
  }

  lemma ExtendedNext(cs: seq<Component>, sources: seq<Source>, i: nat)
    requires i < |sources|
    ensures var most, s := Extended(cs, sources[..i]), sources[i];
            Extended(cs, sources[..i + 1]) == if Config(s.name) in Listed(most) || !s.state.Holds? then most
                                              else most + [Entry(Config(s.name), s.state.data, true)]
    ensures NoneRefused(Extended(cs, sources[..i]), sources[..i])
            && (sources[i].state.Refused? ==> Config(sources[i].name) in Listed(Extended(cs, sources[..i]))) ==>
              NoneRefused(Extended(cs, sources[..i + 1]), sources[..i + 1])
  {
    assert sources[..i + 1] == sources[..i] + [sources[i]];
    assert sources[..i + 1][..i] == sources[..i];
    var most := Extended(cs, sources[..i]);
    forall c | c in most
      ensures c in Extended(cs, sources[..i + 1])
    {
    }
  }

  lemma DistinctPrefix(items: seq<Item>, i: nat)
    requires Distinct(items) && i < |items|
    ensures items[..i + 1] == items[..i] + [items[i]] && Distinct(items[..i] + [items[i]])
  {
    assert items[..i + 1] == items[..i] + [items[i]];
    assert Distinct(items[..i + 1]);
  }

  lemma NotYetListed(done: seq<Item>, item: Item)
    requires Distinct(done + [item])
    ensures item.file !in Listed(Entries(done))
  {
    forall c | c in Entries(done)
      ensures c.file != item.file
    {
      var i :| 0 <= i < |done| && Entries(done)[i] == c;
      assert (done + [item])[i] == done[i] && (done + [item])[|done|] == item;
    }
  }

  /** As HoldsExactly, but for one further file. */
  predicate HoldsBut(d: BackupDir, done: seq<Item>, file: File) {
    && (forall f :: f in d.files ==> f == file || exists i :: 0 <= i < |done| && done[i].file == f)
    && (forall i :: 0 <= i < |done| ==>
          done[i].file != file && done[i].file in d.files && d.files[done[i].file] == Full(done[i].data))
  }

  lemma HoldsOpened(done: seq<Item>, item: Item)
    requires Distinct(done + [item])
    ensures forall i :: 0 <= i < |done| ==> done[i].file != item.file
  {
    forall i | 0 <= i < |done|
      ensures done[i].file != item.file
    {
      assert (done + [item])[i] == done[i] && (done + [item])[|done|] == item;
    }
  }

  lemma HoldsOneMore(d: BackupDir, done: seq<Item>, item: Item)
    requires item.file in d.files && d.files[item.file] == Full(item.data)
    requires forall i :: 0 <= i < |done| ==> done[i].file in d.files && d.files[done[i].file] == Full(done[i].data)
    requires forall f :: f in d.files ==> f == item.file || exists i :: 0 <= i < |done| && done[i].file == f
    ensures HoldsExactly(d, done + [item])
  {
    var all := done + [item];
    forall f | f in d.files
      ensures exists i :: 0 <= i < |all| && all[i].file == f
    {
      if f == item.file {
        assert all[|done|].file == f;
      } else {
        var i :| 0 <= i < |done| && done[i].file == f;
        assert all[i].file == f;
      }
    }
  }
}
