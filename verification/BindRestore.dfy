/** Restoring a project directory from an archive: extract beside it, swap by
    renames, and undo when a rename fails. */
module BindRestore {
  import opened Wrappers
  import opened FileTree

  /** A project-relative destination after cleaning; the empty one is the old layout. */
  datatype Relative = Legacy | Absolute | Cleaned(parts: Path)

  datatype Kind = Directory | Regular(content: string) | Special

  /** An archive entry under its cleaned name. */
  datatype Header = Header(absolute: bool, parts: Path, backslash: bool, kind: Kind)

  datatype Archive = Archive(readable: bool, headers: seq<Header>, intact: bool)

  predicate Inside(h: Header, base: string) {
    !h.absolute && h.parts != [] && h.parts[0] == base && !h.backslash && !h.kind.Special?
  }

  /** An archive is accepted when it can be read to its end, has an entry, and every
      entry is a plain file or directory at or below the destination's name. */
  method ValidateBindArchive(a: Archive, base: string) returns (ok: bool)
    ensures ok <==> a.readable && a.intact && a.headers != [] && forall i :: 0 <= i < |a.headers| ==> Inside(a.headers[i], base)
  {
    if !a.readable { return false; }
    var count := 0;
    for i := 0 to |a.headers|
      invariant count == i
      invariant forall j :: 0 <= j < i ==> Inside(a.headers[j], base)
    {
      var h := a.headers[i];
      if h.absolute || h.parts == [] || h.parts[0] != base || h.backslash { return false; }
      if h.kind.Special? { return false; }
      count := count + 1;
    }
    ok := a.intact && count != 0;
  }

  /** Extracting one entry creates the directories above it. */
  function Place(n: Node, parts: Path, kind: Kind): Node
    decreases |parts|
  {
    if parts == [] then
      match kind
      case Directory => if n.Dir? then n else EMPTY
      case Regular(content) => File(content)
      case Special => Link
    else if n.Dir? then
      var child := if parts[0] in n.entries then n.entries[parts[0]] else EMPTY;
      Dir(n.entries[parts[0] := Place(child, parts[1..], kind)])
    else n
  }

  function Unpack(headers: seq<Header>, n: Node): Node {
    if headers == [] then n
    else Unpack(headers[1..], Place(n, headers[0].parts, headers[0].kind))
  }

  predicate NoLinks(n: Node) {
    match n
    case File(_) => true
    case Link => false
    case Dir(entries) => forall name :: name in entries ==> NoLinks(entries[name])
  }

  lemma {:induction false} PlacedNoLinks(n: Node, parts: Path, kind: Kind)
    requires NoLinks(n) && !kind.Special?
    ensures NoLinks(Place(n, parts, kind))
    decreases |parts|
  {
    if parts != [] && n.Dir? {
      var child := if parts[0] in n.entries then n.entries[parts[0]] else EMPTY;
      PlacedNoLinks(child, parts[1..], kind);
    }
  }

  /** An accepted archive writes nothing beside the destination's name, and no link. */
  lemma {:induction false} AcceptedStaysInside(headers: seq<Header>, n: Node, base: string)
    requires n.Dir? && n.entries.Keys <= {base} && NoLinks(n)
    requires forall i :: 0 <= i < |headers| ==> Inside(headers[i], base)
    ensures var after := Unpack(headers, n); after.Dir? && after.entries.Keys <= {base} && NoLinks(after)
  {
    if headers != [] {
      assert Inside(headers[0], base);
      PlacedNoLinks(n, headers[0].parts, headers[0].kind);
      AcceptedStaysInside(headers[1..], Place(n, headers[0].parts, headers[0].kind), base);
    }
  }

  datatype Step = Skipped | Failed | Done

  /** What became of the four renames: the old tree aside, the new one in place,
      the old one back, and the stage kept for recovery. */
  datatype Swap = Swap(aside: Step, activate: Step, undo: Step, recover: Step)

  function Outcome(ok: bool): Step { if ok then Done else Failed }

  const STAGE := ".fleetdeck-restore-"

  /** The name under which a stage is kept. */
  function Recovery(stage: Path): Path
    requires stage != []
  {
    Parent(stage) + [stage[|stage| - 1] + "-recovery"]
  }

  predicate Untouched(stage: Path, q: Path) {
    stage != [] ==> Apart(stage, q) && Apart(Recovery(stage), q)
  }

  lemma SameOrApart(p: Path, q: Path)
    requires p != [] && q != [] && Parent(p) == Parent(q)
    ensures p == q || Apart(p, q)
  {
    assert p == Parent(p) + [p[|p| - 1]] && q == Parent(q) + [q[|q| - 1]];
  }

  /** Once the destination is free, the prepared tree can take its place. */
  lemma MayActivate(before: Node, cleared: Node, stage: Path, prepared: Path, target: Path, aside: Path, moved: bool)
    requires stage != [] && target != [] && Apart(stage, target) && Parent(stage) == Parent(target)
    requires |prepared| == |aside| == |stage| + 1 && stage <= prepared && stage <= aside && prepared != aside
    requires IsDir(before, stage) && IsDir(before, prepared)
    requires if moved then CanRename(before, target, aside) && cleared == Renamed(before, target, aside)
             else cleared == before && Get(before, target).None?
    ensures CanRename(cleared, prepared, target) && Get(cleared, target).None? && Get(cleared, prepared) == Get(before, prepared)
    ensures moved ==> Get(cleared, aside) == Get(before, target)
  {
    ParentHolds(before, stage);
    Siblings(stage, prepared, aside);
    if moved { RenameMoves(before, target, aside); }
  }

  /** Two entries of the stage are apart from each other, and from what the stage is apart from. */
  lemma Siblings(stage: Path, p: Path, q: Path)
    requires |p| == |q| == |stage| + 1 && stage <= p && stage <= q && p != q
    ensures Apart(p, q) && forall t :: Apart(stage, t) ==> Apart(p, t) && Apart(q, t)
  {
    assert p == stage + [p[|stage|]] && q == stage + [q[|stage|]];
  }

  class Restorer {
    const disk: Disk
    const archive: Archive
    /** How many entries are extracted before tar fails, if it fails. */
    const tar: Option<nat>

    constructor (disk: Disk, archive: Archive, tar: Option<nat>)
      ensures this.disk == disk && this.archive == archive && this.tar == tar
    {
      this.disk, this.archive, this.tar := disk, archive, tar;
    }

    function Tree(path: Path): Option<Node> reads disk {
      Get(disk.root, path)
    }

    /** The tree the archive holds for the destination. */
    ghost function Archived(base: string): Option<Node> {
      Get(Unpack(archive.headers, EMPTY), [base])
    }

    /** Extract into a directory; a failure leaves the entries before it. */
    method RestoreBindMount(dir: Path) returns (ok: bool)
      requires Get(disk.root, dir).Some?
      modifies disk
      ensures disk.calls == old(disk.calls) && ok == tar.None?
      ensures dir != [] ==> Frame(old(disk.root), disk.root, dir)
      ensures ok ==> Tree(dir) == Some(Unpack(archive.headers, old(Tree(dir)).value))
    {
      var n := Get(disk.root, dir).value;
      var cut := if tar.Some? && tar.value < |archive.headers| then tar.value else |archive.headers|;
      var after := Unpack(archive.headers[..cut], n);
      ok := tar.None?;
      assert ok ==> archive.headers[..cut] == archive.headers;
      if dir == [] {
        disk.root := after;
        return;
      }
      ParentHolds(disk.root, dir);
      PutGets(disk.root, dir, Some(after));
      PutFrame(disk.root, dir, Some(after));
      disk.root := Put(disk.root, dir, Some(after));
    }

    /** No link and no file on the way to the destination. */
    method CheckParents(target: Path) returns (ok: bool)
      modifies disk`calls
      ensures old(disk.calls) <= disk.calls && (ok ==> disk.calls == old(disk.calls) + |target|)
      ensures ok ==> OnlyDirs(disk.root, target)
      ensures disk.NoneFails(old(disk.calls), disk.calls) && OnlyDirs(disk.root, target) ==> ok
    {
      var path := target;
      while path != []
        invariant path <= target && disk.calls == old(disk.calls) + |target| - |path|
        invariant forall k :: |path| < k <= |target| ==> Tree(target[..k]).None? || IsDir(disk.root, target[..k])
        decreases |path|
      {
        var info := disk.Lstat(path);
        assert path == target[..|path|];
        if info.Unreadable? {
          assert disk.fails(disk.calls - 1);
          return false;
        }
        if info.Found? && !info.node.Dir? {
          assert !IsDir(disk.root, target[..|path|]) && Tree(target[..|path|]).Some?;
          return false;
        }
        path := path[..|path| - 1];
      }
      ok := true;
    }

    /** The name that a call would draw for the old tree. */
    function Aside(stage: Path, call: nat): Path { stage + [".previous-" + disk.pick(call)] }

    /** Find a free name for the old tree inside the stage. */
    method FindAside(stage: Path) returns (aside: Option<Path>)
      requires IsDir(disk.root, stage)
      modifies disk
      ensures old(disk.calls) <= disk.calls
      ensures disk.NoneFails(old(disk.calls), disk.calls) && Get(old(disk.root), Aside(stage, old(disk.calls))).None? ==> aside.Some?
      ensures disk.root == old(disk.root) || Frame(old(disk.root), disk.root, Aside(stage, old(disk.calls)))
      ensures aside.Some? ==>
                && aside.value == Aside(stage, old(disk.calls)) && Get(old(disk.root), aside.value).None?
                && Get(disk.root, aside.value).None? && Frame(old(disk.root), disk.root, aside.value)
    {
      aside := disk.MkdirTemp(stage, ".previous-");
      if aside.None? { return; }
      var ok := disk.Remove(aside.value);
      if !ok {
        assert disk.fails(disk.calls - 1);
        aside := None;
      }
    }

    /** Swap a prepared tree for the destination. Whatever fails, one of these holds: the
        destination has the new tree; it is as it was; the stage, with the old tree in it,
        lies under its recovery name; or all three of activation, undo and that last
        rename failed. A stage that was given the destination's own name never succeeds. */
    method Exchange(stage: Path, prepared: Path, target: Path, recovery: Path)
      returns (ok: bool, ghost swap: Swap, ghost previous: Path)
      requires stage != [] && target != [] && prepared == stage + [target[|target| - 1]]
      requires recovery != [] && (Apart(stage, target) || stage == target) && Apart(stage, recovery)
      requires Parent(recovery) == Parent(target) == Parent(stage)
      requires IsDir(disk.root, stage) && IsDir(disk.root, prepared)
      modifies disk
      ensures old(disk.calls) <= disk.calls
      ensures stage != target ==> disk.NoneFails(old(disk.calls), disk.calls) ==>
                Get(old(disk.root), Aside(stage, old(disk.calls))).None? ==> ok
      ensures ok ==> swap.activate == Done && Tree(target) == old(Tree(prepared))
      ensures stage == target ==> !ok && swap.undo.Skipped? && swap.recover.Skipped?
      ensures stage != target && !ok && !swap.recover.Done? && !swap.undo.Failed? ==> Tree(target) == old(Tree(target))
      ensures !ok && swap.recover.Done? ==> |previous| == 1 && Tree(recovery + previous) == old(Tree(target)) && old(Tree(target)).Some?
      ensures swap.undo.Failed? ==> !ok && swap.aside.Done? && swap.activate.Failed? && !swap.recover.Skipped? && old(Tree(target)).Some?
      ensures swap.recover.Done? ==> swap.undo.Failed?
      ensures forall q :: Apart(stage, q) && Apart(target, q) && Apart(recovery, q) ==> Tree(q) == old(Tree(q))
    {
      swap, previous := Swap(Skipped, Skipped, Skipped, Skipped), [];
      ok := false;
      var found := FindAside(stage);
      if found.None? { return; }
      var aside := found.value;
      assert aside[|stage|] != prepared[|stage|];
      previous := aside[|stage|..];
      ghost var before := disk.root;
      var info := disk.Lstat(target);
      if info.Unreadable? {
        assert disk.fails(disk.calls - 1);
        return;
      }
      assert stage != target ==> Get(before, target) == old(Tree(target));
      assert Get(before, prepared) == old(Tree(prepared));
      assert IsDir(before, stage);
      if info.Found? {
        ok := disk.Rename(target, aside);
        swap := swap.(aside := Outcome(ok));
        if !ok {
          assert stage != target ==> disk.fails(disk.calls - 1);
          return;
        }
        RenameMoves(before, target, aside);
      }
      assert stage != target;
      MayActivate(before, disk.root, stage, prepared, target, aside, info.Found?);
      var activate, undo, recover := Activate(stage, prepared, target, aside, recovery, info.Found?);
      swap := swap.(activate := activate, undo := undo, recover := recover);
      ok := activate.Done?;
    }

    /** The prepared tree takes the place of the destination, or what was set aside comes back. */
    method Activate(stage: Path, prepared: Path, target: Path, aside: Path, recovery: Path, hadPrevious: bool)
      returns (activate: Step, undo: Step, recover: Step)
      requires stage != [] && target != [] && recovery != [] && Apart(stage, target) && Apart(stage, recovery) && stage <= prepared
      requires |aside| == |stage| + 1 && stage <= aside && (hadPrevious ==> Tree(aside).Some?)
      requires CanRename(disk.root, prepared, target) && Tree(target).None?
      modifies disk
      ensures old(disk.calls) <= disk.calls && !activate.Skipped?
      ensures disk.NoneFails(old(disk.calls), disk.calls) ==> activate.Done?
      ensures activate.Done? ==> undo.Skipped? && recover.Skipped? && Tree(target) == old(Tree(prepared))
      ensures activate.Failed? && !hadPrevious ==> undo.Skipped? && recover.Skipped? && Tree(target).None?
      ensures activate.Failed? && hadPrevious ==> !undo.Skipped?
      ensures undo.Done? ==> recover.Skipped? && Tree(target) == old(Tree(aside))
      ensures undo.Failed? ==> !recover.Skipped?
      ensures recover.Done? ==> undo.Failed? && Tree(recovery + aside[|stage|..]) == old(Tree(aside))
      ensures forall q :: Apart(stage, q) && Apart(target, q) && Apart(recovery, q) ==> Tree(q) == old(Tree(q))
    {
      ghost var cleared := disk.root;
      undo, recover := Skipped, Skipped;
      var ok := disk.Rename(prepared, target);
      activate := Outcome(ok);
      if ok {
        RenameMoves(cleared, prepared, target);
      } else {
        assert disk.fails(disk.calls - 1);
        if hadPrevious { undo, recover := PutBack(stage, aside, target, recovery); }
      }
    }

    /** Activation has failed: put the old tree back, or else keep the stage that holds it. */
    method PutBack(stage: Path, aside: Path, target: Path, recovery: Path) returns (undo: Step, recover: Step)
      requires stage != [] && target != [] && recovery != [] && Apart(stage, target) && Apart(stage, recovery)
      requires |aside| == |stage| + 1 && stage <= aside && Tree(aside).Some?
      modifies disk
      ensures old(disk.calls) <= disk.calls && !undo.Skipped?
      ensures undo.Done? ==> recover.Skipped? && Tree(target) == old(Tree(aside))
      ensures undo.Failed? ==> !recover.Skipped?
      ensures recover.Done? ==> Tree(recovery + aside[|stage|..]) == old(Tree(aside))
      ensures forall q :: Apart(stage, q) && Apart(target, q) && Apart(recovery, q) ==> Tree(q) == old(Tree(q))
    {
      ghost var cleared := disk.root;
      var undone := disk.Rename(aside, target);
      undo, recover := Outcome(undone), Skipped;
      if undone {
        RenameMoves(cleared, aside, target);
        return;
      }
      var kept := disk.Rename(stage, recovery);
      recover := Outcome(kept);
      if kept {
        RenameMoves(cleared, stage, recovery);
        ghost var previous := aside[|stage|..];
        assert aside == stage + previous;
        GetWithin(cleared, stage, previous);
        GetWithin(disk.root, recovery, previous);
      }
    }

    /** The archive holds a directory of this name. */
    ghost predicate UnpacksTo(base: string) {
      Archived(base).Some? && Archived(base).value.Dir?
    }

    /** What a restore asks of its input. */
    ghost predicate Restorable(root: Node, relative: Relative, resolved: bool) {
      match relative
      case Absolute => false
      case Legacy => tar.None?
      case Cleaned(parts) =>
        && parts != [] && parts[0] != ".." && resolved && tar.None?
        && Fits(root, parts, parts[|parts| - 1]) && UnpacksTo(parts[|parts| - 1])
    }

    /** The two random names that are drawn from some call on are free. */
    predicate NamesFree(root: Node, target: Path, drawn: nat)
      requires target != []
    {
      && STAGE + disk.pick(drawn) != target[|target| - 1] && ".previous-" + disk.pick(drawn + 2) != target[|target| - 1]
      && Get(root, Parent(target) + [STAGE + disk.pick(drawn)]).None?
    }

    /** The stage holds nothing but the destination's name. */
    lemma NotUnpacked(root: Node, stage: Path, base: string, name: string)
      requires Get(root, stage) == Some(Unpack(archive.headers, EMPTY)) && name != base
      requires Unpack(archive.headers, EMPTY).Dir? && Unpack(archive.headers, EMPTY).entries.Keys <= {base}
      ensures Get(root, stage + [name]).None?
    {
      GetWithin(root, stage, [name]);
    }

    /** What has become of the destination while the stage is still there. */
    ghost predicate Swapped(was: Node, now: Node, target: Path, ok: bool, swap: Swap, stage: Path, kept: Path)
      requires target != []
    {
      && (ok ==> Get(now, target) == Archived(target[|target| - 1]) && IsDir(now, target) && NoLinks(Get(now, target).value))
      && (stage == target ==> !ok && swap.undo.Skipped? && swap.recover.Skipped?)
      && (stage != target && !ok && !swap.recover.Done? && !swap.undo.Failed? ==> Get(now, target) == Get(was, target))
      && (!ok && swap.recover.Done? ==> Apart(stage, kept) && Get(now, kept) == Get(was, target) && Get(was, target).Some?)
      && (swap.undo.Failed? ==>
            Get(was, target).Some? && swap.aside.Done? && swap.activate.Failed? && !swap.recover.Skipped? && !ok)
      && (swap.recover.Done? ==> swap.undo.Failed?)
      && (forall q :: Apart(target, q) && Untouched(stage, q) ==> Get(now, q) == Get(was, q))
    }

    /** Fill the stage and swap it in. */
    method ExtractAndExchange(stage: Path, target: Path) returns (ok: bool, ghost swap: Swap, ghost kept: Path)
      requires stage != [] && target != [] && Parent(stage) == Parent(target)
      requires Tree(stage) == Some(EMPTY) && archive.headers != []
      requires forall i :: 0 <= i < |archive.headers| ==> Inside(archive.headers[i], target[|target| - 1])
      modifies disk
      ensures old(disk.calls) <= disk.calls
      ensures ok ==> stage != target && tar.None? && UnpacksTo(target[|target| - 1])
      ensures stage != target && tar.None? && UnpacksTo(target[|target| - 1]) ==>
                disk.NoneFails(old(disk.calls), disk.calls) ==> ".previous-" + disk.pick(old(disk.calls) + 1) != target[|target| - 1] ==> ok
      ensures Swapped(old(disk.root), disk.root, target, ok, swap, stage, kept)
    {
      swap, kept := Swap(Skipped, Skipped, Skipped, Skipped), [];
      SameOrApart(stage, target);
      ok := RestoreBindMount(stage);
      if !ok { return; }
      var base := target[|target| - 1];
      var prepared := stage + [base];
      GetWithin(disk.root, stage, [base]);
      var info := disk.Lstat(prepared);
      assert Tree(prepared) == Archived(base);
      if !info.Found? || !info.node.Dir? {
        assert disk.fails(disk.calls - 1) || !UnpacksTo(base);
        ok := false;
        return;
      }
      AcceptedStaysInside(archive.headers, EMPTY, base);
      ghost var drawn := ".previous-" + disk.pick(disk.calls);
      if drawn != base { NotUnpacked(disk.root, stage, base, drawn); }
      ghost var previous;
      var recovery := Recovery(stage);
      ok, swap, previous := Exchange(stage, prepared, target, recovery);
      kept := recovery + previous;
    }

    /** Check the destination and the archive, and create what is missing above the destination. */
    method MakeReady(target: Path, base: string) returns (ok: bool)
      requires target != []
      modifies disk
      ensures old(disk.calls) <= disk.calls && (ok ==> disk.calls == old(disk.calls) + 2 * |target| - 1)
      ensures ok ==> IsDir(disk.root, Parent(target)) && Fits(old(disk.root), target, base)
      ensures Fits(old(disk.root), target, base) && disk.NoneFails(old(disk.calls), disk.calls) ==> ok
      ensures forall q :: !(q <= Parent(target)) ==> Tree(q) == old(Tree(q))
    {
      ok := CheckParents(target);
      if !ok { return; }
      ok := ValidateBindArchive(archive, base);
      if !ok { return; }
      assert OnlyDirs(disk.root, Parent(target)) by {
        assert forall k :: 0 < k <= |Parent(target)| ==> Parent(target)[..k] == target[..k];
      }
      ok := disk.MkdirAll(Parent(target));
    }

    /** No link or file on the way to the destination, and an acceptable archive. */
    ghost predicate Fits(root: Node, target: Path, base: string) {
      && root.Dir? && OnlyDirs(root, target)
      && archive.readable && archive.intact && archive.headers != []
      && forall i :: 0 <= i < |archive.headers| ==> Inside(archive.headers[i], base)
    }

    /** What has become of the destination: it holds the archived tree, or it is as it was, or
        the old tree is kept, or all three renames that would have saved it have failed. */
    ghost predicate Replaced(was: Node, now: Node, target: Path, ok: bool, swap: Swap, stage: Path, kept: Path)
      requires target != []
    {
      && (ok ==> Get(now, target) == Archived(target[|target| - 1]) && IsDir(now, target) && NoLinks(Get(now, target).value))
      && (stage == target ==> !ok && Get(was, target).None?)
      && (stage != target && !ok && Get(now, target) != Get(was, target) && Get(now, kept) != Get(was, target) ==>
            swap == Swap(Done, Failed, Failed, Failed))
      && (stage != target && !ok && Get(now, target) != Get(was, target) ==> Get(was, target).Some? && swap.undo.Failed?)
      && (forall q :: !(q <= Parent(target)) && Apart(target, q) && Untouched(stage, q) ==> Get(now, q) == Get(was, q))
    }

    /** The stage has come and gone: it was not there before, and its removal spares the rest. */
    lemma StageGone(was: Node, filled: Node, done: Node, now: Node, target: Path, ok: bool, swap: Swap, stage: Path, kept: Path)
      requires target != [] && stage != [] && (stage == target || Apart(stage, target)) && Get(was, stage).None?
      requires Frame(was, filled, stage) && Swapped(filled, done, target, ok, swap, stage, kept) && Frame(done, now, stage)
      ensures Replaced(was, now, target, ok, swap, stage, kept)
    {
      if stage != target {
        assert Get(filled, target) == Get(was, target) && Get(now, target) == Get(done, target);
        assert IsDir(now, target) == IsDir(done, target);
      }
    }

    /** A new stage beside the destination, under the name drawn for it. */
    method MakeStage(target: Path) returns (made: Option<Path>)
      requires target != [] && IsDir(disk.root, Parent(target))
      modifies disk
      ensures disk.calls == old(disk.calls) + 1
      ensures made.None? ==> disk.root == old(disk.root)
      ensures made.None? ==> !(disk.NoneFails(old(disk.calls), disk.calls) && NamesFree(old(disk.root), target, old(disk.calls)))
      ensures made.Some? ==>
                var stage := made.value;
                && stage != [] && Parent(stage) == Parent(target) && (stage == target || Apart(stage, target))
                && (NamesFree(old(disk.root), target, old(disk.calls)) ==> stage != target)
                && Get(old(disk.root), stage).None? && Tree(stage) == Some(EMPTY) && Frame(old(disk.root), disk.root, stage)
    {
      made := disk.MkdirTemp(Parent(target), STAGE);
      if made.Some? {
        assert made.value[|made.value| - 1] == STAGE + disk.pick(disk.calls - 1);
        SameOrApart(made.value, target);
      } else {
        assert disk.fails(disk.calls - 1) || !NamesFree(disk.root, target, disk.calls - 1);
      }
    }

    /** Fill a stage beside the destination, swap it in, and remove it, whatever has come of it. */
    method ReplaceTree(target: Path) returns (ok: bool, ghost swap: Swap, ghost stage: Path, ghost kept: Path)
      requires target != [] && IsDir(disk.root, Parent(target)) && archive.headers != []
      requires forall i :: 0 <= i < |archive.headers| ==> Inside(archive.headers[i], target[|target| - 1])
      modifies disk
      ensures old(disk.calls) <= disk.calls
      ensures ok ==> tar.None? && UnpacksTo(target[|target| - 1])
      ensures tar.None? && UnpacksTo(target[|target| - 1]) ==>
                disk.NoneFails(old(disk.calls), disk.calls) ==> NamesFree(old(disk.root), target, old(disk.calls)) ==> ok
      ensures Replaced(old(disk.root), disk.root, target, ok, swap, stage, kept)
    {
      swap, stage, kept := Swap(Skipped, Skipped, Skipped, Skipped), [], [];
      var made := MakeStage(target);
      if made.None? { return false, swap, stage, kept; }
      stage := made.value;
      ghost var filled := disk.root;
      ok, swap, kept := ExtractAndExchange(made.value, target);
      ghost var done := disk.root;
      var _ := disk.RemoveAll(made.value);
      StageGone(old(disk.root), filled, done, disk.root, target, ok, swap, stage, kept);
    }

    /** Restore one project directory. On success it is the archived tree and nothing of
        the old one. On failure it is as it was, or the old tree is kept in full at another
        path, which the removal of the stage spares; it is lost only when activating,
        undoing and keeping have all failed. When the random name of the stage is the
        destination's own, nothing was there to lose, and the restore fails. It succeeds only
        on an input that is fit for it, and always on one when no call fails and the random
        names are free. */
    method RestoreProjectBindMount(relative: Relative, resolved: bool)
      returns (ok: bool, ghost swap: Swap, ghost stage: Path, ghost kept: Path)
      modifies disk
      ensures ok ==> Restorable(old(disk.root), relative, resolved)
      ensures Restorable(old(disk.root), relative, resolved) ==>
                disk.NoneFails(old(disk.calls), disk.calls) ==>
                (relative.Cleaned? ==> NamesFree(old(disk.root), relative.parts, old(disk.calls) + 2 * |relative.parts| - 1)) ==> ok
      ensures relative.Legacy? && ok ==> disk.root == Unpack(archive.headers, old(disk.root))
      ensures relative.Absolute? || (relative.Cleaned? && (relative.parts == [] || relative.parts[0] == "..")) ==>
                !ok && disk.root == old(disk.root)
      ensures relative.Cleaned? && relative.parts != [] ==>
                var target, base := relative.parts, relative.parts[|relative.parts| - 1];
                && (ok ==> Tree(target) == Archived(base) && IsDir(disk.root, target) && NoLinks(Tree(target).value))
                && (stage == target ==> !ok && old(Tree(target)).None?)
                && (stage != target && !ok && Tree(target) != old(Tree(target)) && Tree(kept) != old(Tree(target)) ==>
                      swap == Swap(Done, Failed, Failed, Failed))
                && (stage != target && !ok && Tree(target) != old(Tree(target)) ==> old(Tree(target)).Some? && swap.undo.Failed?)
                && (forall q :: !(q <= Parent(target)) && Apart(target, q) && Untouched(stage, q) ==> Tree(q) == old(Tree(q)))
    {
      swap, stage, kept := Swap(Skipped, Skipped, Skipped, Skipped), [], [];
      if relative.Legacy? {
        ok := RestoreBindMount([]);
        return;
      }
      ok := false;
      if relative.Absolute? || relative.parts == [] || relative.parts[0] == ".." { return; }
      if !resolved { return; }
      var target := relative.parts;
      var base := target[|target| - 1];
      ok := MakeReady(target, base);
      if !ok { return; }
      ghost var first := Parent(target) + [STAGE + disk.pick(disk.calls)];
      assert !(first <= Parent(target)) && Tree(first) == old(Tree(first));
      ok, swap, stage, kept := ReplaceTree(target);
    }
  }
}
