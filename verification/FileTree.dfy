/** A directory tree with the file operations that a restore uses. Operations may
    fail at any call, and removal may stop half way. */
module FileTree {
  import opened Wrappers

  type Path = seq<string>

  datatype Node = File(content: string) | Link | Dir(entries: map<string, Node>)

  const EMPTY := Dir(map[])

  function Get(n: Node, path: Path): Option<Node>
    decreases |path|
  {
    if path == [] then Some(n)
    else if n.Dir? && path[0] in n.entries then Get(n.entries[path[0]], path[1..])
    else None
  }

  /** Put a node at a path, or nothing; a path without a parent directory is left alone. */
  function Put(n: Node, path: Path, v: Option<Node>): Node
    requires path != []
    decreases |path|
  {
    if !n.Dir? then n
    else if |path| == 1 then
      if v.Some? then Dir(n.entries[path[0] := v.value]) else Dir(n.entries - {path[0]})
    else if path[0] in n.entries then Dir(n.entries[path[0] := Put(n.entries[path[0]], path[1..], v)])
    else n
  }

  predicate IsDir(n: Node, path: Path) {
    Get(n, path).Some? && Get(n, path).value.Dir?
  }

  predicate Apart(p: Path, q: Path) {
    !(p <= q) && !(q <= p)
  }

  /** Whatever is there on the way to a path is a directory. */
  predicate OnlyDirs(n: Node, path: Path) {
    forall k :: 0 < k <= |path| ==> Get(n, path[..k]).None? || IsDir(n, path[..k])
  }

  function Parent(path: Path): Path
    requires path != []
  {
    path[..|path| - 1]
  }

  lemma {:induction false} PutGets(n: Node, path: Path, v: Option<Node>)
    requires path != [] && IsDir(n, Parent(path))
    ensures Get(Put(n, path, v), path) == v
    decreases |path|
  {
    if |path| > 1 {
      assert Parent(path)[1..] == Parent(path[1..]);
      PutGets(n.entries[path[0]], path[1..], v);
    }
  }

  lemma {:induction false} PutFrames(n: Node, path: Path, v: Option<Node>, q: Path)
    requires path != [] && !(path <= q)
    ensures Apart(path, q) ==> Get(Put(n, path, v), q) == Get(n, q)
    ensures IsDir(Put(n, path, v), q) == IsDir(n, q)
    decreases |path|
  {
    if q != [] && n.Dir? {
      if q[0] != path[0] {
        assert Get(Put(n, path, v), q) == Get(n, q);
      } else {
        HeadTail(path, q);
        HeadTail(q, path);
        if path[0] in n.entries {
          PutFrames(n.entries[path[0]], path[1..], v, q[1..]);
        }
      }
    }
  }

  lemma HeadTail(p: Path, q: Path)
    requires p != [] && q != [] && p[0] == q[0]
    ensures p <= q <==> p[1..] <= q[1..]
  {
    assert p == [p[0]] + p[1..] && q == [q[0]] + q[1..];
  }

  lemma {:induction false} GetWithin(n: Node, p: Path, q: Path)
    requires Get(n, p).Some?
    ensures Get(n, p + q) == Get(Get(n, p).value, q)
    decreases |p|
  {
    if p == [] {
      assert p + q == q;
    } else {
      assert (p + q)[1..] == p[1..] + q;
      GetWithin(n.entries[p[0]], p[1..], q);
    }
  }

  lemma {:induction false} ParentHolds(n: Node, path: Path)
    requires path != [] && Get(n, path).Some?
    ensures IsDir(n, Parent(path))
    decreases |path|
  {
    if |path| > 1 {
      ParentHolds(n.entries[path[0]], path[1..]);
      assert Parent(path)[1..] == Parent(path[1..]);
    }
  }

  /** Only what lies at or below a path, or the contents of the directories above it, may differ. */
  ghost predicate Frame(a: Node, b: Node, path: Path) {
    && (forall q {:trigger Get(a, q)} {:trigger Get(b, q)} :: Apart(path, q) ==> Get(b, q) == Get(a, q))
    && (forall q {:trigger IsDir(a, q)} {:trigger IsDir(b, q)} :: !(path <= q) ==> IsDir(b, q) == IsDir(a, q))
  }

  lemma PutFrame(n: Node, path: Path, v: Option<Node>)
    requires path != []
    ensures Frame(n, Put(n, path, v), path)
  {
    forall q | !(path <= q)
      ensures Apart(path, q) ==> Get(Put(n, path, v), q) == Get(n, q)
      ensures IsDir(Put(n, path, v), q) == IsDir(n, q)
    {
      PutFrames(n, path, v, q);
    }
  }

  /** A directory may replace nothing, or an empty directory. */
  predicate CanRename(n: Node, from: Path, to: Path) {
    && from != [] && to != [] && !(from <= to)
    && Get(n, from).Some? && IsDir(n, Parent(to))
    && (Get(n, to).None? || (Get(n, from).value.Dir? && Get(n, to) == Some(EMPTY)))
  }

  function Renamed(n: Node, from: Path, to: Path): Node
    requires CanRename(n, from, to)
  {
    Put(Put(n, from, None), to, Get(n, from))
  }

  /** A directory that holds something is never replaced, so nothing moves onto its own parent. */
  lemma TargetNotAbove(n: Node, from: Path, to: Path)
    requires CanRename(n, from, to)
    ensures !(to <= from)
  {
    if to <= from {
      var rest := from[|to|..];
      assert from == to + rest;
      SomeAbove(n, to, rest);
      GetWithin(n, to, rest);
    }
  }

  /** A rename moves the whole tree and nothing else. */
  lemma RenameMoves(n: Node, from: Path, to: Path)
    requires CanRename(n, from, to)
    ensures Apart(from, to)
    ensures var after := Renamed(n, from, to);
            && Get(after, to) == Get(n, from) && Get(after, from) == None
            && (forall q {:trigger Get(after, q)} :: Apart(from, q) && Apart(to, q) ==> Get(after, q) == Get(n, q))
            && (forall q {:trigger IsDir(after, q)} :: !(from <= q) && !(to <= q) ==> IsDir(after, q) == IsDir(n, q))
  {
    TargetNotAbove(n, from, to);
    ParentHolds(n, from);
    PutGets(n, from, None);
    PutFrame(n, from, None);
    var mid := Put(n, from, None);
    assert Parent(to) <= to;
    assert IsDir(mid, Parent(to)) == IsDir(n, Parent(to));
    PutGets(mid, to, Get(n, from));
    PutFrame(mid, to, Get(n, from));
  }

  lemma {:induction false} SomeAbove(n: Node, p: Path, q: Path)
    requires Get(n, p + q).Some?
    ensures Get(n, p).Some?
    decreases |p|
  {
    if p != [] {
      assert (p + q)[1..] == p[1..] + q;
      SomeAbove(n.entries[p[0]], p[1..], q);
    }
  }

  datatype Stat = Missing | Unreadable | Found(node: Node)

  class Disk {
    var root: Node
    /** Which calls fail, and the random names and the debris that calls leave. */
    const fails: nat -> bool
    const pick: nat -> string
    const debris: nat -> Option<Node>
    var calls: nat

    constructor (root: Node, fails: nat -> bool, pick: nat -> string, debris: nat -> Option<Node>)
      ensures this.root == root && this.fails == fails && this.pick == pick && this.debris == debris && calls == 0
    {
      this.root, this.fails, this.pick, this.debris, calls := root, fails, pick, debris, 0;
    }

    /** None of these calls fails of itself. */
    predicate NoneFails(a: nat, b: nat) {
      forall n :: a <= n < b ==> !fails(n)
    }

    method Call() returns (ok: bool)
      modifies this`calls
      ensures ok == !fails(old(calls)) && calls == old(calls) + 1
    {
      ok := !fails(calls);
      calls := calls + 1;
    }

    /** A new empty directory under a random name that was free. */
    method MkdirTemp(dir: Path, prefix: string) returns (made: Option<Path>)
      modifies this
      ensures calls == old(calls) + 1
      ensures made.Some? <==> !fails(old(calls)) && IsDir(old(root), dir) && Get(old(root), dir + [prefix + pick(old(calls))]).None?
      ensures made.None? ==> root == old(root)
      ensures made.Some? ==> var p := made.value;
                && p == dir + [prefix + pick(old(calls))] && Get(old(root), p).None?
                && Get(root, p) == Some(EMPTY) && IsDir(old(root), dir) && Frame(old(root), root, p)
    {
      var p := dir + [prefix + pick(calls)];
      var ok := Call();
      if !ok || !IsDir(root, dir) || Get(root, p).Some? { return None; }
      assert Parent(p) == dir;
      PutGets(root, p, Some(EMPTY));
      PutFrame(root, p, Some(EMPTY));
      root := Put(root, p, Some(EMPTY));
      made := Some(p);
    }

    method Rename(from: Path, to: Path) returns (ok: bool)
      modifies this
      ensures calls == old(calls) + 1
      ensures ok <==> !fails(old(calls)) && CanRename(old(root), from, to)
      ensures !ok ==> root == old(root)
      ensures ok ==> root == Renamed(old(root), from, to)
    {
      ok := Call();
      if !CanRename(root, from, to) { ok := false; }
      if ok { root := Renamed(root, from, to); }
    }

    /** Removing a tree that is not there does nothing; a failing removal may leave part of it. */
    method RemoveAll(path: Path) returns (ok: bool)
      requires path != []
      modifies this
      ensures calls == old(calls) + 1
      ensures Frame(old(root), root, path)
      ensures ok ==> Get(root, path).None?
      ensures Get(old(root), path).None? ==> root == old(root)
    {
      var left := debris(calls);
      ok := Call();
      PutFrame(root, path, None);
      PutFrame(root, path, left);
      if Get(root, path).None? {
        ok := true;
        return;
      }
      ParentHolds(root, path);
      PutGets(root, path, None);
      root := Put(root, path, if ok then None else left);
    }

    /** Remove an empty directory. */
    method Remove(path: Path) returns (ok: bool)
      requires path != []
      modifies this
      ensures calls == old(calls) + 1
      ensures ok <==> !fails(old(calls)) && Get(old(root), path) == Some(EMPTY)
      ensures !ok ==> root == old(root)
      ensures ok ==> Get(root, path).None? && Frame(old(root), root, path)
    {
      ok := Call();
      if Get(root, path) != Some(EMPTY) { ok := false; }
      if ok {
        ParentHolds(root, path);
        PutGets(root, path, None);
        PutFrame(root, path, None);
        root := Put(root, path, None);
      }
    }

    /** What is at a path, without following links. */
    method Lstat(path: Path) returns (info: Stat)
      modifies this`calls
      ensures calls == old(calls) + 1 && (info.Unreadable? <==> fails(old(calls)))
      ensures info.Missing? ==> Get(root, path).None?
      ensures info.Found? ==> Get(root, path) == Some(info.node)
    {
      var ok := Call();
      var at := Get(root, path);
      info := if !ok then Unreadable else if at.None? then Missing else Found(at.value);
    }

    /** Create the directories that are missing on the way to a path; nothing else changes,
        even when one of them cannot be created. */
    method MkdirAll(path: Path) returns (ok: bool)
      modifies this
      ensures old(calls) <= calls && (ok ==> calls == old(calls) + |path|)
      ensures NoneFails(old(calls), calls) && old(root).Dir? && OnlyDirs(old(root), path) ==> ok
      ensures ok ==> old(root).Dir? && IsDir(root, path)
      ensures forall q :: !(q <= path) ==> Get(root, q) == Get(old(root), q)
      ensures forall q :: IsDir(old(root), q) ==> IsDir(root, q)
    {
      ok := root.Dir?;
      for k := 1 to |path| + 1
        invariant old(calls) <= calls && (ok ==> calls == old(calls) + k - 1)
        invariant NoneFails(old(calls), calls) && old(root).Dir? && OnlyDirs(old(root), path) ==> ok
        invariant OnlyDirs(old(root), path) ==> OnlyDirs(root, path)
        invariant ok ==> old(root).Dir? && IsDir(root, path[..k - 1])
        invariant forall q :: !(q <= path) ==> Get(root, q) == Get(old(root), q)
        invariant forall q :: IsDir(old(root), q) ==> IsDir(root, q)
      {
        if ok {
          var step := path[..k];
          ok := Call();
          if Get(root, step).None? {
            if ok {
              assert Parent(step) == path[..k - 1];
              PutGets(root, step, Some(EMPTY));
              CreatesOne(root, step);
              StillOnlyDirs(root, path, k);
              root := Put(root, step, Some(EMPTY));
              assert step <= path;
            }
          } else {
            ok := ok && IsDir(root, step);
          }
        }
      }
      assert path[..|path|] == path;
    }
  }

  lemma StillOnlyDirs(n: Node, path: Path, k: nat)
    requires 0 < k <= |path| && IsDir(n, Parent(path[..k])) && Get(n, path[..k]).None?
    ensures OnlyDirs(n, path) ==> OnlyDirs(Put(n, path[..k], Some(EMPTY)), path)
  {
    var step := path[..k];
    var after := Put(n, step, Some(EMPTY));
    CreatesOne(n, step);
    PutGets(n, step, Some(EMPTY));
    forall j | OnlyDirs(n, path) && 0 < j <= |path|
      ensures Get(after, path[..j]).None? || IsDir(after, path[..j])
    {
      if j > k {
        assert !(path[..j] <= step);
      } else if j < k {
        assert step == path[..j] + step[j..] && Parent(step) == path[..j] + step[j..k - 1];
        SomeAbove(n, path[..j], step[j..k - 1]);
      }
    }
  }

  lemma CreatesOne(n: Node, path: Path)
    requires path != [] && IsDir(n, Parent(path)) && Get(n, path).None?
    ensures forall q :: !(q <= path) ==> Get(Put(n, path, Some(EMPTY)), q) == Get(n, q)
    ensures forall q :: IsDir(n, q) ==> IsDir(Put(n, path, Some(EMPTY)), q)
  {
    var after := Put(n, path, Some(EMPTY));
    PutGets(n, path, Some(EMPTY));
    PutFrame(n, path, Some(EMPTY));
    forall q | path <= q
      ensures Get(n, q).None?
      ensures q != path ==> Get(after, q).None?
    {
      assert q == path + q[|path|..];
      GetWithin(after, path, q[|path|..]);
      if Get(n, q).Some? {
        SomeAbove(n, path, q[|path|..]);
      }
    }
  }
}
