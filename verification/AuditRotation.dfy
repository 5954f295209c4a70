/** The audit log and its five rotated files. */
module AuditRotation {
  const MAX_FILE_SIZE := 10 * 1024 * 1024
  const MAX_ROTATED := 5

  /** The log directory: 0 is the live file, n is the file with suffix n. */
  type Files = map<nat, string>

  function At(files: Files, n: nat): string {
    if n in files then files[n] else ""
  }

  /** Rotated files oldest first, then the live file. */
  function Kept(files: Files, n: nat): string {
    At(files, n) + if n == 0 then "" else Kept(files, n - 1)
  }

  predicate Suffix(s: string, whole: string) {
    |s| <= |whole| && whole[|whole| - |s|..] == s
  }

  function Renamed(files: Files, n: nat): Files {
    if n in files then (files - {n})[n + 1 := files[n]] else files
  }

  lemma SuffixTwice(a: string, b: string, c: string)
    requires Suffix(a, b) && Suffix(b, c)
    ensures Suffix(a, c)
  {
    assert c[|c| - |a|..] == c[|c| - |b|..][|b| - |a|..];
  }

  lemma SuffixBehind(x: string, a: string, b: string)
    requires Suffix(a, b)
    ensures Suffix(a, x + b)
  {
    assert (x + b)[|x + b| - |a|..] == b[|b| - |a|..];
  }

  lemma {:induction false} KeptSame(a: Files, b: Files, n: nat)
    requires forall k :: 0 <= k <= n ==> At(a, k) == At(b, k)
    ensures Kept(a, n) == Kept(b, n)
  {
    if n > 0 {
      KeptSame(a, b, n - 1);
    }
  }

  /** The last rename of a ladder: what the highest file held is lost, nothing else. */
  lemma RenameTop(files: Files, n: nat)
    requires n in files
    ensures Suffix(Kept(Renamed(files, n), n + 1), Kept(files, n + 1))
    ensures n + 1 !in files ==> Kept(Renamed(files, n), n + 1) == Kept(files, n + 1)
  {
    var after := Renamed(files, n);
    var below := if n == 0 then "" else Kept(files, n - 1);
    if n > 0 { KeptSame(after, files, n - 1); }
    assert Kept(files, n) == At(files, n) + below;
    assert Kept(after, n) == "" + below == below;
    assert Kept(after, n + 1) == At(files, n) + below;
    SuffixBehind(At(files, n + 1), Kept(files, n), Kept(files, n));
  }

  /** Moving a file up by one keeps the order; only what the highest one replaces is lost. */
  lemma {:induction false} RenameKeeps(files: Files, n: nat, top: nat)
    requires n < top && (n + 1 in files && n in files ==> n + 1 == top)
    ensures Suffix(Kept(Renamed(files, n), top), Kept(files, top))
    ensures n + 1 !in files ==> Kept(Renamed(files, n), top) == Kept(files, top)
  {
    if n in files {
      if n + 1 == top {
        RenameTop(files, n);
      } else {
        RenameKeeps(files, n, top - 1);
      }
    }
  }

  lemma SuffixGrows(a: string, b: string, data: string)
    requires Suffix(a, b)
    ensures Suffix(a + data, b + data)
  {
    var x := b[..|b| - |a|];
    assert b + data == x + (a + data);
  }

  /** What is kept is the end of what was written. */
  predicate Sound(files: Files, everything: string, top: nat) {
    (forall n :: n in files ==> n <= top) && Suffix(Kept(files, top), everything)
  }

  /** How many of the first n rotated places are empty. */
  function Missing(files: Files, n: nat): nat {
    if n == 0 then 0 else Missing(files, n - 1) + if n in files then 0 else 1
  }

  /** Each rotated file was full when it was rotated, and below it there is at most one
      empty place for each process that died inside a rotation. */
  ghost predicate Ladder(files: Files, deaths: nat, top: nat) {
    forall n :: 1 <= n <= top && n in files ==> |files[n]| >= MAX_FILE_SIZE && Missing(files, n) <= deaths
  }

  /** Another file is full besides the highest. */
  predicate SecondFull(files: Files, top: nat) {
    |At(files, 0)| >= MAX_FILE_SIZE || exists k :: 1 <= k < top && k in files
  }

  /** Nothing is missing unless the highest place is taken, and another file is full. */
  ghost predicate Complete(files: Files, everything: string, deaths: nat, top: nat) {
    && Ladder(files, deaths, top)
    && (Kept(files, top) != everything ==> top in files && SecondFull(files, top))
  }

  class Log {
    /** How many rotated files there may be. */
    const rotated: nat
    var files: Files
    var open: bool
    /** Everything ever written, and how many processes have died inside a rotation. */
    ghost var everything: string
    ghost var deaths: nat

    ghost predicate Valid() reads this {
      && rotated >= 2
      && (open ==> 0 in files)
      && Sound(files, everything, rotated)
      && Complete(files, everything, deaths, rotated)
    }

    constructor ()
      ensures Valid() && rotated == MAX_ROTATED && files == map[] && !open && everything == "" && deaths == 0
    {
      rotated, files, open, everything, deaths := MAX_ROTATED, map[], false, "", 0;
      new;
      KeptNothing(rotated);
    }

    /** Open the live file for appending, creating it when it is not there. */
    method Init(opens: bool)
      requires Valid()
      modifies this
      ensures Valid() && everything == old(everything) && deaths == old(deaths)
      ensures open == opens && Kept(files, rotated) == old(Kept(files, rotated))
    {
      if opens && 0 !in files {
        NewLive(files, everything, deaths, rotated);
        files := files[0 := ""];
      }
      open := opens;
    }

    /** Append one entry, and rotate once the file has reached its size. What is kept is
        always the end of what was written. Once something has been dropped, no fewer than
        five full files are kept, less one for each process that died inside a rotation, and
        never fewer than two. */
    method Append(data: string, statted: bool, dies: nat, reopens: bool)
      requires Valid()
      modifies this
      ensures Valid()
      ensures everything == old(everything) + if old(open) then data else ""
      ensures old(deaths) <= deaths <= old(deaths) + if dies < rotated then 1 else 0
      ensures Kept(files, rotated) != everything ==>
                |Kept(files, rotated)| >= (rotated - deaths) * MAX_FILE_SIZE && |Kept(files, rotated)| >= 2 * MAX_FILE_SIZE
    {
      if open {
        Extend(data);
        if statted && |files[0]| >= MAX_FILE_SIZE {
          Rotate(dies, reopens);
        }
      }
      if Kept(files, rotated) != everything {
        FullSize(files, deaths, rotated);
      }
    }

    method Extend(data: string)
      requires Valid() && open
      modifies this
      ensures Valid() && open && deaths == old(deaths) && everything == old(everything) + data
    {
      ExtendKeeps(files, everything, data, deaths, rotated);
      files := files[0 := files[0] + data];
      everything := everything + data;
    }

    /** Shift the rotated files up, oldest first, then the live file, then start a new one.
        The process may die after any number of renames. */
    method Rotate(dies: nat, reopens: bool)
      requires Valid() && open && |files[0]| >= MAX_FILE_SIZE
      modifies this
      ensures Valid() && everything == old(everything)
      ensures deaths == old(deaths) + if dies < rotated then 1 else 0
      ensures dies >= rotated ==> Shifted(files, old(files), rotated)
      ensures open ==> files[0] == ""
    {
      open := false;
      var i := Shift(dies);
      if dies < rotated {
        Interrupted(old(files), i);
      } else {
        Restart(old(files), reopens);
      }
    }

    /** The process dies inside a rotation. */
    ghost method Interrupted(was: Files, i: nat)
      requires rotated >= 2 && i < rotated && Climbing(files, was, everything, i, rotated) && !open
      requires 0 in was && |was[0]| >= MAX_FILE_SIZE && Complete(was, everything, deaths, rotated)
      modifies this`deaths
      ensures Valid() && deaths == old(deaths) + 1
    {
      ClimbKeeps(files, was, everything, deaths, i, rotated);
      deaths := deaths + 1;
    }

    /** The rotated files move up, the oldest first; a process that dies leaves the rest where they are. */
    method Shift(dies: nat) returns (i: nat)
      requires rotated >= 1 && Sound(files, everything, rotated)
      modifies this`files
      ensures i < rotated && (dies >= rotated ==> i == 0)
      ensures Climbing(files, old(files), everything, i, rotated)
    {
      i := rotated - 1;
      ClimbStart(files, everything, rotated);
      while i >= 1
        invariant 0 <= i < rotated && dies >= rotated - 1 - i
        invariant Climbing(files, old(files), everything, i, rotated)
      {
        if dies == rotated - 1 - i { return; }
        ClimbOne(files, old(files), everything, i, rotated);
        RenameUp(i);
        i := i - 1;
      }
    }

    /** Renaming a file that is not there fails and changes nothing. */
    method RenameUp(i: nat)
      modifies this`files
      ensures files == Renamed(old(files), i)
    {
      if i in files { files := (files - {i})[i + 1 := files[i]]; }
    }

    /** The last part of a rotation: the live file becomes the first rotated one. */
    method Restart(ghost was: Files, reopens: bool)
      requires rotated >= 2 && Climbing(files, was, everything, 0, rotated) && !open
      requires 0 in was && |was[0]| >= MAX_FILE_SIZE && Complete(was, everything, deaths, rotated)
      modifies this
      ensures Valid() && everything == old(everything) && deaths == old(deaths)
      ensures Shifted(files, was, rotated)
      ensures open ==> files[0] == ""
    {
      ClimbLast(files, was, everything, deaths, rotated);
      files := (files - {0})[1 := files[0]];
      if reopens {
        NewLive(files, everything, deaths, rotated);
        StillShifted(files, was, rotated);
        files := files[0 := ""];
        open := true;
      }
    }
  }

  lemma {:induction false} KeptNothing(n: nat)
    ensures Kept(map[], n) == ""
  {
    if n > 0 {
      KeptNothing(n - 1);
    }
  }

  lemma {:induction false} KeptExtends(a: Files, b: Files, data: string, n: nat)
    requires At(b, 0) == At(a, 0) + data && forall k :: 1 <= k <= n ==> At(a, k) == At(b, k)
    ensures Kept(b, n) == Kept(a, n) + data
  {
    if n > 0 {
      KeptExtends(a, b, data, n - 1);
    }
  }

  lemma {:induction false} MissingSame(a: Files, b: Files, n: nat)
    requires forall k :: 1 <= k <= n ==> (k in a <==> k in b)
    ensures Missing(a, n) == Missing(b, n)
  {
    if n > 0 {
      MissingSame(a, b, n - 1);
    }
  }

  /** Every place that is taken is taken by a full file. */
  lemma {:induction false} KeptSize(files: Files, deaths: nat, top: nat, n: nat)
    requires Ladder(files, deaths, top) && n <= top
    ensures Missing(files, n) <= n
    ensures |Kept(files, n)| >= |At(files, 0)| + (n - Missing(files, n)) * MAX_FILE_SIZE
  {
    if n > 0 {
      KeptSize(files, deaths, top, n - 1);
    }
  }

  lemma {:induction false} MissingFewer(files: Files, k: nat, n: nat)
    requires 1 <= k <= n && k in files
    ensures Missing(files, n) < n
  {
    if k < n {
      MissingFewer(files, k, n - 1);
    } else {
      MissingMost(files, n - 1);
    }
  }

  lemma {:induction false} MissingMost(files: Files, n: nat)
    ensures Missing(files, n) <= n
  {
    if n > 0 {
      MissingMost(files, n - 1);
    }
  }

  /** The size of a log that has dropped something. */
  lemma FullSize(files: Files, deaths: nat, top: nat)
    requires Ladder(files, deaths, top) && top >= 2 && top in files && SecondFull(files, top)
    ensures |Kept(files, top)| >= (top - deaths) * MAX_FILE_SIZE
    ensures |Kept(files, top)| >= 2 * MAX_FILE_SIZE
  {
    KeptSize(files, deaths, top, top);
    MissingFewer(files, top, top);
    if |At(files, 0)| < MAX_FILE_SIZE {
      var k :| 1 <= k < top && k in files;
      MissingFewer(files, k, top - 1);
    }
  }

  /** Every rotated file is the one that was below it; the highest stays when there was none. */
  predicate Shifted(files: Files, was: Files, top: nat) {
    forall n :: 1 <= n <= top ==> Moved(files, was, n, top)
  }

  predicate Moved(files: Files, was: Files, n: nat, top: nat)
    requires n >= 1
  {
    var from := if n == top && n - 1 !in was then n else n - 1;
    (n in files <==> from in was) && At(files, n) == At(was, from)
  }

  /** The rename loop has reached i: what lies above has moved up, what lies below has
      not, and nothing is lost unless the highest place was taken. */
  predicate Climbing(files: Files, was: Files, everything: string, i: nat, top: nat) {
    && Sound(files, everything, top)
    && Positions(files, was, i, top)
    && (Kept(was, top) == everything && top !in was ==> Kept(files, top) == everything)
  }

  predicate Positions(files: Files, was: Files, i: nat, top: nat) {
    && (forall n :: 0 <= n <= i ==> (n in files <==> n in was) && At(files, n) == At(was, n))
    && (i + 1 < top ==> i + 1 !in files)
    && (i + 1 == top ==> (top in files <==> top in was) && At(files, top) == At(was, top))
    && forall n :: i + 2 <= n <= top ==> Moved(files, was, n, top)
  }

  lemma ExtendKeeps(files: Files, everything: string, data: string, deaths: nat, top: nat)
    requires 0 in files && Sound(files, everything, top) && Complete(files, everything, deaths, top)
    ensures var after := files[0 := files[0] + data];
            Sound(after, everything + data, top) && Complete(after, everything + data, deaths, top)
  {
    var after := files[0 := files[0] + data];
    KeptExtends(files, after, data, top);
    SuffixGrows(Kept(files, top), everything, data);
    SameLadder(files, after, deaths, top);
  }

  lemma SameLadder(a: Files, b: Files, deaths: nat, top: nat)
    requires Ladder(a, deaths, top) && forall n :: 1 <= n <= top ==> (n in a <==> n in b) && At(a, n) == At(b, n)
    ensures Ladder(b, deaths, top)
  {
    forall n | 1 <= n <= top && n in b
      ensures |b[n]| >= MAX_FILE_SIZE && Missing(b, n) <= deaths
    {
      MissingSame(a, b, n);
      assert At(a, n) == At(b, n);
    }
  }

  lemma PositionsNext(files: Files, was: Files, i: nat, top: nat)
    requires 1 <= i < top && Positions(files, was, i, top)
    ensures Positions(Renamed(files, i), was, i - 1, top)
  {
    var after := Renamed(files, i);
    forall n | i + 1 <= n <= top
      ensures Moved(after, was, n, top)
    {
      if n > i + 1 { assert Moved(files, was, n, top); }
    }
  }

  lemma ClimbOne(files: Files, was: Files, everything: string, i: nat, top: nat)
    requires 1 <= i < top && Climbing(files, was, everything, i, top)
    ensures Climbing(Renamed(files, i), was, everything, i - 1, top)
  {
    PositionsNext(files, was, i, top);
    RenameSafe(files, everything, i, top);
  }

  lemma RenameSafe(files: Files, everything: string, i: nat, top: nat)
    requires i < top && Sound(files, everything, top) && (i + 1 < top ==> i + 1 !in files)
    ensures Sound(Renamed(files, i), everything, top)
    ensures i + 1 !in files ==> Kept(Renamed(files, i), top) == Kept(files, top)
  {
    RenamedBelow(files, i, top);
    RenameSuffix(files, everything, i, top);
  }

  lemma RenamedBelow(files: Files, i: nat, top: nat)
    requires i < top && forall n :: n in files ==> n <= top
    ensures forall n :: n in Renamed(files, i) ==> n <= top
  {
  }

  lemma RenameSuffix(files: Files, everything: string, i: nat, top: nat)
    requires i < top && Suffix(Kept(files, top), everything) && (i + 1 < top ==> i + 1 !in files)
    ensures Suffix(Kept(Renamed(files, i), top), everything)
    ensures i + 1 !in files ==> Kept(Renamed(files, i), top) == Kept(files, top)
  {
    RenameKeeps(files, i, top);
    SuffixTwice(Kept(Renamed(files, i), top), Kept(files, top), everything);
  }

  lemma ClimbStart(files: Files, everything: string, top: nat)
    requires top >= 1 && Sound(files, everything, top)
    ensures Climbing(files, files, everything, top - 1, top)
  {
  }

  /** The loop leaves one more empty place, where it has come to. */
  lemma {:induction false} MissingClimbs(files: Files, was: Files, i: nat, top: nat, n: nat)
    requires Positions(files, was, i, top) && i + 1 <= n < top
    ensures Missing(files, n) == Missing(was, n - 1) + 1
  {
    if n == i + 1 {
      MissingSame(files, was, i);
    } else {
      MissingClimbs(files, was, i, top, n - 1);
      assert Moved(files, was, n, top);
    }
  }

  lemma MissingAt(files: Files, was: Files, deaths: nat, i: nat, top: nat, n: nat)
    requires Positions(files, was, i, top) && Ladder(was, deaths, top) && i < top && 1 <= n <= top && n in files
    ensures |files[n]| >= MAX_FILE_SIZE && Missing(files, n) <= deaths + if n <= i then 0 else 1
  {
    if n <= i || i + 1 == top {
      MissingSame(files, was, n);
      assert At(files, n) == At(was, n);
    } else {
      assert n >= i + 2 && Moved(files, was, n, top);
      MissingClimbs(files, was, i, top, if n == top then n - 1 else n);
      assert Missing(was, n - 1) == Missing(was, n - 2) + if n - 1 in was then 0 else 1;
    }
  }

  /** A process that dies here leaves at most one more empty place, and the live file full. */
  lemma ClimbKeeps(files: Files, was: Files, everything: string, deaths: nat, i: nat, top: nat)
    requires Climbing(files, was, everything, i, top) && i < top && 2 <= top
    requires 0 in was && |was[0]| >= MAX_FILE_SIZE && Complete(was, everything, deaths, top)
    ensures Complete(files, everything, deaths + 1, top) && 0 in files && |files[0]| >= MAX_FILE_SIZE
  {
    forall n | 1 <= n <= top && n in files
      ensures |files[n]| >= MAX_FILE_SIZE && Missing(files, n) <= deaths + 1
    {
      MissingAt(files, was, deaths, i, top, n);
    }
    assert At(files, 0) == At(was, 0);
    if i + 2 <= top { assert Moved(files, was, top, top); }
  }

  lemma ClimbLast(files: Files, was: Files, everything: string, deaths: nat, top: nat)
    requires 2 <= top && Climbing(files, was, everything, 0, top)
    requires 0 in was && |was[0]| >= MAX_FILE_SIZE && Complete(was, everything, deaths, top)
    ensures var after := Renamed(files, 0);
            Sound(after, everything, top) && Shifted(after, was, top) && Complete(after, everything, deaths, top)
  {
    var after := Renamed(files, 0);
    ClimbKeeps(files, was, everything, deaths, 0, top);
    RenameSafe(files, everything, 0, top);
    forall n | 1 <= n <= top
      ensures Moved(after, was, n, top)
    {
      if n > 1 { assert Moved(files, was, n, top); }
    }
    forall n | 1 <= n <= top && n in after
      ensures |after[n]| >= MAX_FILE_SIZE && Missing(after, n) <= deaths
    {
      MissingFills(files, n);
      if n > 1 { MissingAt(files, was, deaths, 0, top, n); }
    }
    assert 1 in after;
  }

  /** The live file fills the first place. */
  lemma {:induction false} MissingFills(files: Files, n: nat)
    requires 0 in files && 1 !in files && n >= 1
    ensures Missing(Renamed(files, 0), n) == Missing(files, n) - 1
  {
    if n > 1 {
      MissingFills(files, n - 1);
    }
  }

  lemma StillShifted(files: Files, was: Files, top: nat)
    requires Shifted(files, was, top)
    ensures Shifted(files[0 := ""], was, top)
  {
    var after := files[0 := ""];
    forall n | 1 <= n <= top
      ensures Moved(after, was, n, top)
    {
      assert Moved(files, was, n, top);
    }
  }

  lemma NewLive(files: Files, everything: string, deaths: nat, top: nat)
    requires 0 !in files && Sound(files, everything, top) && Complete(files, everything, deaths, top)
    ensures var after := files[0 := ""];
            Kept(after, top) == Kept(files, top) && Sound(after, everything, top) && Complete(after, everything, deaths, top)
  {
    KeptSame(files, files[0 := ""], top);
    SameLadder(files, files[0 := ""], deaths, top);
  }
}
