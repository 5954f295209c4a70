/** Which backups a project keeps: a maximum number of manual backups and of
    snapshots, and a maximum age that never takes the last backup of a type. */
module Retention {
  import opened Wrappers
  import opened BackupRecords

  datatype Limits = Limits(manual: int, snapshots: int, cutoff: Option<int>)

  /** A limit of zero or less is no limit; only two types have one. */
  function Most(limits: Limits, kind: string): int {
    if kind == "manual" then limits.manual else if kind == "snapshot" then limits.snapshots else 0
  }

  /** How many backups of the same project and type are newer. */
  function Rank(t: Table, id: string): nat
    requires id in t
  {
    |Newer(t, id)|
  }

  function Newer(t: Table, id: string): set<string>
    requires id in t
  {
    set o | o in t && t[o].project == t[id].project && t[o].kind == t[id].kind && t[o].created > t[id].created
  }

  // ----- the declarative result -----

  predicate Allowed(t: Table, max: int, id: string)
    requires id in t
  {
    max <= 0 || Rank(t, id) < max
  }

  predicate Fresh(t: Table, cutoff: Option<int>, id: string)
    requires id in t
  {
    cutoff.None? || t[id].created >= cutoff.value
  }

  /** The unexpired ones among the allowed newest, or the newest one. */
  predicate Keeps(t: Table, project: string, limits: Limits, id: string)
    requires id in t
  {
    || t[id].project != project
    || Rank(t, id) == 0
    || (Allowed(t, Most(limits, t[id].kind), id) && Fresh(t, limits.cutoff, id))
  }

  function Retained(t: Table, project: string, limits: Limits): Table {
    map id | id in t && Keeps(t, project, limits, id) :: t[id]
  }

  /** Whatever fails: rows only disappear, rows of other projects do not, and no
      type loses its last backup. */
  ghost predicate Safe(before: Table, after: Table, project: string) {
    && Shrunk(before, after)
    && (forall id :: id in before && before[id].project != project ==> id in after)
    && (forall kind :: Rows(before, project, kind) != {} ==> Rows(after, project, kind) != {})
  }

  lemma SafeTwice(a: Table, b: Table, c: Table, project: string)
    requires Safe(a, b, project) && Safe(b, c, project)
    ensures Safe(a, c, project)
  {
  }

  // ----- ranks -----

  lemma CountSubset(a: set<string>, b: set<string>)
    requires a <= b
    ensures |a| <= |b|
    ensures |a| == |b| ==> a == b
  {
    assert b == a + (b - a);
    if |a| == |b| {
      assert |b - a| == 0;
    }
  }

  /** In a listing of one type, the rows that follow are the newer ones. */
  lemma RankInListing(t: Table, project: string, kind: string, s: seq<string>, i: nat)
    requires Distinct(t) && Lists(t, Rows(t, project, kind), s) && i < |s|
    ensures Rank(t, s[i]) == |s| - 1 - i
  {
    var after := s[i + 1..];
    ElementsCount(after);
    forall o
      ensures o in Newer(t, s[i]) <==> o in Elements(after)
    {
      if o in Newer(t, s[i]) {
        assert o in Rows(t, project, kind);
        var j :| 0 <= j < |s| && s[j] == o;
        assert j > i;
        assert after[j - i - 1] == o;
      }
      if o in Elements(after) {
        var j :| 0 <= j < |after| && after[j] == o;
        assert s[i + 1 + j] == o;
      }
    }
    assert Newer(t, s[i]) == Elements(after);
  }

  /** Dropping the oldest of a listing leaves the rows of lowest rank. */
  lemma TrimmedByRank(t: Table, project: string, kind: string, s: seq<string>, max: nat)
    requires Distinct(t) && Lists(t, Rows(t, project, kind), s) && max <= |s|
    ensures Elements(s[..|s| - max]) == set id | id in Rows(t, project, kind) && Rank(t, id) >= max
  {
    forall id | id in Rows(t, project, kind)
      ensures id in s[..|s| - max] <==> Rank(t, id) >= max
    {
      var i :| 0 <= i < |s| && s[i] == id;
      RankInListing(t, project, kind, s, i);
      if id in s[..|s| - max] {
        var j :| 0 <= j < |s| - max && s[..|s| - max][j] == id;
        assert s[j] == s[i];
      }
      if i < |s| - max {
        assert s[..|s| - max][i] == id;
      }
    }
  }

  /** Rows that lose only older companions keep their rank. */
  lemma RankKept(t: Table, after: Table, id: string)
    requires id in after && id in t && after[id] == t[id]
    requires forall o :: o in after ==> o in t && after[o] == t[o]
    ensures Rank(after, id) <= Rank(t, id)
    ensures (forall o :: o in Newer(t, id) ==> o in after) ==> Rank(after, id) == Rank(t, id)
  {
    CountSubset(Newer(after, id), Newer(t, id));
    if forall o :: o in Newer(t, id) ==> o in after {
      assert Newer(after, id) == Newer(t, id);
    }
  }

  lemma NewerRanksLower(t: Table, id: string, o: string)
    requires id in t && o in Newer(t, id)
    ensures Rank(t, o) < Rank(t, id)
  {
    assert Newer(t, o) <= Newer(t, id);
    assert o in Newer(t, id) && o !in Newer(t, o);
    CountSubset(Newer(t, o), Newer(t, id));
  }

  /** Every type has a newest backup. */
  lemma NewestExists(t: Table, project: string, kind: string) returns (id: string)
    requires Rows(t, project, kind) != {}
    ensures id in Rows(t, project, kind) && Rank(t, id) == 0
  {
    id :| id in Rows(t, project, kind);
    while Newer(t, id) != {}
      invariant id in Rows(t, project, kind)
      decreases Rank(t, id)
    {
      var o :| o in Newer(t, id);
      NewerRanksLower(t, id, o);
      id := o;
    }
  }

  // ----- main results about the declarative result -----

  /** The newest of each type survives, whatever the limits, and nothing of
      another project is touched. */
  lemma RetainedIsSafe(t: Table, project: string, limits: Limits)
    ensures Safe(t, Retained(t, project, limits), project)
    ensures forall id :: id in t && Rank(t, id) == 0 ==> id in Retained(t, project, limits)
  {
    var after := Retained(t, project, limits);
    forall kind | Rows(t, project, kind) != {}
      ensures Rows(after, project, kind) != {}
    {
      var id := NewestExists(t, project, kind);
      assert id in Rows(after, project, kind);
    }
  }

  /** A second run with the same cutoff changes nothing. */
  lemma RetainedTwice(t: Table, project: string, limits: Limits)
    ensures Retained(Retained(t, project, limits), project, limits) == Retained(t, project, limits)
  {
    var once := Retained(t, project, limits);
    forall id | id in once
      ensures Keeps(once, project, limits, id)
    {
      RankKept(t, once, id);
    }
  }

  /** When nothing of a type is recent only its newest backup is left; otherwise
      exactly the recent ones among the allowed newest are. */
  lemma RetainedMeans(t: Table, project: string, limits: Limits, kind: string)
    requires Distinct(t) && Rows(t, project, kind) != {}
    ensures var left, max := Rows(Retained(t, project, limits), project, kind), Most(limits, kind);
            var recent := set id | id in Rows(t, project, kind) && Allowed(t, max, id) && Fresh(t, limits.cutoff, id);
            if recent != {} then left == recent
            else exists id :: id in Rows(t, project, kind) && Rank(t, id) == 0 && left == {id}
  {
    var left, max := Rows(Retained(t, project, limits), project, kind), Most(limits, kind);
    var recent := set id | id in Rows(t, project, kind) && Allowed(t, max, id) && Fresh(t, limits.cutoff, id);
    var newest := NewestExists(t, project, kind);
    forall id | id in Rows(t, project, kind)
      ensures Rank(t, id) == 0 ==> id == newest
      ensures t[id].created <= t[newest].created
    {
      assert id !in Newer(t, newest);
      if id != newest {
        assert newest in Newer(t, id);
      }
    }
    if recent != {} {
      var f :| f in recent;
      assert newest in recent;
      assert left == recent;
    } else {
      assert newest in left && left == {newest};
    }
  }

  // ----- the operations -----

  lemma FewerStays(before: Table, after: Table, project: string, kind: string, doomed: set<string>)
    requires after == before - doomed && doomed <= Rows(before, project, kind)
    requires |doomed| < |Rows(before, project, kind)|
    ensures Safe(before, after, project)
  {
    if Rows(before, project, kind) <= doomed {
      CountSubset(Rows(before, project, kind), doomed);
    }
    var id :| id in Rows(before, project, kind) && id !in doomed;
    assert id in Rows(after, project, kind);
    forall other | other != kind
      ensures Rows(after, project, other) == Rows(before, project, other)
    {
    }
  }

  class Keeper {
    const db: Database
    /** The directories on disk; RemoveAll fails on some of them. */
    var files: set<string>
    const stuck: set<string>

    constructor (db: Database, files: set<string>, stuck: set<string>)
      ensures this.db == db && this.files == files && this.stuck == stuck
    {
      this.db, this.files, this.stuck := db, files, stuck;
    }

    /** Every statement of the run that starts now succeeds. */
    ghost predicate Reliable() reads db {
      forall i :: i >= db.executed ==> !db.fails(i)
    }

    /** The record goes first, and the files only once it is gone. */
    method DeleteBackup(id: string)
      requires id in db.backups
      modifies this, db
      ensures db.executed == old(db.executed) + 1
      ensures db.backups == if db.fails(old(db.executed)) then old(db.backups) else old(db.backups) - {id}
      ensures id in db.backups ==> files == old(files)
      ensures id !in db.backups ==> files == old(files) - ({old(db.backups)[id].path} - stuck)
      ensures FilesFollow(old(files), files, old(db.backups), db.backups)
    {
      var b := db.backups[id];
      var ok := db.DeleteBackupRecord(id);
      if !ok { return; }
      if b.path !in stuck { files := files - {b.path}; }
    }

    /** Delete each of several rows; those that stay are the ones whose statement failed. */
    method DeleteAll(ids: seq<string>) returns (ghost gone: set<string>)
      requires forall i :: 0 <= i < |ids| ==> ids[i] in db.backups
      requires forall i, j :: 0 <= i < j < |ids| ==> ids[i] != ids[j]
      modifies this, db
      ensures db.executed >= old(db.executed)
      ensures gone <= Elements(ids) && db.backups == old(db.backups) - gone
      ensures old(Reliable()) ==> gone == Elements(ids)
      ensures FilesFollow(old(files), files, old(db.backups), db.backups)
    {
      gone := {};
      for i := 0 to |ids|
        invariant db.executed >= old(db.executed)
        invariant gone <= Elements(ids[..i]) && db.backups == old(db.backups) - gone
        invariant old(Reliable()) ==> gone == Elements(ids[..i])
        invariant FilesFollow(old(files), files, old(db.backups), db.backups)
      {
        assert ids[..i + 1] == ids[..i] + [ids[i]];
        ghost var was, had := db.backups, files;
        DeleteBackup(ids[i]);
        if ids[i] !in db.backups { gone := gone + {ids[i]}; }
        FilesFollowTwice(old(files), had, files, old(db.backups), was, db.backups);
      }
      assert ids[..|ids|] == ids;
    }

    method EnforceMaxCount(project: string, kind: string, max: int) returns (ok: bool)
      modifies this, db
      ensures db.executed >= old(db.executed)
      ensures Safe(old(db.backups), db.backups, project)
      ensures old(Reliable()) && Distinct(old(db.backups)) ==>
                ok && db.backups == Capped(old(db.backups), project, kind, max)
      ensures FilesFollow(old(files), files, old(db.backups), db.backups)
    {
      ghost var t := db.backups;
      ok := true;
      if max <= 0 {
        assert Capped(t, project, kind, max) == t;
        return;
      }
      var count;
      ok, count := db.CountBackupsByType(project, kind);
      if !ok { return; }
      if count <= max {
        NothingCapped(t, project, kind, max);
        return;
      }
      var excess := count - max;
      var oldest;
      ghost var all;
      ok, oldest, all := db.GetOldestBackups(project, kind, excess);
      if !ok { return; }
      ListingCounts(t, Rows(t, project, kind), all);
      ghost var gone := DeleteAll(oldest);
      OldestDeleted(t, project, kind, all, max, gone);
    }

    /** Delete the expired backups of a project, oldest first. The count is read
        again before each one, so the last backup of a type is never deleted. */
    method DropExpired(project: string, cutoff: int) returns (ok: bool)
      modifies this, db
      ensures db.executed >= old(db.executed)
      ensures Safe(old(db.backups), db.backups, project)
      ensures old(Reliable()) && Distinct(old(db.backups)) ==> ok && db.backups == Aged(old(db.backups), project, cutoff)
      ensures FilesFollow(old(files), files, old(db.backups), db.backups)
    {
      ghost var t := db.backups;
      var expired;
      ok, expired := db.GetExpiredBackups(project, cutoff);
      if !ok { return; }
      for i := 0 to |expired|
        invariant db.executed >= old(db.executed)
        invariant Reached(t, db.backups, project, cutoff, expired, i, old(Reliable()) && Distinct(t))
        invariant FilesFollow(old(files), files, t, db.backups)
      {
        ghost var now, had := db.backups, files;
        Consider(project, expired[i]);
        ReachNext(t, now, db.backups, project, cutoff, expired, i, old(Reliable()) && Distinct(t));
        FilesFollowTwice(old(files), had, files, t, now, db.backups);
      }
      assert expired[..|expired|] == expired;
    }

    /** One expired backup: kept when it is the last of its type, or when the count failed. */
    method Consider(project: string, id: string)
      requires id in db.backups && db.backups[id].project == project
      modifies this, db
      ensures db.executed >= old(db.executed)
      ensures Safe(old(db.backups), db.backups, project)
      ensures db.backups == old(db.backups) || db.backups == old(db.backups) - {id}
      ensures old(Reliable()) ==>
                db.backups == if |Rows(old(db.backups), project, old(db.backups)[id].kind)| <= 1 then old(db.backups)
                              else old(db.backups) - {id}
      ensures FilesFollow(old(files), files, old(db.backups), db.backups)
    {
      ghost var t := db.backups;
      var kind := db.backups[id].kind;
      var _, count := db.CountBackupsByType(project, kind);
      if count <= 1 { return; }
      DeleteBackup(id);
      if id !in db.backups {
        FewerStays(t, db.backups, project, kind, {id});
      }
    }

    /** With every statement succeeding and distinct creation times exactly the
        declared backups are left; whatever fails, no type loses its last backup,
        other projects are untouched, and only the files of deleted records go. */
    method EnforceRetention(project: string, limits: Limits) returns (ok: bool)
      modifies this, db
      ensures Safe(old(db.backups), db.backups, project)
      ensures old(Reliable()) && Distinct(old(db.backups)) ==>
                ok && db.backups == Retained(old(db.backups), project, limits)
      ensures FilesFollow(old(files), files, old(db.backups), db.backups)
    {
      ghost var t := db.backups;
      ok := EnforceMaxCount(project, "manual", limits.manual);
      if !ok { return; }
      ghost var t1, f1 := db.backups, files;
      ok := EnforceMaxCount(project, "snapshot", limits.snapshots);
      SafeTwice(t, t1, db.backups, project);
      FilesFollowTwice(old(files), f1, files, t, t1, db.backups);
      if !ok { return; }
      ghost var t2, f2 := db.backups, files;
      if limits.cutoff.Some? {
        ok := DropExpired(project, limits.cutoff.value);
        SafeTwice(t, t2, db.backups, project);
        FilesFollowTwice(old(files), f2, files, t, t2, db.backups);
      }
      if old(Reliable()) && Distinct(t) {
        StepsRetain(t, project, limits);
      }
    }
  }

  /** A file is removed only for a row that is gone. */
  predicate FilesFollow(files: set<string>, left: set<string>, before: Table, after: Table) {
    && left <= files
    && forall p :: p in files && p !in left ==> exists id :: id in before && id !in after && before[id].path == p
  }

  predicate Shrunk(before: Table, after: Table) {
    forall id :: id in after ==> id in before && after[id] == before[id]
  }

  lemma FilesFollowTwice(f: set<string>, g: set<string>, h: set<string>, a: Table, b: Table, c: Table)
    requires FilesFollow(f, g, a, b) && FilesFollow(g, h, b, c)
    requires Shrunk(a, b) && Shrunk(b, c)
    ensures FilesFollow(f, h, a, c)
  {
    forall p | p in f && p !in h
      ensures exists id :: id in a && id !in c && a[id].path == p
    {
      if p in g {
        var id :| id in b && id !in c && b[id].path == p;
        assert a[id].path == p;
      } else {
        var id :| id in a && id !in b && a[id].path == p;
        assert id !in c;
      }
    }
  }

  /** Deleting any of the rows beyond the maximum leaves the type a backup, and deleting
      all of them leaves exactly the newest. */
  /** Fewer rows are asked for than there are. */
  lemma OldestFew(t: Table, project: string, kind: string, all: seq<string>, max: nat, gone: set<string>)
    requires Lists(t, Rows(t, project, kind), all) && 0 < max < |all| && gone <= Elements(all[..|all| - max])
    ensures gone <= Rows(t, project, kind) && |gone| < |Rows(t, project, kind)|
  {
    var oldest := all[..|all| - max];
    ListingCounts(t, Rows(t, project, kind), all);
    ElementsCount(oldest);
    CountSubset(gone, Elements(oldest));
  }

  lemma OldestDeleted(t: Table, project: string, kind: string, all: seq<string>, max: nat, gone: set<string>)
    requires Lists(t, Rows(t, project, kind), all) && 0 < max < |all| && gone <= Elements(all[..|all| - max])
    ensures Safe(t, t - gone, project)
    ensures Distinct(t) && gone == Elements(all[..|all| - max]) ==> t - gone == Capped(t, project, kind, max)
  {
    OldestFew(t, project, kind, all, max, gone);
    FewerStays(t, t - gone, project, kind, gone);
    if Distinct(t) {
      TrimmedByRank(t, project, kind, all, max);
    }
  }

  /** The rows left by a maximum count alone. */
  function Capped(t: Table, project: string, kind: string, max: int): Table {
    map id | id in t && (t[id].project == project && t[id].kind == kind ==> Allowed(t, max, id)) :: t[id]
  }

  lemma NothingCapped(t: Table, project: string, kind: string, max: int)
    requires |Rows(t, project, kind)| <= max
    ensures Capped(t, project, kind, max) == t
  {
    forall id | id in Rows(t, project, kind)
      ensures Allowed(t, max, id)
    {
      assert id !in Newer(t, id) && Newer(t, id) + {id} <= Rows(t, project, kind);
      CountSubset(Newer(t, id) + {id}, Rows(t, project, kind));
    }
  }

  /** The rows left by a cutoff alone. */
  function Aged(t: Table, project: string, cutoff: int): Table {
    map id | id in t && (t[id].project == project ==> Rank(t, id) == 0 || t[id].created >= cutoff) :: t[id]
  }

  /** Those of some rows that are not the newest of their type. */
  function Superseded(t: Table, ids: seq<string>): set<string> {
    set id | id in ids && id in t && Rank(t, id) != 0
  }

  lemma SupersededGrows(t: Table, s: seq<string>, i: nat)
    requires i < |s| && s[i] in t
    ensures Superseded(t, s[..i + 1]) == Superseded(t, s[..i]) + if Rank(t, s[i]) != 0 then {s[i]} else {}
  {
    assert s[..i + 1] == s[..i] + [s[i]];
  }

  /** The rows already considered are the older ones. */
  lemma PassedByAge(t: Table, project: string, cutoff: int, s: seq<string>, i: nat, o: string)
    requires Distinct(t) && Lists(t, Expired(t, project, cutoff), s) && i < |s|
    requires o in t && t[o].project == project
    ensures o in s[..i] <==> t[o].created < t[s[i]].created
  {
    assert s[i] in Expired(t, project, cutoff);
    if o in s {
      var j :| 0 <= j < |s| && s[j] == o;
      if o in s[..i] {
        var k :| 0 <= k < i && s[..i][k] == o;
        assert s[k] == s[j];
      }
      if j < i {
        assert s[..i][j] == o;
      }
    } else {
      assert o !in Expired(t, project, cutoff);
      assert forall k :: 0 <= k < i ==> s[..i][k] == s[k];
    }
  }

  /** When the loop reaches a backup, the ones of its type still present are it
      and the newer ones. */
  lemma CountWhenReached(t: Table, project: string, cutoff: int, s: seq<string>, i: nat, now: Table)
    requires Distinct(t) && Lists(t, Expired(t, project, cutoff), s) && i < |s|
    requires now == t - Superseded(t, s[..i])
    ensures |Rows(now, project, t[s[i]].kind)| == Rank(t, s[i]) + 1
  {
    var b, rows := s[i], Rows(now, project, t[s[i]].kind);
    assert b in Expired(t, project, cutoff);
    forall o | o in Rows(t, project, t[b].kind)
      ensures o in rows <==> o in Newer(t, b) + {b}
    {
      PassedByAge(t, project, cutoff, s, i, o);
      if t[o].created < t[b].created {
        assert b in Newer(t, o);
      }
    }
    assert rows == Newer(t, b) + {b};
  }

  lemma CappedRank(t: Table, project: string, kind: string, max: int, id: string)
    requires id in Capped(t, project, kind, max)
    ensures Rank(Capped(t, project, kind, max), id) == Rank(t, id)
  {
    var after := Capped(t, project, kind, max);
    forall o | o in Newer(t, id)
      ensures o in after
    {
      NewerRanksLower(t, id, o);
    }
    RankKept(t, after, id);
  }

  /** What the expiry loop keeps: what is safe always, and how far it has got. */
  ghost predicate Reached(t: Table, now: Table, project: string, cutoff: int, s: seq<string>, i: nat, sure: bool)
    requires i <= |s|
  {
    && Safe(t, now, project)
    && (forall j :: i <= j < |s| ==> s[j] in now && now[s[j]].project == project)
    && (sure ==> now == t - Superseded(t, s[..i]))
  }

  lemma ReachNext(t: Table, now: Table, next: Table, project: string, cutoff: int, s: seq<string>, i: nat, sure: bool)
    requires Lists(t, Expired(t, project, cutoff), s) && i < |s|
    requires Reached(t, now, project, cutoff, s, i, sure)
    requires Safe(now, next, project) && (next == now || next == now - {s[i]})
    requires sure ==> Distinct(t)
    requires sure ==> next == if |Rows(now, project, now[s[i]].kind)| <= 1 then now else now - {s[i]}
    ensures Reached(t, next, project, cutoff, s, i + 1, sure)
  {
    SafeTwice(t, now, next, project);
    assert s[i] in t;
    if sure {
      CountWhenReached(t, project, cutoff, s, i, now);
      SupersededGrows(t, s, i);
      RemovedNext(t, now, next, s, i);
    }
  }

  lemma RemovedNext(t: Table, now: Table, next: Table, s: seq<string>, i: nat)
    requires i < |s| && s[i] in t && now == t - Superseded(t, s[..i])
    requires Superseded(t, s[..i + 1]) == Superseded(t, s[..i]) + if Rank(t, s[i]) != 0 then {s[i]} else {}
    requires next == if Rank(t, s[i]) == 0 then now else now - {s[i]}
    ensures next == t - Superseded(t, s[..i + 1])
  {
  }

  lemma CappedTwice(t: Table, project: string, limits: Limits, id: string)
    requires id in t
    ensures var twice := Capped(Capped(t, project, "manual", limits.manual), project, "snapshot", limits.snapshots);
            && (id in twice <==> (t[id].project == project ==> Allowed(t, Most(limits, t[id].kind), id)))
            && (id in twice ==> Rank(twice, id) == Rank(t, id) && twice[id] == t[id])
  {
    var once := Capped(t, project, "manual", limits.manual);
    var twice := Capped(once, project, "snapshot", limits.snapshots);
    if id in once { CappedRank(t, project, "manual", limits.manual, id); }
    if id in twice { CappedRank(once, project, "snapshot", limits.snapshots, id); }
  }

  /** The three steps together leave the declared result. */
  lemma StepsRetain(t: Table, project: string, limits: Limits)
    ensures var capped := Capped(Capped(t, project, "manual", limits.manual), project, "snapshot", limits.snapshots);
            Retained(t, project, limits) == if limits.cutoff.Some? then Aged(capped, project, limits.cutoff.value) else capped
  {
    var capped := Capped(Capped(t, project, "manual", limits.manual), project, "snapshot", limits.snapshots);
    var left := if limits.cutoff.Some? then Aged(capped, project, limits.cutoff.value) else capped;
    var retained := Retained(t, project, limits);
    forall id | id in t
      ensures id in left <==> id in retained
      ensures id in left ==> left[id] == t[id]
    {
      CappedTwice(t, project, limits, id);
    }
    assert left.Keys == retained.Keys;
  }
}
