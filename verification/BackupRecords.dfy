/** The table of backup records and the queries that retention makes of it. */
module BackupRecords {
  datatype Row = Row(project: string, kind: string, trigger: string, path: string, created: int)

  type Table = map<string, Row>

  /** The rows of one project and type. */
  function Rows(t: Table, project: string, kind: string): set<string> {
    set id | id in t && t[id].project == project && t[id].kind == kind
  }

  /** The rows of one project, of any type, created before a cutoff. */
  function Expired(t: Table, project: string, cutoff: int): set<string> {
    set id | id in t && t[id].project == project && t[id].created < cutoff
  }

  /** No two backups were created at the same instant. */
  predicate Distinct(t: Table) {
    forall a, b :: a in t && b in t && t[a].created == t[b].created ==> a == b
  }

  /** A listing of some rows, oldest first; rows of the same instant come in any order. */
  predicate Lists(t: Table, ids: set<string>, s: seq<string>) {
    && (forall i :: 0 <= i < |s| ==> s[i] in t && s[i] in ids)
    && (forall id :: id in ids ==> id in s)
    && (forall i, j :: 0 <= i < j < |s| ==> s[i] != s[j] && s[i] in t && s[j] in t && t[s[i]].created <= t[s[j]].created)
  }

  function Elements(s: seq<string>): (ids: set<string>)
    ensures forall id :: id in ids <==> id in s
  {
    set id | id in s
  }

  lemma {:induction false} ElementsCount(s: seq<string>)
    requires forall i, j :: 0 <= i < j < |s| ==> s[i] != s[j]
    ensures |Elements(s)| == |s|
  {
    if s != [] {
      var most, last := s[..|s| - 1], s[|s| - 1];
      ElementsCount(most);
      assert s == most + [last];
      assert Elements(s) == Elements(most) + {last};
      assert last !in Elements(most);
    }
  }

  lemma ListingCounts(t: Table, ids: set<string>, s: seq<string>)
    requires Lists(t, ids, s)
    ensures |s| == |ids|
  {
    ElementsCount(s);
    assert Elements(s) == ids;
  }

  class Database {
    var backups: Table
    /** Which statements fail, in the order they are executed. */
    const fails: nat -> bool
    var executed: nat

    constructor (backups: Table, fails: nat -> bool)
      ensures this.backups == backups && this.fails == fails && executed == 0
    {
      this.backups, this.fails, executed := backups, fails, 0;
    }

    /** Whether the next statement succeeds. */
    method Execute() returns (ok: bool)
      modifies this`executed
      ensures ok == !fails(old(executed)) && executed == old(executed) + 1
    {
      ok := !fails(executed);
      executed := executed + 1;
    }

    /** A record keeps its own type and trigger or gets the usual ones; an id that
        is taken is refused and no existing record changes. */
    method CreateBackupRecord(id: string, uuid: string, b: Row, now: int) returns (ok: bool)
      modifies this
      ensures var key := if id == "" then uuid else id;
              && ok == (!fails(old(executed)) && key !in old(backups))
              && (!ok ==> backups == old(backups))
              && (ok ==> backups == old(backups)[key := Row(b.project, if b.kind == "" then "manual" else b.kind,
                                      if b.trigger == "" then "user" else b.trigger, b.path, now)])
    {
      var key := if id == "" then uuid else id;
      var row := b.(created := now);
      if row.kind == "" { row := row.(kind := "manual"); }
      if row.trigger == "" { row := row.(trigger := "user"); }
      ok := Execute();
      if key in backups { ok := false; }
      if ok { backups := backups[key := row]; }
    }

    method DeleteBackupRecord(id: string) returns (ok: bool)
      modifies this
      ensures ok == !fails(old(executed)) && executed == old(executed) + 1
      ensures backups == if ok then old(backups) - {id} else old(backups)
    {
      ok := Execute();
      if ok { backups := backups - {id}; }
    }

    /** A query that fails leaves the count at zero. */
    method CountBackupsByType(project: string, kind: string) returns (ok: bool, count: nat)
      modifies this`executed
      ensures ok == !fails(old(executed)) && executed == old(executed) + 1
      ensures count == if ok then |Rows(backups, project, kind)| else 0
    {
      ok := Execute();
      count := if ok then |Rows(backups, project, kind)| else 0;
    }

    /** The order a query asks for: every matching row once, oldest first. */
    method List(ids: set<string>) returns (s: seq<string>)
      requires forall id :: id in ids ==> id in backups
      ensures Lists(backups, ids, s)
    {
      s := [];
      var rest := ids;
      while rest != {}
        invariant rest <= ids && Lists(backups, ids - rest, s)
        invariant forall a, b :: a in ids - rest && b in rest ==> backups[a].created <= backups[b].created
        decreases |rest|
      {
        var next := Oldest(rest);
        Listed(backups, ids - rest, s, next);
        assert ids - rest + {next} == ids - (rest - {next});
        s, rest := s + [next], rest - {next};
      }
      assert ids - rest == ids;
    }

    method Oldest(ids: set<string>) returns (oldest: string)
      requires ids != {} && forall id :: id in ids ==> id in backups
      ensures oldest in ids && forall id :: id in ids ==> backups[oldest].created <= backups[id].created
    {
      var rest := ids;
      oldest :| oldest in rest;
      rest := rest - {oldest};
      while rest != {}
        invariant rest <= ids && oldest in ids
        invariant forall id :: id in ids - rest ==> backups[oldest].created <= backups[id].created
        decreases |rest|
      {
        var id :| id in rest;
        if backups[id].created < backups[oldest].created { oldest := id; }
        rest := rest - {id};
      }
    }

    /** The oldest rows of one type, no more than a limit. */
    method GetOldestBackups(project: string, kind: string, limit: nat) returns (ok: bool, found: seq<string>, ghost all: seq<string>)
      modifies this`executed
      ensures ok == !fails(old(executed)) && executed == old(executed) + 1
      ensures Lists(backups, Rows(backups, project, kind), all)
      ensures ok ==> found == if limit < |all| then all[..limit] else all
    {
      ok := Execute();
      var rows := List(Rows(backups, project, kind));
      all := rows;
      found := if limit < |rows| then rows[..limit] else rows;
    }

    method GetExpiredBackups(project: string, cutoff: int) returns (ok: bool, found: seq<string>)
      modifies this`executed
      ensures ok == !fails(old(executed)) && executed == old(executed) + 1
      ensures Lists(backups, Expired(backups, project, cutoff), found)
    {
      ok := Execute();
      found := List(Expired(backups, project, cutoff));
    }
  }

  lemma Listed(t: Table, ids: set<string>, s: seq<string>, next: string)
    requires Lists(t, ids, s) && next in t && next !in ids
    requires forall a :: a in ids ==> a in t && t[a].created <= t[next].created
    ensures Lists(t, ids + {next}, s + [next])
  {
    var longer := s + [next];
    assert forall id :: id in s ==> id in longer;
    assert longer[|s|] == next;
  }
}
