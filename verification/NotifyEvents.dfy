/** From journal entries to one alert that names only event kinds and counts. */
module NotifyEvents {
  import opened Texts
  import opened Wrappers

  /** The audit message after JSON decoding: its action and outcome, if any. */
  datatype Audit = Audit(action: string, success: Option<bool>)
  datatype Entry = Entry(uid: string, identifier: string, message: string, audit: Option<Audit>)

  datatype Alert = Alert(level: string, target: string, counts: map<string, nat>)

  predicate HasPrefix(s: string, prefix: string) { prefix <= s }
  predicate HasSuffix(s: string, suffix: string) { |suffix| <= |s| && s[|s| - |suffix|..] == suffix }

  predicate EventName(s: string) {
    && 1 <= |s| <= 64
    && Lower(s[0])
    && forall i :: 0 <= i < |s| ==> Lower(s[i]) || Digit(s[i]) || Separator(s[i])
  }

  function Classify(e: Entry): string {
    if e.uid != "0" then ""
    else if e.identifier == "sshd" || e.identifier == "sshd-session" then
      if HasPrefix(e.message, "Accepted ") then "ssh.login.accepted"
      else if HasPrefix(e.message, "Failed ") || HasPrefix(e.message, "Invalid user ")
           || HasPrefix(e.message, "error: PAM: Authentication failure")
           || HasPrefix(e.message, "maximum authentication attempts exceeded") then "ssh.authentication.rejected"
      else ""
    else if e.identifier == "fleetdeck-audit" then
      if e.audit.Some? && e.audit.value.success.Some? && EventName(e.audit.value.action) then
        "fleetdeck." + e.audit.value.action + (if e.audit.value.success.value then ".succeeded" else ".failed")
      else ""
    else ""
  }

  // ----- what the kinds stand for -----

  predicate FromSsh(e: Entry) { e.uid == "0" && (e.identifier == "sshd" || e.identifier == "sshd-session") }

  predicate AcceptedLogin(e: Entry) { FromSsh(e) && "Accepted " <= e.message }

  predicate RejectedLogin(e: Entry) {
    && FromSsh(e)
    && (|| "Failed " <= e.message
        || "Invalid user " <= e.message
        || "error: PAM: Authentication failure" <= e.message
        || "maximum authentication attempts exceeded" <= e.message)
  }

  /** A well-formed audit entry of some action, with its outcome. */
  predicate Audits(e: Entry, action: string, success: bool) {
    e.uid == "0" && e.identifier == "fleetdeck-audit" && e.audit == Some(Audit(action, Some(success))) && EventName(action)
  }

  predicate IsAudit(e: Entry, success: bool) {
    e.audit.Some? && Audits(e, e.audit.value.action, success)
  }

  predicate IsEvent(e: Entry) {
    AcceptedLogin(e) || RejectedLogin(e) || IsAudit(e, true) || IsAudit(e, false)
  }

  function AuditKind(action: string, success: bool): string {
    "fleetdeck." + action + if success then ".succeeded" else ".failed"
  }

  /** How many entries are of some sort. */
  function Number(entries: seq<Entry>, sort: Entry -> bool): nat {
    if entries == [] then 0
    else Number(entries[..|entries| - 1], sort) + if sort(entries[|entries| - 1]) then 1 else 0
  }

  predicate Counted(counts: map<string, nat>, kind: string, n: nat) {
    if n == 0 then kind !in counts else kind in counts && counts[kind] == n
  }

  /** Every number in the alert is the number of entries that it names, no other number is
      in it, and it warns exactly when something was rejected or failed. */
  ghost predicate Tells(alert: Alert, entries: seq<Entry>, host: string) {
    && alert.target == host
    && Counted(alert.counts, "ssh.login.accepted", Number(entries, e => AcceptedLogin(e)))
    && Counted(alert.counts, "ssh.authentication.rejected", Number(entries, e => RejectedLogin(e)))
    && (forall action, success ::
          Counted(alert.counts, AuditKind(action, success), Number(entries, e => Audits(e, action, success))))
    && (forall kind :: kind in alert.counts ==>
          || kind == "ssh.login.accepted" || kind == "ssh.authentication.rejected"
          || exists action, success :: EventName(action) && kind == AuditKind(action, success))
    && alert.level == if exists e :: e in entries && (RejectedLogin(e) || IsAudit(e, false)) then "warning" else "info"
  }

  lemma SshKinds(e: Entry)
    ensures Classify(e) == "ssh.login.accepted" <==> AcceptedLogin(e)
    ensures Classify(e) == "ssh.authentication.rejected" <==> RejectedLogin(e)
  {
    if FromSsh(e) {
      assert "Accepted " <= e.message ==> e.message[0] == 'A';
    } else if Classify(e) != "" {
      assert Classify(e)[0] == 'f';
    }
  }

  lemma AuditKindsDiffer(a: string, s: bool, b: string, t: bool)
    ensures AuditKind(a, s) == AuditKind(b, t) <==> a == b && s == t
  {
    var x, y := AuditKind(a, s), AuditKind(b, t);
    var m, n := if s then ".succeeded" else ".failed", if t then ".succeeded" else ".failed";
    assert x[|x| - 3] == m[|m| - 3] && y[|y| - 3] == n[|n| - 3];
    if x == y {
      assert s == t;
      assert x[10..|x| - |m|] == a && y[10..|y| - |n|] == b;
    }
  }

  lemma AuditKinds(e: Entry, action: string, success: bool)
    ensures EventName(action) ==> (Classify(e) == AuditKind(action, success) <==> Audits(e, action, success))
    ensures Classify(e) == AuditKind(action, success) ==> EventName(action)
  {
    assert AuditKind(action, success)[0] == 'f';
    if e.identifier == "fleetdeck-audit" && e.audit.Some? && e.audit.value.success.Some? {
      AuditKindsDiffer(e.audit.value.action, e.audit.value.success.value, action, success);
    }
  }

  lemma EventsHaveKinds(e: Entry)
    ensures Classify(e) != "" <==> IsEvent(e)
    ensures IsAudit(e, true) ==> Classify(e) == AuditKind(e.audit.value.action, true)
    ensures IsAudit(e, false) ==> Classify(e) == AuditKind(e.audit.value.action, false)
  {
    SshKinds(e);
    if e.audit.Some? && e.audit.value.success.Some? {
      AuditKinds(e, e.audit.value.action, e.audit.value.success.value);
    }
  }

  // ----- the alert -----

  /** The kind of every entry, "" for those that are no event. */
  function Kinds(entries: seq<Entry>): seq<string> {
    seq(|entries|, i requires 0 <= i < |entries| => Classify(entries[i]))
  }

  /** How often each kind occurs. */
  function Counts(kinds: seq<string>): map<string, nat> {
    map k | k in kinds && k != "" :: multiset(kinds)[k]
  }

  predicate Alarming(kind: string) { HasSuffix(kind, ".failed") || HasSuffix(kind, ".rejected") }

  function Level(kinds: set<string>): string {
    if exists k :: k in kinds && Alarming(k) then "warning" else "info"
  }

  lemma {:induction false} KindsCount(entries: seq<Entry>, kind: string, sort: Entry -> bool)
    requires forall e :: e in entries ==> (Classify(e) == kind <==> sort(e))
    ensures multiset(Kinds(entries))[kind] == Number(entries, sort)
  {
    if entries != [] {
      var most, e := entries[..|entries| - 1], entries[|entries| - 1];
      assert e in entries && forall d :: d in most ==> d in entries;
      KindsCount(most, kind, sort);
      KindsOneMore(most, e, kind);
      assert entries == most + [e];
    }
  }

  lemma KindsOneMore(entries: seq<Entry>, e: Entry, kind: string)
    ensures multiset(Kinds(entries + [e]))[kind] == multiset(Kinds(entries))[kind] + if Classify(e) == kind then 1 else 0
  {
    assert Kinds(entries + [e]) == Kinds(entries) + [Classify(e)];
    assert multiset(Kinds(entries + [e])) == multiset(Kinds(entries)) + multiset{Classify(e)};
  }

  lemma CountedKind(entries: seq<Entry>, kind: string, sort: Entry -> bool)
    requires kind != "" && forall e :: e in entries ==> (Classify(e) == kind <==> sort(e))
    ensures Counted(Counts(Kinds(entries)), kind, Number(entries, sort))
  {
    KindsCount(entries, kind, sort);
  }

  lemma CountedSsh(entries: seq<Entry>)
    ensures Counted(Counts(Kinds(entries)), "ssh.login.accepted", Number(entries, e => AcceptedLogin(e)))
    ensures Counted(Counts(Kinds(entries)), "ssh.authentication.rejected", Number(entries, e => RejectedLogin(e)))
  {
    forall e { SshKinds(e); }
    CountedKind(entries, "ssh.login.accepted", e => AcceptedLogin(e));
    CountedKind(entries, "ssh.authentication.rejected", e => RejectedLogin(e));
  }

  lemma CountedAudit(entries: seq<Entry>, action: string, success: bool)
    ensures Counted(Counts(Kinds(entries)), AuditKind(action, success), Number(entries, e => Audits(e, action, success)))
  {
    forall e
      ensures Classify(e) == AuditKind(action, success) <==> Audits(e, action, success)
    {
      AuditKinds(e, action, success);
    }
    CountedKind(entries, AuditKind(action, success), e => Audits(e, action, success));
  }

  /** No kind is counted but those of the entries. */
  lemma CountsAreKinds(entries: seq<Entry>, kind: string)
    requires kind in Counts(Kinds(entries))
    ensures || kind == "ssh.login.accepted" || kind == "ssh.authentication.rejected"
            || exists action, success :: EventName(action) && kind == AuditKind(action, success)
  {
    var i :| 0 <= i < |entries| && Kinds(entries)[i] == kind;
    var e := entries[i];
    EventsHaveKinds(e);
    SshKinds(e);
  }

  lemma KindAlarms(e: Entry)
    ensures Alarming(Classify(e)) <==> RejectedLogin(e) || IsAudit(e, false)
  {
    EventsHaveKinds(e);
    SshKinds(e);
    var kind := Classify(e);
    if IsAudit(e, true) || IsAudit(e, false) {
      var m := if IsAudit(e, true) then ".succeeded" else ".failed";
      assert kind[|kind| - |m|..] == m;
      assert IsAudit(e, true) ==> kind[|kind| - 3] == 'd';
    }
  }

  lemma LevelTells(entries: seq<Entry>)
    ensures Level(Counts(Kinds(entries)).Keys)
            == if exists e :: e in entries && (RejectedLogin(e) || IsAudit(e, false)) then "warning" else "info"
  {
    var keys := Counts(Kinds(entries)).Keys;
    if e :| e in entries && (RejectedLogin(e) || IsAudit(e, false)) {
      KindAlarms(e);
      var i :| 0 <= i < |entries| && entries[i] == e;
      assert Kinds(entries)[i] in keys;
    } else if k :| k in keys && Alarming(k) {
      var i :| 0 <= i < |entries| && Kinds(entries)[i] == k;
      KindAlarms(entries[i]);
      assert false;
    }
  }

  /** The alert a batch of entries stands for, if any entry is classified. */
  function Summary(entries: seq<Entry>, host: string): Option<Alert> {
    var counts := Counts(Kinds(entries));
    if counts == map[] then None else Some(Alert(Level(counts.Keys), host, counts))
  }

  lemma SummaryIffEvent(entries: seq<Entry>, host: string)
    ensures Summary(entries, host).Some? <==> exists e :: e in entries && IsEvent(e)
  {
    var kinds := Kinds(entries);
    forall e { EventsHaveKinds(e); }
    if i :| 0 <= i < |entries| && IsEvent(entries[i]) {
      assert kinds[i] in Counts(kinds);
    }
    if k :| k in Counts(kinds) {
      var i :| 0 <= i < |kinds| && kinds[i] == k;
      assert IsEvent(entries[i]) && entries[i] in entries;
    } else {
      assert Counts(kinds) == map[];
    }
  }

  /** An alert tells of its batch what the entries say. */
  lemma SummaryTells(entries: seq<Entry>, host: string)
    ensures Summary(entries, host).Some? ==> Tells(Summary(entries, host).value, entries, host)
  {
    if Summary(entries, host).Some? {
      var alert := Summary(entries, host).value;
      CountedSsh(entries);
      LevelTells(entries);
      forall action, success
        ensures Counted(alert.counts, AuditKind(action, success), Number(entries, e => Audits(e, action, success)))
      {
        CountedAudit(entries, action, success);
      }
      forall kind | kind in alert.counts
        ensures || kind == "ssh.login.accepted" || kind == "ssh.authentication.rejected"
                || exists action, success :: EventName(action) && kind == AuditKind(action, success)
      {
        CountsAreKinds(entries, kind);
      }
    }
  }

  lemma CountsOneMore(kinds: seq<string>, kind: string)
    ensures var c := Counts(kinds);
            Counts(kinds + [kind]) == if kind == "" then c else c[kind := (if kind in c then c[kind] else 0) + 1]
  {
    assert multiset(kinds + [kind]) == multiset(kinds) + multiset{kind};
    assert kind !in kinds ==> multiset(kinds)[kind] == 0;
  }

  method CountKinds(entries: seq<Entry>) returns (counts: map<string, nat>)
    ensures counts == Counts(Kinds(entries))
  {
    counts := map[];
    for i := 0 to |entries|
      invariant counts == Counts(Kinds(entries[..i]))
    {
      var kind := Classify(entries[i]);
      assert Kinds(entries[..i + 1]) == Kinds(entries[..i]) + [kind];
      CountsOneMore(Kinds(entries[..i]), kind);
      if kind != "" {
        counts := counts[kind := (if kind in counts then counts[kind] else 0) + 1];
      }
    }
    assert entries[..|entries|] == entries;
  }

  lemma LevelGrows(kinds: set<string>, kind: string)
    ensures Level(kinds + {kind}) == if Alarming(kind) then "warning" else Level(kinds)
  {
    assert kind in kinds + {kind};
    if k :| k in kinds && Alarming(k) { assert k in kinds + {kind}; }
  }

  method LevelOf(kinds: set<string>) returns (level: string)
    ensures level == Level(kinds)
  {
    level := "info";
    var keys := kinds;
    while keys != {}
      invariant keys <= kinds
      invariant level == Level(kinds - keys)
    {
      var key :| key in keys;
      LevelGrows(kinds - keys, key);
      assert kinds - (keys - {key}) == (kinds - keys) + {key};
      if HasSuffix(key, ".failed") || HasSuffix(key, ".rejected") { level := "warning"; }
      keys := keys - {key};
    }
    assert kinds - keys == kinds;
  }

  /** Count the kinds of a batch, and say nothing when there are none. */
  method Summarize(entries: seq<Entry>, host: string) returns (alert: Option<Alert>)
    ensures alert == Summary(entries, host)
    ensures alert.Some? <==> exists e :: e in entries && IsEvent(e)
    ensures alert.Some? ==> Tells(alert.value, entries, host)
  {
    SummaryIffEvent(entries, host);
    SummaryTells(entries, host);
    var counts := CountKinds(entries);
    if |counts| == 0 {
      assert counts == map[];
      return None;
    }
    var level := LevelOf(counts.Keys);
    return Some(Alert(level, host, counts));
  }
}
