/** What one server tells about itself, and what a reader accepts. */
module FleetProtocol {
  import opened Wrappers
  import opened Texts

  /** Instants and durations in nanoseconds; the zero instant means none was recorded. */
  type Time = int

  const ZERO: Time := 0
  const SECOND := 1000000000
  const MINUTE := 60 * SECOND
  const HOUR := 60 * MINUTE
  const SKEW := 30 * SECOND
  const MAX_AGE := 3 * MINUTE
  const SCAN_AGE := 26 * HOUR
  const MAX_COUNT := 1000000

  datatype Project = Project(name: string, registryStatus: string, lastBackup: Option<Time>)

  /** The three statuses; anything else that a decoder may find is refused. */
  datatype Status = Ok | Attention | Unknown | Invalid(text: string)

  datatype Checks = Checks(status: Status, checkedAt: Option<Time>, healthy: int, unhealthy: int, unknown: int)

  datatype Security =
    Security(status: Status, checkedAt: Option<Time>, critical: int, high: int, runtimeFindings: int, unknown: int)

  datatype Snapshot = Snapshot(schema: int, nodeId: string, generatedAt: Time, version: string, commit: string,
                               projects: seq<Project>, monitoring: Checks, security: Security)

  /** ^[a-z0-9][a-z0-9-]{0,62}$ */
  predicate ValidID(id: string) {
    && 1 <= |id| <= 63 && (Lower(id[0]) || Digit(id[0]))
    && forall i :: 1 <= i < |id| ==> Lower(id[i]) || Digit(id[i]) || id[i] == '-'
  }

  /** Not from the future, and not older than an age. */
  predicate Current(at: Time, now: Time, age: int) {
    at != ZERO && at <= now + SKEW && now - at <= age
  }

  predicate ValidIdentity(s: Snapshot, node: string, now: Time) {
    && s.schema == 1 && ValidID(node) && s.nodeId == node
    && |s.version| <= 100 && |s.commit| <= 100 && |s.projects| <= 500
    && Current(s.generatedAt, now, MAX_AGE)
  }

  predicate ValidProject(p: Project, now: Time) {
    ValidID(p.name) && |p.registryStatus| <= 40 && (p.lastBackup.Some? ==> p.lastBackup.value <= now + SKEW)
  }

  predicate ValidProjects(ps: seq<Project>, now: Time) {
    && (forall i :: 0 <= i < |ps| ==> ValidProject(ps[i], now))
    && (forall i, j :: 0 <= i < j < |ps| ==> ps[i].name != ps[j].name)
  }

  predicate Counted(n: int) { 0 <= n <= MAX_COUNT }

  /** A status other than unknown is backed by a current observation. */
  predicate Backed(status: Status, at: Option<Time>, now: Time, age: int) {
    status != Unknown ==> at.Some? && Current(at.value, now, age)
  }

  predicate ValidMonitoring(c: Checks, now: Time) {
    && !c.status.Invalid? && Counted(c.healthy) && Counted(c.unhealthy) && Counted(c.unknown)
    && Backed(c.status, c.checkedAt, now, MAX_AGE)
    && (c.status == Ok ==> c.healthy > 0 && c.unhealthy == 0 && c.unknown == 0)
  }

  predicate ValidSecurity(v: Security, now: Time) {
    && !v.status.Invalid? && Counted(v.critical) && Counted(v.high) && Counted(v.runtimeFindings) && Counted(v.unknown)
    && Backed(v.status, v.checkedAt, now, SCAN_AGE)
    && (v.status == Ok ==> v.critical == 0 && v.high == 0 && v.runtimeFindings == 0 && v.unknown == 0)
  }

  predicate Valid(s: Snapshot, node: string, now: Time) {
    ValidIdentity(s, node, now) && ValidProjects(s.projects, now) && ValidMonitoring(s.monitoring, now) && ValidSecurity(s.security, now)
  }

  method Validate(s: Snapshot, node: string, now: Time) returns (ok: bool)
    ensures ok <==> Valid(s, node, now)
  {
    if s.schema != 1 || !ValidID(node) || s.nodeId != node || |s.version| > 100 || |s.commit| > 100 || |s.projects| > 500 {
      return false;
    }
    if s.generatedAt == ZERO || s.generatedAt > now + SKEW || now - s.generatedAt > MAX_AGE { return false; }
    var seen := {};
    for i := 0 to |s.projects|
      invariant forall j :: 0 <= j < i ==> ValidProject(s.projects[j], now)
      invariant forall j :: 0 <= j < i ==> s.projects[j].name in seen
      invariant forall name :: name in seen ==> exists j :: 0 <= j < i && s.projects[j].name == name
      invariant forall j, k :: 0 <= j < k < i ==> s.projects[j].name != s.projects[k].name
    {
      var p := s.projects[i];
      if !ValidID(p.name) || p.name in seen || |p.registryStatus| > 40
         || (p.lastBackup.Some? && p.lastBackup.value > now + SKEW) {
        return false;
      }
      seen := seen + {p.name};
    }
    ok := ValidateObservations(s.monitoring, s.security, now);
  }

  method ValidateObservations(m: Checks, v: Security, now: Time) returns (ok: bool)
    ensures ok <==> ValidMonitoring(m, now) && ValidSecurity(v, now)
  {
    if m.status.Invalid? || v.status.Invalid? { return false; }
    var counts := [m.healthy, m.unhealthy, m.unknown, v.critical, v.high, v.runtimeFindings, v.unknown];
    for i := 0 to |counts|
      invariant forall j :: 0 <= j < i ==> Counted(counts[j])
    {
      if counts[i] < 0 || counts[i] > MAX_COUNT { return false; }
    }
    assert Counted(counts[0]) && Counted(counts[1]) && Counted(counts[2]) && Counted(counts[3]) && Counted(counts[4])
        && Counted(counts[5]) && Counted(counts[6]);
    if m.status != Unknown && (m.checkedAt.None? || !Current(m.checkedAt.value, now, MAX_AGE)) { return false; }
    if v.status != Unknown && (v.checkedAt.None? || !Current(v.checkedAt.value, now, SCAN_AGE)) { return false; }
    if m.status == Ok && (m.healthy == 0 || m.unhealthy != 0 || m.unknown != 0) { return false; }
    if v.status == Ok && (v.critical != 0 || v.high != 0 || v.runtimeFindings != 0 || v.unknown != 0) { return false; }
    ok := true;
  }
}
