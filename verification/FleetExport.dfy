/** Exporting recorded observations: the exporter's own claims always pass the
    reader's validation at the instant they are made. */
module FleetExport {
  import opened Wrappers
  import opened FleetProtocol
  import opened MonitorSummary

  datatype CheckStatus = UpToDate | Checked | UpdateAvailable | OtherStatus

  datatype SecurityCheck = SecurityCheck(status: CheckStatus, rebootRequired: bool)

  /** A finding's severity without regard to case. */
  datatype Severity = Critical | High | OtherSeverity

  datatype Image = Image(status: CheckStatus, findings: seq<Severity>)

  /** Containers count their findings. */
  datatype Report = Report(checkedAt: Time, host: SecurityCheck, release: SecurityCheck, inventory: SecurityCheck,
                           images: seq<Image>, containers: seq<nat>)

  // ----- what the counters stand for -----

  function CountHealth(items: seq<Summary>, h: Health -> bool): nat {
    if items == [] then 0
    else CountHealth(items[..|items| - 1], h) + if h(items[|items| - 1].health) then 1 else 0
  }

  function IsHealthy(h: Health): bool { h == Healthy }

  function IsUnhealthy(h: Health): bool { h == Unhealthy }

  function IsUnclear(h: Health): bool { h != Healthy && h != Unhealthy }

  lemma {:induction false} CountsAddUp(items: seq<Summary>)
    ensures CountHealth(items, IsHealthy) + CountHealth(items, IsUnhealthy) + CountHealth(items, IsUnclear) == |items|
  {
    if items != [] {
      CountsAddUp(items[..|items| - 1]);
    }
  }

  lemma {:induction false} AllHealthy(items: seq<Summary>)
    ensures CountHealth(items, IsHealthy) == |items| <==> forall i :: 0 <= i < |items| ==> items[i].health == Healthy
    ensures CountHealth(items, IsHealthy) <= |items|
  {
    if items != [] {
      AllHealthy(items[..|items| - 1]);
    }
  }

  /** Every target of an accepted state is healthy now, and there is one. */
  predicate AllWell(s: State, now: Time) {
    Accepted(s) && s.targets != [] && forall i :: 0 <= i < |s.targets| ==> HealthyNow(s, s.targets[i], now)
  }

  lemma LinesAllHealthy(s: State, now: Time, items: seq<Summary>)
    requires multiset(items) == multiset(Lines(s, now))
    ensures |items| == |s.targets|
    ensures (forall i :: 0 <= i < |items| ==> items[i].health == Healthy) <==>
              forall i :: 0 <= i < |s.targets| ==> HealthyNow(s, s.targets[i], now)
  {
    var lines := Lines(s, now);
    assert |multiset(items)| == |multiset(lines)|;
    if forall i :: 0 <= i < |items| ==> items[i].health == Healthy {
      forall i | 0 <= i < |s.targets|
        ensures HealthyNow(s, s.targets[i], now)
      {
        assert lines[i] in multiset(items);
      }
    }
    if forall i :: 0 <= i < |s.targets| ==> HealthyNow(s, s.targets[i], now) {
      forall i | 0 <= i < |items|
        ensures items[i].health == Healthy
      {
        assert items[i] in multiset(lines);
      }
    }
  }

  /** Some target of an accepted state is unhealthy now. */
  predicate SomeUnhealthy(s: State, now: Time) {
    Accepted(s) && exists i :: 0 <= i < |s.targets| && UnhealthyNow(s, s.targets[i], now)
  }

  lemma LinesUnhealthy(s: State, now: Time, items: seq<Summary>)
    requires multiset(items) == multiset(Lines(s, now))
    ensures (exists i :: 0 <= i < |items| && items[i].health == Unhealthy) <==>
              exists i :: 0 <= i < |s.targets| && UnhealthyNow(s, s.targets[i], now)
  {
    var lines := Lines(s, now);
    if i :| 0 <= i < |items| && items[i].health == Unhealthy {
      assert items[i] in multiset(lines);
      var j :| 0 <= j < |lines| && lines[j] == items[i];
      assert UnhealthyNow(s, s.targets[j], now);
    }
    if i :| 0 <= i < |s.targets| && UnhealthyNow(s, s.targets[i], now) {
      assert lines[i] in multiset(items);
      var j :| 0 <= j < |items| && items[j] == lines[i];
    }
  }

  lemma {:induction false} UnhealthyCount(items: seq<Summary>)
    ensures CountHealth(items, IsUnhealthy) > 0 <==> exists i :: 0 <= i < |items| && items[i].health == Unhealthy
  {
    if items != [] {
      UnhealthyCount(items[..|items| - 1]);
    }
  }

  /** The monitoring section. It is valid at once, claims ok exactly when all is well, asks
      for attention exactly when some target is unhealthy, each with a current state, and
      otherwise still counts every target. */
  method ExportMonitoring(state: Option<State>, now: Time) returns (m: Checks)
    ensures ValidMonitoring(m, now)
    ensures m.status == Ok <==> state.Some? && AllWell(state.value, now) && Current(state.value.updatedAt, now, MAX_AGE)
    ensures state.Some? && Accepted(state.value) ==> m.healthy + m.unhealthy + m.unknown == |state.value.targets|
    ensures m.status == Attention <==> state.Some? && SomeUnhealthy(state.value, now) && Current(state.value.updatedAt, now, MAX_AGE)
  {
    m := Checks(Unknown, None, 0, 0, 0);
    if state.None? { return; }
    var s := state.value;
    var ok, items := Summarize(s, now);
    if ok {
      LinesAllHealthy(s, now, items);
      LinesUnhealthy(s, now, items);
      UnhealthyCount(items);
      CountsAddUp(items);
      AllHealthy(items);
    }
    if !ok || items == [] { return; }
    m := Tally(s.updatedAt, items);
    if m.unhealthy > 0 { m := m.(status := Attention); }
    if m.unknown > 0 && m.unhealthy == 0 { m := m.(status := Unknown); }
    if s.updatedAt == ZERO || s.updatedAt > now + SKEW || now - s.updatedAt > MAX_AGE { m := m.(status := Unknown); }
  }

  method Tally(updatedAt: Time, items: seq<Summary>) returns (m: Checks)
    ensures m == Checks(Ok, Some(updatedAt), CountHealth(items, IsHealthy), CountHealth(items, IsUnhealthy), CountHealth(items, IsUnclear))
  {
    m := Checks(Ok, Some(updatedAt), 0, 0, 0);
    for i := 0 to |items|
      invariant m == Checks(Ok, Some(updatedAt), CountHealth(items[..i], IsHealthy), CountHealth(items[..i], IsUnhealthy),
                            CountHealth(items[..i], IsUnclear))
    {
      assert items[..i + 1][..i] == items[..i];
      match items[i].health
      case Healthy => m := m.(healthy := m.healthy + 1);
      case Unhealthy => m := m.(unhealthy := m.unhealthy + 1);
      case _ => m := m.(unknown := m.unknown + 1);
    }
    assert items[..|items|] == items;
  }

  // ----- security -----

  function Sum(xs: seq<nat>): nat {
    if xs == [] then 0 else Sum(xs[..|xs| - 1]) + xs[|xs| - 1]
  }

  function CountSeverity(fs: seq<Severity>, s: Severity): nat {
    if fs == [] then 0 else CountSeverity(fs[..|fs| - 1], s) + if fs[|fs| - 1] == s then 1 else 0
  }

  function Findings(images: seq<Image>, s: Severity): nat {
    if images == [] then 0
    else Findings(images[..|images| - 1], s) + CountSeverity(images[|images| - 1].findings, s)
  }

  function Unscanned(images: seq<Image>): nat {
    if images == [] then 0
    else Unscanned(images[..|images| - 1]) + if images[|images| - 1].status != Checked then 1 else 0
  }

  function Unclear(c: SecurityCheck): nat { if c.status == OtherStatus then 1 else 0 }

  predicate Clean(c: SecurityCheck) { (c.status == UpToDate || c.status == Checked) && !c.rebootRequired }

  /** Nothing at all was found, and nothing was left unchecked. */
  predicate AllClean(r: Report) {
    && Clean(r.host) && Clean(r.release) && Clean(r.inventory)
    && (forall i :: 0 <= i < |r.images| ==> r.images[i].status == Checked && r.images[i].findings == [])
    && (forall i :: 0 <= i < |r.containers| ==> r.containers[i] == 0)
  }

  predicate Actionable(r: Report) {
    || r.host.status == UpdateAvailable || r.release.status == UpdateAvailable || r.inventory.status == UpdateAvailable
    || r.host.rebootRequired || r.release.rebootRequired || r.inventory.rebootRequired
    || (exists i :: 0 <= i < |r.images| && r.images[i].findings != [])
    || (exists i :: 0 <= i < |r.containers| && r.containers[i] != 0)
  }

  lemma {:induction false} SeverityCounts(fs: seq<Severity>)
    ensures CountSeverity(fs, Critical) + CountSeverity(fs, High) + CountSeverity(fs, OtherSeverity) == |fs|
  {
    if fs != [] {
      SeverityCounts(fs[..|fs| - 1]);
    }
  }

  lemma {:induction false} FindingsMean(images: seq<Image>)
    ensures Findings(images, Critical) + Findings(images, High) + Findings(images, OtherSeverity) > 0
            <==> exists i :: 0 <= i < |images| && images[i].findings != []
    ensures Unscanned(images) == 0 <==> forall i :: 0 <= i < |images| ==> images[i].status == Checked
  {
    if images != [] {
      FindingsMean(images[..|images| - 1]);
      SeverityCounts(images[|images| - 1].findings);
    }
  }

  lemma {:induction false} SumMeans(xs: seq<nat>)
    ensures Sum(xs) > 0 <==> exists i :: 0 <= i < |xs| && xs[i] != 0
  {
    if xs != [] {
      SumMeans(xs[..|xs| - 1]);
    }
  }

  method TallyCheck(v: Security, c: SecurityCheck) returns (w: Security)
    requires v.status == Ok || v.status == Attention
    ensures w == v.(status := if c.status == UpdateAvailable || c.rebootRequired then Attention else v.status,
                    unknown := v.unknown + Unclear(c))
  {
    w := v;
    match c.status {
      case UpToDate =>
      case Checked =>
      case UpdateAvailable => w := w.(status := Attention);
      case OtherStatus => w := w.(unknown := w.unknown + 1);
    }
    if c.rebootRequired { w := w.(status := Attention); }
  }

  method TallyFindings(v: Security, fs: seq<Severity>) returns (w: Security)
    requires v.status == Ok || v.status == Attention
    ensures w == v.(status := if CountSeverity(fs, OtherSeverity) > 0 then Attention else v.status,
                    critical := v.critical + CountSeverity(fs, Critical), high := v.high + CountSeverity(fs, High))
  {
    w := v;
    for i := 0 to |fs|
      invariant w == v.(status := if CountSeverity(fs[..i], OtherSeverity) > 0 then Attention else v.status,
                        critical := v.critical + CountSeverity(fs[..i], Critical), high := v.high + CountSeverity(fs[..i], High))
    {
      assert fs[..i + 1][..i] == fs[..i];
      match fs[i]
      case Critical => w := w.(critical := w.critical + 1);
      case High => w := w.(high := w.high + 1);
      case OtherSeverity => w := w.(status := Attention);
    }
    assert fs[..|fs|] == fs;
  }

  method TallyImages(v: Security, images: seq<Image>) returns (w: Security)
    requires v.status == Ok || v.status == Attention
    ensures w == v.(status := if Findings(images, OtherSeverity) > 0 then Attention else v.status,
                    critical := v.critical + Findings(images, Critical), high := v.high + Findings(images, High),
                    unknown := v.unknown + Unscanned(images))
  {
    w := v;
    for i := 0 to |images|
      invariant w == v.(status := if Findings(images[..i], OtherSeverity) > 0 then Attention else v.status,
                        critical := v.critical + Findings(images[..i], Critical), high := v.high + Findings(images[..i], High),
                        unknown := v.unknown + Unscanned(images[..i]))
    {
      assert images[..i + 1][..i] == images[..i];
      if images[i].status != Checked { w := w.(unknown := w.unknown + 1); }
      w := TallyFindings(w, images[i].findings);
    }
    assert images[..|images|] == images;
  }

  method TallyContainers(v: Security, containers: seq<nat>) returns (w: Security)
    ensures w == v.(runtimeFindings := v.runtimeFindings + Sum(containers))
  {
    w := v;
    for i := 0 to |containers|
      invariant w == v.(runtimeFindings := v.runtimeFindings + Sum(containers[..i]))
    {
      assert containers[..i + 1][..i] == containers[..i];
      w := w.(runtimeFindings := w.runtimeFindings + containers[i]);
    }
    assert containers[..|containers|] == containers;
  }

  /** The section before the last two rules are applied to its status. */
  method TallyReport(r: Report) returns (v: Security)
    ensures v == Security(
                   if r.host.status == UpdateAvailable || r.host.rebootRequired || r.release.status == UpdateAvailable
                      || r.release.rebootRequired || r.inventory.status == UpdateAvailable || r.inventory.rebootRequired
                      || Findings(r.images, OtherSeverity) > 0 then Attention else Ok,
                   Some(r.checkedAt), Findings(r.images, Critical), Findings(r.images, High), Sum(r.containers),
                   Unclear(r.host) + Unclear(r.release) + Unclear(r.inventory) + Unscanned(r.images))
  {
    v := Security(Ok, Some(r.checkedAt), 0, 0, 0, 0);
    v := TallyCheck(v, r.host);
    v := TallyCheck(v, r.release);
    v := TallyCheck(v, r.inventory);
    v := TallyImages(v, r.images);
    v := TallyContainers(v, r.containers);
  }

  predicate Reported(r: Option<Report>, now: Time) {
    r.Some? && Current(r.value.checkedAt, now, SCAN_AGE)
  }

  /** The security section claims ok exactly when a current report is clean, asks for
      attention exactly when one has something to act on, and is valid exactly when its
      counts are within the limit of the protocol. */
  method ExportSecurity(report: Option<Report>, now: Time) returns (v: Security)
    ensures v.status == Ok <==> Reported(report, now) && AllClean(report.value)
    ensures v.status == Attention <==> Reported(report, now) && Actionable(report.value)
    ensures Reported(report, now) ==>
              && v.critical == Findings(report.value.images, Critical) && v.high == Findings(report.value.images, High)
              && v.runtimeFindings == Sum(report.value.containers)
              && v.unknown == Unclear(report.value.host) + Unclear(report.value.release) + Unclear(report.value.inventory)
                              + Unscanned(report.value.images)
    ensures !Reported(report, now) ==> v.critical == v.high == v.runtimeFindings == v.unknown == 0
    ensures ValidSecurity(v, now) <==>
              v.critical <= MAX_COUNT && v.high <= MAX_COUNT && v.runtimeFindings <= MAX_COUNT && v.unknown <= MAX_COUNT
  {
    v := Security(Unknown, None, 0, 0, 0, 0);
    if report.None? { return; }
    var r := report.value;
    if r.checkedAt != ZERO { v := v.(checkedAt := Some(r.checkedAt)); }
    if r.checkedAt == ZERO || r.checkedAt > now + SKEW || now - r.checkedAt > SCAN_AGE { return; }
    v := TallyReport(r);
    FindingsMean(r.images);
    SumMeans(r.containers);
    if v.critical + v.high + v.runtimeFindings > 0 { v := v.(status := Attention); }
    if v.unknown > 0 && v.status != Attention { v := v.(status := Unknown); }
  }

  /** Everything is put together and then validated as a reader would. It is refused only
      for its identity, its projects or an excessive number of findings. */
  method Export(projects: seq<Project>, node: string, version: string, commit: string, state: Option<State>,
                report: Option<Report>, now: Time)
    returns (s: Snapshot, ok: bool)
    ensures ok == Valid(s, node, now)
    ensures ok <==> ValidIdentity(s, node, now) && ValidProjects(projects, now)
                    && s.security.critical <= MAX_COUNT && s.security.high <= MAX_COUNT
                    && s.security.runtimeFindings <= MAX_COUNT && s.security.unknown <= MAX_COUNT
    ensures s.projects == projects && s.generatedAt == now && s.nodeId == node && s.version == version && s.commit == commit
    ensures s.monitoring.status == Ok <==> state.Some? && AllWell(state.value, now) && Current(state.value.updatedAt, now, MAX_AGE)
    ensures s.security.status == Ok <==> Reported(report, now) && AllClean(report.value)
  {
    var m := ExportMonitoring(state, now);
    var v := ExportSecurity(report, now);
    s := Snapshot(1, node, now, version, commit, projects, m, v);
    ok := FleetProtocol.Validate(s, node, now);
  }
}
