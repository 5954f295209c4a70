/** The recorded results of the monitored targets, as told to others: one line a
    target, in the order of their names. */
module MonitorSummary {
  import opened Wrappers
  import opened FleetProtocol
  import opened Texts
  import MonitorAlerts

  datatype Target = Target(name: string, interval: int, timeout: int)

  datatype CheckResult = CheckResult(check: MonitorAlerts.Check, checkedAt: Time, responseTime: int)

  datatype State = State(targets: seq<Target>, results: map<string, CheckResult>, updatedAt: Time)

  datatype Health = Healthy | Unhealthy | Blocked | Stale | NotKnown

  datatype Detail = NoCheck | FromFuture | NoRecentCheck | Challenge | Expected | Unexpected | RequestFailed

  datatype Summary =
    Summary(name: string, health: Health, detail: Detail, code: int, milliseconds: int, checkedAt: Option<Time>)

  /** Unset or negative timings stand for the defaults. */
  function Interval(t: Target): int { if t.interval <= 0 then 30 * SECOND else t.interval }

  function Timeout(t: Target): int { if t.timeout <= 0 then 10 * SECOND else t.timeout }

  function StaleAfter(t: Target): int {
    var after := 3 * Interval(t) + Timeout(t);
    if after < MINUTE then MINUTE else after
  }

  /** Whole milliseconds, towards zero. */
  function Milliseconds(d: int): int {
    if d >= 0 then d / 1000000 else -((-d) / 1000000)
  }

  predicate Recorded(s: State, t: Target) {
    t.name in s.results && s.results[t.name].checkedAt != ZERO
  }

  /** A state is summarized when it has few targets, each with a name of its own, and
      no target that has a result has absurd timings. */
  predicate Accepted(s: State) {
    && |s.targets| <= 100
    && (forall i :: 0 <= i < |s.targets| ==> Sane(s, s.targets[i]))
    && DistinctNames(s.targets)
  }

  predicate Sane(s: State, t: Target) {
    t.name != "" && |t.name| <= 100 && (Recorded(s, t) ==> Interval(t) <= 24 * HOUR && Timeout(t) <= HOUR)
  }

  /** A target is healthy when its last result is, and is neither old nor from the future. */
  predicate HealthyNow(s: State, t: Target, now: Time) {
    Fresh(s, t, now) && !s.results[t.name].check.challenged && s.results[t.name].check.healthy
  }

  /** A target is unhealthy when its last result is, and is neither old nor from the future. */
  predicate UnhealthyNow(s: State, t: Target, now: Time) {
    Fresh(s, t, now) && !s.results[t.name].check.challenged && !s.results[t.name].check.healthy
  }

  predicate Fresh(s: State, t: Target, now: Time) {
    && Recorded(s, t)
    && s.results[t.name].checkedAt <= now + MINUTE && now - s.results[t.name].checkedAt <= StaleAfter(t)
  }

  /** The line for one target. */
  function Line(s: State, t: Target, now: Time): (line: Summary)
    ensures line.name == t.name
    ensures line.health == Healthy <==> HealthyNow(s, t, now)
    ensures line.health == Unhealthy <==> UnhealthyNow(s, t, now)
  {
    if !Recorded(s, t) then Summary(t.name, NotKnown, NoCheck, 0, 0, None)
    else
      var r := s.results[t.name];
      var line := Summary(t.name, NotKnown, FromFuture, r.check.code, Milliseconds(r.responseTime), Some(r.checkedAt));
      if r.checkedAt > now + MINUTE then line
      else if now - r.checkedAt > StaleAfter(t) then line.(health := Stale, detail := NoRecentCheck)
      else
        match MonitorAlerts.HealthStatus(r.check)
        case Blocked => line.(health := Blocked, detail := Challenge)
        case Healthy => line.(health := Healthy, detail := Expected)
        case Unhealthy =>
          line.(health := Unhealthy, detail := if r.check.error != "" || r.check.code == 0 then RequestFailed else Unexpected)
  }

  function Lines(s: State, now: Time): (lines: seq<Summary>)
    ensures |lines| == |s.targets|
    ensures forall i :: 0 <= i < |lines| ==> lines[i] == Line(s, s.targets[i], now)
  {
    seq(|s.targets|, i requires 0 <= i < |s.targets| => Line(s, s.targets[i], now))
  }

  predicate Ordered(lines: seq<Summary>) {
    forall i, j :: 0 <= i < j < |lines| ==> Below(lines[i].name, lines[j].name)
  }

  /** sort.Slice by name, for names that differ. */
  method SortByName(lines: seq<Summary>) returns (sorted: seq<Summary>)
    requires forall i, j :: 0 <= i < j < |lines| ==> lines[i].name != lines[j].name
    ensures Ordered(sorted) && multiset(sorted) == multiset(lines)
  {
    sorted := [];
    for k := 0 to |lines|
      invariant Ordered(sorted) && multiset(sorted) == multiset(lines[..k])
    {
      assert lines[..k + 1] == lines[..k] + [lines[k]];
      DiffersFromEarlier(lines, k, sorted);
      sorted := Insert(sorted, lines[k]);
    }
    assert lines[..|lines|] == lines;
  }

  lemma DiffersFromEarlier(lines: seq<Summary>, k: nat, sorted: seq<Summary>)
    requires k < |lines| && multiset(sorted) == multiset(lines[..k])
    requires forall i, j :: 0 <= i < j < |lines| ==> lines[i].name != lines[j].name
    ensures forall i :: 0 <= i < |sorted| ==> sorted[i].name != lines[k].name
  {
    forall i | 0 <= i < |sorted|
      ensures sorted[i].name != lines[k].name
    {
      assert sorted[i] in multiset(lines[..k]);
      var j :| 0 <= j < k && lines[j] == sorted[i];
    }
  }

  function Insert(sorted: seq<Summary>, line: Summary): (longer: seq<Summary>)
    requires Ordered(sorted) && forall i :: 0 <= i < |sorted| ==> sorted[i].name != line.name
    ensures Ordered(longer) && multiset(longer) == multiset(sorted) + multiset{line}
  {
    if sorted == [] then [line]
    else if Below(sorted[|sorted| - 1].name, line.name) then
      InsertLast(sorted, line);
      sorted + [line]
    else
      var most, last := sorted[..|sorted| - 1], sorted[|sorted| - 1];
      var longer := Insert(most, line);
      InsertMiddle(sorted, line, longer);
      assert sorted == most + [last];
      longer + [last]
  }

  lemma InsertLast(sorted: seq<Summary>, line: Summary)
    requires Ordered(sorted) && sorted != [] && Below(sorted[|sorted| - 1].name, line.name)
    ensures Ordered(sorted + [line])
  {
    forall i | 0 <= i < |sorted|
      ensures Below(sorted[i].name, line.name)
    {
      if i < |sorted| - 1 {
        BelowTransitive(sorted[i].name, sorted[|sorted| - 1].name, line.name);
      }
    }
  }

  lemma InsertMiddle(sorted: seq<Summary>, line: Summary, longer: seq<Summary>)
    requires Ordered(sorted) && sorted != [] && !Below(sorted[|sorted| - 1].name, line.name)
    requires sorted[|sorted| - 1].name != line.name
    requires Ordered(longer) && multiset(longer) == multiset(sorted[..|sorted| - 1]) + multiset{line}
    ensures Ordered(longer + [sorted[|sorted| - 1]])
  {
    var most, last := sorted[..|sorted| - 1], sorted[|sorted| - 1];
    BelowTotal(last.name, line.name);
    forall i | 0 <= i < |longer|
      ensures Below(longer[i].name, last.name)
    {
      assert longer[i] in multiset(most) + multiset{line};
      if longer[i] != line {
        var j :| 0 <= j < |most| && most[j] == longer[i];
        assert Below(sorted[j].name, sorted[|sorted| - 1].name);
      }
    }
  }

  /** One line a target, by name; refused exactly when the state is not acceptable. */
  method Summarize(s: State, now: Time) returns (ok: bool, items: seq<Summary>)
    ensures ok <==> Accepted(s)
    ensures ok ==> Ordered(items) && multiset(items) == multiset(Lines(s, now))
  {
    items := [];
    if |s.targets| > 100 { return false, []; }
    ok, items := Collect(s, now);
    if ok { items := SortByName(items); }
  }

  /** The lines in the order of the targets. */
  method Collect(s: State, now: Time) returns (ok: bool, items: seq<Summary>)
    ensures ok <==> (forall i :: 0 <= i < |s.targets| ==> Sane(s, s.targets[i])) && DistinctNames(s.targets)
    ensures ok ==> items == Lines(s, now)
  {
    items := [];
    var seen := {};
    for i := 0 to |s.targets|
      invariant forall j :: 0 <= j < i ==> Sane(s, s.targets[j])
      invariant seen == Names(s.targets[..i]) && DistinctNames(s.targets[..i])
      invariant |items| == i && forall j :: 0 <= j < i ==> items[j] == Line(s, s.targets[j], now)
    {
      var t := s.targets[i];
      NamesGrow(s.targets, i);
      if t.name == "" || |t.name| > 100 || t.name in seen { return false, []; }
      seen := seen + {t.name};
      var good, item := ItemFor(s, t, now);
      if !good { return false, []; }
      items := items + [item];
    }
    assert s.targets[..|s.targets|] == s.targets;
    ok := true;
  }

  predicate DistinctNames(ts: seq<Target>) {
    forall i, j :: 0 <= i < j < |ts| ==> ts[i].name != ts[j].name
  }

  function Names(ts: seq<Target>): set<string> {
    set t | t in ts :: t.name
  }

  lemma NamesGrow(ts: seq<Target>, i: nat)
    requires i < |ts|
    ensures Names(ts[..i + 1]) == Names(ts[..i]) + {ts[i].name}
    ensures DistinctNames(ts[..i + 1]) <==> DistinctNames(ts[..i]) && ts[i].name !in Names(ts[..i])
    ensures DistinctNames(ts) ==> DistinctNames(ts[..i + 1])
  {
    var before := ts[..i];
    assert ts[..i + 1] == before + [ts[i]];
    if ts[i].name in Names(before) {
      var t :| t in before && t.name == ts[i].name;
      var j :| 0 <= j < i && before[j] == t;
      assert ts[..i + 1][j].name == ts[..i + 1][i].name;
    } else {
      forall j | 0 <= j < i
        ensures ts[j].name != ts[i].name
      {
        assert before[j] in before;
      }
      if DistinctNames(before) {
        assert forall j, k :: 0 <= j < k < i ==> ts[..i + 1][j] == before[j] && ts[..i + 1][k] == before[k];
      }
      if DistinctNames(ts[..i + 1]) {
        assert forall j, k :: 0 <= j < k < i ==> before[j] == ts[..i + 1][j] && before[k] == ts[..i + 1][k];
      }
    }
  }

  /** The line for a target, if its timings are not absurd. */
  method ItemFor(s: State, t: Target, now: Time) returns (ok: bool, item: Summary)
    ensures ok <==> (Recorded(s, t) ==> Interval(t) <= 24 * HOUR && Timeout(t) <= HOUR)
    ensures ok ==> item == Line(s, t, now)
  {
    item := Summary(t.name, NotKnown, NoCheck, 0, 0, None);
    if t.name !in s.results || s.results[t.name].checkedAt == ZERO { return true, item; }
    ok, item := Observe(t, s.results[t.name], now);
  }

  /** The line for a target that has a result. */
  method Observe(t: Target, r: CheckResult, now: Time) returns (ok: bool, item: Summary)
    requires r.checkedAt != ZERO
    ensures ok <==> Interval(t) <= 24 * HOUR && Timeout(t) <= HOUR
    ensures ok ==> item == Line(State([t], map[t.name := r], ZERO), t, now)
  {
    item := Summary(t.name, NotKnown, NoCheck, r.check.code, Milliseconds(r.responseTime), Some(r.checkedAt));
    var interval, timeout := t.interval, t.timeout;
    if interval <= 0 { interval := 30 * SECOND; }
    if timeout <= 0 { timeout := 10 * SECOND; }
    if interval > 24 * HOUR || timeout > HOUR { return false, item; }
    var staleAfter := 3 * interval + timeout;
    if staleAfter < MINUTE { staleAfter := MINUTE; }
    if r.checkedAt > now + MINUTE {
      item := item.(detail := FromFuture);
    } else if now - r.checkedAt > staleAfter {
      item := item.(health := Stale, detail := NoRecentCheck);
    } else {
      match MonitorAlerts.HealthStatus(r.check)
      case Blocked => item := item.(health := Blocked, detail := Challenge);
      case Healthy => item := item.(health := Healthy, detail := Expected);
      case Unhealthy =>
        item := item.(health := Unhealthy, detail := Unexpected);
        if r.check.error != "" || r.check.code == 0 { item := item.(detail := RequestFailed); }
    }
    ok := true;
  }
}
