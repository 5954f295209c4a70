/** The alert threshold machine: saturating counters per target stand in for the
    whole history of its check results. */
module MonitorAlerts {
  import opened Wrappers

  datatype Status = Healthy | Unhealthy | Blocked

  datatype Check = Check(target: string, challenged: bool, healthy: bool, code: int, error: string)

  function HealthStatus(r: Check): Status {
    if r.challenged then Blocked else if r.healthy then Healthy else Unhealthy
  }

  /** A failed check is reported by a fixed cause or by its status code. */
  datatype Cause = RequestFailed | HttpStatus(code: int)

  datatype Alert =
    | Recovered(target: string, code: int)
    | ChecksBlocked(target: string)
    | Down(target: string, failures: nat, cause: Cause)

  datatype TargetState = TargetState(failures: nat, stable: nat, pending: Option<Status>, alerted: Option<Status>)

  const FRESH := TargetState(0, 0, None, None)

  function Min(a: nat, b: nat): nat { if a <= b then a else b }

  // ----- the history-based specification -----

  /** The results since the last healthy one: the current incident. */
  function Incident(h: seq<Status>): seq<Status> {
    if h == [] || h[|h| - 1] == Healthy then [] else Incident(h[..|h| - 1]) + [h[|h| - 1]]
  }

  /** How many of the latest results of an incident agree. */
  function Agreeing(run: seq<Status>): nat {
    if run == [] then 0
    else if |run| > 1 && run[|run| - 2] == run[|run| - 1] then Agreeing(run[..|run| - 1]) + 1
    else 1
  }

  /** A result settles the diagnosis when it is the one that opens the incident,
      or the last of t equal results in a row. */
  predicate Settles(run: seq<Status>, p: nat, t: nat)
    requires p < |run|
  {
    && t >= 1 && p >= t - 1
    && (p == t - 1 || forall k :: p - t < k <= p ==> run[k] == run[p])
  }

  /** The status an incident has been reported with: that of the latest result
      that settles it. */
  function Diagnosis(run: seq<Status>, t: nat): Option<Status> {
    if run == [] then None
    else if Settles(run, |run| - 1, t) then Some(run[|run| - 1])
    else Diagnosis(run[..|run| - 1], t)
  }

  /** What is reported for the latest result, given the history up to it. */
  function Report(h: seq<Status>, r: Check, t: nat): Option<Alert> {
    var before := Diagnosis(Incident(h), t);
    var s := HealthStatus(r);
    var now := Diagnosis(Incident(h + [s]), t);
    if now == before then None
    else if s == Healthy then Some(Recovered(r.target, r.code))
    else if s == Blocked then Some(ChecksBlocked(r.target))
    else Some(Down(r.target, t, if r.error != "" then RequestFailed else HttpStatus(r.code)))
  }

  /** The counters are the clipped lengths of the two trailing runs. */
  ghost predicate Tracks(s: TargetState, h: seq<Status>, t: nat) {
    var run := Incident(h);
    && s.failures == Min(t, |run|)
    && s.stable == Min(t, Agreeing(run))
    && s.pending == (if run == [] then None else Some(run[|run| - 1]))
    && s.alerted == Diagnosis(run, t)
  }

  lemma IncidentGrows(h: seq<Status>, s: Status)
    ensures Incident(h + [s]) == if s == Healthy then [] else Incident(h) + [s]
  {
    assert (h + [s])[..|h|] == h;
  }

  lemma AgreeingGrows(run: seq<Status>, s: Status)
    ensures Agreeing(run + [s]) == if run != [] && run[|run| - 1] == s then Agreeing(run) + 1 else 1
  {
    assert (run + [s])[..|run|] == run;
  }

  lemma {:induction false} AgreeingMeans(run: seq<Status>)
    ensures Agreeing(run) <= |run|
    ensures run != [] ==> Agreeing(run) >= 1
    ensures forall k :: |run| - Agreeing(run) <= k < |run| ==> run[k] == run[|run| - 1]
    ensures Agreeing(run) < |run| ==> run[|run| - Agreeing(run) - 1] != run[|run| - 1]
  {
    if |run| > 1 && run[|run| - 2] == run[|run| - 1] {
      var most := run[..|run| - 1];
      AgreeingMeans(most);
      assert forall k :: 0 <= k < |most| ==> run[k] == most[k];
    }
  }

  lemma DiagnosisGrows(run: seq<Status>, s: Status, t: nat)
    ensures Diagnosis(run + [s], t) == if Settles(run + [s], |run|, t) then Some(s) else Diagnosis(run, t)
  {
    assert (run + [s])[..|run|] == run;
  }

  /** Counting settles the diagnosis exactly when the history does. */
  lemma SettlesByCounting(run: seq<Status>, t: nat)
    requires run != [] && t >= 1
    ensures Settles(run, |run| - 1, t) <==> |run| == t || (|run| > t && Agreeing(run) >= t)
  {
    AgreeingMeans(run);
    if |run| > t && Agreeing(run) < t {
      var k := |run| - Agreeing(run) - 1;
      assert run[k] != run[|run| - 1];
    }
  }

  /** An incident is reported exactly once it has t results. */
  lemma {:induction false} DiagnosedByLength(run: seq<Status>, t: nat)
    requires t >= 1
    ensures Diagnosis(run, t).Some? <==> |run| >= t
  {
    if run != [] {
      DiagnosedByLength(run[..|run| - 1], t);
    }
  }

  // ----- properties of the specification -----

  /** The non-recovery alerts of a history. */
  function Alarms(h: seq<Status>, t: nat): nat {
    if h == [] then 0
    else
      var most := h[..|h| - 1];
      Alarms(most, t) + if h[|h| - 1] != Healthy && Diagnosis(Incident(h), t) != Diagnosis(Incident(most), t) then 1 else 0
  }

  function Bad(h: seq<Status>): nat {
    if h == [] then 0 else Bad(h[..|h| - 1]) + if h[|h| - 1] != Healthy then 1 else 0
  }

  /** The alarms of one incident, counted from its start. */
  function AlarmsIn(run: seq<Status>, t: nat): nat {
    if run == [] then 0
    else AlarmsIn(run[..|run| - 1], t) + if Diagnosis(run, t) != Diagnosis(run[..|run| - 1], t) then 1 else 0
  }

  /** The position after the latest alarm of an incident. */
  function AlarmEnd(run: seq<Status>, t: nat): nat {
    if run == [] then 0
    else if Diagnosis(run, t) != Diagnosis(run[..|run| - 1], t) then |run|
    else AlarmEnd(run[..|run| - 1], t)
  }

  /** The latest alarm reported the status that its own result had, so the next
      one, after t results of another status, comes at least t results later. */
  lemma {:induction false} AlarmsAreSpaced(run: seq<Status>, t: nat)
    requires t >= 1
    ensures AlarmsIn(run, t) * t <= AlarmEnd(run, t) <= |run|
    ensures Diagnosis(run, t).Some? ==> 0 < AlarmEnd(run, t) && run[AlarmEnd(run, t) - 1] == Diagnosis(run, t).value
  {
    if run != [] {
      var most, last := run[..|run| - 1], run[|run| - 1];
      AlarmsAreSpaced(most, t);
      if Diagnosis(run, t) != Diagnosis(most, t) {
        assert Settles(run, |run| - 1, t);
        if Diagnosis(most, t).Some? {
          DiagnosedByLength(most, t);
          var e := AlarmEnd(most, t);
          assert run[e - 1] == most[e - 1] != last;
          assert e - 1 <= |run| - 1 - t;
        } else {
          NoAlarmYet(most, t);
        }
        assert (AlarmsIn(most, t) + 1) * t == AlarmsIn(most, t) * t + t;
      }
    }
  }

  lemma {:induction false} NoAlarmYet(run: seq<Status>, t: nat)
    requires t >= 1 && Diagnosis(run, t).None?
    ensures AlarmsIn(run, t) == 0
  {
    if run != [] {
      DiagnosedByLength(run, t);
      DiagnosedByLength(run[..|run| - 1], t);
      NoAlarmYet(run[..|run| - 1], t);
    }
  }

  lemma Apportion(a: int, b: int, t: int)
    ensures a * t == (a - b) * t + b * t
  {
  }

  /** The alarms of earlier incidents do not depend on what the current one adds. */
  lemma AlarmsOfIncident(h: seq<Status>, s: Status, t: nat)
    requires t >= 1
    ensures s == Healthy ==> Alarms(h + [s], t) == Alarms(h, t) && AlarmsIn(Incident(h + [s]), t) == 0
    ensures s != Healthy ==> Alarms(h + [s], t) - AlarmsIn(Incident(h + [s]), t) == Alarms(h, t) - AlarmsIn(Incident(h), t)
  {
    IncidentGrows(h, s);
    assert (h + [s])[..|h|] == h;
    assert (Incident(h) + [s])[..|Incident(h)|] == Incident(h);
  }

  lemma {:induction false} EarlierAlarmsCost(h: seq<Status>, t: nat)
    requires t >= 1
    ensures (Alarms(h, t) - AlarmsIn(Incident(h), t)) * t + |Incident(h)| <= Bad(h)
  {
    if h != [] {
      var most, last := h[..|h| - 1], h[|h| - 1];
      EarlierAlarmsCost(most, t);
      assert h == most + [last];
      IncidentGrows(most, last);
      AlarmsOfIncident(most, last, t);
      AlarmsAreSpaced(Incident(most), t);
      Apportion(Alarms(most, t), AlarmsIn(Incident(most), t), t);
    }
  }

  /** Every alarm stands for t failed checks of its own. */
  lemma AlarmsCostFailures(h: seq<Status>, t: nat)
    requires t >= 1
    ensures Alarms(h, t) * t <= Bad(h)
  {
    EarlierAlarmsCost(h, t);
    AlarmsAreSpaced(Incident(h), t);
    Apportion(Alarms(h, t), AlarmsIn(Incident(h), t), t);
  }

  /** What is reported names what the check itself says: a challenge, an answer as expected,
      or neither. */
  lemma ReportsTheCheck(h: seq<Status>, r: Check, t: nat)
    requires Report(h, r, t).Some?
    ensures var alert := Report(h, r, t).value;
            && alert.target == r.target
            && (alert.ChecksBlocked? <==> r.challenged)
            && (alert.Recovered? <==> !r.challenged && r.healthy)
            && (alert.Down? <==> !r.challenged && !r.healthy)
            && (alert.Down? ==> alert.failures == t && (alert.cause.RequestFailed? <==> r.error != ""))
  {
  }

  /** A healthy result is reported exactly when it closes an incident that had
      been reported, that is, one of at least t results. */
  lemma RecoveryClosesIncident(h: seq<Status>, r: Check, t: nat)
    requires t >= 1 && HealthStatus(r) == Healthy
    ensures Report(h, r, t) == if |Incident(h)| >= t then Some(Recovered(r.target, r.code)) else None
  {
    IncidentGrows(h, Healthy);
    DiagnosedByLength(Incident(h), t);
  }

  function Statuses(checks: seq<Check>): (h: seq<Status>)
    ensures |h| == |checks|
  {
    seq(|checks|, i requires 0 <= i < |checks| => HealthStatus(checks[i]))
  }

  /** Everything reported about one target. */
  function Reports(checks: seq<Check>, t: nat): seq<Alert> {
    if checks == [] then []
    else
      var most, r := checks[..|checks| - 1], checks[|checks| - 1];
      var report := Report(Statuses(most), r, t);
      Reports(most, t) + if report.Some? then [report.value] else []
  }

  /** What an open incident was last reported as. */
  function Named(a: Alert): Option<Status> {
    match a
    case Recovered(_, _) => None
    case ChecksBlocked(_) => Some(Blocked)
    case Down(_, _, _) => Some(Unhealthy)
  }

  lemma StatusesGrow(checks: seq<Check>)
    requires checks != []
    ensures var most, s := checks[..|checks| - 1], HealthStatus(checks[|checks| - 1]);
            && Statuses(checks) == Statuses(most) + [s]
            && Statuses(checks)[..|checks| - 1] == Statuses(most)
  {
  }

  /** A report names what the diagnosis has become, and is due whenever it changes. */
  lemma ReportNames(h: seq<Status>, r: Check, t: nat)
    ensures var report, now := Report(h, r, t), Diagnosis(Incident(h + [HealthStatus(r)]), t);
            && (report.Some? <==> now != Diagnosis(Incident(h), t))
            && (report.Some? ==> Named(report.value) == now)
            && (report.Some? ==> report.value.Recovered? == (HealthStatus(r) == Healthy))
  {
    IncidentGrows(h, HealthStatus(r));
    DiagnosisGrows(Incident(h), HealthStatus(r), t);
  }

  predicate NeverRepeats(all: seq<Alert>, now: Option<Status>) {
    && (all != [] ==> Named(all[0]) != None)
    && (forall i :: 0 < i < |all| ==> Named(all[i]) != Named(all[i - 1]))
    && now == if all == [] then None else Named(all[|all| - 1])
  }

  /** No report repeats the one before it, and the first is not a recovery: so a
      recovery follows an alarm, and two alarms of one incident differ. */
  lemma {:induction false} ReportsNeverRepeat(checks: seq<Check>, t: nat)
    ensures NeverRepeats(Reports(checks, t), Diagnosis(Incident(Statuses(checks)), t))
  {
    if checks != [] {
      var most, r := checks[..|checks| - 1], checks[|checks| - 1];
      ReportsNeverRepeat(most, t);
      StatusesGrow(checks);
      ReportNames(Statuses(most), r, t);
      var now := Diagnosis(Incident(Statuses(checks)), t);
      var report := Report(Statuses(most), r, t);
      if report.Some? {
        RepeatGrows(Reports(most, t), Diagnosis(Incident(Statuses(most)), t), report.value);
      } else {
        assert Reports(checks, t) == Reports(most, t);
      }
    }
  }

  lemma RepeatGrows(all: seq<Alert>, now: Option<Status>, a: Alert)
    requires NeverRepeats(all, now) && Named(a) != now
    ensures NeverRepeats(all + [a], Named(a))
  {
  }

  /** As many of the reports are alarms as the history counts. */
  lemma {:induction false} AlarmsAreReports(checks: seq<Check>, t: nat)
    ensures |Reports(checks, t)| - Recoveries(Reports(checks, t)) == Alarms(Statuses(checks), t)
  {
    if checks != [] {
      var most, r := checks[..|checks| - 1], checks[|checks| - 1];
      AlarmsAreReports(most, t);
      StatusesGrow(checks);
      ReportNames(Statuses(most), r, t);
      var report := Report(Statuses(most), r, t);
      if report.Some? {
        RecoveriesGrow(Reports(most, t), report.value);
      } else {
        assert Reports(checks, t) == Reports(most, t);
      }
    }
  }

  lemma RecoveriesGrow(alerts: seq<Alert>, a: Alert)
    ensures Recoveries(alerts + [a]) == Recoveries(alerts) + if a.Recovered? then 1 else 0
  {
    assert (alerts + [a])[..|alerts|] == alerts;
  }

  function Recoveries(alerts: seq<Alert>): nat {
    if alerts == [] then 0
    else Recoveries(alerts[..|alerts| - 1]) + if alerts[|alerts| - 1].Recovered? then 1 else 0
  }

  /** What a state becomes with one more result. */
  function Updated(s: TargetState, status: Status, t: nat): TargetState {
    if status == Healthy then FRESH
    else
      var failures := Min(t, s.failures + 1);
      var stable := Min(t, (if s.pending != Some(status) then 0 else s.stable) + 1);
      var tells := failures >= t && s.alerted != Some(status) && (s.alerted.None? || stable >= t);
      TargetState(failures, stable, Some(status), if tells then Some(status) else s.alerted)
  }

  lemma UpdatedTracks(s: TargetState, h: seq<Status>, status: Status, t: nat)
    requires t >= 1 && Tracks(s, h, t)
    ensures Tracks(Updated(s, status, t), h + [status], t)
  {
    var before := Incident(h);
    IncidentGrows(h, status);
    if status != Healthy {
      AgreeingGrows(before, status);
      DiagnosisGrows(before, status, t);
      SettlesByCounting(before + [status], t);
      DiagnosedByLength(before, t);
    }
  }

  /** What the counters alone have to say about a result. */
  function Announced(s: TargetState, r: Check, t: nat): Option<Alert> {
    var after := Updated(s, HealthStatus(r), t);
    if after.alerted == s.alerted then None
    else if HealthStatus(r) == Healthy then Some(Recovered(r.target, r.code))
    else if HealthStatus(r) == Blocked then Some(ChecksBlocked(r.target))
    else Some(Down(r.target, after.failures, if r.error != "" then RequestFailed else HttpStatus(r.code)))
  }

  /** It is what the whole history calls for. */
  lemma AnnouncedIsReport(s: TargetState, h: seq<Status>, r: Check, t: nat)
    requires t >= 1 && Tracks(s, h, t)
    ensures Announced(s, r, t) == Report(h, r, t)
  {
    UpdatedTracks(s, h, HealthStatus(r), t);
  }

  function Get<T>(m: map<string, T>, key: string, absent: T): T {
    if key in m then m[key] else absent
  }

  ghost predicate AllTrack(states: map<string, TargetState>, histories: map<string, seq<Status>>, t: nat) {
    forall target :: Tracks(Get(states, target, FRESH), Get(histories, target, []), t)
  }

  lemma OneMoved(states: map<string, TargetState>, histories: map<string, seq<Status>>, t: nat, target: string,
                 state: TargetState, h: seq<Status>)
    requires AllTrack(states, histories, t) && Tracks(state, h, t)
    ensures AllTrack(states[target := state], histories[target := h], t)
  {
    var moved, extended := states[target := state], histories[target := h];
    forall other
      ensures Tracks(Get(moved, other, FRESH), Get(extended, other, []), t)
    {
      if other != target {
        assert Get(moved, other, FRESH) == Get(states, other, FRESH);
      }
    }
  }

  class AlertManager {
    const providers: seq<string>
    const threshold: nat
    var states: map<string, TargetState>
    ghost var histories: map<string, seq<Status>>
    ghost var reported: seq<Alert>
    ghost var attempts: seq<(string, Alert)>

    function StateOf(target: string): TargetState reads this {
      Get(states, target, FRESH)
    }

    ghost function HistoryOf(target: string): seq<Status> reads this {
      Get(histories, target, [])
    }

    ghost predicate Valid() reads this {
      threshold >= 1 && AllTrack(states, histories, threshold)
    }

    constructor (providers: seq<string>, failureThreshold: int)
      ensures Valid() && this.providers == providers
      ensures threshold == if failureThreshold < 1 then 1 else failureThreshold
      ensures states == map[] && histories == map[] && reported == [] && attempts == []
    {
      this.providers := providers;
      threshold := if failureThreshold < 1 then 1 else failureThreshold;
      states, histories, reported, attempts := map[], map[], [], [];
    }

    /** Every provider is tried, whether or not another one failed. */
    method Send(alert: Alert)
      modifies this`reported, this`attempts
      ensures reported == old(reported) + [alert]
      ensures attempts == old(attempts) + seq(|providers|, i requires 0 <= i < |providers| => (providers[i], alert))
    {
      reported := reported + [alert];
      for i := 0 to |providers|
        invariant reported == old(reported) + [alert]
        invariant attempts == old(attempts) + seq(i, k requires 0 <= k < i => (providers[k], alert))
      {
        attempts := attempts + [(providers[i], alert)];
      }
    }

    /** Store what a target's state has become with its latest result. */
    method Keep(target: string, state: TargetState, status: Status)
      requires Valid() && state == Updated(StateOf(target), status, threshold)
      modifies this`states, this`histories
      ensures Valid()
      ensures states == old(states)[target := state]
      ensures histories == old(histories)[target := old(HistoryOf(target)) + [status]]
    {
      ghost var h := HistoryOf(target);
      assert Tracks(StateOf(target), h, threshold);
      UpdatedTracks(StateOf(target), h, status, threshold);
      OneMoved(states, histories, threshold, target, state, h + [status]);
      histories := histories[target := h + [status]];
      states := states[target := state];
    }

    /** Process one check result: the report is the one its history calls for,
        the counters go on tracking that history, and no other target changes. */
    method Process(r: Check)
      requires Valid()
      modifies this
      ensures Valid()
      ensures histories == old(histories)[r.target := old(HistoryOf(r.target)) + [HealthStatus(r)]]
      ensures var report := Report(old(HistoryOf(r.target)), r, threshold);
              reported == old(reported) + if report.Some? then [report.value] else []
      ensures forall other :: other != r.target ==> StateOf(other) == old(StateOf(other))
    {
      var state := if r.target in states then states[r.target] else FRESH;
      AnnouncedIsReport(state, HistoryOf(r.target), r, threshold);
      if HealthStatus(r) == Healthy {
        var wasUnhealthy := state.alerted.Some?;
        Keep(r.target, FRESH, Healthy);
        if wasUnhealthy {
          Send(Recovered(r.target, r.code));
        }
        return;
      }
      ProcessFailure(r, state);
    }

    /** Count a result that is not healthy in the two counters. */
    method CountFailure(before: TargetState, status: Status) returns (state: TargetState)
      requires status != Healthy && threshold >= 1 && before.failures <= threshold && before.stable <= threshold
      ensures state == Updated(before, status, threshold).(alerted := before.alerted)
    {
      state := before;
      if state.failures < threshold { state := state.(failures := state.failures + 1); }
      if state.pending != Some(status) { state := state.(pending := Some(status), stable := 0); }
      if state.stable < threshold { state := state.(stable := state.stable + 1); }
    }

    /** The part for a result that is not healthy. */
    method ProcessFailure(r: Check, before: TargetState)
      requires Valid() && HealthStatus(r) != Healthy && before == StateOf(r.target)
      modifies this
      ensures Valid()
      ensures states == old(states)[r.target := Updated(before, HealthStatus(r), threshold)]
      ensures histories == old(histories)[r.target := old(HistoryOf(r.target)) + [HealthStatus(r)]]
      ensures var report := Announced(before, r, threshold);
              reported == old(reported) + if report.Some? then [report.value] else []
    {
      var status := HealthStatus(r);
      var state := CountFailure(before, status);
      if state.failures >= threshold && state.alerted != Some(status)
         && (state.alerted.None? || state.stable >= threshold) {
        state := state.(alerted := Some(status));
        Keep(r.target, state, status);
        if status == Blocked {
          Send(ChecksBlocked(r.target));
          return;
        }
        var cause := if r.error != "" then RequestFailed else HttpStatus(r.code);
        Send(Down(r.target, state.failures, cause));
      } else {
        Keep(r.target, state, status);
      }
    }
  }
}
