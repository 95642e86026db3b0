/** The health monitor (health_monitor.py): the per-service failure counter that
    escalates to an alert, the reduction of check results to an overall status, the
    SSL and system-resource thresholds, and the bounded report file. */
module Health {
  import opened Common

  // ---------------------------------------------------------------------------
  // Check results
  // ---------------------------------------------------------------------------

  /** One check's result dictionary; `None` stands for an absent key. */
  datatype CheckResult = CheckResult(
    status: string,
    error: Option<string>,
    alerts: Option<seq<string>>,
    message: Option<string>)

  /** A named check, in the order the checks dictionary is built. */
  datatype Check = Check(name: string, result: CheckResult)

  predicate Failing(c: Check)
  {
    c.result.status == "unhealthy" || c.result.status == "critical"
  }

  /** What reading the certificate gave: whole days until `notAfter`, or the text of the
      exception raised while connecting or parsing. */
  datatype CertReading = Expiring(days: int) | Unreadable(error: string)

  /** `check_ssl_certificate` */
  function SslCheck(domain: string, reading: CertReading): (r: CheckResult)
    ensures domain == "localhost" <==> r.status == "skipped"
    ensures domain != "localhost" && reading.Unreadable? ==> r.status == "unhealthy" && r.error == Some(reading.error)
    ensures domain != "localhost" && reading.Expiring? ==>
      && (r.status == "critical" <==> reading.days < 7)
      && (r.status == "warning" <==> 7 <= reading.days < 30)
      && (r.status == "healthy" <==> 30 <= reading.days)
  {
    if domain == "localhost" then CheckResult("skipped", None, None, None)
    else match reading
      case Unreadable(e) => CheckResult("unhealthy", Some(e), None, None)
      case Expiring(days) =>
        CheckResult(if days < 7 then "critical" else if days < 30 then "warning" else "healthy", None, None, None)
  }

  /** `check_system_resources` once the three percentages are read. `show` renders a
      percentage the way the f-string does. */
  function SystemCheck(cpu: real, memory: real, disk: real, show: real -> string): (r: CheckResult)
    ensures r.alerts.Some?
    ensures r.status == "critical" <==> cpu > 90.0 || memory > 90.0 || disk > 90.0
    ensures r.status != "critical" ==> r.status == "healthy"
    ensures |r.alerts.value| == (if cpu > 90.0 then 1 else 0) + (if memory > 90.0 then 1 else 0) + (if disk > 90.0 then 1 else 0)
  {
    var alerts :=
      (if cpu > 90.0 then ["High CPU usage: " + show(cpu) + "%"] else [])
      + (if memory > 90.0 then ["High memory usage: " + show(memory) + "%"] else [])
      + (if disk > 90.0 then ["High disk usage: " + show(disk) + "%"] else []);
    CheckResult(if alerts != [] then "critical" else "healthy", None, Some(alerts), None)
  }

  // ---------------------------------------------------------------------------
  // Overall status
  // ---------------------------------------------------------------------------

  /** The index of the last unhealthy or critical check, if any. */
  function LastFailing(checks: seq<Check>): (r: Option<nat>)
    ensures r.Some? ==>
      && r.value < |checks| && Failing(checks[r.value])
      && (forall j :: r.value < j < |checks| ==> !Failing(checks[j]))
    ensures r.None? ==> forall j :: 0 <= j < |checks| ==> !Failing(checks[j])
  {
    if checks == [] then None
    else if Failing(checks[|checks| - 1]) then Some(|checks| - 1)
    else LastFailing(checks[..|checks| - 1])
  }

  /** The overall status: the status of the last failing check, `healthy` when none fails. */
  function Overall(checks: seq<Check>): string
  {
    match LastFailing(checks)
    case None => "healthy"
    case Some(i) => checks[i].result.status
  }

  /** The lines one check adds to `critical_issues`. */
  function IssuesOf(c: Check): seq<string>
  {
    if c.result.status == "unhealthy" then
      [c.name + ": " + (if c.result.error.Some? then c.result.error.value else "Unknown error")]
    else if c.result.status == "critical" then
      (if c.result.alerts.Some? then c.result.alerts.value else [c.name + ": Critical issue"])
    else []
  }

  /** The lines one check adds to `warnings`. */
  function WarningsOf(c: Check): seq<string>
  {
    if c.result.status == "warning" then
      [c.name + ": " + (if c.result.message.Some? then c.result.message.value else "Warning")]
    else []
  }

  function Issues(checks: seq<Check>): seq<string>
  {
    if checks == [] then [] else Issues(checks[..|checks| - 1]) + IssuesOf(checks[|checks| - 1])
  }

  function Warnings(checks: seq<Check>): seq<string>
  {
    if checks == [] then [] else Warnings(checks[..|checks| - 1]) + WarningsOf(checks[|checks| - 1])
  }

  datatype Report = Report(overall: string, checks: seq<Check>, criticalIssues: seq<string>, warnings: seq<string>)

  /** The reduction loop of `perform_health_check`. */
  method PerformHealthCheck(checks: seq<Check>) returns (report: Report)
    ensures report.checks == checks
    ensures report.overall == Overall(checks)
    ensures report.criticalIssues == Issues(checks) && report.warnings == Warnings(checks)
  {
    var overall := "healthy";
    var issues: seq<string> := [];
    var warnings: seq<string> := [];
    var i := 0;
    while i < |checks|
      invariant 0 <= i <= |checks|
      invariant overall == Overall(checks[..i])
      invariant issues == Issues(checks[..i]) && warnings == Warnings(checks[..i])
    {
      var c := checks[i];
      assert checks[..i + 1][..i] == checks[..i];
      if c.result.status == "unhealthy" {
        overall := "unhealthy";
        issues := issues + [c.name + ": " + (if c.result.error.Some? then c.result.error.value else "Unknown error")];
      } else if c.result.status == "critical" {
        overall := "critical";
        issues := issues + (if c.result.alerts.Some? then c.result.alerts.value else [c.name + ": Critical issue"]);
      } else if c.result.status == "warning" {
        warnings := warnings + [c.name + ": " + (if c.result.message.Some? then c.result.message.value else "Warning")];
      }
      i := i + 1;
    }
    assert checks[..i] == checks;
    report := Report(overall, checks, issues, warnings);
  }

  /** The overall status is `healthy` exactly when no check is unhealthy or critical;
      otherwise it is the status of the last such check, whatever came before it. */
  lemma {:induction false} OverallIsLastFailure(checks: seq<Check>)
    ensures Overall(checks) == "healthy" <==> forall j :: 0 <= j < |checks| ==> !Failing(checks[j])
    ensures Overall(checks) in {"healthy", "unhealthy", "critical"}
    ensures forall prefix :: Overall(prefix + checks) == (if LastFailing(checks).Some? then Overall(checks) else Overall(prefix))
  {
    forall prefix ensures Overall(prefix + checks) == (if LastFailing(checks).Some? then Overall(checks) else Overall(prefix)) {
      LastFailingOfConcat(prefix, checks);
    }
  }

  lemma {:induction false} LastFailingOfConcat(prefix: seq<Check>, checks: seq<Check>)
    ensures LastFailing(prefix + checks) ==
      (if LastFailing(checks).Some? then Some(|prefix| + LastFailing(checks).value) else LastFailing(prefix))
    decreases |checks|
  {
    var all := prefix + checks;
    if checks == [] {
      assert all == prefix;
    } else {
      var init := checks[..|checks| - 1];
      assert all[..|all| - 1] == prefix + init;
      assert all[|all| - 1] == checks[|checks| - 1];
      LastFailingOfConcat(prefix, init);
    }
  }

  // ---------------------------------------------------------------------------
  // Escalation
  // ---------------------------------------------------------------------------

  /** One failure of a service whose counter stands at `count`: the new counter, and
      whether an alert goes out. */
  function FailureStep(count: int, threshold: int): (r: (int, bool))
    ensures r.1 <==> count + 1 >= threshold
    ensures r.1 ==> r.0 == 0
    ensures !r.1 ==> r.0 == count + 1
  {
    if count + 1 >= threshold then (0, true) else (count + 1, false)
  }

  /** `n` consecutive failures: the final counter and how many alerts went out. */
  function Failures(count: int, n: nat, threshold: int): (int, nat)
    decreases n
  {
    if n == 0 then (count, 0)
    else
      var s := FailureStep(count, threshold);
      var rest := Failures(s.0, n - 1, threshold);
      (rest.0, rest.1 + (if s.1 then 1 else 0))
  }

  /** With a threshold of at least one, an alert goes out once every `threshold`
      consecutive failures and the counter keeps the remainder: the alerts are the
      quotient and the final counter the remainder of `count + n` by `threshold`. */
  lemma {:induction false} FailuresAlertOncePerThreshold(count: int, n: nat, threshold: int)
    requires threshold >= 1 && 0 <= count < threshold
    ensures var r := Failures(count, n, threshold);
      count + n == r.1 * threshold + r.0 && 0 <= r.0 < threshold
    decreases n
  {
    if n > 0 {
      FailuresAlertOncePerThreshold(FailureStep(count, threshold).0, n - 1, threshold);
    }
  }

  predicate CountsBelow(counts: map<string, int>, threshold: int)
  {
    forall s :: s in counts ==> 0 <= counts[s] < threshold
  }

  function CountOf(counts: map<string, int>, s: string): int
  {
    if s in counts then counts[s] else 0
  }

  /** The monitor's state between checks. */
  class HealthMonitor {
    const alertThreshold: int
    var failureCounts: map<string, int>
    /** The alerts sent so far: service name and error text. */
    var alerts: seq<(string, string)>
    var reports: seq<Report>

    constructor (threshold: int)
      ensures alertThreshold == threshold && failureCounts == map[] && alerts == [] && reports == []
    {
      alertThreshold := threshold;
      failureCounts, alerts, reports := map[], [], [];
    }

    /** `handle_failure`: count the failure; on reaching the threshold send one alert
        and reset the counter. */
    method HandleFailure(service: string, error: string)
      modifies this`failureCounts, this`alerts
      ensures var s := FailureStep(CountOf(old(failureCounts), service), alertThreshold);
        && failureCounts == old(failureCounts)[service := s.0]
        && alerts == old(alerts) + (if s.1 then [(service, error)] else [])
    {
      var count := CountOf(failureCounts, service) + 1;
      failureCounts := failureCounts[service := count];
      if failureCounts[service] >= alertThreshold {
        alerts := alerts + [(service, error)];
        failureCounts := failureCounts[service := 0];
      }
    }

    /** The body of `run` after a report: failing checks escalate, the others reset
        their counter. */
    method ProcessReport(checks: seq<Check>)
      modifies this`failureCounts, this`alerts
      ensures failureCounts == Processed(old(failureCounts), checks, alertThreshold).0
      ensures alerts == old(alerts) + Processed(old(failureCounts), checks, alertThreshold).1
    {
      var i := 0;
      ghost var start := failureCounts;
      ghost var sent := alerts;
      while i < |checks|
        invariant 0 <= i <= |checks|
        invariant failureCounts == Processed(start, checks[..i], alertThreshold).0
        invariant alerts == sent + Processed(start, checks[..i], alertThreshold).1
      {
        assert checks[..i + 1][..i] == checks[..i];
        var c := checks[i];
        if c.result.status in ["unhealthy", "critical"] {
          HandleFailure(c.name, if c.result.error.Some? then c.result.error.value else "Unknown error");
        } else {
          failureCounts := failureCounts[c.name := 0];
        }
        i := i + 1;
      }
      assert checks[..i] == checks;
    }

    /** `save_health_report` on the day's list: append, then keep the last 100. */
    method SaveHealthReport(report: Report)
      modifies this`reports
      ensures reports == KeepLast(old(reports) + [report], 100)
    {
      reports := reports + [report];
      if |reports| > 100 {
        reports := reports[|reports| - 100..];
      }
    }
  }

  /** The counters and the alerts after handling every check of one report in order. */
  function Processed(counts: map<string, int>, checks: seq<Check>, threshold: int): (map<string, int>, seq<(string, string)>)
  {
    if checks == [] then (counts, [])
    else
      var before := Processed(counts, checks[..|checks| - 1], threshold);
      var c := checks[|checks| - 1];
      if Failing(c) then
        var s := FailureStep(CountOf(before.0, c.name), threshold);
        (before.0[c.name := s.0], before.1 + (if s.1 then [(c.name, if c.result.error.Some? then c.result.error.value else "Unknown error")] else []))
      else (before.0[c.name := 0], before.1)
  }

  /** Handling a report keeps every counter below a positive threshold, and a check that
      is not failing (with no later check of the same name) leaves its counter at zero. */
  lemma {:induction false} ProcessedKeepsCountsBelow(counts: map<string, int>, checks: seq<Check>, threshold: int)
    requires threshold >= 1 && CountsBelow(counts, threshold)
    ensures CountsBelow(Processed(counts, checks, threshold).0, threshold)
    ensures forall i :: 0 <= i < |checks| ==> checks[i].name in Processed(counts, checks, threshold).0
    ensures forall i :: 0 <= i < |checks| && !Failing(checks[i]) && (forall j :: i < j < |checks| ==> checks[j].name != checks[i].name) ==>
      Processed(counts, checks, threshold).0[checks[i].name] == 0
  {
    if checks != [] {
      var init := checks[..|checks| - 1];
      ProcessedKeepsCountsBelow(counts, init, threshold);
      var before := Processed(counts, init, threshold).0;
      var c := checks[|checks| - 1];
      if Failing(c) {
        assert 0 <= CountOf(before, c.name) < threshold;
      }
      forall i | 0 <= i < |checks| ensures checks[i].name in Processed(counts, checks, threshold).0 {
        if i < |checks| - 1 {
          assert checks[i] == init[i];
        }
      }
      forall i | 0 <= i < |checks| && !Failing(checks[i]) && (forall j :: i < j < |checks| ==> checks[j].name != checks[i].name)
        ensures Processed(counts, checks, threshold).0[checks[i].name] == 0
      {
        if i < |checks| - 1 {
          assert checks[i] == init[i];
          assert checks[|checks| - 1].name != checks[i].name;
          forall j | i < j < |init| ensures init[j].name != init[i].name {
            assert init[j] == checks[j];
          }
        }
      }
    }
  }

  /** `reports[-n:]` once the list is longer than `n`. */
  function KeepLast<T>(reports: seq<T>, n: nat): (r: seq<T>)
    requires n >= 1
    ensures |r| == if |reports| > n then n else |reports|
    ensures r == reports[|reports| - |r|..]
  {
    if |reports| > n then reports[|reports| - n..] else reports
  }
}
