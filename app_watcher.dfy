/**
  The status interpretation of kctrl's App watcher (cli/pkg/kctrl/cmd/app/app-watcher.go).

  printTillCurrent and printUpdate print log lines to the terminal; here they return the
  lines they would print (message, message block, whether the block is an error block, and
  the time the "(... ago)" suffix is measured from) together with the stage they report
  and the error they return, or the number of times they ask the watch to stop.

  All timestamps are whole seconds. The source compares Unix() seconds in some places
  (lines 42, 54, 66, 82, 86) and full-precision time values with After/Equal in others
  (lines 46, 58, 82, 85, 94, 103, 106); this model reads both at one-second granularity.
*/
module AppWatcher {
  import opened Wrappers
  import opened KappStatus
  import opened Text

  /** The stage printTillCurrent reports; NoStage is the empty AppStage "". */
  datatype AppStage = NoStage | FetchStage | TemplateStage | DeployStage | Reconciled

  /** One call of printLogLine: the headline, the block printed under it (if non-empty),
      whether that block is printed as an error, and the time its age is shown from. */
  datatype LogLine = LogLine(message: string, block: string, errored: bool, since: Option<Time>)

  /** What printTillCurrent returns and prints. */
  datatype Progress = Progress(stage: AppStage, err: Option<string>, log: seq<LogLine>)

  /** What printUpdate prints, and how many times it calls stopWatch. */
  datatype WatchUpdate = WatchUpdate(log: seq<LogLine>, stops: nat)

  // ---- stage predicates, exactly as the conditions in printTillCurrent read ----

  /** Fetch failed in the current run (line 42): the failure is not older than the start. */
  predicate FetchFailed(f: StageStatus)
  {
    f.exitCode != 0 && f.updatedAt >= f.startedAt
  }

  /** Fetch started after its last update (line 46): a new run is in progress. */
  predicate FetchRunning(f: StageStatus)
  {
    f.startedAt > f.updatedAt
  }

  /** Template failed (line 54). Template has no start time of its own, so the source
      measures staleness against Fetch's start time, and with a strict comparison. */
  predicate TemplateFailed(f: StageStatus, t: StageStatus)
  {
    t.exitCode != 0 && f.startedAt < t.updatedAt
  }

  /** Template in progress (line 58): Fetch restarted after Template's last update. */
  predicate TemplateRunning(f: StageStatus, t: StageStatus)
  {
    f.startedAt > t.updatedAt
  }

  /** Deploy failed (line 66). Unlike Fetch (line 42) the comparison is strict, so a
      failure whose update time equals its start time is not reported. */
  predicate DeployFailed(d: DeployStatus)
  {
    d.exitCode != 0 && d.startedAt < d.updatedAt
  }

  /** A condition saying the App reconciled successfully. */
  predicate IsReconcileSucceeded(c: Condition)
  {
    c.condType == ReconcileSucceeded && c.status == ConditionTrue
  }

  /** hasReconciled (lines 175-182): scans the conditions in order and stops at the first
      ReconcileSucceeded condition whose status is True. */
  function HasReconciled(conditions: seq<Condition>): (r: bool)
    ensures r <==> exists i :: 0 <= i < |conditions| && IsReconcileSucceeded(conditions[i])
  {
    if conditions == [] then false
    else if IsReconcileSucceeded(conditions[0]) then true
    else HasReconciled(conditions[1..])
  }

  // ---- printTillCurrent ----

  /** Every status printTillCurrent can read without a nil dereference: line 54 reads
      Fetch.StartedAt whenever Template is present. */
  predicate Readable(s: AppStatus)
  {
    s.template.Some? ==> s.fetch.Some?
  }

  /** Fetch is absent or neither failed nor in progress, so printTillCurrent moves on to Template. */
  predicate FetchSettled(s: AppStatus)
  {
    s.fetch.None? || (!FetchFailed(s.fetch.value) && !FetchRunning(s.fetch.value))
  }

  /** Template is absent or neither failed nor in progress, so printTillCurrent moves on to Deploy. */
  predicate TemplateSettled(s: AppStatus)
    requires Readable(s)
  {
    s.template.None?
    || (!TemplateFailed(s.fetch.value, s.template.value) && !TemplateRunning(s.fetch.value, s.template.value))
  }

  /** printTillCurrent (lines 40-78): reports the first stage, in the order Fetch, Template,
      Deploy, that failed or is still running, with the stage's error text when it failed. */
  function PrintTillCurrent(s: AppStatus): (p: Progress)
    requires Readable(s)
  {
    if s.fetch.Some? && FetchFailed(s.fetch.value) then
      Progress(FetchStage, Some(s.fetch.value.stderr), [LogLine("Fetch failed", s.fetch.value.stderr, true, None)])
    else if s.fetch.Some? && FetchRunning(s.fetch.value) then
      Progress(FetchStage, None, [LogLine("Fetch started", "", false, Some(s.fetch.value.startedAt))])
    else
      var fetchLog :=
        if s.fetch.Some? then [LogLine("Fetch succeeded", s.fetch.value.stdout, false, Some(s.fetch.value.updatedAt))]
        else [];
      if s.template.Some? && TemplateFailed(s.fetch.value, s.template.value) then
        Progress(TemplateStage, Some(s.template.value.stderr),
                 fetchLog + [LogLine("Template failed", s.template.value.stderr, true, None)])
      else if s.template.Some? && TemplateRunning(s.fetch.value, s.template.value) then
        Progress(TemplateStage, None, fetchLog + [LogLine("Template started", "", false, None)])
      else
        var templateLog :=
          if s.template.Some? then [LogLine("Template succeeded", "", false, Some(s.template.value.updatedAt))]
          else [];
        var settledLog := fetchLog + templateLog;
        if s.deploy.Some? && DeployFailed(s.deploy.value) then
          // the returned error carries Deploy.Error while the printed block is Deploy.Stderr
          Progress(DeployStage, Some(s.deploy.value.error),
                   settledLog + [LogLine("Deploy failed", s.deploy.value.stderr, true, None)])
        else if s.deploy.Some? && HasReconciled(s.genericStatus.conditions) then
          Progress(Reconciled, None,
                   settledLog + [LogLine("Deploy succeeded", s.deploy.value.stdout, false, Some(s.deploy.value.updatedAt))])
        else if s.deploy.Some? then
          Progress(NoStage, None,
                   settledLog + [LogLine("Deploy started", s.deploy.value.stdout, false, Some(s.deploy.value.startedAt))])
        else
          Progress(NoStage, None, settledLog)
  }

  /** A failed Fetch is reported with its Stderr, and nothing about Template or Deploy is read. */
  lemma FetchFailureEndsTheScan(s: AppStatus, template: Option<StageStatus>, deploy: Option<DeployStatus>)
    requires s.fetch.Some? && FetchFailed(s.fetch.value)
    ensures PrintTillCurrent(s.(template := template, deploy := deploy))
         == Progress(FetchStage, Some(s.fetch.value.stderr), [LogLine("Fetch failed", s.fetch.value.stderr, true, None)])
  {
  }

  /** A Fetch that restarted after its last update is reported as running, without error,
      and nothing about Template or Deploy is read. */
  lemma FetchRunningEndsTheScan(s: AppStatus, template: Option<StageStatus>, deploy: Option<DeployStatus>)
    requires s.fetch.Some? && !FetchFailed(s.fetch.value) && FetchRunning(s.fetch.value)
    ensures PrintTillCurrent(s.(template := template, deploy := deploy))
         == Progress(FetchStage, None, [LogLine("Fetch started", "", false, Some(s.fetch.value.startedAt))])
  {
  }

  /** The reported stage is the first stage that is failed or running, and reconciled is
      reported only when every present stage settled, Deploy is present and not failed,
      and a ReconcileSucceeded condition is True. */
  lemma CurrentStageIsFirstUnsettled(s: AppStatus)
    requires Readable(s)
    ensures PrintTillCurrent(s).stage == FetchStage
        <==> s.fetch.Some? && (FetchFailed(s.fetch.value) || FetchRunning(s.fetch.value))
    ensures PrintTillCurrent(s).stage == TemplateStage
        <==> FetchSettled(s) && !TemplateSettled(s)
    ensures PrintTillCurrent(s).stage == DeployStage
        <==> FetchSettled(s) && TemplateSettled(s) && s.deploy.Some? && DeployFailed(s.deploy.value)
    ensures PrintTillCurrent(s).stage == Reconciled
        <==> FetchSettled(s) && TemplateSettled(s) && s.deploy.Some? && !DeployFailed(s.deploy.value)
             && exists i :: 0 <= i < |s.genericStatus.conditions| && IsReconcileSucceeded(s.genericStatus.conditions[i])
  {
  }

  /** An error is returned exactly when the reported stage failed: Fetch and Template return
      their Stderr, Deploy returns its Error text. */
  lemma ErrorOnlyForFailedStage(s: AppStatus)
    requires Readable(s)
    ensures PrintTillCurrent(s).err.Some? <==>
      (s.fetch.Some? && FetchFailed(s.fetch.value))
      || (FetchSettled(s) && s.template.Some? && TemplateFailed(s.fetch.value, s.template.value))
      || (FetchSettled(s) && TemplateSettled(s) && s.deploy.Some? && DeployFailed(s.deploy.value))
    ensures PrintTillCurrent(s).err.Some? && PrintTillCurrent(s).stage == FetchStage
        ==> PrintTillCurrent(s).err.value == s.fetch.value.stderr
    ensures PrintTillCurrent(s).err.Some? && PrintTillCurrent(s).stage == TemplateStage
        ==> PrintTillCurrent(s).err.value == s.template.value.stderr
    ensures PrintTillCurrent(s).err.Some? ==> PrintTillCurrent(s).stage in {FetchStage, TemplateStage, DeployStage}
    ensures PrintTillCurrent(s).stage == DeployStage ==> PrintTillCurrent(s).err == Some(s.deploy.value.error)
  {
  }

  /** Template is judged failed when its update is later than Fetch's start, strictly. */
  lemma TemplateFailureIsMeasuredFromFetchStart(s: AppStatus)
    requires s.fetch.Some? && !FetchFailed(s.fetch.value) && !FetchRunning(s.fetch.value) && s.template.Some?
    ensures (PrintTillCurrent(s).stage == TemplateStage && PrintTillCurrent(s).err.Some?)
        <==> s.template.value.exitCode != 0 && s.fetch.value.startedAt < s.template.value.updatedAt
  {
  }

  /** Every stage that settled is logged as succeeded, in stage order, before the reported one. */
  lemma SettledStagesAreLoggedFirst(s: AppStatus)
    requires Readable(s) && FetchSettled(s) && s.fetch.Some?
    ensures |PrintTillCurrent(s).log| >= 1
    ensures PrintTillCurrent(s).log[0] == LogLine("Fetch succeeded", s.fetch.value.stdout, false, Some(s.fetch.value.updatedAt))
    ensures TemplateSettled(s) && s.template.Some? ==>
      |PrintTillCurrent(s).log| >= 2 && PrintTillCurrent(s).log[1].message == "Template succeeded"
  {
  }

  /** A stage with exit code 1 updated after it started is failed; the same stage whose
      update predates its start is a stale failure from an earlier run and reads as started. */
  lemma StaleFetchFailureReadsAsStarted(g: GenericStatus)
    ensures var failed := StageStatus(1, 10, 20, "", "boom");
            PrintTillCurrent(AppStatus(Some(failed), None, None, g, 0, 0)) == Progress(FetchStage, Some("boom"), [LogLine("Fetch failed", "boom", true, None)])
    ensures var stale := StageStatus(1, 20, 10, "", "boom");
            PrintTillCurrent(AppStatus(Some(stale), None, None, g, 0, 0)) == Progress(FetchStage, None, [LogLine("Fetch started", "", false, Some(20))])
  {
  }

  /** As written, equal start and update times count as a Fetch failure (line 42) but not
      as a Deploy failure (line 66). */
  lemma FetchAndDeployDisagreeOnEqualTimes(g: GenericStatus)
    requires !HasReconciled(g.conditions)
    ensures var same := StageStatus(1, 5, 5, "", "err");
            PrintTillCurrent(AppStatus(Some(same), None, None, g, 0, 0)).err == Some("err")
    ensures var ok := StageStatus(0, 5, 6, "", "");
            var same := DeployStatus(1, 5, 5, "", "err", true, "deploy error");
            PrintTillCurrent(AppStatus(Some(ok), None, Some(same), g, 0, 0)) ==
              Progress(NoStage, None, [LogLine("Fetch succeeded", "", false, Some(6)),
                                       LogLine("Deploy started", "", false, Some(5))])
  {
  }

  // ---- printUpdate ----

  /** Fetch is present and its update time differs from the previous snapshot's (line 85). */
  predicate FetchUpdated(prev: AppStatus, s: AppStatus)
  {
    s.fetch.Some? && (prev.fetch.None? || prev.fetch.value.updatedAt != s.fetch.value.updatedAt)
  }

  predicate TemplateUpdated(prev: AppStatus, s: AppStatus)
  {
    s.template.Some? && (prev.template.None? || prev.template.value.updatedAt != s.template.value.updatedAt)
  }

  predicate DeployUpdated(prev: AppStatus, s: AppStatus)
  {
    s.deploy.Some? && (prev.deploy.None? || prev.deploy.value.updatedAt != s.deploy.value.updatedAt)
  }

  /** The snapshots printUpdate can read without a nil dereference: a Fetch failure prints
      Template.Stderr (line 87) and an updated Deploy reads Template.ExitCode (line 107). */
  predicate UpdateReadable(prev: AppStatus, s: AppStatus)
  {
    && (FetchUpdated(prev, s) && FetchFailed(s.fetch.value) ==> s.template.Some?)
    && (DeployUpdated(prev, s) ==> s.template.Some?)
  }

  /** Lines 81-92. As written, a Fetch failure prints Template's Stderr and is followed by
      "Fetch succeeded" as well, since the success line is not in an else branch. */
  function FetchUpdate(prev: AppStatus, s: AppStatus): WatchUpdate
    requires UpdateReadable(prev, s)
  {
    if s.fetch.None? then WatchUpdate([], 0)
    else
      var f := s.fetch.value;
      var started :=
        if prev.fetch.None? || (prev.fetch.value.startedAt != f.startedAt && f.updatedAt <= f.startedAt)
        then [LogLine("Fetch started", "", false, None)] else [];
      if !FetchUpdated(prev, s) then WatchUpdate(started, 0)
      else if FetchFailed(f) then
        WatchUpdate(started + [LogLine("Fetch failed", s.template.value.stderr, true, None),
                               LogLine("Fetch succeeded", f.stdout, false, None)], 1)
      else WatchUpdate(started + [LogLine("Fetch succeeded", f.stdout, false, None)], 0)
  }

  /** Lines 93-101: any non-zero exit code on an updated Template is a failure, and
      "Template succeeded" is printed after it all the same. */
  function TemplateUpdate(prev: AppStatus, s: AppStatus): WatchUpdate
  {
    if !TemplateUpdated(prev, s) then WatchUpdate([], 0)
    else if s.template.value.exitCode != 0 then
      WatchUpdate([LogLine("Template failed", s.template.value.stderr, true, None),
                   LogLine("Template succeeded", "", false, None)], 1)
    else WatchUpdate([LogLine("Template succeeded", "", false, None)], 0)
  }

  /** Lines 102-113: an updated Deploy is reported failed when it finished and Template's
      exit code (not Deploy's) is non-zero; "Deploy progressing" follows in every case. */
  function DeployUpdate(prev: AppStatus, s: AppStatus): WatchUpdate
    requires UpdateReadable(prev, s)
  {
    if s.deploy.None? then WatchUpdate([], 0)
    else
      var d := s.deploy.value;
      var started :=
        if prev.deploy.None? || prev.deploy.value.startedAt != d.startedAt
        then [LogLine("Deploy started", "", false, None)] else [];
      if !DeployUpdated(prev, s) then WatchUpdate(started, 0)
      else if s.template.value.exitCode != 0 && d.finished then
        WatchUpdate(started + [LogLine("Deploy failed", d.stderr, true, None),
                               LogLine("Deploy progressing", d.stdout, false, None)], 1)
      else WatchUpdate(started + [LogLine("Deploy progressing", d.stdout, false, None)], 0)
  }

  function Then(a: WatchUpdate, b: WatchUpdate): WatchUpdate
  {
    WatchUpdate(a.log + b.log, a.stops + b.stops)
  }

  /** printUpdate (lines 80-118): the transitions between two snapshots of the status, and
      the number of stopWatch calls. Closing the stop channel a second time panics in Go,
      so a result with more than one stop is a run the source does not survive. */
  function PrintUpdate(prev: AppStatus, s: AppStatus): (u: WatchUpdate)
    requires UpdateReadable(prev, s)
  {
    var reconciled :=
      if HasReconciled(s.genericStatus.conditions)
      then WatchUpdate([LogLine("App reconciled", "", false, None)], 1)
      else WatchUpdate([], 0);
    Then(Then(Then(FetchUpdate(prev, s), TemplateUpdate(prev, s)), DeployUpdate(prev, s)), reconciled)
  }

  /** Number of error lines in a log. */
  function ErrorLines(log: seq<LogLine>): nat
  {
    if log == [] then 0 else (if log[0].errored then 1 else 0) + ErrorLines(log[1..])
  }

  lemma {:induction false} ErrorLinesAppend(a: seq<LogLine>, b: seq<LogLine>)
    ensures ErrorLines(a + b) == ErrorLines(a) + ErrorLines(b)
  {
    if a == [] {
      assert a + b == b;
    } else {
      assert (a + b)[1..] == a[1..] + b;
      ErrorLinesAppend(a[1..], b);
    }
  }

  lemma ErrorLinesOfTwo(x: LogLine, y: LogLine)
    ensures ErrorLines([x, y]) == (if x.errored then 1 else 0) + (if y.errored then 1 else 0)
  {
    assert [x, y][1..] == [y];
    assert [y][1..] == [];
    assert ErrorLines([y]) == (if y.errored then 1 else 0) + ErrorLines([]);
    assert ErrorLines([x, y]) == (if x.errored then 1 else 0) + ErrorLines([y]);
  }

  lemma FetchStopsMatchErrors(prev: AppStatus, s: AppStatus)
    requires UpdateReadable(prev, s)
    ensures FetchUpdate(prev, s).stops == ErrorLines(FetchUpdate(prev, s).log)
  {
    if s.fetch.Some? {
      var f := s.fetch.value;
      var started :=
        if prev.fetch.None? || (prev.fetch.value.startedAt != f.startedAt && f.updatedAt <= f.startedAt)
        then [LogLine("Fetch started", "", false, None)] else [];
      assert ErrorLines(started) == 0;
      var tail :=
        if !FetchUpdated(prev, s) then []
        else if FetchFailed(f) then [LogLine("Fetch failed", s.template.value.stderr, true, None),
                                     LogLine("Fetch succeeded", f.stdout, false, None)]
        else [LogLine("Fetch succeeded", f.stdout, false, None)];
      assert FetchUpdate(prev, s).log == started + tail;
      ErrorLinesAppend(started, tail);
      if |tail| == 2 {
        ErrorLinesOfTwo(tail[0], tail[1]);
      }
    }
  }

  lemma TemplateStopsMatchErrors(prev: AppStatus, s: AppStatus)
    ensures TemplateUpdate(prev, s).stops == ErrorLines(TemplateUpdate(prev, s).log)
  {
    var t := TemplateUpdate(prev, s);
    if |t.log| == 2 {
      ErrorLinesOfTwo(t.log[0], t.log[1]);
      assert t.log == [t.log[0], t.log[1]];
    }
  }

  /** An updated Deploy is reported failed exactly when it finished and Template's exit
      code, not Deploy's own, is non-zero (line 107). */
  lemma DeployFailureGatedOnTemplate(prev: AppStatus, s: AppStatus)
    requires UpdateReadable(prev, s) && DeployUpdated(prev, s)
    ensures (exists i :: 0 <= i < |DeployUpdate(prev, s).log| && DeployUpdate(prev, s).log[i].message == "Deploy failed")
            <==> s.template.value.exitCode != 0 && s.deploy.value.finished
  {
    var d := s.deploy.value;
    var log := DeployUpdate(prev, s).log;
    if s.template.value.exitCode != 0 && d.finished {
      var started :=
        if prev.deploy.None? || prev.deploy.value.startedAt != d.startedAt
        then [LogLine("Deploy started", "", false, None)] else [];
      assert log[|started|].message == "Deploy failed";
    } else {
      assert forall i :: 0 <= i < |log| ==> log[i].message in {"Deploy started", "Deploy progressing"};
    }
  }

  lemma DeployStopsMatchErrors(prev: AppStatus, s: AppStatus)
    requires UpdateReadable(prev, s)
    ensures DeployUpdate(prev, s).stops == ErrorLines(DeployUpdate(prev, s).log)
  {
    if s.deploy.Some? {
      var d := s.deploy.value;
      var started :=
        if prev.deploy.None? || prev.deploy.value.startedAt != d.startedAt
        then [LogLine("Deploy started", "", false, None)] else [];
      assert ErrorLines(started) == 0;
      var tail :=
        if !DeployUpdated(prev, s) then []
        else if s.template.value.exitCode != 0 && d.finished then
          [LogLine("Deploy failed", d.stderr, true, None), LogLine("Deploy progressing", d.stdout, false, None)]
        else [LogLine("Deploy progressing", d.stdout, false, None)];
      assert DeployUpdate(prev, s).log == started + tail;
      ErrorLinesAppend(started, tail);
      if |tail| == 2 {
        ErrorLinesOfTwo(tail[0], tail[1]);
      }
    }
  }

  /** printUpdate asks the watch to stop once for every failure it prints, and once more
      when the App has reconciled. */
  lemma {:induction false} StopsMatchFailuresAndReconcile(prev: AppStatus, s: AppStatus)
    requires UpdateReadable(prev, s)
    ensures PrintUpdate(prev, s).stops
         == ErrorLines(PrintUpdate(prev, s).log) + (if HasReconciled(s.genericStatus.conditions) then 1 else 0)
  {
    var f, t, d := FetchUpdate(prev, s), TemplateUpdate(prev, s), DeployUpdate(prev, s);
    var r := if HasReconciled(s.genericStatus.conditions)
      then WatchUpdate([LogLine("App reconciled", "", false, None)], 1) else WatchUpdate([], 0);
    FetchStopsMatchErrors(prev, s);
    TemplateStopsMatchErrors(prev, s);
    DeployStopsMatchErrors(prev, s);
    assert ErrorLines(r.log) == 0;
    ErrorLinesAppend(f.log, t.log);
    ErrorLinesAppend(f.log + t.log, d.log);
    ErrorLinesAppend(f.log + t.log + d.log, r.log);
    assert PrintUpdate(prev, s) == WatchUpdate(f.log + t.log + d.log + r.log, f.stops + t.stops + d.stops + r.stops);
  }

  /** An update that changes nothing prints nothing, except that a reconciled App is
      announced (and stops the watch) on every update. */
  lemma UnchangedStatusIsQuiet(s: AppStatus)
    ensures UpdateReadable(s, s)
    ensures PrintUpdate(s, s) ==
      if HasReconciled(s.genericStatus.conditions)
      then WatchUpdate([LogLine("App reconciled", "", false, None)], 1)
      else WatchUpdate([], 0)
  {
    assert FetchUpdate(s, s) == WatchUpdate([], 0);
    assert TemplateUpdate(s, s) == WatchUpdate([], 0);
    assert DeployUpdate(s, s) == WatchUpdate([], 0);
  }

  /** Once the App has reconciled, the last line printed says so and the watch is asked to stop. */
  lemma ReconciledStopsTheWatch(prev: AppStatus, s: AppStatus)
    requires UpdateReadable(prev, s) && HasReconciled(s.genericStatus.conditions)
    ensures PrintUpdate(prev, s).stops >= 1
    ensures |PrintUpdate(prev, s).log| >= 1
    ensures PrintUpdate(prev, s).log[|PrintUpdate(prev, s).log| - 1] == LogLine("App reconciled", "", false, None)
  {
  }

  /** As written, a newly reported Fetch failure prints Template's Stderr and is directly
      followed by "Fetch succeeded". */
  lemma FetchFailureIsFollowedBySuccess(prev: AppStatus, s: AppStatus)
    requires UpdateReadable(prev, s) && FetchUpdated(prev, s) && FetchFailed(s.fetch.value)
    ensures exists i :: (0 <= i < |PrintUpdate(prev, s).log| - 1
      && PrintUpdate(prev, s).log[i] == LogLine("Fetch failed", s.template.value.stderr, true, None)
      && PrintUpdate(prev, s).log[i + 1] == LogLine("Fetch succeeded", s.fetch.value.stdout, false, None))
    ensures PrintUpdate(prev, s).stops >= 1
  {
    var f := FetchUpdate(prev, s);
    var i := |f.log| - 2;
    assert PrintUpdate(prev, s).log[i] == f.log[i];
    assert PrintUpdate(prev, s).log[i + 1] == f.log[i + 1];
  }

  /** A Template that fails and an App that reconciled in the same update make printUpdate
      call stopWatch twice: the second close of the channel panics in the source. */
  lemma TemplateFailureAndReconcileStopTwice(g: GenericStatus)
    requires |g.conditions| == 1 && IsReconcileSucceeded(g.conditions[0])
    ensures var s := AppStatus(None, Some(StageStatus(1, 0, 1, "", "bad")), None, g, 0, 0);
            PrintUpdate(AppStatus(None, None, None, g, 0, 0), s).stops == 2
  {
  }

  // ---- metricString and statusString ----

  const FailuresText := " consecutive failures"
  const SuccessesText := " consecutive successes"
  /** The text shown when both counters are zero: "0 consecutive failures | 0 consecutive successes". */
  const NoRunsText := "0" + FailuresText + " | 0" + SuccessesText

  /** metricString (lines 147-155): failures win whenever there are any, successes are
      reported only when there are no failures, and a fixed text covers both being zero. */
  function MetricString(s: AppStatus): string
  {
    if s.consecutiveReconcileFailures != 0 then
      DecimalString(s.consecutiveReconcileFailures) + FailuresText
    else if s.consecutiveReconcileSuccesses != 0 then
      DecimalString(s.consecutiveReconcileSuccesses) + SuccessesText
    else
      NoRunsText
  }

  /** The text before the first space, and the rest. */
  function SplitAtSpace(r: string): (string, string)
  {
    if r == [] then ("", "")
    else if r[0] == ' ' then ("", r)
    else var (w, rest) := SplitAtSpace(r[1..]); ([r[0]] + w, rest)
  }

  lemma {:induction false} SplitAtSpaceOf(w: string, rest: string)
    requires ' ' !in w && |rest| > 0 && rest[0] == ' '
    ensures SplitAtSpace(w + rest) == (w, rest)
  {
    if w != [] {
      assert (w + rest)[1..] == w[1..] + rest;
      assert ' ' !in w[1..] by {
        forall k | 0 <= k < |w[1..]| ensures w[1..][k] != ' ' { assert w[1..][k] == w[k + 1]; }
      }
      SplitAtSpaceOf(w[1..], rest);
      assert [w[0]] + w[1..] == w;
    } else {
      assert w + rest == rest;
    }
  }

  /** A number rendered by %d and followed by a space-led text splits back into both. */
  lemma DecimalThenTextReadsBack(n: int, rest: string)
    requires |rest| > 0 && rest[0] == ' '
    ensures var (w, r) := SplitAtSpace(DecimalString(n) + rest);
      && (IsDigits(w) || (|w| > 0 && w[0] == '-' && IsDigits(w[1..])))
      && ParseDecimal(w) == n && r == rest
  {
    DecimalRoundTrip(n);
    SplitAtSpaceOf(DecimalString(n), rest);
  }

  /** The number metricString shows reads back as the counter it reports: failures when
      there are any, otherwise successes (zero when both are zero). */
  lemma MetricStringReadsBack(s: AppStatus)
    ensures var (w, rest) := SplitAtSpace(MetricString(s));
      && (IsDigits(w) || (|w| > 0 && w[0] == '-' && IsDigits(w[1..])))
      && ParseDecimal(w) == (if s.consecutiveReconcileFailures != 0 then s.consecutiveReconcileFailures
                             else s.consecutiveReconcileSuccesses)
      && rest == (if s.consecutiveReconcileFailures != 0 then FailuresText
                  else if s.consecutiveReconcileSuccesses != 0 then SuccessesText
                  else FailuresText + " | 0" + SuccessesText)
  {
    if s.consecutiveReconcileFailures != 0 {
      DecimalThenTextReadsBack(s.consecutiveReconcileFailures, FailuresText);
    } else if s.consecutiveReconcileSuccesses != 0 {
      DecimalThenTextReadsBack(s.consecutiveReconcileSuccesses, SuccessesText);
    } else {
      var rest := FailuresText + " | 0" + SuccessesText;
      assert DecimalString(0) == [DigitChar(0)] == "0";
      assert MetricString(s) == DecimalString(0) + rest;
      DecimalThenTextReadsBack(0, rest);
    }
  }

  datatype Colour = Plain | Green | Red

  /** A terminal string: its text and the colour it is printed in (escape codes left out). */
  datatype Painted = Painted(colour: Colour, text: string)

  /** The condition type a statusString label names, if it is one of the five fixed labels;
      the labels are distinct, so the type reads back from the text. */
  function TypeOfLabel(text: string): Option<ConditionType>
  {
    if text == "Reconciling" then Some(Reconciling)
    else if text == "Reconcile succeeded" then Some(ReconcileSucceeded)
    else if text == "Reconcile failed" then Some(ReconcileFailed)
    else if text == "Deleting" then Some(Deleting)
    else if text == "Deletion failed" then Some(DeleteFailed)
    else None
  }

  /** statusString (lines 158-173): names the first condition's type; unknown types fall
      back to the friendly description. Conditions[0] panics on an empty list. */
  function StatusString(s: AppStatus): (r: Painted)
    requires |s.genericStatus.conditions| > 0
    ensures r.colour == Red <==> s.genericStatus.conditions[0].condType in {ReconcileFailed, DeleteFailed}
    ensures r.colour == Green <==> s.genericStatus.conditions[0].condType == ReconcileSucceeded
    ensures s.genericStatus.conditions[0].condType.OtherCondition? ==>
      r == Painted(Plain, s.genericStatus.friendlyDescription)
    ensures !s.genericStatus.conditions[0].condType.OtherCondition? ==>
      TypeOfLabel(r.text) == Some(s.genericStatus.conditions[0].condType)
  {
    match s.genericStatus.conditions[0].condType
    case Reconciling => Painted(Plain, "Reconciling")
    case ReconcileSucceeded => Painted(Green, "Reconcile succeeded")
    case ReconcileFailed => Painted(Red, "Reconcile failed")
    case Deleting => Painted(Plain, "Deleting")
    case DeleteFailed => Painted(Red, "Deletion failed")
    case OtherCondition(_) => Painted(Plain, s.genericStatus.friendlyDescription)
  }

  // ---- indentMessageBlock ----

  /** The gutter printed in front of every line of a message block. */
  const Gutter := "\t  | "

  /** indentMessageBlock (lines 236-250), colour left out: splits the block into lines,
      prefixes each line in place with the gutter, joins them again and makes sure the
      result ends in a newline. */
  method IndentMessageBlock(messageBlock: string) returns (indented: string)
    ensures |indented| > 0 && indented[|indented| - 1] == '\n'
    ensures |Split(indented[..|indented| - 1])| == |Split(messageBlock)|
    ensures forall i :: 0 <= i < |Split(messageBlock)| ==>
      Split(indented[..|indented| - 1])[i] == Gutter + Split(messageBlock)[i]
  {
    var pieces := Split(messageBlock);
    var lines := new string[|pieces|](i requires 0 <= i < |pieces| => pieces[i]);
    for ind := 0 to lines.Length
      invariant forall k :: 0 <= k < ind ==> lines[k] == Gutter + pieces[k]
      invariant forall k :: ind <= k < lines.Length ==> lines[k] == pieces[k]
    {
      lines[ind] := Gutter + lines[ind];
    }
    var joined := Join(lines[..]);
    assert forall k :: 0 <= k < lines.Length ==> '\n' !in lines[..][k] by {
      forall k | 0 <= k < lines.Length ensures '\n' !in lines[..][k] {
        assert lines[..][k] == Gutter + pieces[k];
        assert forall j :: 0 <= j < |Gutter| ==> Gutter[j] != '\n';
      }
    }
    SplitJoin(lines[..]);
    assert |joined| > 0 && joined[|joined| - 1] != '\n' by {
      var last := lines[..][lines.Length - 1];
      assert |last| >= |Gutter|;
      if |joined| > 0 && joined[|joined| - 1] == '\n' {
        SplitEndsEmpty(joined);
      }
    }
    if LastIndex(joined, '\n') != |joined| - 1 {
      indented := joined + "\n";
    } else {
      indented := joined;
    }
    assert indented == joined + "\n";
    assert indented[..|indented| - 1] == joined;
  }

  /** Stripping the gutter from each indented line and joining them gives the block back. */
  lemma IndentedBlockReadsBack(messageBlock: string, indentedLines: seq<string>)
    requires |indentedLines| == |Split(messageBlock)|
    requires forall i :: 0 <= i < |indentedLines| ==> indentedLines[i] == Gutter + Split(messageBlock)[i]
    ensures Join(seq(|indentedLines|, i requires 0 <= i < |indentedLines| => indentedLines[i][|Gutter|..])) == messageBlock
  {
    var stripped := seq(|indentedLines|, i requires 0 <= i < |indentedLines| => indentedLines[i][|Gutter|..]);
    assert stripped == Split(messageBlock);
    JoinSplit(messageBlock);
  }
}
