/**
 Scheduled analyses: the table of tasks, the minute loop that claims the tasks due today,
 and the results, manual tests and edits that write the same rows. One scheduler runs and is
 not restarted; a run's result can be recorded at any later time, or never.
 */
module Scheduler {
  import opened Helpers

  type TaskId = string
  type Day = int       // days in calendar order
  type Minute = int    // minutes since midnight

  datatype RunStatus = Running | Success | Failure

  datatype Row = Row(
    isActive: bool,
    horizon: string,
    triggerTime: Option<Minute>,
    lastRunDate: Option<Day>,
    lastRunStatus: Option<RunStatus>,
    lastReportId: Option<string>,
    consecutiveFailures: nat)

  // ---------------------------------------------------------------- row updates

  const VALID_HORIZONS := {"short", "medium"}

  /** Analyses run outside the day: up to 08:00 and from 20:00. */
  predicate OutsideTheDay(t: Minute) { !(8 * 60 < t < 20 * 60) }

  /** `_validate_trigger_time` after its text has been read as two numbers. */
  function ValidateTriggerTime(hh: int, mm: int): Option<Minute> {
    if 0 <= hh <= 23 && 0 <= mm <= 59 && OutsideTheDay(hh * 60 + mm) then Some(hh * 60 + mm) else None
  }

  /** A stored time is absent only in a row written by other means; it then counts as 20:00. */
  function TriggerOf(row: Row): Minute { if row.triggerTime.Some? then row.triggerTime.value else 20 * 60 }

  predicate Pending(row: Row, today: Day, now: Minute) {
    row.isActive && row.lastRunDate != Some(today) && TriggerOf(row) <= now
  }

  function Claim(row: Row, today: Day): Row { row.(lastRunDate := Some(today), lastRunStatus := Some(Running)) }

  function Succeed(row: Row, day: Day, report: string): Row {
    row.(lastRunDate := Some(day), lastRunStatus := Some(Success), lastReportId := Some(report), consecutiveFailures := 0)
  }

  function Fail(row: Row, day: Day): Row {
    row.(lastRunDate := Some(day), lastRunStatus := Some(Failure), consecutiveFailures := row.consecutiveFailures + 1,
         isActive := row.isActive && row.consecutiveFailures + 1 < 3)
  }

  /** A manual test leaves the day and the activity of the task alone. */
  function Tested(row: Row, status: RunStatus, report: string): Row {
    row.(lastRunStatus := Some(status), lastReportId := if report != "" then Some(report) else row.lastReportId,
         consecutiveFailures := if status == Success then 0 else row.consecutiveFailures)
  }

  datatype Edit = Edit(isActive: Option<bool>, horizon: Option<string>, triggerTime: Option<(int, int)>)

  /** An edit that is refused half-way is never committed. */
  function Edited(row: Row, e: Edit): Option<Row> {
    if e.horizon.Some? && e.horizon.value !in VALID_HORIZONS then None
    else if e.triggerTime.Some? && ValidateTriggerTime(e.triggerTime.value.0, e.triggerTime.value.1).None? then None
    else Some(row.(
      isActive := if e.isActive.Some? then e.isActive.value else row.isActive,
      consecutiveFailures := if e.isActive == Some(true) then 0 else row.consecutiveFailures,
      horizon := if e.horizon.Some? then e.horizon.value else row.horizon,
      triggerTime := if e.triggerTime.Some? then ValidateTriggerTime(e.triggerTime.value.0, e.triggerTime.value.1)
                     else row.triggerTime))
  }

  // ------------------------------------------------------------------ the table

  class ScheduledAnalyses {
    var rows: map<TaskId, Row>

    constructor ()
      ensures rows == map[]
    {
      rows := map[];
    }

    method GetPendingTasks(today: Day, now: Minute) returns (tasks: set<TaskId>)
      ensures forall id :: id in tasks <==> id in rows && Pending(rows[id], today, now)
    {
      tasks := set id | id in rows && Pending(rows[id], today, now);
    }

    /** The claim of one tick: every pending row and no other is dated today, in one commit. */
    method ClaimPendingTasks(today: Day, now: Minute) returns (claimed: set<TaskId>)
      modifies this
      ensures forall id :: id in claimed <==> id in old(rows) && Pending(old(rows)[id], today, now)
      ensures rows == map id | id in old(rows) ::
                if Pending(old(rows)[id], today, now) then Claim(old(rows)[id], today) else old(rows)[id]
    {
      claimed := GetPendingTasks(today, now);
      var todo := claimed;
      while todo != {}
        invariant todo <= claimed && rows.Keys == old(rows).Keys
        invariant forall id :: id in rows ==>
          rows[id] == if id in claimed && id !in todo then Claim(old(rows)[id], today) else old(rows)[id]
        decreases |todo|
      {
        var id :| id in todo;
        rows := rows[id := rows[id].(lastRunDate := Some(today), lastRunStatus := Some(Running))];
        todo := todo - {id};
      }
    }

    method MarkRunSuccess(id: TaskId, day: Day, report: string)
      modifies this
      ensures rows == if id in old(rows) then old(rows)[id := Succeed(old(rows)[id], day, report)] else old(rows)
    {
      if id in rows {
        var row := rows[id];
        row := row.(lastRunDate := Some(day));
        row := row.(lastRunStatus := Some(Success), lastReportId := Some(report));
        row := row.(consecutiveFailures := 0);
        rows := rows[id := row];
      }
    }

    method MarkRunFailed(id: TaskId, day: Day)
      modifies this
      ensures rows == if id in old(rows) then old(rows)[id := Fail(old(rows)[id], day)] else old(rows)
    {
      if id in rows {
        var row := rows[id];
        row := row.(lastRunDate := Some(day), lastRunStatus := Some(Failure));
        row := row.(consecutiveFailures := row.consecutiveFailures + 1);
        if row.consecutiveFailures >= 3 { row := row.(isActive := false); }
        rows := rows[id := row];
      }
    }

    method RecordManualTestResult(id: TaskId, status: RunStatus, report: string)
      modifies this
      ensures rows == if id in old(rows) then old(rows)[id := Tested(old(rows)[id], status, report)] else old(rows)
    {
      if id !in rows { return; }
      var row := rows[id].(lastRunStatus := Some(status));
      if report != "" { row := row.(lastReportId := Some(report)); }
      if status == Success { row := row.(consecutiveFailures := 0); }
      rows := rows[id := row];
    }

    method UpdateScheduled(id: TaskId, e: Edit) returns (ok: bool)
      modifies this
      ensures ok == (id in old(rows) && Edited(old(rows)[id], e).Some?)
      ensures rows == if ok then old(rows)[id := Edited(old(rows)[id], e).value] else old(rows)
    {
      if id !in rows { return false; }
      var row := rows[id];
      if e.isActive.Some? {
        row := row.(isActive := e.isActive.value);
        if e.isActive.value { row := row.(consecutiveFailures := 0); }
      }
      if e.horizon.Some? {
        if e.horizon.value !in VALID_HORIZONS { return false; }
        row := row.(horizon := e.horizon.value);
      }
      if e.triggerTime.Some? {
        var t := ValidateTriggerTime(e.triggerTime.value.0, e.triggerTime.value.1);
        if t.None? { return false; }
        row := row.(triggerTime := t);
      }
      ok, rows := true, rows[id := row];
    }

    method DeleteScheduled(id: TaskId)
      modifies this
      ensures rows == old(rows) - {id}
    {
      rows := rows - {id};
    }
  }

  // ------------------------------------------------------- every run of one task

  /** What a step meant for the failure counter. */
  datatype Outcome = Failed | Reset

  /** `runs` are the days of the started runs whose result is still to come, `claims` the days
      of all claims, `late` says that since the last claim a result for an earlier day came in. */
  datatype Task = Task(row: Option<Row>, runs: seq<Day>, claims: seq<Day>, today: Day, late: bool, log: seq<Outcome>)

  datatype Step =
    | Tick(later: nat, now: Minute, tradingDay: bool)
    | Record(run: nat, ok: bool, report: string)
    | Lose(run: nat)
    | Test(status: RunStatus, report: string)
    | Change(edit: Edit)
    | Delete

  function Without<T>(s: seq<T>, i: nat): seq<T>
    requires i < |s|
  {
    s[..i] + s[i + 1..]
  }

  predicate ClaimsAt(t: Task, e: Step) {
    && e.Tick? && t.row.Some? && e.tradingDay && OutsideTheDay(e.now)
    && Pending(t.row.value, t.today + e.later, e.now)
  }

  function OnTick(t: Task, e: Step): Task
    requires e.Tick?
  {
    var day := t.today + e.later;
    if ClaimsAt(t, e)
    then t.(today := day, row := Some(Claim(t.row.value, day)), runs := t.runs + [day], claims := t.claims + [day], late := false)
    else t.(today := day)
  }

  function OnRecord(t: Task, i: nat, ok: bool, report: string): Task {
    if i >= |t.runs| then t else
      var day := t.runs[i];
      var u := t.(runs := Without(t.runs, i));
      if t.row.None? then u else
        u.(row := Some(if ok then Succeed(t.row.value, day, report) else Fail(t.row.value, day)),
           late := t.claims != [] && day != t.claims[|t.claims| - 1],
           log := t.log + [if ok then Reset else Failed])
  }

  function OnTest(t: Task, status: RunStatus, report: string): Task {
    if t.row.None? then t else
      t.(row := Some(Tested(t.row.value, status, report)), log := if status == Success then t.log + [Reset] else t.log)
  }

  function OnChange(t: Task, e: Edit): Task {
    if t.row.None? || Edited(t.row.value, e).None? then t else
      t.(row := Edited(t.row.value, e), log := if e.isActive == Some(true) then t.log + [Reset] else t.log)
  }

  function Apply(t: Task, e: Step): Task {
    match e
    case Tick(_, _, _) => OnTick(t, e)
    case Record(i, ok, report) => OnRecord(t, i, ok, report)
    case Lose(i) => if i < |t.runs| then t.(runs := Without(t.runs, i)) else t
    case Test(status, report) => OnTest(t, status, report)
    case Change(edit) => OnChange(t, edit)
    case Delete => t.(row := None)
  }

  /** A task as `create_scheduled` inserts it. */
  function Created(today: Day, horizon: string, trigger: Option<Minute>): Task {
    Task(Some(Row(true, horizon, trigger, None, None, None, 0)), [], [], today, false, [])
  }

  function After(t: Task, steps: seq<Step>): Task {
    if steps == [] then t else Apply(After(t, steps[..|steps| - 1]), steps[|steps| - 1])
  }

  predicate New(t: Task) {
    && t.row.Some? && t.row.value.lastRunDate == None && t.row.value.consecutiveFailures == 0
    && t.runs == [] && t.claims == [] && t.log == [] && !t.late
  }

  // ------------------------------------------------------------ claims and days

  ghost predicate Increasing(days: seq<Day>) { forall i, j :: 0 <= i < j < |days| ==> days[i] < days[j] }

  ghost predicate NonDecreasing(days: seq<Day>) { forall i, j :: 0 <= i < j < |days| ==> days[i] <= days[j] }

  ghost predicate NoneAfter(days: seq<Day>, day: Day) { forall i :: 0 <= i < |days| ==> days[i] <= day }

  /** The row carries the day of the last claim, unless a late result has set it back. */
  ghost predicate Dated(t: Task) {
    && NonDecreasing(t.claims) && NoneAfter(t.claims, t.today)
    && (t.claims == [] ==> t.runs == [] && !t.late)
    && (t.row.Some? && t.claims == [] ==> t.row.value.lastRunDate == None)
    && (t.claims != [] ==> NoneAfter(t.runs, t.claims[|t.claims| - 1]))
    && (t.row.Some? && t.claims != [] ==> t.row.value.lastRunDate.Some?)
    && (t.row.Some? && t.claims != [] ==>
          (t.row.value.lastRunDate == Some(t.claims[|t.claims| - 1]) <==> !t.late))
  }

  lemma TickKeepsDated(t: Task, e: Step)
    requires Dated(t) && e.Tick?
    ensures Dated(OnTick(t, e))
  {
  }

  lemma RecordKeepsDated(t: Task, i: nat, ok: bool, report: string)
    requires Dated(t)
    ensures Dated(OnRecord(t, i, ok, report))
  {
  }

  lemma OthersKeepDated(t: Task, e: Step)
    requires Dated(t) && !e.Tick? && !e.Record?
    ensures Dated(Apply(t, e))
  {
  }

  lemma {:induction false} AlwaysDated(t: Task, steps: seq<Step>)
    requires New(t)
    ensures Dated(After(t, steps))
  {
    if steps != [] {
      AlwaysDated(t, steps[..|steps| - 1]);
      var u, e := After(t, steps[..|steps| - 1]), steps[|steps| - 1];
      if e.Tick? { TickKeepsDated(u, e); } else if e.Record? { RecordKeepsDated(u, e.run, e.ok, e.report); } else { OthersKeepDated(u, e); }
    }
  }

  /** The loop is awake on a trading day and the active task's time has come. The date of the
      row is not looked at. */
  predicate TimeHasCome(t: Task, e: Step) {
    && e.Tick? && e.tradingDay && OutsideTheDay(e.now)
    && t.row.Some? && t.row.value.isActive && TriggerOf(t.row.value) <= e.now
  }

  predicate OnLastClaimDay(t: Task, e: Step) {
    e.Tick? && t.claims != [] && t.today + e.later == t.claims[|t.claims| - 1]
  }

  /** A tick at which the time of the task has come, on the day of its last claim, after a
      result for an earlier day came in late. */
  predicate LateTick(t: Task, e: Step) { TimeHasCome(t, e) && OnLastClaimDay(t, e) && t.late }

  /** On the day of the last claim the row's date keeps the task from being claimed, unless a
      late result has set it back. */
  lemma LateTickClaims(t: Task, e: Step)
    requires Dated(t) && TimeHasCome(t, e)
    ensures OnLastClaimDay(t, e) ==> (ClaimsAt(t, e) <==> t.late)
  {
  }

  lemma ClaimStep(t: Task, e: Step)
    requires Dated(t) && Increasing(t.claims)
    ensures Increasing(Apply(t, e).claims) <==> !LateTick(t, e)
  {
    if ClaimsAt(t, e) {
      var day := t.today + e.later;
      assert Apply(t, e).claims == t.claims + [day];
      if t.claims != [] {
        var n := |t.claims|;
        assert (t.claims + [day])[n] == day && (t.claims + [day])[n - 1] == t.claims[n - 1];
      }
    }
    if LateTick(t, e) { LateTickClaims(t, e); }
  }

  predicate NoLateTick(t: Task, steps: seq<Step>) {
    steps == [] ||
    (NoLateTick(t, steps[..|steps| - 1]) && !LateTick(After(t, steps[..|steps| - 1]), steps[|steps| - 1]))
  }

  lemma {:induction false} ClaimsOnlyGrow(t: Task, e: Step)
    ensures t.claims <= Apply(t, e).claims
  {
  }

  /** A task is never claimed twice for a day exactly as long as, once the result of an earlier
      day has come in late, no tick of that day finds the task active with its time come. */
  lemma {:induction false} ClaimedOnceIff(t: Task, steps: seq<Step>)
    requires New(t)
    ensures Increasing(After(t, steps).claims) <==> NoLateTick(t, steps)
  {
    if steps != [] {
      var init := steps[..|steps| - 1];
      ClaimedOnceIff(t, init);
      AlwaysDated(t, init);
      if Increasing(After(t, init).claims) {
        ClaimStep(After(t, init), steps[|steps| - 1]);
      } else {
        ClaimsOnlyGrow(After(t, init), steps[|steps| - 1]);
        GrownStaysBad(After(t, init).claims, After(t, steps).claims);
      }
    }
  }

  lemma GrownStaysBad(days: seq<Day>, more: seq<Day>)
    requires days <= more && !Increasing(days)
    ensures !Increasing(more)
  {
    var i, j :| 0 <= i < j < |days| && days[i] >= days[j];
    assert more[i] == days[i] && more[j] == days[j];
  }

  /** At every claim for a later day no earlier run's result is still to come. */
  predicate Timely(t: Task, steps: seq<Step>) {
    steps == [] ||
    (var u := After(t, steps[..|steps| - 1]);
     Timely(t, steps[..|steps| - 1]) &&
     (ClaimsAt(u, steps[|steps| - 1]) ==> forall i :: 0 <= i < |u.runs| ==> u.runs[i] >= u.today + steps[|steps| - 1].later))
  }

  ghost predicate OnTime(t: Task) {
    !t.late && (t.claims != [] ==> forall i :: 0 <= i < |t.runs| ==> t.runs[i] == t.claims[|t.claims| - 1])
  }

  lemma OnTimeStep(t: Task, e: Step)
    requires Dated(t) && OnTime(t)
    requires ClaimsAt(t, e) ==> forall i :: 0 <= i < |t.runs| ==> t.runs[i] >= t.today + e.later
    ensures OnTime(Apply(t, e))
  {
  }

  lemma {:induction false} TimelyIsOnTime(t: Task, steps: seq<Step>)
    requires New(t) && Timely(t, steps)
    ensures OnTime(After(t, steps)) && NoLateTick(t, steps)
  {
    if steps != [] {
      TimelyIsOnTime(t, steps[..|steps| - 1]);
      AlwaysDated(t, steps[..|steps| - 1]);
      OnTimeStep(After(t, steps[..|steps| - 1]), steps[|steps| - 1]);
    }
  }

  /** When every result is recorded before the task is claimed for a later day, no day is claimed twice. */
  lemma NoDayClaimedTwice(t: Task, steps: seq<Step>)
    requires New(t) && Timely(t, steps)
    ensures Increasing(After(t, steps).claims)
  {
    TimelyIsOnTime(t, steps);
    ClaimedOnceIff(t, steps);
  }

  /** Without that: Monday's result comes in on Tuesday after Tuesday's claim, and Tuesday is claimed again. */
  lemma LateResultClaimsAgain(report: string)
    ensures var monday := Created(1, "short", Some(20 * 60));
      After(monday, [Tick(0, 1200, true), Tick(1, 1200, true), Record(0, true, report), Tick(0, 1201, true)]).claims == [1, 2, 2]
  {
    var t0 := Created(1, "short", Some(20 * 60));
    var t1 := Apply(t0, Tick(0, 1200, true));
    var t2 := Apply(t1, Tick(1, 1200, true));
    var t3 := Apply(t2, Record(0, true, report));
    var t4 := Apply(t3, Tick(0, 1201, true));
    assert t2.runs == [1, 2] && t2.claims == [1, 2];
    assert t4.claims == [1, 2, 2];
    var s1 := [Tick(0, 1200, true)];
    var s2 := s1 + [Tick(1, 1200, true)];
    var s3 := s2 + [Record(0, true, report)];
    var s4 := s3 + [Tick(0, 1201, true)];
    Extended(t0, [], Tick(0, 1200, true));
    Extended(t0, s1, Tick(1, 1200, true));
    Extended(t0, s2, Record(0, true, report));
    Extended(t0, s3, Tick(0, 1201, true));
    assert [] + [Tick(0, 1200, true)] == s1;
    assert s4 == [Tick(0, 1200, true), Tick(1, 1200, true), Record(0, true, report), Tick(0, 1201, true)];
  }

  lemma Extended(t: Task, steps: seq<Step>, e: Step)
    ensures After(t, steps + [e]) == Apply(After(t, steps), e)
  {
    assert (steps + [e])[..|steps + [e]| - 1] == steps;
  }

  // ------------------------------------------------------- what the row then holds

  /** A time of day at which analyses run: up to 8:00 or from 20:00. */
  predicate RunTime(hh: int, mm: int) {
    0 <= hh < 24 && 0 <= mm < 60 && (hh < 8 || hh >= 20 || (hh == 8 && mm == 0))
  }

  predicate Refused(e: Edit) {
    || (e.horizon.Some? && e.horizon.value != "short" && e.horizon.value != "medium")
    || (e.triggerTime.Some? && !RunTime(e.triggerTime.value.0, e.triggerTime.value.1))
  }

  /** The time has come when the clock shows the task's time or a later one, 20:00 if it has none. */
  predicate Come(row: Row, now: Minute) {
    (row.triggerTime.Some? ==> row.triggerTime.value <= now) && (row.triggerTime.None? ==> 1200 <= now)
  }

  /** What a step makes of a row, field by field: activity, horizon, time, last day, status,
      report, failures. `day` is the day it speaks of. */
  function Written(r: Row, e: Step, day: Option<Day>): Row {
    match e
    case Tick(_, now, tradingDay) =>
      if tradingDay && (now <= 480 || now >= 1200) && r.isActive && r.lastRunDate != day && Come(r, now)
      then Row(r.isActive, r.horizon, r.triggerTime, day, Some(Running), r.lastReportId, r.consecutiveFailures) else r
    case Record(_, ok, report) =>
      if day.None? then r
      else if ok then Row(r.isActive, r.horizon, r.triggerTime, day, Some(Success), Some(report), 0)
      else Row(r.isActive && r.consecutiveFailures < 2, r.horizon, r.triggerTime, day, Some(Failure), r.lastReportId,
               r.consecutiveFailures + 1)
    case Test(status, report) =>
      Row(r.isActive, r.horizon, r.triggerTime, r.lastRunDate, Some(status),
          if report == "" then r.lastReportId else Some(report), if status == Success then 0 else r.consecutiveFailures)
    case Change(edit) =>
      if Refused(edit) then r else
        Row(if edit.isActive.None? then r.isActive else edit.isActive.value,
            if edit.horizon.None? then r.horizon else edit.horizon.value,
            if edit.triggerTime.None? then r.triggerTime else Some(edit.triggerTime.value.0 * 60 + edit.triggerTime.value.1),
            r.lastRunDate, r.lastRunStatus, r.lastReportId, if edit.isActive == Some(true) then 0 else r.consecutiveFailures)
    case _ => r
  }

  /** The day a step speaks of: today, or that of the run whose result comes in. */
  function DayOf(t: Task, e: Step): Option<Day> {
    match e
    case Tick(later, _, _) => Some(t.today + later)
    case Record(i, _, _) => if i < |t.runs| then Some(t.runs[i]) else None
    case _ => None
  }

  lemma EditedIsWritten(r: Row, e: Edit)
    ensures (if Edited(r, e).Some? then Edited(r, e).value else r) == Written(r, Change(e), None)
  {
  }

  lemma TickIsWritten(t: Task, e: Step)
    requires t.row.Some? && e.Tick?
    ensures Apply(t, e).row == Some(Written(t.row.value, e, Some(t.today + e.later)))
  {
    var r, day := t.row.value, Some(t.today + e.later);
    assert ClaimsAt(t, e) <==>
      e.tradingDay && (e.now <= 480 || e.now >= 1200) && r.isActive && r.lastRunDate != day && Come(r, e.now);
  }

  lemma RecordIsWritten(t: Task, e: Step)
    requires t.row.Some? && e.Record?
    ensures Apply(t, e).row == Some(Written(t.row.value, e, DayOf(t, e)))
  {
  }

  lemma TestIsWritten(t: Task, e: Step)
    requires t.row.Some? && e.Test?
    ensures Apply(t, e).row == Some(Written(t.row.value, e, None))
  {
  }

  lemma ChangeIsWritten(t: Task, e: Step)
    requires t.row.Some? && e.Change?
    ensures Apply(t, e).row == Some(Written(t.row.value, e, None))
  {
    EditedIsWritten(t.row.value, e.edit);
  }

  /** After any steps, a further one leaves in the row exactly what it has to, and a deletion
      leaves none. */
  lemma RowIsWritten(t: Task, steps: seq<Step>, e: Step)
    requires After(t, steps).row.Some?
    ensures var u := After(t, steps);
      After(t, steps + [e]).row == if e.Delete? then None else Some(Written(u.row.value, e, DayOf(u, e)))
  {
    Extended(t, steps, e);
    var u := After(t, steps);
    match e
    case Tick(_, _, _) => TickIsWritten(u, e);
    case Record(_, _, _) => RecordIsWritten(u, e);
    case Test(_, _) => TestIsWritten(u, e);
    case Change(_) => ChangeIsWritten(u, e);
    case _ =>
  }

  /** A step that writes a report: an accepted success, or a test that names one. */
  predicate WritesReport(t: Task, e: Step) {
    t.row.Some? && ((e.Record? && e.ok && e.run < |t.runs|) || (e.Test? && e.report != ""))
  }

  function ReportOf(e: Step): string { if e.Record? || e.Test? then e.report else "" }

  /** A step that writes a status: a claim, a result or a test. */
  predicate WritesStatus(t: Task, e: Step) {
    t.row.Some? && (ClaimsAt(t, e) || (e.Record? && e.run < |t.runs|) || e.Test?)
  }

  function StatusOf(e: Step): RunStatus {
    if e.Record? then (if e.ok then Success else Failure) else if e.Test? then e.status else Running
  }

  /** The report and the status of a row are those of the last step that wrote one, whatever else
      has happened, and none as long as no step has. */
  lemma {:induction false} LastWriteStays(t: Task, steps: seq<Step>)
    requires New(t) && t.row.value.lastReportId == None && t.row.value.lastRunStatus == None
    ensures var u := After(t, steps);
      u.row.Some? ==> u.row.value.lastReportId == LastReport(t, steps) && u.row.value.lastRunStatus == LastStatus(t, steps)
  {
    if steps != [] {
      var init, e := steps[..|steps| - 1], steps[|steps| - 1];
      LastWriteStays(t, init);
      assert steps == init + [e];
      if After(t, init).row.Some? { RowIsWritten(t, init, e); }
    }
  }

  function LastReport(t: Task, steps: seq<Step>): Option<string> {
    if steps == [] then None else
      var init, e := steps[..|steps| - 1], steps[|steps| - 1];
      if WritesReport(After(t, init), e) then Some(ReportOf(e)) else LastReport(t, init)
  }

  function LastStatus(t: Task, steps: seq<Step>): Option<RunStatus> {
    if steps == [] then None else
      var init, e := steps[..|steps| - 1], steps[|steps| - 1];
      if WritesStatus(After(t, init), e) then Some(StatusOf(e)) else LastStatus(t, init)
  }

  // ------------------------------------------------------------ failure counters

  function CountFailed(log: seq<Outcome>): nat {
    if log == [] then 0 else CountFailed(log[..|log| - 1]) + if log[|log| - 1] == Failed then 1 else 0
  }

  /** `k` is where the stretch since the last reset begins. */
  predicate SinceReset(log: seq<Outcome>, k: nat) {
    && k <= |log| && (k > 0 ==> log[k - 1] == Reset)
    && forall i :: k <= i < |log| ==> log[i] != Reset
  }

  ghost predicate Tallies(log: seq<Outcome>, failures: int) {
    forall k: nat :: SinceReset(log, k) ==> failures == CountFailed(log[k..])
  }

  ghost predicate Counted(t: Task) {
    t.row.Some? ==>
      && Tallies(t.log, t.row.value.consecutiveFailures)
      && (t.row.value.isActive ==> t.row.value.consecutiveFailures <= 2)
  }

  lemma SinceResetUnique(log: seq<Outcome>, k: nat)
    requires SinceReset(log, k)
    ensures forall m: nat :: SinceReset(log, m) ==> m == k
  {
  }

  lemma {:induction false} SinceResetExists(log: seq<Outcome>) returns (k: nat)
    ensures SinceReset(log, k)
  {
    if log == [] {
      k := 0;
    } else if log[|log| - 1] == Reset {
      k := |log|;
    } else {
      k := SinceResetExists(log[..|log| - 1]);
      assert forall i :: 0 <= i < |log| - 1 ==> log[..|log| - 1][i] == log[i];
    }
  }

  lemma CountReset(log: seq<Outcome>, k: nat)
    requires SinceReset(log + [Reset], k)
    ensures CountFailed((log + [Reset])[k..]) == 0
  {
    var more := log + [Reset];
    assert more[|log|] == Reset;
    assert k == |more|;
  }

  lemma CountFailure(log: seq<Outcome>, k: nat)
    requires SinceReset(log + [Failed], k)
    ensures SinceReset(log, k) && CountFailed((log + [Failed])[k..]) == CountFailed(log[k..]) + 1
  {
    var more := log + [Failed];
    assert more[|log|] == Failed;
    assert k <= |log|;
    assert forall i :: 0 <= i < |log| ==> more[i] == log[i];
    var tail := more[k..];
    assert tail[|tail| - 1] == Failed && tail[..|tail| - 1] == log[k..];
  }

  /** The counter after one more outcome. */
  lemma OutcomeCounted(log: seq<Outcome>, failures: int, o: Outcome)
    requires Tallies(log, failures)
    ensures Tallies(log + [o], if o == Failed then failures + 1 else 0)
  {
    forall k: nat | SinceReset(log + [o], k)
      ensures CountFailed((log + [o])[k..]) == if o == Failed then failures + 1 else 0
    {
      if o == Failed { CountFailure(log, k); } else { CountReset(log, k); }
    }
  }

  /** What a step logs, and what it makes of the counter and the activity. */
  lemma StepLogs(t: Task, e: Step) returns (o: Option<Outcome>)
    requires Apply(t, e).row.Some?
    ensures t.row.Some?
    ensures var u := Apply(t, e);
      if o.None? then
        && u.log == t.log && u.row.value.consecutiveFailures == t.row.value.consecutiveFailures
        && (u.row.value.isActive ==> t.row.value.isActive)
      else
        && u.log == t.log + [o.value]
        && u.row.value.consecutiveFailures == (if o.value == Failed then t.row.value.consecutiveFailures + 1 else 0)
        && (u.row.value.isActive ==> u.row.value.consecutiveFailures <= 2)
  {
    var u := Apply(t, e);
    o := if u.log == t.log then None else Some(u.log[|u.log| - 1]);
  }

  lemma StepCounted(t: Task, e: Step)
    requires Counted(t)
    ensures Counted(Apply(t, e))
  {
    if Apply(t, e).row.Some? {
      var o := StepLogs(t, e);
      if o.Some? { OutcomeCounted(t.log, t.row.value.consecutiveFailures, o.value); }
    }
  }

  lemma {:induction false} AlwaysCounted(t: Task, steps: seq<Step>)
    requires New(t)
    ensures Counted(After(t, steps))
  {
    if steps == [] {
      assert forall k: nat :: SinceReset(t.log, k) ==> t.log[k..] == [];
    } else {
      AlwaysCounted(t, steps[..|steps| - 1]);
      StepCounted(After(t, steps[..|steps| - 1]), steps[|steps| - 1]);
    }
  }

  /** The counter is the number of scheduled failures since the last success, manual success
      or reactivation, and an active task has at most two of them. */
  lemma FailuresSinceReset(t: Task, steps: seq<Step>) returns (k: nat)
    requires New(t)
    ensures var u := After(t, steps);
      && SinceReset(u.log, k) && (forall m: nat :: SinceReset(u.log, m) ==> m == k)
      && (u.row.Some? ==> u.row.value.consecutiveFailures == CountFailed(u.log[k..]))
      && (u.row.Some? && u.row.value.isActive ==> CountFailed(u.log[k..]) <= 2)
  {
    AlwaysCounted(t, steps);
    k := SinceResetExists(After(t, steps).log);
    SinceResetUnique(After(t, steps).log, k);
  }

  /** No step but a user's edit and the third failure in a row changes the activity of a task. */
  lemma ThirdFailureDeactivates(t: Task, steps: seq<Step>, e: Step)
    requires New(t) && !e.Change? && !e.Delete?
    requires After(t, steps).row.Some?
    ensures var u := After(t, steps);
      Apply(u, e).row.Some? &&
      (Apply(u, e).row.value.isActive <==>
        u.row.value.isActive && !(e.Record? && e.run < |u.runs| && !e.ok && u.row.value.consecutiveFailures == 2))
  {
    AlwaysCounted(t, steps);
  }

  predicate Reachable(t: Task) {
    t.row.Some? ==>
      t.row.value.triggerTime.Some? && 0 <= t.row.value.triggerTime.value < 24 * 60 && OutsideTheDay(t.row.value.triggerTime.value)
  }

  lemma StaysReachable(t: Task, e: Step)
    requires Reachable(t)
    ensures Reachable(Apply(t, e))
  {
  }

  lemma {:induction false} AlwaysReachable(t: Task, steps: seq<Step>)
    requires Reachable(t)
    ensures Reachable(After(t, steps))
  {
    if steps != [] {
      AlwaysReachable(t, steps[..|steps| - 1]);
      StaysReachable(After(t, steps[..|steps| - 1]), steps[|steps| - 1]);
    }
  }

  /** No validated time falls where the loop sleeps: at its own minute of a trading day an
      active task is claimed unless it already carries that day. */
  lemma DueIsClaimed(t: Task, steps: seq<Step>, later: nat)
    requires Reachable(t) && After(t, steps).row.Some?
    ensures var u, row := After(t, steps), After(t, steps).row.value;
      ClaimsAt(u, Tick(later, TriggerOf(row), true)) <==> row.isActive && row.lastRunDate != Some(u.today + later)
  {
    AlwaysReachable(t, steps);
  }
}
