/**
 The in-memory job store, for calls made on the event loop: job records, one bounded
 event queue a job, and the timers that drop a finished job after its time to live.
 */
module JobStore {
  import opened Helpers

  type JobId = string
  type Handle = nat    // identity of a timer handle

  /** The `status` keyword of one update: not passed, passed as None, or a status. */
  datatype StatusArg = Absent | Null | Given(status: string)

  const TERMINAL_STATUSES: set<string> := {"completed", "failed"}

  predicate Terminal(arg: StatusArg) { arg.Given? && arg.status in TERMINAL_STATUSES }

  // ---------------------------------------------------------- bounded queue

  /** `_put_with_overflow`: a full queue loses its oldest event. `cap <= 0` means unbounded. */
  function Put<E>(queue: seq<E>, cap: int, e: E): seq<E> {
    if cap <= 0 || |queue| < cap then queue + [e]
    else if |queue| == 0 then queue
    else queue[1..] + [e]
  }

  class EventQueue<E> {
    var items: seq<E>
    const cap: int

    constructor (cap: int)
      ensures items == [] && this.cap == cap
    {
      this.items, this.cap := [], cap;
    }

    method PutNowait(e: E) returns (full: bool)
      modifies this
      ensures full == (cap > 0 && |old(items)| >= cap)
      ensures items == if full then old(items) else old(items) + [e]
    {
      full := cap > 0 && |items| >= cap;
      if !full { items := items + [e]; }
    }

    method GetNowait() returns (e: Option<E>)
      modifies this
      ensures old(items) == [] ==> e == None && items == []
      ensures old(items) != [] ==> e == Some(old(items)[0]) && items == old(items)[1..]
    {
      if items == [] { return None; }
      e, items := Some(items[0]), items[1..];
    }

    method PutWithOverflow(e: E)
      requires cap > 0 ==> |items| <= cap
      modifies this
      ensures items == Put(old(items), cap, e)
    {
      var full := PutNowait(e);
      if full {
        var oldest := GetNowait();
        full := PutNowait(e);
      }
    }
  }

  /** What happens to one queue between emitter and subscriber. */
  datatype QueueOp<E> = Emit(e: E) | Take

  /** `emitted` and `taken` are the events of a run so far; `at[i]` says which emission `taken[i]` was. */
  datatype QueueRun<E> = QueueRun(emitted: seq<E>, queue: seq<E>, taken: seq<E>, at: seq<nat>)

  function Act<E>(r: QueueRun<E>, cap: int, op: QueueOp<E>): QueueRun<E> {
    match op
    case Emit(e) => r.(emitted := r.emitted + [e], queue := Put(r.queue, cap, e))
    case Take =>
      if r.queue == [] then r else
        r.(queue := r.queue[1..], taken := r.taken + [r.queue[0]], at := r.at + [IndexOfOldest(r)])
  }

  function Operate<E>(ops: seq<QueueOp<E>>, cap: int): QueueRun<E> {
    if ops == [] then QueueRun([], [], [], []) else Act(Operate(ops[..|ops| - 1], cap), cap, ops[|ops| - 1])
  }

  /** The oldest queued event was emitted this long ago. */
  function IndexOfOldest<E>(r: QueueRun<E>): nat {
    if |r.queue| <= |r.emitted| then |r.emitted| - |r.queue| else 0
  }

  /** The queue is the newest part of what was emitted, within its cap. */
  ghost predicate Newest<E>(r: QueueRun<E>, cap: int) {
    && |r.queue| <= |r.emitted| && r.queue == r.emitted[|r.emitted| - |r.queue|..]
    && (cap > 0 ==> |r.queue| <= cap)
  }

  /** The takes are an ordered selection of what was emitted before the queue's events. */
  ghost predicate Selected<E>(r: QueueRun<E>) {
    && |r.at| == |r.taken|
    && (forall i :: 0 <= i < |r.at| ==> r.at[i] < |r.emitted| - |r.queue| && r.taken[i] == r.emitted[r.at[i]])
    && (forall i, j :: 0 <= i < j < |r.at| ==> r.at[i] < r.at[j])
  }

  lemma PutKeepsNewest<E>(emitted: seq<E>, queue: seq<E>, cap: int, e: E)
    requires |queue| <= |emitted| && queue == emitted[|emitted| - |queue|..] && (cap > 0 ==> |queue| <= cap)
    ensures var after := Put(queue, cap, e);
      && |queue| <= |after| + 1 && |after| <= |queue| + 1
      && after == (emitted + [e])[|emitted| + 1 - |after|..] && (cap > 0 ==> |after| <= cap)
  {
  }

  lemma ActKeepsNewest<E>(r: QueueRun<E>, cap: int, op: QueueOp<E>)
    requires Newest(r, cap)
    ensures Newest(Act(r, cap, op), cap)
    ensures |Act(r, cap, op).emitted| - |Act(r, cap, op).queue| >= |r.emitted| - |r.queue|
  {
    if op.Emit? { PutKeepsNewest(r.emitted, r.queue, cap, op.e); }
  }

  lemma ActKeepsSelected<E>(r: QueueRun<E>, cap: int, op: QueueOp<E>)
    requires Newest(r, cap) && Selected(r)
    ensures Selected(Act(r, cap, op))
  {
    ActKeepsNewest(r, cap, op);
  }

  /** Over every interleaving of emits and takes. */
  lemma {:induction false} QueueKeepsNewest<E>(ops: seq<QueueOp<E>>, cap: int)
    ensures Newest(Operate(ops, cap), cap) && Selected(Operate(ops, cap))
  {
    if ops != [] {
      QueueKeepsNewest(ops[..|ops| - 1], cap);
      ActKeepsNewest(Operate(ops[..|ops| - 1], cap), cap, ops[|ops| - 1]);
      ActKeepsSelected(Operate(ops[..|ops| - 1], cap), cap, ops[|ops| - 1]);
    }
  }

  predicate NeverFull<E>(ops: seq<QueueOp<E>>, cap: int) {
    forall n :: 0 <= n < |ops| && ops[n].Emit? ==> cap <= 0 || |Operate(ops[..n], cap).queue| < cap
  }

  lemma NeverFullStep<E>(ops: seq<QueueOp<E>>, cap: int)
    requires ops != []
    ensures var init := ops[..|ops| - 1];
      NeverFull(ops, cap) <==>
        NeverFull(init, cap) && (ops[|ops| - 1].Emit? ==> cap <= 0 || |Operate(init, cap).queue| < cap)
  {
    var init := ops[..|ops| - 1];
    assert forall n :: 0 <= n < |init| ==> ops[..n] == init[..n] && ops[n] == init[n];
    if NeverFull(ops, cap) {
      assert NeverFull(init, cap);
    }
  }

  /** Takes and queue are all that was emitted; or they fall short of it. */
  ghost predicate Whole<E>(r: QueueRun<E>) { r.taken + r.queue == r.emitted }

  predicate Short<E>(r: QueueRun<E>) { |r.taken| + |r.queue| < |r.emitted| }

  lemma RoomyEmit<E>(r: QueueRun<E>, cap: int, e: E)
    requires cap <= 0 || |r.queue| < cap
    ensures Whole(r) ==> Whole(Act(r, cap, Emit(e)))
    ensures Short(r) ==> Short(Act(r, cap, Emit(e)))
  {
    assert r.taken + (r.queue + [e]) == (r.taken + r.queue) + [e];
  }

  lemma FullEmit<E>(r: QueueRun<E>, cap: int, e: E)
    requires cap > 0 && |r.queue| >= cap && (Whole(r) || Short(r))
    ensures Short(Act(r, cap, Emit(e)))
  {
    if Whole(r) { assert |r.taken| + |r.queue| == |r.emitted|; }
  }

  lemma TakeOfRun<E>(r: QueueRun<E>, cap: int)
    ensures Whole(r) ==> Whole(Act(r, cap, Take))
    ensures Short(r) ==> Short(Act(r, cap, Take))
  {
    if r.queue != [] {
      assert r.queue == [r.queue[0]] + r.queue[1..];
      assert (r.taken + [r.queue[0]]) + r.queue[1..] == r.taken + ([r.queue[0]] + r.queue[1..]);
    }
  }

  lemma {:induction false} WholeOrShort<E>(ops: seq<QueueOp<E>>, cap: int)
    ensures if NeverFull(ops, cap) then Whole(Operate(ops, cap)) else Short(Operate(ops, cap))
  {
    if ops != [] {
      var r, op := Operate(ops[..|ops| - 1], cap), ops[|ops| - 1];
      WholeOrShort(ops[..|ops| - 1], cap);
      NeverFullStep(ops, cap);
      if op.Take? {
        TakeOfRun(r, cap);
      } else if cap <= 0 || |r.queue| < cap {
        RoomyEmit(r, cap, op.e);
      } else {
        FullEmit(r, cap, op.e);
      }
    }
  }

  /** Nothing is lost exactly as long as no event met a full queue. */
  lemma NothingLost<E>(ops: seq<QueueOp<E>>, cap: int)
    ensures Operate(ops, cap).taken + Operate(ops, cap).queue == Operate(ops, cap).emitted <==> NeverFull(ops, cap)
    ensures |Operate(ops, cap).taken| + |Operate(ops, cap).queue| <= |Operate(ops, cap).emitted|
    ensures |Operate(ops, cap).taken| + |Operate(ops, cap).queue| == |Operate(ops, cap).emitted| ==> NeverFull(ops, cap)
  {
    WholeOrShort(ops, cap);
    var r := Operate(ops, cap);
    if Whole(r) { assert |r.taken| + |r.queue| == |r.emitted|; }
  }

  /** One more emit or take: an emit puts its event behind the others and, into a full queue, costs
      the oldest one; a take hands over the oldest, if there is one. */
  lemma QueueTells<E>(ops: seq<QueueOp<E>>, cap: int, op: QueueOp<E>)
    ensures var r, after := Operate(ops, cap), Operate(ops + [op], cap);
      match op
      case Emit(e) =>
        && after.emitted == r.emitted + [e] && after.taken == r.taken
        && after.queue == (if cap > 0 && |r.queue| >= cap then r.queue[1..] else r.queue) + [e]
      case Take =>
        && after.emitted == r.emitted
        && after.taken + after.queue == r.taken + r.queue
        && |after.taken| == |r.taken| + if r.queue == [] then 0 else 1
  {
    assert (ops + [op])[..|ops + [op]| - 1] == ops;
    QueueKeepsNewest(ops, cap);
  }

  /** How many emits have met a full queue. */
  function Overflows<E>(ops: seq<QueueOp<E>>, cap: int): nat {
    if ops == [] then 0 else
      var init := ops[..|ops| - 1];
      Overflows(init, cap) + if ops[|ops| - 1].Emit? && cap > 0 && |Operate(init, cap).queue| >= cap then 1 else 0
  }

  lemma PutLoses<E>(queue: seq<E>, cap: int, e: E)
    requires cap > 0 ==> |queue| <= cap
    ensures |Put(queue, cap, e)| == |queue| + 1 - if cap > 0 && |queue| >= cap then 1 else 0
  {
  }

  /** Every event is taken, queued or lost, and each emit that meets a full queue loses one. */
  lemma {:induction false} EachOverflowLosesOne<E>(ops: seq<QueueOp<E>>, cap: int)
    ensures var r := Operate(ops, cap); |r.emitted| == |r.taken| + |r.queue| + Overflows(ops, cap)
  {
    if ops != [] {
      var init, op := ops[..|ops| - 1], ops[|ops| - 1];
      EachOverflowLosesOne(init, cap);
      QueueKeepsNewest(init, cap);
      if op.Emit? { PutLoses(Operate(init, cap).queue, cap, op.e); }
    }
  }

  // ---------------------------------------------------- records and timers

  /** The job table and the timers; `timers` are the callbacks the event loop still holds. */
  datatype Table = Table(
    jobs: map<JobId, map<string, string>>,
    status: map<JobId, StatusArg>,
    handles: map<JobId, Handle>,
    timers: map<Handle, JobId>,
    nextHandle: Handle)

  function CancelCleanup(t: Table, job: JobId): Table {
    if job in t.handles then t.(handles := t.handles - {job}, timers := t.timers - {t.handles[job]}) else t
  }

  function Arm(t: Table, job: JobId): Table {
    t.(handles := t.handles[job := t.nextHandle], timers := t.timers[t.nextHandle := job], nextHandle := t.nextHandle + 1)
  }

  function Record(t: Table, job: JobId, status: StatusArg, fields: map<string, string>): Table {
    t.(jobs := t.jobs[job := (if job in t.jobs then t.jobs[job] else map[]) + fields],
       status := if status.Absent? then t.status else t.status[job := status])
  }

  function AfterSet(t: Table, job: JobId, status: StatusArg, fields: map<string, string>): Table {
    var r := Record(t, job, status, fields);
    if Terminal(status) then Arm(CancelCleanup(r, job), job)
    else if status.Given? then CancelCleanup(r, job)
    else r
  }

  function Forget(t: Table, job: JobId): Table { t.(jobs := t.jobs - {job}, status := t.status - {job}) }

  function AfterDelete(t: Table, job: JobId): Table { CancelCleanup(Forget(t, job), job) }

  function AfterClear(t: Table): Table {
    t.(jobs := map[], status := map[], handles := map[],
       timers := map h | h in t.timers && h !in t.handles.Values :: t.timers[h])
  }

  /** The loop runs a timer's callback, which forgets the job and its handle. */
  function AfterFire(t: Table, h: Handle): Table
    requires h in t.timers
  {
    var job := t.timers[h];
    Forget(t, job).(handles := t.handles - {job}, timers := t.timers - {h})
  }

  class InMemoryJobStore {
    var jobs: map<JobId, map<string, string>>
    var status: map<JobId, StatusArg>
    var cleanupHandles: map<JobId, Handle>
    // The event loop's side of the timers.
    var timers: map<Handle, JobId>
    var nextHandle: Handle

    ghost function View(): Table
      reads this
    {
      Table(jobs, status, cleanupHandles, timers, nextHandle)
    }

    constructor ()
      ensures View() == Table(map[], map[], map[], map[], 0)
    {
      jobs, status, cleanupHandles, timers, nextHandle := map[], map[], map[], map[], 0;
    }

    method SetJob(job: JobId, newStatus: StatusArg, fields: map<string, string>)
      modifies this
      ensures View() == AfterSet(old(View()), job, newStatus, fields)
    {
      Update(job, newStatus, fields);
      if Terminal(newStatus) {
        ScheduleCleanup(job);
      } else if newStatus.Given? {
        CancelCleanupOf(job);
      }
    }

    /** The part of `set_job` under the lock: merge semantics. */
    method Update(job: JobId, newStatus: StatusArg, fields: map<string, string>)
      modifies this
      ensures View() == Record(old(View()), job, newStatus, fields)
    {
      var record := if job in jobs then jobs[job] else map[];
      jobs := jobs[job := record + fields];
      if !newStatus.Absent? { status := status[job := newStatus]; }
    }

    method CancelCleanupOf(job: JobId)
      modifies this
      ensures View() == CancelCleanup(old(View()), job)
    {
      if job in cleanupHandles {
        var handle := cleanupHandles[job];
        cleanupHandles := cleanupHandles - {job};
        timers := timers - {handle};
      }
    }

    method ScheduleCleanup(job: JobId)
      modifies this
      ensures View() == Arm(CancelCleanup(old(View()), job), job)
    {
      CancelCleanupOf(job);
      timers := timers[nextHandle := job];
      cleanupHandles := cleanupHandles[job := nextHandle];
      nextHandle := nextHandle + 1;
    }

    method DeleteJob(job: JobId)
      modifies this
      ensures View() == AfterDelete(old(View()), job)
    {
      jobs := jobs - {job};
      status := status - {job};
      CancelCleanupOf(job);
    }

    method Clear()
      modifies this
      ensures View() == AfterClear(old(View()))
    {
      jobs, status := map[], map[];
      var handles := cleanupHandles.Values;
      cleanupHandles := map[];
      timers := map h | h in timers && h !in handles :: timers[h];
    }

    /** `_do_cleanup`, run by the loop when the timer is due. */
    method Fire(h: Handle)
      requires h in timers
      modifies this
      ensures View() == AfterFire(old(View()), h)
    {
      var job := timers[h];
      timers := timers - {h};
      jobs := jobs - {job};
      status := status - {job};
      cleanupHandles := cleanupHandles - {job};
    }
  }

  // -------------------------------------------------------------- whole runs

  datatype Op =
    | SetJob(job: JobId, status: StatusArg, fields: map<string, string>)
    | DeleteJob(job: JobId)
    | Clear
    | Fire(handle: Handle)

  /** A timer can only fire while the loop holds it; anything else is a no-op here. */
  function After(t: Table, op: Op): Table {
    match op
    case SetJob(job, status, fields) => AfterSet(t, job, status, fields)
    case DeleteJob(job) => AfterDelete(t, job)
    case Clear => AfterClear(t)
    case Fire(h) => if h in t.timers then AfterFire(t, h) else t
  }

  function RunOps(ops: seq<Op>): Table {
    if ops == [] then Table(map[], map[], map[], map[], 0) else After(RunOps(ops[..|ops| - 1]), ops[|ops| - 1])
  }

  /** The last status the history gave `job` since it was last deleted, cleared or dropped. */
  function LastStatus(ops: seq<Op>, job: JobId): Option<string> {
    if ops == [] then None else
      var init := ops[..|ops| - 1];
      match ops[|ops| - 1]
      case SetJob(j, status, _) => if j == job && status.Given? then Some(status.status) else LastStatus(init, job)
      case DeleteJob(j) => if j == job then None else LastStatus(init, job)
      case Clear => None
      case Fire(h) =>
        if h in RunOps(init).timers && RunOps(init).timers[h] == job then None else LastStatus(init, job)
  }

  /** The table's handles and the loop's timers are the two directions of one bijection. */
  ghost predicate Paired(t: Table) {
    && (forall job :: job in t.handles ==> t.handles[job] in t.timers && t.timers[t.handles[job]] == job)
    && (forall h :: h in t.timers ==> t.timers[h] in t.handles && t.handles[t.timers[h]] == h)
    && (forall h :: h in t.timers ==> h < t.nextHandle)
  }

  lemma CancelPaired(t: Table, job: JobId)
    requires Paired(t)
    ensures Paired(CancelCleanup(t, job)) && CancelCleanup(t, job).handles.Keys == t.handles.Keys - {job}
  {
  }

  lemma ArmPaired(t: Table, job: JobId)
    requires Paired(t) && job !in t.handles
    ensures Paired(Arm(t, job))
  {
  }

  lemma ClearPaired(t: Table)
    requires Paired(t)
    ensures Paired(AfterClear(t))
  {
    forall h | h in t.timers ensures h in t.handles.Values { assert t.handles[t.timers[h]] == h; }
  }

  lemma FirePaired(t: Table, h: Handle)
    requires Paired(t) && h in t.timers
    ensures Paired(AfterFire(t, h))
  {
  }

  lemma StepPaired(t: Table, op: Op)
    requires Paired(t)
    ensures Paired(After(t, op))
  {
    match op
    case SetJob(job, status, fields) =>
      var r := Record(t, job, status, fields);
      CancelPaired(r, job);
      if Terminal(status) { ArmPaired(CancelCleanup(r, job), job); }
    case DeleteJob(job) => CancelPaired(Forget(t, job), job);
    case Clear => ClearPaired(t);
    case Fire(h) => if h in t.timers { FirePaired(t, h); }
  }

  ghost predicate ArmedRight(ops: seq<Op>, job: JobId) {
    job in RunOps(ops).handles <==> HasTerminal(LastStatus(ops, job))
  }

  predicate HasTerminal(last: Option<string>) { last == Some("completed") || last == Some("failed") }

  lemma SetArms(t: Table, job: JobId, status: StatusArg, fields: map<string, string>, other: JobId)
    ensures other in AfterSet(t, job, status, fields).handles <==>
      if other == job && status.Given? then Terminal(status) else other in t.handles
  {
    var r := Record(t, job, status, fields);
    assert r.handles == t.handles;
  }

  lemma {:induction false} ArmedIffTerminal(ops: seq<Op>, job: JobId)
    ensures Paired(RunOps(ops)) && ArmedRight(ops, job)
  {
    if ops != [] {
      var init, op := ops[..|ops| - 1], ops[|ops| - 1];
      ArmedIffTerminal(init, job);
      StepPaired(RunOps(init), op);
      if op.SetJob? { SetArms(RunOps(init), op.job, op.status, op.fields, job); }
    }
  }

  /** Over every history, a job has at most one live timer, and it has one exactly when its
      last status-bearing update was terminal and it was not dropped since. */
  lemma OneTimerIffTerminal(ops: seq<Op>, job: JobId)
    ensures Paired(RunOps(ops)) && ArmedRight(ops, job)
    ensures var timers := RunOps(ops).timers;
      forall h, g :: h in timers && g in timers && timers[h] == timers[g] ==> h == g
  {
    ArmedIffTerminal(ops, job);
  }

  /** Every terminal update starts the time to live afresh: the job's timer is a new one, and an
      earlier one is gone. */
  lemma TerminalUpdateRestarts(ops: seq<Op>, job: JobId, status: string, fields: map<string, string>)
    requires status == "completed" || status == "failed"
    ensures var before, after := RunOps(ops), RunOps(ops + [SetJob(job, Given(status), fields)]);
      && job in after.handles && after.handles[job] in after.timers && after.handles[job] !in before.timers
      && (job in before.handles ==> before.handles[job] !in after.timers)
      && forall other :: other != job && other in before.handles ==>
           other in after.handles && after.handles[other] == before.handles[other]
  {
    var op := SetJob(job, Given(status), fields);
    assert (ops + [op])[..|ops + [op]| - 1] == ops;
    OneTimerIffTerminal(ops, job);
    OneTimerIffTerminal(ops + [op], job);
  }

  /** A timer that fires drops a job whose latest status is terminal, and no other job. */
  lemma FiringIsSafe(ops: seq<Op>, h: Handle, other: JobId)
    requires h in RunOps(ops).timers
    ensures var job := RunOps(ops).timers[h];
      && HasTerminal(LastStatus(ops, job))
      && job !in RunOps(ops + [Fire(h)]).jobs
      && (other != job && other in RunOps(ops).jobs ==>
            other in RunOps(ops + [Fire(h)]).jobs && RunOps(ops + [Fire(h)]).jobs[other] == RunOps(ops).jobs[other])
  {
    OneTimerIffTerminal(ops, RunOps(ops).timers[h]);
    assert (ops + [Fire(h)])[..|ops|] == ops;
  }

  /** A status as stored against the last one given. */
  predicate StatusOf(t: Table, job: JobId, last: Option<string>) {
    if last.Some? then job in t.status && (t.status[job] == Null || t.status[job] == Given(last.value))
    else job !in t.status || t.status[job] == Null
  }

  lemma SetStatusOf(t: Table, job: JobId, status: StatusArg, fields: map<string, string>, other: JobId, last: Option<string>)
    requires StatusOf(t, other, last)
    ensures StatusOf(AfterSet(t, job, status, fields), other,
                     if job == other && status.Given? then Some(status.status) else last)
  {
    var r := Record(t, job, status, fields);
    assert AfterSet(t, job, status, fields).status == r.status;
  }

  /** The stored status is the last one given, unless a later update stored None over it. */
  lemma {:induction false} StoredStatus(ops: seq<Op>, job: JobId)
    ensures StatusOf(RunOps(ops), job, LastStatus(ops, job))
  {
    if ops != [] {
      var init, op := ops[..|ops| - 1], ops[|ops| - 1];
      StoredStatus(init, job);
      if op.SetJob? { SetStatusOf(RunOps(init), op.job, op.status, op.fields, job, LastStatus(init, job)); }
    }
  }

  /** The last value the history gave a field of `job` since it was last dropped. */
  function LastField(ops: seq<Op>, job: JobId, field: string): Option<string> {
    if ops == [] then None else
      var init := ops[..|ops| - 1];
      match ops[|ops| - 1]
      case SetJob(j, _, fields) => if j == job && field in fields then Some(fields[field]) else LastField(init, job, field)
      case DeleteJob(j) => if j == job then None else LastField(init, job, field)
      case Clear => None
      case Fire(h) =>
        if h in RunOps(init).timers && RunOps(init).timers[h] == job then None else LastField(init, job, field)
  }

  function StoredField(t: Table, job: JobId, field: string): Option<string> {
    if job in t.jobs && field in t.jobs[job] then Some(t.jobs[job][field]) else None
  }

  lemma SetMerges(t: Table, job: JobId, status: StatusArg, fields: map<string, string>, other: JobId, field: string)
    ensures StoredField(AfterSet(t, job, status, fields), other, field) ==
      if other == job && field in fields then Some(fields[field]) else StoredField(t, other, field)
  {
    var r := Record(t, job, status, fields);
    assert AfterSet(t, job, status, fields).jobs == r.jobs;
  }

  /** Updates merge: each field of a job is the last value given to it, whatever other updates
      did to other fields and other jobs. */
  lemma {:induction false} FieldsMerge(ops: seq<Op>, job: JobId, field: string)
    ensures StoredField(RunOps(ops), job, field) == LastField(ops, job, field)
  {
    if ops != [] {
      var init, op := ops[..|ops| - 1], ops[|ops| - 1];
      FieldsMerge(init, job, field);
      if op.SetJob? { SetMerges(RunOps(init), op.job, op.status, op.fields, job, field); }
    }
  }
}
