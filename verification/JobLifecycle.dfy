/**
 One analysis job on the event loop: the supervising coroutine `_run_job`, the workflow
 `_run_job_inner`, the bounded event queue and one subscriber. Coroutines interleave only
 where they await; each step below runs one coroutine from one await to the next. Which
 deadline passes when, how the workflow ends and when the subscriber runs is left open.
 */
module JobLifecycle {
  import JobStore

  datatype Status = Pending | Running | Completed | Failed

  datatype Event = RunningEvent | OvertimeEvent | Progress | CompletedEvent | FailedEvent

  predicate TerminalEvent(e: Event) { e.CompletedEvent? || e.FailedEvent? }

  predicate TerminalStatus(s: Status) { s.Completed? || s.Failed? }

  /** The workflow task. `Recording` awaits the database after the failed status was set
      and before `job.failed` is emitted. */
  datatype Inner = NotStarted | Initialising | Working | Recording | Returned | Raised | Cancelled

  predicate Done(i: Inner) { i.Returned? || i.Raised? || i.Cancelled? }

  /** The workflow has not reached its own failure handling, or can have. */
  predicate NeverFailed(i: Inner) { i.NotStarted? || i.Initialising? || i.Working? || i.Raised? }

  predicate MayHaveFailed(i: Inner) { i.Recording? || i.Cancelled? || i.Returned? }

  /** The supervisor: its two timed waits, the wait for the cancelled workflow, the plain wait. */
  datatype Outer = SoftWait | HardWait | CancelWait | InnerWait | Finished

  /** How the latest subscription ended: on a terminal event, by the client leaving, or on a poll
      that saw a terminal status, be it before the terminal event was emitted, with events still
      pending, or on a queue made after that event. */
  datatype Subscriber = Detached | Attached | EndedByEvent | EndedByPoll(early: bool, pending: bool, late: bool) | Left

  /** `JOB_TIMEOUT`, `JOB_HARD_TIMEOUT` and the queue's cap. */
  datatype Config = Config(soft: int, hard: int, cap: int)

  /** `rewound` records that the soft deadline fell while the workflow was `Recording`. */
  datatype Control = Control(status: Status, inner: Inner, cancelled: bool, outer: Outer, rewound: bool)

  /** A subscription that ends drops the queue, and the next emit or subscription makes another:
      `base` is how many events came before the queue there is, `since` how many before the
      queue of the latest subscription, `received` what that subscription has received. */
  datatype State = State(ctl: Control, log: seq<Event>, queue: seq<Event>, base: nat,
                         received: seq<Event>, since: nat, subscriber: Subscriber)

  datatype InitResult = InitError | LateError | DryRun | SetupError | Ready

  datatype WorkResult = Continue(events: nat) | Succeed | Fail

  datatype Step =
    | InnerStart(ok: bool)
    | InnerInit(init: InitResult)
    | InnerWork(work: WorkResult)
    | InnerRecord
    | InnerCancel
    | WakeSoft
    | WakeHard
    | WakeCancelled
    | WakeInner
    | Attach
    | Take
    | Poll
    | Leave

  // ---------------------------------------------------------------- transitions

  function Initial(c: Config): State {
    var outer := if c.soft > 0 then SoftWait else if c.hard > 0 then HardWait else InnerWait;
    State(Control(Pending, NotStarted, false, outer, false), [], [], 0, [], 0, Detached)
  }

  /** The terminal event of the call is out. */
  predicate Settled(t: Control) { t.inner == Returned || t.outer == Finished }

  /** When a coroutine can be resumed: a cancelled workflow gets the cancellation instead. */
  predicate MayResume(t: Control, e: Step) {
    match e
    case InnerStart(_) => !t.cancelled && t.inner == NotStarted
    case InnerInit(_) => !t.cancelled && t.inner == Initialising
    case InnerWork(_) => !t.cancelled && t.inner == Working
    case InnerRecord => !t.cancelled && t.inner == Recording
    case InnerCancel => t.cancelled && !Done(t.inner)
    case WakeSoft => t.outer == SoftWait
    case WakeHard => t.outer == HardWait
    case WakeCancelled => t.outer == CancelWait && Done(t.inner)
    case WakeInner => t.outer == InnerWait && Done(t.inner)
    case _ => true
  }

  predicate Enabled(s: State, e: Step) {
    && MayResume(s.ctl, e)
    && (e.Attach? ==> s.subscriber != Attached)
    && (e.Take? ==> s.subscriber == Attached && s.queue != [])
    && (e.Poll? || e.Leave? ==> s.subscriber == Attached)
  }

  /** Past the soft deadline the notice is skipped when the hard limit comes no later. */
  predicate GivesNotice(c: Config, t: Control) { !Done(t.inner) && (c.hard <= 0 || c.soft < c.hard) }

  /** From the start of the workflow to its first await after the status is written. */
  function Initialise(t: Control, init: InitResult): Control {
    match init
    case InitError => t.(inner := Raised)
    case LateError => t.(status := Running, inner := Raised)
    case DryRun => t.(status := Completed, inner := Returned)
    case SetupError => t.(status := Failed, inner := Recording)
    case Ready => t.(status := Running, inner := Working)
  }

  function Work(t: Control, work: WorkResult): Control {
    match work
    case Continue(_) => t
    case Succeed => t.(status := Completed, inner := Returned)
    case Fail => t.(status := Failed, inner := Recording)
  }

  function PassSoft(c: Config, t: Control): Control {
    var next := if c.hard > 0 then HardWait else InnerWait;
    if Done(t.inner) then t.(outer := InnerWait)
    else if !GivesNotice(c, t) then t.(outer := next)
    else t.(status := Running, rewound := t.rewound || t.inner == Recording, outer := next)
  }

  function PassHard(t: Control): Control {
    if Done(t.inner) then t.(outer := InnerWait) else t.(cancelled := true, outer := CancelWait)
  }

  function Report(t: Control): Control { t.(status := Failed, outer := Finished) }

  function End(t: Control): Control { if t.inner == Returned then t.(outer := Finished) else Report(t) }

  /** The status writes of a step and where it leaves the two tasks. */
  function Resume(c: Config, t: Control, e: Step): Control {
    match e
    case InnerStart(ok) => t.(inner := if ok then Initialising else Raised)
    case InnerInit(init) => Initialise(t, init)
    case InnerWork(work) => Work(t, work)
    case InnerRecord => t.(inner := Returned)
    case InnerCancel => t.(inner := Cancelled)
    case WakeSoft => PassSoft(c, t)
    case WakeHard => PassHard(t)
    case WakeCancelled => Report(t)
    case WakeInner => End(t)
    case _ => t
  }

  /** The events of a step, in order. */
  function Emits(c: Config, t: Control, e: Step): seq<Event> {
    match e
    case InnerInit(init) => InitEvents(init)
    case InnerWork(work) => WorkEvents(work)
    case InnerRecord => [FailedEvent]
    case WakeSoft => if GivesNotice(c, t) then [OvertimeEvent] else []
    case WakeCancelled => [FailedEvent]
    case WakeInner => if t.inner == Returned then [] else [FailedEvent]
    case _ => []
  }

  function InitEvents(init: InitResult): seq<Event> {
    if init.InitError? then [] else
      [RunningEvent] + (if init.LateError? then [] else [Progress]) + (if init.DryRun? then [CompletedEvent] else [])
  }

  function WorkEvents(work: WorkResult): seq<Event> {
    match work
    case Continue(n) => seq(n, _ => Progress)
    case Succeed => [CompletedEvent]
    case Fail => []
  }

  function PutAll(queue: seq<Event>, cap: int, es: seq<Event>): seq<Event> {
    if es == [] then queue else JobStore.Put(PutAll(queue, cap, es[..|es| - 1]), cap, es[|es| - 1])
  }

  /** A coroutine step; the subscription is untouched. */
  function RunCoroutine(c: Config, s: State, e: Step): State {
    var es := Emits(c, s.ctl, e);
    s.(ctl := Resume(c, s.ctl, e), log := s.log + es, queue := PutAll(s.queue, c.cap, es))
  }

  /** The end of a subscription. */
  function Drop(s: State, how: Subscriber): State { s.(subscriber := how, queue := [], base := |s.log|) }

  function TakeOne(s: State): State
    requires s.queue != []
  {
    var t := s.(received := s.received + [s.queue[0]], queue := s.queue[1..]);
    if TerminalEvent(s.queue[0]) then Drop(t, EndedByEvent) else t
  }

  /** A step of the subscription; `Poll` is `wait_for` reporting a timeout. */
  function RunSubscriber(s: State, e: Step): State {
    match e
    case Attach => s.(subscriber := Attached, received := [], since := s.base)
    case Take => if s.queue == [] then s else TakeOne(s)
    case Poll =>
      if !TerminalStatus(s.ctl.status) then s else
        Drop(s, EndedByPoll(!Settled(s.ctl), s.queue != [], Settled(s.ctl) && s.base == |s.log|))
    case Leave => Drop(s, Left)
    case _ => s
  }

  predicate OfSubscriber(e: Step) { e.Attach? || e.Take? || e.Poll? || e.Leave? }

  function Apply(c: Config, s: State, e: Step): State {
    if OfSubscriber(e) then RunSubscriber(s, e) else RunCoroutine(c, s, e)
  }

  // ------------------------------------------------------ events against tasks

  datatype Kind = Terminal | Overtime

  predicate Of(k: Kind, e: Event) { if k.Terminal? then TerminalEvent(e) else e.OvertimeEvent? }

  /** Where the events of a kind are. */
  function Places(k: Kind, log: seq<Event>): set<int> { set i | 0 <= i < |log| && Of(k, log[i]) }

  function Count(k: Kind, log: seq<Event>): nat { |Places(k, log)| }

  datatype Last = NoEvent | Other | LastCompleted | LastFailed

  function Named(e: Event): Last {
    if e.CompletedEvent? then LastCompleted else if e.FailedEvent? then LastFailed else Other
  }

  function LastOf(log: seq<Event>): Last { if log == [] then NoEvent else Named(log[|log| - 1]) }

  function Later(before: Last, added: Last): Last { if added.NoEvent? then before else added }

  /** Events and tasks: one terminal event, the last of all, exactly when the call is settled. */
  predicate EventsFit(c: Config, t: Control, terminals: int, overtimes: int, last: Last) {
    && (t.outer == SoftWait ==> c.soft > 0 && overtimes == 0)
    && overtimes <= 1
    && (t.outer == HardWait || t.outer == CancelWait ==> c.hard > 0)
    && (t.cancelled <==> t.outer == CancelWait || (t.outer == Finished && t.inner == Cancelled))
    && (t.inner == Cancelled ==> t.cancelled)
    && (t.cancelled ==> t.inner != Returned && t.inner != Raised)
    && (t.outer == Finished ==> Done(t.inner))
    && terminals == (if Settled(t) then 1 else 0)
    && (Settled(t) <==> last == LastCompleted || last == LastFailed)
  }

  /** Status, events and tasks: where the status may disagree with the events. */
  predicate StatusFits(t: Control, last: Last) {
    && (t.status == Completed <==> last == LastCompleted)
    && (last == LastCompleted ==> t.inner == Returned && !t.rewound)
    && (NeverFailed(t.inner) && t.outer != Finished ==> !TerminalStatus(t.status))
    && (NeverFailed(t.inner) ==> !t.rewound)
    && (t.inner == Recording || t.inner == Returned ==> t.status != Pending && (TerminalStatus(t.status) <==> !t.rewound))
    && (t.outer == Finished && t.inner != Returned ==> t.status == Failed)
  }

  lemma CountOneMore(k: Kind, log: seq<Event>, e: Event)
    ensures Count(k, log + [e]) == Count(k, log) + if Of(k, e) then 1 else 0
  {
    var more := Places(k, log + [e]);
    if Of(k, e) {
      assert more == Places(k, log) + {|log|};
    } else {
      assert more == Places(k, log);
    }
  }

  lemma {:induction false} CountAppend(k: Kind, log: seq<Event>, es: seq<Event>)
    ensures Count(k, log + es) == Count(k, log) + Count(k, es)
    ensures LastOf(log + es) == Later(LastOf(log), LastOf(es))
  {
    if es == [] {
      assert log + es == log;
      CountNone(k, es);
    } else {
      var init, e := es[..|es| - 1], es[|es| - 1];
      CountAppend(k, log, init);
      CountOneMore(k, log + init, e);
      CountOneMore(k, init, e);
      assert log + es == (log + init) + [e] && es == init + [e];
    }
  }

  lemma CountNone(k: Kind, es: seq<Event>)
    requires forall i :: 0 <= i < |es| ==> !Of(k, es[i])
    ensures Count(k, es) == 0
  {
    assert Places(k, es) == {};
  }

  /** A list in which at most the last event is of a kind. */
  lemma CountOne(k: Kind, es: seq<Event>)
    requires es != [] && forall i :: 0 <= i < |es| - 1 ==> !Of(k, es[i])
    ensures Count(k, es) == if Of(k, es[|es| - 1]) then 1 else 0
  {
    assert Places(k, es) == if Of(k, es[|es| - 1]) then {|es| - 1} else {};
  }

  /** The last event a step emits. */
  function LastEmitted(c: Config, t: Control, e: Step): Last {
    match e
    case InnerInit(init) => if init.InitError? then NoEvent else if init.DryRun? then LastCompleted else Other
    case InnerWork(work) => WorkLast(work)
    case InnerRecord => LastFailed
    case WakeSoft => if GivesNotice(c, t) then Other else NoEvent
    case WakeCancelled => LastFailed
    case WakeInner => if t.inner == Returned then NoEvent else LastFailed
    case _ => NoEvent
  }

  function WorkLast(work: WorkResult): Last {
    match work
    case Continue(n) => if n == 0 then NoEvent else Other
    case Succeed => LastCompleted
    case Fail => NoEvent
  }

  predicate Closing(last: Last) { last.LastCompleted? || last.LastFailed? }

  /** Of the events of one step at most the last is terminal. */
  lemma EmitsInOrder(c: Config, t: Control, e: Step)
    ensures var es := Emits(c, t, e);
      && LastOf(es) == LastEmitted(c, t, e)
      && (forall i :: 0 <= i < |es| - 1 ==> !TerminalEvent(es[i]))
      && (forall i :: 0 <= i < |es| ==> (es[i].OvertimeEvent? <==> e.WakeSoft?))
      && (e.WakeSoft? ==> |es| <= 1)
  {
  }

  function Notice(c: Config, t: Control, e: Step): int { if e.WakeSoft? && GivesNotice(c, t) then 1 else 0 }

  lemma AmountIsRight(c: Config, t: Control, e: Step)
    ensures Count(Terminal, Emits(c, t, e)) == (if Closing(LastEmitted(c, t, e)) then 1 else 0)
    ensures Count(Overtime, Emits(c, t, e)) == Notice(c, t, e)
  {
    EmitsInOrder(c, t, e);
    var es := Emits(c, t, e);
    if es != [] {
      CountOne(Terminal, es);
      if !e.WakeSoft? { CountNone(Overtime, es); } else { CountOne(Overtime, es); }
    }
  }

  lemma StartKeeps(c: Config, t: Control, terminals: int, overtimes: int, last: Last, ok: bool)
    requires !t.cancelled && t.inner == NotStarted && EventsFit(c, t, terminals, overtimes, last) && StatusFits(t, last)
    ensures EventsFit(c, t.(inner := if ok then Initialising else Raised), terminals, overtimes, last)
    ensures StatusFits(t.(inner := if ok then Initialising else Raised), last)
  {
  }

  lemma InitKeeps(c: Config, t: Control, terminals: int, overtimes: int, last: Last, init: InitResult)
    requires !t.cancelled && t.inner == Initialising && !init.DryRun? && EventsFit(c, t, terminals, overtimes, last) && StatusFits(t, last)
    ensures EventsFit(c, Initialise(t, init), terminals, overtimes, if init.InitError? then last else Other)
    ensures StatusFits(Initialise(t, init), if init.InitError? then last else Other)
  {
  }

  lemma DryRunKeeps(c: Config, t: Control, terminals: int, overtimes: int, last: Last)
    requires !t.cancelled && t.inner == Initialising && EventsFit(c, t, terminals, overtimes, last) && StatusFits(t, last)
    ensures EventsFit(c, Initialise(t, DryRun), terminals + 1, overtimes, LastCompleted)
    ensures StatusFits(Initialise(t, DryRun), LastCompleted)
  {
  }

  lemma FailKeeps(c: Config, t: Control, terminals: int, overtimes: int, last: Last)
    requires !t.cancelled && t.inner == Working && EventsFit(c, t, terminals, overtimes, last) && StatusFits(t, last)
    ensures EventsFit(c, Work(t, Fail), terminals, overtimes, last)
    ensures StatusFits(Work(t, Fail), last)
  {
  }

  lemma SucceedKeeps(c: Config, t: Control, terminals: int, overtimes: int, last: Last)
    requires !t.cancelled && t.inner == Working && EventsFit(c, t, terminals, overtimes, last) && StatusFits(t, last)
    ensures EventsFit(c, Work(t, Succeed), terminals + 1, overtimes, LastCompleted)
    ensures StatusFits(Work(t, Succeed), LastCompleted)
  {
  }

  lemma ContinueKeeps(c: Config, t: Control, terminals: int, overtimes: int, last: Last)
    requires !t.cancelled && t.inner == Working && EventsFit(c, t, terminals, overtimes, last) && StatusFits(t, last)
    ensures EventsFit(c, t, terminals, overtimes, Other)
    ensures StatusFits(t, Other)
  {
  }

  lemma RecordKeeps(c: Config, t: Control, terminals: int, overtimes: int, last: Last)
    requires !t.cancelled && t.inner == Recording && EventsFit(c, t, terminals, overtimes, last) && StatusFits(t, last)
    ensures EventsFit(c, t.(inner := Returned), terminals + 1, overtimes, LastFailed)
    ensures StatusFits(t.(inner := Returned), LastFailed)
  {
  }

  lemma CancelKeeps(c: Config, t: Control, terminals: int, overtimes: int, last: Last)
    requires t.cancelled && !Done(t.inner) && EventsFit(c, t, terminals, overtimes, last) && StatusFits(t, last)
    ensures EventsFit(c, t.(inner := Cancelled), terminals, overtimes, last)
    ensures StatusFits(t.(inner := Cancelled), last)
  {
  }

  lemma NoticeKeeps(c: Config, t: Control, terminals: int, overtimes: int, last: Last)
    requires t.outer == SoftWait && GivesNotice(c, t) && EventsFit(c, t, terminals, overtimes, last) && StatusFits(t, last)
    ensures EventsFit(c, PassSoft(c, t), terminals, overtimes + 1, Other)
    ensures StatusFits(PassSoft(c, t), Other)
  {
  }

  lemma NoNoticeKeeps(c: Config, t: Control, terminals: int, overtimes: int, last: Last)
    requires t.outer == SoftWait && !GivesNotice(c, t) && EventsFit(c, t, terminals, overtimes, last) && StatusFits(t, last)
    ensures EventsFit(c, PassSoft(c, t), terminals, overtimes, last)
    ensures StatusFits(PassSoft(c, t), last)
  {
  }

  lemma HardKeeps(c: Config, t: Control, terminals: int, overtimes: int, last: Last)
    requires t.outer == HardWait && EventsFit(c, t, terminals, overtimes, last) && StatusFits(t, last)
    ensures EventsFit(c, PassHard(t), terminals, overtimes, last)
    ensures StatusFits(PassHard(t), last)
  {
  }

  lemma ReportKeeps(c: Config, t: Control, terminals: int, overtimes: int, last: Last)
    requires t.outer == CancelWait && Done(t.inner) && EventsFit(c, t, terminals, overtimes, last) && StatusFits(t, last)
    ensures EventsFit(c, Report(t), terminals + 1, overtimes, LastFailed)
    ensures StatusFits(Report(t), LastFailed)
  {
  }

  lemma RaiseKeeps(c: Config, t: Control, terminals: int, overtimes: int, last: Last)
    requires t.outer == InnerWait && Done(t.inner) && t.inner != Returned && EventsFit(c, t, terminals, overtimes, last) && StatusFits(t, last)
    ensures EventsFit(c, Report(t), terminals + 1, overtimes, LastFailed)
    ensures StatusFits(Report(t), LastFailed)
  {
  }

  lemma ReturnKeeps(c: Config, t: Control, terminals: int, overtimes: int, last: Last)
    requires t.outer == InnerWait && t.inner == Returned && EventsFit(c, t, terminals, overtimes, last) && StatusFits(t, last)
    ensures EventsFit(c, t.(outer := Finished), terminals, overtimes, last)
    ensures StatusFits(t.(outer := Finished), last)
  {
  }

  /** Every coroutine step keeps both. */
  lemma ResumeKeeps(c: Config, t: Control, terminals: int, overtimes: int, last: Last, e: Step)
    requires !OfSubscriber(e) && MayResume(t, e) && EventsFit(c, t, terminals, overtimes, last) && StatusFits(t, last)
    ensures var added := LastEmitted(c, t, e);
      && EventsFit(c, Resume(c, t, e), terminals + (if Closing(added) then 1 else 0),
                   overtimes + Notice(c, t, e), Later(last, added))
      && StatusFits(Resume(c, t, e), Later(last, added))
  {
    match e
    case InnerStart(ok) => StartKeeps(c, t, terminals, overtimes, last, ok);
    case InnerInit(init) =>
      if init.DryRun? { DryRunKeeps(c, t, terminals, overtimes, last); } else { InitKeeps(c, t, terminals, overtimes, last, init); }
    case InnerWork(work) => WorkKeeps(c, t, terminals, overtimes, last, work);
    case InnerRecord => RecordKeeps(c, t, terminals, overtimes, last);
    case InnerCancel => CancelKeeps(c, t, terminals, overtimes, last);
    case WakeSoft =>
      if GivesNotice(c, t) { NoticeKeeps(c, t, terminals, overtimes, last); } else { NoNoticeKeeps(c, t, terminals, overtimes, last); }
    case WakeHard => HardKeeps(c, t, terminals, overtimes, last);
    case WakeCancelled => ReportKeeps(c, t, terminals, overtimes, last);
    case WakeInner =>
      if t.inner == Returned { ReturnKeeps(c, t, terminals, overtimes, last); } else { RaiseKeeps(c, t, terminals, overtimes, last); }
    case _ =>
  }

  lemma WorkKeeps(c: Config, t: Control, terminals: int, overtimes: int, last: Last, work: WorkResult)
    requires !t.cancelled && t.inner == Working && EventsFit(c, t, terminals, overtimes, last) && StatusFits(t, last)
    ensures EventsFit(c, Work(t, work), terminals + (if Closing(WorkLast(work)) then 1 else 0), overtimes,
                      Later(last, WorkLast(work)))
    ensures StatusFits(Work(t, work), Later(last, WorkLast(work)))
  {
    match work
    case Continue(n) => ContinueKeeps(c, t, terminals, overtimes, last);
    case Succeed => SucceedKeeps(c, t, terminals, overtimes, last);
    case Fail => FailKeeps(c, t, terminals, overtimes, last);
  }

  // ---------------------------------------------------------------- the queue

  /** The queue is the newest part of the log, within the cap and not older than the queue. */
  ghost predicate SuffixQueue(c: Config, log: seq<Event>, base: nat, queue: seq<Event>) {
    && base + |queue| <= |log| && (c.cap > 0 ==> |queue| <= c.cap)
    && forall i :: 0 <= i < |queue| ==> queue[i] == log[|log| - |queue| + i]
  }

  lemma PutSize(queue: seq<Event>, cap: int, e: Event)
    ensures 1 <= |JobStore.Put(queue, cap, e)| && |queue| <= |JobStore.Put(queue, cap, e)| <= |queue| + 1
    ensures cap > 0 && |queue| <= cap ==> |JobStore.Put(queue, cap, e)| <= cap
  {
  }

  lemma PutAt(queue: seq<Event>, cap: int, e: Event, i: nat)
    requires i < |JobStore.Put(queue, cap, e)|
    ensures var after := JobStore.Put(queue, cap, e);
      if i == |after| - 1 then after[i] == e
      else 0 <= i + |queue| + 1 - |after| < |queue| && after[i] == queue[i + |queue| + 1 - |after|]
  {
  }

  lemma PutKeepsSuffix(c: Config, log: seq<Event>, base: nat, queue: seq<Event>, e: Event)
    requires SuffixQueue(c, log, base, queue)
    ensures var after := JobStore.Put(queue, c.cap, e);
      SuffixQueue(c, log + [e], base, after) && after != [] && |after| <= |queue| + 1
  {
    var after, more := JobStore.Put(queue, c.cap, e), log + [e];
    PutSize(queue, c.cap, e);
    forall i | 0 <= i < |after| ensures after[i] == more[|more| - |after| + i] {
      PutAt(queue, c.cap, e, i);
    }
  }

  lemma {:induction false} PutAllKeepsSuffix(c: Config, log: seq<Event>, base: nat, queue: seq<Event>, es: seq<Event>)
    requires SuffixQueue(c, log, base, queue)
    ensures SuffixQueue(c, log + es, base, PutAll(queue, c.cap, es))
    ensures es != [] ==> PutAll(queue, c.cap, es) != []
    ensures |PutAll(queue, c.cap, es)| <= |queue| + |es|
  {
    if es == [] {
      assert log + es == log;
    } else {
      var init, e := es[..|es| - 1], es[|es| - 1];
      PutAllKeepsSuffix(c, log, base, queue, init);
      PutKeepsSuffix(c, log + init, base, PutAll(queue, c.cap, init), e);
      assert log + es == (log + init) + [e];
    }
  }

  ghost predicate Ended(received: seq<Event>) { received != [] && TerminalEvent(received[|received| - 1]) }

  /** The queue holds the newest events since it was made; the terminal event of a settled call
      waits in it until taken, unless the queue was made later. */
  ghost predicate QueueFits(c: Config, s: State) {
    && SuffixQueue(c, s.log, s.base, s.queue)
    && (s.subscriber == EndedByEvent <==> Ended(s.received))
    && (s.subscriber == EndedByEvent ==> Settled(s.ctl) && LastOf(s.received) == LastOf(s.log))
    && (Settled(s.ctl) && s.base < |s.log| ==> s.queue != [])
    && PollFits(s.subscriber, s.ctl)
  }

  predicate PollFits(how: Subscriber, t: Control) {
    how.EndedByPoll? ==>
      && (how.early || how.pending || how.late)
      && (how.early ==> MayHaveFailed(t.inner) && t.status != Completed)
      && (!how.early ==> Settled(t))
  }

  /** Tasks, status and events agree. */
  predicate Fits(c: Config, t: Control, log: seq<Event>) {
    EventsFit(c, t, Count(Terminal, log), Count(Overtime, log), LastOf(log)) && StatusFits(t, LastOf(log))
  }

  ghost predicate Inv(c: Config, s: State) { Fits(c, s.ctl, s.log) && QueueFits(c, s) }

  lemma InitialInv(c: Config)
    ensures Inv(c, Initial(c))
  {
    var s := Initial(c);
    InitialFits(c, s.ctl, s.log);
    assert QueueFits(c, s);
  }

  lemma InitialFits(c: Config, t: Control, log: seq<Event>)
    requires log == [] && t.status == Pending && t.inner == NotStarted && !t.cancelled && !t.rewound
    requires t.outer == if c.soft > 0 then SoftWait else if c.hard > 0 then HardWait else InnerWait
    ensures Fits(c, t, log)
  {
    CountNone(Terminal, log);
    CountNone(Overtime, log);
  }

  lemma LogKeeps(c: Config, t: Control, log: seq<Event>, e: Step)
    requires Fits(c, t, log) && MayResume(t, e) && !OfSubscriber(e)
    ensures Fits(c, Resume(c, t, e), log + Emits(c, t, e))
  {
    var es := Emits(c, t, e);
    CountAppend(Terminal, log, es);
    CountAppend(Overtime, log, es);
    EmitsInOrder(c, t, e);
    AmountIsRight(c, t, e);
    ResumeKeeps(c, t, Count(Terminal, log), Count(Overtime, log), LastOf(log), e);
  }

  lemma CoroutineKeeps(c: Config, s: State, e: Step)
    requires Inv(c, s) && Enabled(s, e) && !OfSubscriber(e)
    ensures Inv(c, RunCoroutine(c, s, e))
  {
    LogKeeps(c, s.ctl, s.log, e);
    ResumeQueue(c, s.ctl, s.log, e);
    QueueKeeps(c, s, Resume(c, s.ctl, e), Emits(c, s.ctl, e));
  }

  lemma QueueKeeps(c: Config, s: State, t: Control, es: seq<Event>)
    requires QueueFits(c, s)
    requires Settled(s.ctl) ==> es == [] && Settled(t)
    requires !Settled(s.ctl) && Settled(t) ==> es != []
    requires MayHaveFailed(s.ctl.inner) && s.ctl.status != Completed ==> MayHaveFailed(t.inner) && t.status != Completed
    ensures QueueFits(c, s.(ctl := t, log := s.log + es, queue := PutAll(s.queue, c.cap, es)))
  {
    PutAllKeepsSuffix(c, s.log, s.base, s.queue, es);
    if es == [] { assert s.log + es == s.log; }
  }

  /** A settled call emits nothing more, and becomes settled only by emitting. */
  lemma ResumeQueue(c: Config, t: Control, log: seq<Event>, e: Step)
    requires Fits(c, t, log) && MayResume(t, e) && !OfSubscriber(e)
    ensures Settled(t) ==> Emits(c, t, e) == [] && Settled(Resume(c, t, e))
    ensures !Settled(t) && Settled(Resume(c, t, e)) ==> Emits(c, t, e) != []
    ensures MayHaveFailed(t.inner) && t.status != Completed ==>
      MayHaveFailed(Resume(c, t, e).inner) && Resume(c, t, e).status != Completed
  {
  }

  /** A cancelled workflow has one thing left to do, and its supervisor one report to make. */
  lemma OnlyTheReport(c: Config, t: Control, log: seq<Event>, e: Step)
    requires Fits(c, t, log) && MayResume(t, e) && !OfSubscriber(e) && t.cancelled
    ensures e == WakeCancelled || (e == InnerCancel && Emits(c, t, e) == [] && Resume(c, t, e).status == t.status)
  {
  }

  lemma DropKeeps(c: Config, s: State, how: Subscriber)
    requires SuffixQueue(c, s.log, s.base, s.queue) && PollFits(how, s.ctl)
    requires how == EndedByEvent <==> Ended(s.received)
    requires how == EndedByEvent ==> Settled(s.ctl) && LastOf(s.received) == LastOf(s.log)
    ensures QueueFits(c, Drop(s, how))
  {
  }

  lemma TakeKeeps(c: Config, s: State)
    requires QueueFits(c, s) && s.subscriber == Attached && s.queue != []
    requires TerminalEvent(s.queue[0]) <==> Settled(s.ctl) && |s.queue| == 1
    ensures QueueFits(c, TakeOne(s))
  {
    var e := s.queue[0];
    var t := s.(received := s.received + [e], queue := s.queue[1..]);
    assert t.received[|t.received| - 1] == e;
    assert SuffixQueue(c, t.log, t.base, t.queue);
    if TerminalEvent(e) {
      assert e == s.log[|s.log| - 1];
      DropKeeps(c, t, EndedByEvent);
    }
  }

  /** A terminal status before the terminal event is that of a failing run. */
  lemma EarlyStatus(c: Config, t: Control, log: seq<Event>)
    requires Fits(c, t, log) && TerminalStatus(t.status) && !Settled(t)
    ensures MayHaveFailed(t.inner) && t.status != Completed
  {
  }

  lemma PollKeeps(c: Config, s: State)
    requires QueueFits(c, s) && s.subscriber == Attached
    requires TerminalStatus(s.ctl.status) && !Settled(s.ctl) ==> MayHaveFailed(s.ctl.inner) && s.ctl.status != Completed
    ensures QueueFits(c, RunSubscriber(s, Poll))
  {
    if TerminalStatus(s.ctl.status) {
      DropKeeps(c, s, EndedByPoll(!Settled(s.ctl), s.queue != [], Settled(s.ctl) && s.base == |s.log|));
    }
  }

  lemma AttachKeeps(c: Config, s: State)
    requires QueueFits(c, s)
    ensures QueueFits(c, RunSubscriber(s, Attach))
  {
  }

  lemma SubscriberLeavesJob(s: State, e: Step)
    ensures RunSubscriber(s, e).ctl == s.ctl && RunSubscriber(s, e).log == s.log
  {
  }

  lemma SubscriberKeeps(c: Config, s: State, e: Step)
    requires Inv(c, s) && Enabled(s, e) && OfSubscriber(e)
    ensures Inv(c, RunSubscriber(s, e))
  {
    SubscriberLeavesJob(s, e);
    match e
    case Attach => AttachKeeps(c, s);
    case Take =>
      TakenIsLast(c, s);
      TakeKeeps(c, s);
    case Poll =>
      if TerminalStatus(s.ctl.status) && !Settled(s.ctl) { EarlyStatus(c, s.ctl, s.log); }
      PollKeeps(c, s);
    case Leave => DropKeeps(c, s, Left);
    case _ =>
  }

  /** The only terminal event of the log is its last, so taking it empties the queue. */
  lemma TakenIsLast(c: Config, s: State)
    requires Inv(c, s) && s.queue != []
    ensures TerminalEvent(s.queue[0]) <==> Settled(s.ctl) && |s.queue| == 1
  {
    var n := |s.log| - |s.queue|;
    assert s.queue[0] == s.log[n];
    if TerminalEvent(s.log[n]) { TerminalsCount(s.log, n); }
  }

  /** Of two terminal events in one list each counts. */
  lemma TerminalsCount(log: seq<Event>, i: nat)
    requires i < |log| && TerminalEvent(log[i])
    ensures Count(Terminal, log) >= 1
    ensures i < |log| - 1 && TerminalEvent(log[|log| - 1]) ==> Count(Terminal, log) >= 2
  {
    var others := Places(Terminal, log) - {i};
    assert i in Places(Terminal, log);
    assert |others| == Count(Terminal, log) - 1;
    if i < |log| - 1 && TerminalEvent(log[|log| - 1]) {
      assert |log| - 1 in others;
    }
  }

  lemma StepKeeps(c: Config, s: State, e: Step)
    requires Inv(c, s) && Enabled(s, e)
    ensures Inv(c, Apply(c, s, e))
  {
    if OfSubscriber(e) { SubscriberKeeps(c, s, e); } else { CoroutineKeeps(c, s, e); }
  }

  // ------------------------------------------------------------- every schedule

  /** `s` after the steps of a schedule; a step that is not enabled is not taken. */
  function Schedule(c: Config, steps: seq<Step>): State {
    if steps == [] then Initial(c) else
      var s := Schedule(c, steps[..|steps| - 1]);
      if Enabled(s, steps[|steps| - 1]) then Apply(c, s, steps[|steps| - 1]) else s
  }

  lemma {:induction false} ScheduleInv(c: Config, steps: seq<Step>)
    ensures Inv(c, Schedule(c, steps))
  {
    if steps == [] {
      InitialInv(c);
    } else {
      ScheduleInv(c, steps[..|steps| - 1]);
      var s := Schedule(c, steps[..|steps| - 1]);
      if Enabled(s, steps[|steps| - 1]) { StepKeeps(c, s, steps[|steps| - 1]); }
    }
  }

  /** Whatever the interleaving, a call that ran to its end emitted exactly one terminal event,
      as its last; before that it emitted none; and the overtime notice comes at most once. */
  lemma ExactlyOneTerminalEvent(c: Config, steps: seq<Step>)
    ensures var s := Schedule(c, steps);
      && Count(Terminal, s.log) == (if Settled(s.ctl) then 1 else 0)
      && (s.ctl.outer == Finished ==> Count(Terminal, s.log) == 1)
      && (Settled(s.ctl) ==> s.log != [] && TerminalEvent(s.log[|s.log| - 1]))
      && Count(Overtime, s.log) <= 1
  {
    ScheduleInv(c, steps);
  }

  /** A step that writes no status and emits nothing, or the supervisor's failure report. */
  predicate SilentOrReport(s: State, after: State, e: Step) {
    if e == WakeCancelled then after.ctl.status == Failed && after.log == s.log + [FailedEvent]
    else after.ctl.status == s.ctl.status && after.log == s.log
  }

  lemma CancelledStep(c: Config, s: State, e: Step)
    requires Fits(c, s.ctl, s.log) && s.ctl.cancelled && MayResume(s.ctl, e) && !OfSubscriber(e)
    ensures SilentOrReport(s, RunCoroutine(c, s, e), e)
  {
    OnlyTheReport(c, s.ctl, s.log, e);
    assert s.log + [] == s.log;
  }

  lemma SilentStep(c: Config, s: State, e: Step)
    requires Inv(c, s) && s.ctl.cancelled && Enabled(s, e)
    ensures SilentOrReport(s, Apply(c, s, e), e)
  {
    if !OfSubscriber(e) { CancelledStep(c, s, e); }
  }

  /** Once the hard limit has cancelled the workflow, nothing but the supervisor's own
      failure report writes a status or emits an event. */
  lemma CancelledWorkflowIsSilent(c: Config, steps: seq<Step>, e: Step)
    requires Schedule(c, steps).ctl.cancelled && Enabled(Schedule(c, steps), e)
    ensures SilentOrReport(Schedule(c, steps), Apply(c, Schedule(c, steps), e), e)
  {
    var s := Schedule(c, steps);
    ScheduleInv(c, steps);
    SilentStep(c, s, e);
  }

  /** When the call has ended, the stored status is the one its event announced, unless the
      soft deadline fell between the failed status and the failed event: exactly then the
      job is left "running" for ever (the hard limit, which sets it again, aside). */
  lemma FinalStatus(c: Config, steps: seq<Step>)
    requires Schedule(c, steps).ctl.outer == Finished
    ensures var t, last := Schedule(c, steps).ctl, LastOf(Schedule(c, steps).log);
      && (TerminalStatus(t.status) <==> !(t.rewound && t.inner == Returned))
      && (TerminalStatus(t.status) ==> (t.status == Completed <==> last == LastCompleted))
      && (!TerminalStatus(t.status) ==> t.status == Running && last == LastFailed)
  {
    ScheduleInv(c, steps);
  }

  /** A subscription that ended by itself without the terminal event ended on a poll, and that
      poll fell before the event of a failed run, overtook pending events, or found a queue
      made after the event. */
  lemma MissedOnlyByPoll(c: Config, steps: seq<Step>)
    ensures var s := Schedule(c, steps);
      s.subscriber.EndedByEvent? || s.subscriber.EndedByPoll? ==>
        (!Ended(s.received) <==>
          s.subscriber.EndedByPoll? && (s.subscriber.early || s.subscriber.pending || s.subscriber.late))
  {
    ScheduleInv(c, steps);
  }

  /** After a success a subscription that ended by itself has received `job.completed` exactly
      when it ended on taking it, not on a poll over pending events or on a late queue. */
  lemma SuccessIsDelivered(c: Config, steps: seq<Step>)
    ensures var s := Schedule(c, steps);
      LastOf(s.log) == LastCompleted && (s.subscriber.EndedByEvent? || s.subscriber.EndedByPoll?) ==>
        (LastOf(s.received) == LastCompleted <==>
          !(s.subscriber.EndedByPoll? && (s.subscriber.pending || s.subscriber.late)))
  {
    ScheduleInv(c, steps);
  }

  // --------------------------------------------------- what each step leaves behind

  /** A step that ends the workflow in success, or fails the job. */
  predicate Succeeds(e: Step) { e == InnerWork(Succeed) || e == InnerInit(DryRun) }

  predicate FailsJob(t: Control, e: Step) {
    || e == InnerInit(SetupError) || e == InnerWork(Fail) || e == WakeCancelled
    || (e == WakeInner && (t.inner == Raised || t.inner == Cancelled))
  }

  /** A step that says the job is running: the workflow's first status, or the overtime notice. */
  predicate SaysRunning(c: Config, t: Control, e: Step) {
    || e == InnerInit(Ready) || e == InnerInit(LateError) || Notices(c, t, e)
  }

  predicate Notices(c: Config, t: Control, e: Step) { e == WakeSoft && !Over(t.inner) && (c.hard <= 0 || c.soft < c.hard) }

  predicate Over(i: Inner) { i == Returned || i == Raised || i == Cancelled }

  function StatusAfter(c: Config, t: Control, e: Step): Status {
    if Succeeds(e) then Completed else if FailsJob(t, e) then Failed else if SaysRunning(c, t, e) then Running else t.status
  }

  /** Where the workflow is: a failure is recorded before it returns, an error is not. */
  function InnerAfter(t: Control, e: Step): Inner {
    if Succeeds(e) || e == InnerRecord then Returned
    else if e == InnerWork(Fail) || e == InnerInit(SetupError) then Recording
    else if e == InnerStart(false) || e == InnerInit(InitError) || e == InnerInit(LateError) then Raised
    else if e == InnerStart(true) then Initialising
    else if e == InnerInit(Ready) then Working
    else if e == InnerCancel then Cancelled
    else t.inner
  }

  /** Where the supervisor is: it waits for the hard limit if there is one, and for the workflow. */
  function OuterAfter(c: Config, t: Control, e: Step): Outer {
    if e == WakeInner || e == WakeCancelled then Finished
    else if e == WakeHard && !Over(t.inner) then CancelWait
    else if e == WakeSoft && !Over(t.inner) && c.hard > 0 then HardWait
    else if e == WakeSoft || e == WakeHard then InnerWait
    else t.outer
  }

  function EventsAfter(c: Config, t: Control, e: Step): seq<Event> {
    match e
    case InnerInit(LateError) => [RunningEvent]
    case InnerInit(SetupError) => [RunningEvent, Progress]
    case InnerInit(Ready) => [RunningEvent, Progress]
    case InnerInit(DryRun) => [RunningEvent, Progress, CompletedEvent]
    case InnerWork(Continue(n)) => seq(n, _ => Progress)
    case InnerWork(Succeed) => [CompletedEvent]
    case InnerRecord => [FailedEvent]
    case WakeSoft => if Notices(c, t, e) then [OvertimeEvent] else []
    case WakeCancelled => [FailedEvent]
    case WakeInner => if t.inner == Returned then [] else [FailedEvent]
    case _ => []
  }

  lemma EmitsTell(c: Config, t: Control, e: Step)
    requires MayResume(t, e) && !OfSubscriber(e)
    ensures Emits(c, t, e) == EventsAfter(c, t, e)
  {
  }

  lemma StatusTells(c: Config, t: Control, e: Step)
    requires MayResume(t, e) && !OfSubscriber(e)
    ensures Resume(c, t, e).status == StatusAfter(c, t, e)
  {
  }

  lemma WorkflowTells(c: Config, t: Control, e: Step)
    requires MayResume(t, e) && !OfSubscriber(e)
    ensures Resume(c, t, e).inner == InnerAfter(t, e)
  {
  }

  lemma SupervisorTells(c: Config, t: Control, e: Step)
    requires MayResume(t, e) && !OfSubscriber(e)
    ensures Resume(c, t, e).outer == OuterAfter(c, t, e)
    ensures Resume(c, t, e).cancelled <==> t.cancelled || (e == WakeHard && !Over(t.inner))
  {
  }

  /** After any schedule, a coroutine step that can be taken leaves exactly this: its status, its
      events behind the others, the two tasks, and nothing of the subscription changed. */
  lemma StepTells(c: Config, steps: seq<Step>, e: Step)
    requires !OfSubscriber(e) && MayResume(Schedule(c, steps).ctl, e)
    ensures var s, after := Schedule(c, steps), Schedule(c, steps + [e]);
      && after.ctl.status == StatusAfter(c, s.ctl, e) && after.log == s.log + EventsAfter(c, s.ctl, e)
      && after.ctl.inner == InnerAfter(s.ctl, e) && after.ctl.outer == OuterAfter(c, s.ctl, e)
      && (after.ctl.cancelled <==> s.ctl.cancelled || (e == WakeHard && !Over(s.ctl.inner)))
      && after.subscriber == s.subscriber && after.received == s.received && after.base == s.base
  {
    Extend(c, steps, e, steps + [e]);
    EmitsTell(c, Schedule(c, steps).ctl, e);
    StatusTells(c, Schedule(c, steps).ctl, e);
    WorkflowTells(c, Schedule(c, steps).ctl, e);
    SupervisorTells(c, Schedule(c, steps).ctl, e);
  }

  /** A job begins pending, without events and without a subscription. */
  lemma BeginsPending(c: Config)
    ensures var s := Schedule(c, []);
      && s.ctl.status == Pending && s.ctl.inner == NotStarted && !s.ctl.cancelled && s.log == []
      && s.queue == [] && s.received == [] && s.subscriber == Detached
      && s.ctl.outer == if c.soft > 0 then SoftWait else if c.hard > 0 then HardWait else InnerWait
  {
  }

  /** Attaching gives a subscription the queue there is; it has received nothing yet. */
  lemma AttachTells(c: Config, steps: seq<Step>, more: seq<Step>)
    requires more == steps + [Attach]
    ensures var s, after := Schedule(c, steps), Schedule(c, more);
      if s.subscriber == Attached then after == s
      else after == s.(subscriber := Attached, received := [], since := s.base)
  {
    Extend(c, steps, Attach, more);
  }

  lemma TakeOneTells(s: State)
    requires s.queue != []
    ensures TakeOne(s) == if s.queue[0] == CompletedEvent || s.queue[0] == FailedEvent
      then s.(received := s.received + [s.queue[0]], queue := [], base := |s.log|, subscriber := EndedByEvent)
      else s.(received := s.received + [s.queue[0]], queue := s.queue[1..])
  {
  }

  /** A take hands over the oldest event, and a terminal one ends the subscription with its queue. */
  lemma TakeTells(c: Config, steps: seq<Step>, more: seq<Step>)
    requires more == steps + [Take]
    ensures var s, after := Schedule(c, steps), Schedule(c, more);
      if s.subscriber != Attached || s.queue == [] then after == s
      else if s.queue[0] == CompletedEvent || s.queue[0] == FailedEvent
      then after == s.(received := s.received + [s.queue[0]], queue := [], base := |s.log|, subscriber := EndedByEvent)
      else after == s.(received := s.received + [s.queue[0]], queue := s.queue[1..])
  {
    Extend(c, steps, Take, more);
    if Schedule(c, steps).queue != [] { TakeOneTells(Schedule(c, steps)); }
  }

  /** A client that leaves drops the queue. */
  lemma LeaveTells(c: Config, steps: seq<Step>, more: seq<Step>)
    requires more == steps + [Leave]
    ensures var s, after := Schedule(c, steps), Schedule(c, more);
      if s.subscriber != Attached then after == s else after == s.(subscriber := Left, queue := [], base := |s.log|)
  {
    Extend(c, steps, Leave, more);
  }

  /** A step of a schedule that was taken and is a success. */
  predicate Succeeded(c: Config, steps: seq<Step>) {
    steps != [] &&
    (Succeeded(c, steps[..|steps| - 1]) ||
     (Succeeds(steps[|steps| - 1]) && MayResume(Schedule(c, steps[..|steps| - 1]).ctl, steps[|steps| - 1])))
  }

  /** Over every schedule, the job is announced as completed exactly when its workflow has
      succeeded, and only then is that its status; every other end is announced as a failure. */
  lemma {:induction false} CompletedIffSucceeded(c: Config, steps: seq<Step>)
    ensures var s := Schedule(c, steps);
      && (LastOf(s.log) == LastCompleted <==> Succeeded(c, steps))
      && (s.ctl.status == Completed <==> Succeeded(c, steps))
      && (s.ctl.outer == Finished ==> (LastOf(s.log) == LastFailed <==> !Succeeded(c, steps)))
  {
    ScheduleInv(c, steps);
    if steps != [] {
      var init, e := steps[..|steps| - 1], steps[|steps| - 1];
      assert steps == init + [e];
      CompletedIffSucceeded(c, init);
      ScheduleInv(c, init);
      Extend(c, init, e, steps);
      if !OfSubscriber(e) && MayResume(Schedule(c, init).ctl, e) {
        StepTells(c, init, e);
      } else if Enabled(Schedule(c, init), e) {
        SubscriberLeavesJob(Schedule(c, init), e);
      }
    }
  }

  /** A step of a schedule at which the hard limit passed before the workflow was over. */
  predicate HardLimitPassed(c: Config, steps: seq<Step>) {
    steps != [] &&
    (HardLimitPassed(c, steps[..|steps| - 1]) ||
     (steps[|steps| - 1] == WakeHard && Schedule(c, steps[..|steps| - 1]).ctl.outer == HardWait
        && !Over(Schedule(c, steps[..|steps| - 1]).ctl.inner)))
  }

  /** The workflow is cancelled exactly when the hard limit passes before it is over, and then the
      call can only end failed. */
  lemma {:induction false} HardLimitCancels(c: Config, steps: seq<Step>)
    ensures Schedule(c, steps).ctl.cancelled <==> HardLimitPassed(c, steps)
    ensures HardLimitPassed(c, steps) && Schedule(c, steps).ctl.outer == Finished ==>
      Schedule(c, steps).ctl.status == Failed && LastOf(Schedule(c, steps).log) == LastFailed
  {
    ScheduleInv(c, steps);
    if steps != [] {
      var init, e := steps[..|steps| - 1], steps[|steps| - 1];
      assert steps == init + [e];
      HardLimitCancels(c, init);
      Extend(c, init, e, steps);
      if !OfSubscriber(e) && MayResume(Schedule(c, init).ctl, e) {
        StepTells(c, init, e);
      } else if Enabled(Schedule(c, init), e) {
        SubscriberLeavesJob(Schedule(c, init), e);
      }
    }
  }

  // ------------------------------------------------ which schedules lose a success

  /** A poll of a live subscription that reads the status "completed". */
  predicate PollsSuccess(s: State, e: Step) { e == Poll && s.subscriber == Attached && s.ctl.status == Completed }

  predicate NoPollOfSuccess(c: Config, steps: seq<Step>) {
    steps == [] ||
    (NoPollOfSuccess(c, steps[..|steps| - 1]) && !PollsSuccess(Schedule(c, steps[..|steps| - 1]), steps[|steps| - 1]))
  }

  /** A success whose event can be received no more. */
  predicate SpentSuccess(s: State) {
    LastOf(s.log) == LastCompleted && s.base == |s.log| && s.queue == [] && s.subscriber != EndedByEvent
  }

  /** What tells whether a poll has read the status "completed". */
  predicate PolledFits(s: State, polled: bool) {
    && (polled ==> SpentSuccess(s))
    && (s.subscriber.EndedByPoll? && LastOf(s.log) == LastCompleted ==> polled)
  }

  lemma SubscriberPolls(c: Config, s: State, e: Step, polled: bool)
    requires Inv(c, s) && Enabled(s, e) && OfSubscriber(e) && PolledFits(s, polled)
    ensures PolledFits(RunSubscriber(s, e), polled || PollsSuccess(s, e))
  {
  }

  /** A subscription ended by a poll before the success never sees one: the run had failed. */
  lemma CoroutinePolls(c: Config, s: State, e: Step, polled: bool)
    requires Inv(c, s) && Enabled(s, e) && !OfSubscriber(e) && PolledFits(s, polled)
    ensures PolledFits(RunCoroutine(c, s, e), polled)
  {
    CoroutineKeeps(c, s, e);
    ResumeQueue(c, s.ctl, s.log, e);
    if Settled(s.ctl) { assert s.log + [] == s.log; }
  }

  lemma PollStep(c: Config, s: State, e: Step, polled: bool)
    requires Inv(c, s) && Enabled(s, e) && PolledFits(s, polled)
    ensures PolledFits(Apply(c, s, e), polled || PollsSuccess(s, e))
  {
    if OfSubscriber(e) { SubscriberPolls(c, s, e, polled); } else { CoroutinePolls(c, s, e, polled); }
  }

  lemma {:induction false} SchedulePolled(c: Config, steps: seq<Step>)
    ensures PolledFits(Schedule(c, steps), !NoPollOfSuccess(c, steps))
  {
    if steps != [] {
      var init, e := steps[..|steps| - 1], steps[|steps| - 1];
      SchedulePolled(c, init);
      ScheduleInv(c, init);
      var s := Schedule(c, init);
      if Enabled(s, e) { PollStep(c, s, e, !NoPollOfSuccess(c, init)); }
    }
  }

  /** A subscription that ends by itself after a success has received `job.completed` exactly
      when no step of the schedule is a poll that reads the status "completed", by it or by one
      before it: whenever it was attached, however many events overflowed, whatever other polls
      came before and however many subscriptions ended earlier. */
  lemma DeliveredIff(c: Config, steps: seq<Step>)
    requires LastOf(Schedule(c, steps).log) == LastCompleted
    requires Schedule(c, steps).subscriber.EndedByEvent? || Schedule(c, steps).subscriber.EndedByPoll?
    ensures LastOf(Schedule(c, steps).received) == LastCompleted <==> NoPollOfSuccess(c, steps)
  {
    SuccessIsDelivered(c, steps);
    SchedulePolled(c, steps);
    ScheduleInv(c, steps);
  }

  /** No poll reports a timeout while an event is pending. */
  predicate PollsWhenEmpty(c: Config, steps: seq<Step>) {
    steps == [] ||
    (PollsWhenEmpty(c, steps[..|steps| - 1]) &&
     (steps[|steps| - 1] == Poll ==> Schedule(c, steps[..|steps| - 1]).queue == []))
  }

  /** The terminal event is out and the queue that held it has been dropped. */
  predicate Spent(s: State) { Settled(s.ctl) && s.base == |s.log| }

  /** Nobody subscribes once the terminal event has been dropped with its queue. */
  predicate NoLateAttach(c: Config, steps: seq<Step>) {
    steps == [] ||
    (NoLateAttach(c, steps[..|steps| - 1]) &&
     !(steps[|steps| - 1] == Attach && Spent(Schedule(c, steps[..|steps| - 1]))))
  }

  lemma StaysInTime(c: Config, s: State, e: Step)
    requires Inv(c, s) && Enabled(s, e) && (s.subscriber == Attached ==> !Spent(s)) && !(e == Attach && Spent(s))
    ensures Apply(c, s, e).subscriber == Attached ==> !Spent(Apply(c, s, e))
  {
    if !OfSubscriber(e) { ResumeQueue(c, s.ctl, s.log, e); }
  }

  lemma {:induction false} AttachedInTime(c: Config, steps: seq<Step>)
    requires NoLateAttach(c, steps)
    ensures Schedule(c, steps).subscriber == Attached ==> !Spent(Schedule(c, steps))
  {
    if steps != [] {
      var init, e := steps[..|steps| - 1], steps[|steps| - 1];
      AttachedInTime(c, init);
      ScheduleInv(c, init);
      if Enabled(Schedule(c, init), e) { StaysInTime(c, Schedule(c, init), e); }
    }
  }

  /** The completed status and its event come without a suspension between them, so a poll of
      a subscription in time that reads it finds the event still queued. */
  lemma {:induction false} EmptyPollsMissNoSuccess(c: Config, steps: seq<Step>)
    requires PollsWhenEmpty(c, steps) && NoLateAttach(c, steps)
    ensures NoPollOfSuccess(c, steps)
  {
    if steps != [] {
      var init := steps[..|steps| - 1];
      EmptyPollsMissNoSuccess(c, init);
      AttachedInTime(c, init);
      ScheduleInv(c, init);
    }
  }

  /** So with polls that time out on an empty queue only, no subscription in time misses a success. */
  lemma SuccessReachesSubscriber(c: Config, steps: seq<Step>)
    requires PollsWhenEmpty(c, steps) && NoLateAttach(c, steps)
    requires LastOf(Schedule(c, steps).log) == LastCompleted
    requires Schedule(c, steps).subscriber.EndedByEvent? || Schedule(c, steps).subscriber.EndedByPoll?
    ensures LastOf(Schedule(c, steps).received) == LastCompleted
  {
    EmptyPollsMissNoSuccess(c, steps);
    DeliveredIff(c, steps);
  }

  // ------------------------------------------------- what a successor can receive

  /** `a` is an ordered selection of `b`. */
  ghost predicate Selection(a: seq<Event>, b: seq<Event>) {
    a == [] ||
    (b != [] &&
     ((a[|a| - 1] == b[|b| - 1] && Selection(a[..|a| - 1], b[..|b| - 1])) || Selection(a, b[..|b| - 1])))
  }

  lemma SelectionMore(a: seq<Event>, b: seq<Event>, e: Event)
    requires Selection(a, b)
    ensures Selection(a, b + [e]) && Selection(a + [e], b + [e])
  {
    assert (b + [e])[..|b + [e]| - 1] == b && (a + [e])[..|a + [e]| - 1] == a;
  }

  lemma {:induction false} SelectionOn(a: seq<Event>, b: seq<Event>, more: seq<Event>)
    requires Selection(a, b)
    ensures Selection(a, b + more)
  {
    if more == [] {
      assert b + more == b;
    } else {
      var init, last := more[..|more| - 1], more[|more| - 1];
      SelectionOn(a, b, init);
      SelectionMore(a, b + init, last);
      assert more == init + [last] && b + more == (b + init) + [last];
    }
  }

  /** An ordered selection of the events from number `lo` to number `hi`. */
  ghost predicate Selects(a: seq<Event>, log: seq<Event>, lo: nat, hi: int) {
    lo <= hi <= |log| && Selection(a, log[lo..hi])
  }

  lemma SelectsOn(a: seq<Event>, log: seq<Event>, lo: nat, hi: int, end: int)
    requires Selects(a, log, lo, hi) && hi <= end <= |log|
    ensures Selects(a, log, lo, end)
  {
    assert log[lo..end] == log[lo..hi] + log[hi..end];
    SelectionOn(a, log[lo..hi], log[hi..end]);
  }

  lemma SelectsMore(a: seq<Event>, log: seq<Event>, es: seq<Event>, lo: nat, hi: int, end: int)
    requires Selects(a, log, lo, hi) && hi <= end <= |log| + |es|
    ensures Selects(a, log + es, lo, end)
  {
    assert (log + es)[lo..hi] == log[lo..hi];
    SelectsOn(a, log + es, lo, hi, end);
  }

  lemma SelectsNext(a: seq<Event>, log: seq<Event>, lo: nat, hi: int)
    requires Selects(a, log, lo, hi) && hi < |log|
    ensures Selects(a + [log[hi]], log, lo, hi + 1)
  {
    assert log[lo..hi + 1] == log[lo..hi] + [log[hi]];
    SelectionMore(a, log[lo..hi], log[hi]);
  }

  /** The latest subscription selects from what came since its queue was made; a live one, from
      what came before the events still queued. */
  ghost predicate ReceivesFits(s: State) {
    && Selects(s.received, s.log, s.since, |s.log|)
    && (s.subscriber == Attached ==> s.since == s.base && Selects(s.received, s.log, s.base, |s.log| - |s.queue|))
  }

  lemma EmitReceives(s: State, t: Control, es: seq<Event>, queue: seq<Event>)
    requires ReceivesFits(s) && |queue| <= |s.queue| + |es|
    ensures ReceivesFits(s.(ctl := t, log := s.log + es, queue := queue))
  {
    SelectsMore(s.received, s.log, es, s.since, |s.log|, |s.log| + |es|);
    if s.subscriber == Attached {
      SelectsMore(s.received, s.log, es, s.base, |s.log| - |s.queue|, |s.log| + |es| - |queue|);
    }
  }

  lemma CoroutineReceives(c: Config, s: State, e: Step)
    requires QueueFits(c, s) && ReceivesFits(s)
    ensures ReceivesFits(RunCoroutine(c, s, e))
  {
    var es := Emits(c, s.ctl, e);
    PutAllKeepsSuffix(c, s.log, s.base, s.queue, es);
    EmitReceives(s, Resume(c, s.ctl, e), es, PutAll(s.queue, c.cap, es));
  }

  lemma NextSelects(a: seq<Event>, log: seq<Event>, lo: nat, n: nat, e: Event)
    requires n < |log| && e == log[n] && Selects(a, log, lo, n)
    ensures Selects(a + [e], log, lo, n + 1) && Selects(a + [e], log, lo, |log|)
  {
    SelectsNext(a, log, lo, n);
    SelectsOn(a + [e], log, lo, n + 1, |log|);
  }

  lemma TakeReceives(c: Config, s: State)
    requires SuffixQueue(c, s.log, s.base, s.queue) && ReceivesFits(s) && s.subscriber == Attached && s.queue != []
    ensures ReceivesFits(TakeOne(s))
  {
    NextSelects(s.received, s.log, s.base, |s.log| - |s.queue|, s.queue[0]);
  }

  lemma ReceivesStep(c: Config, s: State, e: Step)
    requires Inv(c, s) && Enabled(s, e) && ReceivesFits(s)
    ensures ReceivesFits(Apply(c, s, e))
  {
    if !OfSubscriber(e) { CoroutineReceives(c, s, e); } else if e.Take? { TakeReceives(c, s); }
  }

  /** In every schedule of any number of subscriptions one after the other, each receives an
      ordered selection of the events emitted since its predecessor ended. */
  lemma {:induction false} ReceivesSince(c: Config, steps: seq<Step>)
    ensures ReceivesFits(Schedule(c, steps))
  {
    if steps != [] {
      var init, e := steps[..|steps| - 1], steps[|steps| - 1];
      ReceivesSince(c, init);
      ScheduleInv(c, init);
      if Enabled(Schedule(c, init), e) { ReceivesStep(c, Schedule(c, init), e); }
    }
  }

  /** A subscription over, or one that has received nothing. */
  predicate NothingNew(before: State, after: State) {
    && Spent(after) && after.queue == [] && after.log == before.log
    && (after.received == [] || (after.received == before.received && after.subscriber == before.subscriber))
  }

  lemma SpentStep(c: Config, before: State, s: State, e: Step)
    requires Inv(c, s) && Enabled(s, e) && NothingNew(before, s) && before.subscriber != Attached
    ensures NothingNew(before, Apply(c, s, e))
  {
    if !OfSubscriber(e) {
      ResumeQueue(c, s.ctl, s.log, e);
      assert s.log + [] == s.log;
    }
  }

  /** Once the terminal event has been dropped with its queue, every later subscription receives
      nothing, whatever the schedule goes on with. */
  lemma {:induction false} TooLate(c: Config, steps: seq<Step>, more: seq<Step>)
    requires Spent(Schedule(c, steps)) && Schedule(c, steps).subscriber != Attached
    ensures NothingNew(Schedule(c, steps), Schedule(c, steps + more))
  {
    if more == [] {
      assert steps + more == steps;
      ScheduleInv(c, steps);
    } else {
      var init, e := more[..|more| - 1], more[|more| - 1];
      TooLate(c, steps, init);
      ScheduleInv(c, steps + init);
      assert steps + more == (steps + init) + [e];
      Extend(c, steps + init, e, steps + more);
      if Enabled(Schedule(c, steps + init), e) { SpentStep(c, Schedule(c, steps), Schedule(c, steps + init), e); }
    }
  }

  // ------------------------------------------------- when a subscription has to end

  /** What the flags of a subscription that ended on a poll say: no terminal event was out, events
      were queued, the terminal event came before the queue. */
  predicate PollSaw(how: Subscriber, s: State) {
    && how.EndedByPoll? && (how.early <==> Count(Terminal, s.log) == 0) && (how.pending <==> s.queue != [])
    && (how.late <==> Count(Terminal, s.log) == 1 && s.base == |s.log|)
  }

  lemma PollSees(c: Config, s: State)
    requires Fits(c, s.ctl, s.log) && (s.ctl.status == Completed || s.ctl.status == Failed)
    ensures PollSaw(RunSubscriber(s, Poll).subscriber, s)
  {
  }

  /** A poll ends a live subscription exactly when it reads "completed" or "failed", and drops
      its queue; otherwise it changes nothing. */
  lemma PollEndsIff(c: Config, steps: seq<Step>)
    requires Schedule(c, steps).subscriber == Attached
    ensures var s, after := Schedule(c, steps), Schedule(c, steps + [Poll]);
      if s.ctl.status == Completed || s.ctl.status == Failed
      then PollSaw(after.subscriber, s) && after == s.(subscriber := after.subscriber, queue := [], base := |s.log|)
      else after == s
  {
    var s := Schedule(c, steps);
    Extend(c, steps, Poll, steps + [Poll]);
    ScheduleInv(c, steps);
    if s.ctl.status == Completed || s.ctl.status == Failed { PollSees(c, s); }
  }

  function Takes(n: nat): seq<Step> { if n == 0 then [] else Takes(n - 1) + [Take] }

  lemma TakeAgain(c: Config, steps: seq<Step>, n: nat)
    ensures var s := Schedule(c, steps + Takes(n));
      Schedule(c, steps + Takes(n + 1)) == if Enabled(s, Take) then TakeOne(s) else s
  {
    assert steps + Takes(n + 1) == (steps + Takes(n)) + [Take];
    Extend(c, steps + Takes(n), Take, steps + Takes(n + 1));
  }

  /** What `n` takes leave of a live subscription: the rest of its queue, until the last one ends it. */
  predicate TakesLeave(s: State, after: State, n: nat) {
    && after.ctl == s.ctl
    && if n < |s.queue| then after.subscriber == Attached && |after.queue| == |s.queue| - n
       else if s.queue == [] then after.subscriber == Attached && after.queue == []
       else after.subscriber == EndedByEvent
  }

  lemma OneTakeMore(c: Config, s: State, u: State, n: nat)
    requires Inv(c, u) && Settled(u.ctl) && TakesLeave(s, u, n)
    ensures TakesLeave(s, if Enabled(u, Take) then TakeOne(u) else u, n + 1)
  {
    if u.queue != [] { TakenIsLast(c, u); }
  }

  lemma {:induction false} AfterTakes(c: Config, steps: seq<Step>, n: nat)
    requires Schedule(c, steps).ctl.outer == Finished && Schedule(c, steps).subscriber == Attached
    ensures TakesLeave(Schedule(c, steps), Schedule(c, steps + Takes(n)), n)
  {
    if n == 0 {
      assert steps + Takes(0) == steps;
    } else {
      AfterTakes(c, steps, n - 1);
      TakeAgain(c, steps, n - 1);
      ScheduleInv(c, steps + Takes(n - 1));
      OneTakeMore(c, Schedule(c, steps), Schedule(c, steps + Takes(n - 1)), n - 1);
    }
  }

  /** When the call has ended, a live subscription is over after some takes and a poll, unless the
      status is no terminal one and the takes leave something queued or there was nothing. */
  lemma OverAfterTakes(c: Config, steps: seq<Step>, n: nat)
    requires Schedule(c, steps).ctl.outer == Finished && Schedule(c, steps).subscriber == Attached
    ensures var s := Schedule(c, steps);
      Schedule(c, steps + Takes(n) + [Poll]).subscriber == Attached <==>
        s.ctl.status != Completed && s.ctl.status != Failed && (n < |s.queue| || s.queue == [])
  {
    AfterTakes(c, steps, n);
    if Schedule(c, steps + Takes(n)).subscriber == Attached {
      PollEndsIff(c, steps + Takes(n));
    } else {
      Extend(c, steps + Takes(n), Poll, steps + Takes(n) + [Poll]);
    }
  }

  // ------------------------------------------------------------ concrete schedules

  lemma Extend(c: Config, steps: seq<Step>, e: Step, more: seq<Step>)
    requires more == steps + [e]
    ensures Schedule(c, more) == if Enabled(Schedule(c, steps), e) then Apply(c, Schedule(c, steps), e) else Schedule(c, steps)
  {
    assert more[..|more| - 1] == steps;
  }

  /** A coroutine step that is enabled, whatever the queue drops. */
  lemma ExtendCoroutine(c: Config, steps: seq<Step>, e: Step, more: seq<Step>)
    requires more == steps + [e] && !OfSubscriber(e) && MayResume(Schedule(c, steps).ctl, e)
    ensures var s, after := Schedule(c, steps), Schedule(c, more);
      && after.ctl == Resume(c, s.ctl, e) && after.log == s.log + Emits(c, s.ctl, e)
      && after.subscriber == s.subscriber
  {
    Extend(c, steps, e, more);
  }

  /** A take before the call is settled, or on an empty queue. */
  lemma ExtendTake(c: Config, steps: seq<Step>, more: seq<Step>)
    requires more == steps + [Take] && Schedule(c, steps).subscriber == Attached && !Settled(Schedule(c, steps).ctl)
    ensures var s, after := Schedule(c, steps), Schedule(c, more);
      after.ctl == s.ctl && after.log == s.log && after.subscriber == Attached
  {
    Extend(c, steps, Take, more);
    if Schedule(c, steps).queue != [] { TakeOneTells(Schedule(c, steps)); }
    ScheduleInv(c, steps);
    if Schedule(c, steps).queue != [] { TakenIsLast(c, Schedule(c, steps)); }
  }

  /** The workflow gets under way. */
  lemma GetsToWork(c: Config, steps: seq<Step>) returns (more: seq<Step>)
    requires Schedule(c, steps).ctl.inner == NotStarted && !Schedule(c, steps).ctl.cancelled
    ensures more == steps + [InnerStart(true)] + [InnerInit(Ready)]
    ensures Schedule(c, more).ctl == Schedule(c, steps).ctl.(status := Running, inner := Working)
    ensures Schedule(c, more).subscriber == Schedule(c, steps).subscriber
  {
    var started := steps + [InnerStart(true)];
    ExtendCoroutine(c, steps, InnerStart(true), started);
    more := started + [InnerInit(Ready)];
    ExtendCoroutine(c, started, InnerInit(Ready), more);
  }

  lemma TakesTwice(c: Config, steps: seq<Step>) returns (more: seq<Step>)
    requires Schedule(c, steps).subscriber == Attached && !Settled(Schedule(c, steps).ctl)
    ensures more == steps + [Take] + [Take]
    ensures Schedule(c, more).ctl == Schedule(c, steps).ctl && Schedule(c, more).subscriber == Attached
  {
    var one := steps + [Take];
    ExtendTake(c, steps, one);
    more := one + [Take];
    ExtendTake(c, one, more);
  }

  /** The workflow succeeds and the subscription's poll times out as the event is put. */
  lemma SucceedsThenPolls(c: Config, steps: seq<Step>) returns (more: seq<Step>)
    requires Schedule(c, steps).ctl.inner == Working && !Schedule(c, steps).ctl.cancelled
    requires Schedule(c, steps).subscriber == Attached
    ensures more == steps + [InnerWork(Succeed)] + [Poll]
    ensures LastOf(Schedule(c, more).log) == LastCompleted && Schedule(c, more).subscriber.EndedByPoll?
    ensures !NoPollOfSuccess(c, more)
  {
    var done := steps + [InnerWork(Succeed)];
    ExtendCoroutine(c, steps, InnerWork(Succeed), done);
    more := done + [Poll];
    Extend(c, done, Poll, more);
    assert more[..|more| - 1] == done;
  }

  lemma Attaches(c: Config) returns (steps: seq<Step>)
    ensures steps == [] + [Attach]
    ensures Schedule(c, steps).ctl == Initial(c).ctl && Schedule(c, steps).subscriber == Attached
  {
    var none: seq<Step> := [];
    steps := none + [Attach];
    Extend(c, none, Attach, steps);
  }

  /** A subscriber attached from the start, which has taken everything there is, loses
      `job.completed` when its poll times out as the event is put. */
  lemma LosesCompleted(c: Config) returns (attached: seq<Step>, working: seq<Step>, taken: seq<Step>, steps: seq<Step>)
    ensures attached == [] + [Attach] && working == attached + [InnerStart(true)] + [InnerInit(Ready)]
    ensures taken == working + [Take] + [Take] && steps == taken + [InnerWork(Succeed)] + [Poll]
    ensures LastOf(Schedule(c, steps).log) == LastCompleted && Schedule(c, steps).subscriber.EndedByPoll?
    ensures LastOf(Schedule(c, steps).received) != LastCompleted
  {
    attached := Attaches(c);
    working := GetsToWork(c, attached);
    taken := TakesTwice(c, working);
    steps := SucceedsThenPolls(c, taken);
    DeliveredIff(c, steps);
  }

  /** A configuration in which crossing the soft deadline is announced. */
  predicate Announces(c: Config) { c.soft > 0 && (c.hard <= 0 || c.soft < c.hard) }

  lemma RewindStep(c: Config, t: Control, e: Step)
    requires (t.outer == SoftWait ==> c.soft > 0) && MayResume(t, e)
    ensures Resume(c, t, e).rewound ==> t.rewound || Announces(c)
  {
  }

  lemma {:induction false} RewoundIsAnnounced(c: Config, steps: seq<Step>)
    ensures Schedule(c, steps).ctl.rewound ==> Announces(c)
  {
    if steps != [] {
      var init, e := steps[..|steps| - 1], steps[|steps| - 1];
      RewoundIsAnnounced(c, init);
      ScheduleInv(c, init);
      if Enabled(Schedule(c, init), e) { RewindStep(c, Schedule(c, init).ctl, e); }
    }
  }

  /** The workflow fails and the soft deadline falls while the failure is being recorded. */
  lemma FailsAtDeadline(c: Config, steps: seq<Step>) returns (more: seq<Step>)
    requires Announces(c) && Schedule(c, steps).ctl.outer == SoftWait
    requires Schedule(c, steps).ctl.inner == Working && !Schedule(c, steps).ctl.cancelled
    ensures more == steps + [InnerWork(Fail)] + [WakeSoft]
    ensures var t := Schedule(c, more).ctl;
      t.status == Running && t.inner == Recording && t.rewound && !t.cancelled && (t.outer == HardWait || t.outer == InnerWait)
  {
    var failed := steps + [InnerWork(Fail)];
    ExtendCoroutine(c, steps, InnerWork(Fail), failed);
    more := failed + [WakeSoft];
    ExtendCoroutine(c, failed, WakeSoft, more);
  }

  lemma RecordsAndEnds(c: Config, steps: seq<Step>) returns (more: seq<Step>)
    requires var t := Schedule(c, steps).ctl;
      t.status == Running && t.inner == Recording && !t.cancelled && (t.outer == HardWait || t.outer == InnerWait)
    ensures more == steps + [InnerRecord] + [WakeHard] + [WakeInner]
    ensures Schedule(c, more).ctl.outer == Finished && Schedule(c, more).ctl.status == Running
  {
    var recorded := steps + [InnerRecord];
    ExtendCoroutine(c, steps, InnerRecord, recorded);
    var waited := recorded + [WakeHard];
    Extend(c, recorded, WakeHard, waited);
    more := waited + [WakeInner];
    ExtendCoroutine(c, waited, WakeInner, more);
  }

  predicate LeftRunning(s: State) { s.ctl.outer == Finished && s.ctl.status == Running && LastOf(s.log) == LastFailed }

  /** A failed job that stays "running". A wait for the hard limit, if there is one, ends at
      once because the workflow has. */
  lemma StaysRunning(c: Config) returns (working: seq<Step>, noticed: seq<Step>, steps: seq<Step>)
    requires Announces(c)
    ensures working == [] + [InnerStart(true)] + [InnerInit(Ready)] && noticed == working + [InnerWork(Fail)] + [WakeSoft]
    ensures steps == noticed + [InnerRecord] + [WakeHard] + [WakeInner]
    ensures LeftRunning(Schedule(c, steps))
  {
    var none: seq<Step> := [];
    working := GetsToWork(c, none);
    noticed := FailsAtDeadline(c, working);
    steps := RecordsAndEnds(c, noticed);
    FinalStatus(c, steps);
  }

  ghost predicate CanStayRunning(c: Config) { exists steps: seq<Step> :: LeftRunning(Schedule(c, steps)) }

  /** Some schedule leaves a failed job "running" exactly when the configuration announces
      the soft deadline. */
  lemma CanStayRunningIff(c: Config)
    ensures CanStayRunning(c) <==> Announces(c)
  {
    if Announces(c) {
      var working, noticed, steps := StaysRunning(c);
      assert LeftRunning(Schedule(c, steps));
    }
    if CanStayRunning(c) {
      var steps: seq<Step> :| LeftRunning(Schedule(c, steps));
      FinalStatus(c, steps);
      RewoundIsAnnounced(c, steps);
    }
  }

  // --------------------------------------------------------------- no deadlock

  /** A step of a coroutine that brings the call nearer to its end. */
  function Forward(t: Control): Step {
    if t.outer == SoftWait then WakeSoft
    else if t.outer == HardWait then WakeHard
    else if Done(t.inner) then (if t.outer == CancelWait then WakeCancelled else WakeInner)
    else if t.cancelled then InnerCancel
    else match t.inner
      case NotStarted => InnerStart(false)
      case Initialising => InnerInit(InitError)
      case Working => InnerWork(Fail)
      case _ => InnerRecord
  }

  function OuterRank(o: Outer): nat {
    match o
    case SoftWait => 3
    case HardWait => 2
    case CancelWait => 1
    case InnerWait => 1
    case Finished => 0
  }

  function InnerRank(i: Inner): nat {
    match i
    case NotStarted => 2
    case Initialising => 2
    case Working => 2
    case Recording => 1
    case _ => 0
  }

  /** A call that has not ended can always go on, and gets nearer to its end by doing so. */
  lemma NoDeadlock(c: Config, t: Control)
    requires t.outer != Finished
    ensures MayResume(t, Forward(t)) && !OfSubscriber(Forward(t))
    ensures var u := Resume(c, t, Forward(t));
      OuterRank(u.outer) < OuterRank(t.outer) || (u.outer == t.outer && InnerRank(u.inner) < InnerRank(t.inner))
  {
  }

  /** From wherever a schedule has come to, the call can be brought to its end. */
  lemma {:induction false} CanFinish(c: Config, steps: seq<Step>) returns (more: seq<Step>)
    ensures steps <= more && Schedule(c, more).ctl.outer == Finished
    decreases OuterRank(Schedule(c, steps).ctl.outer), InnerRank(Schedule(c, steps).ctl.inner)
  {
    var t := Schedule(c, steps).ctl;
    more := steps;
    if t.outer != Finished {
      NoDeadlock(c, t);
      var next := steps + [Forward(t)];
      ExtendCoroutine(c, steps, Forward(t), next);
      more := CanFinish(c, next);
    }
  }
}
