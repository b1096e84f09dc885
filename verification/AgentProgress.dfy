/**
 The agent board: the tracker of one job reports its agents' statuses as one snapshot and
 then one event a change; the browser rebuilds the board from those messages alone.
 */
module AgentProgress {
  import opened Helpers

  type Agent = string
  type Status = string

  /** One line of the fixed team table, and one line of a snapshot. */
  datatype Member = Member(team: string, agent: Agent)
  datatype Row = Row(team: string, agent: Agent, status: Status)

  datatype StatusEvent = StatusEvent(agent: Agent, status: Status, previous: Option<Status>)

  // ------------------------------------------------------------------- server

  function Lookup(status: map<Agent, Status>, agent: Agent): Option<Status> {
    if agent in status then Some(status[agent]) else None
  }

  /** `status.get(agent, "pending")`. */
  function StatusOf(status: map<Agent, Status>, agent: Agent): Status {
    if agent in status then status[agent] else "pending"
  }

  /** What `_set_status` emits: nothing when the status stays. */
  function Change(status: map<Agent, Status>, agent: Agent, s: Status): seq<StatusEvent> {
    if Lookup(status, agent) == Some(s) then [] else [StatusEvent(agent, s, Lookup(status, agent))]
  }

  class AgentProgressTracker {
    const roster: seq<Member>
    var status: map<Agent, Status>
    var events: seq<StatusEvent>

    constructor (roster: seq<Member>, skipped: set<Agent>)
      ensures this.roster == roster && events == []
      ensures forall a :: a in status <==> a in skipped || exists i :: 0 <= i < |roster| && roster[i].agent == a
      ensures forall a :: a in status ==> status[a] == if a in skipped then "skipped" else "pending"
    {
      this.roster, this.events := roster, [];
      this.status := (map m | m in roster :: m.agent := "pending") + (map a | a in skipped :: "skipped");
      new;
      assert forall i :: 0 <= i < |roster| ==> roster[i] in roster;
    }

    method SetStatus(agent: Agent, s: Status)
      modifies `status, `events
      ensures status == old(status)[agent := s]
      ensures events == old(events) + Change(old(status), agent, s)
    {
      var prev := Lookup(status, agent);
      if prev == Some(s) {
        assert status == status[agent := s];
        return;
      }
      status := status[agent := s];
      events := events + [StatusEvent(agent, s, prev)];
    }

    method Snapshot() returns (rows: seq<Row>)
      ensures IsSnapshot(rows, roster, status)
    {
      rows := [];
      for i := 0 to |roster|
        invariant IsSnapshot(rows, roster[..i], status)
      {
        rows := rows + [Row(roster[i].team, roster[i].agent, StatusOf(status, roster[i].agent))];
      }
      assert roster[..|roster|] == roster;
    }
  }

  /** One row a member, in the order of the table, with the tracker's status. */
  ghost predicate IsSnapshot(rows: seq<Row>, roster: seq<Member>, status: map<Agent, Status>) {
    && |rows| == |roster|
    && forall i :: 0 <= i < |rows| ==>
         rows[i] == Row(roster[i].team, roster[i].agent, StatusOf(status, roster[i].agent))
  }

  /** Calls of `_set_status`, in order. */
  datatype Call = Call(agent: Agent, status: Status)

  function After(status: map<Agent, Status>, calls: seq<Call>): map<Agent, Status> {
    if calls == [] then status else
      var last := calls[|calls| - 1];
      After(status, calls[..|calls| - 1])[last.agent := last.status]
  }

  function Emitted(status: map<Agent, Status>, calls: seq<Call>): seq<StatusEvent> {
    if calls == [] then [] else
      var init, last := calls[..|calls| - 1], calls[|calls| - 1];
      Emitted(status, init) + Change(After(status, init), last.agent, last.status)
  }

  // ------------------------------------------------------------------- client

  datatype Card = Card(team: string, status: Status)

  /** `x || otherwise`, a missing field being the empty string. */
  function Or(x: string, otherwise: string): string { if x == "" then otherwise else x }

  function Set(board: map<Agent, Card>, row: Row): map<Agent, Card> {
    if row.agent == "" then board else board[row.agent := Card(Or(row.team, "-"), Or(row.status, "pending"))]
  }

  function Seen(board: map<Agent, Card>, rows: seq<Row>): map<Agent, Card> {
    if rows == [] then board else Set(Seen(board, rows[..|rows| - 1]), rows[|rows| - 1])
  }

  function Told(board: map<Agent, Card>, agent: Agent, s: Status): map<Agent, Card> {
    if agent == "" || s == "" then board else
      board[agent := (if agent in board then board[agent] else Card("-", "pending")).(status := s)]
  }

  function Replayed(board: map<Agent, Card>, events: seq<StatusEvent>): map<Agent, Card> {
    if events == [] then board else
      var last := events[|events| - 1];
      Told(Replayed(board, events[..|events| - 1]), last.agent, last.status)
  }

  class AgentBoard {
    var agentState: map<Agent, Card>

    constructor (order: seq<Member>)
      ensures agentState.Keys == set m | m in order :: m.agent
      ensures forall a :: a in agentState ==> agentState[a].status == "pending"
    {
      var state: map<Agent, Card> := map[];
      for i := 0 to |order|
        invariant state.Keys == set m | m in order[..i] :: m.agent
        invariant forall a :: a in state ==> state[a].status == "pending"
      {
        assert order[..i + 1] == order[..i] + [order[i]];
        state := state[order[i].agent := Card(order[i].team, "pending")];
      }
      assert order[..|order|] == order;
      agentState := state;
    }

    method UpdateAgentStatus(agent: Agent, s: Status)
      modifies this
      ensures agentState == Told(old(agentState), agent, s)
    {
      if agent == "" || s == "" { return; }
      var curr := if agent in agentState then agentState[agent] else Card("-", "pending");
      agentState := agentState[agent := curr.(status := s)];
    }

    method UpdateAgentSnapshot(rows: seq<Row>)
      modifies this
      ensures agentState == Seen(old(agentState), rows)
    {
      for i := 0 to |rows|
        invariant agentState == Seen(old(agentState), rows[..i])
      {
        assert rows[..i + 1][..i] == rows[..i];
        if rows[i].agent == "" { continue; }
        agentState := agentState[rows[i].agent := Card(Or(rows[i].team, "-"), Or(rows[i].status, "pending"))];
      }
      assert rows[..|rows|] == rows;
    }
  }

  // ------------------------------------------------- the board follows the tracker

  /** The card shows the tracker's status; an empty status, which the browser drops, it never shows. */
  predicate Follows(board: map<Agent, Card>, status: map<Agent, Status>, agent: Agent) {
    && agent in board && board[agent].status != ""
    && (StatusOf(status, agent) != "" ==> board[agent].status == StatusOf(status, agent))
  }

  lemma {:induction false} SnapshotFollows(board: map<Agent, Card>, rows: seq<Row>, roster: seq<Member>,
                                           status: map<Agent, Status>, n: nat, i: nat)
    requires IsSnapshot(rows, roster, status) && i < n <= |rows| && roster[i].agent != ""
    ensures Follows(Seen(board, rows[..n]), status, roster[i].agent)
  {
    assert rows[..n][..n - 1] == rows[..n - 1];
    if i < n - 1 { SnapshotFollows(board, rows, roster, status, n - 1, i); }
  }

  function ReplayedChange(board: map<Agent, Card>, change: seq<StatusEvent>): map<Agent, Card> {
    if change == [] then board else Told(board, change[0].agent, change[0].status)
  }

  lemma ReplayedMore(board: map<Agent, Card>, events: seq<StatusEvent>, change: seq<StatusEvent>)
    requires |change| <= 1
    ensures Replayed(board, events + change) == ReplayedChange(Replayed(board, events), change)
  {
    if change == [] {
      assert events + change == events;
    } else {
      assert (events + change)[..|events + change| - 1] == events;
    }
  }

  lemma ChangeFollows(board: map<Agent, Card>, status: map<Agent, Status>, agent: Agent, s: Status, a: Agent)
    requires a != "" && Follows(board, status, a)
    ensures Follows(ReplayedChange(board, Change(status, agent, s)), status[agent := s], a)
  {
  }

  lemma {:induction false} ReplayFollows(board: map<Agent, Card>, status: map<Agent, Status>, calls: seq<Call>, a: Agent)
    requires a != "" && Follows(board, status, a)
    ensures Follows(Replayed(board, Emitted(status, calls)), After(status, calls), a)
  {
    if calls != [] {
      var init, last := calls[..|calls| - 1], calls[|calls| - 1];
      ReplayFollows(board, status, init, a);
      ReplayedMore(board, Emitted(status, init), Change(After(status, init), last.agent, last.status));
      ChangeFollows(Replayed(board, Emitted(status, init)), After(status, init), last.agent, last.status, a);
    }
  }

  /** Whatever the board showed before: after a snapshot and any number of status changes, every
      agent of the table shows the tracker's status, exactly unless that status is the empty
      string. Holding for every list of calls, it holds after every prefix of one. */
  lemma BoardFollowsTracker(board: map<Agent, Card>, rows: seq<Row>, roster: seq<Member>,
                            status: map<Agent, Status>, calls: seq<Call>, i: nat)
    requires IsSnapshot(rows, roster, status) && i < |roster| && roster[i].agent != ""
    ensures var shown, now := Replayed(Seen(board, rows), Emitted(status, calls)), After(status, calls);
      && roster[i].agent in shown
      && (shown[roster[i].agent].status == StatusOf(now, roster[i].agent) <==> StatusOf(now, roster[i].agent) != "")
  {
    assert rows[..|rows|] == rows;
    SnapshotFollows(board, rows, roster, status, |rows|, i);
    ReplayFollows(Seen(board, rows), status, calls, roster[i].agent);
  }

  // ------------------------------------------------- what stands on each card

  /** The last row of a snapshot, and the last event with a status, that name an agent. */
  predicate LastRow(rows: seq<Row>, i: nat, a: Agent) {
    i < |rows| && rows[i].agent == a && forall j :: i < j < |rows| ==> rows[j].agent != a
  }

  predicate LastNews(events: seq<StatusEvent>, i: nat, a: Agent) {
    && i < |events| && events[i].agent == a && events[i].status != ""
    && forall j :: i < j < |events| ==> events[j].agent != a || events[j].status == ""
  }

  predicate SameCard(board: map<Agent, Card>, after: map<Agent, Card>, a: Agent) {
    (a in after <==> a in board) && (a in board ==> after[a] == board[a])
  }

  /** A snapshot puts on the card of each agent what its last row says, with a dash for a missing
      team and "pending" for a missing status; other cards stay. */
  lemma {:induction false} SeenOnCard(board: map<Agent, Card>, rows: seq<Row>, i: nat, a: Agent)
    requires a != ""
    ensures LastRow(rows, i, a) ==>
      && a in Seen(board, rows)
      && Seen(board, rows)[a].team == (if rows[i].team == "" then "-" else rows[i].team)
      && Seen(board, rows)[a].status == (if rows[i].status == "" then "pending" else rows[i].status)
    ensures (forall j :: 0 <= j < |rows| ==> rows[j].agent != a) ==> SameCard(board, Seen(board, rows), a)
  {
    if rows != [] {
      var init := rows[..|rows| - 1];
      assert forall j :: 0 <= j < |init| ==> init[j] == rows[j];
      SeenOnCard(board, init, i, a);
    }
  }

  /** Events put the last status told on the card and leave its team; an agent without a card gets
      one with a dash, and an agent without news keeps its card as it is. */
  lemma {:induction false} ToldOnCard(board: map<Agent, Card>, events: seq<StatusEvent>, i: nat, a: Agent)
    requires a != ""
    ensures LastNews(events, i, a) ==>
      a in Replayed(board, events) && Replayed(board, events)[a].status == events[i].status
    ensures a in board ==> a in Replayed(board, events) && Replayed(board, events)[a].team == board[a].team
    ensures a !in board && a in Replayed(board, events) ==> Replayed(board, events)[a].team == "-"
    ensures (forall j :: 0 <= j < |events| ==> events[j].agent != a || events[j].status == "") ==>
      SameCard(board, Replayed(board, events), a)
  {
    if events != [] {
      var init := events[..|events| - 1];
      assert forall j :: 0 <= j < |init| ==> init[j] == events[j];
      ToldOnCard(board, init, i, a);
    }
  }

  /** A row or an event without an agent never makes a card. */
  lemma {:induction false} NoNamelessCard(board: map<Agent, Card>, rows: seq<Row>, events: seq<StatusEvent>)
    ensures SameCard(board, Seen(board, rows), "") && SameCard(board, Replayed(board, events), "")
    decreases |rows| + |events|
  {
    if rows != [] { NoNamelessCard(board, rows[..|rows| - 1], []); }
    if events != [] { NoNamelessCard(board, [], events[..|events| - 1]); }
  }

  // ------------------------------------------------------------- chained events

  /** The status the events before the `n`-th leave an agent with. */
  function Before(status: map<Agent, Status>, events: seq<StatusEvent>, n: nat, agent: Agent): Option<Status>
    requires n <= |events|
  {
    if n == 0 then Lookup(status, agent)
    else if events[n - 1].agent == agent then Some(events[n - 1].status)
    else Before(status, events, n - 1, agent)
  }

  lemma {:induction false} BeforePrefix(status: map<Agent, Status>, events: seq<StatusEvent>, more: seq<StatusEvent>,
                                        n: nat, agent: Agent)
    requires n <= |events|
    ensures Before(status, events + more, n, agent) == Before(status, events, n, agent)
  {
    if n > 0 { BeforePrefix(status, events, more, n - 1, agent); }
  }

  lemma BeforeChange(status: map<Agent, Status>, events: seq<StatusEvent>, change: seq<StatusEvent>, agent: Agent)
    requires |change| <= 1
    ensures Before(status, events + change, |events + change|, agent)
      == if change != [] && change[0].agent == agent then Some(change[0].status) else Before(status, events, |events|, agent)
  {
    BeforePrefix(status, events, change, |events|, agent);
  }

  lemma ChangeTells(status: map<Agent, Status>, agent: Agent, s: Status, a: Agent)
    ensures Lookup(status[agent := s], a)
      == if Change(status, agent, s) != [] && agent == a then Some(s) else Lookup(status, a)
  {
  }

  lemma {:induction false} EventsTellAll(status: map<Agent, Status>, calls: seq<Call>, agent: Agent)
    ensures Before(status, Emitted(status, calls), |Emitted(status, calls)|, agent) == Lookup(After(status, calls), agent)
  {
    if calls != [] {
      var init, last := calls[..|calls| - 1], calls[|calls| - 1];
      EventsTellAll(status, init, agent);
      BeforeChange(status, Emitted(status, init), Change(After(status, init), last.agent, last.status), agent);
      ChangeTells(After(status, init), last.agent, last.status, agent);
    }
  }

  /** Every event names the status its agent had by the events before it, and changes it. */
  lemma {:induction false} EventsChain(status: map<Agent, Status>, calls: seq<Call>, k: nat)
    requires k < |Emitted(status, calls)|
    ensures var events := Emitted(status, calls);
      && events[k].previous == Before(status, events, k, events[k].agent)
      && events[k].previous != Some(events[k].status)
  {
    var init, last := calls[..|calls| - 1], calls[|calls| - 1];
    var earlier, change := Emitted(status, init), Change(After(status, init), last.agent, last.status);
    BeforePrefix(status, earlier, change, if k < |earlier| then k else |earlier|, Emitted(status, calls)[k].agent);
    if k < |earlier| { EventsChain(status, init, k); } else { EventsTellAll(status, init, last.agent); }
  }

  /** Two events of one agent with none of that agent between them. */
  lemma {:induction false} BeforeIsLatest(status: map<Agent, Status>, events: seq<StatusEvent>, i: nat, n: nat)
    requires i < n <= |events| && forall m :: i < m < n ==> events[m].agent != events[i].agent
    ensures Before(status, events, n, events[i].agent) == Some(events[i].status)
  {
    if i < n - 1 { BeforeIsLatest(status, events, i, n - 1); }
  }

  /** Successive events of one agent chain through `previous_status` and always change it. */
  lemma SuccessiveEventsChain(status: map<Agent, Status>, calls: seq<Call>, i: nat, j: nat)
    requires i < j < |Emitted(status, calls)|
    requires var events := Emitted(status, calls);
      events[j].agent == events[i].agent && forall m :: i < m < j ==> events[m].agent != events[i].agent
    ensures var events := Emitted(status, calls);
      events[j].previous == Some(events[i].status) && events[j].status != events[i].status
  {
    EventsChain(status, calls, j);
    BeforeIsLatest(status, Emitted(status, calls), i, j);
  }
}
