/**
 The compiled agent graph from Bull Researcher to END: its routers, its edge maps and
 the parts of the nodes that the routers read. A verdict of the risk judge is an input.
 */
module AgentGraph {
  import opened Helpers

  datatype Node = Bull | Bear | ResearchManager | Trader | Aggressive | Conservative | Neutral | RiskJudge | End

  datatype Verdict = Pass | Revise | Reject

  datatype Speaker = Nobody | BullSpeaker | BearSpeaker | AggressiveSpeaker | ConservativeSpeaker | NeutralSpeaker | Judge

  /** The graph state the routers depend on. */
  datatype State = State(
    debateCount: nat, debateSpeaker: Speaker,
    riskCount: nat, riskSpeaker: Speaker,
    retryCount: nat, maxRetries: int, revisionRequired: bool, revised: bool)

  /** `max_debate_rounds` and `max_risk_discuss_rounds`. */
  datatype Config = Config(debateRounds: int, riskRounds: int)

  // --------------------------------------------------------------- routers

  function ShouldContinueDebate(c: Config, s: State): Node {
    if s.debateCount >= 2 * c.debateRounds then ResearchManager
    else if s.debateSpeaker == BullSpeaker then Bear
    else Bull
  }

  function ShouldContinueRiskAnalysis(c: Config, s: State): Node {
    if s.riskCount >= 3 * c.riskRounds then RiskJudge
    else if s.riskSpeaker == AggressiveSpeaker then Conservative
    else if s.riskSpeaker == ConservativeSpeaker then Neutral
    else Aggressive
  }

  function ShouldReviseAfterRiskJudge(s: State): Node {
    if s.revisionRequired && s.retryCount <= s.maxRetries then Trader else End
  }

  /** The successors the graph was compiled with: a router label outside fails the run. */
  function Targets(n: Node): set<Node> {
    match n
    case Bull => {Bear, ResearchManager}
    case Bear => {Bull, ResearchManager}
    case ResearchManager => {Trader}
    case Trader => {Aggressive}
    case Aggressive => {Conservative, RiskJudge}
    case Conservative => {Neutral, RiskJudge}
    case Neutral => {Aggressive, RiskJudge}
    case RiskJudge => {Trader, End}
    case End => {}
  }

  // ----------------------------------------------------------------- nodes

  /** What executing a node writes; `v` is used by the risk judge only. */
  function Execute(n: Node, s: State, v: Verdict): State {
    match n
    case Bull => s.(debateCount := s.debateCount + 1, debateSpeaker := BullSpeaker)
    case Bear => s.(debateCount := s.debateCount + 1, debateSpeaker := BearSpeaker)
    case ResearchManager => s
    case Trader =>
      if s.revised then s.(riskCount := 0, riskSpeaker := Nobody, revisionRequired := false) else s
    case Aggressive => s.(riskCount := s.riskCount + 1, riskSpeaker := AggressiveSpeaker)
    case Conservative => s.(riskCount := s.riskCount + 1, riskSpeaker := ConservativeSpeaker)
    case Neutral => s.(riskCount := s.riskCount + 1, riskSpeaker := NeutralSpeaker)
    case RiskJudge =>
      s.(riskSpeaker := Judge, revised := v == Revise, revisionRequired := v == Revise,
         retryCount := if v == Revise then s.retryCount + 1 else s.retryCount)
    case End => s
  }

  /** The label chosen after `n` has written `s`. */
  function Route(c: Config, n: Node, s: State): Node {
    match n
    case Bull => ShouldContinueDebate(c, s)
    case Bear => ShouldContinueDebate(c, s)
    case ResearchManager => Trader
    case Trader => Aggressive
    case Aggressive => ShouldContinueRiskAnalysis(c, s)
    case Conservative => ShouldContinueRiskAnalysis(c, s)
    case Neutral => ShouldContinueRiskAnalysis(c, s)
    case RiskJudge => ShouldReviseAfterRiskJudge(s)
    case End => End
  }

  function Initial(maxRetries: int): State { State(0, Nobody, 0, Nobody, 0, maxRetries, false, false) }

  // --------------------------------------------------------------- running

  function Gap(a: int, b: int): nat { if a <= b then b - a else 0 }

  /** Verdicts "revise" that can still send the plan back to the trader. */
  function RetriesLeft(s: State): nat { Gap(s.retryCount, s.maxRetries) }

  function Phase(n: Node): nat {
    match n
    case Bull | Bear => 4
    case ResearchManager => 3
    case Trader => 2
    case Aggressive | Conservative | Neutral => 1
    case RiskJudge | End => 0
  }

  function TurnsLeft(c: Config, n: Node, s: State): nat {
    match n
    case Bull | Bear => Gap(s.debateCount, 2 * c.debateRounds)
    case Aggressive | Conservative | Neutral => Gap(s.riskCount, 3 * c.riskRounds)
    case _ => 0
  }

  /** What every step of a run keeps: who spoke last where each node is next, and the verdict.
      When the trader is next, the last verdict asked for a revision within the limit, or there
      has been none; a request for a revision stands from the judge to the trader and no longer. */
  ghost predicate Inv(n: Node, s: State) {
    && (n in {Bull, Bear, ResearchManager} ==> s.riskCount == 0 && s.riskSpeaker == Nobody && !s.revised && s.retryCount == 0)
    && (n in {Bull, Bear, ResearchManager} ==> !s.revisionRequired)
    && (n == Bull ==> s.debateSpeaker in {Nobody, BearSpeaker})
    && (n == Bear ==> s.debateSpeaker == BullSpeaker)
    && (n == ResearchManager ==> s.debateSpeaker in {BullSpeaker, BearSpeaker})
    && (n == Trader ==> s.revised || (s.riskCount == 0 && s.riskSpeaker == Nobody && s.retryCount == 0))
    && (n == Trader ==> s.revisionRequired == s.revised && (s.revised ==> s.riskSpeaker == Judge && s.retryCount <= s.maxRetries))
    && (n in {Aggressive, Conservative, Neutral, RiskJudge} ==> !s.revisionRequired)
    && (n == Aggressive ==> s.riskSpeaker in {Nobody, NeutralSpeaker})
    && (n == Conservative ==> s.riskSpeaker == AggressiveSpeaker)
    && (n == Neutral ==> s.riskSpeaker == ConservativeSpeaker)
    && (n == RiskJudge ==> s.riskSpeaker in {AggressiveSpeaker, ConservativeSpeaker, NeutralSpeaker})
    && (n == End ==> s.riskSpeaker == Judge && s.revisionRequired == s.revised && (s.revised ==> s.retryCount > s.maxRetries))
  }

  /** Every router returns a label of its own edge map, and the invariant is kept. */
  lemma StepIsSafe(c: Config, n: Node, s: State, v: Verdict)
    requires n != End && Inv(n, s)
    ensures Route(c, n, Execute(n, s, v)) in Targets(n)
    ensures Inv(Route(c, n, Execute(n, s, v)), Execute(n, s, v))
  {
  }

  function AtLeastOne(k: int): (r: nat)
    ensures r >= 1 && r >= k && (r == k || (r == 1 && k < 1))
  {
    if k >= 1 then k else 1
  }

  /** The nodes executed from `n` on, when the judge's verdicts from number `j` on are
      `verdicts(j)`, `verdicts(j + 1)`, ... It terminates: each return to the trader uses
      up a retry, and between returns the phase falls or a debate loses a turn. */
  function Run(c: Config, n: Node, s: State, verdicts: nat -> Verdict, j: nat): seq<Node>
    decreases RetriesLeft(s), Phase(n), TurnsLeft(c, n, s)
  {
    if n == End then [] else
      var s' := Execute(n, s, verdicts(j));
      var n' := Route(c, n, s');
      if n' == End then [n] else
        [n] + Run(c, n', s', verdicts, if n == RiskJudge then j + 1 else j)
  }

  /** Consecutive nodes are joined by an edge, and the last has one to END. */
  ghost predicate AlongEdges(run: seq<Node>) {
    && run != [] && End in Targets(run[|run| - 1])
    && forall i :: 0 <= i < |run| - 1 ==> run[i + 1] in Targets(run[i])
  }

  lemma EdgeInFront(n: Node, rest: seq<Node>)
    requires AlongEdges(rest) && rest[0] in Targets(n)
    ensures AlongEdges([n] + rest)
  {
    var run := [n] + rest;
    forall i | 0 <= i < |run| - 1 ensures run[i + 1] in Targets(run[i]) {
      if i > 0 { assert rest[i - 1 + 1] in Targets(rest[i - 1]); }
    }
  }

  lemma {:induction false} RunAlongEdges(c: Config, n: Node, s: State, verdicts: nat -> Verdict, j: nat)
    requires n != End && Inv(n, s)
    ensures AlongEdges(Run(c, n, s, verdicts, j)) && Run(c, n, s, verdicts, j)[0] == n
    decreases RetriesLeft(s), Phase(n), TurnsLeft(c, n, s)
  {
    StepIsSafe(c, n, s, verdicts(j));
    var s' := Execute(n, s, verdicts(j));
    var n' := Route(c, n, s');
    if n' != End {
      var k := if n == RiskJudge then j + 1 else j;
      RunAlongEdges(c, n', s', verdicts, k);
      EdgeInFront(n, Run(c, n', s', verdicts, k));
    }
  }

  /** From Bull Researcher every run goes along the compiled edges to END. */
  lemma EveryRunReachesEnd(c: Config, maxRetries: int, verdicts: nat -> Verdict)
    ensures AlongEdges(Run(c, Bull, Initial(maxRetries), verdicts, 0))
  {
    RunAlongEdges(c, Bull, Initial(maxRetries), verdicts, 0);
  }

  // ------------------------------------------------------------ closed form

  /** The first `k` turns of the research debate. */
  function DebateTurns(k: nat): seq<Node> { seq(k, i requires 0 <= i < k => DebaterAt(i)) }

  function DebaterAt(i: nat): Node { if i % 2 == 0 then Bull else Bear }

  /** The first `k` turns of a risk debate. */
  function RiskTurns(k: nat): seq<Node> { seq(k, i requires 0 <= i < k => AnalystAt(i)) }

  function AnalystAt(i: nat): Node {
    if i % 3 == 0 then Aggressive else if i % 3 == 1 then Conservative else Neutral
  }

  function Round(c: Config): seq<Node> { [Trader] + RiskTurns(AtLeastOne(3 * c.riskRounds)) + [RiskJudge] }

  function Rounds(c: Config, m: nat): seq<Node> { Repeated(Round(c), m) }

  function Repeated(round: seq<Node>, m: nat): seq<Node> { if m == 0 then [] else round + Repeated(round, m - 1) }

  /** Returns to the trader: leading "revise" verdicts, but no more than `left`. */
  function Revisits(verdicts: nat -> Verdict, j: nat, left: int): (m: nat)
    ensures m <= AtLeastOne(left + 1) - 1
    decreases if left > 0 then left else 0
  {
    if left >= 1 && verdicts(j) == Revise then 1 + Revisits(verdicts, j + 1, left - 1) else 0
  }

  /** They are the leading "revise" verdicts, cut only by the limit. */
  lemma {:induction false} RevisitsAreLeading(verdicts: nat -> Verdict, j: nat, left: int, i: nat)
    ensures var m := Revisits(verdicts, j, left);
      && (j <= i < j + m ==> verdicts(i) == Revise)
      && (m < left ==> verdicts(j + m) != Revise)
    decreases if left > 0 then left else 0
  {
    if left >= 1 && verdicts(j) == Revise {
      RevisitsAreLeading(verdicts, j + 1, left - 1, i);
      var k := Revisits(verdicts, j + 1, left - 1);
      assert j + 1 + k == j + (1 + k);
    }
  }

  // ----------------------------------------------------------------- proofs

  lemma DebateStep(c: Config, s: State, verdicts: nat -> Verdict, j: nat) returns (s': State)
    requires s.debateSpeaker == BullSpeaker <==> s.debateCount % 2 == 1
    ensures s' == s.(debateCount := s.debateCount + 1, debateSpeaker := s'.debateSpeaker)
    ensures s'.debateSpeaker == BullSpeaker <==> s'.debateCount % 2 == 1
    ensures Run(c, DebaterAt(s.debateCount), s, verdicts, j) == [DebaterAt(s.debateCount)]
      + Run(c, if s'.debateCount < 2 * c.debateRounds then DebaterAt(s'.debateCount) else ResearchManager, s', verdicts, j)
  {
    s' := Execute(DebaterAt(s.debateCount), s, verdicts(j));
  }

  lemma RiskStep(c: Config, s: State, verdicts: nat -> Verdict, j: nat) returns (s': State)
    requires s.riskSpeaker == AggressiveSpeaker <==> s.riskCount % 3 == 1
    requires s.riskSpeaker == ConservativeSpeaker <==> s.riskCount % 3 == 2
    ensures s' == s.(riskCount := s.riskCount + 1, riskSpeaker := s'.riskSpeaker)
    ensures s'.riskSpeaker == AggressiveSpeaker <==> s'.riskCount % 3 == 1
    ensures s'.riskSpeaker == ConservativeSpeaker <==> s'.riskCount % 3 == 2
    ensures Run(c, AnalystAt(s.riskCount), s, verdicts, j) == [AnalystAt(s.riskCount)]
      + Run(c, if s'.riskCount < 3 * c.riskRounds then AnalystAt(s'.riskCount) else RiskJudge, s', verdicts, j)
  {
    s' := Execute(AnalystAt(s.riskCount), s, verdicts(j));
  }

  /** Turn `k` in front of the later turns and the rest of the run. */
  lemma Prepend<T>(turns: seq<T>, k: nat, run: seq<T>, later: seq<T>, rest: seq<T>)
    requires k < |turns| && run == [turns[k]] + later && later == turns[k + 1..] + rest
    ensures run == turns[k..] + rest
  {
    assert turns[k..] == [turns[k]] + turns[k + 1..];
  }

  lemma LastTurn<T>(turns: seq<T>, k: nat, run: seq<T>, rest: seq<T>)
    requires k == |turns| - 1 && run == [turns[k]] + rest
    ensures run == turns[k..] + rest
  {
  }

  lemma {:induction false} DebateTrace(c: Config, s: State, verdicts: nat -> Verdict, j: nat) returns (last: State)
    requires s.debateCount == 0 || s.debateCount < 2 * c.debateRounds
    requires s.debateSpeaker == BullSpeaker <==> s.debateCount % 2 == 1
    ensures last == s.(debateCount := last.debateCount, debateSpeaker := last.debateSpeaker)
    ensures Run(c, DebaterAt(s.debateCount), s, verdicts, j)
      == DebateTurns(AtLeastOne(2 * c.debateRounds))[s.debateCount..] + Run(c, ResearchManager, last, verdicts, j)
    decreases Gap(s.debateCount, 2 * c.debateRounds)
  {
    var k, turns := s.debateCount, DebateTurns(AtLeastOne(2 * c.debateRounds));
    var s' := DebateStep(c, s, verdicts, j);
    if s'.debateCount < 2 * c.debateRounds {
      last := DebateTrace(c, s', verdicts, j);
      Prepend(turns, k, Run(c, DebaterAt(k), s, verdicts, j), Run(c, DebaterAt(k + 1), s', verdicts, j), Run(c, ResearchManager, last, verdicts, j));
    } else {
      last := s';
      LastTurn(turns, k, Run(c, DebaterAt(k), s, verdicts, j), Run(c, ResearchManager, s', verdicts, j));
    }
  }

  ghost predicate Rotation(turns: seq<Node>, n: nat) {
    |turns| == n && forall i :: 0 <= i < n ==> turns[i] == AnalystAt(i)
  }

  lemma {:induction false} RotationTrace(c: Config, s: State, verdicts: nat -> Verdict, j: nat, turns: seq<Node>)
    returns (last: State)
    requires s.riskCount == 0 || s.riskCount < 3 * c.riskRounds
    requires s.riskSpeaker == AggressiveSpeaker <==> s.riskCount % 3 == 1
    requires s.riskSpeaker == ConservativeSpeaker <==> s.riskCount % 3 == 2
    requires Rotation(turns, AtLeastOne(3 * c.riskRounds))
    ensures last == s.(riskCount := last.riskCount, riskSpeaker := last.riskSpeaker)
    ensures Run(c, AnalystAt(s.riskCount), s, verdicts, j) == turns[s.riskCount..] + Run(c, RiskJudge, last, verdicts, j)
    decreases Gap(s.riskCount, 3 * c.riskRounds)
  {
    var k := s.riskCount;
    var s' := RiskStep(c, s, verdicts, j);
    if s'.riskCount < 3 * c.riskRounds {
      last := RotationTrace(c, s', verdicts, j, turns);
      Prepend(turns, k, Run(c, AnalystAt(k), s, verdicts, j), Run(c, AnalystAt(k + 1), s', verdicts, j), Run(c, RiskJudge, last, verdicts, j));
    } else {
      last := s';
      LastTurn(turns, k, Run(c, AnalystAt(k), s, verdicts, j), Run(c, RiskJudge, s', verdicts, j));
    }
  }

  /** The remaining turns of a risk debate, and then the judge. */
  lemma RiskTrace(c: Config, s: State, verdicts: nat -> Verdict, j: nat) returns (last: State)
    requires s.riskCount == 0 || s.riskCount < 3 * c.riskRounds
    requires s.riskSpeaker == AggressiveSpeaker <==> s.riskCount % 3 == 1
    requires s.riskSpeaker == ConservativeSpeaker <==> s.riskCount % 3 == 2
    ensures last == s.(riskCount := last.riskCount, riskSpeaker := last.riskSpeaker)
    ensures Run(c, AnalystAt(s.riskCount), s, verdicts, j)
      == RiskTurns(AtLeastOne(3 * c.riskRounds))[s.riskCount..] + Run(c, RiskJudge, last, verdicts, j)
  {
    last := RotationTrace(c, s, verdicts, j, RiskTurns(AtLeastOne(3 * c.riskRounds)));
  }

  predicate SentBack(s: State, v: Verdict) { v == Revise && s.retryCount < s.maxRetries }

  /** What the risk judge does, and where its verdict leads. */
  lemma JudgeStep(c: Config, s: State, verdicts: nat -> Verdict, j: nat) returns (s': State)
    ensures s'.maxRetries == s.maxRetries && s'.revised == (verdicts(j) == Revise)
    ensures SentBack(s, verdicts(j)) ==> s'.retryCount == s.retryCount + 1
    ensures Run(c, RiskJudge, s, verdicts, j)
      == [RiskJudge] + if SentBack(s, verdicts(j)) then Run(c, Trader, s', verdicts, j + 1) else []
  {
    s' := Execute(RiskJudge, s, verdicts(j));
  }

  lemma TraderStep(c: Config, s: State, verdicts: nat -> Verdict, j: nat) returns (s': State)
    requires s.revised || (s.riskCount == 0 && s.riskSpeaker == Nobody)
    ensures s'.riskCount == 0 && s'.riskSpeaker == Nobody
    ensures s'.retryCount == s.retryCount && s'.maxRetries == s.maxRetries
    ensures Run(c, Trader, s, verdicts, j) == [Trader] + Run(c, Aggressive, s', verdicts, j)
  {
    s' := Execute(Trader, s, verdicts(j));
  }

  lemma RoundOf(c: Config, run: seq<Node>, debate: seq<Node>, judge: seq<Node>, rest: seq<Node>)
    requires run == [Trader] + debate && judge == [RiskJudge] + rest
    requires debate == RiskTurns(AtLeastOne(3 * c.riskRounds))[0..] + judge
    ensures run == Round(c) + rest
  {
  }

  /** One round from the trader on, and where the judge's verdict leads. */
  lemma OneRound(c: Config, s: State, verdicts: nat -> Verdict, j: nat) returns (s3: State)
    requires s.revised || (s.riskCount == 0 && s.riskSpeaker == Nobody)
    ensures s3.maxRetries == s.maxRetries && s3.revised == (verdicts(j) == Revise)
    ensures SentBack(s, verdicts(j)) ==> s3.retryCount == s.retryCount + 1
    ensures Run(c, Trader, s, verdicts, j)
      == Round(c) + if SentBack(s, verdicts(j)) then Run(c, Trader, s3, verdicts, j + 1) else []
  {
    var s1 := TraderStep(c, s, verdicts, j);
    var s2 := RiskTrace(c, s1, verdicts, j);
    s3 := JudgeStep(c, s2, verdicts, j);
    RoundOf(c, Run(c, Trader, s, verdicts, j), Run(c, Aggressive, s1, verdicts, j), Run(c, RiskJudge, s2, verdicts, j),
            if SentBack(s, verdicts(j)) then Run(c, Trader, s3, verdicts, j + 1) else []);
  }

  lemma RoundInFront(c: Config, run: seq<Node>, later: seq<Node>, m: nat)
    requires run == Round(c) + later && later == Rounds(c, m)
    ensures run == Rounds(c, m + 1)
  {
  }

  lemma RevisitStep(verdicts: nat -> Verdict, j: nat, left: int)
    ensures Revisits(verdicts, j, left) ==
      if left >= 1 && verdicts(j) == Revise then 1 + Revisits(verdicts, j + 1, left - 1) else 0
  {
  }

  /** From the trader on: one round, and one more for every revisit. */
  lemma {:induction false} RoundsTrace(c: Config, s: State, verdicts: nat -> Verdict, j: nat)
    requires s.revised || (s.riskCount == 0 && s.riskSpeaker == Nobody)
    ensures Run(c, Trader, s, verdicts, j)
      == Rounds(c, 1 + Revisits(verdicts, j, s.maxRetries - s.retryCount))
    decreases RetriesLeft(s)
  {
    var left := s.maxRetries - s.retryCount;
    var s3 := OneRound(c, s, verdicts, j);
    RevisitStep(verdicts, j, left);
    if SentBack(s, verdicts(j)) {
      RoundsTrace(c, s3, verdicts, j + 1);
      RoundInFront(c, Run(c, Trader, s, verdicts, j), Run(c, Trader, s3, verdicts, j + 1),
                   1 + Revisits(verdicts, j + 1, left - 1));
    } else {
      RoundInFront(c, Run(c, Trader, s, verdicts, j), [], 0);
    }
  }

  lemma ManagerStep(c: Config, s: State, verdicts: nat -> Verdict, j: nat)
    ensures Run(c, ResearchManager, s, verdicts, j) == [ResearchManager] + Run(c, Trader, s, verdicts, j)
  {
  }

  /** The whole run, for every configuration and all verdicts: the research debate, the
      manager, and one risk round more than there are revisits. */
  lemma WholeRun(c: Config, maxRetries: int, verdicts: nat -> Verdict)
    ensures Run(c, Bull, Initial(maxRetries), verdicts, 0)
      == DebateTurns(AtLeastOne(2 * c.debateRounds)) + [ResearchManager]
         + Rounds(c, 1 + Revisits(verdicts, 0, maxRetries))
  {
    var s0 := Initial(maxRetries);
    assert DebaterAt(s0.debateCount) == Bull;
    var s' := DebateTrace(c, s0, verdicts, 0);
    ManagerStep(c, s', verdicts, 0);
    RoundsTrace(c, s', verdicts, 0);
    Chain(Run(c, Bull, s0, verdicts, 0), DebateTurns(AtLeastOne(2 * c.debateRounds)),
          Run(c, ResearchManager, s', verdicts, 0), Run(c, Trader, s', verdicts, 0));
  }

  lemma Chain(run: seq<Node>, turns: seq<Node>, manager: seq<Node>, rounds: seq<Node>)
    requires run == turns[0..] + manager && manager == [ResearchManager] + rounds
    ensures run == turns + [ResearchManager] + rounds
  {
  }

  lemma RoundShape(c: Config)
    ensures |Round(c)| == 2 + AtLeastOne(3 * c.riskRounds)
  {
  }

  lemma RoundCounts(c: Config)
    ensures multiset(Round(c))[Trader] == 1 && multiset(Round(c))[RiskJudge] == 1
  {
    var t := RiskTurns(AtLeastOne(3 * c.riskRounds));
    assert Trader !in t && RiskJudge !in t;
  }

  lemma {:induction false} RepeatedLength(round: seq<Node>, m: nat)
    ensures |Repeated(round, m)| == m * |round|
  {
    if m > 0 {
      RepeatedLength(round, m - 1);
      assert (m - 1) * |round| + |round| == m * |round|;
    }
  }

  lemma CountsAdd(a: seq<Node>, b: seq<Node>)
    ensures multiset(a + b)[Trader] == multiset(a)[Trader] + multiset(b)[Trader]
    ensures multiset(a + b)[RiskJudge] == multiset(a)[RiskJudge] + multiset(b)[RiskJudge]
  {
  }

  lemma {:induction false} RepeatedCount(round: seq<Node>, m: nat)
    requires multiset(round)[Trader] == 1 == multiset(round)[RiskJudge]
    ensures multiset(Repeated(round, m))[Trader] == m == multiset(Repeated(round, m))[RiskJudge]
  {
    if m > 0 {
      RepeatedCount(round, m - 1);
      CountsAdd(round, Repeated(round, m - 1));
    }
  }

  lemma NoTraderInDebate(k: nat)
    ensures multiset(DebateTurns(k))[Trader] == 0 == multiset(DebateTurns(k))[RiskJudge]
  {
    assert Trader !in DebateTurns(k) && RiskJudge !in DebateTurns(k);
  }

  lemma ClosedFormBounds(c: Config, maxRetries: nat, m: nat, run: seq<Node>)
    requires 1 <= m <= maxRetries + 1
    requires run == DebateTurns(AtLeastOne(2 * c.debateRounds)) + [ResearchManager] + Rounds(c, m)
    ensures |run| <= AtLeastOne(2 * c.debateRounds) + 1 + (maxRetries + 1) * (2 + AtLeastOne(3 * c.riskRounds))
    ensures multiset(run)[Trader] == m == multiset(run)[RiskJudge]
  {
    var debate := DebateTurns(AtLeastOne(2 * c.debateRounds));
    Counts(debate, Rounds(c, m));
    NoTraderInDebate(|debate|);
    RoundCounts(c);
    RepeatedCount(Round(c), m);
    LengthBound(c, maxRetries, m);
  }

  lemma LengthBound(c: Config, maxRetries: nat, m: nat)
    requires m <= maxRetries + 1
    ensures |Rounds(c, m)| <= (maxRetries + 1) * (2 + AtLeastOne(3 * c.riskRounds))
  {
    RoundShape(c);
    RepeatedLength(Round(c), m);
    TimesMonotone(m, maxRetries + 1, |Round(c)|);
  }

  lemma Counts(debate: seq<Node>, rounds: seq<Node>)
    ensures |debate + [ResearchManager] + rounds| == |debate| + 1 + |rounds|
    ensures var all := multiset(debate + [ResearchManager] + rounds);
      && all[Trader] == multiset(debate)[Trader] + multiset(rounds)[Trader]
      && all[RiskJudge] == multiset(debate)[RiskJudge] + multiset(rounds)[RiskJudge]
  {
  }

  /** Node executions are bounded, and the trader comes back at most `maxRetries` times. */
  lemma RunIsBounded(c: Config, maxRetries: nat, verdicts: nat -> Verdict)
    ensures |Run(c, Bull, Initial(maxRetries), verdicts, 0)|
      <= AtLeastOne(2 * c.debateRounds) + 1 + (maxRetries + 1) * (2 + AtLeastOne(3 * c.riskRounds))
    ensures var run := multiset(Run(c, Bull, Initial(maxRetries), verdicts, 0));
      1 <= run[Trader] == run[RiskJudge] <= maxRetries + 1
  {
    WholeRun(c, maxRetries, verdicts);
    var m := 1 + Revisits(verdicts, 0, maxRetries);
    ClosedFormBounds(c, maxRetries, m, Run(c, Bull, Initial(maxRetries), verdicts, 0));
  }

  /** A full research debate gives each side `rounds` turns, alternating from the bull. */
  lemma {:induction false} DebateIsFair(rounds: nat)
    ensures multiset(DebateTurns(2 * rounds))[Bull] == rounds == multiset(DebateTurns(2 * rounds))[Bear]
  {
    if rounds > 0 {
      DebateIsFair(rounds - 1);
      assert DebateTurns(2 * rounds) == DebateTurns(2 * (rounds - 1)) + [Bull, Bear];
    }
  }

  lemma OneTurnEach(turns: seq<Node>)
    ensures var t, more := multiset(turns), multiset(turns + [Aggressive, Conservative, Neutral]);
      more[Aggressive] == t[Aggressive] + 1 && more[Conservative] == t[Conservative] + 1 && more[Neutral] == t[Neutral] + 1
  {
  }

  lemma LastThree(turns: seq<Node>, rounds: nat) returns (earlier: seq<Node>)
    requires rounds > 0 && Rotation(turns, 3 * rounds)
    ensures Rotation(earlier, 3 * (rounds - 1)) && turns == earlier + [Aggressive, Conservative, Neutral]
  {
    earlier := turns[..|turns| - 3];
  }

  lemma {:induction false} RotationIsFair(turns: seq<Node>, rounds: nat)
    requires Rotation(turns, 3 * rounds)
    ensures var t := multiset(turns);
      t[Aggressive] == rounds && t[Conservative] == rounds && t[Neutral] == rounds
    decreases rounds
  {
    if rounds > 0 {
      var earlier := LastThree(turns, rounds);
      RotationIsFair(earlier, rounds - 1);
      OneTurnEach(earlier);
    }
  }

  /** A full risk debate gives each of the three analysts `rounds` turns. */
  lemma RiskIsFair(rounds: nat)
    ensures var t := multiset(RiskTurns(3 * rounds));
      t[Aggressive] == rounds && t[Conservative] == rounds && t[Neutral] == rounds
  {
    RotationIsFair(RiskTurns(3 * rounds), rounds);
  }
}
