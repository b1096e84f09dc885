/**
 The cache synchronisation of a MiniQMT terminal: one background task downloads the selected
 kinds of data for every symbol and publishes its progress, or takes an inventory of the
 cache. What the terminal and the disk answer is left open; texts are left out.
 */
module MiniQmtSync {
  import opened Helpers

  datatype DataType = Market | Financial | CapitalHolder | Instrument | Etf

  const INSPECTION_BATCH_SIZE := 100
  const PROGRESS_SAVE_BATCH_SIZE := 50

  datatype Status = Idle | Running | Inspecting | Completed | Failed

  predicate Busy(s: Status) { s.Running? || s.Inspecting? }

  datatype Outcome = Complete | Unsupported | Unsuccessful

  type Records = map<(string, DataType), Outcome>

  /** A call of the terminal's library: it returns, does not exist, or raises. */
  datatype Call = Returns | Missing | Raises

  /** What the terminal and the disk answer during one task. `universe` is None when there is no
      connection or no symbol, `batch` says whether the read at an offset succeeds, and `disk`
      whether the n-th save of the state does. */
  datatype World = World(
    universe: Option<seq<string>>,
    isEtf: string -> bool,
    sectorData: Call,
    etfInfo: Call,
    history: string -> bool,
    tables: (string, DataType) -> bool,
    batch: nat -> bool,
    cached: string -> bool,
    disk: nat -> bool)

  datatype State = State(
    status: Status,
    completed: nat,
    total: nat,
    selectedTypes: seq<DataType>,
    records: Records,
    inventoried: bool)

  const EMPTY_STATE := State(Idle, 0, 0, [], map[], false)

  // ------------------------------------------------------------ specification

  /** What a stage whose first error note would be the save number `at` is recorded as: an
      unsupported one as such exactly when that note can be saved, else as failed. */
  function CallOutcome(w: World, c: Call, at: nat): Outcome {
    match c
    case Returns => Complete
    case Missing => if w.disk(at) then Unsupported else Unsuccessful
    case Raises => Unsuccessful
  }

  function CallSaves(w: World, c: Call, at: nat): nat {
    match c
    case Returns => 0
    case Missing => if w.disk(at) then 1 else 2
    case Raises => 1
  }

  /** A batch of a stage is published after every fiftieth symbol and after the last. */
  predicate EndsBatch(index: nat, n: nat) { (index + 1) % PROGRESS_SAVE_BATCH_SIZE == 0 || index + 1 == n }

  function BatchesDone(index: nat, n: nat): nat {
    if index == 0 then 0 else BatchesDone(index - 1, n) + One(EndsBatch(index - 1, n))
  }

  function Batches(n: nat): nat { BatchesDone(n, n) }

  lemma {:induction false} BatchesGrow(i: nat, j: nat, n: nat)
    requires i <= j
    ensures BatchesDone(i, n) <= BatchesDone(j, n)
  {
    if i < j { BatchesGrow(i, j - 1, n); }
  }

  /** The saves of a stage of `n` symbols that begins at save number `at`: its announcement,
      its notes and its batches. */
  function StageSaves(w: World, c: Call, selected: bool, n: nat, at: nat): nat {
    if selected then 1 + CallSaves(w, c, at + 1) + Batches(n) else 0
  }

  /** The one save of a stage that may fail without failing the run, or -1. */
  function Note(c: Call, selected: bool, at: nat): int { if selected && c == Missing then at + 1 else -1 }

  /** Every save from number `lo` to number `hi` succeeds, the numbers `x` and `y` aside. */
  ghost predicate SavedBut(w: World, lo: nat, hi: nat, x: int, y: int) {
    lo < hi ==> (hi - 1 == x || hi - 1 == y || w.disk(hi - 1)) && SavedBut(w, lo, hi - 1, x, y)
  }

  lemma {:induction false} SavedButMeans(w: World, lo: nat, hi: nat, x: int, y: int)
    ensures SavedBut(w, lo, hi, x, y) <==> forall n :: lo <= n < hi && n != x && n != y ==> w.disk(n)
  {
    if lo < hi { SavedButMeans(w, lo, hi - 1, x, y); }
  }

  lemma {:induction false} SavedJoin(w: World, lo: nat, mid: nat, hi: nat, x: int, y: int)
    requires lo <= mid <= hi
    ensures SavedBut(w, lo, hi, x, y) <==> SavedBut(w, lo, mid, x, y) && SavedBut(w, mid, hi, x, y)
  {
    if mid < hi { SavedJoin(w, lo, mid, hi - 1, x, y); }
  }

  /** No save, one, and two. */
  lemma SavedFew(w: World, n: nat, x: int, y: int)
    ensures SavedBut(w, n, n, x, y)
    ensures SavedBut(w, n, n + 1, x, y) <==> n == x || n == y || w.disk(n)
    ensures SavedBut(w, n, n + 2, x, y) <==> (n == x || n == y || w.disk(n)) && (n + 1 == x || n + 1 == y || w.disk(n + 1))
  {
    assert SavedBut(w, n, n, x, y);
    assert SavedBut(w, n, n + 1, x, y) <==> n == x || n == y || w.disk(n);
  }

  lemma {:induction false} SavedOutside(w: World, lo: nat, hi: nat, x: int, y: int)
    ensures !(lo <= y < hi) ==> (SavedBut(w, lo, hi, x, y) <==> SavedBut(w, lo, hi, x, -1))
    ensures !(lo <= x < hi) ==> (SavedBut(w, lo, hi, x, y) <==> SavedBut(w, lo, hi, y, -1))
  {
    if lo < hi { SavedOutside(w, lo, hi - 1, x, y); }
  }

  predicate PerSymbolType(t: DataType) { t == Market || t == Financial || t == CapitalHolder }

  function DownloadOutcome(w: World, symbol: string, t: DataType): Outcome {
    if (if t == Market then w.history(symbol) else w.tables(symbol, t)) then Complete else Unsuccessful
  }

  function Etfs(w: World, symbols: seq<string>): seq<string> {
    if symbols == [] then [] else
      var last := symbols[|symbols| - 1];
      Etfs(w, symbols[..|symbols| - 1]) + if w.isEtf(last) then [last] else []
  }

  /** One record a symbol. */
  function Marked(records: Records, symbols: seq<string>, t: DataType, outcome: Outcome): Records {
    if symbols == [] then records else
      Marked(records, symbols[..|symbols| - 1], t, outcome)[(symbols[|symbols| - 1], t) := outcome]
  }

  lemma MarkedNext(records: Records, symbols: seq<string>, index: nat, t: DataType, outcome: Outcome)
    requires index < |symbols|
    ensures Marked(records, symbols[..index + 1], t, outcome) ==
            Marked(records, symbols[..index], t, outcome)[(symbols[index], t) := outcome]
  {
    assert symbols[..index + 1][..index] == symbols[..index];
  }

  lemma MarkedAll(records: Records, symbols: seq<string>, t: DataType, outcome: Outcome)
    ensures Marked(records, symbols[..|symbols|], t, outcome) == Marked(records, symbols, t, outcome)
  {
    assert symbols[..|symbols|] == symbols;
  }

  function MarkedIf(w: World, records: Records, symbol: string, t: DataType, types: seq<DataType>): Records {
    if t in types then records[(symbol, t) := DownloadOutcome(w, symbol, t)] else records
  }

  /** The per-symbol downloads of one symbol, and of several. */
  function Downloaded(w: World, records: Records, symbol: string, types: seq<DataType>): Records {
    TablesDownloaded(w, MarkedIf(w, records, symbol, Market, types), symbol, types)
  }

  function TablesDownloaded(w: World, records: Records, symbol: string, types: seq<DataType>): Records {
    MarkedIf(w, MarkedIf(w, records, symbol, Financial, types), symbol, CapitalHolder, types)
  }

  function AllDownloaded(w: World, records: Records, symbols: seq<string>, types: seq<DataType>): Records {
    if symbols == [] then records else
      Downloaded(w, AllDownloaded(w, records, symbols[..|symbols| - 1], types), symbols[|symbols| - 1], types)
  }

  function One(b: bool): nat { if b then 1 else 0 }

  function PerSymbol(types: seq<DataType>): nat {
    One(Market in types) + One(Financial in types) + One(CapitalHolder in types)
  }

  /** `sum(1 for item in selected_types if item in {...})`. */
  function PerSymbolItems(types: seq<DataType>): nat {
    if types == [] then 0 else
      var last := types[|types| - 1];
      PerSymbolItems(types[..|types| - 1]) + One(PerSymbolType(last))
  }

  /** Without a repeated type the announced work is the work there is. */
  lemma {:induction false} ItemsCount(types: seq<DataType>)
    requires NoRepeat(types)
    ensures PerSymbolItems(types) == PerSymbol(types)
  {
    if types != [] {
      var init, last := types[..|types| - 1], types[|types| - 1];
      ItemsCount(init);
      assert types == init + [last];
      assert last !in init;
    }
  }

  /** `list(dict.fromkeys(types))`. */
  function Distinct(types: seq<DataType>): seq<DataType> {
    if types == [] then [] else
      var init, last := Distinct(types[..|types| - 1]), types[|types| - 1];
      if last in init then init else init + [last]
  }

  lemma {:induction false} DistinctIsSet(types: seq<DataType>)
    ensures NoRepeat(Distinct(types)) && forall t :: t in Distinct(types) <==> t in types
  {
    if types != [] {
      DistinctIsSet(types[..|types| - 1]);
      assert types == types[..|types| - 1] + [types[|types| - 1]];
    }
  }

  function StageUnits(t: DataType, types: seq<DataType>, symbols: seq<string>): nat {
    if t in types then |symbols| else 0
  }

  function Units(w: World, symbols: seq<string>, types: seq<DataType>): nat {
    StageUnits(Instrument, types, symbols) + StageUnits(Etf, types, Etfs(w, symbols)) + |symbols| * PerSymbol(types)
  }

  /** The outcomes of the two stages of a run. */
  datatype Stages = Stages(instrument: Outcome, etf: Outcome)

  /** Where the ETF stage begins when the first stage begins at save number `at`. */
  function EtfStart(w: World, symbols: seq<string>, types: seq<DataType>, at: nat): nat {
    at + StageSaves(w, w.sectorData, Instrument in types, |symbols|, at)
  }

  /** Where the downloads begin. */
  function DownloadStart(w: World, symbols: seq<string>, types: seq<DataType>, at: nat): nat {
    var etfAt := EtfStart(w, symbols, types, at);
    etfAt + StageSaves(w, w.etfInfo, Etf in types, |Etfs(w, symbols)|, etfAt)
  }

  function StageOutcomes(w: World, symbols: seq<string>, types: seq<DataType>, at: nat): Stages {
    Stages(if Instrument in types then CallOutcome(w, w.sectorData, at + 1) else Unsuccessful,
           if Etf in types then CallOutcome(w, w.etfInfo, EtfStart(w, symbols, types, at) + 1) else Unsuccessful)
  }

  /** From `lo` to `hi` every save succeeds but for the notes of the stages that begin at `at`. */
  ghost predicate SavedEnough(w: World, symbols: seq<string>, types: seq<DataType>, at: nat, lo: nat, hi: nat) {
    SavedBut(w, lo, hi, Note(w.sectorData, Instrument in types, at),
             Note(w.etfInfo, Etf in types, EtfStart(w, symbols, types, at)))
  }

  /** The save of the total comes before the stages. */
  lemma TotalSaved(w: World, symbols: seq<string>, types: seq<DataType>, start: nat, hi: nat)
    requires start + 1 <= hi
    ensures SavedEnough(w, symbols, types, start + 1, start, hi) <==>
      w.disk(start) && SavedEnough(w, symbols, types, start + 1, start + 1, hi)
    ensures SavedEnough(w, symbols, types, start + 1, start + 1, start + 1)
  {
    var x := Note(w.sectorData, Instrument in types, start + 1);
    var y := Note(w.etfInfo, Etf in types, EtfStart(w, symbols, types, start + 1));
    SavedJoin(w, start, start + 1, hi, x, y);
    SavedFew(w, start, x, y);
    SavedFew(w, start + 1, x, y);
  }

  lemma FirstStageSaved(w: World, symbols: seq<string>, types: seq<DataType>, at: nat, hi: nat)
    requires at <= hi <= EtfStart(w, symbols, types, at)
    ensures SavedEnough(w, symbols, types, at, at, hi) <==>
      SavedBut(w, at, hi, Note(w.sectorData, Instrument in types, at), -1)
  {
    SavedOutside(w, at, hi, Note(w.sectorData, Instrument in types, at),
                 Note(w.etfInfo, Etf in types, EtfStart(w, symbols, types, at)));
  }

  lemma SecondStageSaved(w: World, symbols: seq<string>, types: seq<DataType>, at: nat, hi: nat)
    requires EtfStart(w, symbols, types, at) <= hi
    ensures SavedEnough(w, symbols, types, at, at, hi) <==>
      && SavedBut(w, at, EtfStart(w, symbols, types, at), Note(w.sectorData, Instrument in types, at), -1)
      && SavedBut(w, EtfStart(w, symbols, types, at), hi,
                  Note(w.etfInfo, Etf in types, EtfStart(w, symbols, types, at)), -1)
  {
    var etfAt := EtfStart(w, symbols, types, at);
    var x, y := Note(w.sectorData, Instrument in types, at), Note(w.etfInfo, Etf in types, etfAt);
    SavedJoin(w, at, etfAt, hi, x, y);
    SavedOutside(w, at, etfAt, x, y);
    SavedOutside(w, etfAt, hi, x, y);
  }

  lemma StageSaved(w: World, c: Call, start: nat, called: nat, hi: nat)
    requires start + 1 <= called <= hi && (c == Missing ==> start + 1 < called)
    ensures SavedBut(w, start, hi, Note(c, true, start), -1) <==>
      && w.disk(start) && SavedBut(w, start + 1, called, if c == Missing then start + 1 else -1, -1)
      && SavedBut(w, called, hi, -1, -1)
  {
    SavedJoin(w, start, start + 1, hi, Note(c, true, start), -1);
    SavedFew(w, start, Note(c, true, start), -1);
    SavedJoin(w, start + 1, called, hi, Note(c, true, start), -1);
    SavedOutside(w, called, hi, Note(c, true, start), -1);
  }

  function StageMarked(records: Records, symbols: seq<string>, t: DataType, types: seq<DataType>, o: Outcome): Records {
    if t in types then Marked(records, symbols, t, o) else records
  }

  function StageRecords(w: World, records: Records, symbols: seq<string>, types: seq<DataType>, o: Stages): Records {
    StageMarked(StageMarked(records, symbols, Instrument, types, o.instrument), Etfs(w, symbols), Etf, types, o.etf)
  }

  /** The records of a run that comes to its end. */
  function AllRecords(w: World, symbols: seq<string>, types: seq<DataType>, o: Stages): Records {
    AllDownloaded(w, StageRecords(w, map[], symbols, types, o), symbols, types)
  }

  // ----------------------------------------------------------- published progress

  /** The first `n` values never fall and end within `upto`. */
  ghost predicate RisingFirst(published: seq<nat>, n: nat, upto: nat)
    requires n <= |published|
  {
    n == 0 || (published[n - 1] <= upto && RisingFirst(published, n - 1, published[n - 1]))
  }

  ghost predicate Rising(published: seq<nat>, upto: nat) { RisingFirst(published, |published|, upto) }

  lemma {:induction false} RisingMeans(published: seq<nat>, n: nat, upto: nat)
    requires n <= |published|
    ensures RisingFirst(published, n, upto) <==>
      && (forall i, j :: 0 <= i < j < n ==> published[i] <= published[j])
      && (forall i :: 0 <= i < n ==> published[i] <= upto)
  {
    if n > 0 { RisingMeans(published, n - 1, published[n - 1]); }
  }

  lemma {:induction false} RisingPrefix(published: seq<nat>, n: nat, upto: nat, more: nat)
    requires n <= |published| && RisingFirst(published, n, upto)
    ensures RisingFirst(published + [more], n, upto)
  {
    if n > 0 { RisingPrefix(published, n - 1, published[n - 1], more); }
  }

  lemma RisingMore(published: seq<nat>, upto: nat, more: nat)
    requires Rising(published, upto) && upto <= more
    ensures Rising(published + [more], more)
  {
    RisingUpto(published, upto, more);
    RisingPrefix(published, |published|, more, more);
  }

  lemma RisingUpto(published: seq<nat>, upto: nat, more: nat)
    requires Rising(published, upto) && upto <= more
    ensures Rising(published, more)
  {
  }

  lemma ProductStep(n: nat, k: nat)
    ensures (n + 1) * k == n * k + k
  {
  }

  /** Everything but the progress shown and the records. */
  predicate SameRun(s: State, t: State) { s.(completed := t.completed, records := t.records) == t }

  class MiniQMTSyncService {
    var state: State
    var saves: nat                 // saves attempted so far
    ghost var published: seq<nat>  // the `completed` values shown since the task began

    constructor ()
      ensures state == EMPTY_STATE && saves == 0 && published == []
    {
      state, saves, published := EMPTY_STATE, 0, [];
    }

    ghost predicate SavedAll(w: World, since: nat)
      reads this
    {
      SavedBut(w, since, saves, -1, -1)
    }

    /** What has been shown so far never went back, is within `upto` and is the state's progress. */
    ghost predicate Shown(upto: nat)
      reads this
    {
      Rising(published, upto) && state.completed <= upto
      && (published != [] ==> published[|published| - 1] == state.completed)
    }

    method Save(w: World) returns (ok: bool)
      modifies `saves
      ensures ok == w.disk(old(saves)) && saves == old(saves) + 1
    {
      ok := w.disk(saves);
      saves := saves + 1;
    }

    method SetProgress(w: World, completed: nat, persist: bool) returns (ok: bool)
      requires Shown(completed)
      modifies this
      ensures state == old(state).(completed := completed) && Shown(completed)
      ensures published == old(published) + [completed]
      ensures saves == old(saves) + One(persist)
      ensures ok == (persist ==> w.disk(old(saves)))
    {
      RisingMore(published, completed, completed);
      state := state.(completed := completed);
      published := published + [completed];
      ok := true;
      if persist { ok := Save(w); }
    }

    method MarkType(symbol: string, t: DataType, outcome: Outcome)
      modifies `state
      ensures state == old(state).(records := old(state).records[(symbol, t) := outcome])
    {
      state := state.(records := state.records[(symbol, t) := outcome]);
    }

    /** One symbol of a stage; `publish` at the end of a batch. */
    method MarkOne(w: World, symbol: string, t: DataType, completed: nat, outcome: Outcome, publish: bool)
      returns (ok: bool)
      requires completed >= 1 && Shown(completed - 1)
      modifies this
      ensures state == old(state).(completed := if publish then completed else old(state).completed,
                                   records := old(state).records[(symbol, t) := outcome])
      ensures Shown(completed) && saves == old(saves) + One(publish) && (ok <==> SavedAll(w, old(saves)))
    {
      SavedFew(w, saves, -1, -1);
      MarkType(symbol, t, outcome);
      RisingUpto(published, completed - 1, completed);
      ok := true;
      if publish { ok := SetProgress(w, completed, true); }
    }

    /** A stage without progress callbacks: its symbols are recorded in batches. */
    method MarkStageSymbols(w: World, symbols: seq<string>, t: DataType, completed: nat, outcome: Outcome)
      returns (ok: bool, after: nat)
      requires Shown(completed) && state.completed == completed
      modifies this
      ensures SameRun(old(state), state) && Shown(completed + |symbols|)
      ensures old(saves) <= saves <= old(saves) + Batches(|symbols|) && (ok <==> SavedAll(w, old(saves)))
      ensures ok ==> after == completed + |symbols| && saves == old(saves) + Batches(|symbols|)
      ensures ok ==> state == old(state).(completed := after, records := Marked(old(state).records, symbols, t, outcome))
    {
      ghost var start, before := saves, state;
      after := completed;
      ok := true;
      for index := 0 to |symbols|
        invariant ok && after == completed + index && Shown(after)
        invariant SameRun(before, state) && state.records == Marked(before.records, symbols[..index], t, outcome)
        invariant saves == start + BatchesDone(index, |symbols|) && SavedAll(w, start)
        invariant index == |symbols| ==> state.completed == after
      {
        MarkedNext(before.records, symbols, index, t, outcome);
        BatchesGrow(index + 1, |symbols|, |symbols|);
        ghost var mid := saves;
        after := after + 1;
        ok := MarkOne(w, symbols[index], t, after, outcome, EndsBatch(index, |symbols|));
        SavedJoin(w, start, mid, saves, -1, -1);
        if !ok {
          RisingUpto(published, after, completed + |symbols|);
          return;
        }
      }
      MarkedAll(before.records, symbols, t, outcome);
    }

    /** The library call of a stage. The note of an unsupported call is written inside the
        guarded block, so failing to write it turns the stage into a failed one. */
    method CallStage(w: World, c: Call) returns (ok: bool, outcome: Outcome)
      modifies `saves
      ensures outcome == CallOutcome(w, c, old(saves)) && saves == old(saves) + CallSaves(w, c, old(saves))
      ensures c == Missing ==> (outcome == Unsupported <==> w.disk(old(saves)))
      ensures ok <==> SavedBut(w, old(saves), saves, if c == Missing then old(saves) else -1, -1)
    {
      ghost var x := if c == Missing then saves else -1;
      SavedFew(w, saves, x, -1);
      ok, outcome := true, if c == Returns then Complete else if c == Missing then Unsupported else Unsuccessful;
      if c == Missing {
        ok := Save(w);
        if ok { return; }
        outcome := Unsuccessful;
      }
      if outcome == Unsuccessful { ok := Save(w); }
    }

    method RunStage(w: World, c: Call, t: DataType, symbols: seq<string>, completed: nat)
      returns (ok: bool, after: nat, outcome: Outcome)
      requires Shown(completed) && state.completed == completed
      modifies this
      ensures SameRun(old(state), state) && Shown(completed + |symbols|)
      ensures old(saves) <= saves <= old(saves) + StageSaves(w, c, true, |symbols|, old(saves))
      ensures ok <==> SavedBut(w, old(saves), saves, Note(c, true, old(saves)), -1)
      ensures ok ==> saves == old(saves) + StageSaves(w, c, true, |symbols|, old(saves))
      ensures ok ==> outcome == CallOutcome(w, c, old(saves) + 1) && after == completed + |symbols|
      ensures ok && c == Missing ==> (outcome == Unsupported <==> w.disk(old(saves) + 1))
      ensures ok ==> state == old(state).(completed := after, records := Marked(old(state).records, symbols, t, outcome))
    {
      after, outcome := completed, Unsuccessful;
      RisingUpto(published, completed, completed + |symbols|);
      ghost var start := saves;
      ok := Save(w);
      if !ok { return; }
      ok, outcome := CallStage(w, c);
      ghost var called := saves;
      StageSaved(w, c, start, called, saves);
      if !ok { return; }
      ok, after := MarkStageSymbols(w, symbols, t, completed, outcome);
      StageSaved(w, c, start, called, saves);
    }

    /** The record of one download; an unsuccessful one is also noted on disk. */
    method RecordDownload(w: World, symbol: string, t: DataType) returns (ok: bool)
      requires PerSymbolType(t)
      modifies `state, `saves
      ensures state == old(state).(records := old(state).records[(symbol, t) := DownloadOutcome(w, symbol, t)])
      ensures saves == old(saves) + One(DownloadOutcome(w, symbol, t) != Complete)
      ensures ok <==> SavedAll(w, old(saves))
    {
      SavedFew(w, saves, -1, -1);
      ok := true;
      if DownloadOutcome(w, symbol, t) == Complete {
        MarkType(symbol, t, Complete);
      } else {
        MarkType(symbol, t, Unsuccessful);
        ok := Save(w);
      }
    }

    /** One kind of data of one symbol, with the error noted and the progress shown. */
    method DownloadPart(w: World, symbol: string, t: DataType, completed: nat, total: nat) returns (ok: bool)
      requires PerSymbolType(t) && Shown(completed)
      modifies this
      ensures SameRun(old(state), state) && Shown(completed + 1)
      ensures saves >= old(saves) && (ok <==> SavedAll(w, old(saves)))
      ensures ok ==> state == old(state).(completed := completed + 1,
                                          records := old(state).records[(symbol, t) := DownloadOutcome(w, symbol, t)])
      ensures ok ==> saves == old(saves) + One(!(if t == Market then w.history(symbol) else w.tables(symbol, t)))
                              + One(completed + 1 == total || (completed + 1) % 50 == 0)
    {
      RisingUpto(published, completed, completed + 1);
      ok := RecordDownload(w, symbol, t);
      if !ok { return; }
      SavedFew(w, saves, -1, -1);
      SavedJoin(w, old(saves), saves, saves + 1, -1, -1);
      ok := SetProgress(w, completed + 1, completed + 1 == total || (completed + 1) % PROGRESS_SAVE_BATCH_SIZE == 0);
    }

    method DownloadIf(w: World, symbol: string, t: DataType, types: seq<DataType>, completed: nat, total: nat)
      returns (ok: bool, after: nat)
      requires PerSymbolType(t) && Shown(completed) && state.completed == completed
      modifies this
      ensures SameRun(old(state), state) && Shown(completed + One(t in types))
      ensures saves >= old(saves) && (ok <==> SavedAll(w, old(saves)))
      ensures ok ==> after == completed + One(t in types)
      ensures ok ==> state == old(state).(completed := after, records := MarkedIf(w, old(state).records, symbol, t, types))
    {
      ok, after := true, completed;
      SavedFew(w, saves, -1, -1);
      if t in types {
        ok := DownloadPart(w, symbol, t, completed, total);
        after := completed + 1;
      }
    }

    /** The two kinds of financial tables of one symbol. */
    method DownloadTables(w: World, symbol: string, types: seq<DataType>, completed: nat, total: nat)
      returns (ok: bool, after: nat)
      requires Shown(completed) && state.completed == completed
      modifies this
      ensures SameRun(old(state), state) && Shown(completed + One(Financial in types) + One(CapitalHolder in types))
      ensures saves >= old(saves) && (ok <==> SavedAll(w, old(saves)))
      ensures ok ==> after == completed + One(Financial in types) + One(CapitalHolder in types)
      ensures ok ==> state == old(state).(completed := after, records := TablesDownloaded(w, old(state).records, symbol, types))
    {
      ghost var start := saves;
      ok, after := DownloadIf(w, symbol, Financial, types, completed, total);
      ghost var upto := completed + One(Financial in types);
      if !ok { RisingUpto(published, upto, upto + One(CapitalHolder in types)); return; }
      ghost var mid := saves;
      ok, after := DownloadIf(w, symbol, CapitalHolder, types, after, total);
      SavedJoin(w, start, mid, saves, -1, -1);
    }

    method DownloadSymbol(w: World, symbol: string, types: seq<DataType>, completed: nat, total: nat)
      returns (ok: bool, after: nat)
      requires Shown(completed) && state.completed == completed
      modifies this
      ensures SameRun(old(state), state) && Shown(completed + PerSymbol(types))
      ensures saves >= old(saves) && (ok <==> SavedAll(w, old(saves)))
      ensures ok ==> after == completed + PerSymbol(types)
      ensures ok ==> state == old(state).(completed := after, records := Downloaded(w, old(state).records, symbol, types))
    {
      ghost var start := saves;
      ok, after := DownloadIf(w, symbol, Market, types, completed, total);
      if !ok { RisingUpto(published, completed + One(Market in types), completed + PerSymbol(types)); return; }
      ghost var mid := saves;
      ok, after := DownloadTables(w, symbol, types, after, total);
      SavedJoin(w, start, mid, saves, -1, -1);
    }

    method DownloadAll(w: World, symbols: seq<string>, types: seq<DataType>, completed: nat, total: nat)
      returns (ok: bool)
      requires Shown(completed) && state.completed == completed
      modifies this
      ensures SameRun(old(state), state) && Shown(completed + |symbols| * PerSymbol(types))
      ensures saves >= old(saves) && (ok <==> SavedAll(w, old(saves)))
      ensures ok ==> state == old(state).(completed := completed + |symbols| * PerSymbol(types),
                                          records := AllDownloaded(w, old(state).records, symbols, types))
    {
      ok := true;
      var after := completed;
      for index := 0 to |symbols|
        invariant ok && after == completed + index * PerSymbol(types)
        invariant state == old(state).(completed := after,
                                       records := AllDownloaded(w, old(state).records, symbols[..index], types))
        invariant Shown(after)
        invariant saves >= old(saves) && SavedAll(w, old(saves))
      {
        assert symbols[..index + 1][..index] == symbols[..index];
        ProductStep(index, PerSymbol(types));
        TimesMonotone(index + 1, |symbols|, PerSymbol(types));
        ghost var next, mid := after + PerSymbol(types), saves;
        ok, after := DownloadSymbol(w, symbols[index], types, after, total);
        SavedJoin(w, old(saves), mid, saves, -1, -1);
        if !ok {
          RisingUpto(published, next, completed + |symbols| * PerSymbol(types));
          return;
        }
      }
      assert symbols[..|symbols|] == symbols;
    }

    method StageIf(w: World, c: Call, t: DataType, types: seq<DataType>, symbols: seq<string>, completed: nat)
      returns (ok: bool, after: nat, outcome: Outcome)
      requires Shown(completed) && state.completed == completed
      modifies this
      ensures SameRun(old(state), state) && Shown(completed + StageUnits(t, types, symbols))
      ensures old(saves) <= saves <= old(saves) + StageSaves(w, c, t in types, |symbols|, old(saves))
      ensures ok <==> SavedBut(w, old(saves), saves, Note(c, t in types, old(saves)), -1)
      ensures ok ==> saves == old(saves) + StageSaves(w, c, t in types, |symbols|, old(saves))
      ensures ok ==> after == completed + StageUnits(t, types, symbols)
      ensures ok ==> outcome == if t in types then CallOutcome(w, c, old(saves) + 1) else Unsuccessful
      ensures ok ==> state == old(state).(completed := after,
                                          records := StageMarked(old(state).records, symbols, t, types, outcome))
    {
      ok, after, outcome := true, completed, Unsuccessful;
      SavedFew(w, saves, -1, -1);
      if t in types { ok, after, outcome := RunStage(w, c, t, symbols, completed); }
    }

    /** The two stages without progress callbacks. */
    method BothStages(w: World, types: seq<DataType>, symbols: seq<string>)
      returns (ok: bool, after: nat, stages: Stages)
      requires Shown(0) && state.completed == 0
      modifies this
      ensures SameRun(old(state), state)
      ensures Shown(StageUnits(Instrument, types, symbols) + StageUnits(Etf, types, Etfs(w, symbols)))
      ensures saves >= old(saves) && (ok <==> SavedEnough(w, symbols, types, old(saves), old(saves), saves))
      ensures ok ==> saves == DownloadStart(w, symbols, types, old(saves))
      ensures ok ==> stages == StageOutcomes(w, symbols, types, old(saves))
      ensures ok ==> after == StageUnits(Instrument, types, symbols) + StageUnits(Etf, types, Etfs(w, symbols))
      ensures ok ==> state == old(state).(completed := after,
                                          records := StageRecords(w, old(state).records, symbols, types, stages))
    {
      ghost var at, etfAt := saves, EtfStart(w, symbols, types, saves);
      ghost var units := StageUnits(Instrument, types, symbols);
      var instrument, etf;
      ok, after, instrument := StageIf(w, w.sectorData, Instrument, types, symbols, 0);
      stages := Stages(instrument, Unsuccessful);
      if saves <= etfAt { FirstStageSaved(w, symbols, types, at, saves); }
      if !ok { RisingUpto(published, units, units + StageUnits(Etf, types, Etfs(w, symbols))); return; }
      ok, after, etf := StageIf(w, w.etfInfo, Etf, types, Etfs(w, symbols), after);
      stages := Stages(instrument, etf);
      SecondStageSaved(w, symbols, types, at, saves);
    }

    /** The guarded part of `_run` once the work is counted. */
    method SyncStages(w: World, types: seq<DataType>, symbols: seq<string>, workUnits: nat)
      returns (ok: bool, stages: Stages)
      requires Shown(0) && state.completed == 0 && workUnits == Units(w, symbols, types)
      modifies this
      ensures SameRun(old(state), state) && Shown(Units(w, symbols, types))
      ensures saves >= old(saves) && (ok <==> SavedEnough(w, symbols, types, old(saves), old(saves), saves))
      ensures ok ==> saves > LastNote(w, symbols, types, old(saves))
      ensures ok ==> stages == StageOutcomes(w, symbols, types, old(saves))
      ensures ok ==> state == old(state).(completed := Units(w, symbols, types),
        records := AllDownloaded(w, StageRecords(w, old(state).records, symbols, types, stages), symbols, types))
    {
      ghost var at := saves;
      ghost var x, y := Note(w.sectorData, Instrument in types, at), Note(w.etfInfo, Etf in types, EtfStart(w, symbols, types, at));
      var completed;
      ok, completed, stages := BothStages(w, types, symbols);
      if !ok {
        RisingUpto(published, StageUnits(Instrument, types, symbols) + StageUnits(Etf, types, Etfs(w, symbols)), workUnits);
        return;
      }
      ghost var mid := saves;
      ok := DownloadAll(w, symbols, types, completed, workUnits);
      SavedJoin(w, at, mid, saves, x, y);
      SavedOutside(w, mid, saves, x, y);
      SavedOutside(w, mid, saves, y, -1);
    }

    /** The guarded part of `_run`. */
    method Sync(w: World, types: seq<DataType>) returns (ok: bool, stages: Stages)
      requires Shown(0) && state.completed == 0 && state.total == 0 && state.records == map[] && NoRepeat(types)
      modifies this
      ensures SameRun(old(state).(total := state.total), state) && Shown(state.total)
      ensures saves >= old(saves) && (ok ==> w.universe.Some?)
      ensures w.universe.Some? ==>
        (ok <==> SavedEnough(w, w.universe.value, types, old(saves) + 1, old(saves), saves))
      ensures ok ==> LastNote(w, w.universe.value, types, old(saves) + 1) < saves
      ensures ok ==> stages == StageOutcomes(w, w.universe.value, types, old(saves) + 1)
      ensures ok ==> Finished(w, w.universe.value, types, stages, state)
    {
      stages := Stages(Unsuccessful, Unsuccessful);
      if w.universe.None? { return false, stages; }
      var symbols := w.universe.value;
      var workUnits := CountUnits(w, symbols, types);
      RisingUpto(published, 0, workUnits);
      state := state.(total := workUnits);
      ghost var start := saves;
      TotalSaved(w, symbols, types, start, start + 1);
      ok := Save(w);
      if !ok { return; }
      ok, stages := SyncStages(w, types, symbols, workUnits);
      TotalSaved(w, symbols, types, start, saves);
    }

    /** The work announced is the work there is. */
    method CountUnits(w: World, symbols: seq<string>, types: seq<DataType>) returns (workUnits: nat)
      requires NoRepeat(types)
      ensures workUnits == Units(w, symbols, types)
    {
      ItemsCount(types);
      workUnits := |symbols| * PerSymbolItems(types);
      if Instrument in types { workUnits := workUnits + |symbols|; }
      if Etf in types { workUnits := workUnits + |Etfs(w, symbols)|; }
    }

    /** The task of a synchronisation: it ends as completed with all its work done and recorded,
        or as failed; what it showed never went back and never passed the total. */
    method Run(w: World, types: seq<DataType>) returns (stages: Stages)
      requires state.status == Running && published == [] && NoRepeat(types)
      requires state.completed == 0 && state.total == 0 && state.records == map[]
      modifies this
      ensures Shown(state.total) && saves >= old(saves)
      ensures SameRun(old(state).(status := state.status, total := state.total), state)
      ensures state.status == Completed || state.status == Failed
      ensures state.status == Completed ==> w.universe.Some? && Finished(w, w.universe.value, types, stages, state)
      ensures state.status == Completed ==> stages == StageOutcomes(w, w.universe.value, types, old(saves) + 1)
      ensures state.status == Completed ==> TellAll(w, w.universe.value, types, old(saves) + 1, state.records)
      ensures state.status == Completed && NoRepeat(w.universe.value) ==> state.completed == state.total == |state.records|
      ensures state.status == Completed <==>
        w.universe.Some? && SavedEnough(w, w.universe.value, types, old(saves) + 1, old(saves), saves)
    {
      ghost var start := saves;
      var ok;
      ok, stages := Sync(w, types);
      ghost var synced := saves;
      Conclude(w, ok);
      SavedFew(w, synced, -1, -1);
      if w.universe.Some? {
        EnoughSoFar(w, w.universe.value, types, start + 1, start, synced, saves);
        FinishedTellsAll(w, w.universe.value, types, start + 1);
        if NoRepeat(w.universe.value) { TotalIsRecords(w, w.universe.value, types, stages); }
      }
    }

    /** The end of a synchronisation: a completed status that cannot be saved becomes a failed one. */
    method Conclude(w: World, synced: bool)
      modifies `state, `saves
      ensures state == old(state).(status := if synced && w.disk(old(saves)) then Completed else Failed)
      ensures saves == old(saves) + if synced && !w.disk(old(saves)) then 2 else 1
    {
      var ok := synced;
      if ok {
        state := state.(status := Completed);
        ok := Save(w);
      }
      if !ok {
        state := state.(status := Failed);
        ok := Save(w);
      }
    }

    /** A request to synchronise. */
    method Start(w: World, selected: seq<Option<DataType>>) returns (r: StartResult)
      modifies this
      ensures r.InvalidType? <==> exists i :: 0 <= i < |selected| && selected[i] == None
      ensures r.InvalidType? || r.AlreadyRunning? ==> state == old(state) && published == old(published)
      ensures r.AlreadyRunning? <==> !r.InvalidType? && Busy(old(state).status)
      ensures r.NotSaved? || r.Started? ==>
        state == State(Running, 0, 0, Selected(selected), map[], false) && published == []
      ensures r.Started? ==> r.types == Selected(selected) && NoRepeat(r.types) && w.disk(old(saves))
      ensures r.NotSaved? ==> !w.disk(old(saves))
    {
      if exists i :: 0 <= i < |selected| && selected[i] == None { return InvalidType; }
      if Busy(state.status) { return AlreadyRunning; }
      var types := Selected(selected);
      DistinctIsSet(Names(if selected == [] then DEFAULT_SELECTION else selected));
      state, published := EMPTY_STATE.(status := Running, selectedTypes := types), [];
      var ok := Save(w);
      r := if ok then Started(types) else NotSaved;
    }

    /** The task of an inventory: it reads the cache in batches. */
    method InspectLocalCache(w: World)
      requires state.status == Inspecting && published == [] && state.completed == 0 && state.total == 0
      modifies this
      ensures state.status == Idle && Shown(state.total)
      ensures state.inventoried <==> old(state).inventoried || (w.universe.Some? && Readable(w, |w.universe.value|))
      ensures w.universe.Some? && Readable(w, |w.universe.value|) ==>
        && state.completed == state.total == |w.universe.value|
        && state.records == old(state).records + Found(w, w.universe.value)
      ensures !(w.universe.Some? && Readable(w, |w.universe.value|)) ==> state.records == old(state).records
    {
      var read := None;
      if w.universe.Some? {
        state := state.(total := |w.universe.value|);
        RisingUpto(published, 0, |w.universe.value|);
        read := ReadCache(w, w.universe.value);
      }
      if read.Some? { state := state.(records := state.records + read.value, inventoried := true); }
      state := state.(status := Idle);
      var ok := Save(w);
      if !ok && read.Some? { ok := Save(w); }
    }

    /** The batched reading of the cache; None when a batch cannot be read. */
    method ReadCache(w: World, symbols: seq<string>) returns (discovered: Option<Records>)
      requires Shown(0) && state.completed == 0
      modifies this
      ensures state == old(state).(completed := state.completed) && saves == old(saves)
      ensures Shown(|symbols|)
      ensures discovered.Some? <==> Readable(w, |symbols|)
      ensures discovered.Some? ==> discovered.value == Found(w, symbols) && state.completed == |symbols|
    {
      var found: Records := map[];
      var offset := 0;
      while offset < |symbols|
        invariant offset % INSPECTION_BATCH_SIZE == 0
        invariant state == old(state).(completed := Min(offset, |symbols|)) && saves == old(saves)
        invariant Shown(Min(offset, |symbols|))
        invariant found == Found(w, symbols[..Min(offset, |symbols|)])
        invariant Readable(w, Min(offset, |symbols|))
      {
        var end := Min(offset + INSPECTION_BATCH_SIZE, |symbols|);
        if !w.batch(offset) {
          RisingUpto(published, offset, |symbols|);
          return None;
        }
        ReadableMore(w, offset, end);
        found := found + Found(w, symbols[offset..end]);
        FoundAppend(w, symbols[..offset], symbols[offset..end]);
        assert symbols[..offset] + symbols[offset..end] == symbols[..end];
        RisingUpto(published, offset, end);
        var ok := SetProgress(w, end, false);
        offset := offset + INSPECTION_BATCH_SIZE;
      }
      assert symbols[..|symbols|] == symbols;
      return Some(found);
    }
  }

  lemma ReadableMore(w: World, offset: nat, end: nat)
    requires Readable(w, offset) && offset % INSPECTION_BATCH_SIZE == 0 && offset <= end <= offset + INSPECTION_BATCH_SIZE
    ensures w.batch(offset) ==> Readable(w, end)
  {
  }

  datatype StartResult = InvalidType | AlreadyRunning | NotSaved | Started(types: seq<DataType>)

  const DEFAULT_SELECTION := [Some(Market), Some(Financial), Some(CapitalHolder), Some(Instrument), Some(Etf)]

  function Names(selected: seq<Option<DataType>>): seq<DataType> {
    seq(|selected|, i requires 0 <= i < |selected| => if selected[i].Some? then selected[i].value else Market)
  }

  /** The selected types without repetition, or all of them when none is selected. */
  function Selected(selected: seq<Option<DataType>>): seq<DataType> {
    Distinct(Names(if selected == [] then DEFAULT_SELECTION else selected))
  }

  /** A request selects each named type once, and all five when it names none. */
  lemma SelectedAre(selected: seq<Option<DataType>>, t: DataType)
    requires None !in selected
    ensures NoRepeat(Selected(selected)) && (t in Selected(selected) <==> selected == [] || Some(t) in selected)
  {
    var names := Names(if selected == [] then DEFAULT_SELECTION else selected);
    DistinctIsSet(names);
    if selected == [] {
      assert names[0] == Market && names[1] == Financial && names[2] == CapitalHolder && names[3] == Instrument && names[4] == Etf;
    } else {
      assert forall i :: 0 <= i < |selected| ==> selected[i] in selected;
      if t in names {
        var i :| 0 <= i < |names| && names[i] == t;
        assert selected[i] == Some(t);
      }
      if Some(t) in selected {
        var i :| 0 <= i < |selected| && selected[i] == Some(t);
        assert names[i] == t;
      }
    }
  }

  /** Every batch up to a symbol can be read. */
  ghost predicate Readable(w: World, n: nat) {
    forall offset: nat :: offset < n && offset % INSPECTION_BATCH_SIZE == 0 ==> w.batch(offset)
  }

  function Found(w: World, symbols: seq<string>): Records {
    map s | s in symbols && w.cached(s) :: (s, Market) := Complete
  }

  /** The inventory is read in batches of a hundred symbols. */
  lemma ReadableByHundreds(w: World, n: nat)
    ensures Readable(w, n) <==> forall k: nat :: Hundreds(k) < n ==> w.batch(Hundreds(k))
  {
    if forall k: nat :: Hundreds(k) < n ==> w.batch(Hundreds(k)) {
      forall offset: nat | offset < n && offset % INSPECTION_BATCH_SIZE == 0 ensures w.batch(offset) {
        assert Hundreds(offset / 100) == offset;
      }
    }
  }

  function Hundreds(k: nat): nat { 100 * k }

  /** What an inventory records: as complete daily data what is cached, and nothing else changes. */
  lemma InventoryTells(w: World, records: Records, symbols: seq<string>, s: string, t: DataType)
    ensures var after := records + Found(w, symbols);
      if s in symbols && t == Market && w.cached(s) then (s, t) in after && after[(s, t)] == Complete
      else ((s, t) in after <==> (s, t) in records) && ((s, t) in records ==> after[(s, t)] == records[(s, t)])
  {
  }

  lemma FoundAppend(w: World, a: seq<string>, b: seq<string>)
    ensures Found(w, a) + Found(w, b) == Found(w, a + b)
  {
  }

  /** All announced work done, and all of it recorded. */
  ghost predicate Finished(w: World, symbols: seq<string>, types: seq<DataType>, o: Stages, s: State) {
    && s.completed == s.total == Units(w, symbols, types)
    && s.records == AllRecords(w, symbols, types, o)
  }

  /** The later of the two notes. */
  function LastNote(w: World, symbols: seq<string>, types: seq<DataType>, at: nat): int {
    var x, y := Note(w.sectorData, Instrument in types, at), Note(w.etfInfo, Etf in types, EtfStart(w, symbols, types, at));
    if x <= y then y else x
  }

  lemma EnoughSoFar(w: World, symbols: seq<string>, types: seq<DataType>, at: nat, lo: nat, mid: nat, hi: nat)
    requires lo <= mid <= hi
    ensures SavedEnough(w, symbols, types, at, lo, hi) ==> SavedEnough(w, symbols, types, at, lo, mid)
    ensures SavedEnough(w, symbols, types, at, lo, mid) && LastNote(w, symbols, types, at) < mid < hi ==>
      (SavedEnough(w, symbols, types, at, lo, hi) <==> SavedBut(w, mid, hi, -1, -1))
  {
    var x, y := Note(w.sectorData, Instrument in types, at), Note(w.etfInfo, Etf in types, EtfStart(w, symbols, types, at));
    SavedJoin(w, lo, mid, hi, x, y);
    SavedOutside(w, mid, hi, x, y);
    SavedOutside(w, mid, hi, x, -1);
    SavedOutside(w, mid, hi, y, -1);
  }

  // ---------------------------------------------------------- what is recorded

  lemma {:induction false} EtfsAre(w: World, symbols: seq<string>)
    ensures forall s :: s in Etfs(w, symbols) <==> s in symbols && w.isEtf(s)
  {
    if symbols != [] {
      EtfsAre(w, symbols[..|symbols| - 1]);
      assert symbols == symbols[..|symbols| - 1] + [symbols[|symbols| - 1]];
    }
  }

  /** A record after marking: the old one, or the mark. */
  predicate MarkAt(before: Records, after: Records, key: (string, DataType), marked: bool, o: Outcome) {
    if marked then key in after && after[key] == o
    else (key in after <==> key in before) && (key in after ==> after[key] == before[key])
  }

  lemma {:induction false} MarkedAt(records: Records, symbols: seq<string>, t: DataType, o: Outcome, s: string, u: DataType)
    ensures MarkAt(records, Marked(records, symbols, t, o), (s, u), s in symbols && u == t, o)
  {
    if symbols != [] {
      MarkedAt(records, symbols[..|symbols| - 1], t, o, s, u);
      assert symbols == symbols[..|symbols| - 1] + [symbols[|symbols| - 1]];
    }
  }

  lemma DownloadedAt(w: World, records: Records, symbol: string, types: seq<DataType>, s: string, u: DataType)
    ensures MarkAt(records, Downloaded(w, records, symbol, types), (s, u),
                   s == symbol && u in types && PerSymbolType(u), DownloadOutcome(w, s, u))
  {
  }

  lemma {:induction false} AllDownloadedAt(w: World, records: Records, symbols: seq<string>, types: seq<DataType>,
                                           s: string, u: DataType)
    ensures MarkAt(records, AllDownloaded(w, records, symbols, types), (s, u),
                   s in symbols && u in types && PerSymbolType(u), DownloadOutcome(w, s, u))
  {
    if symbols != [] {
      var init, last := symbols[..|symbols| - 1], symbols[|symbols| - 1];
      AllDownloadedAt(w, records, init, types, s, u);
      DownloadedAt(w, AllDownloaded(w, records, init, types), last, types, s, u);
      assert symbols == init + [last];
    }
  }

  /** How a download of one symbol is recorded: as complete when it returned, as failed when it raised. */
  predicate TellsDownload(returned: bool, o: Outcome) {
    (returned ==> o == Complete) && (!returned ==> o == Unsuccessful)
  }

  /** How a stage is recorded; `noted` says whether the note of a missing call was saved. */
  predicate TellsStage(c: Call, noted: bool, o: Outcome) {
    && (o == Complete <==> c == Returns)
    && (o == Unsupported <==> c == Missing && noted)
    && (o == Unsuccessful <==> c == Raises || (c == Missing && !noted))
  }

  /** What the record of a symbol and type has to say, when the stages began at save number `at`. */
  predicate Tells(w: World, etfAt: nat, at: nat, s: string, t: DataType, o: Outcome) {
    match t
    case Market => TellsDownload(w.history(s), o)
    case Financial => TellsDownload(w.tables(s, Financial), o)
    case CapitalHolder => TellsDownload(w.tables(s, CapitalHolder), o)
    case Instrument => TellsStage(w.sectorData, w.disk(at + 1), o)
    case Etf => TellsStage(w.etfInfo, w.disk(etfAt + 1), o)
  }

  /** One record for every symbol and selected type, the ETF type for ETFs only, and no other;
      each tells how its download ended. */
  ghost predicate TellAll(w: World, symbols: seq<string>, types: seq<DataType>, at: nat, records: Records) {
    forall s, t :: TellsOf(w, symbols, types, at, records, s, t)
  }

  ghost predicate TellsOf(w: World, symbols: seq<string>, types: seq<DataType>, at: nat, records: Records, s: string, t: DataType) {
    && ((s, t) in records <==> s in symbols && t in types && (t == Etf ==> w.isEtf(s)))
    && ((s, t) in records ==> Tells(w, EtfStart(w, symbols, types, at), at, s, t, records[(s, t)]))
  }

  lemma EveryRecord(w: World, symbols: seq<string>, types: seq<DataType>, o: Stages, s: string, t: DataType)
    ensures var records := AllRecords(w, symbols, types, o);
      && ((s, t) in records <==> s in symbols && t in types && (t == Etf ==> w.isEtf(s)))
      && ((s, t) in records ==>
            if t == Instrument then records[(s, t)] == o.instrument else if t == Etf then records[(s, t)] == o.etf
            else TellsDownload(if t == Market then w.history(s) else w.tables(s, t), records[(s, t)]))
  {
    EtfsAre(w, symbols);
    var instruments := StageMarked(map[], symbols, Instrument, types, o.instrument);
    MarkedAt(map[], symbols, Instrument, o.instrument, s, t);
    MarkedAt(instruments, Etfs(w, symbols), Etf, o.etf, s, t);
    AllDownloadedAt(w, StageRecords(w, map[], symbols, types, o), symbols, types, s, t);
  }

  lemma StagesTell(w: World, symbols: seq<string>, types: seq<DataType>, at: nat)
    ensures var o := StageOutcomes(w, symbols, types, at);
      && (Instrument in types ==> TellsStage(w.sectorData, w.disk(at + 1), o.instrument))
      && (Etf in types ==> TellsStage(w.etfInfo, w.disk(EtfStart(w, symbols, types, at) + 1), o.etf))
  {
  }

  /** A finished run has exactly these records. */
  lemma FinishedTellsAll(w: World, symbols: seq<string>, types: seq<DataType>, at: nat)
    ensures TellAll(w, symbols, types, at, AllRecords(w, symbols, types, StageOutcomes(w, symbols, types, at)))
  {
    var o := StageOutcomes(w, symbols, types, at);
    var records := AllRecords(w, symbols, types, o);
    StagesTell(w, symbols, types, at);
    forall s, t ensures TellsOf(w, symbols, types, at, records, s, t) {
      EveryRecord(w, symbols, types, o, s, t);
    }
  }

  /** The saves of a stage: its announcement, the notes of its error, and one for every fifty
      symbols begun. */
  lemma StageSavesAre(w: World, c: Call, n: nat, at: nat)
    ensures StageSaves(w, c, false, n, at) == 0
    ensures StageSaves(w, c, true, n, at) == 1 + (n + 49) / 50 +
      (match c case Returns => 0 case Raises => 1 case Missing => if w.disk(at + 1) then 1 else 2)
  {
    BatchesBegun(n, n);
  }

  lemma {:induction false} BatchesBegun(index: nat, n: nat)
    requires index <= n
    ensures BatchesDone(index, n) == if index == n then (n + 49) / 50 else index / 50
  {
    if index > 0 { BatchesBegun(index - 1, n); }
  }

  // -------------------------------------------------- the total is the records

  lemma {:induction false} MarkedCount(records: Records, symbols: seq<string>, t: DataType, o: Outcome)
    requires NoRepeat(symbols) && forall s :: s in symbols ==> (s, t) !in records
    ensures |Marked(records, symbols, t, o)| == |records| + |symbols|
  {
    if symbols != [] {
      var init, last := symbols[..|symbols| - 1], symbols[|symbols| - 1];
      assert symbols == init + [last] && last !in init;
      MarkedCount(records, init, t, o);
      MarkedAt(records, init, t, o, last, t);
      assert (last, t) !in records;
    }
  }

  lemma DownloadedCount(w: World, records: Records, symbol: string, types: seq<DataType>)
    requires forall t :: t in types && PerSymbolType(t) ==> (symbol, t) !in records
    ensures |Downloaded(w, records, symbol, types)| == |records| + PerSymbol(types)
  {
  }

  lemma {:induction false} AllDownloadedCount(w: World, records: Records, symbols: seq<string>, types: seq<DataType>)
    requires NoRepeat(symbols) && forall s, t :: s in symbols && PerSymbolType(t) ==> (s, t) !in records
    ensures |AllDownloaded(w, records, symbols, types)| == |records| + |symbols| * PerSymbol(types)
  {
    if symbols != [] {
      var init, last := symbols[..|symbols| - 1], symbols[|symbols| - 1];
      assert symbols == init + [last] && last !in init;
      AllDownloadedCount(w, records, init, types);
      forall t | t in types && PerSymbolType(t) ensures (last, t) !in AllDownloaded(w, records, init, types) {
        AllDownloadedAt(w, records, init, types, last, t);
        assert (last, t) !in records;
      }
      DownloadedCount(w, AllDownloaded(w, records, init, types), last, types);
      ProductStep(|init|, PerSymbol(types));
    }
  }

  lemma {:induction false} EtfsOnce(w: World, symbols: seq<string>)
    requires NoRepeat(symbols)
    ensures NoRepeat(Etfs(w, symbols))
  {
    if symbols != [] {
      var init, last := symbols[..|symbols| - 1], symbols[|symbols| - 1];
      EtfsOnce(w, init);
      EtfsAre(w, init);
      assert last !in init;
    }
  }

  lemma StageCount(w: World, symbols: seq<string>, types: seq<DataType>, o: Stages)
    requires NoRepeat(symbols)
    ensures var records := StageRecords(w, map[], symbols, types, o);
      && |records| == StageUnits(Instrument, types, symbols) + StageUnits(Etf, types, Etfs(w, symbols))
      && forall s, t :: PerSymbolType(t) ==> (s, t) !in records
  {
    EtfsOnce(w, symbols);
    var instruments := StageMarked(map[], symbols, Instrument, types, o.instrument);
    MarkedCount(map[], symbols, Instrument, o.instrument);
    forall s, t | t != Instrument ensures (s, t) !in instruments { MarkedAt(map[], symbols, Instrument, o.instrument, s, t); }
    MarkedCount(instruments, Etfs(w, symbols), Etf, o.etf);
    forall s, t | PerSymbolType(t) ensures (s, t) !in StageRecords(w, map[], symbols, types, o) {
      MarkedAt(instruments, Etfs(w, symbols), Etf, o.etf, s, t);
    }
  }

  /** The announced total is the number of records a finished run leaves, as no symbol is listed twice. */
  lemma TotalIsRecords(w: World, symbols: seq<string>, types: seq<DataType>, o: Stages)
    requires NoRepeat(symbols)
    ensures Units(w, symbols, types) == |AllRecords(w, symbols, types, o)|
  {
    StageCount(w, symbols, types, o);
    AllDownloadedCount(w, StageRecords(w, map[], symbols, types, o), symbols, types);
  }

  predicate RecordedUnsupported(records: Records, s: string, t: DataType) {
    (s, t) in records && records[(s, t)] == Unsupported
  }

  /** In a finished run a selected stage is recorded as unsupported exactly when its call is
      missing and the note of that was saved; when the note could not be saved, as failed. */
  lemma StagesAsRecorded(w: World, symbols: seq<string>, types: seq<DataType>, at: nat, s: string)
    requires s in symbols
    ensures var records := AllRecords(w, symbols, types, StageOutcomes(w, symbols, types, at));
      && (Instrument in types ==>
            (RecordedUnsupported(records, s, Instrument) <==> w.sectorData == Missing && w.disk(at + 1)))
      && (Etf in types && w.isEtf(s) ==>
            (RecordedUnsupported(records, s, Etf) <==> w.etfInfo == Missing && w.disk(EtfStart(w, symbols, types, at) + 1)))
  {
    var o := StageOutcomes(w, symbols, types, at);
    EveryRecord(w, symbols, types, o, s, Instrument);
    EveryRecord(w, symbols, types, o, s, Etf);
  }

  // ------------------------------------------------------- tasks and the status

  datatype Kind = Synchronisation | Inventory

  /** A submitted task that has yet to write its final status. `failing` says that it has met
      an exception and is about to write that. */
  datatype Task = Task(kind: Kind, failing: bool)

  /** Under the lock, with the tasks of the one-worker executor in order. */
  datatype Control = Control(status: Status, tasks: seq<Task>, inventoried: bool)

  datatype Step = Request(valid: bool, saved: bool) | Inspect | Finish(saved: bool) | Raise | Report

  function FinalStatus(k: Kind, ok: bool): Status {
    if k == Inventory then Idle else if ok then Status.Completed else Status.Failed
  }

  predicate Working(c: Control) { c.tasks != [] && !c.tasks[0].failing }

  predicate Failing(c: Control) { c.tasks != [] && c.tasks[0].failing }

  function Apply(c: Control, e: Step): Control {
    match e
    case Request(valid, saved) =>
      if !valid || Busy(c.status) then c else
        Control(Running, if saved then c.tasks + [Task(Synchronisation, false)] else c.tasks, false)
    case Inspect =>
      if Busy(c.status) || c.inventoried then c else
        c.(status := Inspecting, tasks := c.tasks + [Task(Inventory, false)])
    case Finish(saved) =>
      if !Working(c) then c else
        c.(status := FinalStatus(c.tasks[0].kind, true), inventoried := c.inventoried || c.tasks[0].kind == Inventory,
           tasks := if saved then c.tasks[1..] else [c.tasks[0].(failing := true)] + c.tasks[1..])
    case Raise => if !Working(c) then c else c.(tasks := [c.tasks[0].(failing := true)] + c.tasks[1..])
    case Report =>
      if !Failing(c) then c else c.(status := FinalStatus(c.tasks[0].kind, false), tasks := c.tasks[1..])
  }

  /** The status a step leaves: a synchronisation ends completed, or failed after an exception; an
      inventory ends idle in either case. */
  function StatusAfter(c: Control, e: Step): Status {
    var busy := c.status == Running || c.status == Inspecting;
    if e.Request? && e.valid && !busy then Running
    else if e.Inspect? && !busy && !c.inventoried then Inspecting
    else if c.tasks == [] then c.status
    else if e.Finish? && !c.tasks[0].failing then (if c.tasks[0].kind == Inventory then Idle else Status.Completed)
    else if e.Report? && c.tasks[0].failing then (if c.tasks[0].kind == Inventory then Idle else Status.Failed)
    else c.status
  }

  /** The tasks a step leaves: a request is refused while one is busy; only a task that has met no
      exception finishes or raises, and only one that has reports. */
  function TasksAfter(c: Control, e: Step): seq<Task> {
    var busy := c.status == Running || c.status == Inspecting;
    match e
    case Request(valid, saved) => if valid && saved && !busy then c.tasks + [Task(Synchronisation, false)] else c.tasks
    case Inspect => if !busy && !c.inventoried then c.tasks + [Task(Inventory, false)] else c.tasks
    case Finish(saved) =>
      if c.tasks == [] || c.tasks[0].failing then c.tasks
      else if saved then c.tasks[1..] else [Task(c.tasks[0].kind, true)] + c.tasks[1..]
    case Raise => if c.tasks == [] || c.tasks[0].failing then c.tasks else [Task(c.tasks[0].kind, true)] + c.tasks[1..]
    case Report => if c.tasks == [] || !c.tasks[0].failing then c.tasks else c.tasks[1..]
  }

  /** After any steps a further one leaves this status and these tasks; a new synchronisation
      forgets the inventory, and an inventory that finishes is remembered. */
  lemma ControlTells(c: Control, steps: seq<Step>, e: Step)
    ensures var u, v := After(c, steps), After(c, steps + [e]);
      && v.status == StatusAfter(u, e) && v.tasks == TasksAfter(u, e)
      && (v.inventoried <==>
            if e.Request? && e.valid && u.status != Running && u.status != Inspecting then false
            else u.inventoried || (e.Finish? && u.tasks != [] && u.tasks[0] == Task(Inventory, false)))
  {
    assert (steps + [e])[..|steps + [e]| - 1] == steps;
  }

  /** After a load the status is idle and nothing is submitted. */
  predicate Loaded(c: Control) { !Busy(c.status) && c.tasks == [] }

  function After(c: Control, steps: seq<Step>): Control {
    if steps == [] then c else Apply(After(c, steps[..|steps| - 1]), steps[|steps| - 1])
  }

  predicate BusyIffTask(c: Control) { c.tasks != [] <==> Busy(c.status) }

  predicate AtMostOne(c: Control) {
    && |c.tasks| <= 1 && BusyIffTask(c)
    && (c.tasks != [] ==> (c.status == Inspecting <==> c.tasks[0].kind == Inventory))
  }

  /** The two saves that must not fail: the first of a synchronisation, which is accepted but
      then not submitted, and the last of a task, which has already given up its status. */
  predicate LosesTask(c: Control, e: Step) {
    (e.Request? && e.valid && !Busy(c.status) && !e.saved) || (e.Finish? && Working(c) && !e.saved)
  }

  predicate NoneLost(c: Control, steps: seq<Step>) {
    steps == [] || (NoneLost(c, steps[..|steps| - 1]) && !LosesTask(After(c, steps[..|steps| - 1]), steps[|steps| - 1]))
  }

  predicate AlwaysBusyIffTask(c: Control, steps: seq<Step>) {
    BusyIffTask(After(c, steps)) && (steps == [] || AlwaysBusyIffTask(c, steps[..|steps| - 1]))
  }

  lemma TaskStep(c: Control, e: Step)
    requires AtMostOne(c)
    ensures !LosesTask(c, e) ==> AtMostOne(Apply(c, e))
    ensures LosesTask(c, e) ==> !BusyIffTask(Apply(c, e))
  {
  }

  lemma {:induction false} NoneLostKeeps(c: Control, steps: seq<Step>)
    requires Loaded(c) && NoneLost(c, steps)
    ensures AtMostOne(After(c, steps)) && AlwaysBusyIffTask(c, steps)
  {
    if steps != [] {
      NoneLostKeeps(c, steps[..|steps| - 1]);
      TaskStep(After(c, steps[..|steps| - 1]), steps[|steps| - 1]);
    }
  }

  lemma {:induction false} LostShows(c: Control, steps: seq<Step>)
    requires Loaded(c) && AlwaysBusyIffTask(c, steps)
    ensures NoneLost(c, steps)
  {
    if steps != [] {
      LostShows(c, steps[..|steps| - 1]);
      NoneLostKeeps(c, steps[..|steps| - 1]);
      TaskStep(After(c, steps[..|steps| - 1]), steps[|steps| - 1]);
    }
  }

  /** A task is outstanding exactly when the status is running or inspecting, and never more
      than one, for as long as none of those two saves fails; and no longer. */
  lemma {:induction false} OutstandingIffBusy(c: Control, steps: seq<Step>)
    requires Loaded(c)
    ensures AlwaysBusyIffTask(c, steps) <==> NoneLost(c, steps)
    ensures NoneLost(c, steps) ==> |After(c, steps).tasks| <= 1
  {
    if NoneLost(c, steps) { NoneLostKeeps(c, steps); }
    if AlwaysBusyIffTask(c, steps) { LostShows(c, steps); }
  }

  /** What then goes wrong: with a failing first save the service reports a run that does not
      exist and refuses every later one. */
  lemma {:induction false} StuckRunning(c: Control, more: seq<Step>)
    requires Loaded(c)
    ensures After(Apply(c, Request(true, false)), more) == Control(Running, [], false)
  {
    if more != [] { StuckRunning(c, more[..|more| - 1]); }
  }
}
