/**
 The quota of scheduled tasks: `ensure_scheduled_for_symbols` adds the symbols of a list that
 are not scheduled yet, up to the limit of the user.
 */
module ScheduleQuota {
  import opened Helpers
  import Scheduler

  const MAX_SCHEDULED_ITEMS := 10

  // -------------------------------------------------------------- normal form

  predicate Space(c: char) { c == ' ' || '\t' <= c <= '\r' || '\U{1c}' <= c <= '\U{1f}' }

  function StripLeft(s: string): string { if s != "" && Space(s[0]) then StripLeft(s[1..]) else s }

  function StripRight(s: string): string {
    if s != "" && Space(s[|s| - 1]) then StripRight(s[..|s| - 1]) else s
  }

  function UpperChar(c: char): char { if 'a' <= c <= 'z' then c - 'a' + 'A' else c }

  function Upper(s: string): string { seq(|s|, i requires 0 <= i < |s| => UpperChar(s[i])) }

  /** `(raw or "").strip().upper()`. */
  function Normal(raw: Option<string>): string {
    if raw.None? then "" else Upper(StripRight(StripLeft(raw.value)))
  }

  /** `x` is `raw` with nothing but white space cut off at its ends. */
  ghost predicate Stripped(raw: string, x: string) {
    exists cut: nat :: StrippedAt(raw, x, cut)
  }

  ghost predicate StrippedAt(raw: string, x: string, cut: nat) {
    && cut + |x| <= |raw| && x == raw[cut..cut + |x|]
    && (forall i :: 0 <= i < cut ==> White(raw[i])) && (forall i :: cut + |x| <= i < |raw| ==> White(raw[i]))
    && (x != "" ==> !White(x[0]) && !White(x[|x| - 1]))
  }

  /** Python's ASCII white space. */
  predicate White(c: char) { c as int == 32 || 9 <= c as int <= 13 || 28 <= c as int <= 31 }

  predicate Raised(c: char, d: char) { d as int == if 97 <= c as int <= 122 then c as int - 32 else c as int }

  lemma {:induction false} StripLeftCuts(s: string) returns (cut: nat)
    ensures cut <= |s| && StripLeft(s) == s[cut..] && forall i :: 0 <= i < cut ==> White(s[i])
    ensures cut < |s| ==> !White(s[cut])
  {
    if s != "" && Space(s[0]) {
      var rest := StripLeftCuts(s[1..]);
      cut := rest + 1;
      assert s[1..][rest..] == s[cut..];
      assert forall i :: 1 <= i < cut ==> s[i] == s[1..][i - 1];
    } else {
      cut := 0;
    }
  }

  lemma {:induction false} StripRightCuts(s: string)
    ensures StripRight(s) <= s && forall i :: |StripRight(s)| <= i < |s| ==> White(s[i])
    ensures StripRight(s) != "" ==> !White(s[|StripRight(s)| - 1])
  {
    if s != "" && Space(s[|s| - 1]) {
      StripRightCuts(s[..|s| - 1]);
      assert forall i :: 0 <= i < |s| - 1 ==> s[i] == s[..|s| - 1][i];
    }
  }

  lemma StripIsStripped(s: string)
    ensures Stripped(s, StripRight(StripLeft(s)))
  {
    var x := StripRight(StripLeft(s));
    var cut := StripLeftCuts(s);
    var left := s[cut..];
    StripRightCuts(left);
    forall i | cut + |x| <= i < |s| ensures White(s[i]) { assert s[i] == left[i - cut]; }
    assert x == left[..|x|] == s[cut..cut + |x|];
    assert StrippedAt(s, x, cut);
  }

  /** The normal form is the text without the white space at its ends, in upper case. */
  lemma NormalIsStripped(raw: Option<string>) returns (x: string)
    ensures raw.None? ==> Normal(raw) == ""
    ensures raw.Some? ==> Stripped(raw.value, x) && |Normal(raw)| == |x|
    ensures raw.Some? ==> forall i :: 0 <= i < |x| ==> Raised(x[i], Normal(raw)[i])
  {
    x := "";
    if raw.Some? {
      x := StripRight(StripLeft(raw.value));
      StripIsStripped(raw.value);
    }
  }

  /** The distinct non-empty normal forms, in order of first appearance. */
  function Distinct(raws: seq<Option<string>>): seq<string> {
    if raws == [] then [] else
      var earlier, symbol := Distinct(raws[..|raws| - 1]), Normal(raws[|raws| - 1]);
      if symbol == "" || symbol in earlier then earlier else earlier + [symbol]
  }

  /** Those in a set, or those outside it, in order. */
  function Keep(symbols: seq<string>, known: set<string>, inside: bool): seq<string> {
    if symbols == [] then [] else
      var last := symbols[|symbols| - 1];
      Keep(symbols[..|symbols| - 1], known, inside) + if (last in known) == inside then [last] else []
  }

  function Elements(s: seq<string>): set<string> {
    if s == [] then {} else Elements(s[..|s| - 1]) + {s[|s| - 1]}
  }

  lemma {:induction false} ElementsMeans(s: seq<string>, x: string)
    ensures x in Elements(s) <==> x in s
  {
    if s != [] {
      ElementsMeans(s[..|s| - 1], x);
      LastOrEarlier(s, x);
    }
  }

  function Slots(items: seq<string>): nat {
    if |items| <= MAX_SCHEDULED_ITEMS then MAX_SCHEDULED_ITEMS - |items| else 0
  }

  /** The outcome for a user with the symbols `items`. */
  datatype Outcome = Outcome(created: seq<string>, existing: seq<string>, skipped: seq<string>)

  function Ensured(items: seq<string>, raws: seq<Option<string>>): Outcome {
    var distinct := Distinct(raws);
    var news := Keep(distinct, Elements(items), false);
    var room := Min(|news|, Slots(items));
    Outcome(news[..room], Keep(distinct, Elements(items), true), news[room..])
  }

  lemma KeepMore(symbols: seq<string>, symbol: string, known: set<string>, inside: bool)
    ensures Keep(symbols + [symbol], known, inside) ==
      Keep(symbols, known, inside) + if (symbol in known) == inside then [symbol] else []
  {
    assert (symbols + [symbol])[..|symbols + [symbol]| - 1] == symbols;
  }

  lemma LastOrEarlier(s: seq<string>, x: string)
    requires s != []
    ensures x in s <==> x in s[..|s| - 1] || x == s[|s| - 1]
  {
    assert s == s[..|s| - 1] + [s[|s| - 1]];
  }

  lemma {:induction false} KeepMember(symbols: seq<string>, known: set<string>, inside: bool, x: string)
    ensures x in Keep(symbols, known, inside) <==> x in symbols && (x in known) == inside
  {
    if symbols != [] {
      KeepMember(symbols[..|symbols| - 1], known, inside, x);
      LastOrEarlier(symbols, x);
    }
  }

  lemma DistinctMore(raws: seq<Option<string>>, raw: Option<string>)
    ensures Distinct(raws + [raw]) ==
      if Normal(raw) == "" || Normal(raw) in Distinct(raws) then Distinct(raws) else Distinct(raws) + [Normal(raw)]
  {
    assert (raws + [raw])[..|raws + [raw]| - 1] == raws;
  }

  /** The first free-slot-many new symbols are created, the others skipped. */
  ghost predicate Split(news: seq<string>, slots: nat, created: seq<string>, skipped: seq<string>) {
    created == news[..Min(|news|, slots)] && skipped == news[Min(|news|, slots)..]
  }

  /** What the loop has after a part of the list, for a user who had `items`. */
  ghost predicate Progress(items: seq<string>, raws: seq<Option<string>>, seen: set<string>,
                           created: seq<string>, existing: seq<string>, skipped: seq<string>) {
    && seen == Elements(Distinct(raws))
    && existing == Keep(Distinct(raws), Elements(items), true)
    && Split(Keep(Distinct(raws), Elements(items), false), Slots(items), created, skipped)
  }

  lemma SplitMore(news: seq<string>, slots: nat, created: seq<string>, skipped: seq<string>, symbol: string)
    requires Split(news, slots, created, skipped)
    ensures |created| <= slots
    ensures if |created| == slots then Split(news + [symbol], slots, created, skipped + [symbol])
            else Split(news + [symbol], slots, created + [symbol], skipped)
  {
  }

  lemma SeenProgress(items: seq<string>, raws: seq<Option<string>>, raw: Option<string>, seen: set<string>,
                     created: seq<string>, existing: seq<string>, skipped: seq<string>)
    requires Progress(items, raws, seen, created, existing, skipped) && (Normal(raw) == "" || Normal(raw) in seen)
    ensures Progress(items, raws + [raw], seen, created, existing, skipped)
  {
    DistinctMore(raws, raw);
    ElementsMeans(Distinct(raws), Normal(raw));
  }

  /** A new symbol is not among the created ones, and those fit the quota. */
  lemma NotCreatedYet(items: seq<string>, raws: seq<Option<string>>, symbol: string, seen: set<string>,
                      created: seq<string>, existing: seq<string>, skipped: seq<string>)
    requires Progress(items, raws, seen, created, existing, skipped) && symbol !in seen
    ensures |created| <= Slots(items)
    ensures symbol in Elements(items + created) <==> symbol in Elements(items)
  {
    KeepMember(Distinct(raws), Elements(items), false, symbol);
    ElementsMeans(Distinct(raws), symbol);
    ElementsMeans(items, symbol);
    ElementsMeans(items + created, symbol);
  }

  /** What a new symbol adds to the three specifications. */
  lemma OneMoreDistinct(items: seq<string>, raws: seq<Option<string>>, raw: Option<string>)
    requires Normal(raw) != "" && Normal(raw) !in Elements(Distinct(raws))
    ensures var symbol, known, next := Normal(raw), Elements(items), Distinct(raws + [raw]);
      && Elements(next) == Elements(Distinct(raws)) + {symbol}
      && Keep(next, known, true) == Keep(Distinct(raws), known, true) + (if symbol in known then [symbol] else [])
      && Keep(next, known, false) == Keep(Distinct(raws), known, false) + (if symbol in known then [] else [symbol])
  {
    ElementsMeans(Distinct(raws), Normal(raw));
    DistinctMore(raws, raw);
    KeepMore(Distinct(raws), Normal(raw), Elements(items), true);
    KeepMore(Distinct(raws), Normal(raw), Elements(items), false);
    ElementsMore(Distinct(raws), Normal(raw));
  }

  lemma ExistingProgress(items: seq<string>, raws: seq<Option<string>>, raw: Option<string>, seen: set<string>,
                    created: seq<string>, existing: seq<string>, skipped: seq<string>)
    requires Progress(items, raws, seen, created, existing, skipped) && Normal(raw) != "" && Normal(raw) !in seen
    requires Normal(raw) in Elements(items)
    ensures Progress(items, raws + [raw], seen + {Normal(raw)}, created, existing + [Normal(raw)], skipped)
  {
    OneMoreDistinct(items, raws, raw);
  }

  lemma SkippedProgress(items: seq<string>, raws: seq<Option<string>>, raw: Option<string>, seen: set<string>,
                    created: seq<string>, existing: seq<string>, skipped: seq<string>)
    requires Progress(items, raws, seen, created, existing, skipped) && Normal(raw) != "" && Normal(raw) !in seen
    requires Normal(raw) !in Elements(items) && |created| == Slots(items)
    ensures Progress(items, raws + [raw], seen + {Normal(raw)}, created, existing, skipped + [Normal(raw)])
  {
    OneMoreDistinct(items, raws, raw);
    SplitMore(Keep(Distinct(raws), Elements(items), false), Slots(items), created, skipped, Normal(raw));
  }

  lemma CreatedProgress(items: seq<string>, raws: seq<Option<string>>, raw: Option<string>, seen: set<string>,
                    created: seq<string>, existing: seq<string>, skipped: seq<string>)
    requires Progress(items, raws, seen, created, existing, skipped) && Normal(raw) != "" && Normal(raw) !in seen
    requires Normal(raw) !in Elements(items) && |created| < Slots(items)
    ensures Progress(items, raws + [raw], seen + {Normal(raw)}, created + [Normal(raw)], existing, skipped)
  {
    OneMoreDistinct(items, raws, raw);
    SplitMore(Keep(Distinct(raws), Elements(items), false), Slots(items), created, skipped, Normal(raw));
  }

  lemma ElementsMore(s: seq<string>, x: string)
    ensures Elements(s + [x]) == Elements(s) + {x}
  {
    assert (s + [x])[..|s + [x]| - 1] == s;
  }

  lemma ProgressIsOutcome(items: seq<string>, raws: seq<Option<string>>, done: seq<Option<string>>, seen: set<string>,
                          created: seq<string>, existing: seq<string>, skipped: seq<string>)
    requires Progress(items, done, seen, created, existing, skipped) && done <= raws && |done| == |raws|
    ensures Outcome(created, existing, skipped) == Ensured(items, raws)
  {
    assert done == raws;
  }

  lemma OneBehind(a: seq<string>, b: seq<string>, x: string)
    ensures a + b + [x] == a + (b + [x])
  {
  }

  class UserSchedule {
    var items: seq<string>

    constructor ()
      ensures items == []
    {
      items := [];
    }

    /** False stands for the ValueError of an invalid horizon or time, which changes nothing. */
    method EnsureScheduledForSymbols(raws: seq<Option<string>>, horizon: string, hh: int, mm: int)
      returns (ok: bool, created: seq<string>, existing: seq<string>, skipped: seq<string>)
      modifies this
      ensures ok == (horizon in Scheduler.VALID_HORIZONS && Scheduler.ValidateTriggerTime(hh, mm).Some?)
      ensures !ok ==> items == old(items)
      ensures ok ==> Outcome(created, existing, skipped) == Ensured(old(items), raws)
      ensures ok ==> items == old(items) + created
    {
      ok, created, existing, skipped := false, [], [], [];
      if horizon !in Scheduler.VALID_HORIZONS || Scheduler.ValidateTriggerTime(hh, mm).None? { return; }
      ok := true;
      created, existing, skipped := AddMissing(raws);
    }

    method AddMissing(raws: seq<Option<string>>)
      returns (created: seq<string>, existing: seq<string>, skipped: seq<string>)
      modifies this
      ensures Outcome(created, existing, skipped) == Ensured(old(items), raws)
      ensures items == old(items) + created
    {
      created, existing, skipped := [], [], [];
      var existingSymbols := Elements(items);
      var remainingSlots := if MAX_SCHEDULED_ITEMS - |items| > 0 then MAX_SCHEDULED_ITEMS - |items| else 0;
      var seen: set<string> := {};
      ghost var before, done := items, [];
      for n := 0 to |raws|
        invariant done == raws[..n]
        invariant Progress(before, done, seen, created, existing, skipped)
        invariant existingSymbols == Elements(items)
        invariant remainingSlots == Slots(before) - |created|
        invariant items == before + created
      {
        var symbol := Normal(raws[n]);
        ghost var earlier := done;
        done := raws[..n + 1];
        assert done == earlier + [raws[n]];
        if symbol == "" || symbol in seen {
          SeenProgress(before, earlier, raws[n], seen, created, existing, skipped);
          continue;
        }
        NotCreatedYet(before, earlier, symbol, seen, created, existing, skipped);
        ghost var known := seen;
        seen := seen + {symbol};
        if symbol in existingSymbols {
          ExistingProgress(before, earlier, raws[n], known, created, existing, skipped);
          existing := existing + [symbol];
          continue;
        }
        if remainingSlots <= 0 {
          SkippedProgress(before, earlier, raws[n], known, created, existing, skipped);
          skipped := skipped + [symbol];
          continue;
        }
        CreatedProgress(before, earlier, raws[n], known, created, existing, skipped);
        ElementsMore(items, symbol);
        OneBehind(before, created, symbol);
        items := items + [symbol];
        existingSymbols := existingSymbols + {symbol};
        created := created + [symbol];
        remainingSlots := remainingSlots - 1;
      }
      ProgressIsOutcome(before, raws, done, seen, created, existing, skipped);
    }
  }

  // ------------------------------------------------------------- what it promises

  ghost predicate Given(raws: seq<Option<string>>, x: string) {
    exists i :: 0 <= i < |raws| && Normal(raws[i]) == x
  }

  lemma GivenMore(raws: seq<Option<string>>, x: string)
    requires raws != []
    ensures Given(raws, x) <==> Given(raws[..|raws| - 1], x) || Normal(raws[|raws| - 1]) == x
  {
    var init := raws[..|raws| - 1];
    if Given(raws, x) {
      var i :| 0 <= i < |raws| && Normal(raws[i]) == x;
      if i < |init| { assert Normal(init[i]) == x; }
    }
    if Given(init, x) {
      var i :| 0 <= i < |init| && Normal(init[i]) == x;
      assert Normal(raws[i]) == x;
    }
  }

  lemma {:induction false} DistinctMember(raws: seq<Option<string>>, x: string)
    ensures x in Distinct(raws) <==> x != "" && Given(raws, x)
  {
    if raws != [] {
      DistinctMember(raws[..|raws| - 1], x);
      GivenMore(raws, x);
    }
  }

  lemma {:induction false} DistinctOnce(raws: seq<Option<string>>)
    ensures NoRepeat(Distinct(raws))
  {
    if raws != [] { DistinctOnce(raws[..|raws| - 1]); }
  }

  /** The distinct symbols: the non-empty normal forms given, each once. */
  lemma DistinctIsSet(raws: seq<Option<string>>)
    ensures NoRepeat(Distinct(raws))
    ensures forall x :: x in Distinct(raws) <==> x != "" && Given(raws, x)
  {
    DistinctOnce(raws);
    forall x ensures x in Distinct(raws) <==> x != "" && Given(raws, x) {
      DistinctMember(raws, x);
    }
  }

  lemma InEither(s: seq<string>, n: nat, x: string)
    requires n <= |s|
    ensures x in s <==> x in s[..n] || x in s[n..]
  {
    assert s == s[..n] + s[n..];
  }

  /** `x` is given before `y` is for the first time. */
  ghost predicate ComesBefore(raws: seq<Option<string>>, x: string, y: string) {
    exists i :: 0 <= i < |raws| && Normal(raws[i]) == x && forall j :: 0 <= j <= i ==> Normal(raws[j]) != y
  }

  ghost predicate InputOrder(raws: seq<Option<string>>, symbols: seq<string>) {
    forall a, b :: 0 <= a < b < |symbols| ==> ComesBefore(raws, symbols[a], symbols[b])
  }

  lemma ComesBeforeMore(raws: seq<Option<string>>, raw: Option<string>, x: string, y: string)
    requires ComesBefore(raws, x, y) || (Given(raws, x) && !Given(raws, y))
    ensures ComesBefore(raws + [raw], x, y)
  {
    var more := raws + [raw];
    var i :| 0 <= i < |raws| && Normal(raws[i]) == x && forall j :: 0 <= j <= i ==> Normal(raws[j]) != y;
    assert Normal(more[i]) == x && forall j :: 0 <= j <= i ==> more[j] == raws[j];
  }

  lemma {:induction false} DistinctInOrder(raws: seq<Option<string>>)
    ensures InputOrder(raws, Distinct(raws))
  {
    if raws != [] {
      var init, raw, symbols := raws[..|raws| - 1], raws[|raws| - 1], Distinct(raws);
      assert raws == init + [raw];
      DistinctInOrder(init);
      forall a, b | 0 <= a < b < |symbols| ensures ComesBefore(raws, symbols[a], symbols[b]) {
        DistinctMember(init, symbols[a]);
        DistinctMember(init, symbols[b]);
        ComesBeforeMore(init, raw, symbols[a], symbols[b]);
      }
    }
  }

  lemma {:induction false} KeepInOrder(raws: seq<Option<string>>, symbols: seq<string>, known: set<string>, inside: bool)
    requires InputOrder(raws, symbols)
    ensures InputOrder(raws, Keep(symbols, known, inside))
  {
    if symbols != [] {
      var init, last, kept := symbols[..|symbols| - 1], symbols[|symbols| - 1], Keep(symbols, known, inside);
      KeepInOrder(raws, init, known, inside);
      forall a, b | 0 <= a < b < |kept| ensures ComesBefore(raws, kept[a], kept[b]) {
        if b == |Keep(init, known, inside)| {
          KeepMember(init, known, inside, kept[a]);
          var i :| 0 <= i < |init| && init[i] == kept[a];
          assert ComesBefore(raws, symbols[i], symbols[|init|]);
        }
      }
    }
  }

  lemma PartsInOrder(raws: seq<Option<string>>, symbols: seq<string>, n: nat)
    requires n <= |symbols| && InputOrder(raws, symbols)
    ensures InputOrder(raws, symbols[..n]) && InputOrder(raws, symbols[n..])
    ensures forall a, b :: 0 <= a < n && 0 <= b < |symbols| - n ==> ComesBefore(raws, symbols[..n][a], symbols[n..][b])
  {
  }

  /** The free slots go to the symbols given first: each list is in input order, and whatever is
      created is given before anything that is skipped. */
  lemma FirstComeFirstServed(items: seq<string>, raws: seq<Option<string>>)
    ensures var o := Ensured(items, raws);
      && InputOrder(raws, o.created) && InputOrder(raws, o.existing) && InputOrder(raws, o.skipped)
      && forall a, b :: 0 <= a < |o.created| && 0 <= b < |o.skipped| ==> ComesBefore(raws, o.created[a], o.skipped[b])
  {
    var news := Keep(Distinct(raws), Elements(items), false);
    DistinctInOrder(raws);
    KeepInOrder(raws, Distinct(raws), Elements(items), true);
    KeepInOrder(raws, Distinct(raws), Elements(items), false);
    PartsInOrder(raws, news, Min(|news|, Slots(items)));
  }

  /** Created, existing and skipped share out the distinct symbols of the list. */
  lemma EverySymbolOnce(items: seq<string>, raws: seq<Option<string>>, x: string)
    ensures var o := Ensured(items, raws);
      && (x in o.existing <==> x in Distinct(raws) && x in items)
      && (x in o.created || x in o.skipped <==> x in Distinct(raws) && x !in items)
  {
    var news := Keep(Distinct(raws), Elements(items), false);
    ElementsMeans(items, x);
    KeepMember(Distinct(raws), Elements(items), true, x);
    KeepMember(Distinct(raws), Elements(items), false, x);
    InEither(news, Min(|news|, Slots(items)), x);
  }

  /** The quota of ten: nothing is added past the limit, nothing is skipped below it. */
  lemma WithinQuota(items: seq<string>, raws: seq<Option<string>>)
    ensures var o := Ensured(items, raws);
      && (|items + o.created| <= 10 || o.created == [])
      && (o.skipped != [] ==> |items + o.created| >= 10)
  {
  }

  lemma {:induction false} KeepNone(symbols: seq<string>, known: set<string>, inside: bool)
    requires forall x :: x in symbols ==> (x in known) != inside
    ensures Keep(symbols, known, inside) == []
  {
    if symbols != [] {
      assert forall x :: x in symbols[..|symbols| - 1] ==> x in symbols;
      KeepNone(symbols[..|symbols| - 1], known, inside);
    }
  }

  /** The same request again creates nothing, whatever was skipped the first time. */
  lemma AgainCreatesNothing(items: seq<string>, raws: seq<Option<string>>)
    ensures Ensured(items + Ensured(items, raws).created, raws).created == []
  {
    var o := Ensured(items, raws);
    var after := items + o.created;
    if o.skipped == [] {
      forall x | x in Distinct(raws) ensures x in Elements(after) {
        EverySymbolOnce(items, raws, x);
        ElementsMeans(after, x);
      }
      KeepNone(Distinct(raws), Elements(after), false);
    } else {
      WithinQuota(items, raws);
      assert Slots(after) == 0;
    }
  }

  /** Uniqueness of a user's symbols is kept. */
  lemma StaysUnique(items: seq<string>, raws: seq<Option<string>>)
    requires NoRepeat(items)
    ensures NoRepeat(items + Ensured(items, raws).created)
  {
    DistinctIsSet(raws);
    KeepNoRepeat(Distinct(raws), Elements(items), false);
    var created := Ensured(items, raws).created;
    forall i, j | 0 <= i < |items| && 0 <= j < |created| ensures items[i] != created[j] {
      assert created[j] in created;
      EverySymbolOnce(items, raws, created[j]);
    }
  }

  lemma {:induction false} KeepNoRepeat(symbols: seq<string>, known: set<string>, inside: bool)
    requires NoRepeat(symbols)
    ensures NoRepeat(Keep(symbols, known, inside))
  {
    if symbols != [] {
      var init := symbols[..|symbols| - 1];
      KeepNoRepeat(init, known, inside);
      KeepMember(init, known, inside, symbols[|symbols| - 1]);
      assert symbols[|symbols| - 1] !in init;
    }
  }
}
