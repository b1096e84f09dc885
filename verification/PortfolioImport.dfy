/**
 Imported holdings: a submission is cleaned, valued at current prices, weighted against the
 portfolio of its source and written over the rows of that user and source. Amounts are real
 numbers; the two roundings and the prices are parameters.
 */
module PortfolioImport {
  import opened Helpers
  import Quota = ScheduleQuota

  // ------------------------------------------------------------------- symbols

  predicate Digit(c: char) { '0' <= c <= '9' }

  predicate SixDigits(s: string) { |s| == 6 && forall i :: 0 <= i < 6 ==> Digit(s[i]) }

  /** A six-digit code with its exchange. */
  predicate Code(s: string) {
    |s| == 9 && SixDigits(s[..6]) && (s[6..] == ".SH" || s[6..] == ".SZ" || s[6..] == ".BJ")
  }

  /** `normalize_position_symbol`. */
  function NormalizePositionSymbol(raw: Option<string>): Option<string> {
    var text := Quota.Normal(raw);
    if Code(text) then Some(text)
    else if !SixDigits(text) then None
    else if text[0] == '5' || text[0] == '6' || text[0] == '9' then Some(text + ".SH")
    else if '0' <= text[0] <= '3' then Some(text + ".SZ")
    else if text[0] == '4' || text[0] == '8' then Some(text + ".BJ")
    else None
  }

  lemma CodeIsNormal(s: string)
    requires Code(s)
    ensures Quota.Normal(Some(s)) == s
  {
    assert Digit(s[..6][0]) && s[..6][0] == s[0];
    assert s[8] == s[6..][2] && s[7] == s[6..][1] && s[6] == s[6..][0];
    assert Quota.StripLeft(s) == s && Quota.StripRight(s) == s;
    forall i | 0 <= i < 9 ensures Quota.UpperChar(s[i]) == s[i] {
      if i < 6 { assert Digit(s[..6][i]); }
    }
  }

  /** What is accepted becomes a full code, and a full code stays what it is. */
  lemma NormalForm(raw: Option<string>)
    ensures var s := NormalizePositionSymbol(raw);
      s.Some? ==> Code(s.value) && NormalizePositionSymbol(s) == s
  {
    var text := Quota.Normal(raw);
    var s := NormalizePositionSymbol(raw);
    if s.Some? {
      if !Code(text) {
        assert s.value[..6] == text;
        assert s.value[6..] == s.value[6..9];
        assert |s.value| == 9;
      }
      CodeIsNormal(s.value);
    }
  }

  /** The exchange of a six-digit code by its first digit; one that begins with 7 has none. */
  predicate Listed(first: char, exchange: string) {
    || (exchange == ".SH" && first in {'5', '6', '9'})
    || (exchange == ".SZ" && first in {'0', '1', '2', '3'})
    || (exchange == ".BJ" && first in {'4', '8'})
  }

  /** Accepted are full codes and six digits whose exchange the first of them tells, no others. */
  lemma SymbolOf(raw: Option<string>)
    ensures var text, s := Quota.Normal(raw), NormalizePositionSymbol(raw);
      && (SixDigits(text) <==> |text| == 6 && forall i :: 0 <= i < 6 ==> 48 <= text[i] as int <= 57)
      && (s.Some? <==> Code(text) || (SixDigits(text) && text[0] != '7'))
      && (s.Some? && Code(text) ==> s.value == text)
      && (s.Some? && !Code(text) ==> |s.value| == 9 && s.value[..6] == text && Listed(text[0], s.value[6..]))
  {
    var text, s := Quota.Normal(raw), NormalizePositionSymbol(raw);
    if SixDigits(text) { assert Digit(text[0]); }
    if s.Some? && !Code(text) { assert s.value[..6] == text && s.value[6..] == s.value[6..9]; }
  }

  // --------------------------------------------------------------------- data

  datatype Figures = Figures(position: Option<real>, available: Option<real>, cost: Option<real>,
                             value: Option<real>, pct: Option<real>)

  const NO_FIGURES := Figures(None, None, None, None, None)

  /** A submitted position, its numbers already read. */
  datatype Raw = Raw(symbol: Option<string>, name: Option<string>, figures: Figures)

  datatype Entry = Entry(name: Option<string>, figures: Figures)

  datatype Row = Row(user: string, source: string, symbol: string, name: Option<string>, figures: Figures, importedAt: int)

  /** The submission by symbol; `keys` is the order of the dictionary. */
  datatype Cleaned = Cleaned(keys: seq<string>, entries: map<string, Entry>)

  /** Prices and roundings. */
  datatype Market = Market(price: string -> Option<real>, round2: real -> real, round4: real -> real)

  predicate Of(r: Row, user: string, source: string) { r.user == user && r.source == source }

  predicate SameKey(r: Row, q: Row) { Of(r, q.user, q.source) && r.symbol == q.symbol }

  ghost predicate Unique(rows: seq<Row>) {
    forall i, j :: 0 <= i < j < |rows| ==> !SameKey(rows[i], rows[j])
  }

  // ----------------------------------------------------------------- cleaning

  /** `(name or "").strip() or None`. */
  function CleanName(name: Option<string>): Option<string> {
    if name.None? then name else
      var s := Quota.StripRight(Quota.StripLeft(name.value));
      if s == "" then None else Some(s)
  }

  /** A name loses the white space around it, and is none when nothing else is in it. */
  lemma CleanNameIs(name: Option<string>)
    ensures CleanName(name).Some? ==> name.Some? && CleanName(name).value != "" && Quota.Stripped(name.value, CleanName(name).value)
    ensures name.Some? && CleanName(name).None? ==> Quota.Stripped(name.value, "")
  {
    if name.Some? { Quota.StripIsStripped(name.value); }
  }

  /** A position read: no symbol when the text is not one. */
  datatype Item = Item(symbol: Option<string>, entry: Entry)

  function Read(raw: Raw): Item { Item(NormalizePositionSymbol(raw.symbol), Entry(CleanName(raw.name), raw.figures)) }

  function Put(c: Cleaned, symbol: string, e: Entry): Cleaned {
    Cleaned(if symbol in c.entries then c.keys else c.keys + [symbol], c.entries[symbol := e])
  }

  function Clean(items: seq<Item>): Cleaned {
    if items == [] then Cleaned([], map[]) else
      var c, item := Clean(items[..|items| - 1]), items[|items| - 1];
      if item.symbol.None? then c else Put(c, item.symbol.value, item.entry)
  }

  ghost predicate WellKeyed(c: Cleaned) {
    && NoRepeat(c.keys)
    && (forall s :: s in c.keys <==> s in c.entries)
  }

  lemma {:induction false} CleanIsWellKeyed(items: seq<Item>)
    ensures WellKeyed(Clean(items))
  {
    if items != [] { CleanIsWellKeyed(items[..|items| - 1]); }
  }

  /** The last position of a symbol is the one that counts. */
  ghost predicate LastOf(items: seq<Item>, i: nat, symbol: string) {
    && i < |items| && items[i].symbol == Some(symbol)
    && forall j :: i < j < |items| ==> items[j].symbol != Some(symbol)
  }

  lemma {:induction false} LastOccurrenceWins(items: seq<Item>, i: nat, symbol: string)
    requires LastOf(items, i, symbol)
    ensures symbol in Clean(items).entries && Clean(items).entries[symbol] == items[i].entry
  {
    if i < |items| - 1 {
      LastOccurrenceWins(items[..|items| - 1], i, symbol);
      assert items[|items| - 1].symbol != Some(symbol);
    }
  }

  lemma {:induction false} KeptWasSubmitted(items: seq<Item>, symbol: string) returns (i: nat)
    requires symbol in Clean(items).entries
    ensures LastOf(items, i, symbol)
  {
    if items[|items| - 1].symbol == Some(symbol) {
      i := |items| - 1;
    } else {
      i := KeptWasSubmitted(items[..|items| - 1], symbol);
    }
  }

  // ----------------------------------------------------------------- valuation

  function Worth(position: real, price: real): real { position * price }

  /** Position times price where both are known, else the submitted value. */
  function Valued(e: Entry, symbol: string, m: Market): Entry {
    var price := m.price(symbol);
    if price.Some? && price.value > 0.0 && e.figures.position.Some?
    then e.(figures := e.figures.(value := Some(m.round2(Worth(e.figures.position.value, price.value))))) else e
  }

  function ValuedAll(entries: map<string, Entry>, m: Market): map<string, Entry> {
    map s | s in entries :: Valued(entries[s], s, m)
  }

  function Positive(v: Option<real>): real { if v.Some? && v.value > 0.0 then v.value else 0.0 }

  /** The value a row of the source counts with: the submitted one if there is one. */
  function ValueOf(r: Row, entries: map<string, Entry>): Option<real> {
    if r.symbol in entries && entries[r.symbol].figures.value.Some? then entries[r.symbol].figures.value else r.figures.value
  }

  function RowsTotal(rows: seq<Row>, user: string, source: string, entries: map<string, Entry>): real {
    if rows == [] then 0.0 else
      var r := rows[|rows| - 1];
      RowsTotal(rows[..|rows| - 1], user, source, entries)
        + if Of(r, user, source) then Positive(ValueOf(r, entries)) else 0.0
  }

  predicate Has(rows: seq<Row>, user: string, source: string, symbol: string) {
    exists i :: 0 <= i < |rows| && Of(rows[i], user, source) && rows[i].symbol == symbol
  }

  /** The symbols without a row, in order. */
  function NewKeys(rows: seq<Row>, user: string, source: string, keys: seq<string>): seq<string> {
    if keys == [] then [] else
      var last := keys[|keys| - 1];
      NewKeys(rows, user, source, keys[..|keys| - 1]) + if Has(rows, user, source, last) then [] else [last]
  }

  function KeysTotal(keys: seq<string>, entries: map<string, Entry>): real {
    if keys == [] then 0.0 else
      var last := keys[|keys| - 1];
      KeysTotal(keys[..|keys| - 1], entries) + if last in entries then Positive(entries[last].figures.value) else 0.0
  }

  /** `total_mv`: the rows of the source with the submission over them, and the new symbols. */
  function Total(rows: seq<Row>, user: string, source: string, c: Cleaned): real {
    RowsTotal(rows, user, source, c.entries) + KeysTotal(NewKeys(rows, user, source, c.keys), c.entries)
  }

  /** The row of a key. */
  function Lookup(rows: seq<Row>, user: string, source: string, symbol: string): Option<Row> {
    if rows == [] then None else
      var r := rows[|rows| - 1];
      if Of(r, user, source) && r.symbol == symbol then Some(r) else Lookup(rows[..|rows| - 1], user, source, symbol)
  }

  function EffectiveValue(rows: seq<Row>, user: string, source: string, symbol: string, e: Entry): Option<real> {
    if e.figures.value.Some? then e.figures.value else
      var r := Lookup(rows, user, source, symbol);
      if r.Some? then r.value.figures.value else None
  }

  function Share(value: real, total: real): real
    requires total > 0.0
  {
    value / total * 100.0
  }

  /** A missing percentage is the share of the total. */
  function Weighted(e: Entry, value: Option<real>, total: real, m: Market): Entry {
    if e.figures.pct.None? && total > 0.0 && value.Some? && value.value > 0.0
    then e.(figures := e.figures.(pct := Some(m.round4(Share(value.value, total))))) else e
  }

  function WeightedAll(rows: seq<Row>, user: string, source: string, c: Cleaned, m: Market): map<string, Entry> {
    map s | s in c.entries ::
      Weighted(c.entries[s], EffectiveValue(rows, user, source, s, c.entries[s]), Total(rows, user, source, c), m)
  }

  /** What is written for a submission. */
  function Prepared(rows: seq<Row>, user: string, source: string, items: seq<Item>, m: Market): Cleaned {
    var c := Clean(items);
    var valued := c.(entries := ValuedAll(c.entries, m));
    c.(entries := WeightedAll(rows, user, source, valued, m))
  }

  // -------------------------------------------------------------------- upsert

  function Or<T>(given: Option<T>, otherwise: Option<T>): Option<T> { if given.Some? then given else otherwise }

  function MergedFigures(f: Figures, g: Figures): Figures {
    Figures(Or(f.position, g.position), Or(f.available, g.available), Or(f.cost, g.cost), Or(f.value, g.value), Or(f.pct, g.pct))
  }

  /** Every submitted field replaces the row's, every missing one keeps it. */
  function Merged(r: Row, e: Entry, now: int): Row {
    r.(name := Or(e.name, r.name), figures := MergedFigures(e.figures, r.figures), importedAt := now)
  }

  function NewRow(user: string, source: string, symbol: string, e: Entry, now: int): Row {
    Row(user, source, symbol, e.name, e.figures, now)
  }

  function Updated(rows: seq<Row>, user: string, source: string, keys: seq<string>, entries: map<string, Entry>, now: int): seq<Row> {
    seq(|rows|, i requires 0 <= i < |rows| =>
      var r := rows[i];
      if Of(r, user, source) && r.symbol in keys && r.symbol in entries then Merged(r, entries[r.symbol], now) else r)
  }

  function Added(user: string, source: string, keys: seq<string>, entries: map<string, Entry>, now: int): seq<Row> {
    if keys == [] then [] else
      var last := keys[|keys| - 1];
      Added(user, source, keys[..|keys| - 1], entries, now) +
        if last in entries then [NewRow(user, source, last, entries[last], now)] else []
  }

  function Upserted(rows: seq<Row>, user: string, source: string, c: Cleaned, now: int): seq<Row> {
    Updated(rows, user, source, c.keys, c.entries, now)
      + Added(user, source, NewKeys(rows, user, source, c.keys), c.entries, now)
  }

  function AfterSync(rows: seq<Row>, user: string, source: string, items: seq<Item>, m: Market, now: int): seq<Row> {
    Upserted(rows, user, source, Prepared(rows, user, source, items, m), now)
  }

  // --------------------------------------------------------- the keyed upsert

  lemma {:induction false} HasLookup(rows: seq<Row>, user: string, source: string, symbol: string)
    ensures Has(rows, user, source, symbol) <==> Lookup(rows, user, source, symbol).Some?
    ensures var r := Lookup(rows, user, source, symbol);
      r.Some? ==> Of(r.value, user, source) && r.value.symbol == symbol && r.value in rows
  {
    if rows != [] {
      var init, n := rows[..|rows| - 1], |rows| - 1;
      HasLookup(init, user, source, symbol);
      if Has(init, user, source, symbol) {
        var i :| 0 <= i < |init| && Of(init[i], user, source) && init[i].symbol == symbol;
        assert Of(rows[i], user, source) && rows[i].symbol == symbol;
      }
      if Has(rows, user, source, symbol) && !(Of(rows[n], user, source) && rows[n].symbol == symbol) {
        var i :| 0 <= i < |rows| && Of(rows[i], user, source) && rows[i].symbol == symbol;
        assert Of(init[i], user, source) && init[i].symbol == symbol;
      }
    }
  }

  lemma {:induction false} LookupAppend(a: seq<Row>, b: seq<Row>, user: string, source: string, symbol: string)
    ensures Lookup(a + b, user, source, symbol) == Or(Lookup(b, user, source, symbol), Lookup(a, user, source, symbol))
  {
    if b == [] {
      assert a + b == a;
    } else {
      LookupAppend(a, b[..|b| - 1], user, source, symbol);
      assert (a + b)[..|a + b| - 1] == a + b[..|b| - 1];
    }
  }

  lemma UpdatedInit(rows: seq<Row>, user: string, source: string, keys: seq<string>, entries: map<string, Entry>, now: int)
    requires rows != []
    ensures Updated(rows, user, source, keys, entries, now)[..|rows| - 1] ==
            Updated(rows[..|rows| - 1], user, source, keys, entries, now)
  {
  }

  /** What an update makes of one row. */
  function UpdatedRow(r: Option<Row>, keys: seq<string>, entries: map<string, Entry>, now: int): Option<Row> {
    if r.Some? && r.value.symbol in keys && r.value.symbol in entries
    then Some(Merged(r.value, entries[r.value.symbol], now)) else r
  }

  lemma {:induction false} LookupUpdated(rows: seq<Row>, user: string, source: string, keys: seq<string>,
                                         entries: map<string, Entry>, now: int, u: string, s: string, symbol: string)
    ensures Lookup(Updated(rows, user, source, keys, entries, now), u, s, symbol) ==
      if u == user && s == source then UpdatedRow(Lookup(rows, u, s, symbol), keys, entries, now) else Lookup(rows, u, s, symbol)
  {
    if rows != [] {
      UpdatedInit(rows, user, source, keys, entries, now);
      LookupUpdated(rows[..|rows| - 1], user, source, keys, entries, now, u, s, symbol);
    }
  }

  lemma {:induction false} LookupAdded(user: string, source: string, keys: seq<string>, entries: map<string, Entry>, now: int,
                                       u: string, s: string, symbol: string)
    requires forall k :: k in keys ==> k in entries
    ensures Lookup(Added(user, source, keys, entries, now), u, s, symbol) ==
      if u == user && s == source && symbol in keys then Some(NewRow(user, source, symbol, entries[symbol], now)) else None
  {
    if keys != [] {
      var init, last := keys[..|keys| - 1], keys[|keys| - 1];
      LookupAdded(user, source, init, entries, now, u, s, symbol);
      LookupAppend(Added(user, source, init, entries, now), [NewRow(user, source, last, entries[last], now)], u, s, symbol);
      LookupSingle(NewRow(user, source, last, entries[last], now), u, s, symbol);
      assert keys == init + [last];
    }
  }

  lemma LookupSingle(r: Row, user: string, source: string, symbol: string)
    ensures Lookup([r], user, source, symbol) == if Of(r, user, source) && r.symbol == symbol then Some(r) else None
  {
    var rows := [r];
    assert rows[..|rows| - 1] == [];
    assert Lookup(rows[..|rows| - 1], user, source, symbol) == None;
  }

  lemma {:induction false} NewKeysAre(rows: seq<Row>, user: string, source: string, keys: seq<string>)
    ensures forall k :: k in NewKeys(rows, user, source, keys) <==> k in keys && !Has(rows, user, source, k)
  {
    if keys != [] {
      NewKeysAre(rows, user, source, keys[..|keys| - 1]);
      assert keys == keys[..|keys| - 1] + [keys[|keys| - 1]];
    }
  }

  /** The import as an upsert of a table by user, source and symbol: a submitted symbol gets its
      merged or new row, every other row of any symbol, source or user stays what it was. */
  lemma SyncIsUpsert(rows: seq<Row>, user: string, source: string, c: Cleaned, now: int, u: string, s: string, symbol: string)
    requires WellKeyed(c)
    ensures var before, after := Lookup(rows, u, s, symbol), Lookup(Upserted(rows, user, source, c, now), u, s, symbol);
      after ==
        if u != user || s != source || symbol !in c.entries then before
        else if before.Some? then Some(Merged(before.value, c.entries[symbol], now))
        else Some(NewRow(user, source, symbol, c.entries[symbol], now))
  {
    var news := NewKeys(rows, user, source, c.keys);
    NewKeysAre(rows, user, source, c.keys);
    LookupAppend(Updated(rows, user, source, c.keys, c.entries, now), Added(user, source, news, c.entries, now), u, s, symbol);
    LookupUpdated(rows, user, source, c.keys, c.entries, now, u, s, symbol);
    LookupAdded(user, source, news, c.entries, now, u, s, symbol);
    HasLookup(rows, u, s, symbol);
  }

  lemma {:induction false} AddedAre(user: string, source: string, keys: seq<string>, entries: map<string, Entry>, now: int)
    requires forall k :: k in keys ==> k in entries
    ensures var rows := Added(user, source, keys, entries, now);
      |rows| == |keys| && forall i :: 0 <= i < |rows| ==> rows[i] == NewRow(user, source, keys[i], entries[keys[i]], now)
  {
    if keys != [] { AddedAre(user, source, keys[..|keys| - 1], entries, now); }
  }

  lemma {:induction false} NewKeysDistinct(rows: seq<Row>, user: string, source: string, keys: seq<string>)
    requires NoRepeat(keys)
    ensures NoRepeat(NewKeys(rows, user, source, keys))
  {
    if keys != [] {
      var init, last := keys[..|keys| - 1], keys[|keys| - 1];
      NewKeysDistinct(rows, user, source, init);
      NewKeysAre(rows, user, source, init);
      assert last !in init;
      assert last !in NewKeys(rows, user, source, init);
    }
  }

  lemma UpdatedUnique(rows: seq<Row>, user: string, source: string, keys: seq<string>, entries: map<string, Entry>, now: int)
    requires Unique(rows)
    ensures Unique(Updated(rows, user, source, keys, entries, now))
  {
    var after := Updated(rows, user, source, keys, entries, now);
    forall i, j | 0 <= i < j < |after| ensures !SameKey(after[i], after[j]) {
      assert SameKey(after[i], rows[i]) && SameKey(after[j], rows[j]) && !SameKey(rows[i], rows[j]);
    }
  }

  lemma UniqueAppend(a: seq<Row>, b: seq<Row>)
    requires Unique(a) && Unique(b)
    requires forall i, j :: 0 <= i < |a| && 0 <= j < |b| ==> !SameKey(a[i], b[j])
    ensures Unique(a + b)
  {
    var all, n := a + b, |a|;
    forall i, j | 0 <= i < j < |all| ensures !SameKey(all[i], all[j]) {
      if i < n && j >= n { assert all[i] == a[i] && all[j] == b[j - n]; }
      if i >= n { assert all[i] == b[i - n] && all[j] == b[j - n]; }
    }
  }

  lemma AddedUnique(user: string, source: string, keys: seq<string>, entries: map<string, Entry>, now: int)
    requires forall k :: k in keys ==> k in entries
    requires NoRepeat(keys)
    ensures Unique(Added(user, source, keys, entries, now))
  {
    AddedAre(user, source, keys, entries, now);
  }

  lemma AddedElsewhere(rows: seq<Row>, user: string, source: string, c: Cleaned, now: int, a: seq<Row>, b: seq<Row>)
    requires WellKeyed(c) && a == Updated(rows, user, source, c.keys, c.entries, now)
    requires b == Added(user, source, NewKeys(rows, user, source, c.keys), c.entries, now)
    ensures forall i, j :: 0 <= i < |a| && 0 <= j < |b| ==> !SameKey(a[i], b[j])
  {
    var news := NewKeys(rows, user, source, c.keys);
    NewKeysAre(rows, user, source, c.keys);
    AddedAre(user, source, news, c.entries, now);
    forall i, j | 0 <= i < |a| && 0 <= j < |b| ensures !SameKey(a[i], b[j]) {
      assert b[j].symbol == news[j] && news[j] in news;
      assert !Has(rows, user, source, news[j]);
      assert SameKey(a[i], rows[i]);
    }
  }

  /** The key of a row stays unique. */
  lemma SyncKeepsUnique(rows: seq<Row>, user: string, source: string, c: Cleaned, now: int)
    requires Unique(rows) && WellKeyed(c)
    ensures Unique(Upserted(rows, user, source, c, now))
  {
    var news := NewKeys(rows, user, source, c.keys);
    NewKeysAre(rows, user, source, c.keys);
    NewKeysDistinct(rows, user, source, c.keys);
    var a, b := Updated(rows, user, source, c.keys, c.entries, now), Added(user, source, news, c.entries, now);
    UpdatedUnique(rows, user, source, c.keys, c.entries, now);
    AddedUnique(user, source, news, c.entries, now);
    AddedElsewhere(rows, user, source, c, now, a, b);
    UniqueAppend(a, b);
  }

  // ------------------------------------------------------------------- shares

  lemma {:induction false} RowCounts(rows: seq<Row>, user: string, source: string, entries: map<string, Entry>, i: nat)
    requires i < |rows| && Of(rows[i], user, source)
    ensures RowsTotal(rows, user, source, entries) >= Positive(ValueOf(rows[i], entries))
  {
    RowsTotalPositive(rows[..|rows| - 1], user, source, entries);
    if i < |rows| - 1 { RowCounts(rows[..|rows| - 1], user, source, entries, i); }
  }

  lemma {:induction false} RowsTotalPositive(rows: seq<Row>, user: string, source: string, entries: map<string, Entry>)
    ensures RowsTotal(rows, user, source, entries) >= 0.0
  {
    if rows != [] { RowsTotalPositive(rows[..|rows| - 1], user, source, entries); }
  }

  lemma {:induction false} KeyCounts(keys: seq<string>, entries: map<string, Entry>, k: string)
    ensures KeysTotal(keys, entries) >= 0.0
    ensures k in keys && k in entries ==> KeysTotal(keys, entries) >= Positive(entries[k].figures.value)
  {
    if keys != [] {
      KeyCounts(keys[..|keys| - 1], entries, k);
      assert keys == keys[..|keys| - 1] + [keys[|keys| - 1]];
    }
  }

  /** A percentage worked out by the import is, before it is rounded, a share of the complete
      portfolio of its source: more than nothing and at most a hundred. */
  lemma ShareIsPercentage(rows: seq<Row>, user: string, source: string, c: Cleaned, s: string)
    requires WellKeyed(c) && s in c.entries
    requires Positive(EffectiveValue(rows, user, source, s, c.entries[s])) > 0.0
    ensures var v, total := EffectiveValue(rows, user, source, s, c.entries[s]).value, Total(rows, user, source, c);
      total > 0.0 && 0.0 < Share(v, total) <= 100.0
  {
    var v, total := EffectiveValue(rows, user, source, s, c.entries[s]).value, Total(rows, user, source, c);
    var news := NewKeys(rows, user, source, c.keys);
    NewKeysAre(rows, user, source, c.keys);
    HasLookup(rows, user, source, s);
    RowsTotalPositive(rows, user, source, c.entries);
    KeyCounts(news, c.entries, s);
    if Has(rows, user, source, s) {
      var r := Lookup(rows, user, source, s).value;
      var i :| 0 <= i < |rows| && rows[i] == r;
      RowCounts(rows, user, source, c.entries, i);
    }
    ShareBounds(v, total);
  }

  /** A rounding keeps the order of numbers and leaves 0 and 100 alone. */
  ghost predicate Rounds(f: real -> real) {
    f(0.0) == 0.0 && f(100.0) == 100.0 && forall x: real, y: real :: x <= y ==> f(x) <= f(y)
  }

  /** What is stored for a position without a percentage: one exactly when it has a positive
      value, and then from zero, for shares that round away, to a hundred. */
  lemma StoredPercentage(rows: seq<Row>, user: string, source: string, c: Cleaned, m: Market, s: string)
    requires WellKeyed(c) && s in c.entries && c.entries[s].figures.pct.None? && Rounds(m.round4)
    ensures var pct := WeightedAll(rows, user, source, c, m)[s].figures.pct;
      && (pct.Some? <==> Positive(EffectiveValue(rows, user, source, s, c.entries[s])) > 0.0)
      && (pct.Some? ==> 0.0 <= pct.value <= 100.0)
  {
    var value := EffectiveValue(rows, user, source, s, c.entries[s]);
    if Positive(value) > 0.0 {
      ShareIsPercentage(rows, user, source, c, s);
      var share := Share(value.value, Total(rows, user, source, c));
      assert m.round4(0.0) <= m.round4(share) <= m.round4(100.0);
    }
  }

  lemma ShareBounds(v: real, total: real)
    requires 0.0 < v <= total
    ensures 0.0 < Share(v, total) <= 100.0
  {
    assert v / total <= 1.0;
    assert v / total > 0.0;
  }

  // ---------------------------------------------------- importing the same again

  lemma {:induction false} RowsTotalAppend(a: seq<Row>, b: seq<Row>, user: string, source: string, entries: map<string, Entry>)
    ensures RowsTotal(a + b, user, source, entries) == RowsTotal(a, user, source, entries) + RowsTotal(b, user, source, entries)
  {
    if b == [] {
      assert a + b == a;
    } else {
      RowsTotalAppend(a, b[..|b| - 1], user, source, entries);
      assert (a + b)[..|a + b| - 1] == a + b[..|b| - 1];
    }
  }

  /** The same symbols with the same values, perhaps weighted. */
  ghost predicate SameValues(p: map<string, Entry>, q: map<string, Entry>) {
    p.Keys == q.Keys && forall s :: s in p ==> p[s].figures.value == q[s].figures.value
  }

  lemma {:induction false} UpdatedTotal(rows: seq<Row>, user: string, source: string, keys: seq<string>,
                                        p: map<string, Entry>, q: map<string, Entry>, now: int)
    requires SameValues(p, q)
    ensures RowsTotal(Updated(rows, user, source, keys, p, now), user, source, q) == RowsTotal(rows, user, source, q)
  {
    if rows != [] {
      UpdatedInit(rows, user, source, keys, p, now);
      UpdatedTotal(rows[..|rows| - 1], user, source, keys, p, q, now);
      var r := rows[|rows| - 1];
      if r.symbol in p { assert p[r.symbol].figures.value == q[r.symbol].figures.value; }
    }
  }

  lemma {:induction false} AddedTotal(user: string, source: string, keys: seq<string>,
                                      p: map<string, Entry>, q: map<string, Entry>, now: int)
    requires SameValues(p, q)
    ensures RowsTotal(Added(user, source, keys, p, now), user, source, q) == KeysTotal(keys, q)
  {
    if keys != [] {
      var init, last := keys[..|keys| - 1], keys[|keys| - 1];
      AddedTotal(user, source, init, p, q, now);
      assert last in p <==> last in q by { assert p.Keys == q.Keys; }
      if last in p {
        RowsTotalAppend(Added(user, source, init, p, now), [NewRow(user, source, last, p[last], now)], user, source, q);
        SingleTotal(NewRow(user, source, last, p[last], now), user, source, q);
        assert p[last].figures.value == q[last].figures.value;
      } else {
        assert Added(user, source, keys, p, now) == Added(user, source, init, p, now);
      }
    }
  }

  lemma SingleTotal(r: Row, user: string, source: string, entries: map<string, Entry>)
    ensures RowsTotal([r], user, source, entries) == if Of(r, user, source) then Positive(ValueOf(r, entries)) else 0.0
  {
    var rows := [r];
    assert rows[..|rows| - 1] == [];
    assert RowsTotal(rows[..|rows| - 1], user, source, entries) == 0.0;
  }

  lemma {:induction false} NoNewKeys(rows: seq<Row>, user: string, source: string, keys: seq<string>)
    requires forall k :: k in keys ==> Has(rows, user, source, k)
    ensures NewKeys(rows, user, source, keys) == []
  {
    if keys != [] {
      assert forall k :: k in keys[..|keys| - 1] ==> k in keys;
      NoNewKeys(rows, user, source, keys[..|keys| - 1]);
    }
  }

  lemma NothingNew(rows: seq<Row>, user: string, source: string, c: Cleaned, now: int)
    requires WellKeyed(c)
    ensures NewKeys(Upserted(rows, user, source, c, now), user, source, c.keys) == []
  {
    var after := Upserted(rows, user, source, c, now);
    forall k | k in c.keys ensures Has(after, user, source, k) {
      SyncIsUpsert(rows, user, source, c, now, user, source, k);
      HasLookup(after, user, source, k);
    }
    NoNewKeys(after, user, source, c.keys);
  }

  lemma TotalStays(rows: seq<Row>, user: string, source: string, p: Cleaned, q: Cleaned, now: int)
    requires WellKeyed(p) && p.keys == q.keys && SameValues(p.entries, q.entries)
    ensures Total(Upserted(rows, user, source, p, now), user, source, q) == Total(rows, user, source, q)
  {
    var news := NewKeys(rows, user, source, p.keys);
    var a, b := Updated(rows, user, source, p.keys, p.entries, now), Added(user, source, news, p.entries, now);
    RowsTotalAppend(a, b, user, source, q.entries);
    UpdatedTotal(rows, user, source, p.keys, p.entries, q.entries, now);
    AddedTotal(user, source, news, p.entries, q.entries, now);
    NothingNew(rows, user, source, p, now);
  }

  lemma EffectiveStays(rows: seq<Row>, user: string, source: string, p: Cleaned, q: Cleaned, now: int, s: string)
    requires WellKeyed(p) && SameValues(p.entries, q.entries) && s in p.entries
    ensures EffectiveValue(Upserted(rows, user, source, p, now), user, source, s, q.entries[s]) ==
            EffectiveValue(rows, user, source, s, q.entries[s])
  {
    assert p.entries[s].figures.value == q.entries[s].figures.value;
    SyncIsUpsert(rows, user, source, p, now, user, source, s);
  }

  lemma PreparedStays(rows: seq<Row>, user: string, source: string, items: seq<Item>, m: Market, now: int)
    ensures Prepared(AfterSync(rows, user, source, items, m, now), user, source, items, m) ==
            Prepared(rows, user, source, items, m)
  {
    CleanIsWellKeyed(items);
    var c := Clean(items);
    var q := c.(entries := ValuedAll(c.entries, m));
    var p := Prepared(rows, user, source, items, m);
    var after := Upserted(rows, user, source, p, now);
    WeighingKeepsValues(rows, user, source, q, m);
    TotalStays(rows, user, source, p, q, now);
    forall s | s in p.entries
      ensures EffectiveValue(after, user, source, s, q.entries[s]) == EffectiveValue(rows, user, source, s, q.entries[s])
    {
      EffectiveStays(rows, user, source, p, q, now, s);
    }
    SameWeights(rows, after, user, source, q, m);
  }

  lemma WeighingKeepsValues(rows: seq<Row>, user: string, source: string, c: Cleaned, m: Market)
    ensures SameValues(WeightedAll(rows, user, source, c, m), c.entries)
  {
  }

  lemma SameWeights(rows: seq<Row>, after: seq<Row>, user: string, source: string, c: Cleaned, m: Market)
    requires Total(after, user, source, c) == Total(rows, user, source, c)
    requires forall s :: s in c.entries ==>
      EffectiveValue(after, user, source, s, c.entries[s]) == EffectiveValue(rows, user, source, s, c.entries[s])
    ensures WeightedAll(after, user, source, c, m) == WeightedAll(rows, user, source, c, m)
  {
  }

  lemma UpdatedTwice(rows: seq<Row>, user: string, source: string, keys: seq<string>, entries: map<string, Entry>, now: int)
    ensures var once := Updated(rows, user, source, keys, entries, now);
      Updated(once, user, source, keys, entries, now) == once
  {
  }

  lemma UpdatedAdded(user: string, source: string, news: seq<string>, keys: seq<string>, entries: map<string, Entry>, now: int)
    requires forall k :: k in news ==> k in entries
    ensures var added := Added(user, source, news, entries, now);
      Updated(added, user, source, keys, entries, now) == added
  {
    AddedAre(user, source, news, entries, now);
  }

  lemma UpdatedAppend(a: seq<Row>, b: seq<Row>, user: string, source: string, keys: seq<string>, entries: map<string, Entry>, now: int)
    ensures Updated(a + b, user, source, keys, entries, now) ==
            Updated(a, user, source, keys, entries, now) + Updated(b, user, source, keys, entries, now)
  {
  }

  /** Importing the same positions again, at the same prices and moment, changes nothing: the
      total, the percentages and every row are already what they would become. */
  lemma SyncTwice(rows: seq<Row>, user: string, source: string, items: seq<Item>, m: Market, now: int)
    ensures var once := AfterSync(rows, user, source, items, m, now);
      AfterSync(once, user, source, items, m, now) == once
  {
    CleanIsWellKeyed(items);
    PreparedStays(rows, user, source, items, m, now);
    var p := Prepared(rows, user, source, items, m);
    var news := NewKeys(rows, user, source, p.keys);
    NothingNew(rows, user, source, p, now);
    NewKeysAre(rows, user, source, p.keys);
    UpdatedAppend(Updated(rows, user, source, p.keys, p.entries, now), Added(user, source, news, p.entries, now),
                  user, source, p.keys, p.entries, now);
    UpdatedTwice(rows, user, source, p.keys, p.entries, now);
    UpdatedAdded(user, source, news, p.keys, p.entries, now);
  }

  // ------------------------------------------- what an import leaves in the table

  /** A field that was given is written; one that was not stays. */
  predicate Takes<T(==)>(after: Option<T>, given: Option<T>, before: Option<T>) {
    (given.Some? ==> after == given) && (given.None? ==> after == before)
  }

  /** The values of the positive positions of a source, as they stand in the table. */
  function SourceValue(rows: seq<Row>, user: string, source: string): real {
    if rows == [] then 0.0 else
      var r := rows[|rows| - 1];
      SourceValue(rows[..|rows| - 1], user, source)
        + if r.user == user && r.source == source && r.figures.value.Some? && r.figures.value.value > 0.0
          then r.figures.value.value else 0.0
  }

  /** A row of a submitted position: every given field, the value at the price of the moment where
      there is a price and a quantity, and a percentage that was not given as the share of what
      the source is worth after the import. */
  predicate RowWritten(after: Row, name: Option<string>, before: Figures, raw: Raw, m: Market, worth: real, now: int) {
    var f, g := after.figures, raw.figures;
    && Takes(after.name, CleanName(raw.name), name) && after.importedAt == now
    && Takes(f.position, g.position, before.position)
    && Takes(f.available, g.available, before.available)
    && Takes(f.cost, g.cost, before.cost)
    && (var price := m.price(after.symbol);
        if price.Some? && price.value > 0.0 && g.position.Some?
        then f.value == Some(m.round2(g.position.value * price.value)) else Takes(f.value, g.value, before.value))
    && (if g.pct.None? && f.value.Some? && f.value.value > 0.0
        then worth > 0.0 && f.pct == Some(m.round4(f.value.value / worth * 100.0)) else Takes(f.pct, g.pct, before.pct))
  }

  /** The last position of a symbol in a submission. */
  predicate LastFor(raws: seq<Raw>, i: nat, symbol: string) {
    && i < |raws| && NormalizePositionSymbol(raws[i].symbol) == Some(symbol)
    && forall j :: i < j < |raws| ==> NormalizePositionSymbol(raws[j].symbol) != Some(symbol)
  }

  /** What row `j` held before; a new one held nothing. */
  function NameBefore(rows: seq<Row>, j: nat): Option<string> { if j < |rows| then rows[j].name else None }

  function FiguresBefore(rows: seq<Row>, j: nat): Figures { if j < |rows| then rows[j].figures else NO_FIGURES }

  /** Row `j` after an import: written from the last position of its symbol, or as it was. */
  ghost predicate RowTells(rows: seq<Row>, after: seq<Row>, user: string, source: string, raws: seq<Raw>, m: Market, now: int, j: nat)
    requires j < |after|
  {
    && (j < |rows| ==> SameKey(after[j], rows[j]))
    && (j >= |rows| ==> Of(after[j], user, source))
    && (if Of(after[j], user, source) && exists i: nat :: LastFor(raws, i, after[j].symbol)
        then forall i: nat :: LastFor(raws, i, after[j].symbol) ==>
          RowWritten(after[j], NameBefore(rows, j), FiguresBefore(rows, j), raws[i], m, SourceValue(after, user, source), now)
        else j < |rows| && after[j] == rows[j])
  }

  /** The table after an import: rows stay where they are, new ones come behind them, and every
      submitted symbol has one. */
  ghost predicate TableTells(rows: seq<Row>, after: seq<Row>, user: string, source: string, raws: seq<Raw>, m: Market, now: int) {
    && |rows| <= |after|
    && (forall j :: 0 <= j < |after| ==> RowTells(rows, after, user, source, raws, m, now, j))
    && (forall i: nat, s :: LastFor(raws, i, s) ==> Has(after, user, source, s))
  }

  lemma LastForIsLastOf(raws: seq<Raw>, i: nat, symbol: string)
    ensures LastFor(raws, i, symbol) <==> LastOf(ReadAll(raws), i, symbol)
    ensures i < |raws| ==> ReadAll(raws)[i].entry == Entry(CleanName(raws[i].name), raws[i].figures)
  {
    var items := ReadAll(raws);
    assert forall j :: 0 <= j < |raws| ==> items[j].symbol == NormalizePositionSymbol(raws[j].symbol);
  }

  lemma SubmittedIff(raws: seq<Raw>, symbol: string)
    ensures symbol in Clean(ReadAll(raws)).entries <==> exists i: nat :: LastFor(raws, i, symbol)
  {
    if symbol in Clean(ReadAll(raws)).entries {
      var i := KeptWasSubmitted(ReadAll(raws), symbol);
      LastForIsLastOf(raws, i, symbol);
    }
    if i: nat :| LastFor(raws, i, symbol) {
      LastForIsLastOf(raws, i, symbol);
      LastOccurrenceWins(ReadAll(raws), i, symbol);
    }
  }

  /** Once the rows carry the submitted values, the total is what they sum up to. */
  lemma {:induction false} TotalIsSourceValue(rows: seq<Row>, user: string, source: string, entries: map<string, Entry>)
    requires forall i :: 0 <= i < |rows| && Of(rows[i], user, source) ==> ValueOf(rows[i], entries) == rows[i].figures.value
    ensures RowsTotal(rows, user, source, entries) == SourceValue(rows, user, source)
  {
    if rows != [] { TotalIsSourceValue(rows[..|rows| - 1], user, source, entries); }
  }

  /** Row `j` of an upsert. */
  lemma UpsertedAt(rows: seq<Row>, user: string, source: string, c: Cleaned, now: int, j: nat)
    requires WellKeyed(c) && j < |Upserted(rows, user, source, c, now)|
    ensures var r := Upserted(rows, user, source, c, now)[j];
      if j >= |rows| then r.symbol in c.entries && r == NewRow(user, source, r.symbol, c.entries[r.symbol], now)
      else if Of(rows[j], user, source) && rows[j].symbol in c.entries then r == Merged(rows[j], c.entries[rows[j].symbol], now)
      else r == rows[j]
  {
    var news := NewKeys(rows, user, source, c.keys);
    NewKeysAre(rows, user, source, c.keys);
    AddedAre(user, source, news, c.entries, now);
    if j >= |rows| { assert news[j - |rows|] in news; }
  }

  lemma UpsertedValues(rows: seq<Row>, user: string, source: string, p: Cleaned, q: Cleaned, now: int)
    requires WellKeyed(p) && p.keys == q.keys && SameValues(p.entries, q.entries)
    ensures SourceValue(Upserted(rows, user, source, p, now), user, source) == Total(rows, user, source, q)
  {
    var after := Upserted(rows, user, source, p, now);
    TotalStays(rows, user, source, p, q, now);
    NothingNew(rows, user, source, p, now);
    forall i | 0 <= i < |after| && Of(after[i], user, source)
      ensures ValueOf(after[i], q.entries) == after[i].figures.value
    {
      UpsertedAt(rows, user, source, p, now, i);
      if after[i].symbol in p.entries { assert p.entries[after[i].symbol].figures.value == q.entries[after[i].symbol].figures.value; }
    }
    TotalIsSourceValue(after, user, source, q.entries);
  }

  /** The submission of `raws`, valued. */
  function ValuedSubmission(raws: seq<Raw>, m: Market): Cleaned {
    var c := Clean(ReadAll(raws));
    c.(entries := ValuedAll(c.entries, m))
  }

  lemma ValuedEntry(raws: seq<Raw>, m: Market, i: nat, s: string)
    requires LastFor(raws, i, s)
    ensures var q := ValuedSubmission(raws, m);
      WellKeyed(q) && s in q.entries && q.entries[s] == Valued(Entry(CleanName(raws[i].name), raws[i].figures), s, m)
  {
    LastForIsLastOf(raws, i, s);
    LastOccurrenceWins(ReadAll(raws), i, s);
    CleanIsWellKeyed(ReadAll(raws));
  }

  lemma PreparedIsWeighted(rows: seq<Row>, user: string, source: string, raws: seq<Raw>, m: Market)
    ensures var p, q := Prepared(rows, user, source, ReadAll(raws), m), ValuedSubmission(raws, m);
      && WellKeyed(p) && WellKeyed(q) && p.keys == q.keys && SameValues(p.entries, q.entries)
      && p.entries == WeightedAll(rows, user, source, q, m)
  {
    CleanIsWellKeyed(ReadAll(raws));
    WeighingKeepsValues(rows, user, source, ValuedSubmission(raws, m), m);
  }

  /** The percentage of a position is worked out from what the source is worth afterwards. */
  lemma WeighedAgainstAfter(rows: seq<Row>, user: string, source: string, raws: seq<Raw>, m: Market, now: int, s: string)
    requires s in ValuedSubmission(raws, m).entries
    ensures var p, q := Prepared(rows, user, source, ReadAll(raws), m), ValuedSubmission(raws, m);
      var value, worth := EffectiveValue(rows, user, source, s, q.entries[s]), SourceValue(Upserted(rows, user, source, p, now), user, source);
      && s in p.entries && p.entries[s] == Weighted(q.entries[s], value, worth, m)
      && (Positive(value) > 0.0 ==> worth > 0.0)
  {
    var p, q := Prepared(rows, user, source, ReadAll(raws), m), ValuedSubmission(raws, m);
    PreparedIsWeighted(rows, user, source, raws, m);
    UpsertedValues(rows, user, source, p, q, now);
    if Positive(EffectiveValue(rows, user, source, s, q.entries[s])) > 0.0 { ShareIsPercentage(rows, user, source, q, s); }
  }

  lemma RowOfPosition(r: Row, name: Option<string>, before: Figures, raw: Raw, m: Market, worth: real, now: int, e: Entry, value: Option<real>)
    requires var valued := Valued(Entry(CleanName(raw.name), raw.figures), r.symbol, m);
      e == Weighted(valued, value, worth, m) && value == Or(valued.figures.value, before.value)
    requires Positive(value) > 0.0 ==> worth > 0.0
    requires r.name == Or(e.name, name) && r.figures == MergedFigures(e.figures, before) && r.importedAt == now
    ensures RowWritten(r, name, before, raw, m, worth, now)
  {
  }

  /** Row `j` of a prepared submission, old or new, is merged with what it was. */
  lemma MergedAt(rows: seq<Row>, user: string, source: string, p: Cleaned, now: int, j: nat, e: Entry)
    requires Unique(rows) && WellKeyed(p) && j < |Upserted(rows, user, source, p, now)|
    requires var r := Upserted(rows, user, source, p, now)[j];
      Of(r, user, source) && r.symbol in p.entries
    ensures var r := Upserted(rows, user, source, p, now)[j];
      && r.name == Or(p.entries[r.symbol].name, NameBefore(rows, j))
      && r.figures == MergedFigures(p.entries[r.symbol].figures, FiguresBefore(rows, j)) && r.importedAt == now
      && EffectiveValue(rows, user, source, r.symbol, e) == Or(e.figures.value, FiguresBefore(rows, j).value)
  {
    UpsertedAt(rows, user, source, p, now, j);
    RowBefore(rows, user, source, p, now, j);
  }

  lemma SubmittedRow(rows: seq<Row>, user: string, source: string, raws: seq<Raw>, m: Market, now: int, j: nat, i: nat)
    requires Unique(rows)
    requires var after := AfterSync(rows, user, source, ReadAll(raws), m, now);
      j < |after| && Of(after[j], user, source) && LastFor(raws, i, after[j].symbol)
    ensures var after := AfterSync(rows, user, source, ReadAll(raws), m, now);
      RowWritten(after[j], NameBefore(rows, j), FiguresBefore(rows, j), raws[i], m, SourceValue(after, user, source), now)
  {
    var p, after := Prepared(rows, user, source, ReadAll(raws), m), AfterSync(rows, user, source, ReadAll(raws), m, now);
    var s := after[j].symbol;
    ValuedEntry(raws, m, i, s);
    PreparedIsWeighted(rows, user, source, raws, m);
    WeighedAgainstAfter(rows, user, source, raws, m, now, s);
    var valued := ValuedSubmission(raws, m).entries[s];
    MergedAt(rows, user, source, p, now, j, valued);
    RowOfPosition(after[j], NameBefore(rows, j), FiguresBefore(rows, j), raws[i], m, SourceValue(after, user, source), now,
                  p.entries[s], EffectiveValue(rows, user, source, s, valued));
  }

  lemma NewRowIsNew(rows: seq<Row>, user: string, source: string, c: Cleaned, now: int, j: nat)
    requires WellKeyed(c) && |rows| <= j < |Upserted(rows, user, source, c, now)|
    ensures !Has(rows, user, source, Upserted(rows, user, source, c, now)[j].symbol)
  {
    var news := NewKeys(rows, user, source, c.keys);
    NewKeysAre(rows, user, source, c.keys);
    AddedAre(user, source, news, c.entries, now);
    assert news[j - |rows|] in news;
  }

  /** The row of a key before an import: the one at the same place, or none. */
  lemma RowBefore(rows: seq<Row>, user: string, source: string, c: Cleaned, now: int, j: nat)
    requires Unique(rows) && WellKeyed(c) && j < |Upserted(rows, user, source, c, now)|
    requires Of(Upserted(rows, user, source, c, now)[j], user, source)
    ensures Lookup(rows, user, source, Upserted(rows, user, source, c, now)[j].symbol) == if j < |rows| then Some(rows[j]) else None
  {
    var symbol := Upserted(rows, user, source, c, now)[j].symbol;
    UpsertedAt(rows, user, source, c, now, j);
    if j < |rows| {
      LookupUnique(rows, user, source, symbol, j);
    } else {
      NewRowIsNew(rows, user, source, c, now, j);
      HasLookup(rows, user, source, symbol);
    }
  }

  lemma {:induction false} LookupUnique(rows: seq<Row>, user: string, source: string, symbol: string, j: nat)
    requires Unique(rows) && j < |rows| && Of(rows[j], user, source) && rows[j].symbol == symbol
    ensures Lookup(rows, user, source, symbol) == Some(rows[j])
  {
    if j < |rows| - 1 {
      assert !SameKey(rows[j], rows[|rows| - 1]);
      LookupUnique(rows[..|rows| - 1], user, source, symbol, j);
    }
  }

  /** `x` is submitted before `y` is for the first time. */
  ghost predicate ComesBefore(items: seq<Item>, x: string, y: string) {
    exists i :: 0 <= i < |items| && items[i].symbol == Some(x) && forall j :: 0 <= j <= i ==> items[j].symbol != Some(y)
  }

  ghost predicate InputOrder(items: seq<Item>, keys: seq<string>) {
    forall a, b :: 0 <= a < b < |keys| ==> ComesBefore(items, keys[a], keys[b])
  }

  lemma ComesBeforeMore(items: seq<Item>, item: Item, x: string, y: string)
    requires ComesBefore(items, x, y)
    ensures ComesBefore(items + [item], x, y)
  {
    var more := items + [item];
    var i :| 0 <= i < |items| && items[i].symbol == Some(x) && forall j :: 0 <= j <= i ==> items[j].symbol != Some(y);
    assert more[i].symbol == Some(x) && forall j :: 0 <= j <= i ==> more[j] == items[j];
  }

  lemma FirstOfNew(items: seq<Item>, item: Item, x: string, y: string)
    requires x in Clean(items).entries && y !in Clean(items).entries
    ensures ComesBefore(items + [item], x, y)
  {
    var i := KeptWasSubmitted(items, x);
    forall j | 0 <= j < |items| ensures items[j].symbol != Some(y) {
      if items[j].symbol == Some(y) { SubmittedIsKept(items, j, y); }
    }
    assert ComesBefore(items, x, y);
    ComesBeforeMore(items, item, x, y);
  }

  lemma {:induction false} SubmittedIsKept(items: seq<Item>, j: nat, y: string)
    requires j < |items| && items[j].symbol == Some(y)
    ensures y in Clean(items).entries
  {
    if j < |items| - 1 { SubmittedIsKept(items[..|items| - 1], j, y); }
  }

  lemma {:induction false} KeysInOrder(items: seq<Item>)
    ensures InputOrder(items, Clean(items).keys)
  {
    if items != [] {
      var init, item, keys := items[..|items| - 1], items[|items| - 1], Clean(items).keys;
      assert items == init + [item];
      KeysInOrder(init);
      CleanIsWellKeyed(init);
      forall a, b | 0 <= a < b < |keys| ensures ComesBefore(items, keys[a], keys[b]) {
        if b < |Clean(init).keys| {
          ComesBeforeMore(init, item, keys[a], keys[b]);
        } else {
          assert Clean(init).keys[a] in Clean(init).keys;
          FirstOfNew(init, item, keys[a], keys[b]);
        }
      }
    }
  }

  lemma {:induction false} NewKeysInOrder(items: seq<Item>, rows: seq<Row>, user: string, source: string, keys: seq<string>)
    requires InputOrder(items, keys)
    ensures InputOrder(items, NewKeys(rows, user, source, keys))
  {
    if keys != [] {
      var init, last, news := keys[..|keys| - 1], keys[|keys| - 1], NewKeys(rows, user, source, keys);
      NewKeysInOrder(items, rows, user, source, init);
      NewKeysAre(rows, user, source, init);
      forall a, b | 0 <= a < b < |news| ensures ComesBefore(items, news[a], news[b]) {
        if b == |NewKeys(rows, user, source, init)| {
          assert news[a] in NewKeys(rows, user, source, init);
          var i :| 0 <= i < |init| && init[i] == news[a];
          assert ComesBefore(items, keys[i], keys[|init|]);
        }
      }
    }
  }

  lemma NewRowSymbol(rows: seq<Row>, user: string, source: string, c: Cleaned, now: int, j: nat)
    requires WellKeyed(c) && |rows| <= j < |Upserted(rows, user, source, c, now)|
    ensures var news := NewKeys(rows, user, source, c.keys);
      j - |rows| < |news| && Upserted(rows, user, source, c, now)[j].symbol == news[j - |rows|]
  {
    var news, k := NewKeys(rows, user, source, c.keys), j - |rows|;
    NewKeysAre(rows, user, source, c.keys);
    AddedIs(user, source, news, c.entries, now, k);
    assert Upserted(rows, user, source, c, now)[j] == Added(user, source, news, c.entries, now)[k];
  }

  lemma AddedIs(user: string, source: string, keys: seq<string>, entries: map<string, Entry>, now: int, k: nat)
    requires forall key :: key in keys ==> key in entries
    ensures |Added(user, source, keys, entries, now)| == |keys|
    ensures k < |keys| ==> Added(user, source, keys, entries, now)[k].symbol == keys[k]
  {
    AddedAre(user, source, keys, entries, now);
  }

  /** The new rows of an import come in the order in which their symbols are first submitted. */
  lemma NewRowsInOrder(rows: seq<Row>, user: string, source: string, items: seq<Item>, m: Market, now: int, a: nat, b: nat)
    requires |rows| <= a < b < |AfterSync(rows, user, source, items, m, now)|
    ensures var after := AfterSync(rows, user, source, items, m, now); ComesBefore(items, after[a].symbol, after[b].symbol)
  {
    var p := Prepared(rows, user, source, items, m);
    CleanIsWellKeyed(items);
    KeysInOrder(items);
    NewKeysInOrder(items, rows, user, source, p.keys);
    NewRowSymbol(rows, user, source, p, now, a);
    NewRowSymbol(rows, user, source, p, now, b);
  }

  /** The table after an import says of every row what it has to. */
  lemma SyncTells(rows: seq<Row>, user: string, source: string, raws: seq<Raw>, m: Market, now: int)
    requires Unique(rows)
    ensures TableTells(rows, AfterSync(rows, user, source, ReadAll(raws), m, now), user, source, raws, m, now)
  {
    var items := ReadAll(raws);
    var p, after := Prepared(rows, user, source, items, m), AfterSync(rows, user, source, items, m, now);
    CleanIsWellKeyed(items);
    forall j | 0 <= j < |after| ensures RowTells(rows, after, user, source, raws, m, now, j) {
      UpsertedAt(rows, user, source, p, now, j);
      SubmittedIff(raws, after[j].symbol);
      forall i: nat | LastFor(raws, i, after[j].symbol) && Of(after[j], user, source)
        ensures RowWritten(after[j], NameBefore(rows, j), FiguresBefore(rows, j), raws[i], m, SourceValue(after, user, source), now)
      {
        SubmittedRow(rows, user, source, raws, m, now, j, i);
      }
    }
    forall i: nat, s | LastFor(raws, i, s) ensures Has(after, user, source, s) {
      SubmittedIff(raws, s);
      SyncIsUpsert(rows, user, source, p, now, user, source, s);
      HasLookup(after, user, source, s);
    }
  }

  // ------------------------------------------------------------------- deletion

  predicate Hit(r: Row, user: string, symbols: seq<string>) { r.user == user && r.symbol in symbols }

  function AfterDelete(rows: seq<Row>, user: string, symbols: seq<string>): seq<Row> {
    if rows == [] then [] else
      var r := rows[|rows| - 1];
      AfterDelete(rows[..|rows| - 1], user, symbols) + if Hit(r, user, symbols) then [] else [r]
  }

  lemma {:induction false} DeleteAppend(a: seq<Row>, b: seq<Row>, user: string, symbols: seq<string>)
    ensures AfterDelete(a + b, user, symbols) == AfterDelete(a, user, symbols) + AfterDelete(b, user, symbols)
  {
    if b == [] {
      assert a + b == a;
    } else {
      DeleteAppend(a, b[..|b| - 1], user, symbols);
      assert (a + b)[..|a + b| - 1] == a + b[..|b| - 1];
    }
  }

  lemma {:induction false} DeleteNone(rows: seq<Row>, user: string, symbols: seq<string>)
    requires forall i :: 0 <= i < |rows| ==> !Hit(rows[i], user, symbols)
    ensures AfterDelete(rows, user, symbols) == rows
  {
    if rows != [] { DeleteNone(rows[..|rows| - 1], user, symbols); }
  }

  lemma {:induction false} DeleteAll(rows: seq<Row>, user: string, symbols: seq<string>)
    requires forall i :: 0 <= i < |rows| ==> Hit(rows[i], user, symbols)
    ensures AfterDelete(rows, user, symbols) == []
  {
    if rows != [] { DeleteAll(rows[..|rows| - 1], user, symbols); }
  }

  /** What a deletion leaves is every other row, in order. */
  lemma {:induction false} DeleteLeaves(rows: seq<Row>, user: string, symbols: seq<string>, keep: Row -> bool) returns (at: seq<nat>)
    requires forall r :: keep(r) <==> r.user != user || r.symbol !in symbols
    ensures Filtered(rows, keep, at, AfterDelete(rows, user, symbols))
  {
    at := [];
    if rows != [] {
      var init, last := rows[..|rows| - 1], rows[|rows| - 1];
      assert rows == init + [last];
      at := DeleteLeaves(init, user, symbols, keep);
      FilteredMore(init, last, keep, at, AfterDelete(init, user, symbols));
      if keep(last) { at := at + [|init|]; }
    }
  }

  /** Deleting what was imported brings the table back, when the user held none of it before. */
  lemma DeleteUndoesImport(rows: seq<Row>, user: string, source: string, c: Cleaned, now: int)
    requires WellKeyed(c) && forall i :: 0 <= i < |rows| ==> !Hit(rows[i], user, c.keys)
    ensures AfterDelete(Upserted(rows, user, source, c, now), user, c.keys) == rows
  {
    var news := NewKeys(rows, user, source, c.keys);
    NewKeysAre(rows, user, source, c.keys);
    AddedAre(user, source, news, c.entries, now);
    var a, b := Updated(rows, user, source, c.keys, c.entries, now), Added(user, source, news, c.entries, now);
    assert a == rows;
    DeleteAppend(a, b, user, c.keys);
    DeleteNone(rows, user, c.keys);
    forall i | 0 <= i < |b| ensures Hit(b[i], user, c.keys) { assert news[i] in news; }
    DeleteAll(b, user, c.keys);
  }

  // ------------------------------------------------------------- the operations

  function ReadAll(raws: seq<Raw>): seq<Item> { seq(|raws|, i requires 0 <= i < |raws| => Read(raws[i])) }

  /** The symbols held after the import, for the schedule. */
  function Held(c: Cleaned, keys: seq<string>): seq<Option<string>> {
    if keys == [] then [] else
      var last := keys[|keys| - 1];
      Held(c, keys[..|keys| - 1]) +
        if last in c.entries && Positive(c.entries[last].figures.position) > 0.0 then [Some(last)] else []
  }

  function SourceOf(source: Option<string>): string {
    Quota.StripRight(Quota.StripLeft(if source.None? || source.value == "" then "manual" else source.value))
  }

  /** The source of an import is the text without white space at its ends, "manual" without a text. */
  lemma SourceOfIs(source: Option<string>)
    ensures source == None || source == Some("") ==> SourceOf(source) == "manual"
    ensures source.Some? && source.value != "" ==> Quota.Stripped(source.value, SourceOf(source))
  {
    Quota.StripIsStripped(if source.None? || source.value == "" then "manual" else source.value);
    assert Quota.StripLeft("manual") == "manual" == Quota.StripRight("manual");
  }

  /** For the schedule the held symbols of the submission are taken, in its order. */
  lemma {:induction false} HeldAre(c: Cleaned, keys: seq<string>, keep: string -> bool) returns (at: seq<nat>, held: seq<string>)
    requires forall s :: keep(s) <==>
      s in c.entries && c.entries[s].figures.position.Some? && c.entries[s].figures.position.value > 0.0
    ensures Filtered(keys, keep, at, held)
    ensures |Held(c, keys)| == |held| && forall i :: 0 <= i < |held| ==> Held(c, keys)[i] == Some(held[i])
  {
    at, held := [], [];
    if keys != [] {
      var init, last := keys[..|keys| - 1], keys[|keys| - 1];
      assert keys == init + [last];
      at, held := HeldAre(c, init, keep);
      FilteredMore(init, last, keep, at, held);
      if keep(last) { at, held := at + [|init|], held + [last]; }
    }
  }

  method CleanPositions(raws: seq<Raw>) returns (c: Cleaned)
    ensures c == Clean(ReadAll(raws))
  {
    c := Cleaned([], map[]);
    for n := 0 to |raws|
      invariant c == Clean(ReadAll(raws)[..n])
    {
      assert ReadAll(raws)[..n + 1][..n] == ReadAll(raws)[..n];
      var item := Read(raws[n]);
      if item.symbol.None? { continue; }
      c := Cleaned(if item.symbol.value in c.entries then c.keys else c.keys + [item.symbol.value],
                   c.entries[item.symbol.value := item.entry]);
    }
    assert ReadAll(raws)[..|raws|] == ReadAll(raws);
  }

  /** Entries of which those of `keys` have been replaced. */
  ghost predicate Replaced(entries: map<string, Entry>, before: map<string, Entry>, all: map<string, Entry>, keys: seq<string>) {
    && entries.Keys == before.Keys == all.Keys
    && forall s :: s in entries ==> entries[s] == if s in keys then all[s] else before[s]
  }

  lemma ReplacedMore(entries: map<string, Entry>, before: map<string, Entry>, all: map<string, Entry>, keys: seq<string>, k: string)
    requires Replaced(entries, before, all, keys) && k in all
    ensures Replaced(entries[k := all[k]], before, all, keys + [k])
  {
  }

  lemma NextKey(c: Cleaned, n: nat)
    requires WellKeyed(c) && n < |c.keys|
    ensures c.keys[n] in c.entries && c.keys[n] !in c.keys[..n] && c.keys[..n + 1] == c.keys[..n] + [c.keys[n]]
  {
    assert c.keys[n] in c.keys;
  }

  lemma ReplacedAll(entries: map<string, Entry>, c: Cleaned, all: map<string, Entry>)
    requires WellKeyed(c) && Replaced(entries, c.entries, all, c.keys)
    ensures entries == all
  {
  }

  method ValueOne(entry: Entry, symbol: string, m: Market) returns (e: Entry)
    ensures e == Valued(entry, symbol, m)
  {
    e := entry;
    var price := m.price(symbol);
    if price.Some? && price.value > 0.0 && e.figures.position.Some? {
      e := e.(figures := e.figures.(value := Some(m.round2(Worth(e.figures.position.value, price.value)))));
    }
  }

  method ValuePositions(c: Cleaned, m: Market) returns (entries: map<string, Entry>)
    requires WellKeyed(c)
    ensures entries == ValuedAll(c.entries, m)
  {
    ghost var all := ValuedAll(c.entries, m);
    entries := c.entries;
    for n := 0 to |c.keys|
      invariant Replaced(entries, c.entries, all, c.keys[..n])
    {
      var k := c.keys[n];
      NextKey(c, n);
      var e := ValueOne(entries[k], k, m);
      assert e == all[k];
      ReplacedMore(entries, c.entries, all, c.keys[..n], k);
      entries := entries[k := e];
    }
    assert c.keys[..|c.keys|] == c.keys;
    ReplacedAll(entries, c, all);
  }

  method TotalValue(rows: seq<Row>, user: string, source: string, c: Cleaned) returns (total: real)
    requires WellKeyed(c)
    ensures total == Total(rows, user, source, c)
  {
    total := 0.0;
    for n := 0 to |rows|
      invariant total == RowsTotal(rows[..n], user, source, c.entries)
    {
      assert rows[..n + 1][..n] == rows[..n];
      if Of(rows[n], user, source) { total := total + Positive(ValueOf(rows[n], c.entries)); }
    }
    assert rows[..|rows|] == rows;
    var ofRows := total;
    for n := 0 to |c.keys|
      invariant total == ofRows + KeysTotal(NewKeys(rows, user, source, c.keys[..n]), c.entries)
    {
      var k := c.keys[n];
      assert c.keys[..n + 1][..n] == c.keys[..n] && k in c.keys;
      var news := NewKeys(rows, user, source, c.keys[..n]);
      if !Has(rows, user, source, k) {
        assert (news + [k])[..|news + [k]| - 1] == news;
        total := total + Positive(c.entries[k].figures.value);
      } else {
        assert NewKeys(rows, user, source, c.keys[..n + 1]) == news;
      }
    }
    assert c.keys[..|c.keys|] == c.keys;
  }

  method WeighOne(entry: Entry, value: Option<real>, total: real, m: Market) returns (e: Entry)
    ensures e == Weighted(entry, value, total, m)
  {
    e := entry;
    if e.figures.pct.None? && total > 0.0 && value.Some? && value.value > 0.0 {
      e := e.(figures := e.figures.(pct := Some(m.round4(Share(value.value, total)))));
    }
  }

  method WeighPositions(rows: seq<Row>, user: string, source: string, c: Cleaned, m: Market)
    returns (entries: map<string, Entry>)
    requires WellKeyed(c)
    ensures entries == WeightedAll(rows, user, source, c, m)
  {
    var total := TotalValue(rows, user, source, c);
    ghost var all := WeightedAll(rows, user, source, c, m);
    entries := c.entries;
    for n := 0 to |c.keys|
      invariant Replaced(entries, c.entries, all, c.keys[..n])
    {
      var k := c.keys[n];
      NextKey(c, n);
      var e := WeighOne(entries[k], EffectiveValue(rows, user, source, k, entries[k]), total, m);
      assert e == all[k];
      ReplacedMore(entries, c.entries, all, c.keys[..n], k);
      entries := entries[k := e];
    }
    assert c.keys[..|c.keys|] == c.keys;
    ReplacedAll(entries, c, all);
  }

  lemma UpdateOne(rows: seq<Row>, user: string, source: string, keys: seq<string>, k: string,
                  entries: map<string, Entry>, now: int, i: nat)
    requires Unique(rows) && k !in keys && k in entries
    requires i < |rows| && Of(rows[i], user, source) && rows[i].symbol == k
    ensures Updated(rows, user, source, keys + [k], entries, now) ==
            Updated(rows, user, source, keys, entries, now)[i := Merged(rows[i], entries[k], now)]
  {
    forall j | 0 <= j < |rows| && j != i ensures !(Of(rows[j], user, source) && rows[j].symbol == k) {
      assert if i < j then !SameKey(rows[i], rows[j]) else !SameKey(rows[j], rows[i]);
    }
  }

  lemma UpdateNone(rows: seq<Row>, user: string, source: string, keys: seq<string>, k: string,
                   entries: map<string, Entry>, now: int)
    requires !Has(rows, user, source, k)
    ensures Updated(rows, user, source, keys + [k], entries, now) == Updated(rows, user, source, keys, entries, now)
  {
    assert forall j :: 0 <= j < |rows| && Of(rows[j], user, source) ==> rows[j].symbol != k;
  }

  lemma NewKeysMore(rows: seq<Row>, user: string, source: string, keys: seq<string>, k: string)
    ensures NewKeys(rows, user, source, keys + [k]) ==
            NewKeys(rows, user, source, keys) + if Has(rows, user, source, k) then [] else [k]
  {
    assert (keys + [k])[..|keys + [k]| - 1] == keys;
  }

  lemma AddedMore(user: string, source: string, keys: seq<string>, k: string, entries: map<string, Entry>, now: int)
    requires k in entries
    ensures Added(user, source, keys + [k], entries, now) ==
            Added(user, source, keys, entries, now) + [NewRow(user, source, k, entries[k], now)]
  {
    assert (keys + [k])[..|keys + [k]| - 1] == keys;
  }

  method FindRow(rows: seq<Row>, user: string, source: string, symbol: string) returns (i: int)
    ensures Has(rows, user, source, symbol) <==> i >= 0
    ensures -1 <= i < |rows| && (i >= 0 ==> Of(rows[i], user, source) && rows[i].symbol == symbol)
  {
    i := 0;
    while i < |rows|
      invariant 0 <= i <= |rows| && forall j :: 0 <= j < i ==> !(Of(rows[j], user, source) && rows[j].symbol == symbol)
    {
      if Of(rows[i], user, source) && rows[i].symbol == symbol { return; }
      i := i + 1;
    }
    i := -1;
  }

  /** A part of the submission written. */
  ghost predicate Written(done: seq<Row>, rows: seq<Row>, user: string, source: string, keys: seq<string>,
                          entries: map<string, Entry>, now: int) {
    done == Updated(rows, user, source, keys, entries, now)
            + Added(user, source, NewKeys(rows, user, source, keys), entries, now)
  }

  lemma WrittenExisting(done: seq<Row>, rows: seq<Row>, user: string, source: string, keys: seq<string>, k: string,
                        entries: map<string, Entry>, now: int, i: nat)
    requires Written(done, rows, user, source, keys, entries, now)
    requires Unique(rows) && k !in keys && k in entries
    requires i < |rows| && Of(rows[i], user, source) && rows[i].symbol == k
    ensures i < |done| && done[i] == rows[i]
    ensures Written(done[i := Merged(rows[i], entries[k], now)], rows, user, source, keys + [k], entries, now)
  {
    assert Has(rows, user, source, k);
    NewKeysMore(rows, user, source, keys, k);
    assert NewKeys(rows, user, source, keys + [k]) == NewKeys(rows, user, source, keys);
    UpdateOne(rows, user, source, keys, k, entries, now, i);
    var a, b := Updated(rows, user, source, keys, entries, now), Added(user, source, NewKeys(rows, user, source, keys), entries, now);
    assert a[i] == rows[i];
    assert (a + b)[i := Merged(rows[i], entries[k], now)] == a[i := Merged(rows[i], entries[k], now)] + b;
  }

  lemma WrittenNew(done: seq<Row>, rows: seq<Row>, user: string, source: string, keys: seq<string>, k: string,
                   entries: map<string, Entry>, now: int)
    requires Written(done, rows, user, source, keys, entries, now)
    requires !Has(rows, user, source, k) && k in entries
    ensures Written(done + [NewRow(user, source, k, entries[k], now)], rows, user, source, keys + [k], entries, now)
  {
    NewKeysMore(rows, user, source, keys, k);
    AddedMore(user, source, NewKeys(rows, user, source, keys), k, entries, now);
    UpdateNone(rows, user, source, keys, k, entries, now);
  }

  /** The field-by-field write of one row; a new row takes every field as it is. */
  method WriteRow(row: Row, e: Entry, isNew: bool, now: int) returns (r: Row)
    requires isNew ==> row.name.None?
    ensures !isNew ==> r == Merged(row, e, now)
    ensures isNew ==> r == NewRow(row.user, row.source, row.symbol, e, now)
  {
    r := row;
    if e.name.Some? { r := r.(name := e.name); }
    var f := r.figures;
    if e.figures.position.Some? || isNew { f := f.(position := e.figures.position); }
    if e.figures.available.Some? || isNew { f := f.(available := e.figures.available); }
    if e.figures.cost.Some? || isNew { f := f.(cost := e.figures.cost); }
    if e.figures.value.Some? || isNew { f := f.(value := e.figures.value); }
    if e.figures.pct.Some? || isNew { f := f.(pct := e.figures.pct); }
    r := r.(figures := f, importedAt := now);
  }

  datatype Deletion = Invalid | Deleted(deleted: seq<string>, missing: seq<string>)

  class ImportedPortfolio {
    var rows: seq<Row>

    constructor ()
      ensures rows == []
    {
      rows := [];
    }

    method Upsert(user: string, source: string, c: Cleaned, now: int)
      requires Unique(rows) && WellKeyed(c)
      modifies this
      ensures rows == Upserted(old(rows), user, source, c, now)
    {
      var before := rows;
      for n := 0 to |c.keys|
        invariant Written(rows, before, user, source, c.keys[..n], c.entries, now)
      {
        var k := c.keys[n];
        assert k in c.keys && k !in c.keys[..n] && c.keys[..n + 1] == c.keys[..n] + [k];
        var e := c.entries[k];
        var i := FindRow(before, user, source, k);
        if i >= 0 {
          WrittenExisting(rows, before, user, source, c.keys[..n], k, c.entries, now, i);
          var row := WriteRow(rows[i], e, false, now);
          rows := rows[i := row];
        } else {
          WrittenNew(rows, before, user, source, c.keys[..n], k, c.entries, now);
          var row := WriteRow(Row(user, source, k, None, NO_FIGURES, now), e, true, now);
          rows := rows + [row];
        }
      }
      assert c.keys[..|c.keys|] == c.keys;
    }

    /** False stands for the ValueError of a submission without one valid symbol. */
    method SyncPositions(user: string, source: Option<string>, raws: seq<Raw>, m: Market, now: int,
                         autoApply: bool, schedule: Quota.UserSchedule)
      returns (ok: bool)
      requires Unique(rows)
      modifies this, schedule
      ensures Unique(rows)
      ensures ok <==> exists i :: 0 <= i < |raws| && NormalizePositionSymbol(raws[i].symbol).Some?
      ensures !ok ==> rows == old(rows) && schedule.items == old(schedule.items)
      ensures ok ==> rows == AfterSync(old(rows), user, SourceOf(source), ReadAll(raws), m, now)
      ensures ok ==> TableTells(old(rows), rows, user, SourceOf(source), raws, m, now)
      ensures ok ==> schedule.items == old(schedule.items) + if !autoApply then [] else
        Quota.Ensured(old(schedule.items), Held(Prepared(old(rows), user, SourceOf(source), ReadAll(raws), m),
                                                Clean(ReadAll(raws)).keys)).created
    {
      var src := SourceOf(source);
      var c := CleanPositions(raws);
      CleanIsWellKeyed(ReadAll(raws));
      AnyValid(raws);
      var entries := ValuePositions(c, m);
      var valued := Cleaned(c.keys, entries);
      entries := WeighPositions(rows, user, src, valued, m);
      if c.keys == [] { return false; }
      var p := Cleaned(c.keys, entries);
      SyncKeepsUnique(rows, user, src, p, now);
      SyncTells(rows, user, src, raws, m, now);
      Upsert(user, src, p, now);
      if autoApply { ScheduleHeld(p, schedule); }
      return true;
    }

    method ScheduleHeld(p: Cleaned, schedule: Quota.UserSchedule)
      requires WellKeyed(p)
      modifies schedule
      ensures schedule.items == old(schedule.items) + Quota.Ensured(old(schedule.items), Held(p, p.keys)).created
    {
      var ordered: seq<Option<string>> := [];
      for n := 0 to |p.keys|
        invariant ordered == Held(p, p.keys[..n])
        invariant schedule.items == old(schedule.items)
      {
        assert p.keys[..n + 1][..n] == p.keys[..n] && p.keys[n] in p.keys;
        if Positive(p.entries[p.keys[n]].figures.position) > 0.0 { ordered := ordered + [Some(p.keys[n])]; }
      }
      assert p.keys[..|p.keys|] == p.keys;
      var ok, created, existing, skipped := schedule.EnsureScheduledForSymbols(ordered, "short", 20, 0);
    }

    /** Deletes over all sources of a user; an invalid symbol or an empty list changes nothing. */
    method DeleteImportedPositions(user: string, raws: seq<Option<string>>) returns (r: Deletion)
      modifies this
      ensures r.Invalid? <==> raws == [] || exists i :: 0 <= i < |raws| && NormalForms(raws)[i].None?
      ensures r.Invalid? ==> rows == old(rows)
      ensures r.Deleted? ==> rows == AfterDelete(old(rows), user, Symbols(NormalForms(raws)))
      ensures r.Deleted? ==> r.deleted == Present(old(rows), user, Symbols(NormalForms(raws)), true)
      ensures r.Deleted? ==> r.missing == Present(old(rows), user, Symbols(NormalForms(raws)), false)
    {
      var normalized := NormalizeAll(NormalForms(raws));
      if normalized.None? { return Invalid; }
      if normalized.value == [] { SymbolsOfNone(NormalForms(raws)); return Invalid; }
      r := Deleted(Present(rows, user, normalized.value, true), Present(rows, user, normalized.value, false));
      rows := WithoutHits(rows, user, normalized.value);
    }
  }

  function NormalForms(raws: seq<Option<string>>): seq<Option<string>> {
    seq(|raws|, i requires 0 <= i < |raws| => NormalizePositionSymbol(raws[i]))
  }

  /** The distinct symbols in order, unless one is missing. */
  method NormalizeAll(given: seq<Option<string>>) returns (symbols: Option<seq<string>>)
    ensures symbols.None? <==> exists i :: 0 <= i < |given| && given[i].None?
    ensures symbols.Some? ==> symbols.value == Symbols(given)
  {
    var normalized: seq<string> := [];
    for n := 0 to |given|
      invariant normalized == Symbols(given[..n])
      invariant forall i :: 0 <= i < n ==> given[i].Some?
    {
      assert given[..n + 1][..n] == given[..n];
      if given[n].None? { return None; }
      if given[n].value !in normalized { normalized := normalized + [given[n].value]; }
    }
    assert given[..|given|] == given;
    return Some(normalized);
  }

  method WithoutHits(rows: seq<Row>, user: string, symbols: seq<string>) returns (kept: seq<Row>)
    ensures kept == AfterDelete(rows, user, symbols)
  {
    kept := [];
    for n := 0 to |rows|
      invariant kept == AfterDelete(rows[..n], user, symbols)
    {
      assert rows[..n + 1][..n] == rows[..n];
      if !Hit(rows[n], user, symbols) { kept := kept + [rows[n]]; }
    }
    assert rows[..|rows|] == rows;
  }

  /** The distinct symbols, in order. */
  function Symbols(given: seq<Option<string>>): seq<string> {
    if given == [] then [] else
      var init, symbol := Symbols(given[..|given| - 1]), given[|given| - 1];
      if symbol.None? || symbol.value in init then init else init + [symbol.value]
  }

  lemma SymbolsOfNone(given: seq<Option<string>>)
    requires Symbols(given) == [] && forall i :: 0 <= i < |given| ==> given[i].Some?
    ensures given == []
  {
  }

  /** The symbols the user holds in some source, or those he does not. */
  function Present(rows: seq<Row>, user: string, symbols: seq<string>, held: bool): seq<string> {
    if symbols == [] then [] else
      var last := symbols[|symbols| - 1];
      Present(rows, user, symbols[..|symbols| - 1], held) +
        if (exists i :: 0 <= i < |rows| && rows[i].user == user && rows[i].symbol == last) == held then [last] else []
  }

  /** What is reported as deleted, or as missing, are the listed symbols the user had in some
      source, or in none, in the order of the list. */
  lemma {:induction false} PresentAre(rows: seq<Row>, user: string, symbols: seq<string>, held: bool, keep: string -> bool)
    returns (at: seq<nat>)
    requires forall s :: keep(s) <==> (exists i :: 0 <= i < |rows| && rows[i].user == user && rows[i].symbol == s) == held
    ensures Filtered(symbols, keep, at, Present(rows, user, symbols, held))
  {
    at := [];
    if symbols != [] {
      var init, last := symbols[..|symbols| - 1], symbols[|symbols| - 1];
      assert symbols == init + [last];
      at := PresentAre(rows, user, init, held, keep);
      FilteredMore(init, last, keep, at, Present(rows, user, init, held));
      if keep(last) { at := at + [|init|]; }
    }
  }

  /** The list of a deletion has every given symbol once. */
  lemma {:induction false} SymbolsAre(given: seq<Option<string>>, s: string)
    ensures NoRepeat(Symbols(given)) && (s in Symbols(given) <==> Some(s) in given)
  {
    if given != [] {
      var init, last := given[..|given| - 1], given[|given| - 1];
      assert given == init + [last];
      SymbolsAre(init, s);
    }
  }

  lemma {:induction false} CleanEmptyIff(items: seq<Item>)
    ensures Clean(items).keys != [] <==> exists i :: 0 <= i < |items| && items[i].symbol.Some?
  {
    if items != [] {
      var init := items[..|items| - 1];
      CleanEmptyIff(init);
      CleanIsWellKeyed(init);
      if exists i :: 0 <= i < |init| && init[i].symbol.Some? {
        var i :| 0 <= i < |init| && init[i].symbol.Some?;
        assert items[i].symbol.Some?;
      }
    }
  }

  lemma AnyValid(raws: seq<Raw>)
    ensures Clean(ReadAll(raws)).keys != [] <==> exists i :: 0 <= i < |raws| && NormalizePositionSymbol(raws[i].symbol).Some?
  {
    CleanEmptyIff(ReadAll(raws));
    forall i | 0 <= i < |raws| ensures ReadAll(raws)[i].symbol == NormalizePositionSymbol(raws[i].symbol) { }
  }
}
