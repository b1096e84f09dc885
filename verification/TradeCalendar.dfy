/**
 The trading calendar: inside the span of the downloaded dates a day trades when it is listed,
 outside of it (or without a list) when it is a weekday. Days are proleptic ordinals; day 1
 was a Monday.
 */
module TradeCalendar {

  type Day = int

  function Weekday(d: Day): int { (d + 6) % 7 }

  /** `is_cn_trading_day` for the loaded dates. */
  predicate Trades(dates: seq<Day>, d: Day) {
    if dates != [] && dates[0] <= d <= dates[|dates| - 1] then d in dates else Weekday(d) < 5
  }

  predicate InSpan(dates: seq<Day>, d: Day) { dates != [] && dates[0] <= d <= dates[|dates| - 1] }

  /** Within the span of the list a day trades when it is on it; every other day by its place in
      the week: counted from day 1, a Monday, the first five of seven trade. */
  lemma TradesByListOrWeek(dates: seq<Day>, week: int, place: nat)
    requires place < 7
    ensures var d := 1 + 7 * week + place;
      Trades(dates, d) <==> if InSpan(dates, d) then exists i :: 0 <= i < |dates| && dates[i] == d else place < 5
  {
  }

  /** 1 January 2000, day 730120, was a Saturday. */
  lemma SaturdayIn2000()
    ensures !Trades([], 730120) && !Trades([], 730121) && Trades([], 730122) && Trades([730120], 730120)
  {
    TradesByListOrWeek([], 104302, 5);
    TradesByListOrWeek([], 104302, 6);
    TradesByListOrWeek([], 104303, 0);
    TradesByListOrWeek([730120], 104302, 5);
  }

  // ------------------------------------------------------------ the next day

  /** Days that can still be refused after `d`: to the end of the list, and a weekend. */
  function Ahead(dates: seq<Day>, d: Day): nat {
    (if dates != [] && d < dates[|dates| - 1] then 4 * (dates[|dates| - 1] - d) else 0)
      + (if Weekday(d + 1) == 5 then 2 else if Weekday(d + 1) == 6 then 1 else 0)
  }

  function Behind(dates: seq<Day>, d: Day): nat {
    (if dates != [] && dates[0] < d then 4 * (d - dates[0]) else 0)
      + (if Weekday(d - 1) == 6 then 2 else if Weekday(d - 1) == 5 then 1 else 0)
  }

  lemma AheadShrinks(dates: seq<Day>, d: Day)
    requires !Trades(dates, d + 1)
    ensures Ahead(dates, d + 1) < Ahead(dates, d)
  {
  }

  lemma BehindShrinks(dates: seq<Day>, d: Day)
    requires !Trades(dates, d - 1)
    ensures Behind(dates, d - 1) < Behind(dates, d)
  {
  }

  /** No day strictly between two days trades. */
  ghost predicate NoneBetween(dates: seq<Day>, a: Day, b: Day)
    decreases b - a
  {
    a + 1 < b ==> !Trades(dates, a + 1) && NoneBetween(dates, a + 1, b)
  }

  lemma {:induction false} NoneBetweenMeans(dates: seq<Day>, a: Day, b: Day)
    ensures NoneBetween(dates, a, b) <==> forall x :: a < x < b ==> !Trades(dates, x)
    decreases b - a
  {
    if a + 1 < b { NoneBetweenMeans(dates, a + 1, b); }
  }

  lemma {:induction false} NoneBetweenMore(dates: seq<Day>, a: Day, b: Day)
    requires a < b && NoneBetween(dates, a, b) && !Trades(dates, b)
    ensures NoneBetween(dates, a, b + 1)
    decreases b - a
  {
    if a + 1 < b { NoneBetweenMore(dates, a + 1, b); } else { assert NoneBetween(dates, a + 1, b + 1); }
  }

  /** The first trading day after `d`. */
  function Next(dates: seq<Day>, d: Day): (n: Day)
    ensures d < n && Trades(dates, n) && NoneBetween(dates, d, n)
    decreases Ahead(dates, d)
  {
    if Trades(dates, d + 1) then d + 1 else
      AheadShrinks(dates, d);
      Next(dates, d + 1)
  }

  /** The last trading day before `d`. */
  function Previous(dates: seq<Day>, d: Day): (p: Day)
    ensures p < d && Trades(dates, p) && NoneBetween(dates, p, d)
    decreases Behind(dates, d)
  {
    if Trades(dates, d - 1) then d - 1 else
      BehindShrinks(dates, d);
      var p := Previous(dates, d - 1);
      NoneBetweenMore(dates, p, d - 1);
      p
  }

  method PreviousCnTradingDay(dates: seq<Day>, d: Day) returns (p: Day)
    ensures p == Previous(dates, d)
  {
    var cur := d;
    while true
      invariant cur <= d && Previous(dates, cur) == Previous(dates, d)
      decreases Behind(dates, cur)
    {
      if !Trades(dates, cur - 1) { BehindShrinks(dates, cur); }
      cur := cur - 1;
      if Trades(dates, cur) { return cur; }
    }
  }

  function LastOr(days: seq<Day>, d: Day): Day { if days == [] then d else days[|days| - 1] }

  function NextDays(dates: seq<Day>, d: Day, n: nat): (days: seq<Day>)
    ensures |days| == n
  {
    if n == 0 then [] else
      var days := NextDays(dates, d, n - 1);
      days + [Next(dates, LastOr(days, d))]
  }

  datatype Result<T> = Ok(value: T) | ValueError

  method NextCnTradingDays(dates: seq<Day>, after: Day, count: int) returns (r: Result<seq<Day>>)
    ensures r == if count < 0 then ValueError else Ok(NextDays(dates, after, count))
  {
    if count < 0 { return ValueError; }
    var current := after;
    var result: seq<Day> := [];
    while |result| < count
      invariant |result| <= count && result == NextDays(dates, after, |result|)
      invariant |result| < count ==> Next(dates, current) == Next(dates, LastOr(result, after))
      decreases count - |result|, Ahead(dates, current)
    {
      ghost var n := |result|;
      if !Trades(dates, current + 1) { AheadShrinks(dates, current); }
      NextDaysStep(dates, after, n + 1);
      current := current + 1;
      if Trades(dates, current) { result := result + [current]; }
    }
    return Ok(result);
  }

  lemma NextDaysStep(dates: seq<Day>, d: Day, n: nat)
    requires n > 0
    ensures NextDays(dates, d, n) == NextDays(dates, d, n - 1) + [Next(dates, LastOr(NextDays(dates, d, n - 1), d))]
  {
  }

  // ------------------------------------------------------- exactly the first days

  /** Ascending trading days after `d` with none left out. */
  ghost predicate FirstDays(dates: seq<Day>, d: Day, days: seq<Day>) {
    && (forall i :: 0 <= i < |days| ==> d < days[i] && Trades(dates, days[i]))
    && (forall i, j :: 0 <= i < j < |days| ==> days[i] < days[j])
    && (forall x :: d < x <= LastOr(days, d) && Trades(dates, x) ==> x in days)
  }

  lemma FirstDaysMore(dates: seq<Day>, d: Day, days: seq<Day>)
    requires FirstDays(dates, d, days)
    ensures FirstDays(dates, d, days + [Next(dates, LastOr(days, d))])
  {
    var last := LastOr(days, d);
    var n := Next(dates, last);
    var more := days + [n];
    NoneBetweenMeans(dates, last, n);
    forall i | 0 <= i < |days| ensures days[i] <= last { }
    forall x | d < x <= n && Trades(dates, x) ensures x in more {
      if x <= last { assert x in days; } else { assert x == n && more[|days|] == n; }
    }
  }

  lemma {:induction false} NextDaysAreFirst(dates: seq<Day>, d: Day, n: nat)
    ensures FirstDays(dates, d, NextDays(dates, d, n))
  {
    if n > 0 {
      NextDaysAreFirst(dates, d, n - 1);
      FirstDaysMore(dates, d, NextDays(dates, d, n - 1));
    }
  }

  /** The k-th of such a list follows the one before it. */
  lemma FirstDaysStep(dates: seq<Day>, d: Day, days: seq<Day>, k: nat)
    requires FirstDays(dates, d, days) && k < |days|
    ensures days[k] == Next(dates, LastOr(days[..k], d))
  {
    var before := LastOr(days[..k], d);
    var n := Next(dates, before);
    NoneBetweenMeans(dates, before, n);
    assert before < days[k];
    if n < days[k] {
      assert false;
    }
    assert !(before < days[k] < n);
  }

  lemma {:induction false} FirstDaysUnique(dates: seq<Day>, d: Day, days: seq<Day>, k: nat)
    requires FirstDays(dates, d, days) && k <= |days|
    ensures days[..k] == NextDays(dates, d, k)
  {
    if k > 0 {
      FirstDaysUnique(dates, d, days, k - 1);
      FirstDaysStep(dates, d, days, k - 1);
      assert days[..k] == days[..k - 1] + [days[k - 1]];
    }
  }

  /** `next_cn_trading_days` is the one list of n ascending trading days after the start that
      skips none. */
  lemma ExactlyTheFirst(dates: seq<Day>, d: Day, days: seq<Day>)
    ensures FirstDays(dates, d, days) <==> days == NextDays(dates, d, |days|)
  {
    if FirstDays(dates, d, days) {
      FirstDaysUnique(dates, d, days, |days|);
      assert days[..|days|] == days;
    }
    NextDaysAreFirst(dates, d, |days|);
  }

  lemma LastOrAppend(a: seq<Day>, b: seq<Day>, d: Day)
    ensures LastOr(a + b, d) == LastOr(b, LastOr(a, d))
  {
    if b == [] { assert a + b == a; }
  }

  lemma Regroup(whole: seq<Day>, a: seq<Day>, b: seq<Day>, x: Day)
    requires whole == a + b
    ensures whole + [x] == a + (b + [x])
  {
  }

  /** m + n days are m days and then n more. */
  lemma {:induction false} DaysCompose(dates: seq<Day>, d: Day, m: nat, n: nat)
    ensures NextDays(dates, d, m + n) ==
      NextDays(dates, d, m) + NextDays(dates, LastOr(NextDays(dates, d, m), d), n)
  {
    var first := NextDays(dates, d, m);
    var from := LastOr(first, d);
    if n == 0 {
      assert NextDays(dates, from, n) == [];
    } else {
      DaysCompose(dates, d, m, n - 1);
      var more := NextDays(dates, from, n - 1);
      NextDaysStep(dates, d, m + n);
      NextDaysStep(dates, from, n);
      LastOrAppend(first, more, d);
      Regroup(NextDays(dates, d, m + n - 1), first, more, Next(dates, LastOr(more, from)));
    }
  }

  /** One step forward and back returns to the day exactly from a trading day, and likewise
      one step back and forward. */
  lemma StepsInvert(dates: seq<Day>, d: Day)
    ensures Previous(dates, Next(dates, d)) == d <==> Trades(dates, d)
    ensures Next(dates, Previous(dates, d)) == d <==> Trades(dates, d)
  {
    var n, p := Next(dates, d), Previous(dates, d);
    var back, forth := Previous(dates, n), Next(dates, p);
    NoneBetweenMeans(dates, d, n);
    NoneBetweenMeans(dates, back, n);
    NoneBetweenMeans(dates, p, d);
    NoneBetweenMeans(dates, p, forth);
  }

  // ------------------------------------------------------------ phases and bars

  datatype Phase = Closed | PreOpen | InSession | LunchBreak | PostClose

  /** A moment in China: its day and its time of day in microseconds. */
  datatype Moment = Moment(day: Day, time: int)

  const MINUTE := 60_000_000

  function MarketPhase(dates: seq<Day>, now: Moment): (p: Phase)
    ensures p == Closed <==> !Trades(dates, now.day)
    ensures p == PreOpen || p == Closed <==> !HasBar(dates, now, now.day)
    ensures p == InSession ==> !(11 * 60 + 30 <= now.time / MINUTE < 13 * 60) && 9 * 60 + 30 <= now.time / MINUTE < 15 * 60
    ensures p == LunchBreak ==> 11 * 60 + 30 <= now.time / MINUTE < 13 * 60
    ensures p == PostClose ==> 15 * 60 <= now.time / MINUTE
  {
    if !Trades(dates, now.day) then Closed
    else if now.time < (9 * 60 + 30) * MINUTE then PreOpen
    else if now.time < (11 * 60 + 30) * MINUTE then InSession
    else if now.time < 13 * 60 * MINUTE then LunchBreak
    else if now.time < 15 * 60 * MINUTE then InSession
    else PostClose
  }

  /** The phases by the clock: from 9:30 to 11:30 and from 13:00 to 15:00 a trading day is in session. */
  lemma PhaseByClock(dates: seq<Day>, day: Day, hour: int, minute: int, second: int, micro: int)
    requires 0 <= hour < 24 && 0 <= minute < 60 && 0 <= second < 60 && 0 <= micro < 1_000_000
    ensures MarketPhase(dates, Moment(day, ((hour * 60 + minute) * 60 + second) * 1_000_000 + micro)) ==
      if !Trades(dates, day) then Closed
      else if hour < 9 || (hour == 9 && minute < 30) then PreOpen
      else if hour < 11 || (hour == 11 && minute < 30) then InSession
      else if hour < 13 then LunchBreak
      else if hour < 15 then InSession
      else PostClose
  {
  }

  function LatestDataDate(dates: seq<Day>, end: Day, now: Moment): Day {
    var requested := if end <= now.day then end else now.day;
    if requested == now.day && MarketPhase(dates, now) == PreOpen then Previous(dates, requested)
    else if Trades(dates, requested) then requested
    else Previous(dates, requested)
  }

  /** A day can have a daily bar: it trades, it is not in the future, and today has opened. */
  predicate HasBar(dates: seq<Day>, now: Moment, d: Day) {
    Trades(dates, d) && (d < now.day || (d == now.day && now.time >= (9 * 60 + 30) * MINUTE))
  }

  /** The latest date is the last day up to the request that can have a bar. */
  lemma LatestIsLastBar(dates: seq<Day>, end: Day, now: Moment)
    ensures var d := LatestDataDate(dates, end, now);
      && d <= end && HasBar(dates, now, d)
      && forall x :: d < x <= end ==> !HasBar(dates, now, x)
  {
    var requested := if end <= now.day then end else now.day;
    var p := Previous(dates, requested);
    NoneBetweenMeans(dates, p, requested);
  }

  lemma LatestIsIdempotent(dates: seq<Day>, end: Day, now: Moment)
    ensures LatestDataDate(dates, LatestDataDate(dates, end, now), now) == LatestDataDate(dates, end, now)
  {
    LatestIsLastBar(dates, end, now);
  }

  lemma LatestIsMonotone(dates: seq<Day>, a: Day, b: Day, now: Moment)
    requires a <= b
    ensures LatestDataDate(dates, a, now) <= LatestDataDate(dates, b, now)
  {
    LatestIsLastBar(dates, a, now);
    LatestIsLastBar(dates, b, now);
    var x := LatestDataDate(dates, a, now);
    assert HasBar(dates, now, x);
  }
}
