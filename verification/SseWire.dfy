/**
 Server-sent events: what the server prints and what the browser client reads back
 from a stream cut into arbitrary chunks (HTML Living Standard, sections 9.2.5 and 9.2.6).
 */
module SseWire {

  type Event = (string, string)

  const NEWLINE := '\n'

  predicate NewlineFree(s: string) { NEWLINE !in s }

  // ------------------------------------------------------------- trimming

  /** JavaScript white space and line terminators. */
  predicate IsSpace(c: char) {
    var n := c as int;
    0x9 <= n <= 0xD || n == 0x20 || n == 0xA0 || n == 0x1680 || 0x2000 <= n <= 0x200A ||
    n == 0x2028 || n == 0x2029 || n == 0x202F || n == 0x205F || n == 0x3000 || n == 0xFEFF
  }

  function TrimLeft(s: string): string {
    if s != [] && IsSpace(s[0]) then TrimLeft(s[1..]) else s
  }

  function TrimRight(s: string): string {
    if s != [] && IsSpace(s[|s| - 1]) then TrimRight(s[..|s| - 1]) else s
  }

  function Trim(s: string): string { TrimRight(TrimLeft(s)) }

  // ------------------------------------------------------------- splitting

  predicate Gap(s: string, k: int) { 0 <= k && k + 1 < |s| && s[k] == NEWLINE && s[k + 1] == NEWLINE }

  /** The first position at or after `i` where an empty line starts, or the length. */
  function FindGap(s: string, i: nat): (g: nat)
    requires i <= |s|
    ensures i <= g <= |s|
    ensures g < |s| ==> Gap(s, g)
    ensures forall k :: i <= k < g ==> !Gap(s, k)
    decreases |s| - i
  {
    if i + 1 >= |s| then |s| else if Gap(s, i) then i else FindGap(s, i + 1)
  }

  /** `split("\n\n")` with the last piece popped off: the complete blocks and the rest. */
  function Split(s: string): (r: (seq<string>, string)) {
    var g := FindGap(s, 0);
    if g == |s| then ([], s) else
      var tail := Split(s[g + 2..]);
      ([s[..g]] + tail.0, tail.1)
  }

  function FindNewline(s: string, i: nat): (g: nat)
    requires i <= |s|
    ensures i <= g <= |s| && NEWLINE !in s[i..g]
    ensures g < |s| ==> s[g] == NEWLINE
    decreases |s| - i
  {
    if i == |s| || s[i] == NEWLINE then i else FindNewline(s, i + 1)
  }

  /** `split("\n")`, which is never empty. */
  function Lines(s: string): (r: seq<string>)
    ensures |r| >= 1
    ensures forall k :: 0 <= k < |r| ==> NewlineFree(r[k])
  {
    var g := FindNewline(s, 0);
    if g == |s| then [s] else [s[..g]] + Lines(s[g + 1..])
  }

  function Join(ls: seq<string>): string {
    if |ls| == 0 then "" else if |ls| == 1 then ls[0] else Join(ls[..|ls| - 1]) + [NEWLINE] + ls[|ls| - 1]
  }

  // --------------------------------------------------------------- parsing

  /** The last `event:` line names the event. */
  function EventName(lines: seq<string>): string {
    if lines == [] then "message" else
      var line := lines[|lines| - 1];
      if "event:" <= line then Trim(line[6..]) else EventName(lines[..|lines| - 1])
  }

  /** The `data:` lines, in order. */
  function DataLines(lines: seq<string>): seq<string> {
    if lines == [] then [] else
      var line := lines[|lines| - 1];
      DataLines(lines[..|lines| - 1]) + if "data:" <= line then [Trim(line[5..])] else []
  }

  function BlockEvent(block: string): Event {
    (EventName(Lines(block)), Join(DataLines(Lines(block))))
  }

  function Events(blocks: seq<string>): (r: seq<Event>)
    ensures |r| == |blocks| && forall k :: 0 <= k < |blocks| ==> r[k] == BlockEvent(blocks[k])
  {
    seq(|blocks|, k requires 0 <= k < |blocks| => BlockEvent(blocks[k]))
  }

  /** What the client makes of a whole text: its events, and the unfinished rest. */
  function Parsed(s: string): (seq<Event>, string) { (Events(Split(s).0), Split(s).1) }

  lemma OneMoreLine(lines: seq<string>, i: nat)
    requires i < |lines|
    ensures EventName(lines[..i + 1]) == if "event:" <= lines[i] then Trim(lines[i][6..]) else EventName(lines[..i])
    ensures DataLines(lines[..i + 1]) ==
      DataLines(lines[..i]) + if "data:" <= lines[i] then [Trim(lines[i][5..])] else []
  {
    assert lines[..i + 1][..i] == lines[..i];
  }

  method ParseBlock(block: string) returns (event: string, raw: string)
    ensures (event, raw) == BlockEvent(block)
  {
    var lines := Lines(block);
    event := "message";
    var dataLines: seq<string> := [];
    for i := 0 to |lines|
      invariant event == EventName(lines[..i])
      invariant dataLines == DataLines(lines[..i])
    {
      var line := lines[i];
      OneMoreLine(lines, i);
      if "event:" <= line { event := Trim(line[6..]); }
      if "data:" <= line { dataLines := dataLines + [Trim(line[5..])]; }
    }
    assert lines[..|lines|] == lines;
    raw := Join(dataLines);
  }

  /** `parseSSE`: the events handed to the callback, in order, and the carried-over rest. */
  method ParseSSE(chunkBuffer: string) returns (events: seq<Event>, rest: string)
    ensures (events, rest) == Parsed(chunkBuffer)
  {
    var split := Split(chunkBuffer);
    rest := split.1;
    events := [];
    for i := 0 to |split.0|
      invariant events == Events(split.0[..i])
    {
      var event, raw := ParseBlock(split.0[i]);
      events := events + [(event, raw)];
    }
    assert split.0[..|split.0|] == split.0;
  }

  /** The reading loop of `streamChat`, on decoded chunks. */
  method Feed(chunks: seq<string>) returns (events: seq<Event>, buffer: string)
    ensures (events, buffer) == Parsed(Concat(chunks))
  {
    events, buffer := [], "";
    for i := 0 to |chunks|
      invariant (events, buffer) == Parsed(Concat(chunks[..i]))
    {
      var more;
      ghost var before := Concat(chunks[..i]);
      more, buffer := ParseSSE(buffer + chunks[i]);
      events := events + more;
      assert chunks[..i + 1] == chunks[..i] + [chunks[i]];
      ParsedAppend(before, chunks[i]);
    }
    assert chunks[..|chunks|] == chunks;
  }

  function Concat(chunks: seq<string>): string {
    if chunks == [] then "" else Concat(chunks[..|chunks| - 1]) + chunks[|chunks| - 1]
  }

  /** A text cut in two anywhere, and each part further, is the same text. */
  lemma {:induction false} ConcatJoins(a: seq<string>, b: seq<string>, chunk: string)
    ensures Concat([]) == "" && Concat([chunk]) == chunk && Concat(a + b) == Concat(a) + Concat(b)
  {
    var one := [chunk];
    assert one[..|one| - 1] == [] && Concat([]) == "";
    if b == [] {
      assert a + b == a;
    } else {
      ConcatJoins(a, b[..|b| - 1], chunk);
      assert (a + b)[..|a + b| - 1] == a + b[..|b| - 1];
    }
  }

  // --------------------------------------------------- chunk independence

  lemma SameFirstGap(s: string, t: string)
    requires FindGap(s, 0) < |s|
    ensures FindGap(s + t, 0) == FindGap(s, 0)
  {
    var g := FindGap(s, 0);
    assert Gap(s + t, g);
    assert forall k :: 0 <= k < g ==> Gap(s + t, k) == Gap(s, k);
  }

  lemma SplitAtGap(s: string, t: string)
    requires FindGap(s, 0) < |s|
    ensures var g := FindGap(s, 0);
      Split(s + t) == ([s[..g]] + Split(s[g + 2..] + t).0, Split(s[g + 2..] + t).1)
  {
    var g := FindGap(s, 0);
    SameFirstGap(s, t);
    assert (s + t)[g + 2..] == s[g + 2..] + t;
    assert (s + t)[..g] == s[..g];
  }

  /** `whole` is `part` and, with its rest carried over, what `next` then gives. */
  predicate Resumes(whole: (seq<string>, string), part: (seq<string>, string), next: (seq<string>, string)) {
    whole.0 == part.0 + next.0 && whole.1 == next.1
  }

  lemma ResumesBehind(block: string, whole: (seq<string>, string), part: (seq<string>, string), next: (seq<string>, string))
    requires Resumes(whole, part, next)
    ensures Resumes(([block] + whole.0, whole.1), ([block] + part.0, part.1), next)
  {
  }

  /** Splitting a longer text resumes from the unfinished rest of a shorter one. */
  lemma {:induction false} SplitAppend(s: string, t: string)
    ensures Resumes(Split(s + t), Split(s), Split(Split(s).1 + t))
    decreases |s|
  {
    var g := FindGap(s, 0);
    if g < |s| {
      var tail := s[g + 2..];
      SplitAtGap(s, t);
      SplitAppend(tail, t);
      ResumesBehind(s[..g], Split(tail + t), Split(tail), Split(Split(tail).1 + t));
    }
  }

  /** Parsing in two steps with the carried-over rest is parsing at once. */
  lemma ParsedAppend(s: string, t: string)
    ensures Parsed(s + t).0 == Parsed(s).0 + Parsed(Parsed(s).1 + t).0
    ensures Parsed(s + t).1 == Parsed(Parsed(s).1 + t).1
  {
    SplitAppend(s, t);
    var a, b := Split(s).0, Split(Split(s).1 + t).0;
    assert Events(a + b) == Events(a) + Events(b);
  }

  // --------------------------------------------------------- the round trip

  /** `_sse_pack`. */
  function Pack(event: string, data: string): string {
    "event: " + event + "\ndata: " + data + "\n\n"
  }

  function PackAll(events: seq<Event>): string {
    if events == [] then "" else Pack(events[0].0, events[0].1) + PackAll(events[1..])
  }

  /** Names and payloads that survive: one line, no white space at either end. */
  predicate Clean(s: string) { NewlineFree(s) && Trim(s) == s }

  lemma {:induction false} TrimShrinks(s: string)
    ensures |TrimLeft(s)| <= |s| && |TrimRight(s)| <= |s|
    ensures NewlineFree(s) ==> NewlineFree(TrimLeft(s)) && NewlineFree(TrimRight(s))
    ensures TrimLeft(s) != [] ==> !IsSpace(TrimLeft(s)[0])
    ensures TrimRight(s) <= s
  {
    if s != [] {
      TrimShrinks(s[1..]);
      TrimShrinks(s[..|s| - 1]);
    }
  }

  lemma TrimIsClean(s: string)
    requires NewlineFree(s)
    ensures Clean(Trim(s)) && |Trim(s)| <= |s|
  {
    var l := TrimLeft(s);
    TrimShrinks(s);
    TrimShrinks(l);
    TrimRightTwice(l);
    assert Trim(s) != [] ==> Trim(s)[0] == l[0];
  }

  lemma {:induction false} TrimRightTwice(s: string)
    ensures TrimRight(TrimRight(s)) == TrimRight(s)
  {
    if s != [] && IsSpace(s[|s| - 1]) { TrimRightTwice(s[..|s| - 1]); }
  }

  lemma TrimAfterSpace(s: string)
    ensures Trim(" " + s) == Trim(s)
  {
    assert (" " + s)[1..] == s;
  }

  lemma OneLine(s: string)
    requires NewlineFree(s)
    ensures Lines(s) == [s] && FindGap(s, 0) == |s|
  {
  }

  lemma FirstLine(a: string, b: string)
    requires NewlineFree(a)
    ensures Lines(a + [NEWLINE] + b) == [a] + Lines(b)
  {
    var s := a + [NEWLINE] + b;
    var g := FindNewline(s, 0);
    assert s[|a|] == NEWLINE;
    assert forall k :: 0 <= k < g ==> s[k] == s[0..g][k];
    assert forall k :: 0 <= k < |a| ==> s[k] == a[k];
    assert g == |a|;
    assert s[..g] == a && s[g + 1..] == b;
  }

  function Body(event: string, data: string): string { "event: " + event + [NEWLINE] + ("data: " + data) }

  lemma BodyEvent(event: string, data: string)
    requires NewlineFree(event)
    ensures Lines(Body(event, data)) == ["event: " + event] + Lines("data: " + data)
  {
    FirstLine("event: " + event, "data: " + data);
  }

  lemma TwoLineBlock(a: string, b: string)
    ensures EventName([a, b]) ==
      if "event:" <= b then Trim(b[6..]) else if "event:" <= a then Trim(a[6..]) else "message"
    ensures DataLines([a, b]) ==
      (if "data:" <= a then [Trim(a[5..])] else []) + (if "data:" <= b then [Trim(b[5..])] else [])
  {
    var both, one := [a, b], [a];
    assert one[..|one| - 1] == [];
    assert EventName(one) == if "event:" <= a then Trim(a[6..]) else "message";
    assert DataLines(one) == if "data:" <= a then [Trim(a[5..])] else [];
    assert both[..|both| - 1] == one;
  }

  lemma Prefixes(event: string, data: string)
    ensures "event:" <= "event: " + event && !("data:" <= "event: " + event)
    ensures "data:" <= "data: " + data && !("event:" <= "data: " + data)
    ensures ("event: " + event)[6..] == " " + event && ("data: " + data)[5..] == " " + data
  {
    assert ("event: " + event)[0] == 'e';
    assert ("data: " + data)[0] == 'd';
  }

  lemma CleanBody(event: string, data: string)
    requires Clean(event) && Clean(data)
    ensures BlockEvent(Body(event, data)) == (event, data)
  {
    var a, b := "event: " + event, "data: " + data;
    BodyEvent(event, data);
    DataLineFree(data);
    OneLine(b);
    assert [a] + [b] == [a, b];
    CleanLines(event, data, a, b);
  }

  lemma DataLineFree(data: string)
    requires NewlineFree(data)
    ensures NewlineFree("data: " + data)
  {
    forall k | 0 <= k < |"data: " + data| ensures ("data: " + data)[k] != NEWLINE {
      if k >= 6 { assert ("data: " + data)[k] == data[k - 6]; }
    }
  }

  lemma CleanLines(event: string, data: string, a: string, b: string)
    requires Clean(event) && Clean(data) && a == "event: " + event && b == "data: " + data
    ensures EventName([a, b]) == event && Join(DataLines([a, b])) == data
  {
    Prefixes(event, data);
    TwoLineBlock(a, b);
    TrimAfterSpace(event);
    TrimAfterSpace(data);
    assert DataLines([a, b]) == [data];
  }

  lemma BodyHasNoGap(event: string, data: string, t: string)
    requires NewlineFree(event) && NewlineFree(data)
    ensures FindGap(Pack(event, data) + t, 0) == |Body(event, data)|
    ensures (Pack(event, data) + t)[..|Body(event, data)|] == Body(event, data)
    ensures (Pack(event, data) + t)[|Body(event, data)| + 2..] == t
  {
    var body := Body(event, data);
    var s := Pack(event, data) + t;
    assert s == body + "\n\n" + t;
    var a := |"event: " + event|;
    forall k | 0 <= k < |body| ensures s[k] == NEWLINE <==> k == a {
      if k < 7 {
        assert s[k] == "event: "[k];
      } else if k < a {
        assert s[k] == event[k - 7];
      } else if k > a {
        assert s[k] == ("data: " + data)[k - a - 1];
        if k - a - 1 >= 6 { assert s[k] == data[k - a - 7]; }
      }
    }
    assert s[a + 1] == 'd';
    assert Gap(s, |body|);
    assert forall k :: 0 <= k < |body| ==> !Gap(s, k);
  }

  lemma EventsCons(block: string, blocks: seq<string>)
    ensures Events([block] + blocks) == [BlockEvent(block)] + Events(blocks)
  {
  }

  lemma SplitFirst(s: string, g: nat)
    requires FindGap(s, 0) == g < |s|
    ensures Split(s) == ([s[..g]] + Split(s[g + 2..]).0, Split(s[g + 2..]).1)
  {
  }

  lemma FirstBlock(s: string, g: nat)
    requires FindGap(s, 0) == g < |s|
    ensures Parsed(s) == ([BlockEvent(s[..g])] + Parsed(s[g + 2..]).0, Parsed(s[g + 2..]).1)
  {
    SplitFirst(s, g);
    EventsCons(s[..g], Split(s[g + 2..]).0);
  }

  /** A packed event is read back first, whatever follows it. */
  lemma PackThen(event: string, data: string, t: string)
    requires Clean(event) && Clean(data)
    ensures Parsed(Pack(event, data) + t) == ([(event, data)] + Parsed(t).0, Parsed(t).1)
  {
    BodyHasNoGap(event, data, t);
    CleanBody(event, data);
    FirstBlock(Pack(event, data) + t, |Body(event, data)|);
  }

  /** Reading back a stream of packed events returns exactly those, in order. */
  lemma {:induction false} StreamRoundTrip(events: seq<Event>)
    requires forall k :: 0 <= k < |events| ==> Clean(events[k].0) && Clean(events[k].1)
    ensures Parsed(PackAll(events)) == (events, "")
  {
    if events != [] {
      var head, tail := events[0], events[1..];
      StreamRoundTrip(tail);
      PackThen(head.0, head.1, PackAll(tail));
      assert events == [head] + tail;
    }
  }

  /** The closing frame of a job stream is an ordinary packed event. */
  lemma DoneFrame(t: string)
    ensures Parsed("event: done\ndata: [DONE]\n\n" + t) == ([("done", "[DONE]")] + Parsed(t).0, Parsed(t).1)
  {
    assert Pack("done", "[DONE]") == "event: done\ndata: [DONE]\n\n";
    EndsVisible("done");
    EndsVisible("[DONE]");
    PackThen("done", "[DONE]", t);
  }

  lemma EndsVisible(s: string)
    requires s != [] && NewlineFree(s) && !IsSpace(s[0]) && !IsSpace(s[|s| - 1])
    ensures Clean(s)
  {
  }

  // --------------------------------------------- exactly which events survive

  lemma {:induction false} EventNameIsClean(lines: seq<string>)
    requires forall k :: 0 <= k < |lines| ==> NewlineFree(lines[k])
    ensures Clean(EventName(lines))
  {
    if lines == [] {
      EndsVisible("message");
    } else {
      var line := lines[|lines| - 1];
      if "event:" <= line {
        TrimIsClean(line[6..]);
      } else {
        EventNameIsClean(lines[..|lines| - 1]);
      }
    }
  }

  function Size(lines: seq<string>): nat {
    if lines == [] then 0 else Size(lines[..|lines| - 1]) + |lines[|lines| - 1]|
  }

  lemma {:induction false} SizeCons(line: string, lines: seq<string>)
    ensures Size([line] + lines) == |line| + Size(lines)
  {
    var all := [line] + lines;
    if lines == [] {
      assert all[..0] == [];
    } else {
      assert all[..|all| - 1] == [line] + lines[..|lines| - 1];
      SizeCons(line, lines[..|lines| - 1]);
    }
  }

  lemma {:induction false} SizeOfLines(s: string)
    ensures Size(Lines(s)) + |Lines(s)| - 1 == |s|
  {
    var g := FindNewline(s, 0);
    if g == |s| {
      var one := [s];
      assert one[..0] == [];
    } else {
      SizeOfLines(s[g + 1..]);
      SizeCons(s[..g], Lines(s[g + 1..]));
    }
  }

  /** Data spread over several lines comes back shorter than its lines were. */
  lemma {:induction false} DataIsShort(lines: seq<string>)
    requires forall k :: 0 <= k < |lines| ==> NewlineFree(lines[k])
    ensures |Join(DataLines(lines))| <= Size(lines)
    ensures |DataLines(lines)| >= 1 ==> |Join(DataLines(lines))| + 5 <= Size(lines)
  {
    if lines != [] {
      var init, line := lines[..|lines| - 1], lines[|lines| - 1];
      DataIsShort(init);
      if "data:" <= line {
        TrimIsClean(line[5..]);
        var d := DataLines(init);
        var all := d + [Trim(line[5..])];
        assert DataLines(lines) == all;
        assert all[..|all| - 1] == d;
        assert |Join(all)| == |Trim(line[5..])| + if d == [] then 0 else |Join(d)| + 1;
      } else {
        assert DataLines(lines) == DataLines(init);
      }
    }
  }

  lemma {:induction false} SizeOfSplit(s: string)
    ensures Split(s).0 == [] ==> Split(s).1 == s
    ensures |Split(s).0| == 1 && Split(s).1 == "" ==> s == Split(s).0[0] + "\n\n"
  {
    var g := FindGap(s, 0);
    if g < |s| {
      SizeOfSplit(s[g + 2..]);
      if |Split(s).0| == 1 && Split(s).1 == "" {
        assert s[g + 2..] == "";
        assert s == s[..g] + s[g..g + 2] + s[g + 2..];
        assert s[g..g + 2] == "\n\n";
      }
    }
  }

  lemma CleanSurvives(event: string, data: string)
    requires Clean(event) && Clean(data)
    ensures Parsed(Pack(event, data)) == ([(event, data)], "")
  {
    var s, one := Pack(event, data), [(event, data)];
    PackThen(event, data, "");
    assert s + "" == s;
    assert Parsed("").0 == [] && one + [] == one;
    assert Parsed(s).0 == one;
  }

  lemma SurvivorIsClean(event: string, data: string)
    requires Parsed(Pack(event, data)) == ([(event, data)], "")
    ensures Clean(event) && Clean(data)
  {
    var s := Pack(event, data);
    SizeOfSplit(s);
    var block := Split(s).0[0];
    assert Events(Split(s).0)[0] == BlockEvent(block);
    assert s == Body(event, data) + "\n\n";
    assert block == s[..|s| - 2] == Body(event, data);
    EventNameIsClean(Lines(block));
    BodyEvent(event, data);
    assert Lines(block) == ["event: " + event] + Lines("data: " + data);
    SurvivingData(event, data);
  }

  /** One packed event comes back exactly when its name and its data are both clean:
      an object printed as JSON on one line is, an event name is up to the caller. */
  lemma SurvivesIffClean(event: string, data: string)
    ensures Parsed(Pack(event, data)) == ([(event, data)], "") <==> Clean(event) && Clean(data)
  {
    if Clean(event) && Clean(data) { CleanSurvives(event, data); }
    if Parsed(Pack(event, data)) == ([(event, data)], "") { SurvivorIsClean(event, data); }
  }

  lemma SurvivingData(event: string, data: string)
    requires NewlineFree(event) && Join(DataLines(["event: " + event] + Lines("data: " + data))) == data
    ensures Clean(data)
  {
    var a, b := "event: " + event, "data: " + data;
    var lines := Lines(b);
    DataOfCons(a, lines);
    Prefixes(event, data);
    assert DataLines([a] + lines) == DataLines(lines);
    if |lines| == 1 {
      var g := FindNewline(b, 0);
      assert NewlineFree(b);
      assert data == b[6..];
      assert b[5..] == " " + data;
      OneLine(b);
      assert lines[..0] == [];
      TrimAfterSpace(data);
    } else {
      LongData(data);
      assert false;
    }
  }

  lemma {:induction false} JoinCons(x: string, ys: seq<string>)
    ensures |Join([x] + ys)| == |x| + if ys == [] then 0 else 1 + |Join(ys)|
  {
    var all := [x] + ys;
    if ys != [] {
      assert all[..|all| - 1] == [x] + ys[..|ys| - 1];
      JoinCons(x, ys[..|ys| - 1]);
    }
  }

  /** Data with a line break comes back shorter than it was. */
  lemma LongData(data: string)
    requires |Lines("data: " + data)| > 1
    ensures |Join(DataLines(Lines("data: " + data)))| < |data|
  {
    var b := "data: " + data;
    var g := FindNewline(b, 0);
    assert forall k :: 0 <= k < 6 ==> b[k] == "data: "[k];
    assert g >= 6;
    var first, rest := b[..g], Lines(b[g + 1..]);
    assert Lines(b) == [first] + rest;
    assert first == "data: " + data[..g - 6];
    assert first[5..] == " " + data[..g - 6];
    TrimAfterSpace(data[..g - 6]);
    OneLineOf(b, g);
    assert data[..g - 6] == b[6..g];
    TrimIsClean(data[..g - 6]);
    DataOfCons(first, rest);
    JoinCons(Trim(first[5..]), DataLines(rest));
    DataIsShort(rest);
    SizeOfLines(b[g + 1..]);
  }

  lemma OneLineOf(b: string, g: nat)
    requires 6 <= g <= |b| && NEWLINE !in b[0..g]
    ensures NewlineFree(b[6..g])
  {
    forall k | 0 <= k < g - 6 ensures b[6..g][k] != NEWLINE {
      assert b[6..g][k] == b[0..g][k + 6];
    }
  }

  lemma {:induction false} DataOfCons(line: string, lines: seq<string>)
    ensures DataLines([line] + lines) == (if "data:" <= line then [Trim(line[5..])] else []) + DataLines(lines)
  {
    var all := [line] + lines;
    if lines == [] {
      assert all[..0] == [];
    } else {
      assert all[..|all| - 1] == [line] + lines[..|lines| - 1];
      DataOfCons(line, lines[..|lines| - 1]);
    }
  }

  // ------------------------------------------------- what any block is read as

  /** `x` is `s` with nothing but white space cut off at its ends. */
  ghost predicate TrimmedTo(s: string, x: string) {
    exists cut: nat :: TrimmedAt(s, x, cut)
  }

  ghost predicate TrimmedAt(s: string, x: string, cut: nat) {
    && cut + |x| <= |s| && x == s[cut..cut + |x|]
    && (forall i :: 0 <= i < cut ==> IsSpace(s[i])) && (forall i :: cut + |x| <= i < |s| ==> IsSpace(s[i]))
    && (x != "" ==> !IsSpace(x[0]) && !IsSpace(x[|x| - 1]))
  }

  lemma {:induction false} TrimLeftCuts(s: string) returns (cut: nat)
    ensures cut <= |s| && TrimLeft(s) == s[cut..] && forall i :: 0 <= i < cut ==> IsSpace(s[i])
    ensures cut < |s| ==> !IsSpace(s[cut])
  {
    if s != "" && IsSpace(s[0]) {
      var rest := TrimLeftCuts(s[1..]);
      cut := rest + 1;
      assert s[1..][rest..] == s[cut..];
      assert forall i :: 1 <= i < cut ==> s[i] == s[1..][i - 1];
    } else {
      cut := 0;
    }
  }

  lemma {:induction false} TrimRightCuts(s: string)
    ensures TrimRight(s) <= s && forall i :: |TrimRight(s)| <= i < |s| ==> IsSpace(s[i])
    ensures TrimRight(s) != "" ==> !IsSpace(s[|TrimRight(s)| - 1])
  {
    if s != "" && IsSpace(s[|s| - 1]) {
      TrimRightCuts(s[..|s| - 1]);
      assert forall i :: 0 <= i < |s| - 1 ==> s[i] == s[..|s| - 1][i];
    }
  }

  lemma TrimIsTrimmed(s: string)
    ensures TrimmedTo(s, Trim(s))
  {
    var x := Trim(s);
    var cut := TrimLeftCuts(s);
    var left := s[cut..];
    TrimRightCuts(left);
    forall i | cut + |x| <= i < |s| ensures IsSpace(s[i]) { assert s[i] == left[i - cut]; }
    assert x == left[..|x|] == s[cut..cut + |x|];
    assert TrimmedAt(s, x, cut);
  }

  /** Splitting into lines and joining them are inverse. */
  lemma {:induction false} JoinOfLines(s: string)
    ensures Join(Lines(s)) == s
  {
    var g := FindNewline(s, 0);
    if g < |s| {
      JoinOfLines(s[g + 1..]);
      JoinFirst(s[..g], Lines(s[g + 1..]));
      assert s == s[..g] + [NEWLINE] + s[g + 1..];
    }
  }

  lemma {:induction false} JoinFirst(x: string, ys: seq<string>)
    requires ys != []
    ensures Join([x] + ys) == x + [NEWLINE] + Join(ys)
  {
    var all := [x] + ys;
    assert all[|all| - 1] == ys[|ys| - 1];
    if |ys| == 1 {
      assert all[..1] == [x];
      assert Join(all) == Join([x]) + [NEWLINE] + ys[0];
    } else {
      assert all[..|all| - 1] == [x] + ys[..|ys| - 1];
      JoinFirst(x, ys[..|ys| - 1]);
    }
  }

  /** `values` are the trimmed rests behind `prefix` of exactly those lines that begin with it, in
      order; `at` says which. */
  ghost predicate ValuesOf(lines: seq<string>, prefix: string, at: seq<nat>, values: seq<string>) {
    && |at| == |values|
    && (forall a, b :: 0 <= a < b < |at| ==> at[a] < at[b])
    && (forall i: nat :: i in at <==> i < |lines| && prefix <= lines[i])
    && forall a :: 0 <= a < |at| ==> at[a] < |lines| && prefix <= lines[at[a]] && TrimmedTo(lines[at[a]][|prefix|..], values[a])
  }

  lemma ValuesMore(lines: seq<string>, line: string, prefix: string, at: seq<nat>, values: seq<string>, value: string)
    requires ValuesOf(lines, prefix, at, values)
    ensures !(prefix <= line) ==> ValuesOf(lines + [line], prefix, at, values)
    ensures prefix <= line && TrimmedTo(line[|prefix|..], value) ==>
      ValuesOf(lines + [line], prefix, at + [|lines|], values + [value])
  {
    var more := lines + [line];
    assert forall i :: 0 <= i < |lines| ==> more[i] == lines[i];
    assert forall a :: 0 <= a < |at| ==> at[a] in at;
    if prefix <= line {
      var next := at + [|lines|];
      forall i: nat ensures i in next <==> i < |more| && prefix <= more[i] {
        if i < |lines| { assert i in at <==> prefix <= lines[i]; }
      }
    }
  }

  lemma {:induction false} DataAreValues(lines: seq<string>) returns (at: seq<nat>)
    ensures ValuesOf(lines, "data:", at, DataLines(lines))
  {
    if lines == [] {
      at := [];
    } else {
      var init, line := lines[..|lines| - 1], lines[|lines| - 1];
      assert lines == init + [line];
      at := DataAreValues(init);
      ValuesMore(init, line, "data:", at, DataLines(init), Trim(if "data:" <= line then line[5..] else ""));
      if "data:" <= line {
        TrimIsTrimmed(line[5..]);
        at := at + [|init|];
      }
    }
  }

  /** The name is what the last line with the prefix says; "message" when there is none. */
  ghost predicate NamedBy(lines: seq<string>, name: string) {
    if forall i :: 0 <= i < |lines| ==> !("event:" <= lines[i]) then name == "message"
    else exists i: nat :: NamedAt(lines, name, i)
  }

  ghost predicate NamedAt(lines: seq<string>, name: string, i: nat) {
    && i < |lines| && "event:" <= lines[i] && TrimmedTo(lines[i][6..], name)
    && forall j :: i < j < |lines| ==> !("event:" <= lines[j])
  }

  lemma NamedByLast(lines: seq<string>, line: string, name: string)
    requires "event:" <= line && TrimmedTo(line[6..], name)
    ensures NamedBy(lines + [line], name)
  {
    var more := lines + [line];
    assert more[|lines|] == line;
    assert NamedAt(more, name, |lines|);
  }

  lemma NamedEarlier(lines: seq<string>, line: string, name: string)
    requires !("event:" <= line) && NamedBy(lines, name)
    ensures NamedBy(lines + [line], name)
  {
    var more := lines + [line];
    assert more[|lines|] == line && forall i :: 0 <= i < |lines| ==> more[i] == lines[i];
    if i: nat :| NamedAt(lines, name, i) { assert NamedAt(more, name, i); }
  }

  lemma {:induction false} NameIsLast(lines: seq<string>)
    ensures NamedBy(lines, EventName(lines))
  {
    if lines != [] {
      var init, line := lines[..|lines| - 1], lines[|lines| - 1];
      assert lines == init + [line];
      if "event:" <= line {
        TrimIsTrimmed(line[6..]);
        NamedByLast(init, line, EventName(lines));
      } else {
        NameIsLast(init);
        NamedEarlier(init, line, EventName(init));
      }
    }
  }

  /** Any block is read as its last name and as its data lines joined by line breaks, where the
      lines are the pieces between line breaks and the white space at both ends of a value goes. */
  lemma BlockMeans(block: string) returns (lines: seq<string>, at: seq<nat>, values: seq<string>)
    ensures Join(lines) == block && forall k :: 0 <= k < |lines| ==> NewlineFree(lines[k])
    ensures NamedBy(lines, BlockEvent(block).0)
    ensures ValuesOf(lines, "data:", at, values) && BlockEvent(block).1 == Join(values)
  {
    lines, values := Lines(block), DataLines(Lines(block));
    JoinOfLines(block);
    NameIsLast(lines);
    at := DataAreValues(lines);
  }

  /** Joining puts one line break between two pieces. */
  lemma {:induction false} JoinBreaks(pieces: seq<string>, k: nat)
    requires k < |pieces|
    ensures Join(pieces[..k + 1]) <= Join(pieces)
    ensures k > 0 ==> Join(pieces[..k + 1]) == Join(pieces[..k]) + "\n" + pieces[k]
    ensures Join(pieces[..1]) == pieces[0]
  {
    if k < |pieces| - 1 {
      var init := pieces[..|pieces| - 1];
      JoinBreaks(init, k);
      assert init[..k + 1] == pieces[..k + 1] && init[..k] == pieces[..k] && init[..1] == pieces[..1];
    } else {
      assert pieces[..k + 1] == pieces;
      if k > 0 { JoinBreaks(pieces[..k], k - 1); assert pieces[..k][..1] == pieces[..1]; }
    }
  }
}
