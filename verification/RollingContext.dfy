/**
 Autoregressive token generation over a fixed-size context window.

 A token position is one column of the batch: every operation of the loop acts on
 all rows of a column alike, so `P` is a column of first-level tokens, `Q` a column
 of second-level tokens, `S` a column of time stamps and `D` a decoded column.
 The network and the sampler are arbitrary functions of what the loop passes them
 and of the step number (which stands for the state of the random generator).
 */
module RollingContext {
  import opened Helpers

  datatype Sampler<!P, !Q, !S> = Sampler(
    first: (seq<P>, seq<Q>, seq<S>, nat) -> P,
    second: (seq<P>, seq<Q>, seq<S>, P, nat) -> Q)

  /** Python's `s[lo:hi]` for non-negative bounds, which clips to the sequence. */
  function Slice<T>(s: seq<T>, lo: nat, hi: nat): seq<T> {
    if lo <= hi <= |s| then s[lo..hi] else if lo <= |s| < hi then s[lo..] else []
  }

  /** Python's `s[-n:]`, which is the whole of `s` when `n` is zero. */
  function TailSlice<T>(s: seq<T>, n: nat): seq<T> {
    if n == 0 || |s| <= n then s else s[|s| - n..]
  }

  function Last<T>(s: seq<T>, n: nat): seq<T> { s[|s| - Min(n, |s|)..] }

  // -------------------------------------------------- what the tokens have to be

  /** `w` is the part of `s` from position `lo` up to `hi`, as far as `s` reaches. */
  ghost predicate Window<T>(w: seq<T>, s: seq<T>, lo: nat, hi: nat) {
    && |w| == (if hi <= |s| && lo <= hi then hi - lo else if lo <= |s| < hi then |s| - lo else 0)
    && forall k :: 0 <= k < |w| ==> w[k] == s[lo + k]
  }

  /** The windows in which token `n` is made: at most `context` positions, all before it. */
  ghost predicate Windows<P, Q, S>(
      wp: seq<P>, wq: seq<Q>, ws: seq<S>, p: seq<P>, q: seq<Q>, stamps: seq<S>, context: nat, n: nat)
  {
    var lo := if n <= context then 0 else n - context;
    Window(wp, p, lo, n) && Window(wq, q, lo, n) && Window(ws, stamps, lo, n)
  }

  /** Token `n` of `p` and `q`, made in step `n - history`, is what the model gives for the windows before it. */
  ghost predicate MadeFromWindows<P(!new), Q(!new), S(!new)>(
      m: Sampler<P, Q, S>, p: seq<P>, q: seq<Q>, stamps: seq<S>, context: nat, history: nat, n: nat)
    requires history <= n < |p| == |q|
  {
    forall wp, wq, ws :: Windows(wp, wq, ws, p, q, stamps, context, n) ==>
      p[n] == m.first(wp, wq, ws, n - history) && q[n] == m.second(wp, wq, ws, p[n], n - history)
  }

  /** Every token behind the history is. */
  ghost predicate Autoregressive<P(!new), Q(!new), S(!new)>(
      m: Sampler<P, Q, S>, p: seq<P>, q: seq<Q>, stamps: seq<S>, context: nat, history: nat)
  {
    |p| == |q| && forall n :: history <= n < |p| ==> MadeFromWindows(m, p, q, stamps, context, history, n)
  }

  // ---------------------------------------------------------------- naive loop

  /** One token pair, computed from the last `context` tokens of the whole sequence
      and the stamps of the same positions. */
  function NextPair<P, Q, S>(m: Sampler<P, Q, S>, p: seq<P>, q: seq<Q>, stamps: seq<S>, context: nat, i: nat): (P, Q)
    requires |p| == |q|
  {
    var t := Slice(stamps, |p| - Min(context, |p|), |p|);
    var a := m.first(Last(p, context), Last(q, context), t, i);
    (a, m.second(Last(p, context), Last(q, context), t, a, i))
  }

  function Extend<P, Q, S>(m: Sampler<P, Q, S>, r: (seq<P>, seq<Q>), stamps: seq<S>, context: nat, i: nat): (seq<P>, seq<Q>)
    requires |r.0| == |r.1|
  {
    var next := NextPair(m, r.0, r.1, stamps, context, i);
    (r.0 + [next.0], r.1 + [next.1])
  }

  /** The history followed by `n` generated tokens; nothing is ever overwritten. */
  function Naive<P, Q, S>(m: Sampler<P, Q, S>, p: seq<P>, q: seq<Q>, stamps: seq<S>, context: nat, n: nat)
    : (r: (seq<P>, seq<Q>))
    requires |p| == |q|
    ensures |r.0| == |r.1| == |p| + n
    ensures p <= r.0 && q <= r.1
  {
    if n == 0 then (p, q) else Extend(m, Naive(m, p, q, stamps, context, n - 1), stamps, context, n - 1)
  }

  lemma SliceIsWindow<T>(w: seq<T>, s: seq<T>, lo: nat, hi: nat)
    requires Window(w, s, lo, hi)
    ensures w == Slice(s, lo, hi)
  {
  }

  lemma LastIsWindow<T>(w: seq<T>, s: seq<T>, before: seq<T>, context: nat)
    requires before <= s && Window(w, s, if |before| <= context then 0 else |before| - context, |before|)
    ensures w == Last(before, context)
  {
  }

  /** The windows of the naive loop are the ones by position. */
  lemma NextFromWindows<P(!new), Q(!new), S(!new)>(
      m: Sampler<P, Q, S>, p: seq<P>, q: seq<Q>, stamps: seq<S>, context: nat, history: nat, more: seq<P>, also: seq<Q>)
    requires history <= |p| == |q| && p < more && q < also && |more| == |also|
    requires (more[|p|], also[|p|]) == NextPair(m, p, q, stamps, context, |p| - history)
    ensures MadeFromWindows(m, more, also, stamps, context, history, |p|)
  {
    var lo, i := if |p| <= context then 0 else |p| - context, |p| - history;
    forall wp, wq, ws | Windows(wp, wq, ws, more, also, stamps, context, |p|)
      ensures more[|p|] == m.first(wp, wq, ws, i) && also[|p|] == m.second(wp, wq, ws, more[|p|], i)
    {
      LastIsWindow(wp, more, p, context);
      LastIsWindow(wq, also, q, context);
      SliceIsWindow(ws, stamps, lo, |p|);
    }
  }

  lemma WindowOfLonger<T>(w: seq<T>, s: seq<T>, more: seq<T>, lo: nat, hi: nat)
    requires s <= more && hi <= |s|
    ensures Window(w, more, lo, hi) <==> Window(w, s, lo, hi)
  {
  }

  lemma MadeInLonger<P(!new), Q(!new), S(!new)>(
      m: Sampler<P, Q, S>, p: seq<P>, q: seq<Q>, stamps: seq<S>, context: nat, history: nat, n: nat, more: seq<P>, also: seq<Q>)
    requires history <= n < |p| == |q| && p <= more && q <= also && |more| == |also|
    requires MadeFromWindows(m, p, q, stamps, context, history, n)
    ensures MadeFromWindows(m, more, also, stamps, context, history, n)
  {
    var lo, i := if n <= context then 0 else n - context, n - history;
    forall wp, wq, ws | Windows(wp, wq, ws, more, also, stamps, context, n)
      ensures more[n] == m.first(wp, wq, ws, i) && also[n] == m.second(wp, wq, ws, more[n], i)
    {
      WindowOfLonger(wp, p, more, lo, n);
      WindowOfLonger(wq, q, also, lo, n);
      assert Windows(wp, wq, ws, p, q, stamps, context, n);
    }
  }

  /** The naive loop makes every token from the windows before it. */
  lemma {:induction false} NaiveIsAutoregressive<P(!new), Q(!new), S(!new)>(
      m: Sampler<P, Q, S>, p: seq<P>, q: seq<Q>, stamps: seq<S>, context: nat, n: nat)
    requires |p| == |q|
    ensures var r := Naive(m, p, q, stamps, context, n);
      |r.0| == |p| + n && p <= r.0 && q <= r.1 && Autoregressive(m, r.0, r.1, stamps, context, |p|)
  {
    if n > 0 {
      NaiveIsAutoregressive(m, p, q, stamps, context, n - 1);
      var r, more := Naive(m, p, q, stamps, context, n - 1), Naive(m, p, q, stamps, context, n);
      NextFromWindows(m, r.0, r.1, stamps, context, |p|, more.0, more.1);
      forall l | |p| <= l < |r.0| ensures MadeFromWindows(m, more.0, more.1, stamps, context, |p|, l) {
        MadeInLonger(m, r.0, r.1, stamps, context, |p|, l, more.0, more.1);
      }
    }
  }

  // ------------------------------------------------------------- in-place loop

  /** `buf.copy_(torch.roll(buf, -1))`: the first token wraps to the end. */
  method RollLeft<T>(buf: array<T>)
    requires buf.Length > 0
    modifies buf
    ensures buf[..] == old(buf[1..]) + [old(buf[0])]
  {
    var head := buf[0];
    forall k | 0 <= k < buf.Length - 1 {
      buf[k] := buf[k + 1];
    }
    buf[buf.Length - 1] := head;
  }

  /** Fill or roll: the buffer write at the end of one iteration. */
  method PushToken<T>(buf: array<T>, currentLen: nat, token: T, ghost history: seq<T>)
    requires buf.Length > 0 && |history| == currentLen
    requires Last(history, buf.Length) <= buf[..]
    modifies buf
    ensures Last(history + [token], buf.Length) <= buf[..]
  {
    if currentLen < buf.Length {
      assert Last(history, buf.Length) == history;
      buf[currentLen] := token;
      assert buf[..currentLen + 1] == history + [token];
    } else {
      assert Last(history, buf.Length) == buf[..];
      RollLeft(buf);
      buf[buf.Length - 1] := token;
      assert buf[..] == old(buf[1..]) + [token];
      assert Last(history + [token], buf.Length) == Last(history, buf.Length)[1..] + [token];
    }
  }

  method NewColumns<T>(n: nat, zero: T) returns (columns: array<T>)
    ensures fresh(columns) && columns.Length == n
  {
    columns := new T[n](_ => zero);
  }

  /** The initial fill with the last tokens of the history. */
  method FillBuffer<T>(buf: array<T>, x: seq<T>)
    modifies buf
    ensures Last(x, buf.Length) <= buf[..]
  {
    var bufferLen := Min(|x|, buf.Length);
    var startIdx := if |x| > buf.Length then |x| - buf.Length else 0;
    forall k | 0 <= k < bufferLen {
      buf[k] := x[startIdx + k];
    }
  }

  /** The buffer as passed to the model: a prefix while filling, all of it once full. */
  method ReadWindow<T>(buf: array<T>, currentLen: nat, ghost history: seq<T>) returns (window: seq<T>)
    requires |history| == currentLen && Last(history, buf.Length) <= buf[..]
    ensures window == Last(history, buf.Length)
  {
    var windowLen := Min(currentLen, buf.Length);
    if currentLen <= buf.Length {
      window := buf[..windowLen];
    } else {
      window := buf[..];
    }
  }

  /** After `i` tokens: what was generated continues `x`, and the buffer starts with its window. */
  ghost predicate Tracks<T>(x: seq<T>, generated: seq<T>, i: nat, buf: seq<T>, history: seq<T>) {
    i <= |generated| && history == x + generated[..i] && Last(history, |buf|) <= buf
  }

  /** The buffers of one level: room for the generated tokens, and the filled context. */
  method Prepare<T>(x: seq<T>, predLen: nat, maxContext: nat, zero: T) returns (generated: array<T>, buf: array<T>)
    ensures fresh(generated) && fresh(buf) && generated != buf
    ensures generated.Length == predLen && buf.Length == maxContext
    ensures Tracks(x, generated[..], 0, buf[..], x)
  {
    generated := NewColumns(predLen, zero);
    buf := NewColumns(maxContext, zero);
    FillBuffer(buf, x);
    assert x == x + generated[..][..0];
  }

  lemma TracksAll<T>(x: seq<T>, generated: seq<T>, buf: seq<T>, history: seq<T>)
    requires Tracks(x, generated, |generated|, buf, history)
    ensures history == x + generated
  {
    assert generated[..|generated|] == generated;
  }

  /** The two writes of one token at the end of an iteration. */
  method Commit<T>(generated: array<T>, buf: array<T>, i: nat, currentLen: nat, token: T, ghost x: seq<T>, ghost history: seq<T>)
    requires generated != buf && i < generated.Length && currentLen == |x| + i && buf.Length > 0
    requires Tracks(x, generated[..], i, buf[..], history)
    modifies generated, buf
    ensures Tracks(x, generated[..], i + 1, buf[..], history + [token])
  {
    assert generated[..][..i] == generated[..i];
    generated[i] := token;
    assert generated[..][..i + 1] == old(generated[..i]) + [token];
    PushToken(buf, currentLen, token, history);
  }

  /** What was decoded is the last `context` positions of all tokens. */
  ghost predicate Decodes<P(!new), Q(!new), D>(
      decode: (seq<P>, seq<Q>) -> seq<D>, decoded: seq<D>, p: seq<P>, q: seq<Q>, context: nat)
  {
    forall wp, wq :: DecoderWindows(wp, wq, p, q, context) ==> decoded == decode(wp, wq)
  }

  ghost predicate DecoderWindows<P, Q>(wp: seq<P>, wq: seq<Q>, p: seq<P>, q: seq<Q>, context: nat) {
    var lo := if |p| <= context then 0 else |p| - context;
    Window(wp, p, lo, |p|) && Window(wq, q, lo, |p|)
  }

  lemma LastIsDecoded<P(!new), Q(!new), D>(
      decode: (seq<P>, seq<Q>) -> seq<D>, decoded: seq<D>, p: seq<P>, q: seq<Q>, context: nat)
    requires |p| == |q| && decoded == decode(Last(p, context), Last(q, context))
    ensures Decodes(decode, decoded, p, q, context)
  {
    forall wp, wq | DecoderWindows(wp, wq, p, q, context) ensures decoded == decode(wp, wq) {
      LastIsWindow(wp, p, p, context);
      LastIsWindow(wq, q, q, context);
    }
  }

  /** The generation loop: pre-allocated buffers, filled first and then rolled in place. */
  method AutoRegressiveInference<P(!new), Q(!new), S(!new), D>(
      m: Sampler<P, Q, S>, decode: (seq<P>, seq<Q>) -> seq<D>, xPre: seq<P>, xPost: seq<Q>,
      xStamp: seq<S>, yStamp: seq<S>, maxContext: nat, predLen: nat, zeroPre: P, zeroPost: Q)
    returns (generatedPre: seq<P>, generatedPost: seq<Q>, decoded: seq<D>)
    requires |xPre| == |xPost| && maxContext >= 1
    ensures (xPre + generatedPre, xPost + generatedPost)
         == Naive(m, xPre, xPost, xStamp + yStamp, maxContext, predLen)
    ensures |generatedPre| == |generatedPost| == predLen
    ensures Autoregressive(m, xPre + generatedPre, xPost + generatedPost, xStamp + yStamp, maxContext, |xPre|)
    ensures decoded == decode(Last(xPre + generatedPre, maxContext), Last(xPost + generatedPost, maxContext))
    ensures Decodes(decode, decoded, xPre + generatedPre, xPost + generatedPost, maxContext)
  {
    var fullStamp := xStamp + yStamp;
    generatedPre, generatedPost := GenerateTokens(m, xPre, xPost, fullStamp, maxContext, predLen, zeroPre, zeroPost);
    var total := |xPre| + predLen;
    var start := if total > maxContext then total - maxContext else 0;
    assert Slice(xPre + generatedPre, start, total) == Last(xPre + generatedPre, maxContext);
    assert Slice(xPost + generatedPost, start, total) == Last(xPost + generatedPost, maxContext);
    decoded := decode(Slice(xPre + generatedPre, start, total), Slice(xPost + generatedPost, start, total));
    LastIsDecoded(decode, decoded, xPre + generatedPre, xPost + generatedPost, maxContext);
  }

  method SamplePair<P, Q, S>(
      m: Sampler<P, Q, S>, preBuffer: array<P>, postBuffer: array<Q>, fullStamp: seq<S>,
      currentLen: nat, i: nat, ghost p: seq<P>, ghost q: seq<Q>)
    returns (samplePre: P, samplePost: Q)
    requires preBuffer.Length == postBuffer.Length && |p| == |q| == currentLen
    requires Last(p, preBuffer.Length) <= preBuffer[..] && Last(q, postBuffer.Length) <= postBuffer[..]
    ensures (samplePre, samplePost) == NextPair(m, p, q, fullStamp, preBuffer.Length, i)
  {
    var maxContext := preBuffer.Length;
    var preWindow := ReadWindow(preBuffer, currentLen, p);
    var postWindow := ReadWindow(postBuffer, currentLen, q);
    var contextStart := if currentLen > maxContext then currentLen - maxContext else 0;
    var stamp := Slice(fullStamp, contextStart, currentLen);
    samplePre := m.first(preWindow, postWindow, stamp, i);
    samplePost := m.second(preWindow, postWindow, stamp, samplePre, i);
  }

  lemma NaiveGoesOn<P, Q, S>(
      m: Sampler<P, Q, S>, xPre: seq<P>, xPost: seq<Q>, fullStamp: seq<S>, maxContext: nat, i: nat,
      p: seq<P>, q: seq<Q>, a: P, b: Q)
    requires |xPre| == |xPost| && |p| == |q|
    requires (p, q) == Naive(m, xPre, xPost, fullStamp, maxContext, i)
    requires (a, b) == NextPair(m, p, q, fullStamp, maxContext, i)
    ensures (p + [a], q + [b]) == Naive(m, xPre, xPost, fullStamp, maxContext, i + 1)
  {
  }

  method GenerateTokens<P(!new), Q(!new), S(!new)>(
      m: Sampler<P, Q, S>, xPre: seq<P>, xPost: seq<Q>, fullStamp: seq<S>,
      maxContext: nat, predLen: nat, zeroPre: P, zeroPost: Q)
    returns (generatedPre: seq<P>, generatedPost: seq<Q>)
    requires |xPre| == |xPost| && maxContext >= 1
    ensures |generatedPre| == |generatedPost| == predLen
    ensures (xPre + generatedPre, xPost + generatedPost) == Naive(m, xPre, xPost, fullStamp, maxContext, predLen)
    ensures Autoregressive(m, xPre + generatedPre, xPost + generatedPost, fullStamp, maxContext, |xPre|)
  {
    var genPre, preBuffer := Prepare(xPre, predLen, maxContext, zeroPre);
    var genPost, postBuffer := Prepare(xPost, predLen, maxContext, zeroPost);
    ghost var p, q := xPre, xPost;
    for i := 0 to predLen
      invariant (p, q) == Naive(m, xPre, xPost, fullStamp, maxContext, i)
      invariant Tracks(xPre, genPre[..], i, preBuffer[..], p) && Tracks(xPost, genPost[..], i, postBuffer[..], q)
    {
      var currentLen := |xPre| + i;
      var samplePre, samplePost := SamplePair(m, preBuffer, postBuffer, fullStamp, currentLen, i, p, q);
      Commit(genPre, preBuffer, i, currentLen, samplePre, xPre, p);
      Commit(genPost, postBuffer, i, currentLen, samplePost, xPost, q);
      NaiveGoesOn(m, xPre, xPost, fullStamp, maxContext, i, p, q, samplePre, samplePost);
      p, q := p + [samplePre], q + [samplePost];
    }
    generatedPre, generatedPost := genPre[..], genPost[..];
    TracksAll(xPre, generatedPre, preBuffer[..], p);
    TracksAll(xPost, generatedPost, postBuffer[..], q);
    NaiveIsAutoregressive(m, xPre, xPost, fullStamp, maxContext, predLen);
  }

  // ------------------------------------------------------------------ theorems

  /** The window of tokens and the window of stamps cover the same positions
      exactly as long as the stamps reach that far. */
  lemma WindowsAligned<P, S>(p: seq<P>, stamps: seq<S>, context: nat)
    requires context >= 1
    ensures |Slice(stamps, |p| - Min(context, |p|), |p|)| == |Last(p, context)| <==> |p| <= |stamps|
    ensures |p| <= |stamps| ==>
      var lo := |p| - Min(context, |p|);
      forall k :: 0 <= k < |Last(p, context)| ==>
        Last(p, context)[k] == p[lo + k] && Slice(stamps, lo, |p|)[k] == stamps[lo + k]
  {
    var lo := |p| - Min(context, |p|);
    if |stamps| < |p| {
      assert |Slice(stamps, lo, |p|)| <= (if lo <= |stamps| then |stamps| - lo else 0);
    }
  }

  /** The prediction slice of a decoded window `z` lines up with exactly the last
      min(predLen, context) generated tokens, unless nothing was asked for: `[-0:]`
      then hands back the decoded history. */
  lemma PredictionSlice<T, D>(history: seq<T>, generated: seq<T>, context: nat, z: seq<D>)
    requires context >= 1 && |z| == |Last(history + generated, context)|
    ensures var w := Last(history + generated, context);
      var n := |TailSlice(z, |generated|)|;
      w[|w| - n..] == Last(generated, context) <==> |generated| > 0 || |history| == 0
    ensures |generated| > 0 ==> TailSlice(z, |generated|) == z[|z| - Min(|generated|, context)..]
  {
    var all := history + generated;
    var w := Last(all, context);
    if |generated| == 0 {
      assert all == history;
    } else if context <= |generated| {
      assert w == Last(generated, context);
    } else {
      assert w[|w| - |generated|..] == generated == Last(generated, context);
    }
  }

  lemma SliceOfCut<S>(stamps: seq<S>, cut: nat, lo: nat, hi: nat)
    requires cut <= lo <= hi <= |stamps|
    ensures Slice(stamps[cut..], lo - cut, hi - cut) == Slice(stamps, lo, hi)
  {
    assert stamps[cut..][lo - cut..hi - cut] == stamps[lo..hi];
  }

  lemma NextPairOfCut<P, Q, S>(m: Sampler<P, Q, S>, p: seq<P>, q: seq<Q>, stamps: seq<S>, context: nat, cut: nat, i: nat)
    requires |p| == |q| && cut + context <= |p| <= |stamps|
    ensures NextPair(m, p[cut..], q[cut..], stamps[cut..], context, i) == NextPair(m, p, q, stamps, context, i)
  {
    SliceOfCut(stamps, cut, |p| - context, |p|);
    assert Last(p[cut..], context) == Last(p, context);
    assert Last(q[cut..], context) == Last(q, context);
  }

  /** `r` at both levels without the first `cut` positions. */
  ghost predicate IsCut<P, Q>(rest: (seq<P>, seq<Q>), r: (seq<P>, seq<Q>), cut: nat)
    requires cut <= |r.0| == |r.1|
  {
    rest.0 == r.0[cut..] && rest.1 == r.1[cut..]
  }

  lemma CutThenOne<T>(s: seq<T>, cut: nat, x: T)
    requires cut <= |s|
    ensures (s + [x])[cut..] == s[cut..] + [x]
  {
  }

  lemma ExtendOfCut<P, Q, S>(
      m: Sampler<P, Q, S>, r: (seq<P>, seq<Q>), r': (seq<P>, seq<Q>), stamps: seq<S>, later: seq<S>, context: nat, cut: nat, i: nat)
    requires |r.0| == |r.1| && cut + context <= |r.0| <= |stamps| && IsCut(r', r, cut) && later == stamps[cut..]
    ensures IsCut(Extend(m, r', later, context, i), Extend(m, r, stamps, context, i), cut)
  {
    var next := NextPair(m, r.0, r.1, stamps, context, i);
    NextPairOfCut(m, r.0, r.1, stamps, context, cut, i);
    CutThenOne(r.0, cut, next.0);
    CutThenOne(r.1, cut, next.1);
  }

  lemma {:induction false} NaiveOfCut<P, Q, S>(
      m: Sampler<P, Q, S>, p: seq<P>, q: seq<Q>, stamps: seq<S>, p': seq<P>, q': seq<Q>, later: seq<S>,
      context: nat, cut: nat, n: nat)
    requires |p| == |q| && |p'| == |q'| && cut + context <= |p| && |p| + n <= |stamps|
    requires IsCut((p', q'), (p, q), cut) && later == stamps[cut..]
    ensures IsCut(Naive(m, p', q', later, context, n), Naive(m, p, q, stamps, context, n), cut)
  {
    if n > 0 {
      NaiveOfCut(m, p, q, stamps, p', q', later, context, cut, n - 1);
      ExtendOfCut(m, Naive(m, p, q, stamps, context, n - 1), Naive(m, p', q', later, context, n - 1),
                  stamps, later, context, cut, n - 1);
    }
  }

  /** A history longer than the context can be cut to the context, with its stamps,
      and every later token stays the same. */
  lemma OnlyTheWindowMatters<P, Q, S>(
      m: Sampler<P, Q, S>, p: seq<P>, q: seq<Q>, stamps: seq<S>, context: nat, cut: nat, n: nat)
    requires |p| == |q| && cut + context <= |p| && |p| + n <= |stamps|
    ensures IsCut(Naive(m, p[cut..], q[cut..], stamps[cut..], context, n), Naive(m, p, q, stamps, context, n), cut)
  {
    NaiveOfCut(m, p, q, stamps, p[cut..], q[cut..], stamps[cut..], context, cut, n);
  }
}
