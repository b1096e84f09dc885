/**
 The bit-index codecs of the tokenizer.

 A code is a vector of reals; a quantised code holds one positive scale with a sign in
 every place. Two codecs number the places in opposite directions: `BitsToIndices` and
 `IndicesToBits` put the first place lowest, `CodesToIndexes` and `IndexesToCodes` put
 it highest.
 */
module BitCodecs {
  import opened Helpers

  function Pow2(n: nat): (r: nat)
    ensures r >= 1
  {
    if n == 0 then 1 else 2 * Pow2(n - 1)
  }

  /** Place `i` of the binary form of `x`: `x & 2**i != 0`, or `x // 2**i % 2`. */
  function Bit(x: nat, i: nat): (b: nat)
    ensures b < 2
  {
    x / Pow2(i) % 2
  }

  function Value(v: real): nat { if v >= 0.0 then 1 else 0 }

  function Signed(bit: nat, scale: real): real { if bit != 0 then scale else -scale }

  ghost predicate Quantised(v: seq<real>, scale: real) {
    scale > 0.0 && forall i :: 0 <= i < |v| ==> v[i] == scale || v[i] == -scale
  }

  // ------------------------------------------------- first place lowest

  /** `BSQuantizer.bits_to_indices`: the sum of `(bits >= 0) * 2**i`. */
  function BitsToIndices(v: seq<real>): nat {
    if v == [] then 0 else BitsToIndices(v[..|v| - 1]) + Value(v[|v| - 1]) * Pow2(|v| - 1)
  }

  /** `KronosTokenizer.indices_to_bits` on one index. */
  function IndicesToBits(x: nat, width: nat, scale: real): (v: seq<real>)
    ensures |v| == width
  {
    seq(width, i requires 0 <= i < width => Signed(Bit(x, i), scale))
  }

  /** The `half` branches: two indices, each read back with half of the codebook width. */
  function HalvesToIndices(v: seq<real>, s1Bits: nat): (nat, nat)
    requires s1Bits <= |v|
  {
    (BitsToIndices(v[..s1Bits]), BitsToIndices(v[s1Bits..]))
  }

  function HalvesToBits(x: (nat, nat), codebookDim: nat, scale: real): seq<real> {
    IndicesToBits(x.0, codebookDim / 2, scale) + IndicesToBits(x.1, codebookDim / 2, scale)
  }

  // ------------------------------------------------ first place highest

  /** `codes_to_indexes`: the sum of `(code + 1) / 2 * 2**(n - 1 - i)`, truncated. */
  function WeightedSum(c: seq<real>): real {
    if c == [] then 0.0 else (c[0] + 1.0) / 2.0 * Pow2(|c| - 1) as real + WeightedSum(c[1..])
  }

  function CodesToIndexes(c: seq<real>): int { Truncate(WeightedSum(c)) }

  function Truncate(r: real): int { if r >= 0.0 then r.Floor else -((-r).Floor) }

  /** `indexes_to_codes`: `x // 2**(n - 1 - i) % 2 * 2 - 1`. */
  function IndexesToCodes(x: nat, n: nat): (c: seq<real>)
    ensures |c| == n
  {
    seq(n, i requires 0 <= i < n => (Bit(x, n - 1 - i) * 2) as real - 1.0)
  }

  /** `codes_to_group_indexes`: each of the `n` runs of `g` places on its own. */
  function CodesToGroupIndexes(c: seq<real>, g: nat, n: nat): (r: seq<int>)
    requires |c| == g * n
    ensures |r| == n
  {
    if n == 0 then [] else
      OneGroupLess(g, n);
      [CodesToIndexes(c[..g])] + CodesToGroupIndexes(c[g..], g, n - 1)
  }

  function GroupIndexesToCodes(xs: seq<int>, g: nat): (c: seq<real>)
    requires forall k :: 0 <= k < |xs| ==> xs[k] >= 0
  {
    if xs == [] then [] else IndexesToCodes(xs[0], g) + GroupIndexesToCodes(xs[1..], g)
  }

  // -------------------------------------------------------- composite tokens

  /** `split_token`: the high bits `t >> s2_bits` and the low bits `t & mask`. */
  function SplitToken(t: nat, s2Bits: nat): (nat, nat) {
    DivMod(t, Pow2(s2Bits))
  }

  function DivMod(t: nat, p: nat): (nat, nat)
    requires p >= 1
  {
    (t / p, t % p)
  }

  // ============================================================= arithmetic

  lemma DivDiv(x: nat, p: nat)
    requires p >= 1
    ensures x / (2 * p) == x / 2 / p
  {
    var q, r := x / (2 * p), x % (2 * p);
    assert x == p * q * 2 + r;
    assert x / 2 == p * q + r / 2;
    assert r / 2 < p;
    QuotientUnique(x / 2, p, q, r / 2);
  }

  lemma NonZeroMultiple(d: nat, k: int)
    requires d >= 1
    ensures k != 0 ==> d * k >= d || d * k <= -(d as int)
  {
    if k >= 1 {
      assert d * k >= d;
    } else if k <= -1 {
      assert d * -k >= d;
    }
  }

  lemma QuotientUnique(x: nat, d: nat, q: nat, r: nat)
    requires d >= 1 && x == d * q + r && r < d
    ensures x / d == q && x % d == r
  {
    var k := x / d - q;
    assert x == d * (x / d) + x % d;
    assert d * (x / d) - d * q == d * k;
    NonZeroMultiple(d, k);
  }

  lemma OneGroupLess(g: nat, n: nat)
    requires n >= 1
    ensures g * n == g + g * (n - 1)
  {
  }

  lemma {:induction false} PowAdd(a: nat, b: nat)
    ensures Pow2(a + b) == Pow2(a) * Pow2(b)
  {
    if a > 0 { PowAdd(a - 1, b); }
  }

  lemma BitStep(x: nat, i: nat)
    ensures Bit(x, i + 1) == Bit(x / 2, i)
  {
    DivDiv(x, Pow2(i));
  }

  // ================================================== first place lowest

  /** The same index read from the other end. */
  lemma {:induction false} LowestFirst(v: seq<real>)
    requires v != []
    ensures BitsToIndices(v) == Value(v[0]) + 2 * BitsToIndices(v[1..])
  {
    if |v| > 1 {
      var u := v[..|v| - 1];
      LowestFirst(u);
      assert u[1..] == v[1..][..|v[1..]| - 1];
    }
  }

  lemma {:induction false} BitOfIndex(v: seq<real>, i: nat)
    ensures BitsToIndices(v) < Pow2(|v|)
    ensures Bit(BitsToIndices(v), i) == if i < |v| then Value(v[i]) else 0
  {
    if v == [] {
      QuotientUnique(0, Pow2(i), 0, 0);
    } else {
      LowestFirst(v);
      BitOfIndex(v[1..], if i == 0 then 0 else i - 1);
      if i > 0 { BitStep(BitsToIndices(v), i - 1); }
    }
  }

  /** Decoding an encoded sign vector gives it back, at the scale of the decoder. */
  lemma BitsRoundTrip(v: seq<real>, scale: real)
    requires Quantised(v, scale)
    ensures IndicesToBits(BitsToIndices(v), |v|, scale) == v
  {
    forall i | 0 <= i < |v| ensures IndicesToBits(BitsToIndices(v), |v|, scale)[i] == v[i] {
      BitOfIndex(v, i);
    }
  }

  lemma BitsOfHalf(x: nat, width: nat, scale: real)
    requires width > 0
    ensures IndicesToBits(x, width, scale)[1..] == IndicesToBits(x / 2, width - 1, scale)
  {
    var v := IndicesToBits(x, width, scale);
    forall i | 0 <= i < width - 1 ensures v[1..][i] == IndicesToBits(x / 2, width - 1, scale)[i] {
      BitStep(x, i);
    }
  }

  lemma FirstBit(x: nat, width: nat, scale: real)
    requires width > 0 && scale > 0.0
    ensures Value(IndicesToBits(x, width, scale)[0]) == x % 2
  {
    assert Bit(x, 0) == x % 2;
  }

  /** Encoding a decoded index gives it back; so the codec is a bijection. */
  lemma {:induction false} IndicesRoundTrip(x: nat, width: nat, scale: real)
    requires x < Pow2(width) && scale > 0.0
    ensures BitsToIndices(IndicesToBits(x, width, scale)) == x
  {
    if width > 0 {
      LowestFirst(IndicesToBits(x, width, scale));
      FirstBit(x, width, scale);
      BitsOfHalf(x, width, scale);
      IndicesRoundTrip(x / 2, width - 1, scale);
    }
  }

  lemma EqualHalves(v: seq<real>, half: nat, d: nat, scale: real)
    requires |v| == d == half + half && Quantised(v, scale)
    ensures HalvesToBits(HalvesToIndices(v, half), d, scale) == v
  {
    BitsRoundTrip(v[..half], scale);
    BitsRoundTrip(v[half..], scale);
    assert d / 2 == half && v == v[..half] + v[half..];
  }

  /** The split form restores every sign vector exactly when both halves are equally wide. */
  lemma HalvesRoundTrip(s1Bits: nat, s2Bits: nat, scale: real)
    requires scale > 0.0
    ensures (forall v: seq<real> :: |v| == s1Bits + s2Bits && Quantised(v, scale) ==>
              HalvesToBits(HalvesToIndices(v, s1Bits), s1Bits + s2Bits, scale) == v)
      <==> s1Bits == s2Bits
  {
    if s1Bits == s2Bits {
      forall v: seq<real> | |v| == s1Bits + s2Bits && Quantised(v, scale)
        ensures HalvesToBits(HalvesToIndices(v, s1Bits), s1Bits + s2Bits, scale) == v
      {
        EqualHalves(v, s1Bits, s1Bits + s2Bits, scale);
      }
    } else {
      var v := UnequalHalves(s1Bits, s2Bits, scale);
    }
  }

  /** The sign vector whose one positive place is `at`. */
  function OnePositive(n: nat, at: nat, scale: real): (v: seq<real>)
    ensures |v| == n
    ensures scale > 0.0 ==> Quantised(v, scale)
  {
    seq(n, i requires 0 <= i < n => if i == at then scale else -scale)
  }

  /** A wider second half: its first place is read from the index of the first half. */
  lemma SecondHalfLost(s1Bits: nat, s2Bits: nat, scale: real)
    requires scale > 0.0 && s1Bits < s2Bits && (s1Bits + s2Bits) % 2 == 0
    ensures HalvesToBits(HalvesToIndices(OnePositive(s1Bits + s2Bits, s1Bits, scale), s1Bits), s1Bits + s2Bits, scale)
         != OnePositive(s1Bits + s2Bits, s1Bits, scale)
  {
    var d := s1Bits + s2Bits;
    var v := OnePositive(d, s1Bits, scale);
    BitOfIndex(v[..s1Bits], s1Bits);
    assert HalvesToBits(HalvesToIndices(v, s1Bits), d, scale)[s1Bits] == -scale;
  }

  /** A wider first half: its place in the middle is read from the index of the second half. */
  lemma FirstHalfLost(s1Bits: nat, s2Bits: nat, scale: real)
    requires scale > 0.0 && s1Bits > s2Bits && (s1Bits + s2Bits) % 2 == 0
    ensures var half := (s1Bits + s2Bits) / 2;
      HalvesToBits(HalvesToIndices(OnePositive(s1Bits + s2Bits, half, scale), s1Bits), s1Bits + s2Bits, scale)
        != OnePositive(s1Bits + s2Bits, half, scale)
  {
    var d := s1Bits + s2Bits;
    var v := OnePositive(d, d / 2, scale);
    BitOfIndex(v[s1Bits..], 0);
    assert HalvesToBits(HalvesToIndices(v, s1Bits), d, scale)[d / 2]
      == IndicesToBits(BitsToIndices(v[s1Bits..]), d / 2, scale)[0];
  }

  /** A vector with one positive sign that unequal halves lose. */
  lemma UnequalHalves(s1Bits: nat, s2Bits: nat, scale: real) returns (v: seq<real>)
    requires scale > 0.0 && s1Bits != s2Bits
    ensures |v| == s1Bits + s2Bits && Quantised(v, scale)
    ensures HalvesToBits(HalvesToIndices(v, s1Bits), s1Bits + s2Bits, scale) != v
  {
    var d := s1Bits + s2Bits;
    v := OnePositive(d, if s1Bits < s2Bits then s1Bits else d / 2, scale);
    if d % 2 == 1 {
      assert |HalvesToBits(HalvesToIndices(v, s1Bits), d, scale)| == d / 2 + d / 2;
    } else if s1Bits < s2Bits {
      SecondHalfLost(s1Bits, s2Bits, scale);
    } else {
      FirstHalfLost(s1Bits, s2Bits, scale);
    }
  }

  // ================================================= first place highest

  function Reverse<T>(s: seq<T>): (r: seq<T>)
    ensures |r| == |s| && forall i :: 0 <= i < |s| ==> r[i] == s[|s| - 1 - i]
  {
    seq(|s|, i requires 0 <= i < |s| => s[|s| - 1 - i])
  }

  lemma TruncateNat(k: nat)
    ensures Truncate(k as real) == k
  {
  }

  lemma ReverseCons<T>(s: seq<T>)
    requires s != []
    ensures Reverse(s)[..|s| - 1] == Reverse(s[1..]) && Reverse(s)[|s| - 1] == s[0]
  {
  }

  lemma PlaceValue(x: real, p: nat)
    requires x == 1.0 || x == -1.0
    ensures (x + 1.0) / 2.0 * p as real == (Value(x) * p) as real
  {
  }

  lemma {:induction false} SumFromTheEnd(c: seq<real>)
    requires Quantised(c, 1.0)
    ensures WeightedSum(c) == BitsToIndices(Reverse(c)) as real
  {
    if c != [] {
      var first, tail := c[0], c[1..];
      SumFromTheEnd(tail);
      ReverseCons(c);
      PlaceValue(first, Pow2(|tail|));
    }
  }

  /** On {-1, 1} codes the weighted sum is the lowest-first index of the reversed code. */
  lemma HighestFirst(c: seq<real>)
    requires Quantised(c, 1.0)
    ensures WeightedSum(c) == BitsToIndices(Reverse(c)) as real
    ensures CodesToIndexes(c) == BitsToIndices(Reverse(c))
  {
    SumFromTheEnd(c);
    TruncateNat(BitsToIndices(Reverse(c)));
  }

  lemma PlaceOfIndex(c: seq<real>, i: nat)
    requires Quantised(c, 1.0) && i < |c|
    ensures 0 <= CodesToIndexes(c) < Pow2(|c|)
    ensures Bit(CodesToIndexes(c), |c| - 1 - i) == Value(c[i])
  {
    HighestFirst(c);
    BitOfIndex(Reverse(c), |c| - 1 - i);
  }

  /** `indexes_to_codes` inverts `codes_to_indexes` on {-1, 1} codes. */
  lemma CodesRoundTrip(c: seq<real>)
    requires Quantised(c, 1.0)
    ensures 0 <= CodesToIndexes(c) < Pow2(|c|)
    ensures IndexesToCodes(CodesToIndexes(c), |c|) == c
  {
    if c != [] {
      PlaceOfIndex(c, 0);
      forall i | 0 <= i < |c| ensures IndexesToCodes(CodesToIndexes(c), |c|)[i] == c[i] {
        PlaceOfIndex(c, i);
      }
    }
  }

  lemma IndexesGiveSigns(x: nat, n: nat)
    ensures Quantised(IndexesToCodes(x, n), 1.0)
    ensures Reverse(IndexesToCodes(x, n)) == IndicesToBits(x, n, 1.0)
  {
    var c := IndexesToCodes(x, n);
    forall i | 0 <= i < n ensures c[i] == Signed(Bit(x, n - 1 - i), 1.0) {
      assert Bit(x, n - 1 - i) == 0 || Bit(x, n - 1 - i) == 1;
    }
  }

  /** `codes_to_indexes` inverts `indexes_to_codes` on every index of the codebook. */
  lemma IndexesRoundTrip(x: nat, n: nat)
    requires x < Pow2(n)
    ensures CodesToIndexes(IndexesToCodes(x, n)) == x
  {
    var c := IndexesToCodes(x, n);
    IndexesGiveSigns(x, n);
    HighestFirst(c);
    IndicesRoundTrip(x, n, 1.0);
  }

  lemma {:induction false} AllNegative(v: seq<real>)
    requires forall i :: 0 <= i < |v| ==> v[i] < 0.0
    ensures BitsToIndices(v) == 0
  {
    if v != [] { AllNegative(v[..|v| - 1]); }
  }

  /** What a place is worth: the only positive one, or zero, of a vector stands for 2**i by
      `bits_to_indices`. */
  lemma {:induction false} WorthOfPlace(v: seq<real>, at: nat)
    requires at < |v| && v[at] >= 0.0 && forall i :: 0 <= i < |v| && i != at ==> v[i] < 0.0
    ensures BitsToIndices(v) == Pow2(at)
  {
    if at < |v| - 1 { WorthOfPlace(v[..|v| - 1], at); } else { AllNegative(v[..|v| - 1]); }
  }

  /** And by `codes_to_indexes` for 2**(n - 1 - i). */
  lemma WorthOfCodePlace(n: nat, at: nat)
    requires at < n
    ensures CodesToIndexes(OnePositive(n, at, 1.0)) == Pow2(n - 1 - at)
  {
    var c := OnePositive(n, at, 1.0);
    HighestFirst(c);
    WorthOfPlace(Reverse(c), n - 1 - at);
  }

  // ----------------------------------------------------------------- groups

  /** The number whose base-2**g digits are `xs`, most significant first. */
  function FromDigits(xs: seq<int>, g: nat): int {
    if xs == [] then 0 else xs[0] * Pow2(g * (|xs| - 1)) + FromDigits(xs[1..], g)
  }

  lemma Distribute(p: nat, x: nat, y: nat, bit: nat)
    requires bit < 2
    ensures p * x + bit * (p * y) == p * (x + bit * y)
  {
    if bit == 0 {
      assert bit * (p * y) == 0 == bit * y;
    } else {
      assert bit * y == y && bit * (p * y) == p * y;
      assert p * x + p * y == p * (x + y);
    }
  }

  lemma BitsMore(v: seq<real>, last: real)
    ensures BitsToIndices(v + [last]) == BitsToIndices(v) + Value(last) * Pow2(|v|)
  {
    assert (v + [last])[..|v + [last]| - 1] == v;
  }

  lemma {:induction false} JoinBits(u: seq<real>, v: seq<real>)
    ensures BitsToIndices(u + v) == BitsToIndices(u) + Pow2(|u|) * BitsToIndices(v)
  {
    if v == [] {
      assert u + v == u;
    } else {
      var init, last := v[..|v| - 1], v[|v| - 1];
      JoinBits(u, init);
      BitsMore(init, last);
      BitsMore(u + init, last);
      assert v == init + [last] && u + v == (u + init) + [last];
      PowAdd(|u|, |init|);
      Distribute(Pow2(|u|), BitsToIndices(init), Pow2(|init|), Value(last));
    }
  }

  lemma Parts(a: seq<real>, b: seq<real>)
    requires Quantised(a + b, 1.0)
    ensures Quantised(a, 1.0) && Quantised(b, 1.0)
  {
    var c := a + b;
    assert forall i :: 0 <= i < |a| ==> a[i] == c[i];
    assert forall i :: 0 <= i < |b| ==> b[i] == c[|a| + i];
  }

  /** Joining two codes shifts the index of the first by the width of the second. */
  lemma JoinCodes(a: seq<real>, b: seq<real>)
    requires Quantised(a + b, 1.0)
    ensures Quantised(a, 1.0) && Quantised(b, 1.0)
    ensures 0 <= CodesToIndexes(a) < Pow2(|a|) && 0 <= CodesToIndexes(b) < Pow2(|b|)
    ensures CodesToIndexes(a + b) == CodesToIndexes(a) * Pow2(|b|) + CodesToIndexes(b)
  {
    Parts(a, b);
    HighestFirst(a);
    HighestFirst(b);
    HighestFirst(a + b);
    BitOfIndex(Reverse(a), 0);
    BitOfIndex(Reverse(b), 0);
    assert Reverse(a + b) == Reverse(b) + Reverse(a);
    JoinBits(Reverse(b), Reverse(a));
  }

  lemma DigitsCons(x: int, xs: seq<int>, g: nat)
    ensures FromDigits([x] + xs, g) == x * Pow2(g * |xs|) + FromDigits(xs, g)
  {
    assert ([x] + xs)[1..] == xs;
  }

  /** A group put in front of a code whose digits are known. */
  lemma GroupInFront(a: seq<real>, b: seq<real>, xs: seq<int>, g: nat)
    requires Quantised(a + b, 1.0) && |b| == g * |xs| && FromDigits(xs, g) == CodesToIndexes(b)
    ensures FromDigits([CodesToIndexes(a)] + xs, g) == CodesToIndexes(a + b)
    ensures Quantised(b, 1.0) && 0 <= CodesToIndexes(a) < Pow2(|a|)
  {
    JoinCodes(a, b);
    DigitsCons(CodesToIndexes(a), xs, g);
  }

  /** The group indexes are the base-2**g digits of the full index. */
  lemma {:induction false} GroupsAreDigits(c: seq<real>, g: nat, n: nat)
    requires |c| == g * n && Quantised(c, 1.0)
    ensures forall k :: 0 <= k < n ==> 0 <= CodesToGroupIndexes(c, g, n)[k] < Pow2(g)
    ensures FromDigits(CodesToGroupIndexes(c, g, n), g) == CodesToIndexes(c)
  {
    if n > 0 {
      OneGroupLess(g, n);
      var a, b := c[..g], c[g..];
      assert c == a + b;
      Parts(a, b);
      GroupsAreDigits(b, g, n - 1);
      GroupInFront(a, b, CodesToGroupIndexes(b, g, n - 1), g);
    }
  }

  /** Decoding the group indexes restores the whole code. */
  lemma {:induction false} GroupsRoundTrip(c: seq<real>, g: nat, n: nat)
    requires |c| == g * n && Quantised(c, 1.0)
    ensures forall k :: 0 <= k < n ==> CodesToGroupIndexes(c, g, n)[k] >= 0
    ensures GroupIndexesToCodes(CodesToGroupIndexes(c, g, n), g) == c
  {
    if n > 0 {
      OneGroupLess(g, n);
      var a, b := c[..g], c[g..];
      assert c == a + b;
      Parts(a, b);
      CodesRoundTrip(a);
      GroupsRoundTrip(b, g, n - 1);
      assert CodesToGroupIndexes(c, g, n)[1..] == CodesToGroupIndexes(b, g, n - 1);
    }
  }

  /** The group codebook: the last `g` places of a code whose index is below 2**g. */
  lemma GroupCodebook(x: nat, n: nat, g: nat)
    requires g <= n
    ensures IndexesToCodes(x, n)[n - g..] == IndexesToCodes(x, g)
  {
    var c := IndexesToCodes(x, n);
    forall i | 0 <= i < g ensures c[n - g..][i] == IndexesToCodes(x, g)[i] {
      assert n - 1 - (n - g + i) == g - 1 - i;
    }
  }

  // ------------------------------------------------- codes that keep the scale

  function Scaled(c: seq<real>, scale: real): (r: seq<real>)
    ensures |r| == |c| && forall i :: 0 <= i < |c| ==> r[i] == c[i] * scale
  {
    seq(|c|, i requires 0 <= i < |c| => c[i] * scale)
  }

  function Ones(n: nat): (r: seq<real>)
    ensures |r| == n && forall i :: 0 <= i < n ==> r[i] == 1.0
  {
    seq(n, i => 1.0)
  }

  lemma PlaceAndBelow(half: real, p: nat)
    requires p >= 1
    ensures half * p as real + half * (p - 1) as real == half * (2 * p - 1) as real
  {
  }

  /** A code with the same entry everywhere: the geometric sum. */
  lemma {:induction false} ConstantSum(c: seq<real>, half: real)
    requires forall i :: 0 <= i < |c| ==> (c[i] + 1.0) / 2.0 == half
    ensures WeightedSum(c) == half * (Pow2(|c|) - 1) as real
  {
    if c != [] {
      var tail := c[1..];
      ConstantSum(tail, half);
      PlaceAndBelow(half, Pow2(|tail|));
    }
  }

  /** A code of ones has every place set. */
  lemma {:induction false} OnesSum(c: seq<real>)
    requires forall i :: 0 <= i < |c| ==> c[i] == 1.0
    ensures WeightedSum(c) == (Pow2(|c|) - 1) as real
  {
    if c != [] {
      var tail := c[1..];
      OnesSum(tail);
      PlaceValue(c[0], Pow2(|tail|));
    }
  }

  lemma OnesIndex(n: nat)
    ensures CodesToIndexes(Ones(n)) == Pow2(n) - 1
  {
    OnesSum(Ones(n));
    TruncateNat(Pow2(n) - 1);
  }

  lemma ScaledByOne(c: seq<real>)
    ensures Scaled(c, 1.0) == c
  {
  }

  lemma FractionBelow(h: real, top: nat)
    requires 0.0 < h < 1.0 && top >= 1
    ensures Truncate(h * top as real) < top
  {
    assert (1.0 - h) * top as real > 0.0;
    assert h * top as real >= 0.0;
  }

  /** The code of ones, which has the highest index, gets a lower one when scaled down. */
  lemma TopCodeShrinks(n: nat, scale: real)
    requires n >= 1 && 0.0 < scale < 1.0
    ensures |Ones(n)| == n && Quantised(Ones(n), 1.0)
    ensures CodesToIndexes(Scaled(Ones(n), scale)) < CodesToIndexes(Ones(n))
  {
    var half := (scale + 1.0) / 2.0;
    ConstantSum(Scaled(Ones(n), scale), half);
    OnesIndex(n);
    FractionBelow(half, Pow2(n) - 1);
  }

  /** The quantiser numbers codes that already carry the scale 1/sqrt(n). The numbers
      agree with those of the {-1, 1} codes for all codes exactly when the scale is one,
      that is for a codebook of one bit. */
  lemma ScaledIndexesAgree(n: nat, scale: real)
    requires n >= 1 && 0.0 < scale <= 1.0
    ensures (forall c: seq<real> :: |c| == n && Quantised(c, 1.0) ==>
              CodesToIndexes(Scaled(c, scale)) == CodesToIndexes(c))
      <==> scale == 1.0
  {
    if scale == 1.0 {
      forall c: seq<real> | |c| == n && Quantised(c, 1.0)
        ensures CodesToIndexes(Scaled(c, scale)) == CodesToIndexes(c)
      {
        ScaledByOne(c);
      }
    } else {
      TopCodeShrinks(n, scale);
    }
  }

  // -------------------------------------------------------- composite tokens

  /** Splitting is a bijection onto pairs of in-range halves, inverted by `s1 * 2**s2_bits + s2`. */
  lemma SplitIsBijection(s1Bits: nat, s2Bits: nat, t: nat, s1: nat, s2: nat)
    requires t < Pow2(s1Bits + s2Bits) && s1 < Pow2(s1Bits) && s2 < Pow2(s2Bits)
    ensures SplitToken(t, s2Bits).0 < Pow2(s1Bits) && SplitToken(t, s2Bits).1 < Pow2(s2Bits)
    ensures s1 * Pow2(s2Bits) + s2 < Pow2(s1Bits + s2Bits)
    ensures SplitToken(t, s2Bits) == (s1, s2) <==> t == s1 * Pow2(s2Bits) + s2
  {
    PowAdd(s1Bits, s2Bits);
    SplitBounds(Pow2(s1Bits), Pow2(s2Bits), t, s1, s2);
  }

  lemma FloorBelow(t: nat, a: nat, p: nat)
    requires p >= 1 && t < a * p
    ensures t / p < a
  {
    assert t == p * (t / p) + t % p;
    if t / p >= a {
      TimesMonotone(a, t / p, p);
      assert false;
    }
  }

  lemma SplitBounds(a: nat, p: nat, t: nat, s1: nat, s2: nat)
    requires p >= 1 && t < a * p && s1 < a && s2 < p
    ensures t / p < a
    ensures s1 * p + s2 < a * p
    ensures t / p == s1 && t % p == s2 <==> t == s1 * p + s2
  {
    FloorBelow(t, a, p);
    TimesMonotone(s1 + 1, a, p);
    assert (s1 + 1) * p == s1 * p + p;
    if t == s1 * p + s2 {
      QuotientUnique(t, p, s1, s2);
    } else {
      assert t == p * (t / p) + t % p;
    }
  }

  lemma SplitOf(t: nat, p: nat, high: nat, low: nat)
    requires low < p && t == high * p + low
    ensures DivMod(t, p) == (high, low)
  {
    QuotientUnique(t, p, high, low);
  }

  /** The two halves of a split full index are the indexes of the two parts of the code. */
  lemma SplitMatchesCode(a: seq<real>, b: seq<real>)
    requires Quantised(a + b, 1.0)
    ensures CodesToIndexes(a) >= 0 && CodesToIndexes(b) >= 0 && CodesToIndexes(a + b) >= 0
    ensures SplitToken(CodesToIndexes(a + b), |b|) == (CodesToIndexes(a) as nat, CodesToIndexes(b) as nat)
  {
    JoinCodes(a, b);
    SplitOf(CodesToIndexes(a + b), Pow2(|b|), CodesToIndexes(a), CodesToIndexes(b));
  }
}
