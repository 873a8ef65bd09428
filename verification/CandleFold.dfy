/** Folding candles into a coarser timeframe by UTC-aligned buckets, over exact reals. */
module CandleFold {
  import opened Common
  import opened Metrics

  datatype Candle = Candle(t: int, o: real, h: real, l: real, c: real, v: real)

  function Max(a: real, b: real): real { if a < b then b else a }

  function Min(a: real, b: real): real { if b < a then b else a }

  /** `toFixed(4)`: the nearest multiple of 0.0001, ties away from zero. */
  function Round4(v: real): real {
    if v < 0.0 then -RoundPercent(-v) else RoundPercent(v)
  }

  lemma Round4Nearest(v: real)
    ensures -0.00005 <= Round4(v) - v <= 0.00005
  {
    var x := if v < 0.0 then -v else v;
    assert x * 10000.0 - 0.5 < Round(x * 10000.0) as real <= x * 10000.0 + 0.5;
  }

  lemma Round4Grid(n: int)
    ensures Round4(n as real / 10000.0) == n as real / 10000.0
  {
    var m := if n < 0 then -n else n;
    var x := m as real;
    assert x / 10000.0 * 10000.0 == x;
    assert (x + 0.5).Floor == m;
    assert RoundPercent(x / 10000.0) == Round(x / 10000.0 * 10000.0) as real / 10000.0;
    assert (if n < 0 then -(n as real / 10000.0) else n as real / 10000.0) == x / 10000.0;
  }

  function Grid(v: real): int {
    if v < 0.0 then -Round(-v * 10000.0) else Round(v * 10000.0)
  }

  lemma Round4IsGrid(v: real)
    ensures Round4(v) == Grid(v) as real / 10000.0
    ensures Round4(Round4(v)) == Round4(v)
  {
    Round4Grid(Grid(v));
  }

  // ---- bucket arithmetic ----

  type Key = int -> int

  function Bucket(t: int, span: int): int
    requires span > 0
  {
    t / span * span
  }

  /** The bucket start of each time. */
  function Buckets(span: int): Key
    requires span > 0
  {
    (t: int) => Bucket(t, span)
  }

  predicate Divides(s1: int, s2: int) {
    s1 > 0 && s2 > 0 && s2 % s1 == 0
  }

  /** `fine` cuts `coarse`: a fine bucket lies in one coarse bucket, which its start shares. */
  ghost predicate Cuts(fine: Key, coarse: Key) {
    forall t :: coarse(fine(t)) == coarse(t)
  }

  lemma SpansCut(s1: int, s2: int)
    requires Divides(s1, s2)
    ensures Cuts(Buckets(s1), Buckets(s2))
  {
    forall t ensures Buckets(s2)(Buckets(s1)(t)) == Buckets(s2)(t) {
      BucketOfBucket(t, s1, s2);
    }
  }

  lemma BucketOfBucket(t: int, s1: int, s2: int)
    requires Divides(s1, s2)
    ensures Bucket(Bucket(t, s1), s2) == Bucket(t, s2)
  {
    var m := s2 / s1;
    assert s2 == s1 * m;
    var x, y := t / s1, t / s2;
    MulAdd(y, s1, m);
    FloorBounds(t, s1);
    FloorBounds(t, s2);
    assert (y * m) * s1 <= t < (y * m + m) * s1;
    FloorGe(t, s1, y * m);
    FloorLt(t, s1, y * m + m);
    assert y * m <= x <= y * m + m - 1;
    ScaleLe(y * m, x, s1);
    ScaleLe(x, y * m + m - 1, s1);
    assert y * s2 <= x * s1 < (y + 1) * s2;
    FloorIs(x * s1, s2, y);
  }

  lemma MulAdd(y: int, s1: int, m: int)
    ensures (y * m) * s1 == y * (s1 * m) && (y * m + m) * s1 == (y + 1) * (s1 * m)
  {
  }

  lemma FloorBounds(t: int, s: int)
    requires s > 0
    ensures t / s * s <= t < (t / s + 1) * s
  {
  }

  lemma ScaleLe(a: int, b: int, s: int)
    requires a <= b && s > 0
    ensures a * s <= b * s
  {
  }

  lemma FloorGe(t: int, s: int, q: int)
    requires s > 0 && q * s <= t
    ensures q <= t / s
  {
    FloorBounds(t, s);
    if t / s < q { ScaleLe(t / s + 1, q, s); }
  }

  lemma FloorLt(t: int, s: int, q: int)
    requires s > 0 && t < q * s
    ensures t / s < q
  {
    FloorBounds(t, s);
    if q <= t / s { ScaleLe(q, t / s, s); }
  }

  lemma FloorIs(t: int, s: int, q: int)
    requires s > 0 && q * s <= t < (q + 1) * s
    ensures t / s == q
  {
    FloorGe(t, s, q);
    FloorLt(t, s, q + 1);
  }

  // ---- a run of candles, and its bar ----

  function High(cs: seq<Candle>): real
    requires cs != []
    decreases |cs|
  {
    if |cs| == 1 then cs[0].h else Max(High(cs[..|cs| - 1]), cs[|cs| - 1].h)
  }

  function Low(cs: seq<Candle>): real
    requires cs != []
    decreases |cs|
  {
    if |cs| == 1 then cs[0].l else Min(Low(cs[..|cs| - 1]), cs[|cs| - 1].l)
  }

  function Volume(cs: seq<Candle>): real
    decreases |cs|
  {
    if cs == [] then 0.0 else Volume(cs[..|cs| - 1]) + cs[|cs| - 1].v
  }

  /** The extremes are attained and bound every candle. */
  lemma {:induction false} Extremes(cs: seq<Candle>)
    requires cs != []
    ensures forall c :: c in cs ==> Low(cs) <= c.l && c.h <= High(cs)
    ensures (exists c :: c in cs && c.h == High(cs)) && (exists c :: c in cs && c.l == Low(cs))
    decreases |cs|
  {
    var n := |cs| - 1;
    assert cs == cs[..n] + [cs[n]];
    assert cs[n] in cs;
    if n > 0 { Extremes(cs[..n]); }
  }

  /** The candle being built, before its volume is rounded. */
  function Raw(run: seq<Candle>, key: Key): Candle
    requires run != []
  {
    Candle(key(run[0].t), run[0].o, High(run), Low(run), run[|run| - 1].c, Volume(run))
  }

  function Flush(c: Candle): Candle {
    c.(v := Round4(c.v))
  }

  /** The bar of a run. */
  function Bar(run: seq<Candle>, key: Key): Candle
    requires run != []
  {
    Flush(Raw(run, key))
  }

  // ---- the fold ----

  predicate OneBucket(cs: seq<Candle>, key: Key) {
    forall i :: 0 <= i < |cs| ==> key(cs[i].t) == key(cs[0].t)
  }

  /** The length of the longest prefix in one bucket. */
  function RunLength(cs: seq<Candle>, key: Key): (n: nat)
    requires cs != []
    ensures 1 <= n <= |cs| && OneBucket(cs[..n], key)
    ensures n < |cs| ==> key(cs[n].t) != key(cs[0].t)
  {
    if |cs| == 1 || key(cs[1].t) != key(cs[0].t) then 1 else 1 + RunLength(cs[1..], key)
  }

  lemma {:induction false} RunLengthIs(cs: seq<Candle>, key: Key, n: nat)
    requires 1 <= n <= |cs| && OneBucket(cs[..n], key)
    requires n < |cs| ==> key(cs[n].t) != key(cs[0].t)
    ensures RunLength(cs, key) == n
  {
    if 1 < n {
      assert cs[..n][1] == cs[1];
      assert cs[1..][..n - 1] == cs[..n][1..];
      RunLengthIs(cs[1..], key, n - 1);
    }
  }

  /** One bar for each maximal run of candles in the same bucket. */
  function Fold(cs: seq<Candle>, key: Key): seq<Candle>
    decreases |cs|
  {
    if cs == [] then [] else
      var n := RunLength(cs, key);
      [Bar(cs[..n], key)] + Fold(cs[n..], key)
  }

  /** The loop, over any bucketing. */
  method AggregateBy(candles: seq<Candle>, key: Key) returns (out: seq<Candle>)
    ensures out == Fold(candles, key)
  {
    out := [];
    var cur: Option<Candle> := None;
    var bucket := 0;
    ghost var k := 0;
    for i := 0 to |candles|
      invariant Folding(candles, key, k, i, out, cur, bucket)
    {
      var c := candles[i];
      var b := key(c.t);
      if cur.None? || b != bucket {
        if cur.Some? {
          FoldingCut(candles, key, k, i, out, cur, bucket);
          out := out + [Flush(cur.value)];
        }
        FoldingStart(candles, key, i, out);
        k := i;
        bucket := b;
        cur := Some(Candle(b, c.o, c.h, c.l, c.c, c.v));
      } else {
        FoldingGrow(candles, key, k, i, out, cur, bucket);
        cur := Some(Merge(cur.value, c));
      }
    }
    if cur.Some? {
      FoldingCut(candles, key, k, |candles|, out, cur, bucket);
      out := out + [Flush(cur.value)];
    }
  }

  /** After `i` candles: the finished bars are out, and `cur` is the bar of the run that began at `k`. */
  ghost predicate Folding(candles: seq<Candle>, key: Key, k: nat, i: nat, out: seq<Candle>, cur: Option<Candle>,
      bucket: int) {
    && k <= i <= |candles| && (cur.None? <==> i == 0)
    && out + Fold(candles[k..], key) == Fold(candles, key)
    && (i > 0 ==>
          k < i && OneBucket(candles[k..i], key) && cur == Some(Raw(candles[k..i], key)) && bucket == key(candles[k].t))
  }

  /** A candle joins the bar being built. */
  function Merge(bar: Candle, c: Candle): Candle {
    bar.(h := Max(bar.h, c.h), l := Min(bar.l, c.l), c := c.c, v := bar.v + c.v)
  }

  lemma FoldingStart(candles: seq<Candle>, key: Key, i: nat, out: seq<Candle>)
    requires i < |candles| && out + Fold(candles[i..], key) == Fold(candles, key)
    ensures var c := candles[i];
      Folding(candles, key, i, i + 1, out, Some(Candle(key(c.t), c.o, c.h, c.l, c.c, c.v)), key(c.t))
  {
    StartRun(candles, key, i);
  }

  lemma FoldingGrow(candles: seq<Candle>, key: Key, k: nat, i: nat, out: seq<Candle>, cur: Option<Candle>, bucket: int)
    requires i < |candles| && Folding(candles, key, k, i, out, cur, bucket) && cur.Some? && key(candles[i].t) == bucket
    ensures Folding(candles, key, k, i + 1, out, Some(Merge(cur.value, candles[i])), bucket)
  {
    GrowRun(candles, key, k, i);
  }

  lemma FoldingCut(candles: seq<Candle>, key: Key, k: nat, i: nat, out: seq<Candle>, cur: Option<Candle>, bucket: int)
    requires Folding(candles, key, k, i, out, cur, bucket) && cur.Some?
    requires i < |candles| ==> key(candles[i].t) != bucket
    ensures out + [Flush(cur.value)] + Fold(candles[i..], key) == Fold(candles, key)
  {
    CutRun(candles, key, k, i);
    assert out + [Flush(cur.value)] + Fold(candles[i..], key) == out + ([Flush(cur.value)] + Fold(candles[i..], key));
  }

  lemma CutRun(candles: seq<Candle>, key: Key, k: nat, i: nat)
    requires k < i <= |candles| && OneBucket(candles[k..i], key)
    requires i < |candles| ==> key(candles[i].t) != key(candles[k].t)
    ensures Fold(candles[k..], key) == [Bar(candles[k..i], key)] + Fold(candles[i..], key)
  {
    assert candles[k..][..i - k] == candles[k..i] && candles[k..][i - k..] == candles[i..];
    CloseRun(candles[k..], key, i - k);
  }

  lemma StartRun(candles: seq<Candle>, key: Key, i: nat)
    requires i < |candles|
    ensures var c := candles[i];
      OneBucket(candles[i..i + 1], key) && Raw(candles[i..i + 1], key) == Candle(key(c.t), c.o, c.h, c.l, c.c, c.v)
  {
    var run := candles[i..i + 1];
    assert run == [candles[i]];
    assert Volume(run) == Volume(run[..0]) + run[0].v;
  }

  lemma GrowRun(candles: seq<Candle>, key: Key, k: nat, i: nat)
    requires k < i < |candles| && OneBucket(candles[k..i], key) && key(candles[i].t) == key(candles[k].t)
    ensures OneBucket(candles[k..i + 1], key)
    ensures var run, c := Raw(candles[k..i], key), candles[i];
      Raw(candles[k..i + 1], key) == Merge(run, c)
  {
    var run := candles[k..i + 1];
    assert run[..i - k] == candles[k..i] && run[i - k] == candles[i];
    assert forall j :: 0 <= j < i - k ==> run[j] == candles[k..i][j];
  }

  method AggregateCandles(candles: seq<Candle>, targetSeconds: int) returns (out: seq<Candle>)
    requires targetSeconds > 0
    ensures out == Fold(candles, Buckets(targetSeconds * 1000))
  {
    out := AggregateBy(candles, Buckets(targetSeconds * 1000));
  }

  lemma CloseRun(cs: seq<Candle>, key: Key, n: nat)
    requires 1 <= n <= |cs| && OneBucket(cs[..n], key)
    requires n < |cs| ==> key(cs[n].t) != key(cs[0].t)
    ensures Fold(cs, key) == [Bar(cs[..n], key)] + Fold(cs[n..], key)
  {
    RunLengthIs(cs, key, n);
  }

  // ---- concatenation ----

  /** The fold may be cut where the bucket changes. */
  predicate Boundary(a: seq<Candle>, b: seq<Candle>, key: Key) {
    a == [] || b == [] || key(a[|a| - 1].t) != key(b[0].t)
  }

  lemma SameFirstRun(a: seq<Candle>, b: seq<Candle>, key: Key)
    requires a != [] && Boundary(a, b, key)
    ensures RunLength(a + b, key) == RunLength(a, key)
  {
    var n := RunLength(a, key);
    assert (a + b)[..n] == a[..n];
    if n == |a| { assert a[..n][n - 1] == a[n - 1]; }
    RunLengthIs(a + b, key, n);
  }

  /** The first run of `a` is that of `a + b`, and leaves the boundary as it is. */
  lemma FirstRunOff(a: seq<Candle>, b: seq<Candle>, key: Key)
    requires a != [] && Boundary(a, b, key)
    ensures var n := RunLength(a, key);
      Boundary(a[n..], b, key) && Fold(a + b, key) == [Bar(a[..n], key)] + Fold(a[n..] + b, key)
  {
    var n := RunLength(a, key);
    SameFirstRun(a, b, key);
    assert (a + b)[..n] == a[..n] && (a + b)[n..] == a[n..] + b;
  }

  lemma {:induction false} FoldConcat(a: seq<Candle>, b: seq<Candle>, key: Key)
    requires Boundary(a, b, key)
    ensures Fold(a + b, key) == Fold(a, key) + Fold(b, key)
    decreases |a|
  {
    if a == [] {
      assert a + b == b;
    } else {
      var n := RunLength(a, key);
      FirstRunOff(a, b, key);
      FoldConcat(a[n..], b, key);
      Associate(Bar(a[..n], key), Fold(a[n..], key), Fold(b, key));
    }
  }

  lemma Associate(x: Candle, ys: seq<Candle>, zs: seq<Candle>)
    ensures [x] + (ys + zs) == [x] + ys + zs
  {
  }

  /** A single run folds to its bar. */
  lemma FoldRun(run: seq<Candle>, key: Key)
    requires run != [] && OneBucket(run, key)
    ensures Fold(run, key) == [Bar(run, key)]
  {
    assert run[..|run|] == run;
    CloseRun(run, key, |run|);
  }

  // ---- folding in two steps ----

  lemma {:induction false} HighConcat(a: seq<Candle>, b: seq<Candle>)
    requires a != [] && b != []
    ensures High(a + b) == Max(High(a), High(b)) && Low(a + b) == Min(Low(a), Low(b))
    decreases |b|
  {
    assert (a + b)[..|a + b| - 1] == a + b[..|b| - 1];
    if |b| == 1 { assert a + b[..0] == a; } else { HighConcat(a, b[..|b| - 1]); }
  }

  lemma {:induction false} VolumeConcat(a: seq<Candle>, b: seq<Candle>)
    ensures Volume(a + b) == Volume(a) + Volume(b)
    decreases |b|
  {
    if b == [] {
      assert a + b == a;
    } else {
      assert (a + b)[..|a + b| - 1] == a + b[..|b| - 1];
      VolumeConcat(a, b[..|b| - 1]);
    }
  }

  predicate SamePrices(x: Candle, y: Candle) {
    x.t == y.t && x.o == y.o && x.h == y.h && x.l == y.l && x.c == y.c
  }

  predicate Near(x: real, y: real, e: real) {
    x - e <= y <= x + e
  }

  /** A whole number of ten-thousandths: rounding leaves it alone. */
  predicate OnGrid(v: real) {
    Round4(v) == v
  }

  /** The middle bars of one coarse run keep the prices, stay in its bucket, and lose a rounding each. */
  predicate Middle(mid: seq<Candle>, run: seq<Candle>, coarse: Key)
    requires run != []
  {
    && mid != [] && (forall i :: 0 <= i < |mid| ==> coarse(mid[i].t) == coarse(run[0].t))
    && mid[0].o == run[0].o && mid[|mid| - 1].c == run[|run| - 1].c && High(mid) == High(run) && Low(mid) == Low(run)
    && Near(Volume(run), Volume(mid), |mid| as real * 0.00005) && OnGrid(Volume(mid))
  }

  lemma MiddleJoin(mid: seq<Candle>, run: seq<Candle>, mid': seq<Candle>, run': seq<Candle>, coarse: Key)
    requires run != [] && run' != [] && coarse(run[0].t) == coarse(run'[0].t)
    requires Middle(mid, run, coarse) && Middle(mid', run', coarse)
    ensures Middle(mid + mid', run + run', coarse)
  {
    HighConcat(run, run');
    VolumeConcat(run, run');
    HighConcat(mid, mid');
    VolumeConcat(mid, mid');
    GridAdd(Volume(mid), Volume(mid'));
    assert |mid + mid'| as real * 0.00005 == |mid| as real * 0.00005 + |mid'| as real * 0.00005;
  }

  lemma {:induction false} MiddleBars(run: seq<Candle>, fine: Key, coarse: Key)
    requires Cuts(fine, coarse) && run != [] && OneBucket(run, coarse)
    ensures Middle(Fold(run, fine), run, coarse)
    decreases |run|
  {
    var n := RunLength(run, fine);
    var first, rest := run[..n], run[n..];
    assert run == first + rest;
    OneMiddleBar(first, fine, coarse);
    if rest != [] {
      assert forall i :: 0 <= i < |rest| ==> rest[i] == run[n + i];
      MiddleBars(rest, fine, coarse);
      MiddleJoin([Bar(first, fine)], first, Fold(rest, fine), rest, coarse);
    } else {
      assert first == run;
      assert Fold(run, fine) == [Bar(first, fine)] + [];
    }
  }

  lemma OneMiddleBar(first: seq<Candle>, fine: Key, coarse: Key)
    requires Cuts(fine, coarse) && first != []
    ensures Middle([Bar(first, fine)], first, coarse)
  {
    var bar := Bar(first, fine);
    assert Volume([bar]) == Volume([bar][..0]) + bar.v;
    Round4Nearest(Volume(first));
    Round4IsGrid(Volume(first));
  }

  lemma GridAdd(x: real, y: real)
    requires OnGrid(x) && OnGrid(y)
    ensures OnGrid(x + y)
  {
    Round4IsGrid(x);
    Round4IsGrid(y);
    assert x + y == (Grid(x) + Grid(y)) as real / 10000.0;
    Round4Grid(Grid(x) + Grid(y));
  }

  /** How many middle candles each coarse bar is folded from. */
  function MiddleCounts(cs: seq<Candle>, fine: Key, coarse: Key): seq<nat>
    decreases |cs|
  {
    if cs == [] then [] else
      var n := RunLength(cs, coarse);
      [|Fold(cs[..n], fine)|] + MiddleCounts(cs[n..], fine, coarse)
  }

  /**
   * Two foldings agree: the same prices, and volumes that differ by at most one rounding per middle candle and one
   * more.
   */
  predicate Agree(two: seq<Candle>, one: seq<Candle>, counts: seq<nat>) {
    && |two| == |one| == |counts|
    && forall i :: 0 <= i < |one| ==>
         SamePrices(two[i], one[i]) && Near(two[i].v, one[i].v, (counts[i] + 1) as real * 0.00005)
  }

  lemma OneCoarseBar(run: seq<Candle>, fine: Key, coarse: Key)
    requires Cuts(fine, coarse) && run != [] && OneBucket(run, coarse)
    ensures Agree(Fold(Fold(run, fine), coarse), [Bar(run, coarse)], [|Fold(run, fine)|])
  {
    var mid := Fold(run, fine);
    MiddleBars(run, fine, coarse);
    FoldRun(mid, coarse);
    Round4Nearest(Volume(run));
    assert Fold(mid, coarse)[0].v == Volume(mid);
    FirstBucket(run, fine, coarse);
  }

  lemma FirstBucket(run: seq<Candle>, fine: Key, coarse: Key)
    requires Cuts(fine, coarse) && run != []
    ensures Fold(run, fine) != [] && coarse(Fold(run, fine)[0].t) == coarse(run[0].t)
  {
  }

  /** For any candles, folding through a finer timeframe gives the bars of folding at once. */
  lemma {:induction false} TwoStep(cs: seq<Candle>, fine: Key, coarse: Key)
    requires Cuts(fine, coarse)
    ensures Agree(Fold(Fold(cs, fine), coarse), Fold(cs, coarse), MiddleCounts(cs, fine, coarse))
    decreases |cs|
  {
    if cs != [] {
      var n := RunLength(cs, coarse);
      var run, rest := cs[..n], cs[n..];
      assert cs == run + rest;
      assert run[n - 1] == cs[n - 1];
      TwoStep(rest, fine, coarse);
      OneCoarseBar(run, fine, coarse);
      SplitMiddle(run, rest, fine, coarse);
      AgreeConcat(Fold(Fold(run, fine), coarse), [Bar(run, coarse)], [|Fold(run, fine)|],
                  Fold(Fold(rest, fine), coarse), Fold(rest, coarse), MiddleCounts(rest, fine, coarse));
    }
  }

  lemma AgreeConcat(two: seq<Candle>, one: seq<Candle>, counts: seq<nat>, two': seq<Candle>, one': seq<Candle>,
      counts': seq<nat>)
    requires Agree(two, one, counts) && Agree(two', one', counts')
    ensures Agree(two + two', one + one', counts + counts')
  {
  }

  /** Cutting at a coarse boundary cuts the middle candles there too. */
  lemma SplitMiddle(run: seq<Candle>, rest: seq<Candle>, fine: Key, coarse: Key)
    requires Cuts(fine, coarse) && run != [] && OneBucket(run, coarse) && Boundary(run, rest, coarse)
    ensures Fold(Fold(run + rest, fine), coarse) == Fold(Fold(run, fine), coarse) + Fold(Fold(rest, fine), coarse)
  {
    MiddleBars(run, fine, coarse);
    if rest != [] { FirstBucket(rest, fine, coarse); }
    assert coarse(run[|run| - 1].t) == coarse(run[0].t);
    FineBoundary(run, rest, fine, coarse);
    FoldConcat(run, rest, fine);
    FoldConcat(Fold(run, fine), Fold(rest, fine), coarse);
  }

  lemma FineBoundary(a: seq<Candle>, b: seq<Candle>, fine: Key, coarse: Key)
    requires Cuts(fine, coarse) && Boundary(a, b, coarse)
    ensures Boundary(a, b, fine)
  {
    assert a == [] || coarse(fine(a[|a| - 1].t)) == coarse(a[|a| - 1].t);
  }

  /**
   * Aggregating to s1 and then to s2, with s1 dividing s2, has the times and prices of aggregating to s2
   * at once, for any input; a volume made from k middle candles is off by at most (k + 1) * 0.00005.
   */
  lemma TwoStepFold(cs: seq<Candle>, s1: int, s2: int)
    requires Divides(s1, s2)
    ensures Agree(Fold(Fold(cs, Buckets(s1)), Buckets(s2)), Fold(cs, Buckets(s2)),
        MiddleCounts(cs, Buckets(s1), Buckets(s2)))
  {
    SpansCut(s1, s2);
    TwoStep(cs, Buckets(s1), Buckets(s2));
  }

  // ---- a chunk is the concatenation of its days ----

  function Flatten(days: seq<seq<Candle>>): seq<Candle>
    decreases |days|
  {
    if days == [] then [] else Flatten(days[..|days| - 1]) + days[|days| - 1]
  }

  function FoldEach(days: seq<seq<Candle>>, key: Key): seq<seq<Candle>> {
    seq(|days|, i requires 0 <= i < |days| => Fold(days[i], key))
  }

  /** The candles of each list are those of one day, no day twice. */
  predicate DayByDay(days: seq<seq<Candle>>, starts: seq<int>, day: Key) {
    && |days| == |starts|
    && (forall i, j :: 0 <= i < j < |starts| ==> starts[i] != starts[j])
    && (forall i, k :: 0 <= i < |days| && 0 <= k < |days[i]| ==> day(days[i][k].t) == starts[i])
  }

  lemma {:induction false} LastDay(days: seq<seq<Candle>>, starts: seq<int>, day: Key) returns (i: nat)
    requires DayByDay(days, starts, day) && Flatten(days) != []
    ensures i < |days| && day(Flatten(days)[|Flatten(days)| - 1].t) == starts[i]
    decreases |days|
  {
    var n := |days| - 1;
    if days[n] != [] {
      i := n;
    } else {
      i := LastDay(days[..n], starts[..n], day);
    }
  }

  /** Consecutive days meet at a boundary of the day bucketing. */
  lemma DayBoundary(days: seq<seq<Candle>>, starts: seq<int>, day: Key)
    requires DayByDay(days, starts, day) && days != []
    ensures Boundary(Flatten(days[..|days| - 1]), days[|days| - 1], day)
  {
    var n := |days| - 1;
    if Flatten(days[..n]) != [] && days[n] != [] {
      var i := LastDay(days[..n], starts[..n], day);
      assert starts[i] != starts[n];
    }
  }

  /** Folding the minutes of several days at once concatenates the folds of the days. */
  lemma {:induction false} FoldByDay(days: seq<seq<Candle>>, starts: seq<int>, key: Key, day: Key)
    requires Cuts(key, day) && DayByDay(days, starts, day)
    ensures Fold(Flatten(days), key) == Flatten(FoldEach(days, key))
    decreases |days|
  {
    if days != [] {
      var n := |days| - 1;
      FoldByDay(days[..n], starts[..n], key, day);
      DayBoundary(days, starts, day);
      FineBoundary(Flatten(days[..n]), days[n], key, day);
      FoldConcat(Flatten(days[..n]), days[n], key);
      assert FoldEach(days, key)[..n] == FoldEach(days[..n], key);
    }
  }

  // ---- order ----

  predicate Ascending(cs: seq<Candle>) {
    forall i, j :: 0 <= i < j < |cs| ==> cs[i].t <= cs[j].t
  }

  ghost predicate HasTime(bars: seq<Candle>, t: int) {
    exists i :: 0 <= i < |bars| && bars[i].t == t
  }

  ghost predicate HasBucket(cs: seq<Candle>, key: Key, t: int) {
    exists i :: 0 <= i < |cs| && key(cs[i].t) == t
  }

  ghost predicate Monotone(key: Key) {
    forall x, y :: x <= y ==> key(x) <= key(y)
  }

  lemma HasTimeJoin(x: seq<Candle>, y: seq<Candle>, t: int)
    ensures HasTime(x + y, t) <==> HasTime(x, t) || HasTime(y, t)
  {
    if i :| 0 <= i < |x + y| && (x + y)[i].t == t {
      if i >= |x| { assert y[i - |x|].t == t; }
    }
    if i :| 0 <= i < |x| && x[i].t == t { assert (x + y)[i].t == t; }
    if i :| 0 <= i < |y| && y[i].t == t { assert (x + y)[|x| + i].t == t; }
  }

  lemma HasBucketJoin(x: seq<Candle>, y: seq<Candle>, key: Key, t: int)
    ensures HasBucket(x + y, key, t) <==> HasBucket(x, key, t) || HasBucket(y, key, t)
  {
    if i :| 0 <= i < |x + y| && key((x + y)[i].t) == t {
      if i >= |x| { assert key(y[i - |x|].t) == t; }
    }
    if i :| 0 <= i < |x| && key(x[i].t) == t { assert key((x + y)[i].t) == t; }
    if i :| 0 <= i < |y| && key(y[i].t) == t { assert key((x + y)[|x| + i].t) == t; }
  }

  lemma OneRunBucket(run: seq<Candle>, key: Key, t: int)
    requires run != [] && OneBucket(run, key)
    ensures HasTime([Bar(run, key)], t) <==> HasBucket(run, key, t)
  {
    assert [Bar(run, key)][0].t == key(run[0].t);
  }

  /** Every bucket that has a candle has a bar, and no other. */
  lemma {:induction false} OneBarPerBucket(cs: seq<Candle>, key: Key, t: int)
    ensures HasTime(Fold(cs, key), t) <==> HasBucket(cs, key, t)
    decreases |cs|
  {
    if cs != [] {
      var n := RunLength(cs, key);
      OneBarPerBucket(cs[n..], key, t);
      OneRunBucket(cs[..n], key, t);
      HasTimeJoin([Bar(cs[..n], key)], Fold(cs[n..], key), t);
      HasBucketJoin(cs[..n], cs[n..], key, t);
      assert cs == cs[..n] + cs[n..];
    }
  }

  predicate Increasing(bars: seq<Candle>) {
    forall i, j :: 0 <= i < j < |bars| ==> bars[i].t < bars[j].t
  }

  lemma IncreasingCons(bar: Candle, more: seq<Candle>)
    requires Increasing(more) && forall j :: 0 <= j < |more| ==> bar.t < more[j].t
    ensures Increasing([bar] + more)
  {
  }

  /** On candles in time order the bars are stamped with strictly increasing times. */
  lemma {:induction false} BarsAscend(cs: seq<Candle>, key: Key)
    requires Monotone(key) && Ascending(cs)
    ensures Increasing(Fold(cs, key))
    decreases |cs|
  {
    if cs != [] {
      var n := RunLength(cs, key);
      var more := Fold(cs[n..], key);
      BarsAscend(cs[n..], key);
      forall j | 0 <= j < |more| ensures key(cs[0].t) < more[j].t {
        assert HasTime(more, more[j].t);
        LaterBucket(cs, key, more[j].t, n);
      }
      IncreasingCons(Bar(cs[..n], key), more);
    }
  }

  lemma LaterBucket(cs: seq<Candle>, key: Key, t: int, n: nat)
    requires Monotone(key) && Ascending(cs) && cs != [] && n == RunLength(cs, key) && HasTime(Fold(cs[n..], key), t)
    ensures key(cs[0].t) < t
  {
    OneBarPerBucket(cs[n..], key, t);
    var i :| 0 <= i < |cs[n..]| && key(cs[n..][i].t) == t;
    assert cs[n..][i] == cs[n + i];
    assert cs[0].t <= cs[n].t <= cs[n + i].t;
    assert key(cs[0].t) <= key(cs[n].t) <= key(cs[n + i].t);
  }

  /** So on sorted candles the bars of a timeframe are strictly increasing, one per bucket that has a candle. */
  lemma SortedFold(cs: seq<Candle>, s: int)
    requires s > 0 && Ascending(cs)
    ensures var bars := Fold(cs, Buckets(s));
      Increasing(bars) && (forall t :: HasTime(bars, t) <==> HasBucket(cs, Buckets(s), t))
  {
    forall x: int, y: int | x <= y ensures Buckets(s)(x) <= Buckets(s)(y) { BucketMonotone(x, y, s); }
    BarsAscend(cs, Buckets(s));
    forall t ensures HasTime(Fold(cs, Buckets(s)), t) <==> HasBucket(cs, Buckets(s), t) {
      OneBarPerBucket(cs, Buckets(s), t);
    }
  }

  lemma BucketMonotone(x: int, y: int, s: int)
    requires s > 0 && x <= y
    ensures Bucket(x, s) <= Bucket(y, s)
  {
    FloorBounds(x, s);
    FloorGe(y, s, x / s);
    ScaleLe(x / s, y / s, s);
  }
}
