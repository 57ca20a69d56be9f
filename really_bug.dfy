/**
 * The realness test of the large-organism records (big_microfauna/really_bug.py): a
 * detection sequence is cut into chunks of `interval_frame_number` frames, a chunk counts
 * when it holds at least `frame_threshold` detections, and the organism is real when some
 * `interval_num` consecutive chunks hold at least `interval_threshold` counting chunks.
 */
module ReallyBug {
  import opened Common

  /** The four class attributes `INTERVAL_FRAME_NUMBER`, `INTERVAL_NUM`, `FRAME_THRESHOLD`, `INTERVAL_THRESHOLD`. */
  datatype Thresholds = Thresholds(frameNumber: int, intervalNum: int, frameThreshold: int, intervalThreshold: int)

  /** The thresholds every class declares before the configuration file is read. */
  const DEFAULTS := Thresholds(10, 5, 6, 3)

  function Min(a: int, b: int): int
  {
    if a <= b then a else b
  }

  /**
   * The chunk flags from frame `i` on: one per chunk of `n` frames, the last one possibly
   * shorter, each true when the chunk's sum reaches `ft`.
   */
  function FlagsAt(s: seq<int>, n: int, ft: int, i: int): (r: seq<bool>)
    requires n > 0 && 0 <= i
    ensures i >= |s| <==> r == []
    decreases |s| - i
  {
    if i >= |s| then [] else [Sum(s[i..Min(i + n, |s|)]) >= ft] + FlagsAt(s, n, ft, i + n)
  }

  /** The chunk flags of the whole sequence: `ceil(|s| / n)` of them (see `FlagsLength`). */
  function Flags(s: seq<int>, n: int, ft: int): (r: seq<bool>)
    requires n > 0
    ensures s == [] <==> r == []
  {
    FlagsAt(s, n, ft, 0)
  }

  /** Python's `sum` of a list of booleans: the number of trues. */
  function CountTrue(q: seq<bool>): (c: nat)
    ensures c <= |q|
  {
    if q == [] then 0 else CountTrue(q[..|q| - 1]) + (if q[|q| - 1] then 1 else 0)
  }

  /** The number of trues among the `k` flags that end before position `e`. */
  function WindowCount(flags: seq<bool>, e: int, k: nat): nat
    requires k <= e <= |flags|
  {
    CountTrue(flags[e - k..e])
  }

  /** Some `k` consecutive flags hold at least `it` trues. */
  predicate Dense(flags: seq<bool>, k: int, it: int)
  {
    k >= 1 && exists e :: k <= e <= |flags| && WindowCount(flags, e, k) >= it
  }

  /** Where the sliding queue starts after `j` flags, when no window has been dense yet. */
  function QueueStart(j: int, k: int): int
  {
    if k >= 1 && j >= k - 1 then j - (k - 1) else 0
  }

  /** A dense run of flags stays dense when more flags follow. */
  lemma DenseExtend(a: seq<bool>, b: seq<bool>, k: int, it: int)
    requires Dense(a, k, it)
    ensures Dense(a + b, k, it)
  {
    var e :| k <= e <= |a| && WindowCount(a, e, k) >= it;
    assert (a + b)[e - k..e] == a[e - k..e];
    assert WindowCount(a + b, e, k) >= it;
  }

  /** One more flag makes the flags dense only through the window that ends at it. */
  lemma NotDenseStep(fl: seq<bool>, f: bool, k: int, it: int)
    requires !Dense(fl, k, it)
    requires k < 1 || |fl| + 1 < k || CountTrue((fl + [f])[|fl| + 1 - k..]) < it
    ensures !Dense(fl + [f], k, it)
  {
    if k >= 1 {
      forall e | k <= e <= |fl| + 1 ensures WindowCount(fl + [f], e, k) < it {
        if e <= |fl| {
          assert (fl + [f])[e - k..e] == fl[e - k..e];
          assert WindowCount(fl, e, k) < it;
        } else {
          assert (fl + [f])[e - k..e] == (fl + [f])[|fl| + 1 - k..];
        }
      }
    }
  }

  /**
   * One flag pushed onto the sliding queue, which holds the flags since `QueueStart`: when
   * the queue reaches `k` flags it is the last window, which decides; otherwise, or after the
   * front is dropped, it again holds the flags since `QueueStart`, and never `k` of them.
   */
  lemma QueueStep(fl: seq<bool>, f: bool, queue: seq<bool>, k: int, it: int)
    requires queue == fl[QueueStart(|fl|, k)..] && (k >= 1 ==> |queue| < k) && !Dense(fl, k, it)
    ensures |queue + [f]| == k && CountTrue(queue + [f]) >= it ==> Dense(fl + [f], k, it)
    ensures |queue + [f]| == k && CountTrue(queue + [f]) < it ==>
      (queue + [f])[1..] == (fl + [f])[QueueStart(|fl| + 1, k)..] && !Dense(fl + [f], k, it)
    ensures |queue + [f]| != k ==>
      queue + [f] == (fl + [f])[QueueStart(|fl| + 1, k)..] && (k >= 1 ==> |queue| + 1 < k) && !Dense(fl + [f], k, it)
  {
    var q := queue + [f];
    assert (fl + [f])[QueueStart(|fl|, k)..] == fl[QueueStart(|fl|, k)..] + [f];
    if |q| == k {
      assert QueueStart(|fl|, k) == |fl| + 1 - k;
      assert (fl + [f])[|fl| + 1 - k..|fl| + 1] == q;
      assert WindowCount(fl + [f], |fl| + 1, k) == CountTrue(q);
      if CountTrue(q) < it {
        NotDenseStep(fl, f, k, it);
      }
    } else {
      NotDenseStep(fl, f, k, it);
    }
  }

  /** Scanning the chunk at frame `i` moves its flag from the unscanned part to the scanned one. */
  lemma ScanStep(s: seq<int>, n: int, ft: int, i: int, fl: seq<bool>, f: bool)
    requires n > 0 && 0 <= i < |s| && Flags(s, n, ft) == fl + FlagsAt(s, n, ft, i)
    requires f == (Sum(s[i..Min(i + n, |s|)]) >= ft)
    ensures Flags(s, n, ft) == (fl + [f]) + FlagsAt(s, n, ft, i + n)
  {
    var rest := FlagsAt(s, n, ft, i + n);
    assert FlagsAt(s, n, ft, i) == [f] + rest;
    assert fl + ([f] + rest) == (fl + [f]) + rest;
  }

  /**
   * `exist_detect(detection_sequence, interval_frame_number, interval_num, frame_threshold,
   * interval_threshold)`: the flags are pushed onto a queue; once it holds `k` of them it is
   * summed, and dropped from the front unless the sum reached `it`. The queue never holds more
   * than `k` flags. A step of 0 makes `range` raise, so `n` must be positive.
   */
  method ExistDetect(s: seq<int>, n: int, k: int, ft: int, it: int) returns (exist: bool)
    requires n > 0
    ensures exist <==> Dense(Flags(s, n, ft), k, it)
  {
    exist := false;
    var queue: seq<bool> := [];
    ghost var fl: seq<bool> := [];
    var i := 0;
    while i < |s|
      invariant 0 <= i && Flags(s, n, ft) == fl + FlagsAt(s, n, ft, i)
      invariant queue == fl[QueueStart(|fl|, k)..]
      invariant k >= 1 ==> |queue| < k
      invariant !Dense(fl, k, it)
      decreases |s| - i
    {
      ghost var rest := FlagsAt(s, n, ft, i + n);
      var f := Sum(s[i..Min(i + n, |s|)]) >= ft;
      ScanStep(s, n, ft, i, fl, f);
      var dense;
      queue, dense := Push(queue, f, k, it, fl);
      if dense {
        exist := true;
        DenseExtend(fl + [f], rest, k, it);
        break;
      }
      fl := fl + [f];
      i := i + n;
    }
    if !exist {
      assert Flags(s, n, ft) == fl;
    }
  }

  /**
   * One flag into the queue of `exist_detect`: appended, and when the queue is full either
   * the window is dense or its oldest flag is dropped.
   */
  method Push(queue: seq<bool>, f: bool, k: int, it: int, ghost fl: seq<bool>) returns (next: seq<bool>, dense: bool)
    requires queue == fl[QueueStart(|fl|, k)..] && (k >= 1 ==> |queue| < k) && !Dense(fl, k, it)
    ensures dense ==> Dense(fl + [f], k, it)
    ensures !dense ==> next == (fl + [f])[QueueStart(|fl| + 1, k)..] && (k >= 1 ==> |next| < k) && !Dense(fl + [f], k, it)
  {
    QueueStep(fl, f, queue, k, it);
    next, dense := queue + [f], false;
    if |next| == k {
      if CountTrue(next) >= it {
        return next, true;
      }
      next := next[1..];
    }
  }

  /**
   * The thresholds of class `l`: those the configuration file gives it (`init_config`, run
   * when the module is loaded), or the class defaults.
   */
  function ThresholdsOf(config: map<Label, Thresholds>, l: Label): (t: Thresholds)
    ensures l !in config ==> t == DEFAULTS
  {
    if l in config then config[l] else DEFAULTS
  }

  /** Every class's chunk length is positive, as `range` needs a non-zero step. */
  predicate Configured(config: map<Label, Thresholds>)
  {
    forall l: Label :: ThresholdsOf(config, l).frameNumber > 0
  }

  /** The verdict of class `l`'s `detect` on detection sequence `s`. */
  predicate Passes(config: map<Label, Thresholds>, l: Label, s: seq<int>)
    requires ThresholdsOf(config, l).frameNumber > 0
  {
    var t := ThresholdsOf(config, l);
    Dense(Flags(s, t.frameNumber, t.frameThreshold), t.intervalNum, t.intervalThreshold)
  }

  /** The `detect` class method of class `l`: `exist_detect` with that class's thresholds. */
  method Detect(config: map<Label, Thresholds>, l: Label, s: seq<int>) returns (exist: bool)
    requires ThresholdsOf(config, l).frameNumber > 0
    ensures var t := ThresholdsOf(config, l);
      exist <==> Dense(Flags(s, t.frameNumber, t.frameThreshold), t.intervalNum, t.intervalThreshold)
  {
    var t := ThresholdsOf(config, l);
    exist := ExistDetect(s, t.frameNumber, t.intervalNum, t.frameThreshold, t.intervalThreshold);
  }

  /** Flag `j` from frame `i` on is the test of the chunk of `n` frames that starts at frame `p = i + j * n`. */
  lemma {:induction false} FlagsChunk(s: seq<int>, n: int, ft: int, i: int, j: nat, p: int)
    requires n > 0 && 0 <= i && p == i + j * n && j < |FlagsAt(s, n, ft, i)|
    ensures p < |s|
    ensures FlagsAt(s, n, ft, i)[j] <==> Sum(s[p..Min(p + n, |s|)]) >= ft
    decreases |s| - i
  {
    if j > 0 {
      assert (j - 1) * n == j * n - n;
      FlagsChunk(s, n, ft, i + n, j - 1, p);
    }
  }

  /** There are `ceil((|s| - i) / n)` flags from frame `i` on: the last chunk starts before the end and reaches it. */
  lemma {:induction false} FlagsLength(s: seq<int>, n: int, ft: int, i: int)
    requires n > 0 && 0 <= i < |s|
    ensures (|FlagsAt(s, n, ft, i)| - 1) * n < |s| - i <= |FlagsAt(s, n, ft, i)| * n
    decreases |s| - i
  {
    var c := |FlagsAt(s, n, ft, i + n)|;
    assert |FlagsAt(s, n, ft, i)| == c + 1;
    if i + n < |s| {
      FlagsLength(s, n, ft, i + n);
      assert (c + 1) * n == c * n + n;
      assert (c - 1) * n + n == c * n;
    } else {
      assert c == 0;
    }
  }

  lemma MulCancel(a: int, b: int, n: int)
    requires n > 0 && a * n < b * n
    ensures a < b
  {
    assert a * n - b * n == (a - b) * n;
  }

  /** Fewer than `k` chunks can never be dense: a sequence of at most `n * (k - 1)` frames is rejected. */
  lemma ShortRejected(s: seq<int>, n: int, k: int, ft: int, it: int)
    requires n > 0 && k >= 1 && |s| <= n * (k - 1)
    ensures !Dense(Flags(s, n, ft), k, it)
  {
    var r := Flags(s, n, ft);
    if s != [] {
      FlagsLength(s, n, ft, 0);
      assert n * (k - 1) == (k - 1) * n;
      MulCancel(|r| - 1, k - 1, n);
      assert |r| < k;
    }
  }

  /** With the default thresholds any sequence of at most 40 frames, the empty one included, is rejected. */
  lemma DefaultsRejectShort(s: seq<int>)
    requires |s| <= 40
    ensures !Dense(Flags(s, DEFAULTS.frameNumber, DEFAULTS.frameThreshold), DEFAULTS.intervalNum, DEFAULTS.intervalThreshold)
  {
    ShortRejected(s, 10, 5, 6, 3);
  }

  /** Lowering the window threshold never rejects a sequence that was accepted. */
  lemma DenseMonotone(flags: seq<bool>, k: int, it: int, it': int)
    requires it' <= it && Dense(flags, k, it)
    ensures Dense(flags, k, it')
  {
    var e :| k <= e <= |flags| && WindowCount(flags, e, k) >= it;
  }
}
