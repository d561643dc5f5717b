/**
 * The circular delay line of the flanger, as values: a fixed-capacity ring of
 * samples with a write cursor, the fractional delay length taken from the LFO,
 * and the two read indices behind the cursor.
 *
 * The source computes a read index as `(writeLoc - k + maxDelay) % maxDelay`
 * with C++'s truncating `%` (ReadLocAsWritten, ReadLoc2AsWritten). That index
 * is negative when `k > writeLoc + maxDelay`, which the second tap reaches at
 * `delay == maxDelay` and `writeLoc == 0`. Tap is the wrap-around the code
 * intends (Euclidean, always inside the ring); it coincides with the source's
 * index whenever that index is in bounds (TapsAgreeWithSource).
 */
module DelayLine {
  import CppArith

  /** The delay line contents and its write cursor. */
  datatype Ring = Ring(line: seq<real>, writeLoc: int)

  /** The cursor invariant: a non-empty ring whose cursor points into it. */
  predicate Valid(r: Ring)
  {
    |r.line| > 0 && 0 <= r.writeLoc < |r.line|
  }

  // ---------------------------------------------------------------------
  // Writing.
  // ---------------------------------------------------------------------

  /**
   * Store `s` at the cursor, then advance the cursor by one with C++'s `%`:
   * exactly one slot changes, and the cursor stays inside the ring.
   */
  function Write(r: Ring, s: real): (r': Ring)
    requires Valid(r)
    ensures Valid(r') && |r'.line| == |r.line|
    ensures r'.line[r.writeLoc] == s
    ensures forall i :: 0 <= i < |r.line| && i != r.writeLoc ==> r'.line[i] == r.line[i]
    ensures r'.writeLoc == (r.writeLoc + 1) % |r.line|
  {
    Ring(r.line[r.writeLoc := s], CppArith.Rem(r.writeLoc + 1, |r.line|))
  }

  /** Write the samples `ss` one after the other. */
  function WriteAll(r: Ring, ss: seq<real>): (r': Ring)
    requires Valid(r)
    ensures Valid(r') && |r'.line| == |r.line|
    ensures r'.writeLoc == (r.writeLoc + |ss|) % |r.line|
    decreases |ss|
  {
    if ss == [] then
      r
    else
      var n, m := |ss|, |r.line|;
      var prev := WriteAll(r, ss[..n - 1]);
      assert prev.writeLoc == (r.writeLoc + (n - 1)) % m;
      CppArith.ModAdd(r.writeLoc + (n - 1), 1, m);
      assert (prev.writeLoc + 1) % m == (r.writeLoc + n) % m;
      Write(prev, ss[n - 1])
  }

  /**
   * The ring remembers the last `|r.line|` samples written: the slot `j`
   * places behind the last one written holds the `j`-th most recent sample,
   * however often the cursor has wrapped.
   */
  lemma {:induction false} WriteAllHistory(r: Ring, ss: seq<real>, j: int)
    requires Valid(r) && 0 <= j < |ss| && j < |r.line|
    ensures WriteAll(r, ss).line[(r.writeLoc + |ss| - 1 - j) % |r.line|] == ss[|ss| - 1 - j]
  {
    var n, m := |ss|, |r.line|;
    var prev := WriteAll(r, ss[..n - 1]);
    assert WriteAll(r, ss) == Write(prev, ss[n - 1]);
    assert prev.writeLoc == (r.writeLoc + n - 1) % m;
    if j > 0 {
      CppArith.ModDistinct(r.writeLoc + n - 1, j, m);
      WriteAllHistory(r, ss[..n - 1], j - 1);
      assert ss[..n - 1][n - 2 - (j - 1)] == ss[n - 1 - j];
    }
  }

  /**
   * Reading back: the tap `k` slots behind the last sample written returns
   * the `k`-th most recent sample.
   */
  lemma {:induction false} TapReadsHistory(r: Ring, ss: seq<real>, k: int)
    requires Valid(r) && 0 <= k < |ss| && k < |r.line|
    ensures var m := |r.line|;
      WriteAll(r, ss).line[Tap((r.writeLoc + |ss| - 1) % m, k, m)] == ss[|ss| - 1 - k]
  {
    WriteAllHistory(r, ss, k);
    TapOfWrapped(r.writeLoc + |ss| - 1, k, |r.line|);
  }

  /**
   * The same, seen from the ring just before the last write: the tap `k`
   * slots behind that write's cursor reads the `k`-th most recent sample.
   */
  lemma {:induction false} TapAfterWrite(r: Ring, before: Ring, ss: seq<real>, k: int)
    requires Valid(r) && 0 <= k < |ss| && k < |r.line|
    requires before == WriteAll(r, ss[..|ss| - 1])
    ensures Write(before, ss[|ss| - 1]).line[Tap(before.writeLoc, k, |r.line|)] == ss[|ss| - 1 - k]
  {
    assert WriteAll(r, ss) == Write(before, ss[|ss| - 1]);
    TapReadsHistory(r, ss, k);
  }

  // ---------------------------------------------------------------------
  // Reading.
  // ---------------------------------------------------------------------

  /**
   * The delay in samples for LFO depth `depth` and modulation value `mod`
   * (the LFO's `0.5 * (1 + sin(phase))`) on a line of `m` samples.
   */
  function DelayLength(depth: real, m: int, mod: real): (d: real)
    ensures depth == 0.0 ==> d == 0.0
  {
    depth * m as real * mod
  }

  /** Scaling by a factor in `[0, 1]` stays between 0 and the value scaled. */
  lemma ScaleWithin(a: real, b: real)
    requires 0.0 <= a <= 1.0 && 0.0 <= b
    ensures 0.0 <= a * b <= b
  {
  }

  /**
   * With depth and modulation in `[0, 1]` the delay lies in `[0, m]`; it
   * reaches `m` itself at full depth and full modulation.
   */
  lemma {:induction false} DelayLengthWithinLine(depth: real, m: int, mod: real)
    ensures 0.0 <= depth <= 1.0 && 0.0 <= mod <= 1.0 && m >= 0 ==>
      0.0 <= DelayLength(depth, m, mod) <= m as real
  {
    if 0.0 <= depth <= 1.0 && 0.0 <= mod <= 1.0 && m >= 0 {
      var scale := depth * m as real;
      ScaleWithin(depth, m as real);
      ScaleWithin(mod, scale);
      assert DelayLength(depth, m, mod) == mod * scale;
    }
  }

  /**
   * The first read index as the source computes it, C++ `%` included: it is
   * congruent to `w - floor(delay)`, and never positive when the dividend
   * `w - floor(delay) + m` is negative.
   */
  function ReadLocAsWritten(w: int, delay: real, m: int): (i: int)
    requires m > 0
    ensures -m < i < m
    ensures (w - delay.Floor - i) % m == 0
    ensures w - delay.Floor + m < 0 ==> i <= 0
  {
    var r := CppArith.Rem(w - delay.Floor + m, m);
    BackOneTurn(w - delay.Floor + m - r, m);
    r
  }

  /**
   * The second read index (one sample further back) as the source computes
   * it: congruent to `w - floor(delay) - 1`, and never positive when the
   * dividend `w - floor(delay) - 1 + m` is negative.
   */
  function ReadLoc2AsWritten(w: int, delay: real, m: int): (i: int)
    requires m > 0
    ensures -m < i < m
    ensures (w - delay.Floor - 1 - i) % m == 0
    ensures w - delay.Floor - 1 + m < 0 ==> i <= 0
  {
    FloorPlusOne(delay);
    var r := CppArith.Rem(w - (delay + 1.0).Floor + m, m);
    BackOneTurn(w - (delay + 1.0).Floor + m - r, m);
    r
  }

  /** Taking one whole turn off a multiple of `m` leaves a multiple of `m`. */
  lemma {:induction false} BackOneTurn(a: int, m: int)
    requires m > 0 && a % m == 0
    ensures (a - m) % m == 0
  {
    CppArith.ModAdd(a, -m, m);
    CppArith.ModUnique(-m, m, -1, 0);
  }

  /** The slot `k` samples behind slot `w`, wrapped into a ring of `m` slots. */
  function Tap(w: int, k: int, m: int): (i: int)
    requires m > 0
    ensures 0 <= i < m
    ensures (w - k - i) % m == 0
  {
    CppArith.ModAdd(w - k, -((w - k) % m), m);
    (w - k) % m
  }

  /** Going `k` back from a wrapped position is going `k` back from the unwrapped one. */
  lemma {:induction false} TapOfWrapped(a: int, k: int, m: int)
    requires m > 0
    ensures Tap(a % m, k, m) == (a - k) % m
  {
    CppArith.ModAdd(a, -k, m);
  }

  /** Adding one to a real adds one to its floor. */
  lemma FloorPlusOne(d: real)
    ensures (d + 1.0).Floor == d.Floor + 1
  {
  }

  /** The first tap is in bounds for every integer delay from 0 to `m`. */
  lemma FirstTapInRange(w: int, delay: real, m: int)
    requires 0 <= w < m && 0 <= delay.Floor <= m
    ensures 0 <= ReadLocAsWritten(w, delay, m) < m
  {
  }

  /**
   * For integer delays from 0 to `m` the second tap is in bounds exactly
   * when `floor(delay) + 1 <= m + w`: it fails only for `delay`'s floor
   * equal to `m` while the cursor is at 0.
   */
  lemma {:induction false} SecondTapInRangeIff(w: int, delay: real, m: int)
    requires 0 <= w < m && 1 < m && 0 <= delay.Floor <= m
    ensures 0 <= ReadLoc2AsWritten(w, delay, m) < m <==> delay.Floor + 1 <= m + w
    ensures 0 <= ReadLoc2AsWritten(w, delay, m) < m <==> !(delay.Floor == m && w == 0)
  {
    FloorPlusOne(delay);
    if delay.Floor + 1 > m + w {
      CppArith.RemOfSmallNegative(w - delay.Floor - 1 + m, m);
    }
  }

  /**
   * The out-of-bounds read: on any line longer than one sample, the full
   * delay `m` (LFO depth 1 at the sine's peak) with the cursor at 0 makes the
   * second read index -1.
   */
  lemma {:induction false} SecondTapOutOfBounds(m: int)
    requires m > 1
    ensures ReadLoc2AsWritten(0, DelayLength(1.0, m, 1.0), m) == -1
  {
    assert DelayLength(1.0, m, 1.0) == m as real;
    FloorPlusOne(m as real);
    CppArith.RemOfSmallNegative(-1, m);
  }

  /**
   * Wherever the source's second index is in bounds, both of its indices
   * are the wrapped taps at `floor(delay)` and `floor(delay) + 1`.
   */
  lemma {:induction false} TapsAgreeWithSource(w: int, delay: real, m: int)
    requires m > 0 && 0 <= w - (delay.Floor + 1) + m
    ensures ReadLocAsWritten(w, delay, m) == Tap(w, delay.Floor, m)
    ensures ReadLoc2AsWritten(w, delay, m) == Tap(w, delay.Floor + 1, m)
  {
    FloorPlusOne(delay);
    var k := delay.Floor;
    CppArith.RemOfNonnegative(w - k + m, m);
    CppArith.RemOfNonnegative(w - (k + 1) + m, m);
    CppArith.ModAdd(m, w - k, m);
    CppArith.ModAdd(m, w - (k + 1), m);
  }

  /**
   * A delay shorter than the line (LFO depth below 1, or the sine off its
   * peak) keeps both of the source's indices in bounds.
   */
  lemma {:induction false} ShortDelayInRange(w: int, delay: real, m: int)
    requires 0 <= w < m && 0.0 <= delay < m as real
    ensures 0 <= ReadLocAsWritten(w, delay, m) < m
    ensures 0 <= ReadLoc2AsWritten(w, delay, m) < m
    ensures ReadLocAsWritten(w, delay, m) == Tap(w, delay.Floor, m)
    ensures ReadLoc2AsWritten(w, delay, m) == Tap(w, delay.Floor + 1, m)
  {
    assert delay.Floor <= m - 1;
    TapsAgreeWithSource(w, delay, m);
  }

  /** The second tap sits one slot before the first, wrapping at 0. */
  lemma {:induction false} SecondTapOneBehind(w: int, k: int, m: int)
    requires m > 0
    ensures Tap(w, k + 1, m) == (Tap(w, k, m) - 1) % m
  {
    CppArith.ModAdd(w - k, -1, m);
  }

  /**
   * When both of the source's indices are in bounds, the second is the
   * first minus one, modulo the line length.
   */
  lemma {:induction false} SourceTapsAdjacent(w: int, delay: real, m: int)
    requires m > 0 && 0 <= w - (delay.Floor + 1) + m
    ensures ReadLoc2AsWritten(w, delay, m) == (ReadLocAsWritten(w, delay, m) - 1) % m
  {
    TapsAgreeWithSource(w, delay, m);
    SecondTapOneBehind(w, delay.Floor, m);
  }
}
