/** The frame rate history: a ring of the last 256 rates, with statistics over the most recent
    quarter of a second. */
module FpsHistory {
  import opened Helpers

  const WINDOW: real := 0.25

  function Retained(n: nat): nat { if n < RING_SIZE then n else RING_SIZE }

  /** The sum, the time, the least and the greatest of the last `n` rates of a history. */
  function Total(h: seq<real>, n: nat): real
    requires n <= |h|
  {
    if n == 0 then 0.0 else Total(h, n - 1) + h[|h| - n]
  }

  function Time(h: seq<real>, n: nat): real
    requires n <= |h| && Positive(h)
  {
    if n == 0 then 0.0 else Time(h, n - 1) + 1.0 / h[|h| - n]
  }

  function Least(h: seq<real>, n: nat): real
    requires 0 < n <= |h|
  {
    if n == 1 then h[|h| - 1] else Min(Least(h, n - 1), h[|h| - n])
  }

  function Greatest(h: seq<real>, n: nat): real
    requires 0 < n <= |h|
  {
    if n == 1 then h[|h| - 1] else Max(Greatest(h, n - 1), h[|h| - n])
  }

  predicate Positive(h: seq<real>) {
    forall k | 0 <= k < |h| :: h[k] > 0.0
  }

  /** `n` rates are the shortest most recent run that lasts a quarter of a second, or all that
      are retained if none does. */
  ghost predicate IsWindow(h: seq<real>, n: nat) {
    && Positive(h) && 0 < n <= Retained(|h|)
    && (forall k | 0 <= k < n :: Time(h, k) < WINDOW)
    && (Time(h, n) >= WINDOW || n == Retained(|h|))
  }

  /** There is only one such run. */
  lemma WindowIsUnique(h: seq<real>, m: nat, n: nat)
    requires IsWindow(h, m) && IsWindow(h, n)
    ensures m == n
  {
  }

  function Times(n: nat, x: real): real { n as real * x }

  lemma TimesNext(n: nat, x: real)
    ensures Times(n + 1, x) == Times(n, x) + x && Times(1, x) == x
  {
  }

  lemma TimesIs(n: nat, x: real, y: real)
    ensures Times(n, x) == n as real * x && Times(n, y) == n as real * y
  {
  }

  lemma TimesMonotone(n: nat, a: real, b: real)
    requires a <= b
    ensures Times(n, a) <= Times(n, b)
  {
  }

  lemma {:induction false} SumBetween(h: seq<real>, n: nat)
    requires 0 < n <= |h|
    ensures Times(n, Least(h, n)) <= Total(h, n) <= Times(n, Greatest(h, n))
  {
    hide Times;
    TimesNext(n - 1, Least(h, n));
    TimesNext(n - 1, Greatest(h, n));
    if n > 1 {
      SumBetween(h, n - 1);
      TimesMonotone(n - 1, Least(h, n), Least(h, n - 1));
      TimesMonotone(n - 1, Greatest(h, n - 1), Greatest(h, n));
    }
  }

  /** The least and the greatest are rates of the run. */
  lemma {:induction false} ExtremesAttained(h: seq<real>, n: nat)
    requires 0 < n <= |h|
    ensures exists k :: |h| - n <= k < |h| && h[k] == Least(h, n)
    ensures exists k :: |h| - n <= k < |h| && h[k] == Greatest(h, n)
  {
    if n > 1 {
      ExtremesAttained(h, n - 1);
      assert h[|h| - n] == h[|h| - n];
    } else {
      assert h[|h| - 1] == Least(h, n) == Greatest(h, n);
    }
  }

  /** A newer rate adds its own share to the sum and the time of what went before. */
  lemma {:induction false} NewestRate(h: seq<real>, rate: real, n: nat)
    requires n <= |h| && Positive(h) && rate > 0.0
    ensures Total(h + [rate], n + 1) == rate + Total(h, n)
    ensures Time(h + [rate], n + 1) == 1.0 / rate + Time(h, n)
  {
    if n > 0 {
      NewestRate(h, rate, n - 1);
      assert (h + [rate])[|h| - n] == h[|h| - n];
    }
  }

  lemma {:induction false} RatesBetween(h: seq<real>, n: nat)
    requires 0 < n <= |h|
    ensures forall k | |h| - n <= k < |h| :: Least(h, n) <= h[k] <= Greatest(h, n)
  {
    if n > 1 {
      RatesBetween(h, n - 1);
    }
  }

  /** The average of a run lies between its least and its greatest rate, and so does every rate
      of the run. */
  lemma AverageBetween(h: seq<real>, n: nat)
    requires 0 < n <= |h|
    ensures Least(h, n) <= Total(h, n) / n as real <= Greatest(h, n)
    ensures forall k | |h| - n <= k < |h| :: Least(h, n) <= h[k] <= Greatest(h, n)
  {
    hide Least, Greatest, Total, Times;
    SumBetween(h, n);
    TimesIs(n, Least(h, n), Greatest(h, n));
    RatesBetween(h, n);
    Quotient(Least(h, n), Total(h, n), Greatest(h, n), n as real);
  }

  lemma Quotient(lo: real, t: real, hi: real, n: real)
    requires n > 0.0 && n * lo <= t <= n * hi
    ensures lo <= t / n <= hi
  {
  }

  /** A rate of `freq` ticks over `ticks` is one over the seconds they take. */
  lemma RateAndTime(freq: nat, ticks: int)
    requires freq > 0 && ticks > 0
    ensures var fps := freq as real / ticks as real;
            fps > 0.0 && 1.0 / fps == ticks as real / freq as real
  {
  }

  lemma NoneYet(h: seq<real>)
    requires Positive(h)
    ensures Total(h, 0) == 0.0 && Time(h, 0) == 0.0
  {
  }

  lemma OneMoreRate(h: seq<real>, n: nat)
    requires Positive(h) && n < |h|
    ensures var r := h[|h| - 1 - n];
            && Total(h, n + 1) == Total(h, n) + r
            && Time(h, n + 1) == Time(h, n) + 1.0 / r
            && Least(h, n + 1) == (if n == 0 then r else Min(Least(h, n), r))
            && Greatest(h, n + 1) == (if n == 0 then r else Max(Greatest(h, n), r))
  {
  }

  lemma Remainder(x: int, q: int, r: nat)
    requires x == 256 * q + r && r < 256
    ensures x % RING_SIZE == r
  {
  }

  lemma StepBack(n: nat, idx: nat)
    requires idx < Retained(n)
    ensures (n % RING_SIZE + RING_SIZE - 1 - idx) % RING_SIZE == (n - 1 - idx) % RING_SIZE
  {
    var (q, r) := (n / 256, n % 256);
    assert n == 256 * q + r;
    if r < idx + 1 {
      Remainder(n - 1 - idx, q - 1, r + 255 - idx);
      Remainder(r + 255 - idx, 0, r + 255 - idx);
    } else {
      Remainder(n - 1 - idx, q, r - 1 - idx);
      Remainder(r + 255 - idx, 1, r - 1 - idx);
    }
  }

  /** The ring holds the end of a history, the newest rate before the next free slot. */
  ghost predicate RingHolds(ring: seq<real>, h: seq<real>) {
    |ring| == RING_SIZE && forall k | |h| - Retained(|h|) <= k < |h| :: ring[k % RING_SIZE] == h[k]
  }

  lemma RingExtended(ring: seq<real>, h: seq<real>, rate: real)
    requires RingHolds(ring, h)
    ensures RingHolds(ring[|h| % RING_SIZE := rate], h + [rate])
    ensures (|h| % RING_SIZE + 1) % RING_SIZE == |h + [rate]| % RING_SIZE
  {
  }

  class Recorder {
    const fps: array<real>
    const freq: nat
    var fpsIndex: nat
    var last: int
    var totalFrame: nat
    var totalTime: real
    var average: real
    var least: real
    var greatest: real
    ghost const start: int
    ghost var history: seq<real>

    /** The ring holds the end of the full history. */
    ghost predicate Valid()
      reads this, fps
    {
      && fps.Length == RING_SIZE && freq > 0
      && totalFrame == |history| && fpsIndex == |history| % RING_SIZE
      && Positive(history)
      && RingHolds(fps[..], history)
      && totalTime == (last - start) as real / freq as real == Time(history, |history|)
    }

    constructor (freq: nat, now: int)
      requires freq > 0
      ensures Valid() && history == [] && last == now == start && this.freq == freq && fresh(fps)
    {
      fps := new real[RING_SIZE](_ => 0.0);
      this.freq := freq;
      start := now;
      fpsIndex, last, totalFrame, totalTime, history := 0, now, 0, 0.0, [];
      average, least, greatest := 0.0, 0.0, 0.0;
    }

    /** The rate of the frame `idx` frames ago. */
    function IndexFPS(idx: nat): (r: real)
      requires Valid() && idx < Retained(|history|)
      reads this, fps
      ensures r == history[|history| - 1 - idx]
    {
      StepBack(|history|, idx);
      assert fps[(|history| - 1 - idx) % RING_SIZE] == fps[..][(|history| - 1 - idx) % RING_SIZE];
      fps[(fpsIndex + RING_SIZE - 1 - idx) % RING_SIZE]
    }

    /** The new rate goes into the ring. */
    method Record(curr: int) returns (seconds: real)
      requires Valid() && curr > last
      modifies this, fps
      ensures Valid() && last == curr && history == old(history) + [freq as real / (curr - old(last)) as real]
      ensures seconds == (curr - old(last)) as real / freq as real
    {
      hide RingHolds;
      RateAndTime(freq, curr - last);
      var rate := freq as real / (curr - last) as real;
      seconds := 1.0 / rate;
      totalFrame := totalFrame + 1;
      totalTime := totalTime + seconds;
      RingExtended(fps[..], history, rate);
      fps[fpsIndex] := rate;
      assert fps[..] == old(fps[..])[fpsIndex := rate];
      fpsIndex := (fpsIndex + 1) % RING_SIZE;
      history := history + [rate];
      SumOfQuotients(last - start, curr - last, freq);
      NewestRate(old(history), rate, |old(history)|);
      last := curr;
    }

    lemma SumOfQuotients(a: int, b: int, c: nat)
      requires c > 0
      ensures a as real / c as real + b as real / c as real == (a + b) as real / c as real
    {
    }

    /** udateData.  The largest and the smallest double stand in for rates not seen yet, above
        and below every rate; here the first rate takes their place. */
    method UpdateData(curr: int) returns (seconds: real, ghost n: nat)
      requires Valid() && curr > last
      modifies this, fps
      ensures Valid() && last == curr && seconds == (curr - old(last)) as real / freq as real
      ensures history == old(history) + [freq as real / (curr - old(last)) as real]
      ensures IsWindow(history, n) && 0 < n <= |history| && n <= 256
      ensures Time(history, n) >= 0.25 || n == |history| || n == 256
      ensures forall k | 0 <= k < n :: Time(history, k) < 0.25
      ensures average == Total(history, n) / n as real && least == Least(history, n) && greatest == Greatest(history, n)
      ensures least <= average <= greatest
    {
      seconds := Record(curr);
      n := Statistics();
    }

    /** The statistics over the window. */
    method Statistics() returns (ghost n: nat)
      requires Valid() && history != []
      modifies this`average, this`least, this`greatest
      ensures Valid()
      ensures IsWindow(history, n) && 0 < n <= |history| && n <= 256
      ensures Time(history, n) >= 0.25 || n == |history| || n == 256
      ensures forall k | 0 <= k < n :: Time(history, k) < 0.25
      ensures average == Total(history, n) / n as real && least == Least(history, n) && greatest == Greatest(history, n)
      ensures least <= average <= greatest
    {
      hide Total, Time, Least, Greatest;
      NoneYet(history);
      var retained := if totalFrame < RING_SIZE then totalFrame else RING_SIZE;
      var totalFps, totalSeconds, count := 0.0, 0.0, 0;
      var lo, hi := 0.0, 0.0;
      while count < retained
        invariant count <= retained == Retained(|history|)
        invariant totalFps == Total(history, count) && totalSeconds == Time(history, count)
        invariant count > 0 ==> lo == Least(history, count) && hi == Greatest(history, count)
        invariant forall k | 0 <= k <= count :: Time(history, k) < WINDOW
      {
        var rate := IndexFPS(count);
        OneMoreRate(history, count);
        totalFps := totalFps + rate;
        lo := if count == 0 then rate else Min(lo, rate);
        hi := if count == 0 then rate else Max(hi, rate);
        totalSeconds := totalSeconds + 1.0 / rate;
        count := count + 1;
        if totalSeconds >= WINDOW {
          break;
        }
      }
      n := count;
      AverageBetween(history, count);
      SetStatistics(totalFps / count as real, lo, hi);
    }

    method SetStatistics(average: real, least: real, greatest: real)
      requires Valid()
      modifies this`average, this`least, this`greatest
      ensures Valid() && this.average == average && this.least == least && this.greatest == greatest
    {
      this.average, this.least, this.greatest := average, least, greatest;
    }
  }
}
