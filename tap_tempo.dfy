/**
  The arithmetic behind Tempo: the BPM bounds that the BPM parameter enforces,
  the conversion from a beat period in milliseconds to a stored BPM, and the
  tap accumulator (first tap, last tap, tap count) that tap() and tap(false)
  update. Everything here is a pure function of its inputs; the Tempo class
  in module Lx is proved against these definitions.
 */
module TapTempo {

  /** Milliseconds in a minute (Tempo.MINUTE). */
  const MINUTE: real := 60000.0
  const DEFAULT_BPM: real := 120.0
  const MIN_BPM: real := 20.0
  const MAX_BPM: real := 240.0
  /** A tap more than this many milliseconds after the previous one starts a new run. */
  const STALE_MS: int := 2000

  /**
    What the BPM parameter stores when asked to hold `v`: the value pinned to
    [MIN_BPM, MAX_BPM]. An out-of-range request is never rejected.
   */
  function Clamp(v: real): (r: real)
    ensures MIN_BPM <= r <= MAX_BPM
    ensures r == v <==> MIN_BPM <= v <= MAX_BPM
    ensures r != v ==> (r == MIN_BPM && v < MIN_BPM) || (r == MAX_BPM && v > MAX_BPM)
  {
    if v < MIN_BPM then MIN_BPM else if v > MAX_BPM then MAX_BPM else v
  }

  lemma ClampIdempotent(v: real)
    ensures Clamp(Clamp(v)) == Clamp(v)
  {
  }

  lemma ClampMonotone(v: real, w: real)
    requires v <= w
    ensures Clamp(v) <= Clamp(w)
  {
  }

  /** Every storable BPM gives a period between 250 and 3000 ms, so the oscillator never sees a zero period. */
  lemma PeriodBounds(bpm: real)
    requires MIN_BPM <= bpm <= MAX_BPM
    ensures 250.0 <= MINUTE / bpm <= 3000.0
    ensures (MINUTE / bpm) * bpm == MINUTE
  {
  }

  /**
    The BPM stored by setBpm(MINUTE / beatPeriod). A zero period is the
    division hazard of the source: Java evaluates MINUTE / 0.0 to +Infinity,
    which the clamp pins to MAX_BPM; the guard below states that outcome.
   */
  function BpmForPeriod(beatPeriod: real): (r: real)
    ensures MIN_BPM <= r <= MAX_BPM
    ensures beatPeriod == 0.0 ==> r == MAX_BPM
    ensures beatPeriod < 0.0 ==> r == MIN_BPM
    ensures beatPeriod > 0.0 && MIN_BPM <= MINUTE / beatPeriod <= MAX_BPM ==> r * beatPeriod == MINUTE
    ensures beatPeriod > 0.0 && MINUTE / beatPeriod > MAX_BPM ==> r == MAX_BPM
    ensures beatPeriod > 0.0 && MINUTE / beatPeriod < MIN_BPM ==> r == MIN_BPM
  {
    if beatPeriod == 0.0 then MAX_BPM
    else
      assert beatPeriod < 0.0 ==> MINUTE / beatPeriod < 0.0 by {
        if beatPeriod < 0.0 {
          assert (MINUTE / beatPeriod) * beatPeriod == MINUTE;
        }
      }
      Clamp(MINUTE / beatPeriod)
  }

  /** The tap accumulator: firstTap, lastTap and tapCount of Tempo. */
  datatype TapState = TapState(first: int, last: int, count: nat)

  /** The accumulator before any tap: all three fields start at 0. */
  const NO_TAPS: TapState := TapState(0, 0, 0)

  /**
    The accumulator after tap() at time `now`: a tap more than STALE_MS after
    the previous one restarts the run at `now`; any other tap extends the run.
   */
  function SmoothTap(t: TapState, now: int): (r: TapState)
    ensures r.last == now && 1 <= r.count <= t.count + 1
    ensures r.count == 1 && r.first == now <== now - t.last > STALE_MS
    ensures r.first == t.first && r.count == t.count + 1 <== now - t.last <= STALE_MS
  {
    var t' := if now - t.last > STALE_MS then TapState(now, t.last, 0) else t;
    TapState(t'.first, now, t'.count + 1)
  }

  /** A stale tap forgets everything before it: the result does not depend on the earlier run. */
  lemma StaleTapForgetsHistory(t: TapState, u: TapState, now: int)
    requires now - t.last > STALE_MS && now - u.last > STALE_MS
    ensures SmoothTap(t, now) == SmoothTap(u, now) == TapState(now, now, 1)
  {
  }

  /** The average interval of a run: the time it spans divided by the number of gaps. */
  function AverageInterval(t: TapState): (r: real)
    requires t.count > 1
    ensures r * (t.count - 1) as real == (t.last - t.first) as real
    ensures r == 0.0 <==> t.last == t.first
  {
    (t.last - t.first) as real / (t.count - 1) as real
  }

  /**
    The BPM after a smoothing tap has left the accumulator at `t`, from the
    BPM `bpm` before it: only a run of four or more taps sets the tempo, and
    then `count - 1` beats at the new tempo span the run exactly.
   */
  function SmoothedBpm(t: TapState, bpm: real): (r: real)
    ensures t.count <= 3 ==> r == bpm
    ensures t.count > 3 ==> MIN_BPM <= r <= MAX_BPM && r == BpmForPeriod(AverageInterval(t))
    ensures t.count > 3 && t.last > t.first && MIN_BPM <= MINUTE / AverageInterval(t) <= MAX_BPM ==>
              r * (t.last - t.first) as real == MINUTE * (t.count - 1) as real
  {
    if t.count > 3 then
      var r := BpmForPeriod(AverageInterval(t));
      assert t.last > t.first ==> AverageInterval(t) > 0.0;
      r
    else bpm
  }

  /** The accumulator after tap(false): the previous tap becomes the first, `now` the last; the count is untouched. */
  function ExternalTap(t: TapState, now: int): (r: TapState)
    ensures r.first == t.last && r.last == now && r.count == t.count
  {
    TapState(t.last, now, t.count)
  }

  /**
    The BPM after tap(false) at `now`: the tempo whose beat is the single
    interval since the previous tap, pinned to the bounds.
   */
  function ExternalBpm(prevTap: int, now: int): (r: real)
    ensures MIN_BPM <= r <= MAX_BPM
    ensures now > prevTap && MIN_BPM <= MINUTE / (now - prevTap) as real <= MAX_BPM ==>
              r * (now - prevTap) as real == MINUTE
    ensures r == BpmForPeriod((now - prevTap) as real)
  {
    BpmForPeriod((now - prevTap) as real)
  }

  /** Two taps in the same millisecond make a zero interval, which pins the tempo to MAX_BPM. */
  lemma SameMillisecondPinsToMax(t: TapState, now: int)
    requires t.last == now
    ensures ExternalBpm(t.last, now) == MAX_BPM
  {
  }

  /** A run of four or more smoothing taps whose first and last share a millisecond pins the tempo to MAX_BPM. */
  lemma SameMillisecondRunPinsToMax(t: TapState, bpm: real)
    requires t.count > 3 && t.first == t.last
    ensures SmoothedBpm(t, bpm) == MAX_BPM
  {
  }

  /** Taps faster than four per second average to a beat under 250 ms, which pins the tempo to MAX_BPM. */
  lemma FastRunPinsToMax(t: TapState, bpm: real)
    requires t.count > 3 && 0 < t.last - t.first < 250 * (t.count - 1)
    ensures SmoothedBpm(t, bpm) == MAX_BPM
  {
    var n := (t.count - 1) as real;
    var d := (t.last - t.first) as real;
    assert d < 250.0 * n;
    QuotientBelow(d, n, 250.0);
    ShortPeriodPinsToMax(AverageInterval(t));
  }

  /** A positive beat period under 250 ms asks for more than MAX_BPM. */
  lemma ShortPeriodPinsToMax(p: real)
    requires 0.0 < p < 250.0
    ensures BpmForPeriod(p) == MAX_BPM
  {
    var q := MINUTE / p;
    assert q * p == MINUTE;
  }

  lemma QuotientBelow(d: real, n: real, c: real)
    requires n > 0.0 && d < c * n
    ensures d / n < c
  {
    var q := d / n;
    assert q * n == d;
  }

  /**
    The first tap(false) measures from the initial lastTap of 0, so the interval
    is the clock value itself; any clock reading of 3000 ms or more pins the tempo to MIN_BPM.
   */
  lemma FirstExternalTapPinsToMin(now: int)
    requires now >= 3000
    ensures ExternalBpm(ExternalTap(NO_TAPS, now).first, now) == MIN_BPM
  {
  }

  /**
    The accumulator and BPM after a sequence of smoothing taps at the given
    times, starting from the accumulator `t` and the BPM `bpm`.
   */
  function Replay(t: TapState, bpm: real, times: seq<int>): (r: (TapState, real))
    ensures |times| > 0 ==> r.0.last == times[|times| - 1]
  {
    if times == [] then (t, bpm)
    else
      var prev := Replay(t, bpm, times[..|times| - 1]);
      var t' := SmoothTap(prev.0, times[|times| - 1]);
      (t', SmoothedBpm(t', prev.1))
  }

  /** `k` tap times, `gap` milliseconds apart, the first at `start`. */
  function EvenTimes(start: int, gap: int, k: nat): (times: seq<int>)
    ensures |times| == k
    ensures forall i :: 0 <= i < k ==> times[i] == start + i * gap
  {
    seq(k, i => start + i * gap)
  }

  lemma EvenTimesPrefix(start: int, gap: int, k: nat)
    requires k >= 1
    ensures EvenTimes(start, gap, k)[..k - 1] == EvenTimes(start, gap, k - 1)
  {
  }

  /**
    A run of `k` taps spaced `gap` apart (at most STALE_MS), whose first tap is
    stale, leaves the accumulator spanning exactly that run.
   */
  lemma {:induction false} EvenRunTaps(t: TapState, bpm: real, start: int, gap: int, k: nat)
    requires start - t.last > STALE_MS && gap <= STALE_MS && k >= 1
    ensures Replay(t, bpm, EvenTimes(start, gap, k)).0 == TapState(start, start + (k - 1) * gap, k)
  {
    var times := EvenTimes(start, gap, k);
    EvenTimesPrefix(start, gap, k);
    if k == 1 {
      assert times[..0] == [];
    } else {
      EvenRunTaps(t, bpm, start, gap, k - 1);
      assert (k - 1) * gap == (k - 2) * gap + gap;
    }
  }

  /**
    Averaging recovers the spacing: four or more evenly spaced taps set the
    tempo whose beat is that spacing, however many taps the run holds.
   */
  lemma EvenRunBpm(t: TapState, bpm: real, start: int, gap: int, k: nat)
    requires start - t.last > STALE_MS && gap <= STALE_MS && k >= 4
    ensures Replay(t, bpm, EvenTimes(start, gap, k)).1 == BpmForPeriod(gap as real)
  {
    EvenRunTaps(t, bpm, start, gap, k);
    EvenRunAverage(start, gap, k);
  }

  /** The average interval of an evenly spaced run is its spacing. */
  lemma EvenRunAverage(start: int, gap: int, k: nat)
    requires k >= 2
    ensures AverageInterval(TapState(start, start + (k - 1) * gap, k)) == gap as real
  {
    var n := (k - 1) as real;
    assert ((k - 1) * gap) as real == n * gap as real;
    assert (n * gap as real) / n == gap as real;
  }

  /** A run that starts with a stale tap holds at most as many taps as were replayed. */
  lemma {:induction false} RunCountBound(t: TapState, bpm: real, times: seq<int>)
    requires |times| >= 1 && times[0] - t.last > STALE_MS
    ensures 1 <= Replay(t, bpm, times).0.count <= |times|
  {
    if |times| > 1 {
      var prefix := times[..|times| - 1];
      assert prefix[0] == times[0];
      RunCountBound(t, bpm, prefix);
    }
  }

  /** Until a run holds four taps, smoothing taps never change the tempo, however they are spaced. */
  lemma {:induction false} ShortRunKeepsBpm(t: TapState, bpm: real, times: seq<int>)
    requires |times| <= 3 && (|times| > 0 ==> times[0] - t.last > STALE_MS)
    ensures Replay(t, bpm, times).1 == bpm
  {
    if |times| > 0 {
      var prefix := times[..|times| - 1];
      assert |prefix| > 0 ==> prefix[0] == times[0];
      ShortRunKeepsBpm(t, bpm, prefix);
      RunCountBound(t, bpm, times);
    }
  }

  /** Four taps 500 ms apart give 120 BPM. */
  lemma FourTapsHalfSecondApart(t: TapState, bpm: real, start: int)
    requires start - t.last > STALE_MS
    ensures Replay(t, bpm, [start, start + 500, start + 1000, start + 1500]).1 == 120.0
  {
    EvenRunBpm(t, bpm, start, 500, 4);
    assert EvenTimes(start, 500, 4) == [start, start + 500, start + 1000, start + 1500];
  }
}
