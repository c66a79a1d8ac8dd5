/**
  The tempo engine of LX: class Tempo with its beat counter, one-frame trigger
  flag, tap accumulator, BPM and derived period, and listener list, over an
  abstract beat oscillator (Click).
 */
module Lx {
  import opened TapTempo
  import Listeners

  /**
    The beat oscillator. Only what Tempo observes of it is modelled: whether
    it fired on the latest frame and its phase `basis` in [0, 1). How it
    advances its phase from the period is not part of this model, so Loop
    may leave it fired or not, at any phase.
   */
  class Click {
    var fired: bool
    var basis: real

    ghost predicate Valid()
      reads this
    {
      0.0 <= basis < 1.0
    }

    constructor ()
      ensures Valid() && !fired && basis == 0.0
    {
      fired, basis := false, 0.0;
    }

    /** Forces a beat now: the oscillator reads as fired and its phase restarts at 0. */
    method Fire()
      modifies this
      ensures Valid() && fired && basis == 0.0
    {
      fired, basis := true, 0.0;
    }

    /** One frame of the oscillator: it may or may not cross a beat boundary. */
    method Loop(deltaMs: real)
      modifies this
      ensures Valid()
    {
      var phase: real :| 0.0 <= phase < 1.0;
      fired, basis := *, phase;
    }
  }

  class Tempo<L(==)> {
    /** The stored BPM, always within [MIN_BPM, MAX_BPM]. */
    var bpm: real
    /** The oscillator's period in milliseconds, kept at MINUTE / bpm. */
    var period: real
    var listeners: seq<L>
    const click: Click
    var firstTap: int
    var lastTap: int
    var tapCount: nat
    var beatCount: nat
    var triggered: bool

    ghost predicate Valid()
      reads this, click
    {
      && MIN_BPM <= bpm <= MAX_BPM
      && period == MINUTE / bpm
      && click.Valid()
    }

    /** The tap accumulator as one value. */
    function Taps(): (t: TapState)
      reads this
      ensures t.first == firstTap && t.last == lastTap && t.count == tapCount
    {
      TapState(firstTap, lastTap, tapCount)
    }

    constructor ()
      ensures Valid() && fresh(click)
      ensures bpm == DEFAULT_BPM && period == 500.0
      ensures listeners == [] && Taps() == NO_TAPS
      ensures beatCount == 0 && !triggered && !click.fired && click.basis == 0.0
    {
      bpm := DEFAULT_BPM;
      period := MINUTE / DEFAULT_BPM;
      listeners := [];
      click := new Click();
      firstTap, lastTap, tapCount := 0, 0, 0;
      beatCount, triggered := 0, false;
    }

    /** Re-derives the period after the BPM parameter changed. */
    method OnParameterChanged()
      requires MIN_BPM <= bpm <= MAX_BPM
      modifies this`period
      ensures period == MINUTE / bpm && 250.0 <= period <= 3000.0
    {
      PeriodBounds(bpm);
      period := MINUTE / bpm;
    }

    method AddListener(listener: L)
      modifies this`listeners
      ensures listeners == Listeners.Added(old(listeners), listener)
    {
      listeners := listeners + [listener];
    }

    method RemoveListener(listener: L)
      modifies this`listeners
      ensures listeners == Listeners.RemoveFirst(old(listeners), listener)
    {
      var i := Listeners.IndexOf(listeners, listener);
      if 0 <= i {
        listeners := listeners[..i] + listeners[i + 1..];
      }
    }

    /** On a quarter-note beat this frame. */
    predicate Beat()
      reads this, click
    {
      click.fired
    }

    /** On a half-note beat this frame: a beat with an even beat count. */
    predicate Half()
      reads this, click
      ensures Half() ==> Beat()
    {
      Beat() && beatCount % 2 == 0
    }

    /** On the first beat of a measure this frame: a beat whose count is a multiple of four. */
    predicate Measure()
      reads this, click
      ensures Measure() ==> Half() && Beat()
    {
      MeasureCountIsHalfCount(beatCount);
      Beat() && beatCount % 4 == 0
    }

    /** Phase of the current beat. */
    function Ramp(): (r: real)
      reads this, click
      requires Valid()
      ensures 0.0 <= r < 1.0
    {
      click.basis
    }

    function Bpm(): (r: real)
      reads this, click
      requires Valid()
      ensures MIN_BPM <= r <= MAX_BPM && r * period == MINUTE
    {
      PeriodBounds(bpm);
      bpm
    }

    /** Stores `value` in the BPM parameter, which clamps it, and re-derives the period. */
    method SetBpm(value: real)
      requires Valid()
      modifies this`bpm, this`period
      ensures Valid()
      ensures bpm == Clamp(value)
    {
      bpm := Clamp(value);
      OnParameterChanged();
    }

    method AdjustBpm(amount: real)
      requires Valid()
      modifies this`bpm, this`period
      ensures Valid()
      ensures bpm == Clamp(old(bpm) + amount)
    {
      SetBpm(bpm + amount);
    }

    /** setBpm(MINUTE / beatPeriod), with the +Infinity of a zero period stated as MAX_BPM. */
    method SetBpmForPeriod(beatPeriod: real)
      requires Valid()
      modifies this`bpm, this`period
      ensures Valid()
      ensures bpm == BpmForPeriod(beatPeriod)
    {
      if beatPeriod == 0.0 {
        SetBpm(MAX_BPM);
      } else {
        SetBpm(MINUTE / beatPeriod);
      }
    }

    /** Re-syncs: the beat counter restarts, the oscillator beats now, and the next frame does not count it again. */
    method Trigger()
      requires Valid()
      modifies this`beatCount, this`triggered, click
      ensures Valid()
      ensures beatCount == 0 && triggered
      ensures Beat() && Ramp() == 0.0
    {
      beatCount := 0;
      click.Fire();
      triggered := true;
    }

    /**
      Smoothing tap at clock time `now`: updates the run, sets the averaged
      tempo once the run holds four taps, and always re-triggers.
     */
    method Tap(now: int)
      requires Valid()
      modifies this, click
      ensures Valid()
      ensures Taps() == SmoothTap(old(Taps()), now)
      ensures bpm == SmoothedBpm(Taps(), old(bpm))
      ensures beatCount == 0 && triggered && Beat() && Ramp() == 0.0
      ensures listeners == old(listeners)
    {
      if now - lastTap > STALE_MS {
        firstTap := now;
        tapCount := 0;
      }
      lastTap := now;
      tapCount := tapCount + 1;
      if tapCount > 3 {
        var beatPeriod := (lastTap - firstTap) as real / (tapCount - 1) as real;
        SetBpmForPeriod(beatPeriod);
      }
      Trigger();
    }

    /**
      tap(smoothingEnabled) at clock time `now`. Without smoothing the tempo
      follows the single interval since the previous tap, and nothing is
      re-triggered.
     */
    method TapWithSmoothing(smoothingEnabled: bool, now: int)
      requires Valid()
      modifies this, click
      ensures Valid()
      ensures smoothingEnabled ==>
                && Taps() == SmoothTap(old(Taps()), now)
                && bpm == SmoothedBpm(Taps(), old(bpm))
                && beatCount == 0 && triggered && Beat() && Ramp() == 0.0
      ensures !smoothingEnabled ==>
                && Taps() == ExternalTap(old(Taps()), now)
                && bpm == ExternalBpm(old(lastTap), now)
                && beatCount == old(beatCount) && triggered == old(triggered)
                && unchanged(click)
      ensures listeners == old(listeners)
    {
      if !smoothingEnabled {
        firstTap := lastTap;
        lastTap := now;
        var beatPeriod := (lastTap - firstTap) as real;
        SetBpmForPeriod(beatPeriod);
      } else {
        Tap(now);
      }
    }

    /**
      One frame: the oscillator advances, a beat it fires is counted unless a
      trigger already accounted for it, and the trigger flag is consumed.
     */
    method Loop(deltaMs: real)
      requires Valid()
      modifies this`beatCount, this`triggered, click
      ensures Valid()
      ensures beatCount == old(beatCount) + (if Beat() && !old(triggered) then 1 else 0)
      ensures !triggered
    {
      click.Loop(deltaMs);
      if Beat() && !triggered {
        beatCount := beatCount + 1;
      }
      triggered := false;
    }
  }

  /** Every fourth beat is also a second beat. */
  lemma MeasureCountIsHalfCount(n: nat)
    ensures n % 4 == 0 ==> n % 2 == 0
  {
    if n % 4 == 0 {
      var q := n / 4;
      assert n == 2 * (2 * q);
    }
  }

  /** A fresh Tempo tapped four times 500 ms apart runs at 120 BPM. */
  method FourTapsSetTempo(start: int) returns (bpm: real, period: real)
    requires start > STALE_MS
    ensures bpm == 120.0 && period == 500.0
  {
    var tempo := new Tempo<int>();
    tempo.Tap(start);
    tempo.Tap(start + 500);
    tempo.Tap(start + 1000);
    tempo.Tap(start + 1500);
    FourTapsHalfSecondApart(NO_TAPS, DEFAULT_BPM, start);
    bpm, period := tempo.Bpm(), tempo.period;
  }

  /** A trigger reads as the start of a measure, and its forced beat is not counted by the frame that follows it. */
  method TriggeredBeatNotCounted(deltaMs: real) returns (count: nat, measure: bool)
    ensures count == 0
    ensures measure
  {
    var tempo := new Tempo<int>();
    tempo.SetBpm(90.0);
    tempo.Loop(deltaMs);
    tempo.Trigger();
    measure := tempo.Measure();
    tempo.Loop(deltaMs);
    count := tempo.beatCount;
  }

  /** A tap after more than two seconds of silence restarts the run and leaves the tempo as it was. */
  method StaleTapKeepsTempo(start: int) returns (bpm: real, tapCount: nat)
    requires start > STALE_MS
    ensures bpm == 90.0 && tapCount == 1
  {
    var tempo := new Tempo<int>();
    tempo.SetBpm(90.0);
    tempo.Tap(start);
    tempo.Tap(start + 500);
    tempo.Tap(start + 1000);
    tempo.Tap(start + 3001);
    bpm, tapCount := tempo.bpm, tempo.tapCount;
  }
}
