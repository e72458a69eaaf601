/**
 * The preloader hook: a simulated loading percentage `progress` and the flag
 * `isLoading` that keeps the preloader on screen.
 *
 * The tick that moves `progress` is a pure function (`Tick`). The hook around it
 * is a class whose methods are the callbacks of the page: the 50 ms progress
 * interval, the 100 ms completion poll, the 5000 ms minimum-time timeout, the
 * document's DOMContentLoaded and load events, and the delayed `setIsLoading(false)`
 * calls. Time is the field `clock`, moved forward by `Elapse`; which callback runs
 * next is chosen by the caller, subject to the timer being armed and due.
 *
 * The effect that installs these callbacks depends on `progress`, so every change of
 * `progress` tears the callbacks down and runs the effect again (`RunEffect`),
 * which re-initialises `loadComplete` and `startTime`.
 */
module UsePreloader {

  /** Minimum display time in milliseconds, and the scale of the time-based target. */
  const MinLoadTime: int := 5000
  /** Period of the progress interval. */
  const TickPeriod: int := 50
  /** Delay of the hide scheduled by the minimum-time timeout. */
  const MinTimeHoldDelay: int := 1000
  /** Delay of the hide scheduled by the completion poll. */
  const CompleteHoldDelay: int := 1500

  function Min(a: real, b: real): real {
    if a <= b then a else b
  }

  function Max(a: real, b: real): real {
    if a >= b then a else b
  }

  /** The time-based target: proportional to the elapsed time, reaching 85 at the 5000 ms mark. */
  function TimeProgress(elapsed: int): (t: real)
    ensures t <= 85.0
    ensures elapsed >= 0 ==> 0.0 <= t
    ensures elapsed >= MinLoadTime ==> t == 85.0
  {
    Min(elapsed as real / MinLoadTime as real * 85.0, 85.0)
  }

  /** A later instant never has a lower time-based target. */
  lemma TimeProgressMonotone(e1: int, e2: int)
    requires e1 <= e2
    ensures TimeProgress(e1) <= TimeProgress(e2)
  {
  }

  /** One tick: the new progress, and whether the tick clears the progress interval. */
  datatype TickResult = TickResult(next: real, stopInterval: bool)

  /** The range of `progress` in which a tick with this load flag keeps its promises. */
  predicate InRegime(prev: real, loadComplete: bool) {
    0.0 <= prev && prev <= (if loadComplete then 100.0 else 85.0)
  }

  /** The updater passed to `setProgress` by the progress interval. */
  function Tick(prev: real, elapsed: int, loadComplete: bool): (r: TickResult)
    // loaded and at 95 or more: jump to 100 and stop the interval
    ensures r.stopInterval <==> loadComplete && prev >= 95.0
    ensures r.stopInterval ==> r.next == 100.0
    // loaded: +2 per tick, never past 95
    ensures loadComplete && prev < 95.0 ==> r.next == Min(prev + 2.0, 95.0)
    // not loaded: never past 85, and at least +0.5 per tick until 85
    ensures !loadComplete ==> r.next <= 85.0
    ensures !loadComplete && prev < 85.0 ==> r.next >= prev + Min(0.5, 85.0 - prev)
    // not loaded: eases toward the time target, a tenth of the gap per tick, never past the
    // target by more than the minimum step
    ensures !loadComplete && 0.0 <= prev <= 85.0 ==> r.next <= Max(TimeProgress(elapsed), prev + 0.5)
    ensures !loadComplete && 0.0 <= prev <= TimeProgress(elapsed) ==>
      r.next >= Min(prev + (TimeProgress(elapsed) - prev) * 0.1, 85.0)
    // never backwards, never past 100
    ensures InRegime(prev, loadComplete) ==> prev <= r.next <= 100.0
  {
    if loadComplete && prev >= 95.0 then
      TickResult(100.0, true)
    else if loadComplete then
      TickResult(Min(prev + 2.0, 95.0), false)
    else
      var target := Min(TimeProgress(elapsed), 85.0);
      var increment := Max((target - prev) * 0.1, 0.5);
      TickResult(Min(prev + increment, 85.0), false)
  }

  /**
   * Shortly after a restart of the effect the time-based target is still small, so an
   * unloaded tick adds exactly 0.5: since every change of `progress` restarts the effect,
   * this is the increment the page actually sees on 50 ms ticks.
   */
  lemma UnloadedTickAfterRestart(prev: real, elapsed: int)
    requires 0.0 <= prev && 0 <= elapsed <= 5 * TickPeriod
    ensures Tick(prev, elapsed, false).next == Min(prev + 0.5, 85.0)
  {
  }

  /** The DOMContentLoaded bump: at least 60, never lower than before. */
  function DomReadyBump(prev: real): (r: real)
    ensures r >= prev && r >= 60.0
    ensures r == prev || r == 60.0
  {
    Max(prev, 60.0)
  }

  /** `document.readyState`, which only moves forward. */
  datatype ReadyState = Loading | Interactive | Complete

  /** Period of the completion poll. */
  const CheckPeriod: int := 100
  /** Delay of the bump scheduled by DOMContentLoaded. */
  const BumpDelay: int := 100

  /**
   * The locals and callbacks of one run of the effect: its `loadComplete` and `startTime`,
   * the `progress` its callbacks captured, whether each interval, the timeout and each
   * listener is still armed, and the next firing times of the two intervals.
   */
  datatype EffectRun = EffectRun(
    loadComplete: bool, startTime: int, seenProgress: real,
    intervalActive: bool, intervalDue: int, checkActive: bool, checkDue: int, minTimerActive: bool,
    domListener: bool, loadListener: bool)

  /**
   * The effect body run at `now`: fresh locals, both intervals and the timeout armed from
   * now, and the listeners the ready state calls for.
   */
  function FreshRun(now: int, progress: real, ready: ReadyState): EffectRun {
    EffectRun(ready == Complete, now, progress, true, now + TickPeriod, true, now + CheckPeriod, true,
      ready == Loading, ready != Complete)
  }

  /**
   * The hook and its page as a value: the React state, the clock and ready state, the
   * current run of the effect, and the due times of the timeouts that the effect's cleanup
   * does not clear.
   */
  datatype HookState = HookState(
    isLoading: bool, progress: real, clock: int, readyState: ReadyState,
    run: EffectRun, pendingBumps: seq<int>, pendingHides: seq<int>)

  /**
   * A run of the effect: the cleanup clears the previous run's intervals, timeout and
   * listeners, the body replaces them with a fresh run, and an interactive document gets
   * its bump scheduled 100 ms from now.
   */
  function Restarted(s: HookState): HookState {
    s.(run := FreshRun(s.clock, s.progress, s.readyState),
       pendingBumps := s.pendingBumps + (if s.readyState == Interactive then [s.clock + BumpDelay] else []))
  }

  /** The sequence without its element at `k`. */
  function Without(s: seq<int>, k: nat): (r: seq<int>)
    requires k < |s|
    ensures |r| == |s| - 1
    ensures forall i :: 0 <= i < k ==> r[i] == s[i]
    ensures forall i :: k <= i < |r| ==> r[i] == s[i + 1]
  {
    s[..k] + s[k + 1..]
  }

  class PreloaderHook {
    // React state of the hook
    var isLoading: bool
    var progress: real
    // the hosting page
    var clock: int
    var readyState: ReadyState
    /** The locals and callbacks of the current run of the progress effect. */
    var run: EffectRun
    /** Due times of the scheduled DOMContentLoaded bumps. */
    var pendingBumps: seq<int>
    /** Due times of the scheduled `setIsLoading(false)` calls. */
    var pendingHides: seq<int>
    /** When `progress` became 100. */
    ghost var reached100At: int

    function Snapshot(): HookState
      reads this
    {
      HookState(isLoading, progress, clock, readyState, run, pendingBumps, pendingHides)
    }

    /** What holds whichever run of the effect is current. */
    ghost predicate Stable()
      reads this
    {
      && 0.0 <= progress <= 100.0
      && (progress > 85.0 ==> readyState == Complete)
      && (progress == 100.0 ==> reached100At <= clock)
      && (pendingHides != [] ==> progress == 100.0)
      && (forall k :: 0 <= k < |pendingHides| ==> pendingHides[k] >= reached100At + MinTimeHoldDelay)
      && (!isLoading ==> progress == 100.0 && clock >= reached100At + MinTimeHoldDelay)
    }

    ghost predicate Valid()
      reads this
    {
      && Stable()
      && run.seenProgress == progress
      && run.startTime <= clock
      && (run.loadComplete <==> readyState == Complete)
      && (readyState == Loading ==> run.domListener)
      && (readyState != Complete ==> run.loadListener)
    }

    /** The effect has just run: its locals are fresh and all its callbacks are armed from now. */
    ghost predicate EffectRestarted()
      reads this
    {
      run == FreshRun(clock, progress, readyState)
    }

    /** Mounting: `isLoading` starts true, `progress` at 0, and the effect runs once. */
    constructor (now: int, ready: ReadyState)
      ensures Valid() && EffectRestarted()
      ensures isLoading && progress == 0.0
      ensures clock == now && readyState == ready
      ensures pendingHides == []
      ensures pendingBumps == if ready == Interactive then [now + BumpDelay] else []
    {
      isLoading, progress := true, 0.0;
      clock, readyState := now, ready;
      run := FreshRun(now, 0.0, ready);
      pendingBumps, pendingHides := [], [];
      reached100At := now;
      new;
      RunEffect();
    }

    /** Cleanup of the previous run of the effect, then the effect body. */
    method RunEffect()
      requires Stable()
      modifies this
      ensures Valid() && EffectRestarted()
      ensures Snapshot() == Restarted(old(Snapshot()))
      ensures reached100At == old(reached100At)
    {
      run := FreshRun(clock, progress, readyState);
      if readyState == Interactive {
        pendingBumps := pendingBumps + [clock + BumpDelay];
      }
    }

    /** `setProgress(v)`: an unchanged value changes nothing; a new value re-runs the effect. */
    method SetProgress(v: real)
      requires Valid()
      requires progress <= v <= 100.0
      requires v > 85.0 ==> readyState == Complete
      modifies this
      ensures Valid()
      ensures progress == v
      ensures v == old(progress) ==> unchanged(this)
      ensures v != old(progress) ==> EffectRestarted()
      ensures v != old(progress) ==> Snapshot() == Restarted(old(Snapshot()).(progress := v))
    {
      if v != progress {
        if v == 100.0 {
          reached100At := clock;
        }
        progress := v;
        RunEffect();
      }
    }

    /** Time passes. */
    method Elapse(now: int)
      requires Valid()
      requires clock <= now
      modifies this`clock
      ensures Valid()
      ensures clock == now
    {
      clock := now;
    }

    /**
     * The progress interval fires, at its due time, and applies `Tick` to `progress`. A
     * changed value re-runs the effect; otherwise only the interval moves on to its next
     * period, or is cleared when the tick says so.
     */
    method IntervalTick()
      requires Valid()
      requires run.intervalActive && clock >= run.intervalDue
      modifies this
      ensures Valid()
      ensures progress == Tick(old(progress), old(clock) - old(run.startTime), old(run.loadComplete)).next
      ensures old(progress) <= progress
      ensures progress != old(progress) ==> EffectRestarted()
      ensures progress != old(progress) ==> Snapshot() == Restarted(old(Snapshot()).(progress := progress))
      ensures progress == old(progress) ==>
        Snapshot() == old(Snapshot()).(run := old(run).(
          intervalActive := !Tick(old(progress), old(clock) - old(run.startTime), old(run.loadComplete)).stopInterval,
          intervalDue := old(run.intervalDue) + TickPeriod))
    {
      var r := Tick(progress, clock - run.startTime, run.loadComplete);
      run := run.(intervalActive := !r.stopInterval, intervalDue := run.intervalDue + TickPeriod);
      SetProgress(r.next);
    }

    /** The document becomes interactive: DOMContentLoaded schedules the 60% bump 100 ms later. */
    method DocumentInteractive()
      requires Valid()
      requires readyState == Loading
      modifies this
      ensures Valid()
      ensures Snapshot() == old(Snapshot()).(
        readyState := Interactive, pendingBumps := old(pendingBumps) + [old(clock) + BumpDelay])
    {
      readyState := Interactive;
      if run.domListener {
        pendingBumps := pendingBumps + [clock + BumpDelay];
      }
    }

    /** The document finishes loading: the load event sets `loadComplete`, and nothing else changes. */
    method DocumentComplete()
      requires Valid()
      requires readyState == Interactive
      modifies this
      ensures Valid()
      ensures Snapshot() == old(Snapshot()).(readyState := Complete, run := old(run).(loadComplete := true))
    {
      readyState := Complete;
      if run.loadListener {
        run := run.(loadComplete := true);
      }
    }

    /**
     * A scheduled DOMContentLoaded bump fires at its due time and is used up; a changed
     * value re-runs the effect.
     */
    method DomBumpFires(k: nat)
      requires Valid()
      requires k < |pendingBumps| && pendingBumps[k] <= clock
      modifies this
      ensures Valid()
      ensures progress == DomReadyBump(old(progress))
      ensures progress == old(progress) ==>
        Snapshot() == old(Snapshot()).(pendingBumps := Without(old(pendingBumps), k))
      ensures progress != old(progress) ==> EffectRestarted()
      ensures progress != old(progress) ==>
        Snapshot() == Restarted(old(Snapshot()).(progress := progress, pendingBumps := Without(old(pendingBumps), k)))
    {
      pendingBumps := Without(pendingBumps, k);
      SetProgress(DomReadyBump(progress));
    }

    /**
     * The minimum-time timeout fires, 5000 ms after the current run of the effect:
     * when loaded and at 95 or more it forces 100 and schedules the hide 1000 ms later.
     */
    method MinTimerFires()
      requires Valid()
      requires run.minTimerActive && clock >= run.startTime + MinLoadTime
      modifies this
      ensures Valid()
      ensures old(run.loadComplete) && old(run.seenProgress) >= 95.0 ==>
        progress == 100.0 && pendingHides == old(pendingHides) + [old(clock) + MinTimeHoldDelay]
      ensures old(run.loadComplete) && old(run.seenProgress) >= 95.0 && old(progress) != 100.0 ==>
        EffectRestarted() &&
        Snapshot() == Restarted(old(Snapshot()).(
          progress := 100.0, pendingHides := old(pendingHides) + [old(clock) + MinTimeHoldDelay]))
      ensures old(run.loadComplete) && old(run.seenProgress) >= 95.0 && old(progress) == 100.0 ==>
        Snapshot() == old(Snapshot()).(
          run := old(run).(minTimerActive := false),
          pendingHides := old(pendingHides) + [old(clock) + MinTimeHoldDelay])
      ensures !(old(run.loadComplete) && old(run.seenProgress) >= 95.0) ==>
        Snapshot() == old(Snapshot()).(run := old(run).(minTimerActive := false))
    {
      run := run.(minTimerActive := false);
      if run.loadComplete && run.seenProgress >= 95.0 {
        SetProgress(100.0);
        pendingHides := pendingHides + [clock + MinTimeHoldDelay];
      }
    }

    /**
     * The completion poll fires at its due time: once it sees 100 it stops and schedules
     * the hide 1500 ms later; otherwise it only moves on to its next period.
     */
    method CompleteCheckFires()
      requires Valid()
      requires run.checkActive && clock >= run.checkDue
      modifies this
      ensures Valid()
      ensures old(run.seenProgress) >= 100.0 ==>
        Snapshot() == old(Snapshot()).(
          run := old(run).(checkActive := false),
          pendingHides := old(pendingHides) + [old(clock) + CompleteHoldDelay])
      ensures old(run.seenProgress) < 100.0 ==>
        Snapshot() == old(Snapshot()).(run := old(run).(checkDue := old(run.checkDue) + CheckPeriod))
    {
      if run.seenProgress >= 100.0 {
        run := run.(checkActive := false);
        pendingHides := pendingHides + [clock + CompleteHoldDelay];
      } else {
        run := run.(checkDue := run.checkDue + CheckPeriod);
      }
    }

    /**
     * A scheduled `setIsLoading(false)` fires. This is the only way `isLoading` becomes
     * false, and by then `progress` is 100 and has been for at least 1000 ms.
     */
    method HideFires(k: nat)
      requires Valid()
      requires k < |pendingHides| && pendingHides[k] <= clock
      modifies this
      ensures Valid()
      ensures !isLoading
      ensures progress == 100.0 && clock >= reached100At + MinTimeHoldDelay
      ensures Snapshot() == old(Snapshot()).(isLoading := false, pendingHides := Without(old(pendingHides), k))
    {
      isLoading := false;
      pendingHides := Without(pendingHides, k);
    }
  }

  /**
   * The minimum display time is not a floor: with the document already loaded at
   * mount, 49 ticks take `progress` to 100 by 2450 ms, the poll armed by that change
   * sees it at 2550 ms, and the hide lands at 4050 ms, before the 5000 ms mark.
   */
  method RevealBeforeMinimumTime() returns (h: PreloaderHook)
    ensures h.Valid()
    ensures !h.isLoading && h.clock == 4050 && h.clock < MinLoadTime
  {
    h := new PreloaderHook(0, Complete);
    var i := 0;
    while i < 47
      invariant 0 <= i <= 47
      invariant h.Valid() && h.EffectRestarted() && h.readyState == Complete && h.isLoading
      invariant h.progress == 2.0 * i as real && h.clock == TickPeriod * i && h.pendingHides == []
    {
      h.Elapse(h.clock + TickPeriod);
      h.IntervalTick();
      i := i + 1;
    }
    h.Elapse(h.clock + TickPeriod);
    h.IntervalTick();
    assert h.progress == 95.0;
    h.Elapse(h.clock + TickPeriod);
    h.IntervalTick();
    assert h.progress == 100.0 && h.clock == 2450;
    h.Elapse(h.clock + 100);
    h.CompleteCheckFires();
    assert h.pendingHides == [4050];
    h.Elapse(4050);
    h.HideFires(0);
  }

  /**
   * The start of an ordinary page load. The document becomes interactive at 50 ms, and
   * every run of the effect while it is interactive schedules another bump, so two bumps
   * are pending by 100 ms.
   */
  method PageBecomesInteractive() returns (h: PreloaderHook)
    ensures h.Valid() && h.EffectRestarted() && h.isLoading
    ensures h.readyState == Interactive && h.progress == 1.0 && h.clock == 100
    ensures h.pendingBumps == [150, 200] && h.pendingHides == []
    ensures fresh(h)
  {
    h := new PreloaderHook(0, Loading);
    h.Elapse(50);
    assert Tick(0.0, 50, false).next == 0.5;
    h.IntervalTick();
    h.DocumentInteractive();
    h.Elapse(100);
    assert Tick(0.5, 50, false).next == 1.0;
    h.IntervalTick();
  }

  /**
   * The rest of that load: the first bump lifts `progress` to 60 at 150 ms and schedules a
   * third; after the load event the next tick adds 2.
   */
  method PageLoadSequence() returns (h: PreloaderHook)
    ensures h.Valid() && h.isLoading
    ensures h.readyState == Complete && h.progress == 62.0 && h.clock == 200
    ensures h.pendingBumps == [200, 250]
  {
    h := PageBecomesInteractive();
    h.Elapse(150);
    h.DomBumpFires(0);
    assert h.pendingBumps == [200, 250];
    h.DocumentComplete();
    h.Elapse(200);
    h.IntervalTick();
  }
}
