/**
 * The preloader component's phase: `entering` while the entrance timeline plays,
 * `loading` once it has completed, `exiting` once loading is over and the exit
 * timeline has started. The particle canvas and the timelines' tweens are not
 * modelled; a timeline is a state (not built, running, done) and its completion
 * is an event.
 *
 * `isLoading` is the hook's flag, fed in by `LoadingFinished`. The exit effect
 * depends on `isLoading` and on the phase, so it runs after each change of either:
 * `LoadingFinished` and `EntranceCompletes` both end by running it.
 */
module Preloader {

  datatype Phase = Entering | Loading | Exiting

  datatype Timeline = NotBuilt | Running | Done

  /** Position of a phase in the order entering < loading < exiting. */
  function Rank(p: Phase): nat {
    match p
    case Entering => 0
    case Loading => 1
    case Exiting => 2
  }

  /** Whether the component returns its markup (true) or `null` (false). */
  function Renders(isLoading: bool, phase: Phase): bool {
    !(!isLoading && phase == Exiting)
  }

  class PreloaderView {
    var isLoading: bool
    var phase: Phase
    var entrance: Timeline
    var exit: Timeline
    /** How many times `onComplete` has been called. */
    var completions: nat

    function Snapshot(): State
      reads this
    {
      State(isLoading, phase, entrance, exit, completions)
    }

    ghost predicate Valid()
      reads this
    {
      Inv(Snapshot())
    }

    /**
     * Mounting. The entrance timeline is built only when the logo container exists and
     * the user does not prefer reduced motion.
     */
    constructor (reducedMotion: bool, hasLogoContainer: bool)
      ensures Valid()
      ensures Snapshot() == Initial(reducedMotion, hasLogoContainer)
    {
      isLoading := true;
      phase := Entering;
      entrance := if hasLogoContainer && !reducedMotion then Running else NotBuilt;
      exit := NotBuilt;
      completions := 0;
    }

    /** The exit effect: starts the exit only when loading is over and the phase is `loading`. */
    method ExitEffect()
      modifies this
      ensures Snapshot() == AfterExitEffect(old(Snapshot()))
      ensures !old(isLoading) && old(phase) == Loading ==> phase == Exiting && exit == Running
      ensures !(!old(isLoading) && old(phase) == Loading) ==> unchanged(this)
    {
      if !isLoading && phase == Loading {
        phase := Exiting;
        exit := Running;
      }
    }

    /** The entrance timeline completes and moves the phase to `loading`. */
    method EntranceCompletes()
      requires Valid()
      requires entrance == Running
      modifies this
      ensures Valid()
      ensures Snapshot() == Step(old(Snapshot()), EntranceDone)
      ensures entrance == Done
      ensures phase == (if isLoading then Loading else Exiting)
    {
      entrance := Done;
      phase := Loading;
      ExitEffect();
    }

    /** The hook's `isLoading` turns false. */
    method LoadingFinished()
      requires Valid()
      requires isLoading
      modifies this
      ensures Valid()
      ensures Snapshot() == Step(old(Snapshot()), LoadingOver)
      ensures !isLoading
      ensures phase == (if old(phase) == Loading then Exiting else old(phase))
    {
      isLoading := false;
      ExitEffect();
    }

    /** The exit timeline completes: the only place `onComplete` is called. */
    method ExitCompletes()
      requires Valid()
      requires exit == Running
      modifies this
      ensures Valid()
      ensures Snapshot() == Step(old(Snapshot()), ExitDone)
      ensures completions == 1
      ensures phase == Exiting && !Renders(isLoading, phase)
    {
      exit := Done;
      completions := completions + 1;
    }
  }

  /** The events that move the component. */
  datatype Event = EntranceDone | LoadingOver | ExitDone

  /** The component's state as a value: loading flag, phase, timelines, `onComplete` calls. */
  datatype State = State(isLoading: bool, phase: Phase, entrance: Timeline, exit: Timeline, completions: nat)

  /**
   * The phase follows the entrance timeline; the exit timeline exists exactly in the
   * exiting phase, which needs loading over; the exit effect never leaves `loading`
   * standing once loading is over; `onComplete` has been called once exactly when the
   * exit timeline is done.
   */
  ghost predicate Inv(s: State) {
    && (s.phase == Entering <==> s.entrance != Done)
    && (s.phase == Exiting <==> s.exit != NotBuilt)
    && (s.phase == Exiting ==> !s.isLoading)
    && !(s.phase == Loading && !s.isLoading)
    && s.completions == (if s.exit == Done then 1 else 0)
  }

  /** The exit effect on a state value. */
  function AfterExitEffect(s: State): State {
    if !s.isLoading && s.phase == Loading then s.(phase := Exiting, exit := Running) else s
  }

  /** One event; an event whose timer or timeline is not armed changes nothing. */
  function Step(s: State, e: Event): State {
    match e
    case EntranceDone =>
      if s.entrance == Running then AfterExitEffect(s.(entrance := Done, phase := Loading)) else s
    case LoadingOver =>
      if s.isLoading then AfterExitEffect(s.(isLoading := false)) else s
    case ExitDone =>
      if s.exit == Running then s.(exit := Done, completions := s.completions + 1) else s
  }

  function Run(s: State, es: seq<Event>): State
    decreases |es|
  {
    if es == [] then s else Run(Step(s, es[0]), es[1..])
  }

  function Initial(reducedMotion: bool, hasLogoContainer: bool): (s: State)
    ensures Inv(s) && s.phase == Entering && s.isLoading
  {
    State(true, Entering, if hasLogoContainer && !reducedMotion then Running else NotBuilt, NotBuilt, 0)
  }

  /**
   * Every step keeps the invariant and never moves the phase backwards; loading never
   * resumes; the exit starts only once loading is over; `onComplete` is called only by
   * the completion of a running exit timeline; an entrance timeline never built stays so.
   */
  lemma StepKeeps(s: State, e: Event)
    requires Inv(s)
    ensures Inv(Step(s, e))
    ensures Rank(s.phase) <= Rank(Step(s, e).phase)
    ensures !s.isLoading ==> !Step(s, e).isLoading
    ensures s.exit == NotBuilt && Step(s, e).exit != NotBuilt ==> !Step(s, e).isLoading && s.entrance != NotBuilt
    ensures Step(s, e).completions != s.completions ==> e == ExitDone && s.exit == Running
    ensures s.entrance == NotBuilt ==> Step(s, e).entrance == NotBuilt
  {
  }

  /**
   * Over any run: the invariant holds, the phase only moves forward, `onComplete` is
   * called at most once, and without an entrance timeline the phase stays `entering`.
   */
  lemma {:induction false} RunKeeps(s: State, es: seq<Event>)
    requires Inv(s)
    ensures Inv(Run(s, es))
    ensures Rank(s.phase) <= Rank(Run(s, es).phase)
    ensures Run(s, es).completions <= 1
    ensures s.entrance == NotBuilt ==> Run(s, es).phase == Entering && Run(s, es).completions == 0
    decreases |es|
  {
    if es != [] {
      StepKeeps(s, es[0]);
      RunKeeps(Step(s, es[0]), es[1..]);
    }
  }

  /**
   * In every reachable state the markup is on the page exactly while no exit timeline has
   * been built: the moment the exit starts, the component returns `null`, so the exit
   * timeline runs on nodes that are no longer rendered.
   */
  lemma MarkupGoneOnceExitStarts(s: State)
    requires Inv(s)
    ensures Renders(s.isLoading, s.phase) <==> s.exit == NotBuilt
  {
  }
}
