/**
 * The envelope that opens the invitation (EnvelopeSection).
 *
 * The component has four pieces of state (animationStage, isHovered,
 * hoverStep, cardSlideUp) and changes them in two ways: the visitor taps
 * the envelope, or a setTimeout callback runs. Timer durations do not
 * matter for what the state can become, so a pending timer is a tag in a
 * set, and "the timer fires" is an event that needs the tag to be pending.
 *
 * The pure functions below (TapStep, FireStep, Step) are the specification;
 * the class EnvelopeSection updates its fields in place and is proved to
 * follow them.
 */
module Envelope {
  import opened Opt

  /** The animation stages, in the only order they are ever visited. */
  datatype Stage = Falling | Front | Flipping | Back

  function Rank(s: Stage): nat {
    match s
    case Falling => 0
    case Front => 1
    case Flipping => 2
    case Back => 3
  }

  /** Every setTimeout the component arms, named after what its callback does. */
  datatype Timer =
    | FallTimer        // 2500 ms after mount: the stage becomes front
    | FlipTimer        // 800 ms after the tap on the front: the stage becomes back
    | HoverTwoTimer    // 600 ms: hoverStep becomes 2, then arms HoverThreeTimer
    | HoverThreeTimer  // 700 ms: hoverStep becomes 3, then arms SlideTimer
    | SlideTimer       // 800 ms: cardSlideUp becomes true, then arms OpenTimer
    | OpenTimer        // 1000 ms: calls onOpen

  /** The chained timers of the reveal sequence; none of them is ever cleared. */
  const RevealTimers: set<Timer> := {HoverTwoTimer, HoverThreeTimer, SlideTimer, OpenTimer}

  /**
   * The component's state, the timers it has armed and not yet seen fire,
   * and whether it is still mounted (a state setter after unmount is a no-op).
   */
  datatype Snapshot = Snapshot(
    stage: Stage,
    isHovered: bool,
    hoverStep: nat,
    cardSlideUp: bool,
    pending: set<Timer>,
    mounted: bool)

  datatype Event = Tap | Fire(timer: Timer) | Unmount

  /** The state after an event and which of the two callbacks it invoked. */
  datatype Outcome = Outcome(after: Snapshot, envelopeClicked: bool, openCalled: bool)

  /** The state right after mount: the falling timer is the only one armed. */
  function Initial(): Snapshot {
    Snapshot(Falling, false, 0, false, {FallTimer}, true)
  }

  /** A tap needs the button on screen; a timer can only fire while pending. */
  predicate Enabled(s: Snapshot, e: Event) {
    match e
    case Tap => s.mounted
    case Fire(t) => t in s.pending
    case Unmount => s.mounted
  }

  /** handleEnvelopeClick, with triggerAnimationSequence inlined. */
  function TapStep(s: Snapshot, hasClickHandler: bool): Outcome {
    match s.stage
    case Front =>
      Outcome(s.(stage := Flipping, pending := s.pending + {FlipTimer}), hasClickHandler, false)
    case Back =>
      if s.hoverStep == 0 then
        Outcome(s.(isHovered := true, hoverStep := 1, pending := s.pending + {HoverTwoTimer}), false, false)
      else
        Outcome(s, false, true)
    case _ => Outcome(s, false, false)
  }

  /**
   * The callback of a pending timer. After unmount the state setters do
   * nothing, but the nested setTimeout calls still run, and so does onOpen.
   */
  function FireStep(s: Snapshot, t: Timer): Outcome
    requires t in s.pending
  {
    var rest := s.pending - {t};
    var live := s.mounted;
    match t
    case FallTimer =>
      Outcome(s.(stage := if live then Front else s.stage, pending := rest), false, false)
    case FlipTimer =>
      Outcome(s.(stage := if live then Back else s.stage, pending := rest), false, false)
    case HoverTwoTimer =>
      Outcome(s.(hoverStep := if live then 2 else s.hoverStep, pending := rest + {HoverThreeTimer}), false, false)
    case HoverThreeTimer =>
      Outcome(s.(hoverStep := if live then 3 else s.hoverStep, pending := rest + {SlideTimer}), false, false)
    case SlideTimer =>
      Outcome(s.(cardSlideUp := live || s.cardSlideUp, pending := rest + {OpenTimer}), false, false)
    case OpenTimer =>
      Outcome(s.(pending := rest), false, true)
  }

  /** The effect's cleanup clears the falling timer and nothing else. */
  function UnmountStep(s: Snapshot): Outcome {
    Outcome(s.(mounted := false, pending := s.pending - {FallTimer}), false, false)
  }

  function Step(s: Snapshot, e: Event, hasClickHandler: bool): Outcome
    requires Enabled(s, e)
  {
    match e
    case Tap => TapStep(s, hasClickHandler)
    case Fire(t) => FireStep(s, t)
    case Unmount => UnmountStep(s)
  }

  /** At most one timer of the reveal chain is pending at a time. */
  predicate AtMostOneReveal(p: set<Timer>) {
    && (HoverTwoTimer in p ==> HoverThreeTimer !in p && SlideTimer !in p && OpenTimer !in p)
    && (HoverThreeTimer in p ==> SlideTimer !in p && OpenTimer !in p)
    && (SlideTimer in p ==> OpenTimer !in p)
  }

  /** What holds of every state the component can reach from mount. */
  predicate Inv(s: Snapshot) {
    && s.hoverStep <= 3
    && (s.stage != Back ==> s.hoverStep == 0)
    && (s.isHovered <==> s.hoverStep >= 1)
    && (s.cardSlideUp ==> s.hoverStep == 3)
    && (FallTimer in s.pending <==> s.stage == Falling && s.mounted)
    && (FlipTimer in s.pending ==> s.stage == Flipping)
    && (s.mounted && s.stage == Flipping ==> FlipTimer in s.pending)
    && (s.hoverStep == 0 ==> s.pending !! RevealTimers)
    && AtMostOneReveal(s.pending)
    && (s.mounted ==>
          && (HoverTwoTimer in s.pending <==> s.hoverStep == 1)
          && (HoverThreeTimer in s.pending <==> s.hoverStep == 2)
          && (SlideTimer in s.pending <==> s.hoverStep == 3 && !s.cardSlideUp)
          && (OpenTimer in s.pending ==> s.cardSlideUp))
  }

  lemma InitialState()
    ensures Inv(Initial())
    ensures Initial().stage == Falling && Initial().hoverStep == 0
    ensures !Initial().cardSlideUp && !Initial().isHovered
    ensures Initial().pending == {FallTimer}
  {
  }

  lemma StepPreservesInv(s: Snapshot, e: Event, h: bool)
    requires Inv(s) && Enabled(s, e)
    ensures Inv(Step(s, e, h).after)
  {
  }

  /**
   * The stage never moves backwards, and each of its three moves has exactly
   * one cause: the falling timer, a tap on the front, the flip timer.
   */
  lemma StageOnlyAdvances(s: Snapshot, e: Event, h: bool)
    requires Inv(s) && Enabled(s, e)
    ensures var s' := Step(s, e, h).after;
      && Rank(s'.stage) >= Rank(s.stage)
      && (s'.stage != s.stage ==>
            || (s.stage == Falling && s'.stage == Front && e == Fire(FallTimer))
            || (s.stage == Front && s'.stage == Flipping && e == Tap)
            || (s.stage == Flipping && s'.stage == Back && e == Fire(FlipTimer)))
  {
  }

  /**
   * The reveal only moves forward: hoverStep never decreases, isHovered and
   * cardSlideUp never revert, and cardSlideUp is set only by the slide timer
   * once hoverStep is 3.
   */
  lemma RevealOnlyAdvances(s: Snapshot, e: Event, h: bool)
    requires Inv(s) && Enabled(s, e)
    ensures var s' := Step(s, e, h).after;
      && s'.hoverStep >= s.hoverStep
      && (s.isHovered ==> s'.isHovered)
      && (s.cardSlideUp ==> s'.cardSlideUp)
      && (!s.cardSlideUp && s'.cardSlideUp ==> e == Fire(SlideTimer) && s.hoverStep == 3)
  {
  }

  /** While the envelope falls or flips the button is disabled and a tap does nothing. */
  lemma TapIgnoredWhileFallingOrFlipping(s: Snapshot, h: bool)
    requires s.mounted && (s.stage == Falling || s.stage == Flipping)
    ensures Step(s, Tap, h) == Outcome(s, false, false)
  {
  }

  /**
   * A tap on the front calls onEnvelopeClick (when given), starts the flip
   * and arms one timer, not armed before, which turns the envelope to its back.
   */
  lemma TapOnFront(s: Snapshot, h: bool)
    requires Inv(s) && s.mounted && s.stage == Front
    ensures var o := Step(s, Tap, h);
      && o.envelopeClicked == h && !o.openCalled
      && o.after == s.(stage := Flipping, pending := s.pending + {FlipTimer})
      && FlipTimer !in s.pending
      && FireStep(o.after, FlipTimer).after.stage == Back
  {
  }

  /**
   * The first tap on the back starts the reveal: isHovered, hoverStep 1,
   * and one new timer. Each timer of the chain then arms the next one, so
   * hoverStep goes 2, 3, then cardSlideUp, and only after that onOpen.
   */
  lemma TapStartsReveal(s: Snapshot, h: bool)
    requires Inv(s) && s.mounted && s.stage == Back && s.hoverStep == 0
    ensures var o := Step(s, Tap, h);
      && !o.envelopeClicked && !o.openCalled
      && o.after == s.(isHovered := true, hoverStep := 1, pending := s.pending + {HoverTwoTimer})
      && HoverTwoTimer !in s.pending
    ensures var s1 := Step(s, Tap, h).after;
      var o2 := FireStep(s1, HoverTwoTimer);
      var o3 := FireStep(o2.after, HoverThreeTimer);
      var o4 := FireStep(o3.after, SlideTimer);
      var o5 := FireStep(o4.after, OpenTimer);
      && o2.after.hoverStep == 2 && !o2.openCalled
      && o3.after.hoverStep == 3 && !o3.after.cardSlideUp && !o3.openCalled
      && o4.after.cardSlideUp && !o4.openCalled
      && o5.openCalled && o5.after.pending == s.pending
  {
  }

  /**
   * A tap on the back during the reveal calls onOpen at once and changes
   * nothing: in particular the reveal timers already armed stay pending.
   */
  lemma TapMidRevealOpens(s: Snapshot, h: bool)
    requires s.mounted && s.stage == Back && s.hoverStep != 0
    ensures Step(s, Tap, h) == Outcome(s, false, true)
  {
  }

  /**
   * onOpen has two callers: a tap during the reveal, and the last reveal
   * timer. While mounted, that timer finds the card already slid up.
   */
  lemma OpenedOnlyByTapOrLastTimer(s: Snapshot, e: Event, h: bool)
    requires Inv(s) && Enabled(s, e)
    ensures Step(s, e, h).openCalled ==>
      || (e == Tap && s.stage == Back && s.hoverStep != 0)
      || e == Fire(OpenTimer)
    ensures Step(s, e, h).openCalled && s.mounted && e.Fire? ==> s.cardSlideUp && s.hoverStep == 3
  {
  }

  /** How many times each callback was invoked along a run of events. */
  datatype Trace = Trace(final: Snapshot, clicks: nat, opens: nat)

  /** Applies the events in order; None when one of them is not enabled. */
  function Run(s: Snapshot, events: seq<Event>, h: bool): Option<Trace>
    decreases |events|
  {
    if events == [] then Some(Trace(s, 0, 0))
    else if !Enabled(s, events[0]) then None
    else
      var o := Step(s, events[0], h);
      match Run(o.after, events[1..], h)
      case None => None
      case Some(t) =>
        Some(Trace(t.final,
                   t.clicks + (if o.envelopeClicked then 1 else 0),
                   t.opens + (if o.openCalled then 1 else 0)))
  }

  /**
   * Along any run from a reachable state the invariant holds at the end,
   * the stage has not moved back, and onEnvelopeClick was invoked at most
   * once, and not at all once the envelope has started to flip.
   */
  lemma {:induction false} RunKeepsInvariant(s: Snapshot, events: seq<Event>, h: bool)
    requires Inv(s) && Run(s, events, h).Some?
    decreases |events|
    ensures var t := Run(s, events, h).value;
      && Inv(t.final)
      && Rank(t.final.stage) >= Rank(s.stage)
      && t.clicks <= (if Rank(s.stage) <= 1 then 1 else 0)
  {
    if events != [] {
      var o := Step(s, events[0], h);
      StepPreservesInv(s, events[0], h);
      StageOnlyAdvances(s, events[0], h);
      RunKeepsInvariant(o.after, events[1..], h);
    }
  }

  /** From mount, onEnvelopeClick is invoked at most once in any run. */
  lemma EnvelopeClickAtMostOnce(events: seq<Event>, h: bool)
    requires Run(Initial(), events, h).Some?
    ensures Run(Initial(), events, h).value.clicks <= 1
  {
    RunKeepsInvariant(Initial(), events, h);
  }

  /** The full sequence from mount: fall, tap, flip, tap, the reveal chain. */
  const FullReveal: seq<Event> := [
    Fire(FallTimer), Tap, Fire(FlipTimer), Tap,
    Fire(HoverTwoTimer), Fire(HoverThreeTimer), Fire(SlideTimer), Fire(OpenTimer)]

  /** Tapping through every stage invokes each callback once and ends with the card up. */
  lemma FullRevealOpensOnce(h: bool)
    ensures Run(Initial(), FullReveal, h).Some?
    ensures var t := Run(Initial(), FullReveal, h).value;
      && t.opens == 1 && t.clicks == (if h then 1 else 0)
      && t.final.stage == Back && t.final.hoverStep == 3 && t.final.cardSlideUp
      && t.final.pending == {}
  {
    var s0 := Initial();
    var s1 := Step(s0, Fire(FallTimer), h).after;
    var s2 := Step(s1, Tap, h).after;
    var s3 := Step(s2, Fire(FlipTimer), h).after;
    var s4 := Step(s3, Tap, h).after;
    var s5 := Step(s4, Fire(HoverTwoTimer), h).after;
    var s6 := Step(s5, Fire(HoverThreeTimer), h).after;
    var s7 := Step(s6, Fire(SlideTimer), h).after;
    var s8 := Step(s7, Fire(OpenTimer), h).after;
    assert s8.pending == {};
    assert Run(s8, [], h) == Some(Trace(s8, 0, 0));
    assert FullReveal[7..] == [Fire(OpenTimer)];
    assert FullReveal[6..] == [Fire(SlideTimer), Fire(OpenTimer)];
    assert FullReveal[5..] == [Fire(HoverThreeTimer)] + FullReveal[6..];
    assert FullReveal[4..] == [Fire(HoverTwoTimer)] + FullReveal[5..];
    assert FullReveal[3..] == [Tap] + FullReveal[4..];
    assert FullReveal[2..] == [Fire(FlipTimer)] + FullReveal[3..];
    assert FullReveal[1..] == [Tap] + FullReveal[2..];
  }

  /**
   * The reveal timers are never cleared, so a tap during the reveal calls
   * onOpen and the pending chain calls it a second time.
   */
  const SkipThenWait: seq<Event> := [
    Fire(FallTimer), Tap, Fire(FlipTimer), Tap, Tap,
    Fire(HoverTwoTimer), Fire(HoverThreeTimer), Fire(SlideTimer), Fire(OpenTimer)]

  lemma OpenCanRunTwice(h: bool)
    ensures Run(Initial(), SkipThenWait, h).Some?
    ensures Run(Initial(), SkipThenWait, h).value.opens == 2
  {
    var s0 := Initial();
    var s1 := Step(s0, Fire(FallTimer), h).after;
    var s2 := Step(s1, Tap, h).after;
    var s3 := Step(s2, Fire(FlipTimer), h).after;
    var s4 := Step(s3, Tap, h).after;
    var s5 := Step(s4, Tap, h).after;
    var s6 := Step(s5, Fire(HoverTwoTimer), h).after;
    var s7 := Step(s6, Fire(HoverThreeTimer), h).after;
    var s8 := Step(s7, Fire(SlideTimer), h).after;
    var s9 := Step(s8, Fire(OpenTimer), h).after;
    assert s3.stage == Back && s3.pending == {};
    assert s5 == s4 && s5.pending == {HoverTwoTimer};
    assert s6.pending == {HoverThreeTimer} && s7.pending == {SlideTimer};
    assert s8.pending == {OpenTimer} && s9.pending == {};
    assert Run(s9, [], h) == Some(Trace(s9, 0, 0));
    assert SkipThenWait[8..] == [Fire(OpenTimer)] && SkipThenWait[8..][1..] == [];
    assert Run(s8, SkipThenWait[8..], h).value.opens == 1;
    assert SkipThenWait[7..] == [Fire(SlideTimer)] + SkipThenWait[8..];
    assert Run(s7, SkipThenWait[7..], h).value.opens == 1;
    assert SkipThenWait[6..] == [Fire(HoverThreeTimer)] + SkipThenWait[7..];
    assert Run(s6, SkipThenWait[6..], h).value.opens == 1;
    assert SkipThenWait[5..] == [Fire(HoverTwoTimer)] + SkipThenWait[6..];
    assert Run(s5, SkipThenWait[5..], h).value.opens == 1;
    assert SkipThenWait[4..] == [Tap] + SkipThenWait[5..];
    assert Run(s4, SkipThenWait[4..], h).value.opens == 2;
    assert SkipThenWait[3..] == [Tap] + SkipThenWait[4..];
    assert Run(s3, SkipThenWait[3..], h).value.opens == 2;
    assert SkipThenWait[2..] == [Fire(FlipTimer)] + SkipThenWait[3..];
    assert Run(s2, SkipThenWait[2..], h).value.opens == 2;
    assert SkipThenWait[1..] == [Tap] + SkipThenWait[2..];
    assert Run(s1, SkipThenWait[1..], h).value.opens == 2;
  }

  /** The component instance: its state lives in fields that the handlers overwrite. */
  class EnvelopeSection {
    var stage: Stage
    var isHovered: bool
    var hoverStep: nat
    var cardSlideUp: bool
    var pending: set<Timer>
    var mounted: bool
    /** Whether the parent passed onEnvelopeClick. */
    const hasClickHandler: bool

    function Snap(): Snapshot
      reads this
    {
      Snapshot(stage, isHovered, hoverStep, cardSlideUp, pending, mounted)
    }

    ghost predicate Valid()
      reads this
    {
      Inv(Snap())
    }

    /** Mounting sets the initial state and runs the effect that arms the falling timer. */
    constructor (hasClickHandler: bool)
      ensures Valid() && Snap() == Initial()
      ensures this.hasClickHandler == hasClickHandler
    {
      this.hasClickHandler := hasClickHandler;
      stage, isHovered, hoverStep, cardSlideUp := Falling, false, 0, false;
      pending, mounted := {FallTimer}, true;
    }

    method TriggerAnimationSequence()
      modifies this
      ensures old(stage) == Back ==>
        Snap() == old(Snap()).(isHovered := true, hoverStep := 1, pending := old(pending) + {HoverTwoTimer})
      ensures old(stage) != Back ==> Snap() == old(Snap())
    {
      if stage == Back {
        isHovered := true;
        hoverStep := 1;
        pending := pending + {HoverTwoTimer};
      }
    }

    /** The button's click handler; the results say which callbacks it invoked. */
    method HandleEnvelopeClick() returns (envelopeClicked: bool, openCalled: bool)
      requires Valid() && mounted
      modifies this
      ensures Valid()
      ensures var o := Step(old(Snap()), Tap, hasClickHandler);
        Snap() == o.after && envelopeClicked == o.envelopeClicked && openCalled == o.openCalled
    {
      ghost var before := Snap();
      envelopeClicked, openCalled := false, false;
      if stage == Front {
        if hasClickHandler {
          envelopeClicked := true;
        }
        stage := Flipping;
        pending := pending + {FlipTimer};
      } else if stage == Back {
        if hoverStep == 0 {
          TriggerAnimationSequence();
        } else {
          openCalled := true;
        }
      }
      StepPreservesInv(before, Tap, hasClickHandler);
    }

    /** A pending timer's callback runs; the result says whether it called onOpen. */
    method TimerFires(t: Timer) returns (openCalled: bool)
      requires Valid() && t in pending
      modifies this
      ensures Valid()
      ensures var o := Step(old(Snap()), Fire(t), hasClickHandler);
        Snap() == o.after && openCalled == o.openCalled
    {
      ghost var before := Snap();
      pending := pending - {t};
      openCalled := false;
      match t {
        case FallTimer =>
          if mounted { stage := Front; }
        case FlipTimer =>
          if mounted { stage := Back; }
        case HoverTwoTimer =>
          if mounted { hoverStep := 2; }
          pending := pending + {HoverThreeTimer};
        case HoverThreeTimer =>
          if mounted { hoverStep := 3; }
          pending := pending + {SlideTimer};
        case SlideTimer =>
          if mounted { cardSlideUp := true; }
          pending := pending + {OpenTimer};
        case OpenTimer =>
          openCalled := true;
      }
      StepPreservesInv(before, Fire(t), hasClickHandler);
    }

    /** The effect cleanup: only the falling timer is cleared. */
    method Unmount()
      requires Valid() && mounted
      modifies this
      ensures Valid()
      ensures Snap() == Step(old(Snap()), Event.Unmount, hasClickHandler).after
    {
      ghost var before := Snap();
      mounted := false;
      pending := pending - {FallTimer};
      StepPreservesInv(before, Event.Unmount, hasClickHandler);
    }
  }
}
