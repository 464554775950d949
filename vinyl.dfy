/**
 * The background music player (VinylPlayer): play, pause and mute flags
 * kept beside an audio element, and a visibility handler that pauses the
 * music while the page is hidden and resumes it when the page comes back.
 *
 * Whether the element's play() promise resolves or rejects is decided by
 * the browser; here it is an input of each operation that calls it.
 */
module Vinyl {

  /**
   * The flags of the component. `hasAudio` says whether the audio element
   * is attached (audioRef.current is set); `audioMuted` is the element's own
   * `muted` property, which toggleMute writes beside the `isMuted` state.
   */
  datatype Player = Player(
    hasAudio: bool,
    isPlaying: bool,
    isPlayingRef: bool,
    isMuted: bool,
    audioMuted: bool,
    wasPlayingBeforeHidden: bool)

  datatype Visibility = Hidden | Visible

  /** The flags after an operation and the values it passed to onPlayStateChange. */
  datatype Outcome = Outcome(after: Player, notified: seq<bool>)

  function Initial(hasAudio: bool): Player {
    Player(hasAudio, false, false, false, false, false)
  }

  /** The playing state as the component last recorded it. */
  function Started(p: Player): Outcome {
    Outcome(p.(isPlayingRef := true, isPlaying := true), [true])
  }

  function Stopped(p: Player): Outcome {
    Outcome(p.(isPlayingRef := false, isPlaying := false), [false])
  }

  /** play: the flags change only once the element's play() has resolved. */
  function PlayStep(p: Player, playSucceeds: bool): Outcome {
    if p.hasAudio && playSucceeds then Started(p) else Outcome(p, [])
  }

  function PauseStep(p: Player): Outcome {
    if p.hasAudio then Stopped(p) else Outcome(p, [])
  }

  function TogglePlayStep(p: Player, playSucceeds: bool): Outcome {
    if p.isPlaying then PauseStep(p) else PlayStep(p, playSucceeds)
  }

  function ToggleMuteStep(p: Player): Player {
    if p.hasAudio then p.(audioMuted := !p.isMuted, isMuted := !p.isMuted) else p
  }

  /**
   * handleVisibilityChange. On hiding, the playing flag is remembered
   * before the audio element is looked at; on showing, playback resumes
   * only if it was playing before.
   */
  function VisibilityStep(p: Player, v: Visibility, resumeSucceeds: bool): Outcome {
    match v
    case Hidden =>
      var p1 := p.(wasPlayingBeforeHidden := p.isPlayingRef);
      if p.isPlayingRef && p.hasAudio then Stopped(p1) else Outcome(p1, [])
    case Visible =>
      if p.wasPlayingBeforeHidden && p.hasAudio && resumeSucceeds then Started(p) else Outcome(p, [])
  }

  /** The element's own play and pause events, which only an attached element can raise. */
  function OnPlayEvent(p: Player): Player
    requires p.hasAudio
  {
    p.(isPlayingRef := true, isPlaying := true)
  }

  function OnPauseEvent(p: Player): Player
    requires p.hasAudio
  {
    p.(isPlayingRef := false, isPlaying := false)
  }

  /**
   * What every reachable state satisfies: the ref mirrors the state flag,
   * the element's muted property mirrors isMuted, and nothing is or was
   * playing without an element.
   */
  predicate Inv(p: Player) {
    && p.isPlayingRef == p.isPlaying
    && p.audioMuted == p.isMuted
    && (!p.hasAudio ==> !p.isPlaying && !p.wasPlayingBeforeHidden && !p.isMuted)
  }

  /** The invariant holds initially and every operation keeps it. */
  lemma OperationsKeepInv(p: Player, ok: bool, v: Visibility)
    requires Inv(p)
    ensures Inv(Initial(p.hasAudio))
    ensures Inv(PlayStep(p, ok).after) && Inv(PauseStep(p).after) && Inv(TogglePlayStep(p, ok).after)
    ensures Inv(ToggleMuteStep(p)) && Inv(VisibilityStep(p, v, ok).after)
    ensures p.hasAudio ==> Inv(OnPlayEvent(p)) && Inv(OnPauseEvent(p))
  {
  }

  /** A resolved play starts playback and says so; a rejected one changes nothing. */
  lemma PlayOutcome(p: Player, ok: bool)
    requires p.hasAudio
    ensures ok ==> PlayStep(p, ok).after.isPlaying && PlayStep(p, ok).after.isPlayingRef && PlayStep(p, ok).notified == [true]
    ensures !ok ==> PlayStep(p, ok) == Outcome(p, [])
  {
  }

  /** pause stops playback and says so, whatever the state before. */
  lemma PauseOutcome(p: Player)
    requires p.hasAudio
    ensures !PauseStep(p).after.isPlaying && !PauseStep(p).after.isPlayingRef && PauseStep(p).notified == [false]
  {
  }

  /**
   * togglePlay pauses a playing player and otherwise tries to play: with an
   * element attached and a play that resolves, it flips the playing flag,
   * and a second toggle flips it back.
   */
  lemma TogglePlayFlips(p: Player)
    requires Inv(p) && p.hasAudio
    ensures TogglePlayStep(p, true).after.isPlaying == !p.isPlaying
    ensures TogglePlayStep(TogglePlayStep(p, true).after, true).after == p
    ensures p.isPlaying ==> TogglePlayStep(p, false) == PauseStep(p)
  {
  }

  /** toggleMute flips the muted flag, so doing it twice restores the player. */
  lemma ToggleMuteTwice(p: Player)
    requires Inv(p)
    ensures p.hasAudio ==> ToggleMuteStep(p).isMuted == !p.isMuted
    ensures ToggleMuteStep(ToggleMuteStep(p)) == p
  {
  }

  /**
   * Hiding the page pauses a playing player and remembers that it was
   * playing; showing it again, with a resume that resolves, restores the
   * playing flag (and only that flag and the memory have changed).
   */
  lemma HideThenShowRestores(p: Player)
    requires Inv(p)
    ensures var hidden := VisibilityStep(p, Hidden, true).after;
      && hidden.wasPlayingBeforeHidden == p.isPlaying
      && !hidden.isPlaying
      && VisibilityStep(hidden, Visible, true).after == p.(wasPlayingBeforeHidden := p.isPlaying)
  {
  }

  /** Showing the page resumes nothing unless the player was playing before it was hidden. */
  lemma ShowWithoutMemoryIsNoOp(p: Player, ok: bool)
    requires !p.wasPlayingBeforeHidden
    ensures VisibilityStep(p, Visible, ok) == Outcome(p, [])
  {
  }

  /** With no audio element attached, no operation changes anything or notifies. */
  lemma NoAudioNoEffect(p: Player, ok: bool, v: Visibility)
    requires Inv(p) && !p.hasAudio
    ensures PlayStep(p, ok) == Outcome(p, []) && PauseStep(p) == Outcome(p, [])
    ensures TogglePlayStep(p, ok) == Outcome(p, []) && ToggleMuteStep(p) == p
    ensures VisibilityStep(p, v, ok) == Outcome(p, [])
  {
  }

  /** The component instance, with the flags as fields and a log of notifications. */
  class VinylPlayer {
    const hasAudio: bool
    var isPlaying: bool
    var isPlayingRef: bool
    var isMuted: bool
    var audioMuted: bool
    var wasPlayingBeforeHidden: bool
    /** Every value passed to onPlayStateChange by the handlers, in order. */
    var notifications: seq<bool>

    function State(): Player
      reads this
    {
      Player(hasAudio, isPlaying, isPlayingRef, isMuted, audioMuted, wasPlayingBeforeHidden)
    }

    ghost predicate Valid()
      reads this
    {
      Inv(State())
    }

    constructor (hasAudio: bool)
      ensures Valid() && State() == Initial(hasAudio) && notifications == []
    {
      this.hasAudio := hasAudio;
      isPlaying, isPlayingRef, isMuted, audioMuted, wasPlayingBeforeHidden := false, false, false, false, false;
      notifications := [];
    }

    method Play(playSucceeds: bool)
      requires Valid()
      modifies this
      ensures Valid()
      ensures State() == PlayStep(old(State()), playSucceeds).after
      ensures notifications == old(notifications) + PlayStep(old(State()), playSucceeds).notified
    {
      if hasAudio && playSucceeds {
        isPlayingRef := true;
        isPlaying := true;
        notifications := notifications + [true];
      }
    }

    method Pause()
      requires Valid()
      modifies this
      ensures Valid()
      ensures State() == PauseStep(old(State())).after
      ensures notifications == old(notifications) + PauseStep(old(State())).notified
    {
      if hasAudio {
        isPlayingRef := false;
        isPlaying := false;
        notifications := notifications + [false];
      }
    }

    method TogglePlay(playSucceeds: bool)
      requires Valid()
      modifies this
      ensures Valid()
      ensures State() == TogglePlayStep(old(State()), playSucceeds).after
      ensures notifications == old(notifications) + TogglePlayStep(old(State()), playSucceeds).notified
    {
      if isPlaying {
        Pause();
      } else {
        Play(playSucceeds);
      }
    }

    method ToggleMute()
      requires Valid()
      modifies this
      ensures Valid()
      ensures State() == ToggleMuteStep(old(State())) && notifications == old(notifications)
    {
      if hasAudio {
        audioMuted := !isMuted;
        isMuted := !isMuted;
      }
    }

    method HandleVisibilityChange(v: Visibility, resumeSucceeds: bool)
      requires Valid()
      modifies this
      ensures Valid()
      ensures State() == VisibilityStep(old(State()), v, resumeSucceeds).after
      ensures notifications == old(notifications) + VisibilityStep(old(State()), v, resumeSucceeds).notified
    {
      match v {
        case Hidden =>
          wasPlayingBeforeHidden := isPlayingRef;
          if isPlayingRef && hasAudio {
            isPlayingRef := false;
            isPlaying := false;
            notifications := notifications + [false];
          }
        case Visible =>
          if wasPlayingBeforeHidden && hasAudio && resumeSucceeds {
            isPlayingRef := true;
            isPlaying := true;
            notifications := notifications + [true];
          }
      }
    }

    /** The element's onPlay handler. */
    method AudioPlayed()
      requires Valid() && hasAudio
      modifies this
      ensures Valid()
      ensures State() == OnPlayEvent(old(State())) && notifications == old(notifications)
    {
      isPlayingRef := true;
      isPlaying := true;
    }

    /** The element's onPause handler. */
    method AudioPaused()
      requires Valid() && hasAudio
      modifies this
      ensures Valid()
      ensures State() == OnPauseEvent(old(State())) && notifications == old(notifications)
    {
      isPlayingRef := false;
      isPlaying := false;
    }
  }
}
