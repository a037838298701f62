/**
 * The full-screen video player's controls. Playback itself is outside the
 * model: each handler returns the command it would send to the player, and
 * the player's status report is an input.
 */
module VideoPlayer {
  import opened Wrappers

  /** The last status the player reported; every field is absent before the first report. */
  datatype PlaybackStatus = PlaybackStatus(isPlaying: Option<bool>, positionMillis: Option<int>, durationMillis: Option<int>)

  const NoStatus: PlaybackStatus := PlaybackStatus(None, None, None)

  datatype PlayerCommand = SetPosition(millis: int) | Pause | Play | PresentFullscreen | DismissFullscreen

  /** How far one skip moves, in milliseconds. */
  const SkipMillis: int := 10000

  /** A number that JavaScript treats as true: present and non-zero. */
  predicate Truthy(n: Option<int>)
  {
    n.Some? && n.value != 0
  }

  predicate Playing(s: PlaybackStatus)
  {
    s.isPlaying == Some(true)
  }

  /** Ten seconds before the position, clamped at the start of the video. */
  function SkipBackTarget(position: int): int
  {
    if position - SkipMillis > 0 then position - SkipMillis else 0
  }

  /** Ten seconds after the position, clamped at the end of the video. */
  function SkipForwardTarget(position: int, duration: int): int
  {
    if duration < position + SkipMillis then duration else position + SkipMillis
  }

  /** Skipping back lands between the start and the current position, ten seconds back when there is room. */
  lemma SkipBackBounds(position: int)
    requires position >= 0
    ensures 0 <= SkipBackTarget(position) <= position
    ensures position >= SkipMillis ==> SkipBackTarget(position) == position - SkipMillis
    ensures position < SkipMillis ==> SkipBackTarget(position) == 0
  {
  }

  /** Skipping forward never passes the end and, from inside the video, never goes back. */
  lemma SkipForwardBounds(position: int, duration: int)
    ensures SkipForwardTarget(position, duration) <= duration
    ensures SkipForwardTarget(position, duration) <= position + SkipMillis
    ensures position <= duration ==> position <= SkipForwardTarget(position, duration)
    ensures position + SkipMillis <= duration ==> SkipForwardTarget(position, duration) == position + SkipMillis
  {
  }

  class VideoPlayerScreen {
    var hasPlayer: bool
    var isFullscreen: bool
    var showControls: bool
    var status: PlaybackStatus

    /** Before the video mounts there is no player; controls start shown and not full screen. */
    constructor ()
      ensures !hasPlayer && !isFullscreen && showControls && status == NoStatus
    {
      hasPlayer := false;
      isFullscreen := false;
      showControls := true;
      status := NoStatus;
    }

    /** The player reference being set (on mount) or cleared (on unmount). */
    method SetPlayerRef(present: bool)
      modifies this`hasPlayer
      ensures hasPlayer == present
    {
      hasPlayer := present;
    }

    /** `onPlaybackStatusUpdate` */
    method UpdateStatus(s: PlaybackStatus)
      modifies this`status
      ensures status == s
    {
      status := s;
    }

    /** Hides the controls when shown and shows them when hidden. */
    method ToggleControls()
      modifies this`showControls
      ensures showControls == !old(showControls)
    {
      if showControls {
        showControls := false;
      } else {
        showControls := true;
      }
    }

    /** With a player, asks it to leave or enter full screen and flips the flag; without one, does nothing. */
    method ToggleFullscreen() returns (command: Option<PlayerCommand>)
      modifies this`isFullscreen
      ensures old(hasPlayer) ==>
        (isFullscreen == !old(isFullscreen) &&
         command == Some(if old(isFullscreen) then DismissFullscreen else PresentFullscreen))
      ensures !old(hasPlayer) ==> isFullscreen == old(isFullscreen) && command == None
    {
      command := None;
      if hasPlayer {
        if isFullscreen {
          command := Some(DismissFullscreen);
        } else {
          command := Some(PresentFullscreen);
        }
        isFullscreen := !isFullscreen;
      }
    }

    /** Pauses when the last status says playing and plays otherwise; nothing without a player. */
    method TogglePlayPause() returns (command: Option<PlayerCommand>)
      ensures command.Some? <==> hasPlayer
      ensures hasPlayer && Playing(status) ==> command == Some(Pause)
      ensures hasPlayer && !Playing(status) ==> command == Some(Play)
    {
      command := None;
      if hasPlayer {
        if status.isPlaying == Some(true) {
          command := Some(Pause);
        } else {
          command := Some(Play);
        }
      }
    }

    /**
     * Seeks ten seconds back, not before the start, and only when there is a
     * player and a non-zero position.
     */
    method SkipBackward() returns (command: Option<PlayerCommand>)
      ensures command.Some? <==> hasPlayer && Truthy(status.positionMillis)
      ensures command.Some? ==> command == Some(SetPosition(SkipBackTarget(status.positionMillis.value)))
      ensures command.Some? && status.positionMillis.value >= 0 ==>
        0 <= command.value.millis <= status.positionMillis.value
    {
      command := None;
      if hasPlayer && status.positionMillis.Some? && status.positionMillis.value != 0 {
        var position := status.positionMillis.value;
        SkipBackBounds(if position >= 0 then position else 0);
        command := Some(SetPosition(if position - SkipMillis > 0 then position - SkipMillis else 0));
      }
    }

    /**
     * Seeks ten seconds forward, not past the end, and only when there is a
     * player and both position and duration are non-zero.
     */
    method SkipForward() returns (command: Option<PlayerCommand>)
      ensures command.Some? <==> hasPlayer && Truthy(status.positionMillis) && Truthy(status.durationMillis)
      ensures command.Some? ==>
        command == Some(SetPosition(SkipForwardTarget(status.positionMillis.value, status.durationMillis.value)))
      ensures command.Some? ==> command.value.millis <= status.durationMillis.value
    {
      command := None;
      if hasPlayer && Truthy(status.positionMillis) && Truthy(status.durationMillis) {
        var position, duration := status.positionMillis.value, status.durationMillis.value;
        command := Some(SetPosition(if duration < position + SkipMillis then duration else position + SkipMillis));
      }
    }
  }
}
