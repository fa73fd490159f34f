/**
 * The trim window and loop playback shared, line for line, by the three video editing
 * pages (text overlay, crop, colour removal): a timeline that seeks on touch, two
 * handles that bound the window [trimStart, trimEnd] while keeping it longer than half
 * a second, and a player kept inside that window.
 *
 * Times are seconds over `real`. Player commands are returned to the caller: a seek as
 * the time sought (`None` when no seek is issued), and `play()` or `pause()` as a
 * PlayerCommand. The player issues them in the order seek, then play or pause.
 */
module TrimTimeline {
  import opened Wrappers
  import opened TouchGestures

  /** A `play()` or `pause()` call on the video context. */
  datatype PlayerCommand = Play | Pause

  /** The smallest window length the handles keep, in seconds. */
  const MinGap: real := 0.5

  /** The duration assumed until the video reports its own. */
  const DefaultDuration: real := 10.0

  /** `Math.min(duration, trimEnd || duration)`: a zero end means "the whole video". */
  function TrimEndFor(duration: real, trimEnd: real): (r: real)
    ensures r <= duration
    ensures trimEnd == 0.0 ==> r == duration
    ensures trimEnd != 0.0 && trimEnd <= duration ==> r == trimEnd
    ensures trimEnd != 0.0 && duration < trimEnd ==> r == duration
  {
    Min(duration, if trimEnd == 0.0 then duration else trimEnd)
  }

  /** The time under a finger on the timeline track, clamped to the video. */
  function TimelineTime(clientX: real, rectLeft: real, rectWidth: Positive, duration: Positive): real
  {
    Clamp(0.0, duration, (clientX - rectLeft) / rectWidth * duration)
  }

  /**
   * A timeline touch always yields a time inside the video; on the track itself it is
   * proportional to the finger's position, the track's two ends giving 0 and the duration.
   */
  lemma TimelineTimeProperties(clientX: real, rectLeft: real, rectWidth: Positive, duration: Positive)
    ensures 0.0 <= TimelineTime(clientX, rectLeft, rectWidth, duration) <= duration
    ensures rectLeft <= clientX <= rectLeft + rectWidth ==>
      TimelineTime(clientX, rectLeft, rectWidth, duration) == (clientX - rectLeft) / rectWidth * duration
    ensures TimelineTime(rectLeft, rectLeft, rectWidth, duration) == 0.0
    ensures TimelineTime(rectLeft + rectWidth, rectLeft, rectWidth, duration) == duration
  {
    var f := (clientX - rectLeft) / rectWidth;
    if rectLeft <= clientX <= rectLeft + rectWidth {
      assert 0.0 <= f <= 1.0 by {
        assert f * rectWidth == clientX - rectLeft;
      }
      assert f * duration <= duration;
    }
  }

  /** The handle time for a drag: the handle's start time moved by the finger's offset, clamped. */
  function DragTime(dragStartTime: real, dragStartX: real, clientX: real, rectWidth: Positive, duration: Positive): real
  {
    Clamp(0.0, duration, dragStartTime + (clientX - dragStartX) / rectWidth * duration)
  }

  /** A drag that has not moved leaves an in-range handle where it was. */
  lemma DragTimeAtRest(dragStartTime: real, dragStartX: real, rectWidth: Positive, duration: Positive)
    requires 0.0 <= dragStartTime <= duration
    ensures DragTime(dragStartTime, dragStartX, dragStartX, rectWidth, duration) == dragStartTime
  {
  }

  /** Where a player time update leaves the playhead: wrapped or snapped into the window. */
  function PlaybackPosition(time: real, trimStart: real, trimEnd: real): (p: real)
    ensures time >= trimEnd ==> p == trimStart
    ensures time < trimEnd && time < trimStart ==> p == trimStart
    ensures trimStart <= time < trimEnd ==> p == time
  {
    if time >= trimEnd then trimStart else if time < trimStart then trimStart else time
  }

  /** Whatever the player reports, the playhead ends up inside a non-empty window. */
  lemma PlaybackStaysInWindow(time: real, trimStart: real, trimEnd: real)
    requires trimStart < trimEnd
    ensures trimStart <= PlaybackPosition(time, trimStart, trimEnd) < trimEnd
  {
  }

  /** Playback is unchanged by a second update at the position it settled on. */
  lemma PlaybackPositionIdempotent(time: real, trimStart: real, trimEnd: real)
    requires trimStart < trimEnd
    ensures var p := PlaybackPosition(time, trimStart, trimEnd);
      PlaybackPosition(p, trimStart, trimEnd) == p
  {
  }

  /** The trim state of one video page. */
  class Timeline {
    var trimStart: real
    var trimEnd: real
    var videoDuration: real
    var isPlaying: bool
    var currentTime: real
    var draggingStart: bool
    var draggingEnd: bool
    var dragStartX: real
    var dragStartTime: real

    ghost predicate Valid()
      reads this
    {
      0.0 < videoDuration
    }

    /** The trim window lies in the video and is longer than the minimum gap. */
    ghost predicate WellFormedWindow()
      reads this
    {
      0.0 <= trimStart && trimStart + MinGap < trimEnd && trimEnd <= videoDuration
    }

    /**
     * `onLoad` with a video path: the parsed window is stored, then `getVideoInfo`
     * assumes a 10-second video and caps the end at 10 (a zero end meaning 10).
     */
    constructor (trimStart: real, trimEnd: real)
      ensures Valid()
      ensures this.trimStart == trimStart && this.trimEnd == TrimEndFor(DefaultDuration, trimEnd)
      ensures videoDuration == DefaultDuration
      ensures !isPlaying && currentTime == 0.0 && !draggingStart && !draggingEnd
    {
      this.trimStart := trimStart;
      this.trimEnd := Min(DefaultDuration, if trimEnd == 0.0 then DefaultDuration else trimEnd);
      videoDuration := DefaultDuration;
      isPlaying, currentTime := false, 0.0;
      draggingStart, draggingEnd, dragStartX, dragStartTime := false, false, 0.0, 0.0;
    }

    /**
     * `togglePlay`: a playing video is paused, and nothing in the page changes (the
     * player's pause event clears `isPlaying`); a paused one is played, after a seek to
     * trimStart when the playhead is outside [trimStart, trimEnd).
     */
    method TogglePlay() returns (seek: Option<real>, command: PlayerCommand)
      modifies this`currentTime
      ensures command == Pause <==> isPlaying
      ensures command == Play <==> !isPlaying
      ensures isPlaying ==> seek == None && currentTime == old(currentTime)
      ensures !isPlaying && (old(currentTime) < trimStart || old(currentTime) >= trimEnd) ==>
        seek == Some(trimStart) && currentTime == trimStart
      ensures !isPlaying && trimStart <= old(currentTime) < trimEnd ==> seek == None && currentTime == old(currentTime)
      ensures !isPlaying && trimStart < trimEnd ==> trimStart <= currentTime < trimEnd
    {
      seek := None;
      if isPlaying {
        command := Pause;
      } else {
        if currentTime < trimStart || currentTime >= trimEnd {
          seek := Some(trimStart);
          currentTime := trimStart;
        }
        command := Play;
      }
    }

    /**
     * `onVideoTimeUpdate`: reaching the end pauses and rewinds to the start; a time before
     * the start seeks forward to it; any other time is recorded.
     */
    method OnVideoTimeUpdate(time: real) returns (seek: Option<real>, pause: bool)
      modifies this`currentTime, this`isPlaying
      ensures currentTime == PlaybackPosition(time, trimStart, trimEnd)
      ensures pause <==> time >= trimEnd
      ensures time >= trimEnd ==> !isPlaying && seek == Some(trimStart)
      ensures time < trimEnd ==> isPlaying == old(isPlaying)
      ensures time < trimEnd && time < trimStart ==> seek == Some(trimStart)
      ensures trimStart <= time < trimEnd ==> seek == None
    {
      if time >= trimEnd {
        isPlaying, currentTime := false, trimStart;
        return Some(trimStart), true;
      }
      if time < trimStart {
        currentTime := trimStart;
        return Some(trimStart), false;
      }
      currentTime := time;
      seek, pause := None, false;
    }

    /** `onVideoPlay`. */
    method OnVideoPlay()
      modifies this`isPlaying
      ensures isPlaying
    {
      isPlaying := true;
    }

    /** `onVideoPause`. */
    method OnVideoPause()
      modifies this`isPlaying
      ensures !isPlaying
    {
      isPlaying := false;
    }

    /** `onVideoEnded`: stopped and rewound to the window's start. */
    method OnVideoEnded() returns (seek: real)
      modifies this`isPlaying, this`currentTime
      ensures !isPlaying && currentTime == trimStart && seek == trimStart
    {
      isPlaying, currentTime := false, trimStart;
      seek := trimStart;
    }

    /** `onTimelineTouchStart`: seek to the touched time. */
    method OnTimelineTouchStart(clientX: real, rectLeft: real, rectWidth: Positive) returns (seek: real)
      requires Valid()
      modifies this`currentTime
      ensures 0.0 <= currentTime <= videoDuration
      ensures currentTime == TimelineTime(clientX, rectLeft, rectWidth, videoDuration) && seek == currentTime
    {
      var percent := (clientX - rectLeft) / rectWidth;
      currentTime := Max(0.0, Min(videoDuration, percent * videoDuration));
      seek := currentTime;
    }

    /** `onTimelineTouchMove`: follow the finger unless a handle is being dragged. */
    method OnTimelineTouchMove(clientX: real, rectLeft: real, rectWidth: Positive)
      requires Valid()
      modifies this`currentTime
      ensures draggingStart || draggingEnd ==> currentTime == old(currentTime)
      ensures !(draggingStart || draggingEnd) ==>
        0.0 <= currentTime <= videoDuration && currentTime == TimelineTime(clientX, rectLeft, rectWidth, videoDuration)
    {
      if draggingStart || draggingEnd {
        return;
      }
      var percent := (clientX - rectLeft) / rectWidth;
      currentTime := Max(0.0, Min(videoDuration, percent * videoDuration));
    }

    /** `onTimelineTouchEnd`: the player seeks to the chosen time unless a handle was dragged. */
    method OnTimelineTouchEnd() returns (seek: Option<real>)
      ensures draggingStart || draggingEnd ==> seek == None
      ensures !(draggingStart || draggingEnd) ==> seek == Some(currentTime)
    {
      if !draggingStart && !draggingEnd {
        return Some(currentTime);
      }
      return None;
    }

    /** `onHandleTouchStart`: remember which handle, the finger and the handle's time. */
    method OnHandleTouchStart(handle: string, clientX: real)
      modifies this`draggingStart, this`draggingEnd, this`dragStartX, this`dragStartTime
      ensures draggingStart <==> handle == "start"
      ensures draggingEnd <==> handle == "end"
      ensures dragStartX == clientX
      ensures dragStartTime == if handle == "start" then trimStart else trimEnd
    {
      draggingStart := handle == "start";
      draggingEnd := handle == "end";
      dragStartX := clientX;
      dragStartTime := if handle == "start" then trimStart else trimEnd;
    }

    /**
     * `onHandleTouchMove`: the dragged handle follows the finger, clamped to the video,
     * and moves only while the window stays longer than half a second; the player then
     * seeks to the handle. A well-formed window stays well-formed.
     */
    method OnHandleTouchMove(clientX: real, rectWidth: Positive) returns (seek: Option<real>)
      requires Valid()
      modifies this`trimStart, this`trimEnd, this`currentTime
      ensures var newTime := DragTime(dragStartTime, dragStartX, clientX, rectWidth, videoDuration);
        && (draggingStart && newTime < old(trimEnd) - MinGap ==>
              trimStart == newTime && trimEnd == old(trimEnd) && currentTime == newTime && seek == Some(newTime))
        && (!draggingStart && draggingEnd && newTime > old(trimStart) + MinGap ==>
              trimEnd == newTime && trimStart == old(trimStart) && currentTime == newTime && seek == Some(newTime))
        && (!(draggingStart && newTime < old(trimEnd) - MinGap) && !(!draggingStart && draggingEnd && newTime > old(trimStart) + MinGap) ==>
              trimStart == old(trimStart) && trimEnd == old(trimEnd) && currentTime == old(currentTime) && seek == None)
      ensures old(WellFormedWindow()) ==> WellFormedWindow()
      ensures seek.Some? ==> trimEnd - trimStart > MinGap
    {
      seek := None;
      if !draggingStart && !draggingEnd {
        return;
      }
      var deltaX := clientX - dragStartX;
      var deltaTime := deltaX / rectWidth * videoDuration;
      var newTime := Max(0.0, Min(videoDuration, dragStartTime + deltaTime));
      if draggingStart {
        if newTime < trimEnd - MinGap {
          trimStart := newTime;
          currentTime := newTime;
          seek := Some(newTime);
        }
      } else if draggingEnd {
        if newTime > trimStart + MinGap {
          trimEnd := newTime;
          currentTime := newTime;
          seek := Some(newTime);
        }
      }
    }

    /** `onHandleTouchEnd`. */
    method OnHandleTouchEnd()
      modifies this`draggingStart, this`draggingEnd
      ensures !draggingStart && !draggingEnd
    {
      draggingStart, draggingEnd := false, false;
    }

    /**
     * `onVideoLoadedMetadata`: a positive duration replaces the assumed one and caps the
     * end (a zero end meaning the whole video); anything else is ignored.
     */
    method OnVideoLoadedMetadata(duration: real)
      requires Valid()
      modifies this`videoDuration, this`trimEnd
      ensures Valid()
      ensures duration <= 0.0 ==> videoDuration == old(videoDuration) && trimEnd == old(trimEnd)
      ensures duration > 0.0 ==> videoDuration == duration && trimEnd == TrimEndFor(duration, old(trimEnd))
      ensures duration > 0.0 ==> trimEnd <= videoDuration
    {
      if duration > 0.0 {
        videoDuration := duration;
        trimEnd := Min(duration, if trimEnd == 0.0 then duration else trimEnd);
      }
    }
  }
}
