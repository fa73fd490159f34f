/**
 * The frame-sequence editor page: playback of the frame sequence on a timer, the
 * eyedropper's sample coordinate, and the batch that runs the chroma-key pass over
 * every frame with a per-frame fallback to the unprocessed frame.
 *
 * Each frame is a file path. Running the pass on one frame goes through the host
 * canvas (draw, read pixels, ChromaKey.RemoveColor, write pixels, export); the model
 * receives the outcome of that round trip per frame as a FrameOutcome.
 */
module VideoEdit {
  import opened Wrappers
  import opened ChromaKey

  /**
   * Outcome of processing one frame: the exported file, or a rejected promise. Each outcome
   * stands for the host round trip that runs ChromaKey.RemoveColor on the frame's pixels with
   * the colour and threshold of its batch (the page's selection, or a ReprocessJob's).
   */
  datatype FrameOutcome = Exported(path: string) | Rejected

  /** Why `processChromaKey` rejects. */
  datatype ChromaKeyError =
    | NeedsCloudFunction   // test mode: processing a video frame always rejects
    | NoFrames             // the frame list is empty

  /** The key colour (pure green) and threshold the page starts with. */
  const DefaultKeyColor: Color := Color(0, 255, 0)
  const DefaultThreshold: int := 30

  /** A re-keying job that `reprocessWithNewThreshold` starts and later completes. */
  datatype ReprocessJob = ReprocessJob(sources: seq<string>, color: Color, threshold: int)

  /** Element `i` of a JavaScript array, with `undefined` (out of range) read as "". */
  function At(s: seq<string>, i: int): (v: string)
    ensures 0 <= i < |s| ==> v == s[i]
    ensures !(0 <= i < |s|) ==> v == ""
  {
    if 0 <= i < |s| then s[i] else ""
  }

  /** `a || b` on strings: the empty string is falsy. */
  function OrElse(a: string, b: string): (v: string)
    ensures v == a || v == b
    ensures v == "" ==> a == "" && b == ""
    ensures a != "" ==> v == a
  {
    if a != "" then a else b
  }

  /** The frame kept at position i of a batch: the exported file, or the source on failure. */
  function Kept(source: string, outcome: FrameOutcome): string
  {
    match outcome
    case Exported(path) => path
    case Rejected => source
  }

  /**
   * The batch loop of `processChromaKey` and `reprocessWithNewThreshold`: one output per
   * input, in order; a frame whose processing rejects is replaced by its source frame.
   */
  method ProcessFrames(sources: seq<string>, outcomes: seq<FrameOutcome>) returns (processed: seq<string>)
    requires |outcomes| == |sources|
    ensures |processed| == |sources|
    ensures forall i :: 0 <= i < |sources| && outcomes[i].Exported? ==> processed[i] == outcomes[i].path
    ensures forall i :: 0 <= i < |sources| && outcomes[i].Rejected? ==> processed[i] == sources[i]
    ensures processed == WithFallback(sources, outcomes)
  {
    processed := [];
    var i := 0;
    while i < |sources|
      invariant 0 <= i <= |sources|
      invariant |processed| == i
      invariant forall j :: 0 <= j < i ==> processed[j] == Kept(sources[j], outcomes[j])
    {
      match outcomes[i] {
        case Exported(path) =>
          processed := processed + [path];
        case Rejected =>
          processed := processed + [sources[i]];
      }
      i := i + 1;
    }
  }

  /** The spec of ProcessFrames as a value, for the page's state. */
  function WithFallback(sources: seq<string>, outcomes: seq<FrameOutcome>): seq<string>
    requires |outcomes| == |sources|
  {
    seq(|sources|, i requires 0 <= i < |sources| => Kept(sources[i], outcomes[i]))
  }

  /** When every frame fails, the batch hands back the source frames unchanged. */
  lemma AllRejectedKeepsSources(sources: seq<string>, outcomes: seq<FrameOutcome>)
    requires |outcomes| == |sources|
    requires forall i :: 0 <= i < |outcomes| ==> outcomes[i].Rejected?
    ensures WithFallback(sources, outcomes) == sources
  {
  }

  /** The playback timer's step: the next frame, wrapping to 0 after the last. */
  function NextFrameIndex(index: int, count: int): (next: int)
    requires 0 <= index && 0 < count
    ensures 0 <= next < count
    ensures index + 1 < count ==> next == index + 1
    ensures index + 1 == count ==> next == 0
  {
    (index + 1) % count
  }

  /** The index after k timer ticks starting from index. */
  function AdvanceFrames(index: int, count: int, k: nat): int
    requires 0 <= index && 0 < count
  {
    if k == 0 then index else NextFrameIndex(AdvanceFrames(index, count, k - 1), count)
  }

  /** Before the end is reached, k ticks move k frames forward. */
  lemma {:induction false} AdvanceWithoutWrap(index: int, count: int, k: nat)
    requires 0 <= index && index + k < count
    ensures AdvanceFrames(index, count, k) == index + k
  {
    if k > 0 {
      AdvanceWithoutWrap(index, count, k - 1);
    }
  }

  /** Ticking a + b times is ticking a times, then b times. */
  lemma {:induction false} AdvanceCompose(index: int, count: int, a: nat, b: nat)
    requires 0 <= index && 0 < count
    ensures 0 <= AdvanceFrames(index, count, a)
    ensures AdvanceFrames(index, count, a + b) == AdvanceFrames(AdvanceFrames(index, count, a), count, b)
  {
    if b > 0 {
      AdvanceCompose(index, count, a, b - 1);
      assert a + b - 1 == a + (b - 1);
    } else if a > 0 {
      assert AdvanceFrames(index, count, a) == NextFrameIndex(AdvanceFrames(index, count, a - 1), count);
    }
  }

  /** Playback is cyclic: after exactly `count` ticks the same frame is shown again. */
  lemma PlaybackCycles(index: int, count: int)
    requires 0 <= index < count
    ensures AdvanceFrames(index, count, count) == index
  {
    var toLast := count - 1 - index;
    AdvanceWithoutWrap(index, count, toLast);
    AdvanceCompose(index, count, toLast, 1);
    assert AdvanceFrames(count - 1, count, 1) == 0;
    AdvanceCompose(index, count, toLast + 1, index);
    AdvanceWithoutWrap(0, count, index);
  }

  /**
   * The canvas pixel the eyedropper reads: the position on the 240 x 240 frame,
   * floored and clamped into [0, 239] on each axis.
   */
  function SampleCoordinate(relative: real): (c: int)
    ensures 0 <= c <= 239
    ensures 0.0 <= relative < 240.0 ==> c == relative.Floor
    ensures relative < 0.0 ==> c == 0
    ensures 240.0 <= relative ==> c == 239
  {
    var f := relative.Floor;
    if f < 0 then 0 else if 239 < f then 239 else f
  }

  /** The state of the page that the handlers below read and write. */
  class VideoEditPage {
    var frameUrls: seq<string>
    var processedFrames: seq<string>
    var originalFrames: seq<string>
    var currentFrameIndex: int
    var currentFrameUrl: string
    var isPlaying: bool
    /** Whether a playback interval timer is registered (`playTimer` non-null). */
    var playTimer: bool
    var isTestMode: bool
    var originalVideoPath: string
    var selectedColor: Color
    var colorThreshold: int
    var hasProcessed: bool
    var isProcessing: bool

    ghost predicate Valid()
      reads this
    {
      0 <= currentFrameIndex
    }

    /**
     * The data the frame branches of `onLoad` set: processed frames (with their originals,
     * colour and threshold) or a frame list. As written both branches throw before setting
     * anything, so only the test-mode load (TestMode) is reachable in the program.
     */
    constructor (frames: seq<string>, originals: seq<string>, processed: bool, color: Color, threshold: int)
      ensures Valid()
      ensures frameUrls == frames && processedFrames == frames && originalFrames == originals
      ensures currentFrameIndex == 0 && currentFrameUrl == At(frames, 0)
      ensures !isPlaying && !playTimer && !isTestMode && originalVideoPath == ""
      ensures selectedColor == color && colorThreshold == threshold
      ensures hasProcessed == processed && !isProcessing
    {
      frameUrls, processedFrames, originalFrames := frames, frames, originals;
      currentFrameIndex, currentFrameUrl := 0, At(frames, 0);
      isPlaying, playTimer, isTestMode, originalVideoPath := false, false, false, "";
      selectedColor, colorThreshold := color, threshold;
      hasProcessed, isProcessing := processed, false;
    }

    /**
     * `onLoad` in test mode with a video path: the video is both the original and the only
     * frame, nothing is processed yet, and the colour and threshold keep their defaults.
     * (An empty path toasts and navigates back instead.)
     */
    constructor TestMode(videoPath: string)
      requires videoPath != ""
      ensures Valid()
      ensures isTestMode && originalVideoPath == videoPath && currentFrameUrl == videoPath
      ensures frameUrls == [videoPath] && processedFrames == [videoPath] && originalFrames == []
      ensures currentFrameIndex == 0 && !isPlaying && !playTimer
      ensures selectedColor == DefaultKeyColor && colorThreshold == DefaultThreshold
      ensures !hasProcessed && !isProcessing
    {
      frameUrls, processedFrames, originalFrames := [videoPath], [videoPath], [];
      currentFrameIndex, currentFrameUrl := 0, videoPath;
      isPlaying, playTimer, isTestMode, originalVideoPath := false, false, true, videoPath;
      selectedColor, colorThreshold := DefaultKeyColor, DefaultThreshold;
      hasProcessed, isProcessing := false, false;
    }

    /** `startPlay`: nothing without frames; otherwise playing, with a timer registered. */
    method StartPlay()
      modifies this`isPlaying, this`playTimer
      ensures |frameUrls| == 0 ==> isPlaying == old(isPlaying) && playTimer == old(playTimer)
      ensures |frameUrls| > 0 ==> isPlaying && playTimer
    {
      if |frameUrls| == 0 {
        return;
      }
      isPlaying := true;
      playTimer := true;
    }

    /** `onOriginalVideoPlay`: the original video started, so the frame sequence starts too unless it already plays. */
    method OnOriginalVideoPlay()
      modifies this`isPlaying, this`playTimer
      ensures old(isPlaying) ==> isPlaying && playTimer == old(playTimer)
      ensures !old(isPlaying) && |frameUrls| > 0 ==> isPlaying && playTimer
      ensures !old(isPlaying) && |frameUrls| == 0 ==> !isPlaying && playTimer == old(playTimer)
    {
      if !isPlaying {
        StartPlay();
      }
    }

    /** `onVideoPlay`: the test-mode video reports that it plays. */
    method OnVideoPlay()
      modifies this`isPlaying
      ensures isPlaying
    {
      isPlaying := true;
    }

    /** One tick of the playback timer: advance cyclically and show that frame. */
    method PlayTick()
      requires Valid() && |frameUrls| > 0
      modifies this`currentFrameIndex, this`currentFrameUrl
      ensures Valid()
      ensures currentFrameIndex == NextFrameIndex(old(currentFrameIndex), |frameUrls|)
      ensures 0 <= currentFrameIndex < |frameUrls|
      ensures currentFrameUrl == OrElse(At(processedFrames, currentFrameIndex), frameUrls[currentFrameIndex])
    {
      var next := (currentFrameIndex + 1) % |frameUrls|;
      currentFrameIndex := next;
      currentFrameUrl := OrElse(At(processedFrames, next), frameUrls[next]);
    }

    /** `stopPlay`: the timer is cleared and playback stops. */
    method StopPlay()
      modifies this`isPlaying, this`playTimer
      ensures !isPlaying && !playTimer
    {
      playTimer := false;
      isPlaying := false;
    }

    /**
     * `togglePlay` on the frame sequence. With an original video the sequence follows
     * the play/pause state; in test mode only the flag flips (the video player plays).
     */
    method TogglePlay()
      modifies this`isPlaying, this`playTimer
      ensures originalVideoPath == "" && isTestMode ==> isPlaying == !old(isPlaying) && playTimer == old(playTimer)
      ensures (originalVideoPath != "" || !isTestMode) && old(isPlaying) ==> !isPlaying && !playTimer
      ensures (originalVideoPath != "" || !isTestMode) && !old(isPlaying) && |frameUrls| > 0 ==> isPlaying && playTimer
      ensures (originalVideoPath != "" || !isTestMode) && !old(isPlaying) && |frameUrls| == 0 ==>
        isPlaying == old(isPlaying) && playTimer == old(playTimer)
    {
      if originalVideoPath != "" || !isTestMode {
        if isPlaying {
          StopPlay();
        } else {
          StartPlay();
        }
      } else {
        isPlaying := !isPlaying;
      }
    }

    /** `reprocessWithNewThreshold`: ignored while a job runs; otherwise starts one over the original frames. */
    method ReprocessWithNewThreshold(threshold: int) returns (job: Option<ReprocessJob>)
      modifies this`isProcessing
      ensures old(isProcessing) ==> job == None && isProcessing
      ensures !old(isProcessing) ==> isProcessing && job == Some(ReprocessJob(originalFrames, selectedColor, threshold))
    {
      if isProcessing {
        return None;
      }
      isProcessing := true;
      job := Some(ReprocessJob(originalFrames, selectedColor, threshold));
    }

    /** Completion of a re-keying job: the new frames are shown and the busy flag cleared. */
    method CompleteReprocess(job: ReprocessJob, outcomes: seq<FrameOutcome>)
      requires |outcomes| == |job.sources|
      modifies this`processedFrames, this`currentFrameUrl, this`isProcessing
      ensures processedFrames == WithFallback(job.sources, outcomes)
      ensures currentFrameUrl == OrElse(At(processedFrames, currentFrameIndex), At(processedFrames, 0))
      ensures !isProcessing
    {
      var processed := ProcessFrames(job.sources, outcomes);
      processedFrames := processed;
      currentFrameUrl := OrElse(At(processed, currentFrameIndex), At(processed, 0));
      isProcessing := false;
    }

    /** `onThresholdChange`: store the slider value; re-key only after a first pass and with original frames. */
    method OnThresholdChange(threshold: int) returns (job: Option<ReprocessJob>)
      modifies this`colorThreshold, this`isProcessing
      ensures colorThreshold == threshold
      ensures !(hasProcessed && |originalFrames| > 0) ==> job == None && isProcessing == old(isProcessing)
      ensures hasProcessed && |originalFrames| > 0 && !old(isProcessing) ==>
        job == Some(ReprocessJob(originalFrames, selectedColor, threshold)) && isProcessing
      ensures old(isProcessing) ==> job == None && isProcessing
    {
      colorThreshold := threshold;
      job := None;
      if hasProcessed && |originalFrames| > 0 {
        job := ReprocessWithNewThreshold(threshold);
      }
    }

    /**
     * `processChromaKey`: rejects in test mode and without frames; otherwise keys every
     * frame with the selected colour and threshold and marks the page as processed.
     */
    method ProcessChromaKey(outcomes: seq<FrameOutcome>) returns (result: Result<(), ChromaKeyError>)
      requires |outcomes| == |frameUrls|
      modifies this`processedFrames, this`hasProcessed, this`currentFrameUrl
      ensures isTestMode ==> result == Err(NeedsCloudFunction) && unchanged(this)
      ensures !isTestMode && |frameUrls| == 0 ==> result == Err(NoFrames) && unchanged(this)
      ensures !isTestMode && |frameUrls| > 0 ==>
        && result == Ok(())
        && processedFrames == WithFallback(frameUrls, outcomes)
        && hasProcessed
        && currentFrameUrl == OrElse(At(processedFrames, currentFrameIndex), At(processedFrames, 0))
    {
      if isTestMode {
        return Err(NeedsCloudFunction);
      }
      if |frameUrls| == 0 {
        return Err(NoFrames);
      }
      var processed := ProcessFrames(frameUrls, outcomes);
      processedFrames := processed;
      hasProcessed := true;
      currentFrameUrl := OrElse(At(processed, currentFrameIndex), At(processed, 0));
      result := Ok(());
    }

    /** The eyedropper read a 1 x 1 canvas region: its first pixel becomes the selected colour. */
    method OnColorSampled(pixel: seq<Byte>)
      modifies this`selectedColor
      ensures |pixel| >= 4 ==> selectedColor == Color(pixel[0], pixel[1], pixel[2])
      ensures |pixel| < 4 ==> selectedColor == old(selectedColor)
    {
      if |pixel| >= 4 {
        selectedColor := Color(pixel[0], pixel[1], pixel[2]);
      }
    }
  }
}
