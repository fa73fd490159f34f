/**
 * The colour-removal page: in picking mode a touch on the preview selects the colour
 * to remove and marks the video as processed; the removal can be confirmed only once
 * a colour was picked. Its trim window is a TrimTimeline.Timeline.
 *
 * The picked colour does not come from the touched pixel: the page draws one of four
 * fixed colours at random. The random draw arrives as the palette index `choice`.
 */
module VideoRemoveBg {
  import TrimTimeline

  /** The colours a pick can produce. */
  const Palette: seq<string> := ["#00ff00", "#0000ff", "#00ffff", "#ff00ff"]

  /** The colour selected before any pick. */
  const DefaultColor: string := "#00ff00"

  /** How a touch on the preview ends. */
  datatype TouchOutcome = Ignored | PreviewMissing | Picked(color: string)

  /** The colour-removal page's state. */
  class VideoRemoveBgPage {
    const timeline: TrimTimeline.Timeline
    var selectedColor: string
    var colorRange: int
    var isColorPicking: bool
    var hasProcessed: bool

    /** The selected colour is always one of the palette's. */
    ghost predicate Valid()
      reads this
    {
      selectedColor in Palette
    }

    constructor (timeline: TrimTimeline.Timeline)
      ensures Valid() && this.timeline == timeline
      ensures selectedColor == DefaultColor && colorRange == 20 && !isColorPicking && !hasProcessed
    {
      this.timeline := timeline;
      selectedColor, colorRange, isColorPicking, hasProcessed := DefaultColor, 20, false, false;
    }

    /** `toggleColorPicking`: flips picking mode; the hint is shown when it turns on. */
    method ToggleColorPicking() returns (showHint: bool)
      modifies this`isColorPicking
      ensures isColorPicking == !old(isColorPicking)
      ensures showHint == isColorPicking
    {
      isColorPicking := !isColorPicking;
      showHint := isColorPicking;
    }

    /**
     * `onCanvasTouchMove`: ignored unless
     * picking; otherwise, once the preview is found, a palette colour is selected and the
     * video counts as processed.
     */
    method OnCanvasTouchMove(previewFound: bool, choice: nat) returns (outcome: TouchOutcome)
      requires Valid() && choice < |Palette|
      modifies this`selectedColor, this`hasProcessed
      ensures Valid()
      ensures !isColorPicking ==> outcome == Ignored && unchanged(this)
      ensures isColorPicking && !previewFound ==> outcome == PreviewMissing && unchanged(this)
      ensures isColorPicking && previewFound ==>
        outcome == Picked(Palette[choice]) && selectedColor == Palette[choice] && hasProcessed
    {
      if !isColorPicking {
        return Ignored;
      }
      if !previewFound {
        return PreviewMissing;
      }
      selectedColor, hasProcessed := Palette[choice], true;
      outcome := Picked(selectedColor);
    }

    /** `onCanvasTouchStart`: the same gate, then the same handling as a move. */
    method OnCanvasTouchStart(previewFound: bool, choice: nat) returns (outcome: TouchOutcome)
      requires Valid() && choice < |Palette|
      modifies this`selectedColor, this`hasProcessed
      ensures Valid()
      ensures !isColorPicking ==> outcome == Ignored && unchanged(this)
      ensures isColorPicking && !previewFound ==> outcome == PreviewMissing && unchanged(this)
      ensures isColorPicking && previewFound ==>
        outcome == Picked(Palette[choice]) && selectedColor == Palette[choice] && hasProcessed
    {
      if !isColorPicking {
        return Ignored;
      }
      outcome := OnCanvasTouchMove(previewFound, choice);
    }

    /** `onColorRangeChange`. */
    method OnColorRangeChange(value: int)
      modifies this`colorRange
      ensures colorRange == value
    {
      colorRange := value;
    }

    /** `confirmRemoveBg`: refused until a colour was picked; then the page saves and leaves. */
    method ConfirmRemoveBg() returns (saved: bool)
      ensures saved <==> hasProcessed
    {
      saved := hasProcessed;
    }
  }

  /** The default colour is the palette's first, and every entry is a `#rrggbb` string. */
  lemma PaletteShape()
    ensures DefaultColor in Palette && Palette[0] == DefaultColor
    ensures forall i :: 0 <= i < |Palette| ==> |Palette[i]| == 7 && Palette[i][0] == '#'
  {
  }
}
