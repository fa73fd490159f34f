/**
 * The text-overlay page: a list of captions placed over the video, added centred,
 * edited in place, copied with an offset, dragged with one finger and scaled with two.
 * Its trim window is a TrimTimeline.Timeline.
 */
module VideoText {
  import opened Wrappers
  import opened TouchGestures
  import TrimTimeline

  /** One caption on the video. */
  datatype TextItem = TextItem(
    id: int, content: string, x: real, y: real, fontSize: int, color: string,
    fontFamily: string, scale: real, rotate: real)

  /** A new caption's look. */
  const DefaultFontSize: int := 32
  const DefaultColor: string := "#FFFFFF"
  const DefaultFont: string := "PingFang SC"

  /** Offset of a copy from its original, on each axis. */
  const CopyOffset: real := 20.0

  /** Width of the preview in layout units (rpx) that finger motion is scaled to. */
  const LayoutWidth: real := 750.0

  /** The characters `String.prototype.trim` removes: white space and line terminators. */
  predicate IsTrimmable(c: char)
  {
    || c == ' ' || c == '\t' || c == '\n' || c == '\r' || c == '\U{B}' || c == '\U{C}'
    || c == '\U{A0}' || c == '\U{1680}' || ('\U{2000}' <= c <= '\U{200A}')
    || c == '\U{2028}' || c == '\U{2029}' || c == '\U{202F}' || c == '\U{205F}' || c == '\U{3000}' || c == '\U{FEFF}'
  }

  /** Everything trims away: `!s.trim()` holds. */
  predicate IsBlank(s: string)
  {
    forall i :: 0 <= i < |s| ==> IsTrimmable(s[i])
  }

  /** The caption `copyText` makes: the original with a new id, moved 20 right and 20 down. */
  function CopyOf(item: TextItem, id: int): (c: TextItem)
    ensures c.x == item.x + CopyOffset && c.y == item.y + CopyOffset && c.id == id
    ensures c.(id := item.id, x := item.x, y := item.y) == item
  {
    item.(id := id, x := item.x + CopyOffset, y := item.y + CopyOffset)
  }

  /**
   * The index `copyText` copies: the tapped caption's index, except that `||` treats an
   * absent index and index 0 alike and falls back to the selected caption.
   */
  function CopySourceIndex(datasetIndex: Option<int>, currentTextIndex: int): (i: int)
    ensures datasetIndex.Some? && datasetIndex.value != 0 ==> i == datasetIndex.value
    ensures datasetIndex == None || datasetIndex == Some(0) ==> i == currentTextIndex
  {
    match datasetIndex
    case Some(i) => if i != 0 then i else currentTextIndex
    case None => currentTextIndex
  }

  /**
   * A one-finger drag: the caption's start coordinate plus the finger's offset, scaled
   * from screen pixels to the 750-unit layout of a preview `width` pixels wide.
   */
  function DraggedTo(startPos: real, startFinger: real, finger: real, width: Positive): real
  {
    startPos + (finger - startFinger) * (LayoutWidth / width)
  }

  /** A finger that has not moved leaves the caption where it started. */
  lemma DraggedToAtRest(startPos: real, startFinger: real, width: Positive)
    ensures DraggedTo(startPos, startFinger, startFinger, width) == startPos
  {
  }

  /**
   * On a preview of any width, the caption's displacement is the finger's scaled by
   * 750 / width, so it moves the way the finger does; at width 750 it moves exactly as far.
   */
  lemma DraggedToFollowsFinger(startPos: real, startFinger: real, finger: real, finger': real, width: Positive)
    ensures (DraggedTo(startPos, startFinger, finger, width) - startPos) * width == (finger - startFinger) * LayoutWidth
    ensures finger <= finger' ==> DraggedTo(startPos, startFinger, finger, width) <= DraggedTo(startPos, startFinger, finger', width)
    ensures width == LayoutWidth ==> DraggedTo(startPos, startFinger, finger, width) - startPos == finger - startFinger
  {
    var k := LayoutWidth / width;
    assert k * width == LayoutWidth;
    assert k > 0.0;
    assert (finger' - startFinger) * k - (finger - startFinger) * k == (finger' - finger) * k;
  }

  /** The text-overlay page's state. */
  class VideoTextPage {
    const timeline: TrimTimeline.Timeline
    var texts: seq<TextItem>
    var currentTextIndex: int
    var editingText: string
    var selectedFont: string
    var isTextEditing: bool
    var textStartX: real
    var textStartY: real
    var textStartPosX: real
    var textStartPosY: real
    var textStartScale: real
    var textStartRotate: real
    var textStartDistance: real
    var textStartAngle: real

    /** The selection is "none" (-1) or a caption of the list. */
    ghost predicate Valid()
      reads this
    {
      -1 <= currentTextIndex < |texts|
    }

    constructor (timeline: TrimTimeline.Timeline)
      ensures Valid() && this.timeline == timeline
      ensures texts == [] && currentTextIndex == -1 && editingText == "" && selectedFont == DefaultFont && !isTextEditing
    {
      this.timeline := timeline;
      texts, currentTextIndex, editingText, selectedFont, isTextEditing := [], -1, "", DefaultFont, false;
      textStartX, textStartY, textStartPosX, textStartPosY := 0.0, 0.0, 0.0, 0.0;
      textStartScale, textStartRotate, textStartDistance, textStartAngle := 1.0, 0.0, 0.0, 0.0;
    }

    /** `onTextInput`. */
    method OnTextInput(value: string)
      modifies this`editingText
      ensures editingText == value
    {
      editingText := value;
    }

    /** `selectFont`. */
    method SelectFont(font: string)
      modifies this`selectedFont
      ensures selectedFont == font
    {
      selectedFont := font;
    }

    /** `cancelAddText`. */
    method CancelAddText()
      modifies this`editingText
      ensures editingText == ""
    {
      editingText := "";
    }

    /**
     * `confirmAddText`. Blank input is refused. While editing a selected caption, only its
     * content and font change and the editor closes. Otherwise, once the preview's size is
     * known (`rect`), a new default-styled caption is appended at its centre and selected.
     */
    method ConfirmAddText(rect: Option<(Positive, Positive)>, now: int)
      requires Valid()
      modifies this`texts, this`editingText, this`isTextEditing, this`currentTextIndex
      ensures Valid()
      ensures IsBlank(old(editingText)) ==> unchanged(this)
      ensures !IsBlank(old(editingText)) && old(currentTextIndex) >= 0 && old(isTextEditing) ==>
        && |texts| == |old(texts)|
        && texts[old(currentTextIndex)] == old(texts[currentTextIndex]).(content := old(editingText), fontFamily := selectedFont)
        && (forall i :: 0 <= i < |texts| && i != old(currentTextIndex) ==> texts[i] == old(texts[i]))
        && editingText == "" && !isTextEditing && currentTextIndex == -1
      ensures !IsBlank(old(editingText)) && !(old(currentTextIndex) >= 0 && old(isTextEditing)) && rect.Some? ==>
        && texts == old(texts) + [TextItem(now, old(editingText), rect.value.0 / 2.0, rect.value.1 / 2.0,
                                            DefaultFontSize, DefaultColor, selectedFont, 1.0, 0.0)]
        && currentTextIndex == |texts| - 1 && editingText == "" && isTextEditing == old(isTextEditing)
      ensures !IsBlank(old(editingText)) && !(old(currentTextIndex) >= 0 && old(isTextEditing)) && rect.None? ==>
        unchanged(this)
    {
      if IsBlank(editingText) {
        return;
      }
      if currentTextIndex >= 0 && isTextEditing {
        texts := texts[currentTextIndex := texts[currentTextIndex].(content := editingText, fontFamily := selectedFont)];
        editingText, isTextEditing, currentTextIndex := "", false, -1;
      } else if rect.Some? {
        var (width, height) := rect.value;
        var newText := TextItem(now, editingText, width / 2.0, height / 2.0, DefaultFontSize, DefaultColor, selectedFont, 1.0, 0.0);
        texts := texts + [newText];
        currentTextIndex := |texts| - 1;
        editingText := "";
      }
    }

    /**
     * `copyText`: nothing when the resolved index is negative; otherwise a copy of that
     * caption, shifted by (20, 20) and with id `now`, is appended and selected.
     */
    method CopyText(datasetIndex: Option<int>, now: int)
      requires Valid()
      requires datasetIndex.Some? ==> datasetIndex.value < |texts|
      modifies this`texts, this`currentTextIndex
      ensures Valid()
      ensures CopySourceIndex(datasetIndex, old(currentTextIndex)) < 0 ==> unchanged(this)
      ensures CopySourceIndex(datasetIndex, old(currentTextIndex)) >= 0 ==>
        && texts == old(texts) + [CopyOf(old(texts)[CopySourceIndex(datasetIndex, old(currentTextIndex))], now)]
        && currentTextIndex == |texts| - 1
    {
      var index := CopySourceIndex(datasetIndex, currentTextIndex);
      if index < 0 {
        return;
      }
      texts := texts + [CopyOf(texts[index], now)];
      currentTextIndex := |texts| - 1;
    }

    /**
     * `onTextTouchStart` on caption `index`: two fingers record the spread, angle, scale
     * (`scale || 1`) and rotation; one finger records the finger and caption positions.
     */
    method OnTextTouchStart(index: int, touches: Touches)
      requires Valid() && 0 <= index < |texts|
      modifies this`currentTextIndex, this`textStartDistance, this`textStartScale, this`textStartRotate, this`textStartAngle,
               this`textStartX, this`textStartY, this`textStartPosX, this`textStartPosY
      ensures Valid()
      ensures touches.Other? ==> unchanged(this)
      ensures touches.Two? ==>
        && currentTextIndex == index && textStartDistance == touches.distance && textStartAngle == touches.angle
        && textStartScale == (if texts[index].scale == 0.0 then 1.0 else texts[index].scale)
        && textStartRotate == texts[index].rotate
        && textStartX == old(textStartX) && textStartY == old(textStartY)
        && textStartPosX == old(textStartPosX) && textStartPosY == old(textStartPosY)
      ensures touches.One? ==>
        && currentTextIndex == index && textStartX == touches.clientX && textStartY == touches.clientY
        && textStartPosX == texts[index].x && textStartPosY == texts[index].y
        && textStartDistance == old(textStartDistance) && textStartScale == old(textStartScale)
        && textStartRotate == old(textStartRotate) && textStartAngle == old(textStartAngle)
    {
      match touches {
        case Two(distance, angle) =>
          currentTextIndex, textStartDistance, textStartAngle := index, distance, angle;
          textStartScale := if texts[index].scale == 0.0 then 1.0 else texts[index].scale;
          textStartRotate := texts[index].rotate;
        case One(clientX, clientY) =>
          currentTextIndex, textStartX, textStartY := index, clientX, clientY;
          textStartPosX, textStartPosY := texts[index].x, texts[index].y;
        case Other =>
      }
    }

    /**
     * `onTextTouchMove` on the selected caption: two fingers set its clamped pinch scale
     * and its rotation; one finger moves it from its start position by the finger's
     * offset scaled to the 750-unit layout (`rect` is the preview width, once known).
     * Only the selected caption changes, and only in scale and rotation, or position.
     */
    method OnTextTouchMove(touches: Touches, rectWidth: Option<Positive>)
      requires Valid()
      requires touches.Two? && currentTextIndex != -1 ==> textStartDistance > 0.0
      modifies this`texts
      ensures Valid() && |texts| == |old(texts)|
      ensures currentTextIndex == -1 || touches.Other? || (touches.One? && rectWidth.None?) ==> texts == old(texts)
      ensures currentTextIndex != -1 && touches.Two? ==>
        && texts == old(texts)[currentTextIndex := old(texts)[currentTextIndex].(
              scale := PinchScale(touches.distance, textStartDistance, textStartScale),
              rotate := textStartRotate + (touches.angle - textStartAngle))]
        && MinScale <= texts[currentTextIndex].scale <= MaxScale
      ensures currentTextIndex != -1 && touches.One? && rectWidth.Some? ==>
        texts == old(texts)[currentTextIndex := old(texts)[currentTextIndex].(
              x := DraggedTo(textStartPosX, textStartX, touches.clientX, rectWidth.value),
              y := DraggedTo(textStartPosY, textStartY, touches.clientY, rectWidth.value))]
    {
      if currentTextIndex == -1 {
        return;
      }
      var index := currentTextIndex;
      if touches.Two? {
        PinchScaleProperties(touches.distance, textStartDistance, textStartScale);
        var scale := PinchScale(touches.distance, textStartDistance, textStartScale);
        var rotate := textStartRotate + (touches.angle - textStartAngle);
        texts := texts[index := texts[index].(scale := scale, rotate := rotate)];
      } else if touches.One? && rectWidth.Some? {
        var x := DraggedTo(textStartPosX, textStartX, touches.clientX, rectWidth.value);
        var y := DraggedTo(textStartPosY, textStartY, touches.clientY, rectWidth.value);
        texts := texts[index := texts[index].(x := x, y := y)];
      }
    }

    /**
     * `onTextTouchEnd`: a one-finger release on a selected caption, outside the editor,
     * schedules the editor to open on that caption 200 ms later.
     */
    method OnTextTouchEnd(changedTouches: nat) returns (scheduled: Option<int>)
      ensures scheduled.Some? <==> changedTouches == 1 && currentTextIndex >= 0 && !isTextEditing
      ensures scheduled.Some? ==> scheduled.value == currentTextIndex
    {
      if changedTouches == 1 && currentTextIndex >= 0 && !isTextEditing {
        return Some(currentTextIndex);
      }
      return None;
    }

    /** The scheduled editor opening: loads the caption's text and font if it still exists. */
    method OpenEditor(index: int)
      requires 0 <= index
      modifies this`editingText, this`selectedFont, this`isTextEditing
      ensures index < |texts| ==> editingText == texts[index].content && selectedFont == texts[index].fontFamily && isTextEditing
      ensures index >= |texts| ==> unchanged(this)
    {
      if index < |texts| {
        editingText, selectedFont, isTextEditing := texts[index].content, texts[index].fontFamily, true;
      }
    }
  }

  /** Tapping "copy" on the first caption copies the selected caption instead (or nothing). */
  lemma FirstCaptionCopyFallsBack(currentTextIndex: int)
    ensures CopySourceIndex(Some(0), currentTextIndex) == currentTextIndex
  {
  }

  /** `String.prototype.trim`'s left half: drop leading white space and line terminators. */
  function TrimStart(s: string): string
    decreases |s|
  {
    if s != [] && IsTrimmable(s[0]) then TrimStart(s[1..]) else s
  }

  /** `String.prototype.trim`'s right half: drop trailing white space and line terminators. */
  function TrimEnd(s: string): string
    decreases |s|
  {
    if s != [] && IsTrimmable(s[|s| - 1]) then TrimEnd(s[..|s| - 1]) else s
  }

  /** `s.trim()`. */
  function Trim(s: string): string
  {
    TrimEnd(TrimStart(s))
  }

  /** Leading trimming empties exactly the blank strings, and otherwise stops at a kept character. */
  lemma {:induction false} TrimStartBlank(s: string)
    ensures TrimStart(s) == [] <==> IsBlank(s)
    ensures TrimStart(s) != [] ==> !IsTrimmable(TrimStart(s)[0])
    decreases |s|
  {
    if s != [] && IsTrimmable(s[0]) {
      TrimStartBlank(s[1..]);
      if IsBlank(s[1..]) {
        forall i | 0 <= i < |s|
          ensures IsTrimmable(s[i])
        {
          if i > 0 { assert s[i] == s[1..][i - 1]; }
        }
      }
    }
  }

  /** Trailing trimming never empties a string that starts with a kept character. */
  lemma {:induction false} TrimEndKeepsFirst(s: string)
    requires s != [] && !IsTrimmable(s[0])
    ensures TrimEnd(s) != []
    decreases |s|
  {
    if IsTrimmable(s[|s| - 1]) {
      TrimEndKeepsFirst(s[..|s| - 1]);
    }
  }

  /**
   * The guard `!editingText.trim()` of `confirmAddText` refuses exactly the blank texts:
   * a text is blank if and only if trimming leaves nothing, so any text holding a letter or
   * a digit is accepted.
   */
  lemma BlankIffTrimEmpty(s: string)
    ensures IsBlank(s) <==> Trim(s) == ""
    ensures (exists i :: 0 <= i < |s| && ('a' <= s[i] <= 'z' || 'A' <= s[i] <= 'Z' || '0' <= s[i] <= '9')) ==> Trim(s) != ""
  {
    TrimStartBlank(s);
    if TrimStart(s) != [] {
      TrimEndKeepsFirst(TrimStart(s));
    }
  }
}
