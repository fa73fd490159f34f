/**
 * The video crop page: the crop frame is scaled with two fingers (between half and three
 * times) and panned with one, at half the finger's speed. Its trim window is a
 * TrimTimeline.Timeline.
 */
module VideoCrop {
  import opened TouchGestures
  import TrimTimeline

  /** The pan speed: the crop frame moves half as far as the finger. */
  const PanFactor: real := 0.5

  /** A one-finger move: the offset plus half the finger's motion since the last event. */
  function Pan(translate: real, lastFinger: real, finger: real): real
  {
    translate + (finger - lastFinger) * PanFactor
  }

  /**
   * The offset after a one-finger gesture that passes through `fingers` in turn, each
   * move re-basing the start point on the finger.
   */
  function PanAlong(translate: real, lastFinger: real, fingers: seq<real>): real
    decreases |fingers|
  {
    if fingers == [] then translate
    else PanAlong(Pan(translate, lastFinger, fingers[0]), fingers[0], fingers[1..])
  }

  /**
   * Because each move re-bases on the finger, the moves telescope: a whole gesture pans
   * by half the distance from where the finger started to where it ended, whatever the
   * path in between.
   */
  lemma {:induction false} PanTelescopes(translate: real, lastFinger: real, fingers: seq<real>)
    requires |fingers| > 0
    ensures PanAlong(translate, lastFinger, fingers) == translate + (fingers[|fingers| - 1] - lastFinger) * PanFactor
    decreases |fingers|
  {
    if |fingers| > 1 {
      PanTelescopes(Pan(translate, lastFinger, fingers[0]), fingers[0], fingers[1..]);
    }
  }

  /** The crop page's state. */
  class VideoCropPage {
    const timeline: TrimTimeline.Timeline
    var cropScale: real
    var cropTranslateX: real
    var cropTranslateY: real
    var cropStartDistance: real
    var cropStartScale: real
    var cropStartX: real
    var cropStartY: real

    /** The crop scale stays in the pinch range. */
    ghost predicate Valid()
      reads this
    {
      MinScale <= cropScale <= MaxScale
    }

    constructor (timeline: TrimTimeline.Timeline)
      ensures Valid() && this.timeline == timeline
      ensures cropScale == 1.0 && cropTranslateX == 0.0 && cropTranslateY == 0.0
      ensures cropStartDistance == 0.0 && cropStartScale == 1.0 && cropStartX == 0.0 && cropStartY == 0.0
    {
      this.timeline := timeline;
      cropScale, cropTranslateX, cropTranslateY := 1.0, 0.0, 0.0;
      cropStartDistance, cropStartScale, cropStartX, cropStartY := 0.0, 1.0, 0.0, 0.0;
    }

    /**
     * `onCropTouchStart`: two fingers record their spread and the current scale; one
     * finger records its position; anything else is ignored.
     */
    method OnCropTouchStart(touches: Touches)
      modifies this`cropStartDistance, this`cropStartScale, this`cropStartX, this`cropStartY
      ensures touches.Two? ==>
        && cropStartDistance == touches.distance && cropStartScale == cropScale
        && cropStartX == old(cropStartX) && cropStartY == old(cropStartY)
      ensures touches.One? ==>
        && cropStartX == touches.clientX && cropStartY == touches.clientY
        && cropStartDistance == old(cropStartDistance) && cropStartScale == old(cropStartScale)
      ensures touches.Other? ==> unchanged(this)
    {
      match touches {
        case Two(distance, _) =>
          cropStartDistance, cropStartScale := distance, cropScale;
        case One(clientX, clientY) =>
          cropStartX, cropStartY := clientX, clientY;
        case Other =>
      }
    }

    /**
     * `onCropTouchMove`: two fingers set the scale to the clamped pinch scale; one finger
     * pans by half its motion and re-bases on its position; the scale stays in range.
     */
    method OnCropTouchMove(touches: Touches)
      requires Valid()
      requires touches.Two? ==> cropStartDistance > 0.0
      modifies this`cropScale, this`cropTranslateX, this`cropTranslateY, this`cropStartX, this`cropStartY
      ensures Valid()
      ensures touches.Two? ==>
        && cropScale == PinchScale(touches.distance, cropStartDistance, cropStartScale)
        && cropTranslateX == old(cropTranslateX) && cropTranslateY == old(cropTranslateY)
        && cropStartX == old(cropStartX) && cropStartY == old(cropStartY)
      ensures touches.One? ==>
        && cropScale == old(cropScale)
        && cropTranslateX == Pan(old(cropTranslateX), old(cropStartX), touches.clientX)
        && cropTranslateY == Pan(old(cropTranslateY), old(cropStartY), touches.clientY)
        && cropStartX == touches.clientX && cropStartY == touches.clientY
      ensures touches.Other? ==> unchanged(this)
    {
      match touches {
        case Two(distance, _) =>
          PinchScaleProperties(distance, cropStartDistance, cropStartScale);
          cropScale := PinchScale(distance, cropStartDistance, cropStartScale);
        case One(clientX, clientY) =>
          cropTranslateX := Pan(cropTranslateX, cropStartX, clientX);
          cropTranslateY := Pan(cropTranslateY, cropStartY, clientY);
          cropStartX, cropStartY := clientX, clientY;
        case Other =>
      }
    }
  }
}
