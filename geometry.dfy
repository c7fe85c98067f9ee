/**
 * Box geometry of the inference driver: pixel boxes as the detector reports
 * them (top-left corner plus extent) and YOLO boxes (centre plus extent,
 * divided by a reference image size). All arithmetic is over `real`.
 */
module Geometry {

  /** Default reference size of `convert_to_yolo_format`. */
  const DefaultRefWidth: real := 736.0
  const DefaultRefHeight: real := 736.0

  /** A box in pixels: top-left corner and extent. */
  datatype PixelBox = PixelBox(xMin: real, yMin: real, width: real, height: real)

  /** A box in YOLO form: centre and extent, relative to a reference size. */
  datatype YoloBox = YoloBox(xCenter: real, yCenter: real, width: real, height: real)

  /** An outline rectangle as its two corners, the way the overlay draws it. */
  datatype Rect = Rect(left: real, top: real, right: real, bottom: real)

  /** `convert_to_yolo_format`: pixel box to YOLO box, no clamping. */
  function ToYolo(b: PixelBox, iw: real, ih: real): (r: YoloBox)
    requires iw != 0.0 && ih != 0.0
    ensures r.xCenter * iw == b.xMin + b.width / 2.0 && r.yCenter * ih == b.yMin + b.height / 2.0
    ensures r.width * iw == b.width && r.height * ih == b.height
  {
    var xCenter := b.xMin + b.width / 2.0;
    var yCenter := b.yMin + b.height / 2.0;
    YoloBox(xCenter / iw, yCenter / ih, b.width / iw, b.height / ih)
  }

  /** The ground-truth denormalisation: scale by the reference size, then move back by half the extent. */
  function ToPixel(y: YoloBox, iw: real, ih: real): (r: PixelBox)
    ensures r.width == y.width * iw && r.height == y.height * ih
    ensures r.xMin + r.width / 2.0 == y.xCenter * iw
    ensures r.yMin + r.height / 2.0 == y.yCenter * ih
  {
    var xCenter := y.xCenter * iw;
    var yCenter := y.yCenter * ih;
    var width := y.width * iw;
    var height := y.height * ih;
    PixelBox(xCenter - width / 2.0, yCenter - height / 2.0, width, height)
  }

  /** The corners `[left, top, left + width, top + height]` of a pixel box. */
  function OutlineRect(p: PixelBox): (r: Rect)
    ensures r.right - r.left == p.width && r.bottom - r.top == p.height
    ensures r.left == p.xMin && r.top == p.yMin
  {
    Rect(p.xMin, p.yMin, p.xMin + p.width, p.yMin + p.height)
  }

  /** Denormalising what `ToYolo` produced recovers the pixel box exactly. */
  lemma PixelYoloRoundTrip(b: PixelBox, iw: real, ih: real)
    requires iw != 0.0 && ih != 0.0
    ensures ToPixel(ToYolo(b, iw, ih), iw, ih) == b
  {
  }

  /** Normalising what `ToPixel` produced recovers the YOLO box exactly. */
  lemma YoloPixelRoundTrip(y: YoloBox, iw: real, ih: real)
    requires iw != 0.0 && ih != 0.0
    ensures ToYolo(ToPixel(y, iw, ih), iw, ih) == y
  {
  }

  /**
   * A box lying inside a positive reference frame gets coordinates in [0, 1];
   * this is the only way a YOLO value is kept in range, since nothing clamps.
   */
  lemma InsideBoxIsNormalised(b: PixelBox, iw: real, ih: real)
    requires iw > 0.0 && ih > 0.0
    requires 0.0 <= b.xMin && 0.0 <= b.width && b.xMin + b.width <= iw
    requires 0.0 <= b.yMin && 0.0 <= b.height && b.yMin + b.height <= ih
    ensures var r := ToYolo(b, iw, ih);
      0.0 <= r.xCenter <= 1.0 && 0.0 <= r.yCenter <= 1.0 &&
      0.0 <= r.width <= 1.0 && 0.0 <= r.height <= 1.0
  {
  }

  /** A box reaching past the right border yields a centre beyond 1: no clamping. */
  lemma OutsideBoxIsNotClamped()
    ensures ToYolo(PixelBox(700.0, 0.0, 100.0, 10.0), DefaultRefWidth, DefaultRefHeight).xCenter > 1.0
  {
  }

  /** A 20 x 20 box at (10, 10) against a 100 x 100 reference gives 0.2 on every coordinate. */
  lemma PredictionScenario()
    ensures ToYolo(PixelBox(10.0, 10.0, 20.0, 20.0), 100.0, 100.0) == YoloBox(0.2, 0.2, 0.2, 0.2)
  {
  }

  /**
   * The ground-truth line `0 0.5 0.5 0.1 0.1` against 200 x 200 is the 20 x 20 box
   * centred on (100, 100), so its top-left corner is (90, 90).
   */
  lemma GroundTruthScenario()
    ensures ToPixel(YoloBox(0.5, 0.5, 0.1, 0.1), 200.0, 200.0) == PixelBox(90.0, 90.0, 20.0, 20.0)
  {
  }
}
