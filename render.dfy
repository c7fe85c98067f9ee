/**
 * The side-by-side comparison image: a canvas twice the image width, the
 * ground-truth pane pasted at x = 0 and the prediction pane at x = width,
 * each captioned with its two counts on rows 0 and 20.
 */
module Render {
  import opened GroundTruth

  /** A caption such as `GT Crane:3`, drawn with its top-left corner at (x, y). */
  datatype TextLabel = TextLabel(x: int, y: int, caption: string, count: nat)

  /** A pasted pane: where it goes, its captions, and the outlines drawn on it. */
  datatype Pane = Pane(offsetX: int, offsetY: int, labels: seq<TextLabel>, outlines: seq<GtOutline>)

  /** The merged image saved under the source image's file name. */
  datatype Composite = Composite(width: int, height: int, left: Pane, right: Pane)

  /** The two count captions of a pane: cranes on row 0, ducks on row 20. */
  function CountLabels(prefix: string, crane: nat, duck: nat): (ls: seq<TextLabel>)
    ensures |ls| == 2 && ls[0].y == 0 && ls[1].y == 20
    ensures ls[0].count == crane && ls[1].count == duck
  {
    [TextLabel(0, 0, prefix + " Crane:", crane), TextLabel(0, 20, prefix + " Duck:", duck)]
  }

  /** `PImage.new('RGB', (img_width * 2, img_height))` with both panes pasted. */
  function ComposeComparison(imgWidth: int, imgHeight: int, gtCrane: nat, gtDuck: nat,
                             outlines: seq<GtOutline>, predCrane: nat, predDuck: nat): (c: Composite)
    ensures c.width == 2 * imgWidth && c.height == imgHeight
    ensures c.left.offsetX == 0 && c.right.offsetX == imgWidth && c.left.offsetY == c.right.offsetY == 0
    ensures c.left.outlines == outlines && c.right.outlines == []
    ensures c.left.labels == CountLabels("GT", gtCrane, gtDuck)
    ensures c.right.labels == CountLabels("Pred", predCrane, predDuck)
  {
    Composite(imgWidth * 2, imgHeight,
              Pane(0, 0, CountLabels("GT", gtCrane, gtDuck), outlines),
              Pane(imgWidth, 0, CountLabels("Pred", predCrane, predDuck), []))
  }

  /** The prediction directory: file name to the composite saved there. */
  class PredictDir {
    var images: map<string, Composite>

    constructor (initial: map<string, Composite>)
      ensures images == initial
    {
      images := initial;
    }

    /** `merged.save(os.path.join(predict_dir, filename))`: replaces that one file. */
    method Save(filename: string, merged: Composite)
      modifies this
      ensures images == old(images)[filename := merged]
    {
      images := images[filename := merged];
    }
  }
}
