/**
 * Annotation emission: `write_yolo_boxes_to_file` turns every detection into
 * one YOLO record (category plus normalised box) in the order given, into a
 * file it opens for writing, so the file's earlier content is discarded.
 */
module Annotations {
  import opened Geometry

  /** One detection as `[category_id, x_min, y_min, width, height]`. */
  datatype Detection = Detection(category: int, box: PixelBox)

  /** One line of an annotation file: `category x_center y_center width height`. */
  datatype AnnotationRecord = AnnotationRecord(category: int, box: YoloBox)

  /** The records written for `boxes`, one per box, in input order. */
  function AnnotationRecords(boxes: seq<Detection>, iw: real, ih: real): (r: seq<AnnotationRecord>)
    requires iw != 0.0 && ih != 0.0
    ensures |r| == |boxes|
    ensures forall i :: 0 <= i < |boxes| ==>
      r[i].category == boxes[i].category && r[i].box == ToYolo(boxes[i].box, iw, ih)
  {
    if boxes == [] then []
    else
      var last := boxes[|boxes| - 1];
      AnnotationRecords(boxes[..|boxes| - 1], iw, ih) + [AnnotationRecord(last.category, ToYolo(last.box, iw, ih))]
  }

  /** Reading records back as ground truth: each YOLO box denormalised to pixels. */
  function Decoded(records: seq<AnnotationRecord>, iw: real, ih: real): (r: seq<Detection>)
    ensures |r| == |records|
    ensures forall i :: 0 <= i < |records| ==>
      r[i] == Detection(records[i].category, ToPixel(records[i].box, iw, ih))
  {
    seq(|records|, i requires 0 <= i < |records| => Detection(records[i].category, ToPixel(records[i].box, iw, ih)))
  }

  /** An annotation file read back with the same reference size gives the detections it was written from. */
  lemma AnnotationsDecodeToDetections(boxes: seq<Detection>, iw: real, ih: real)
    requires iw != 0.0 && ih != 0.0
    ensures Decoded(AnnotationRecords(boxes, iw, ih), iw, ih) == boxes
  {
    var d := Decoded(AnnotationRecords(boxes, iw, ih), iw, ih);
    forall i | 0 <= i < |boxes|
      ensures d[i] == boxes[i]
    {
      PixelYoloRoundTrip(boxes[i].box, iw, ih);
    }
  }

  /** Emitting two batches of boxes one after the other gives the records of the joined batch. */
  lemma {:induction false} AnnotationRecordsAppend(a: seq<Detection>, b: seq<Detection>, iw: real, ih: real)
    requires iw != 0.0 && ih != 0.0
    ensures AnnotationRecords(a + b, iw, ih) == AnnotationRecords(a, iw, ih) + AnnotationRecords(b, iw, ih)
  {
    if b != [] {
      var n := |b| - 1;
      assert (a + b)[..|a + b| - 1] == a + b[..n];
      AnnotationRecordsAppend(a, b[..n], iw, ih);
    } else {
      assert a + b == a;
    }
  }

  /** The annotation output directory: file name to the records it holds. */
  class AnnotationDir {
    var files: map<string, seq<AnnotationRecord>>

    constructor (initial: map<string, seq<AnnotationRecord>>)
      ensures files == initial
    {
      files := initial;
    }

    /**
     * `write_yolo_boxes_to_file`: truncate `filename`, then append one record per
     * box. Afterwards the file holds exactly the records of `yoloBoxes`, and no
     * other file changed.
     */
    method WriteYoloBoxesToFile(imgWidth: real, imgHeight: real, yoloBoxes: seq<Detection>, filename: string)
      requires imgWidth != 0.0 && imgHeight != 0.0
      modifies this
      ensures files == old(files)[filename := AnnotationRecords(yoloBoxes, imgWidth, imgHeight)]
    {
      files := files[filename := []];
      for i := 0 to |yoloBoxes|
        invariant files == old(files)[filename := AnnotationRecords(yoloBoxes[..i], imgWidth, imgHeight)]
      {
        var box := yoloBoxes[i];
        var yoloBox := ToYolo(box.box, imgWidth, imgHeight);
        assert yoloBoxes[..i + 1][..i] == yoloBoxes[..i];
        files := files[filename := files[filename] + [AnnotationRecord(box.category, yoloBox)]];
      }
      assert yoloBoxes[..|yoloBoxes|] == yoloBoxes;
    }
  }
}
