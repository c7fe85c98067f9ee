/**
 * The batch driver `sahi_inference`: select and sort the images, broadcast
 * the slice sizes, then per image run the detector, write its annotation
 * file, count predictions and ground truth, append the five result lists,
 * draw the ground-truth outlines and save the side-by-side composite.
 */
module Driver {
  import opened Wrappers
  import opened Geometry
  import opened Annotations
  import opened Counting
  import opened GroundTruth
  import opened FileSelection
  import opened Slices
  import opened FileMaps
  import opened Render

  /**
   * The keyword arguments of one batch, with the collaborators it cannot see
   * made explicit: the sliced detector (image name and slice sizes to merged
   * detections), the label directory (absent, or file name to its lines) and
   * Python's `float()` on one field.
   */
  datatype Settings = Settings(
    detector: (string, int, int) -> seq<Detection>,
    labels: Option<map<string, seq<string>>>,
    imageFormat: string,
    imgHeight: int,
    imgWidth: int,
    parseFloat: string -> Option<real>)

  /** The five lists the driver returns, in the source's order. */
  datatype BatchReport = BatchReport(
    gtB: seq<nat>,            // ground-truth crane counts
    gtD: seq<nat>,            // ground-truth duck counts
    prB: seq<nat>,            // predicted crane counts
    prD: seq<nat>,            // predicted duck counts
    imageName: seq<string>)

  /** Why a batch stops part-way; `index` is the position of the image in the sorted list. */
  datatype BatchError =
    | SliceIndexOutOfRange(index: nat)           // `slice_heights[idx]` or `slice_widths[idx]` (IndexError)
    | LabelError(index: nat, cause: GtError)     // a ground-truth line that cannot be drawn

  /** The label file of an image, when a label directory is given and holds it. */
  function LabelLines(s: Settings, filename: string): (r: Option<seq<string>>)
    ensures s.labels.None? ==> r.None?
    ensures r.Some? <==> s.labels.Some? && TextFileName(filename) in s.labels.value
    ensures r.Some? ==> r.value == s.labels.value[TextFileName(filename)]
  {
    match s.labels
    case None => None
    case Some(dir) => if TextFileName(filename) in dir then Some(dir[TextFileName(filename)]) else None
  }

  /** The records written to an image's annotation file. */
  function PredictionRecords(s: Settings, filename: string, h: int, w: int): seq<AnnotationRecord>
    requires s.imgWidth > 0 && s.imgHeight > 0
  {
    AnnotationRecords(s.detector(filename, h, w), s.imgWidth as real, s.imgHeight as real)
  }

  /** `pred_duck` / `pred_crane` of an image: how many detections carry category `id`. */
  function PredCount(s: Settings, filename: string, h: int, w: int, id: int): nat {
    CountCategory(s.detector(filename, h, w), id)
  }

  /** `gt_duck` / `gt_crane` of an image: 0 without a label file. */
  function GtCount(s: Settings, filename: string, c: char): nat {
    match LabelLines(s, filename)
    case None => 0
    case Some(lines) => CountLinesStartingWith(lines, c)
  }

  /** The ground-truth outlines of an image: none without a label file. */
  function OverlayOf(s: Settings, filename: string): Result<seq<GtOutline>, GtError> {
    match LabelLines(s, filename)
    case None => Ok([])
    case Some(lines) => GtOverlays(lines, s.parseFloat, s.imgWidth as real, s.imgHeight as real)
  }

  /** The composite saved for an image whose outlines are `outlines`. */
  function CompositeOf(s: Settings, filename: string, h: int, w: int, outlines: seq<GtOutline>): Composite {
    ComposeComparison(s.imgWidth, s.imgHeight, GtCount(s, filename, '1'), GtCount(s, filename, '0'),
                      outlines, PredCount(s, filename, h, w, Crane), PredCount(s, filename, h, w, Duck))
  }

  /** Every one of the first `k` images has a drawable label file (or none). */
  ghost predicate LabelsDraw(s: Settings, files: seq<string>, k: nat)
    requires k <= |files|
  {
    forall i :: 0 <= i < k ==> OverlayOf(s, files[i]).Ok?
  }

  /** The annotation-file writes of the first `k` images, in processing order. */
  function AnnotationWrites(s: Settings, files: seq<string>, hs: seq<int>, ws: seq<int>, k: nat)
    : (r: seq<(string, seq<AnnotationRecord>)>)
    requires s.imgWidth > 0 && s.imgHeight > 0
    requires k <= |files| && k <= |hs| && k <= |ws|
    ensures |r| == k
  {
    seq(k, i requires 0 <= i < k => (TextFileName(files[i]), PredictionRecords(s, files[i], hs[i], ws[i])))
  }

  /** The composite saves of the first `k` images, in processing order. */
  function CompositeWrites(s: Settings, files: seq<string>, hs: seq<int>, ws: seq<int>, k: nat)
    : (r: seq<(string, Composite)>)
    requires k <= |files| && k <= |hs| && k <= |ws|
    requires forall i :: 0 <= i < k ==> OverlayOf(s, files[i]).Ok?
    ensures |r| == k
  {
    seq(k, i requires 0 <= i < k => (files[i], CompositeOf(s, files[i], hs[i], ws[i], OverlayOf(s, files[i]).value)))
  }

  /** After one more image, the annotation directory has that image's file replaced. */
  lemma AnnotationWritesSnoc(m: map<string, seq<AnnotationRecord>>, s: Settings,
                             files: seq<string>, hs: seq<int>, ws: seq<int>, k: nat)
    requires s.imgWidth > 0 && s.imgHeight > 0
    requires k < |files| && k < |hs| && k < |ws|
    ensures Overwrite(m, AnnotationWrites(s, files, hs, ws, k + 1))
         == Overwrite(m, AnnotationWrites(s, files, hs, ws, k))[TextFileName(files[k]) := PredictionRecords(s, files[k], hs[k], ws[k])]
  {
    var w := (TextFileName(files[k]), PredictionRecords(s, files[k], hs[k], ws[k]));
    assert AnnotationWrites(s, files, hs, ws, k + 1) == AnnotationWrites(s, files, hs, ws, k) + [w];
    OverwriteSnoc(m, AnnotationWrites(s, files, hs, ws, k), w);
  }

  /** After one more image, the prediction directory has that image's composite replaced. */
  lemma CompositeWritesSnoc(m: map<string, Composite>, s: Settings,
                            files: seq<string>, hs: seq<int>, ws: seq<int>, k: nat)
    requires k < |files| && k < |hs| && k < |ws|
    requires forall i :: 0 <= i <= k ==> OverlayOf(s, files[i]).Ok?
    ensures Overwrite(m, CompositeWrites(s, files, hs, ws, k + 1))
         == Overwrite(m, CompositeWrites(s, files, hs, ws, k))[files[k] := CompositeOf(s, files[k], hs[k], ws[k], OverlayOf(s, files[k]).value)]
  {
    var w := (files[k], CompositeOf(s, files[k], hs[k], ws[k], OverlayOf(s, files[k]).value));
    assert CompositeWrites(s, files, hs, ws, k + 1) == CompositeWrites(s, files, hs, ws, k) + [w];
    OverwriteSnoc(m, CompositeWrites(s, files, hs, ws, k), w);
  }

  /** The report lists hold one entry per image, index i describing `files[i]`. */
  ghost predicate ReportMatches(r: BatchReport, s: Settings, files: seq<string>, hs: seq<int>, ws: seq<int>)
    requires |files| <= |hs| && |files| <= |ws|
  {
    && |r.gtB| == |r.gtD| == |r.prB| == |r.prD| == |files|
    && r.imageName == files
    && forall i :: 0 <= i < |files| ==>
         && r.gtB[i] == GtCount(s, files[i], '1')
         && r.gtD[i] == GtCount(s, files[i], '0')
         && r.prB[i] == PredCount(s, files[i], hs[i], ws[i], Crane)
         && r.prD[i] == PredCount(s, files[i], hs[i], ws[i], Duck)
  }

  /** The report after the first `k` images. */
  function ReportPrefix(s: Settings, files: seq<string>, hs: seq<int>, ws: seq<int>, k: nat): (r: BatchReport)
    requires k <= |files| && k <= |hs| && k <= |ws|
    ensures |r.gtB| == |r.gtD| == |r.prB| == |r.prD| == k && r.imageName == files[..k]
  {
    var gtB: seq<nat> := seq(k, i requires 0 <= i < k => GtCount(s, files[i], '1'));
    var gtD: seq<nat> := seq(k, i requires 0 <= i < k => GtCount(s, files[i], '0'));
    var prB: seq<nat> := seq(k, i requires 0 <= i < k => PredCount(s, files[i], hs[i], ws[i], Crane));
    var prD: seq<nat> := seq(k, i requires 0 <= i < k => PredCount(s, files[i], hs[i], ws[i], Duck));
    BatchReport(gtB, gtD, prB, prD, files[..k])
  }

  /** One more image appends one entry to each of the five lists. */
  lemma ReportPrefixSnoc(s: Settings, files: seq<string>, hs: seq<int>, ws: seq<int>, k: nat)
    requires k < |files| && k < |hs| && k < |ws|
    ensures var r, r' := ReportPrefix(s, files, hs, ws, k), ReportPrefix(s, files, hs, ws, k + 1);
      && r'.gtB == r.gtB + [GtCount(s, files[k], '1')]
      && r'.gtD == r.gtD + [GtCount(s, files[k], '0')]
      && r'.prB == r.prB + [PredCount(s, files[k], hs[k], ws[k], Crane)]
      && r'.prD == r.prD + [PredCount(s, files[k], hs[k], ws[k], Duck)]
      && r'.imageName == r.imageName + [files[k]]
  {
    assert files[..k + 1] == files[..k] + [files[k]];
  }

  /** The full-length prefix is the report the batch promises. */
  lemma ReportPrefixMatches(s: Settings, files: seq<string>, hs: seq<int>, ws: seq<int>)
    requires |files| <= |hs| && |files| <= |ws|
    ensures ReportMatches(ReportPrefix(s, files, hs, ws, |files|), s, files, hs, ws)
  {
    assert files[..|files|] == files;
  }

  /** How many annotation files a run wrote: all, or up to the failing image (including it on a label error). */
  function AnnotationsWritten(res: Result<BatchReport, BatchError>, n: nat): nat {
    match res
    case Ok(_) => n
    case Err(SliceIndexOutOfRange(k)) => k
    case Err(LabelError(k, _)) => k + 1
  }

  /** How many composites a run saved: all, or those before the failing image. */
  function CompositesSaved(res: Result<BatchReport, BatchError>, n: nat): nat {
    match res
    case Ok(_) => n
    case Err(e) => e.index
  }

  function Min(a: int, b: int): int {
    if a < b then a else b
  }

  /**
   * The first half of one iteration: run the detector on the image, write its
   * annotation file and count predictions and ground truth.
   */
  method PredictAndCount(s: Settings, filename: string, h: int, w: int, annotDir: AnnotationDir)
    returns (gtCrane: nat, gtDuck: nat, predCrane: nat, predDuck: nat)
    requires s.imgWidth > 0 && s.imgHeight > 0
    modifies annotDir
    ensures annotDir.files == old(annotDir.files)[TextFileName(filename) := PredictionRecords(s, filename, h, w)]
    ensures gtCrane == GtCount(s, filename, '1') && gtDuck == GtCount(s, filename, '0')
    ensures predCrane == PredCount(s, filename, h, w, Crane)
    ensures predDuck == PredCount(s, filename, h, w, Duck)
  {
    var result := s.detector(filename, h, w);
    annotDir.WriteYoloBoxesToFile(s.imgWidth as real, s.imgHeight as real, result, TextFileName(filename));
    predDuck := CountCategory(result, Duck);
    predCrane := CountCategory(result, Crane);
    var labelLines := LabelLines(s, filename);
    gtDuck, gtCrane := CountGroundTruth(labelLines);
  }

  /**
   * The second half of one iteration: draw the ground-truth outlines and,
   * when they all draw, save the composite under the image's own name.
   */
  method RenderComparison(s: Settings, filename: string, h: int, w: int,
                          gtCrane: nat, gtDuck: nat, predCrane: nat, predDuck: nat, predictDir: PredictDir)
    returns (drawn: Result<seq<GtOutline>, GtError>)
    requires gtCrane == GtCount(s, filename, '1') && gtDuck == GtCount(s, filename, '0')
    requires predCrane == PredCount(s, filename, h, w, Crane)
    requires predDuck == PredCount(s, filename, h, w, Duck)
    modifies predictDir
    ensures drawn == OverlayOf(s, filename)
    ensures drawn.Ok? ==> predictDir.images == old(predictDir.images)[filename := CompositeOf(s, filename, h, w, drawn.value)]
    ensures drawn.Err? ==> predictDir.images == old(predictDir.images)
  {
    var labelLines := LabelLines(s, filename);
    var outlines: seq<GtOutline> := [];
    if labelLines.Some? {
      drawn := DrawGroundTruth(labelLines.value, s.parseFloat, s.imgWidth as real, s.imgHeight as real);
      if drawn.Err? {
        return;
      }
      outlines := drawn.value;
    }
    drawn := Ok(outlines);
    var merged := ComposeComparison(s.imgWidth, s.imgHeight, gtCrane, gtDuck, outlines, predCrane, predDuck);
    predictDir.Save(filename, merged);
  }

  /**
   * What a run returns: success exactly when both slice lists cover every
   * image and every label file draws, with one report entry per image;
   * otherwise the first image whose slice sizes are missing or whose label
   * file fails.
   */
  ghost predicate BatchOutcome(res: Result<BatchReport, BatchError>, s: Settings,
                               files: seq<string>, hs: seq<int>, ws: seq<int>)
  {
    && (res.Ok? <==> |files| <= |hs| && |files| <= |ws| && LabelsDraw(s, files, |files|))
    && (res.Ok? ==> ReportMatches(res.value, s, files, hs, ws))
    && (res.Err? ==>
          && res.error.index < |files|
          && res.error.index <= Min(|hs|, |ws|)
          && LabelsDraw(s, files, res.error.index)
          && (res.error.SliceIndexOutOfRange? ==> res.error.index == Min(|hs|, |ws|))
          && (res.error.LabelError? ==>
                res.error.index < Min(|hs|, |ws|) && OverlayOf(s, files[res.error.index]) == Err(res.error.cause)))
    && AnnotationsWritten(res, |files|) <= Min(|hs|, |ws|)
  }

  /** The outcome leaves no choice: at most one result of a run satisfies it. */
  lemma BatchOutcomeDetermined(r1: Result<BatchReport, BatchError>, r2: Result<BatchReport, BatchError>,
                               s: Settings, files: seq<string>, hs: seq<int>, ws: seq<int>)
    requires BatchOutcome(r1, s, files, hs, ws) && BatchOutcome(r2, s, files, hs, ws)
    ensures r1 == r2
  {
    if r1.Ok? {
      var a, b := r1.value, r2.value;
      assert a.gtB == b.gtB && a.gtD == b.gtD && a.prB == b.prB && a.prD == b.prD;
    }
  }

  /** A run that stops for missing slice sizes at the first uncovered image. */
  lemma SliceErrorOutcome(s: Settings, files: seq<string>, hs: seq<int>, ws: seq<int>, k: nat)
    requires k < |files| && k <= |hs| && k <= |ws| && (k == |hs| || k == |ws|)
    requires LabelsDraw(s, files, k)
    ensures BatchOutcome(Err(SliceIndexOutOfRange(k)), s, files, hs, ws)
  {
  }

  /** A run that stops at the first image whose label file does not draw. */
  lemma LabelErrorOutcome(s: Settings, files: seq<string>, hs: seq<int>, ws: seq<int>, k: nat, e: GtError)
    requires k < |files| && k < |hs| && k < |ws|
    requires LabelsDraw(s, files, k) && OverlayOf(s, files[k]) == Err(e)
    ensures BatchOutcome(Err(LabelError(k, e)), s, files, hs, ws)
  {
  }

  /** A run that completes reports every image. */
  lemma OkOutcome(s: Settings, files: seq<string>, hs: seq<int>, ws: seq<int>)
    requires |files| <= |hs| && |files| <= |ws| && LabelsDraw(s, files, |files|)
    ensures BatchOutcome(Ok(ReportPrefix(s, files, hs, ws, |files|)), s, files, hs, ws)
  {
    ReportPrefixMatches(s, files, hs, ws);
  }

  /**
   * The `for idx, filename in enumerate(image_files)` loop, with the slice
   * lists already broadcast. It writes the annotation file of every image it
   * reaches and the composite of every image it completes.
   */
  method ProcessImages(s: Settings, imageFiles: seq<string>, sliceHeights: seq<int>, sliceWidths: seq<int>,
                       annotDir: AnnotationDir, predictDir: PredictDir)
    returns (res: Result<BatchReport, BatchError>)
    requires s.imgWidth > 0 && s.imgHeight > 0
    modifies annotDir, predictDir
    ensures BatchOutcome(res, s, imageFiles, sliceHeights, sliceWidths)
    ensures annotDir.files == Overwrite(old(annotDir.files),
              AnnotationWrites(s, imageFiles, sliceHeights, sliceWidths, AnnotationsWritten(res, |imageFiles|)))
    ensures predictDir.images == Overwrite(old(predictDir.images),
              CompositeWrites(s, imageFiles, sliceHeights, sliceWidths, CompositesSaved(res, |imageFiles|)))
  {
    var gtB, gtD, prB, prD, imageName := [], [], [], [], [];
    for idx := 0 to |imageFiles|
      invariant idx <= |sliceHeights| && idx <= |sliceWidths|
      invariant LabelsDraw(s, imageFiles, idx)
      invariant BatchReport(gtB, gtD, prB, prD, imageName) == ReportPrefix(s, imageFiles, sliceHeights, sliceWidths, idx)
      invariant annotDir.files == Overwrite(old(annotDir.files), AnnotationWrites(s, imageFiles, sliceHeights, sliceWidths, idx))
      invariant predictDir.images == Overwrite(old(predictDir.images), CompositeWrites(s, imageFiles, sliceHeights, sliceWidths, idx))
    {
      var filename := imageFiles[idx];
      if idx >= |sliceHeights| || idx >= |sliceWidths| {
        SliceErrorOutcome(s, imageFiles, sliceHeights, sliceWidths, idx);
        return Err(SliceIndexOutOfRange(idx));
      }
      var h, w := sliceHeights[idx], sliceWidths[idx];
      var gtCrane, gtDuck, predCrane, predDuck := PredictAndCount(s, filename, h, w, annotDir);
      AnnotationWritesSnoc(old(annotDir.files), s, imageFiles, sliceHeights, sliceWidths, idx);

      ReportPrefixSnoc(s, imageFiles, sliceHeights, sliceWidths, idx);
      gtB := gtB + [gtCrane];
      gtD := gtD + [gtDuck];
      prB := prB + [predCrane];
      prD := prD + [predDuck];
      imageName := imageName + [filename];

      var drawn := RenderComparison(s, filename, h, w, gtCrane, gtDuck, predCrane, predDuck, predictDir);
      if drawn.Err? {
        LabelErrorOutcome(s, imageFiles, sliceHeights, sliceWidths, idx, drawn.error);
        return Err(LabelError(idx, drawn.error));
      }
      CompositeWritesSnoc(old(predictDir.images), s, imageFiles, sliceHeights, sliceWidths, idx);
    }
    OkOutcome(s, imageFiles, sliceHeights, sliceWidths);
    return Ok(BatchReport(gtB, gtD, prB, prD, imageName));
  }

  /**
   * `sahi_inference` over the directory listing `imageEntries`: select and
   * sort the images, broadcast the slice lists in place (they may be one and
   * the same list), then process the images in order.
   */
  method SahiInference(s: Settings, sliceHeights: SliceList, sliceWidths: SliceList, imageEntries: seq<string>,
                       annotDir: AnnotationDir, predictDir: PredictDir)
    returns (res: Result<BatchReport, BatchError>)
    requires s.imgWidth > 0 && s.imgHeight > 0
    modifies sliceHeights, sliceWidths, annotDir, predictDir
    ensures var n := |SelectImageFiles(imageEntries, s.imageFormat)|;
      && sliceHeights.values == Broadcasted(old(sliceHeights.values), n)
      && sliceWidths.values == Broadcasted(old(sliceWidths.values), n)
    ensures var files := SelectImageFiles(imageEntries, s.imageFormat);
            var hs, ws := sliceHeights.values, sliceWidths.values;
      && BatchOutcome(res, s, files, hs, ws)
      && annotDir.files == Overwrite(old(annotDir.files), AnnotationWrites(s, files, hs, ws, AnnotationsWritten(res, |files|)))
      && predictDir.images == Overwrite(old(predictDir.images), CompositeWrites(s, files, hs, ws, CompositesSaved(res, |files|)))
  {
    var imageFiles := SelectImageFiles(imageEntries, s.imageFormat);
    var n := |imageFiles|;
    sliceHeights.Broadcast(n);
    sliceWidths.Broadcast(n);
    BroadcastIdempotent(old(sliceHeights.values), n);
    BroadcastIdempotent(old(sliceWidths.values), n);
    res := ProcessImages(s, imageFiles, sliceHeights.values, sliceWidths.values, annotDir, predictDir);
  }
}
