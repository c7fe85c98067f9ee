# Tiled-inference bookkeeping of ai-counting-cranes, in Dafny

The batch driver `sahi_inference` of `src/infer.py` runs a sliced detector over
every image of a directory. For each image it:

- writes the detections as a YOLO annotation file;
- counts the ducks (category 0) and cranes (category 1) among the predictions
  and in the ground-truth label file;
- draws the ground-truth outlines;
- saves a side-by-side composite of ground truth and prediction.

It returns five lists: crane and duck counts for ground truth and prediction,
and the image names.

This project models the deterministic layer of that driver and proves its
properties:

| module | file | what it models |
|---|---|---|
| `Geometry` | `geometry.dfy` | `convert_to_yolo_format`, the inline ground-truth denormalisation and the outline rectangle, all over `real` |
| `Annotations` | `annotations.dfy` | `write_yolo_boxes_to_file`: one record per detection, in order, into a truncated file (class `AnnotationDir`) |
| `Counting` | `counting.dfy` | prediction counts by category id; ground-truth counts by the line's first character |
| `GroundTruth` | `ground_truth.dfy` | the ground-truth drawing: Python's `str.split()`, `map(float, …)` unpacking with its error order, `int()` truncation, the closed colour map, the stop at the first bad line |
| `FileSelection` | `file_selection.dfy` | the filter on the extension, Python's string order as an insertion sort, and the `filename[:-4]` stem |
| `Slices` | `slices.dfy` | the in-place `*=` broadcast of a one-element slice-size list (class `SliceList`) |
| `FileMaps` | `file_maps.dfy` | an output directory after a sequence of whole-file writes, where the last writer wins |
| `Render` | `render.dfy` | the composite canvas, the two panes, their captions, and saving it (class `PredictDir`) |
| `Driver` | `driver.dfy` | the batch loop and its outcome: the report, the files written, and where it stops |

The collaborators the driver cannot see are parameters of `Driver.Settings`:

- the sliced detector, a function from image name and slice sizes to the merged detections;
- the label directory, absent or a map from label-file name to its lines;
- Python's `float()` on one field, returning no value when it raises.

Geometry is exact rational arithmetic. This is why the pixel and YOLO round trips hold exactly.

A run's result is `Ok` of the five lists or `Err` of the first failure:

- `SliceIndexOutOfRange(idx)`: `slice_heights[idx]` or `slice_widths[idx]` does not exist;
- `LabelError(idx, cause)`: a ground-truth line of image `idx` cannot be parsed or has no colour.

The detector, `export_visuals`, Pillow (image opening, the font, drawing, saving) and file I/O are assumed to succeed; failures of theirs are not among the modelled outcomes.

`Driver.BatchOutcome` states the whole outcome. `Driver.SahiInference` proves it, together with the annotation files and composites left in the two modelled output directories.

### Behaviour worth knowing

- The label line `0 0.5 0.5 0.1 0.1` against 200 x 200 is drawn from (90, 90): a centre of 100 minus half of a width of 20 (`Geometry.GroundTruthScenario`).
- Slice lists are not checked up front. A list shorter than the image count raises `IndexError` at the first missing index, after the earlier images' files have been written (`Driver.BatchOutcome`). A longer list has its tail ignored; `Slices.BroadcastScenario` shows a list of three that stays short for five images.

## Model

| member | source | states |
|---|---|---|
| Geometry.ToYolo | src/infer.py:11-15 | scaled back by the reference size, the YOLO centre is the pixel box's corner plus half its extent and the YOLO extent is the pixel extent; no clamping |
| Geometry.ToPixel | src/infer.py:100-103 | the scaled extent is `width*iw`, `height*ih`, and the corner plus half the extent is the scaled centre |
| Geometry.OutlineRect | src/infer.py:104 | the rectangle starts at the box corner and spans exactly its width and height |
| Geometry.PixelYoloRoundTrip | src/infer.py:11-15 | denormalising the output of `convert_to_yolo_format` with the same nonzero reference size recovers `x_min, y_min, width, height` exactly |
| Geometry.YoloPixelRoundTrip | src/infer.py:99-103 | normalising a denormalised YOLO box with the same nonzero size gives it back, so the two conversions are mutually inverse |
| Geometry.InsideBoxIsNormalised | src/infer.py:11-15 | a box inside a positive frame gets all four YOLO values in [0, 1] |
| Geometry.OutsideBoxIsNotClamped | src/infer.py:11-15 | a box reaching past the right border at the default 736 x 736 gets an x-centre above 1, since nothing clamps |
| Geometry.PredictionScenario | src/infer.py:11-15 | the box (10, 10, 20, 20) against 100 x 100 becomes (0.2, 0.2, 0.2, 0.2) |
| Geometry.GroundTruthScenario | src/infer.py:100-103 | the YOLO box (0.5, 0.5, 0.1, 0.1) against 200 x 200 is the pixel box (90, 90, 20, 20) |
| Annotations.AnnotationRecords | src/infer.py:20-22 | one record per input box, in input order: category `box[0]` and geometry `convert_to_yolo_format(box[1:])`; an empty input gives no records |
| Annotations.Decoded | src/infer.py:99-103 | reading records back gives one detection per record, with the category kept and the box denormalised |
| Annotations.AnnotationsDecodeToDetections | src/infer.py:18-22 | an annotation file read back with the same reference size gives exactly the detections it was written from |
| Annotations.AnnotationRecordsAppend | src/infer.py:20-22 | the records of two batches of boxes are the records of the joined batch |
| Annotations.AnnotationDir.WriteYoloBoxesToFile | src/infer.py:18-22 | after the loop the named file holds exactly the records of the input boxes (mode 'w' drops the old content), and every other file is unchanged |
| Counting.Categories | src/infer.py:69-70 | the category id of each prediction, position by position |
| Counting.CountCategory | src/infer.py:69-70 | the count of predictions with id `id` is the multiplicity of `id` among the category ids |
| Counting.DistinctCategoriesBounded | src/infer.py:69-70 | the counts of two different ids add up to at most the number of predictions |
| Counting.PredictionCountsBounded | src/infer.py:69-70 | `pred_duck + pred_crane` is at most the number of predictions |
| Counting.CountLinesStartingWith | src/infer.py:77-79 | the count never exceeds the line count; it is 0 when no line starts with the character and all lines when every line does |
| Counting.GroundTruthCountsBounded | src/infer.py:77-79 | lines starting with '0' plus lines starting with '1' are at most all lines |
| Counting.CountLinesAppend | src/infer.py:77-79 | counting two joined line lists is counting each and adding |
| Counting.CountGroundTruth | src/infer.py:73-79 | without a label file both counts are 0; otherwise `gt_duck` counts the lines starting with '0' and `gt_crane` those starting with '1' (the `elif` cannot count a line twice) |
| GroundTruth.IsSpace | src/infer.py:99 | Python's whitespace set for `str.split()`: it contains space, tab, newline and carriage return, and no character of a decimal number (digits, '.', signs, exponent letters) |
| GroundTruth.Joined | src/infer.py:22 | a laid-out annotation line ends with its newline and starts with the first character of its first field |
| GroundTruth.TakeWord | src/infer.py:99 | the longest whitespace-free prefix: a prefix, with no whitespace, stopped only by whitespace or the end |
| GroundTruth.Split | src/infer.py:99 | `line.split()` yields only non-empty fields without whitespace |
| GroundTruth.TakeWordOfToken | src/infer.py:99 | a field followed by whitespace or the end is read as exactly that field |
| GroundTruth.SplitTokenThen | src/infer.py:99 | splitting a field followed by whitespace gives the field, then the split of the rest |
| GroundTruth.SplitJoined | src/infer.py:22 | a line laid out as the annotation writer does (fields, single spaces, newline) splits back into its fields |
| GroundTruth.Truncate | src/infer.py:104 | `int()` of a float truncates toward zero: the floor for non-negative values, the ceiling for negative ones |
| GroundTruth.ClassColour | src/infer.py:104 | the colour map is defined exactly at ids 0 and 1, and gives red exactly at 0 |
| GroundTruth.FirstNonNumeric | src/infer.py:99 | the first field in the range that `float()` rejects, with all before it accepted; or none, when all are accepted |
| GroundTruth.ParseGtLine | src/infer.py:99-104 | a line parses and finds a colour exactly when it has 5 numeric fields and its truncated class id is 0 or 1. The outline is then the colour of that class and the rectangle of the scaled box. Otherwise the error says which: the first non-numeric field among the first six, the wrong field count, or the unknown class id |
| GroundTruth.ParseLabelLine | src/infer.py:99-104 | one raw label line: split on whitespace, then `ParseGtLine` |
| GroundTruth.Overlays | src/infer.py:97-104 | drawing a file line by line with a given line reader: the outlines of all lines in order, or the first line's error, after which no later line is read |
| GroundTruth.GtOverlays | src/infer.py:96-104 | a whole label file read line by line with `ParseLabelLine`, as `Overlays` folds it |
| GroundTruth.OverlaysOk | src/infer.py:97-104 | a label file draws without error exactly when every line parses; it then gives one outline per line, in order |
| GroundTruth.OverlaysErr | src/infer.py:97-104 | a failing label file fails with the error of its first line that does not parse, all earlier lines parsing |
| GroundTruth.OverlayErrorPersists | src/infer.py:97-104 | once a prefix of the file fails, the whole file fails with the same error |
| GroundTruth.DrawGroundTruth | src/infer.py:96-104 | the drawing loop, stopping at the first bad line, gives exactly the outlines or the error of the file |
| GroundTruth.DigitChar | src/infer.py:22 | a digit below ten is a decimal digit character |
| GroundTruth.Digits | src/infer.py:22 | the decimal digits of a natural number are a non-empty string of digit characters |
| GroundTruth.DecimalString | src/infer.py:22 | `str()` of an integer category is a single field without whitespace |
| GroundTruth.AnnotationLine | src/infer.py:22 | the text of one annotation line starts with the first character of its category's decimal form (what the ground-truth count tests) and ends with a newline |
| GroundTruth.ClassTenFields | src/infer.py:22 | the line `10 0.5 0.5 0.1 0.1` splits back into its five fields |
| GroundTruth.ReadBackAnnotation | src/infer.py:18-104 | a duck or crane detection written as an annotation line and read back as a ground-truth line (its four YOLO numbers read back exactly) is redrawn as its own pixel rectangle, in its class colour, and counted once in its own category |
| GroundTruth.LeadingBlankIsDrawnButNotCounted | src/infer.py:77-104 | a label line with a leading blank is drawn exactly as without it but counted in neither category |
| GroundTruth.ClassTenCountsAsCrane | src/infer.py:77-104 | the line `10 0.5 0.5 0.1 0.1` counts as a crane by its first character, while drawing it fails with an unknown class 10 |
| FileSelection.Matching | src/infer.py:45 | each name occurs as often as in the listing when it ends with the extension, and never otherwise |
| FileSelection.StrLe | src/infer.py:45 | Python's string comparison: a prefix sorts first, and a string never sorts at or before a proper prefix of it |
| FileSelection.StrLeRefl | src/infer.py:45 | Python's string order is reflexive |
| FileSelection.StrLeTotal | src/infer.py:45 | Python's string order is total |
| FileSelection.StrLeTrans | src/infer.py:45 | Python's string order is transitive |
| FileSelection.StrLeAntisym | src/infer.py:45 | Python's string order is antisymmetric |
| FileSelection.Insert | src/infer.py:45 | inserting adds exactly one occurrence of the element |
| FileSelection.InsertSorted | src/infer.py:45 | inserting into a sorted list keeps it sorted |
| FileSelection.Sort | src/infer.py:45 | `sorted()` is a permutation of its input |
| FileSelection.SortSorted | src/infer.py:45 | `sorted()` returns an ascending list |
| FileSelection.SortedTail | src/infer.py:45 | the tail of a sorted list is sorted |
| FileSelection.SortedHeads | src/infer.py:45 | two sorted arrangements of the same names start with the same name |
| FileSelection.SameTails | src/infer.py:45 | removing the same first name from two arrangements of the same names leaves arrangements of the same names |
| FileSelection.SortedUnique | src/infer.py:45 | two sorted arrangements of the same names are equal, so the sorted order is unique |
| FileSelection.SelectImageFiles | src/infer.py:45 | `image_files` holds each listed name ending with the extension, as often as it is listed, and nothing else |
| FileSelection.SelectionSorted | src/infer.py:45 | `image_files` is in ascending order |
| FileSelection.SelectionMembers | src/infer.py:45 | a name is in `image_files` exactly when it is listed and ends with the extension |
| FileSelection.SelectionIgnoresListingOrder | src/infer.py:45 | two listings with the same entries in any order give the same `image_files` |
| FileSelection.Stem | src/infer.py:66 | `filename[:-4]` drops the last four characters, and is empty for a name shorter than four |
| FileSelection.TextFileName | src/infer.py:66 | the label and annotation name of an image ends with `.txt` |
| FileSelection.StemRestoresName | src/infer.py:66 | with a four-character extension, stem plus extension is the image name again |
| FileSelection.TextFileNamesDistinct | src/infer.py:66 | with an extension of at least four characters, two different matching images never share a text file name |
| FileSelection.LongExtensionKeepsDot | src/infer.py:66 | the stem of `a.jpeg` is `a.`, so its text file is `a..txt` |
| Slices.Repeat | src/infer.py:46 | `[x] * n` has length `n`, every entry `x` |
| Slices.Broadcasted | src/infer.py:46-47 | a one-element list becomes one entry per image, all equal to its value; any other list is unchanged |
| Slices.BroadcastIdempotent | src/infer.py:46-47 | broadcasting twice is broadcasting once, so heights and widths may be the same list object |
| Slices.BroadcastScenario | src/infer.py:46-54 | `[736]` for five images becomes five entries of 736; a list of three for five images keeps length 3 |
| Slices.SliceList.Broadcast | src/infer.py:46-47 | the caller's list is replaced in place by its broadcast |
| FileMaps.Overwrite | src/infer.py:113 | a directory after a sequence of writes has exactly its old names plus the written ones |
| FileMaps.OverwriteSnoc | src/infer.py:113 | one more write is one more map update |
| FileMaps.LastWriteWins | src/infer.py:113 | a name holds what its last write put there |
| FileMaps.UnwrittenUnchanged | src/infer.py:113 | a name that no write touches keeps its old content |
| Render.CountLabels | src/infer.py:93-94 | two captions, the crane count on row 0 and the duck count on row 20 |
| Render.ComposeComparison | src/infer.py:110-112 | the canvas is `(2*img_width, img_height)`, the ground-truth pane at x = 0 with the outlines and GT counts, the prediction pane at x = `img_width` with the predicted counts |
| Render.PredictDir.Save | src/infer.py:113 | saving replaces the one file named after the image and nothing else |
| Driver.LabelLines | src/infer.py:74-75 | a label file is read only when a label directory is given and holds `stem + ".txt"`, and its lines are then exactly that file's |
| Driver.AnnotationWrites | src/infer.py:66 | one annotation write per processed image |
| Driver.CompositeWrites | src/infer.py:113 | one composite save per completed image |
| Driver.AnnotationWritesSnoc | src/infer.py:66 | processing one more image replaces that image's annotation file |
| Driver.CompositeWritesSnoc | src/infer.py:113 | completing one more image replaces that image's composite |
| Driver.ReportPrefixSnoc | src/infer.py:81-83 | each iteration appends exactly one entry to each of the five lists |
| Driver.ReportPrefixMatches | src/infer.py:115 | after all images the five lists have one entry per image, `image_name == image_files`, and entry i describes `image_files[i]` |
| Driver.ReportPrefix | src/infer.py:81-83 | after k images the five lists each hold k entries and `image_name` is the first k selected files |
| Driver.BatchOutcome | src/infer.py:49-115 | the outcome of a run: `Ok` exactly when both slice lists cover every image and every label file draws, with the full report; otherwise the first image whose slice sizes are missing or whose label file fails |
| Driver.BatchOutcomeDetermined | src/infer.py:49-115 | at most one result satisfies `BatchOutcome`, so it fixes the run's result completely |
| Driver.SliceErrorOutcome | src/infer.py:54-55 | a batch stopped at the first index past a slice list is the slice error `BatchOutcome` states |
| Driver.LabelErrorOutcome | src/infer.py:96-104 | a batch stopped at the first image whose label file fails is the label error `BatchOutcome` states |
| Driver.OkOutcome | src/infer.py:81-115 | a batch that completes returns the full report |
| Driver.PredictAndCount | src/infer.py:51-79 | the image's annotation file is replaced by the records of its detections, and the four counts are the detector's and the label file's |
| Driver.RenderComparison | src/infer.py:85-113 | the drawn outlines are those of the label file. When they draw, the composite of the counts and outlines is saved under the image's name; otherwise nothing is saved |
| Driver.ProcessImages | src/infer.py:49-115 | the outcome in `BatchOutcome`, plus the modelled directories afterwards: the annotation files of the images reached and the composites of the images completed |
| Driver.SahiInference | src/infer.py:25-115 | both slice lists are broadcast in place over the sorted selection; the batch then has the outcome in `BatchOutcome` and leaves the modelled files of `ProcessImages` |

## Left out

- The sliced detector (`get_sliced_prediction`, model loading) is a function parameter. The same detections stand for both `to_coco_annotations()` and `object_prediction_list`, and the overlap ratios are not passed on.
- `export_visuals` and the prediction picture it draws are not modelled. The right pane carries the counts but no predicted boxes.
- PIL raster work is not modelled: opening images, RGB conversion, fonts, text rendering, rectangle pixels, pasting and encoding. Only the canvas size, offsets, captions and outlines are.
- `os.makedirs`, `os.path.join` and `os.listdir` are not modelled. A directory listing is a sequence of names, and a label directory is a map from file name to its lines.
- `os.path.isfile` on a name that is present but not a regular file is not modelled.
- Reading a label file into lines is not modelled; each file is given as its lines.
- `float()` on a field is the parameter `parseFloat`. NaN, infinities and IEEE rounding are not modelled, so `int()` never raises on an infinite or NaN class id.
- The decimal text of a float (`str(float)`) in annotation lines is a parameter of `GroundTruth.AnnotationLine`. Annotation files hold records, not text.
- Tuple slice-size arguments are not modelled. There `*=` builds a new tuple instead of changing the caller's list.
- The unused `cv2` and `sklearn` imports are left out, and so is the `__main__` block with its fixed paths.
- src/infer_app.py, src/app.py, src/train.py, main.py and the frontend are not part of this model.
- Annotations.AnnotationDir.WriteYoloBoxesToFile requires a nonzero reference size. The source divides only when there is a box, so with no boxes a zero size would still truncate the file.
- Driver.ProcessImages requires a positive image width and height. The source fails on zero or negative sizes only later: in the division for the first detection, or when the canvas is created.
- Driver.SahiInference has the same positive-size requirement as `ProcessImages`, for the same reason.
- Render.ComposeComparison: each pane is placed at its offset as if it had the reference width `img_width`. The source pastes the opened images at their own size, so a wider image would be partly covered by the prediction pane and a narrower one would leave a black strip. The model assumes images of the reference size.
- Driver.ProcessImages assumes that `label_dir`, `predict_annot_dir` and `predict_dir` are different directories; the label directory is a fixed parameter. If the annotation directory were the label directory, the annotation write for an image would replace its label file before it is counted and drawn. The `<stem>.png` files that `export_visuals` writes into `predict_dir` for every image reached are outside the modelled prediction directory. The same holds for `Driver.RenderComparison`'s "nothing saved" on a label error. With `image_format=".png"` such a file shares its name with the composite.
- Driver.SahiInference makes the same distinct-directories assumption as `ProcessImages`, and its stated prediction directory likewise holds only the composites.
- Driver.PredictAndCount requires a positive image width and height, as `ProcessImages` does. The source runs lines 51-79 without error for negative sizes, and for a zero size when there are no detections; it fails only later, when the canvas is created.
- GroundTruth.ParseGtLine returns `Ok` for a line with a negative width or height, such as `0 0.5 0.5 -0.1 0.1`. Current Pillow's `ImageDraw.rectangle` raises `ValueError` for such a reversed rectangle at src/infer.py:104; drawing is not modelled, so neither is that error.
- Driver.ProcessImages assumes that the detector, `export_visuals`, `ImageFont.truetype`, `PImage.open`, the drawing calls and `merged.save` all succeed. A missing font, for example, raises on the first image after its annotation file is written; the model returns `Ok` there.
