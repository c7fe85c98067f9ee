/**
 * Ground-truth reconciliation: each label line is split on whitespace, its
 * five fields converted to numbers, the class id truncated to an integer and
 * looked up in the colour map {0: red, 1: blue}, and the YOLO box scaled back
 * to the outline rectangle drawn on the left pane. Any failure aborts.
 */
module GroundTruth {
  import opened Wrappers
  import opened Geometry
  import opened Annotations
  import opened Counting

  /** Python's `str.isspace` for one character: the separators `str.split()` splits on. */
  predicate IsSpace(c: char): (b: bool)
    ensures c == ' ' || c == '\t' || c == '\n' || c == '\r' ==> b
    ensures ('0' <= c <= '9') || c == '.' || c == '-' || c == '+' || c == 'e' || c == 'E' ==> !b
  {
    var k := c as int;
    (9 <= k <= 13) || (28 <= k <= 32) || k == 0x85 || k == 0xA0 || k == 0x1680 ||
    (0x2000 <= k <= 0x200A) || k == 0x2028 || k == 0x2029 || k == 0x202F ||
    k == 0x205F || k == 0x3000
  }

  /** A field of a split line: non-empty, without whitespace. */
  predicate IsToken(w: string) {
    |w| > 0 && forall i :: 0 <= i < |w| ==> !IsSpace(w[i])
  }

  /** The longest whitespace-free prefix of `s`. */
  function TakeWord(s: string): (w: string)
    ensures |w| <= |s| && w == s[..|w|]
    ensures forall i :: 0 <= i < |w| ==> !IsSpace(w[i])
    ensures |w| < |s| ==> IsSpace(s[|w|])
  {
    if s == [] || IsSpace(s[0]) then [] else [s[0]] + TakeWord(s[1..])
  }

  /** `s.split()`: the maximal whitespace-free runs of `s`, in order. */
  function Split(s: string): (ws: seq<string>)
    ensures forall i :: 0 <= i < |ws| ==> IsToken(ws[i])
    decreases |s|
  {
    if s == [] then []
    else if IsSpace(s[0]) then Split(s[1..])
    else
      var w := TakeWord(s);
      [w] + Split(s[|w|..])
  }

  /** Fields joined by single spaces and ended by a newline, as the annotation writer lays out a line. */
  function Joined(ws: seq<string>): (line: string)
    ensures |line| > 0 && line[|line| - 1] == '\n'
    ensures |ws| > 0 && |ws[0]| > 0 ==> line[0] == ws[0][0]
  {
    if |ws| == 0 then "\n"
    else if |ws| == 1 then ws[0] + "\n"
    else ws[0] + " " + Joined(ws[1..])
  }

  lemma {:induction false} TakeWordOfToken(w: string, t: string)
    requires IsToken(w)
    requires t == [] || IsSpace(t[0])
    ensures TakeWord(w + t) == w
  {
    if |w| > 1 {
      assert (w + t)[1..] == w[1..] + t;
      TakeWordOfToken(w[1..], t);
    } else {
      assert (w + t)[1..] == t;
    }
  }

  lemma SplitTokenThen(w: string, t: string)
    requires IsToken(w)
    requires t == [] || IsSpace(t[0])
    ensures Split(w + t) == [w] + Split(t)
  {
    TakeWordOfToken(w, t);
    assert (w + t)[|w|..] == t;
  }

  /** Splitting a laid-out line gives back its fields. */
  lemma {:induction false} SplitJoined(ws: seq<string>)
    requires forall i :: 0 <= i < |ws| ==> IsToken(ws[i])
    ensures Split(Joined(ws)) == ws
  {
    assert Split("\n") == Split("\n"[1..]);
    if |ws| == 1 {
      SplitTokenThen(ws[0], "\n");
    } else if |ws| > 1 {
      var rest := Joined(ws[1..]);
      assert Joined(ws) == ws[0] + (" " + rest);
      SplitTokenThen(ws[0], " " + rest);
      assert (" " + rest)[1..] == rest;
      SplitJoined(ws[1..]);
      assert ws == [ws[0]] + ws[1..];
    }
  }

  /** Python's `int()` on a float: truncation toward zero. */
  function Truncate(x: real): (n: int)
    ensures 0.0 <= x ==> n as real <= x < n as real + 1.0
    ensures x < 0.0 ==> n as real - 1.0 < x <= n as real
  {
    if 0.0 <= x then x.Floor else -((-x).Floor)
  }

  /** The outline colours of the two classes. */
  datatype Colour = Red | Blue

  /** The closed map `{0: "red", 1: "blue"}`; any other id is a lookup error. */
  function ClassColour(classId: int): (c: Option<Colour>)
    ensures c.Some? <==> classId == Duck || classId == Crane
    ensures c == Some(Red) <==> classId == Duck
  {
    if classId == 0 then Some(Red) else if classId == 1 then Some(Blue) else None
  }

  /** One ground-truth outline: its colour and rectangle. */
  datatype GtOutline = GtOutline(colour: Colour, rect: Rect)

  /** Why a label line cannot be drawn. */
  datatype GtError =
    | NonNumericField(index: nat)   // `float()` rejects a field (ValueError)
    | WrongFieldCount(count: nat)   // not exactly five fields to unpack (ValueError)
    | UnknownClass(classId: int)    // class id missing from the colour map (KeyError)

  /** The first index in `[from, upTo)` whose field `parseFloat` rejects. */
  function FirstNonNumeric(fields: seq<string>, parseFloat: string -> Option<real>, from: nat, upTo: nat): (k: Option<nat>)
    requires from <= upTo <= |fields|
    ensures k.Some? ==>
              && from <= k.value < upTo
              && parseFloat(fields[k.value]).None?
              && forall j :: from <= j < k.value ==> parseFloat(fields[j]).Some?
    ensures k.None? ==> forall j :: from <= j < upTo ==> parseFloat(fields[j]).Some?
    decreases upTo - from
  {
    if from == upTo then None
    else if parseFloat(fields[from]).None? then Some(from)
    else FirstNonNumeric(fields, parseFloat, from + 1, upTo)
  }

  /**
   * `class_id, x_center, y_center, width, height = map(float, line.split())`
   * followed by the scaling and the colour lookup. The unpacking converts the
   * fields one at a time and looks at most at a sixth one, so a non-numeric
   * field among the first six is reported before a wrong field count.
   */
  function ParseGtLine(fields: seq<string>, parseFloat: string -> Option<real>, imgWidth: real, imgHeight: real)
    : (r: Result<GtOutline, GtError>)
    ensures r.Ok? <==>
      |fields| == 5 && (forall j :: 0 <= j < 5 ==> parseFloat(fields[j]).Some?) &&
      ClassColour(Truncate(parseFloat(fields[0]).value)).Some?
    ensures r.Ok? ==>
      var box := YoloBox(parseFloat(fields[1]).value, parseFloat(fields[2]).value,
                         parseFloat(fields[3]).value, parseFloat(fields[4]).value);
      r.value == GtOutline(ClassColour(Truncate(parseFloat(fields[0]).value)).value,
                           OutlineRect(ToPixel(box, imgWidth, imgHeight)))
    ensures r.Err? && r.error.NonNumericField? ==>
      var k := r.error.index;
      k < |fields| && k < 6 && parseFloat(fields[k]).None? &&
      forall j :: 0 <= j < k ==> parseFloat(fields[j]).Some?
    ensures r.Err? && r.error.WrongFieldCount? ==>
      r.error.count == |fields| != 5 &&
      forall j :: 0 <= j < |fields| && j < 6 ==> parseFloat(fields[j]).Some?
    ensures r.Err? && r.error.UnknownClass? ==>
      |fields| == 5 && (forall j :: 0 <= j < 5 ==> parseFloat(fields[j]).Some?) &&
      r.error.classId == Truncate(parseFloat(fields[0]).value) && ClassColour(r.error.classId).None?
  {
    var upTo := if |fields| < 6 then |fields| else 6;
    match FirstNonNumeric(fields, parseFloat, 0, upTo)
    case Some(k) => Err(NonNumericField(k))
    case None =>
      if |fields| != 5 then Err(WrongFieldCount(|fields|))
      else
        var classId := parseFloat(fields[0]).value;
        var xCenter := parseFloat(fields[1]).value * imgWidth;
        var yCenter := parseFloat(fields[2]).value * imgHeight;
        var width := parseFloat(fields[3]).value * imgWidth;
        var height := parseFloat(fields[4]).value * imgHeight;
        var left := xCenter - width / 2.0;
        var top := yCenter - height / 2.0;
        match ClassColour(Truncate(classId))
        case None => Err(UnknownClass(Truncate(classId)))
        case Some(colour) =>
          var box := YoloBox(parseFloat(fields[1]).value, parseFloat(fields[2]).value,
                             parseFloat(fields[3]).value, parseFloat(fields[4]).value);
          assert Rect(left, top, left + width, top + height) == OutlineRect(ToPixel(box, imgWidth, imgHeight));
          Ok(GtOutline(colour, Rect(left, top, left + width, top + height)))
  }

  /** `ParseGtLine` of the fields of one raw label line. */
  function ParseLabelLine(line: string, parseFloat: string -> Option<real>, imgWidth: real, imgHeight: real)
    : Result<GtOutline, GtError>
  {
    ParseGtLine(Split(line), parseFloat, imgWidth, imgHeight)
  }

  /**
   * Drawing a label file line by line with the line reader `parse`: the
   * outlines of all lines in order, or the error of the first line that does
   * not parse, after which no later line is read.
   */
  function Overlays(lines: seq<string>, parse: string -> Result<GtOutline, GtError>): Result<seq<GtOutline>, GtError>
  {
    if lines == [] then Ok([])
    else
      match Overlays(lines[..|lines| - 1], parse)
      case Err(e) => Err(e)
      case Ok(drawn) =>
        match parse(lines[|lines| - 1])
        case Err(e) => Err(e)
        case Ok(outline) => Ok(drawn + [outline])
  }

  /** The line reader of the ground-truth loop: split, convert, scale, look up the colour. */
  function LineParser(parseFloat: string -> Option<real>, imgWidth: real, imgHeight: real): string -> Result<GtOutline, GtError>
  {
    line => ParseLabelLine(line, parseFloat, imgWidth, imgHeight)
  }

  /** The outlines of a whole label file, or the error of its first bad line. */
  function GtOverlays(lines: seq<string>, parseFloat: string -> Option<real>, imgWidth: real, imgHeight: real)
    : Result<seq<GtOutline>, GtError>
  {
    Overlays(lines, LineParser(parseFloat, imgWidth, imgHeight))
  }

  /** A label file draws without error exactly when every line parses, one outline per line, in order. */
  lemma {:induction false} OverlaysOk(lines: seq<string>, parse: string -> Result<GtOutline, GtError>)
    ensures var r := Overlays(lines, parse);
      && (r.Ok? <==> forall i :: 0 <= i < |lines| ==> parse(lines[i]).Ok?)
      && (r.Ok? ==>
            && |r.value| == |lines|
            && forall i :: 0 <= i < |lines| ==> r.value[i] == parse(lines[i]).value)
  {
    if lines != [] {
      var init := lines[..|lines| - 1];
      assert forall i :: 0 <= i < |init| ==> init[i] == lines[i];
      OverlaysOk(init, parse);
    }
  }

  /** A failing label file fails with the error of its first line that does not parse. */
  lemma {:induction false} OverlaysErr(lines: seq<string>, parse: string -> Result<GtOutline, GtError>)
    requires Overlays(lines, parse).Err?
    ensures exists k :: && 0 <= k < |lines|
                        && parse(lines[k]) == Err(Overlays(lines, parse).error)
                        && forall j :: 0 <= j < k ==> parse(lines[j]).Ok?
  {
    var init := lines[..|lines| - 1];
    assert forall i :: 0 <= i < |init| ==> init[i] == lines[i];
    if Overlays(init, parse).Err? {
      OverlaysErr(init, parse);
      var k :| && 0 <= k < |init|
               && parse(init[k]) == Err(Overlays(init, parse).error)
               && forall j :: 0 <= j < k ==> parse(init[j]).Ok?;
      assert parse(lines[k]) == Err(Overlays(lines, parse).error);
    } else {
      OverlaysOk(init, parse);
      var k := |lines| - 1;
      assert parse(lines[k]) == Err(Overlays(lines, parse).error);
    }
  }

  /** Once a prefix of the file fails, the whole file fails with the same error. */
  lemma {:induction false} OverlayErrorPersists(lines: seq<string>, i: nat, parse: string -> Result<GtOutline, GtError>)
    requires i <= |lines|
    requires Overlays(lines[..i], parse).Err?
    ensures Overlays(lines, parse) == Overlays(lines[..i], parse)
  {
    if i < |lines| {
      var init := lines[..|lines| - 1];
      assert init[..i] == lines[..i];
      OverlayErrorPersists(init, i, parse);
    } else {
      assert lines[..i] == lines;
    }
  }

  /**
   * The drawing loop over the label file: one outline per line, stopping at
   * the first line that fails to parse.
   */
  method DrawGroundTruth(lines: seq<string>, parseFloat: string -> Option<real>, imgWidth: real, imgHeight: real)
    returns (r: Result<seq<GtOutline>, GtError>)
    ensures r == GtOverlays(lines, parseFloat, imgWidth, imgHeight)
  {
    ghost var parse := LineParser(parseFloat, imgWidth, imgHeight);
    var outlines: seq<GtOutline> := [];
    for i := 0 to |lines|
      invariant Overlays(lines[..i], parse) == Ok(outlines)
    {
      assert lines[..i + 1][..i] == lines[..i];
      var parsed := ParseLabelLine(lines[i], parseFloat, imgWidth, imgHeight);
      assert parse(lines[i]) == parsed;
      if parsed.Err? {
        OverlayErrorPersists(lines, i + 1, parse);
        return Err(parsed.error);
      }
      outlines := outlines + [parsed.value];
    }
    assert lines[..|lines|] == lines;
    r := Ok(outlines);
  }

  /** The decimal digit characters. */
  function DigitChar(d: nat): (c: char)
    requires d < 10
    ensures '0' <= c <= '9'
  {
    "0123456789"[d]
  }

  /** The decimal digits of a natural number, most significant first. */
  function Digits(n: nat): (s: string)
    ensures |s| > 0 && forall i :: 0 <= i < |s| ==> '0' <= s[i] <= '9'
  {
    if n < 10 then [DigitChar(n)] else Digits(n / 10) + [DigitChar(n % 10)]
  }

  /** Python's `str()` of an integer. */
  function DecimalString(n: int): (s: string)
    ensures IsToken(s)
  {
    if n < 0 then "-" + Digits(-n) else Digits(n)
  }

  /**
   * The text line `write_yolo_boxes_to_file` writes for one record; the
   * rendering of a float (`str(float)`) is the parameter `showReal`.
   */
  function AnnotationLine(rec: AnnotationRecord, showReal: real -> string): (line: string)
    ensures |line| > 0 && line[0] == DecimalString(rec.category)[0] && line[|line| - 1] == '\n'
  {
    Joined([DecimalString(rec.category), showReal(rec.box.xCenter), showReal(rec.box.yCenter),
            showReal(rec.box.width), showReal(rec.box.height)])
  }

  /**
   * A predicted box written as an annotation line and read back as a
   * ground-truth line is counted under its own category and redrawn as its
   * own pixel rectangle, in its category's colour, provided the number
   * rendering is read back exactly.
   */
  lemma ReadBackAnnotation(d: Detection, imgWidth: real, imgHeight: real,
                           showReal: real -> string, parseFloat: string -> Option<real>)
    requires imgWidth != 0.0 && imgHeight != 0.0
    requires d.category == Duck || d.category == Crane
    requires var y := ToYolo(d.box, imgWidth, imgHeight);
      forall v | v in [y.xCenter, y.yCenter, y.width, y.height] :: IsToken(showReal(v)) && parseFloat(showReal(v)) == Some(v)
    requires parseFloat(DecimalString(d.category)) == Some(d.category as real)
    ensures var line := AnnotationLine(AnnotationRecord(d.category, ToYolo(d.box, imgWidth, imgHeight)), showReal);
      && ParseGtLine(Split(line), parseFloat, imgWidth, imgHeight)
         == Ok(GtOutline(if d.category == Duck then Red else Blue, OutlineRect(d.box)))
      && CountLinesStartingWith([line], if d.category == Duck then '0' else '1') == 1
  {
    var y := ToYolo(d.box, imgWidth, imgHeight);
    assert y.xCenter in [y.xCenter, y.yCenter, y.width, y.height];
    assert y.yCenter in [y.xCenter, y.yCenter, y.width, y.height];
    assert y.width in [y.xCenter, y.yCenter, y.width, y.height];
    assert y.height in [y.xCenter, y.yCenter, y.width, y.height];
    var fields := [DecimalString(d.category), showReal(y.xCenter), showReal(y.yCenter), showReal(y.width), showReal(y.height)];
    SplitJoined(fields);
    PixelYoloRoundTrip(d.box, imgWidth, imgHeight);
    assert Truncate(d.category as real) == d.category;
    assert DecimalString(d.category)[0] == if d.category == Duck then '0' else '1';
  }

  /**
   * The counting is a prefix test and the drawing splits on whitespace, so a
   * line with a leading blank is drawn exactly as without it but counted in
   * neither category.
   */
  lemma LeadingBlankIsDrawnButNotCounted(line: string, parseFloat: string -> Option<real>, imgWidth: real, imgHeight: real)
    ensures ParseGtLine(Split(" " + line), parseFloat, imgWidth, imgHeight)
         == ParseGtLine(Split(line), parseFloat, imgWidth, imgHeight)
    ensures CountLinesStartingWith([" " + line], '0') == 0 && CountLinesStartingWith([" " + line], '1') == 0
  {
    assert (" " + line)[1..] == line;
  }

  /** The line `10 0.5 0.5 0.1 0.1` splits back into its five fields. */
  lemma ClassTenFields()
    ensures Split(Joined(["10", "0.5", "0.5", "0.1", "0.1"])) == ["10", "0.5", "0.5", "0.1", "0.1"]
  {
    var fields := ["10", "0.5", "0.5", "0.1", "0.1"];
    assert IsToken(fields[0]) && IsToken(fields[1]) && IsToken(fields[3]);
    SplitJoined(fields);
  }

  /**
   * The line `10 0.5 0.5 0.1 0.1` starts with '1' and so counts as a crane,
   * while class 10 has no colour and drawing it fails.
   */
  lemma ClassTenCountsAsCrane(parseFloat: string -> Option<real>, imgWidth: real, imgHeight: real)
    requires parseFloat("10") == Some(10.0)
    requires parseFloat("0.5") == Some(0.5) && parseFloat("0.1") == Some(0.1)
    ensures var line := Joined(["10", "0.5", "0.5", "0.1", "0.1"]);
      && CountLinesStartingWith([line], '1') == 1
      && ParseGtLine(Split(line), parseFloat, imgWidth, imgHeight) == Err(UnknownClass(10))
  {
    var fields := ["10", "0.5", "0.5", "0.1", "0.1"];
    ClassTenFields();
    assert Joined(fields)[0] == '1';
    assert FirstNonNumeric(fields, parseFloat, 0, 5).None?;
    assert ClassColour(Truncate(10.0)).None?;
  }
}
