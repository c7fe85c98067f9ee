/**
 * Per-category counting. Predictions are counted by their category id
 * (0 = duck, 1 = crane); ground-truth lines are counted by their first
 * character, a prefix test on the raw text rather than a parsed id.
 */
module Counting {
  import opened Wrappers
  import opened Annotations

  const Duck: int := 0
  const Crane: int := 1

  /** The category ids of a prediction list, in order. */
  function Categories(preds: seq<Detection>): (ids: seq<int>)
    ensures |ids| == |preds|
    ensures forall i :: 0 <= i < |preds| ==> ids[i] == preds[i].category
  {
    seq(|preds|, i requires 0 <= i < |preds| => preds[i].category)
  }

  /** `sum(1 for obj in preds if obj.category.id == id)`: how often `id` occurs among the predictions. */
  function CountCategory(preds: seq<Detection>, id: int): (n: nat)
    ensures n == multiset(Categories(preds))[id]
  {
    if preds == [] then 0
    else
      var init := preds[..|preds| - 1];
      assert Categories(preds) == Categories(init) + [preds[|preds| - 1].category];
      CountCategory(init, id) + (if preds[|preds| - 1].category == id then 1 else 0)
  }

  /** Two different categories together never count more than there are predictions. */
  lemma {:induction false} DistinctCategoriesBounded(preds: seq<Detection>, a: int, b: int)
    requires a != b
    ensures CountCategory(preds, a) + CountCategory(preds, b) <= |preds|
  {
    if preds != [] {
      DistinctCategoriesBounded(preds[..|preds| - 1], a, b);
    }
  }

  /** `pred_duck + pred_crane` is at most the number of predictions. */
  lemma PredictionCountsBounded(preds: seq<Detection>)
    ensures CountCategory(preds, Duck) + CountCategory(preds, Crane) <= |preds|
  {
    DistinctCategoriesBounded(preds, Duck, Crane);
  }

  /** `line.startswith(c)` for a one-character prefix. */
  predicate StartsWith(line: string, c: char) {
    |line| > 0 && line[0] == c
  }

  /** The number of lines whose first character is `c`. */
  function CountLinesStartingWith(lines: seq<string>, c: char): (n: nat)
    ensures n <= |lines|
    ensures n == 0 <== forall i :: 0 <= i < |lines| ==> !StartsWith(lines[i], c)
    ensures n == |lines| <== forall i :: 0 <= i < |lines| ==> StartsWith(lines[i], c)
  {
    if lines == [] then 0
    else CountLinesStartingWith(lines[..|lines| - 1], c) + (if StartsWith(lines[|lines| - 1], c) then 1 else 0)
  }

  /** Lines starting with '0' and lines starting with '1' together are at most all lines. */
  lemma {:induction false} GroundTruthCountsBounded(lines: seq<string>)
    ensures CountLinesStartingWith(lines, '0') + CountLinesStartingWith(lines, '1') <= |lines|
  {
    if lines != [] {
      GroundTruthCountsBounded(lines[..|lines| - 1]);
    }
  }

  /** Counting the lines of two files joined is counting each and adding. */
  lemma {:induction false} CountLinesAppend(a: seq<string>, b: seq<string>, c: char)
    ensures CountLinesStartingWith(a + b, c) == CountLinesStartingWith(a, c) + CountLinesStartingWith(b, c)
  {
    if b == [] {
      assert a + b == a;
    } else {
      assert (a + b)[..|a + b| - 1] == a + b[..|b| - 1];
      CountLinesAppend(a, b[..|b| - 1], c);
    }
  }

  /**
   * The ground-truth counting loop: with no label file both counts stay 0;
   * otherwise `gtDuck` counts the lines starting with '0' and `gtCrane` those
   * starting with '1'.
   */
  method CountGroundTruth(labelLines: Option<seq<string>>) returns (gtDuck: nat, gtCrane: nat)
    ensures labelLines.None? ==> gtDuck == 0 && gtCrane == 0
    ensures labelLines.Some? ==>
      gtDuck == CountLinesStartingWith(labelLines.value, '0') &&
      gtCrane == CountLinesStartingWith(labelLines.value, '1')
  {
    gtDuck, gtCrane := 0, 0;
    if labelLines.Some? {
      var lines := labelLines.value;
      for i := 0 to |lines|
        invariant gtDuck == CountLinesStartingWith(lines[..i], '0')
        invariant gtCrane == CountLinesStartingWith(lines[..i], '1')
      {
        assert lines[..i + 1][..i] == lines[..i];
        var line := lines[i];
        if StartsWith(line, '0') {
          gtDuck := gtDuck + 1;
        } else if StartsWith(line, '1') {
          gtCrane := gtCrane + 1;
        }
      }
      assert lines[..|lines|] == lines;
    }
  }
}
