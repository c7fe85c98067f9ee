/**
 * Which images a batch processes and under which names: the directory
 * entries ending with the image extension, sorted by Python's string order
 * (code point by code point), and the stem `filename[:-4]` that names an
 * image's label and annotation files.
 */
module FileSelection {

  /** `s.endswith(suffix)`. */
  predicate EndsWith(s: string, suffix: string) {
    |suffix| <= |s| && s[|s| - |suffix|..] == suffix
  }

  /** The entries ending with `suffix`, keeping their listing order and multiplicity. */
  function Matching(entries: seq<string>, suffix: string): (r: seq<string>)
    ensures forall x :: multiset(r)[x] == if EndsWith(x, suffix) then multiset(entries)[x] else 0
  {
    if entries == [] then []
    else
      var init := entries[..|entries| - 1];
      var last := entries[|entries| - 1];
      assert entries == init + [last];
      Matching(init, suffix) + (if EndsWith(last, suffix) then [last] else [])
  }

  /** Python's `a <= b` on strings: lexicographic by code point, a prefix first. */
  predicate StrLe(a: string, b: string): (r: bool)
    ensures a <= b ==> r
    ensures b < a ==> !r
  {
    |a| == 0 || (|b| > 0 && (a[0] < b[0] || (a[0] == b[0] && StrLe(a[1..], b[1..]))))
  }

  lemma {:induction false} StrLeRefl(a: string)
    ensures StrLe(a, a)
  {
    if |a| > 0 { StrLeRefl(a[1..]); }
  }

  lemma {:induction false} StrLeTotal(a: string, b: string)
    ensures StrLe(a, b) || StrLe(b, a)
  {
    if |a| > 0 && |b| > 0 && a[0] == b[0] { StrLeTotal(a[1..], b[1..]); }
  }

  lemma {:induction false} StrLeTrans(a: string, b: string, c: string)
    requires StrLe(a, b) && StrLe(b, c)
    ensures StrLe(a, c)
  {
    if |a| > 0 && a[0] == b[0] && b[0] == c[0] { StrLeTrans(a[1..], b[1..], c[1..]); }
  }

  lemma {:induction false} StrLeAntisym(a: string, b: string)
    requires StrLe(a, b) && StrLe(b, a)
    ensures a == b
  {
    if |a| > 0 {
      StrLeAntisym(a[1..], b[1..]);
      assert a == [a[0]] + a[1..] && b == [b[0]] + b[1..];
    }
  }

  /** Every earlier element is at most every later one. */
  ghost predicate Sorted(s: seq<string>) {
    forall i, j :: 0 <= i < j < |s| ==> StrLe(s[i], s[j])
  }

  /** Insert `x` before the first element it does not exceed. */
  function Insert(x: string, s: seq<string>): (r: seq<string>)
    ensures multiset(r) == multiset(s) + multiset{x}
  {
    if s == [] then [x]
    else if StrLe(x, s[0]) then [x] + s
    else
      assert s == [s[0]] + s[1..];
      [s[0]] + Insert(x, s[1..])
  }

  lemma {:induction false} InsertSorted(x: string, s: seq<string>)
    requires Sorted(s)
    ensures Sorted(Insert(x, s))
  {
    if s == [] {
    } else if StrLe(x, s[0]) {
      forall j | 0 <= j < |s| ensures StrLe(x, s[j]) {
        if j > 0 { StrLeTrans(x, s[0], s[j]); }
      }
    } else {
      StrLeTotal(x, s[0]);
      var t := s[1..];
      InsertSorted(x, t);
      var r := Insert(x, t);
      forall j | 0 <= j < |r| ensures StrLe(s[0], r[j]) {
        assert r[j] in multiset(r);
        if r[j] != x {
          assert r[j] in multiset(t);
          var k :| 0 <= k < |t| && t[k] == r[j];
          assert s[k + 1] == r[j];
        }
      }
    }
  }

  /** `sorted(s)` as an insertion sort. */
  function Sort(s: seq<string>): (r: seq<string>)
    ensures multiset(r) == multiset(s)
  {
    if s == [] then []
    else
      assert s == [s[0]] + s[1..];
      Insert(s[0], Sort(s[1..]))
  }

  lemma {:induction false} SortSorted(s: seq<string>)
    ensures Sorted(Sort(s))
  {
    if s != [] {
      SortSorted(s[1..]);
      InsertSorted(s[0], Sort(s[1..]));
    }
  }

  /** Dropping the first element keeps a sequence sorted. */
  lemma SortedTail(a: seq<string>)
    requires Sorted(a) && a != []
    ensures Sorted(a[1..])
  {
    forall i, j | 0 <= i < j < |a| - 1 ensures StrLe(a[1..][i], a[1..][j]) {
      assert a[1..][i] == a[i + 1] && a[1..][j] == a[j + 1];
    }
  }

  /** Two non-empty sorted arrangements of the same names start with the same name. */
  lemma SortedHeads(a: seq<string>, b: seq<string>)
    requires Sorted(a) && Sorted(b) && multiset(a) == multiset(b) && a != [] && b != []
    ensures a[0] == b[0]
  {
    assert a[0] in multiset(b) && b[0] in multiset(a);
    var k :| 0 <= k < |b| && b[k] == a[0];
    var m :| 0 <= m < |a| && a[m] == b[0];
    if k == 0 { StrLeRefl(a[0]); } else { assert StrLe(b[0], b[k]); }
    if m == 0 { StrLeRefl(b[0]); } else { assert StrLe(a[0], a[m]); }
    StrLeAntisym(a[0], b[0]);
  }

  /** Removing the same first name from two arrangements of the same names leaves arrangements of the same names. */
  lemma SameTails(a: seq<string>, b: seq<string>)
    requires a != [] && b != [] && a[0] == b[0] && multiset(a) == multiset(b)
    ensures multiset(a[1..]) == multiset(b[1..])
  {
    var x, at, bt := a[0], a[1..], b[1..];
    assert a == [x] + at && b == [x] + bt;
    assert multiset(a) == multiset{x} + multiset(at);
    assert multiset(b) == multiset{x} + multiset(bt);
    assert multiset(at) == multiset(a) - multiset{x};
  }

  /** Two sorted arrangements of the same names are the same sequence. */
  lemma {:induction false} SortedUnique(a: seq<string>, b: seq<string>)
    requires Sorted(a) && Sorted(b) && multiset(a) == multiset(b)
    ensures a == b
  {
    if a == [] {
      assert |multiset(b)| == 0;
    } else {
      assert |b| == |multiset(b)| == |multiset(a)| == |a|;
      SortedHeads(a, b);
      SameTails(a, b);
      SortedTail(a);
      SortedTail(b);
      SortedUnique(a[1..], b[1..]);
      assert a == [a[0]] + a[1..] && b == [b[0]] + b[1..];
    }
  }

  /**
   * `sorted(f for f in os.listdir(image_dir) if f.endswith(image_format))`:
   * the matching entries, each as often as listed (its order is stated by
   * `SelectionSorted`).
   */
  function SelectImageFiles(entries: seq<string>, imageFormat: string): (r: seq<string>)
    ensures forall x :: multiset(r)[x] == if EndsWith(x, imageFormat) then multiset(entries)[x] else 0
  {
    Sort(Matching(entries, imageFormat))
  }

  /** The selected images are in ascending order. */
  lemma SelectionSorted(entries: seq<string>, imageFormat: string)
    ensures Sorted(SelectImageFiles(entries, imageFormat))
  {
    SortSorted(Matching(entries, imageFormat));
  }

  /** An image is selected exactly when it is listed and ends with the extension. */
  lemma SelectionMembers(entries: seq<string>, imageFormat: string, x: string)
    ensures x in SelectImageFiles(entries, imageFormat) <==> x in entries && EndsWith(x, imageFormat)
  {
    var r := SelectImageFiles(entries, imageFormat);
    assert x in r <==> x in multiset(r);
    assert x in entries <==> x in multiset(entries);
  }

  /** The selection depends on which entries are listed, not on the order the listing gives them in. */
  lemma SelectionIgnoresListingOrder(e1: seq<string>, e2: seq<string>, imageFormat: string)
    requires multiset(e1) == multiset(e2)
    ensures SelectImageFiles(e1, imageFormat) == SelectImageFiles(e2, imageFormat)
  {
    var r1 := SelectImageFiles(e1, imageFormat);
    var r2 := SelectImageFiles(e2, imageFormat);
    SelectionSorted(e1, imageFormat);
    SelectionSorted(e2, imageFormat);
    assert forall x :: multiset(r1)[x] == multiset(r2)[x];
    assert multiset(r1) == multiset(r2);
    SortedUnique(r1, r2);
  }

  /** `filename[:-4]`: all but the last four characters, empty for shorter names. */
  function Stem(filename: string): (s: string)
    ensures |filename| >= 4 ==> |s| == |filename| - 4 && s == filename[..|s|]
    ensures |filename| < 4 ==> s == ""
  {
    if |filename| >= 4 then filename[..|filename| - 4] else ""
  }

  /** `filename[:-4] + ".txt"`: the label and annotation file name of an image. */
  function TextFileName(filename: string): (t: string)
    ensures EndsWith(t, ".txt")
  {
    Stem(filename) + ".txt"
  }

  /** With a four-character extension, stem and extension give back the file name. */
  lemma StemRestoresName(filename: string, imageFormat: string)
    requires EndsWith(filename, imageFormat) && |imageFormat| == 4
    ensures Stem(filename) + imageFormat == filename
  {
  }

  /**
   * With an extension of at least four characters, two different matching
   * images never share a text file name.
   */
  lemma TextFileNamesDistinct(f1: string, f2: string, imageFormat: string)
    requires EndsWith(f1, imageFormat) && EndsWith(f2, imageFormat) && |imageFormat| >= 4
    requires f1 != f2
    ensures TextFileName(f1) != TextFileName(f2)
  {
  }

  /** A five-character extension such as ".jpeg" leaves its dot in the stem. */
  lemma LongExtensionKeepsDot()
    ensures Stem("a.jpeg") == "a."
    ensures TextFileName("a.jpeg") == "a..txt"
  {
  }
}
