/**
 * Per-image slice sizes. A list holding a single value is stretched in place
 * (`slice_heights *= len(image_files)`) to one entry per image; a list of any
 * other length is kept as it is and simply indexed per image.
 */
module Slices {

  /** `[x] * n`. */
  function Repeat(x: int, n: nat): (r: seq<int>)
    ensures |r| == n
    ensures forall i :: 0 <= i < n ==> r[i] == x
  {
    if n == 0 then [] else Repeat(x, n - 1) + [x]
  }

  /** The list after `if len(values) == 1: values *= n`. */
  function Broadcasted(values: seq<int>, n: nat): (r: seq<int>)
    ensures |values| == 1 ==> |r| == n && forall i :: 0 <= i < n ==> r[i] == values[0]
    ensures |values| != 1 ==> r == values
  {
    if |values| == 1 then Repeat(values[0], n) else values
  }

  /**
   * Broadcasting a second time changes nothing, so it does not matter whether
   * the height and width lists are one list or two.
   */
  lemma BroadcastIdempotent(values: seq<int>, n: nat)
    ensures Broadcasted(Broadcasted(values, n), n) == Broadcasted(values, n)
  {
    if |values| == 1 && n == 1 {
      assert Broadcasted(values, n) == values;
    }
  }

  /** `[736]` for five images becomes five entries of 736; a list of three for five images stays short. */
  lemma BroadcastScenario()
    ensures Broadcasted([736], 5) == [736, 736, 736, 736, 736]
    ensures |Broadcasted([512, 640, 736], 5)| == 3 < 5
  {
    assert Broadcasted([736], 5) == Repeat(736, 5);
  }

  /** A caller's slice-size list, which the driver may extend in place. */
  class SliceList {
    var values: seq<int>

    constructor (initial: seq<int>)
      ensures values == initial
    {
      values := initial;
    }

    /** `if len(self) == 1: self *= n`. */
    method Broadcast(n: nat)
      modifies this
      ensures values == Broadcasted(old(values), n)
    {
      if |values| == 1 {
        values := Repeat(values[0], n);
      }
    }
  }
}
