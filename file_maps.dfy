/**
 * Output directories as maps from file name to content. A sequence of
 * writes overwrites file by file, so the last write to a name wins and names
 * never written keep their old content.
 */
module FileMaps {

  /** The names a sequence of writes touches. */
  function WrittenNames<V>(writes: seq<(string, V)>): set<string> {
    set i | 0 <= i < |writes| :: writes[i].0
  }

  /** `m` after performing `writes` in order, each replacing the whole file. */
  function Overwrite<V>(m: map<string, V>, writes: seq<(string, V)>): (r: map<string, V>)
    ensures r.Keys == m.Keys + WrittenNames(writes)
  {
    if writes == [] then m
    else
      var init := writes[..|writes| - 1];
      var last := writes[|writes| - 1];
      assert WrittenNames(writes) == WrittenNames(init) + {last.0} by {
        assert forall i :: 0 <= i < |init| ==> init[i] == writes[i];
      }
      Overwrite(m, init)[last.0 := last.1]
  }

  /** Performing one more write is updating the map once more. */
  lemma OverwriteSnoc<V>(m: map<string, V>, writes: seq<(string, V)>, w: (string, V))
    ensures Overwrite(m, writes + [w]) == Overwrite(m, writes)[w.0 := w.1]
  {
    assert (writes + [w])[..|writes|] == writes;
  }

  /** A name holds what its last write put there. */
  lemma {:induction false} LastWriteWins<V>(m: map<string, V>, writes: seq<(string, V)>, i: nat)
    requires i < |writes|
    requires forall j :: i < j < |writes| ==> writes[j].0 != writes[i].0
    ensures writes[i].0 in Overwrite(m, writes)
    ensures Overwrite(m, writes)[writes[i].0] == writes[i].1
  {
    if i < |writes| - 1 {
      var init := writes[..|writes| - 1];
      LastWriteWins(m, init, i);
    }
  }

  /** A name that no write touches keeps its old content. */
  lemma {:induction false} UnwrittenUnchanged<V>(m: map<string, V>, writes: seq<(string, V)>, name: string)
    requires name in m
    requires forall j :: 0 <= j < |writes| ==> writes[j].0 != name
    ensures Overwrite(m, writes)[name] == m[name]
  {
    if writes != [] {
      UnwrittenUnchanged(m, writes[..|writes| - 1], name);
    }
  }
}
