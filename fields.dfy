/** The `reduce((acc, err) => { acc[path] = message; return acc }, {})` fold
    that both the error handler and the schema validator use to turn a list
    of (path, message) pairs into a field -> message object. */
module Fields {

  /** Folds the pairs from left to right into a map; a later pair with the
      same path overwrites the message an earlier one stored. */
  function Collect(pairs: seq<(string, string)>): (m: map<string, string>)
    ensures m.Keys == set i | 0 <= i < |pairs| :: pairs[i].0
    decreases |pairs|
  {
    if pairs == [] then map[]
    else
      var last := pairs[|pairs| - 1];
      var init := Collect(pairs[..|pairs| - 1]);
      assert forall i :: 0 <= i < |pairs| - 1 ==> pairs[..|pairs| - 1][i] == pairs[i];
      init[last.0 := last.1]
  }

  /** No pair after pair `i` carries its path. */
  ghost predicate LastOnPath(pairs: seq<(string, string)>, i: int)
    requires 0 <= i < |pairs|
  {
    forall j :: i < j < |pairs| ==> pairs[j].0 != pairs[i].0
  }

  /** The message stored for a path is the one of the last pair carrying it. */
  lemma {:induction false} CollectLastWins(pairs: seq<(string, string)>, i: int)
    requires 0 <= i < |pairs|
    requires LastOnPath(pairs, i)
    ensures pairs[i].0 in Collect(pairs)
    ensures Collect(pairs)[pairs[i].0] == pairs[i].1
    decreases |pairs|
  {
    var n := |pairs|;
    if i < n - 1 {
      var init := pairs[..n - 1];
      assert init[i] == pairs[i];
      forall j | i < j < |init| ensures init[j].0 != init[i].0 {
        assert init[j] == pairs[j];
      }
      CollectLastWins(init, i);
    }
  }
}
