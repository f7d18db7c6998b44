/** Ordered enumerations of finite sets of ids, as sorting by start time yields them. */
module OrderedIds {

  predicate NonDecreasing(s: seq<int>) {
    forall i, j :: 0 <= i < j < |s| ==> s[i] <= s[j]
  }

  predicate Increasing(s: seq<int>) {
    forall i, j :: 0 <= i < j < |s| ==> s[i] < s[j]
  }

  /** The least id in a non-empty set of ids. */
  method MinOf(s: set<int>) returns (m: int)
    requires s != {}
    ensures m in s && forall x :: x in s ==> m <= x
  {
    if forall x :: x !in s {
      assert false;
    }
    m :| m in s;
    var todo := s - {m};
    while todo != {}
      invariant todo <= s && m in s
      invariant forall x :: x in s && x !in todo ==> m <= x
      decreases todo
    {
      if forall x :: x !in todo {
        assert false;
      }
      var y :| y in todo;
      if y < m {
        m := y;
      }
      todo := todo - {y};
    }
  }

  /** An increasing sequence has as many elements as the set it enumerates. */
  lemma {:induction false} DistinctCount(s: seq<int>, keys: set<int>)
    requires Increasing(s)
    requires forall k :: k in s <==> k in keys
    ensures |s| == |keys|
    decreases |s|
  {
    if s != [] {
      var last := s[|s| - 1];
      var init := s[..|s| - 1];
      forall i | 0 <= i < |init| ensures init[i] != last {
        assert s[i] < s[|s| - 1];
      }
      assert last !in init;
      forall k ensures k in init <==> k in keys - {last} {
        if k in init {
          var i :| 0 <= i < |init| && init[i] == k;
          assert s[i] == k;
        }
        if k in keys - {last} {
          assert k in s;
          var i :| 0 <= i < |s| && s[i] == k;
          assert i < |s| - 1;
          assert init[i] == k;
        }
      }
      DistinctCount(init, keys - {last});
      assert last in keys;
      assert |keys - {last}| == |keys| - 1;
    } else {
      assert forall k :: k !in keys;
      assert keys == {};
    }
  }
}
