/** Counting facts about finite sets and the sequences that list them. */
module Sets {
  function Elements(ids: seq<nat>): set<nat> {
    set i | i in ids
  }

  lemma FullSubset(part: set<nat>, whole: set<nat>)
    requires part <= whole
    ensures |part| <= |whole|
    ensures |part| == |whole| ==> part == whole
  {
    assert whole == part + (whole - part);
  }

  lemma {:induction false} DistinctCount(ids: seq<nat>)
    requires forall i, k :: 0 <= i < k < |ids| ==> ids[i] != ids[k]
    ensures |Elements(ids)| == |ids|
  {
    if |ids| > 0 {
      var front := ids[..|ids| - 1];
      DistinctCount(front);
      var last := ids[|ids| - 1];
      assert last !in front;
      assert Elements(ids) == Elements(front) + {last};
    }
  }

  lemma {:induction false} ElementsAtMost(ids: seq<nat>)
    ensures |Elements(ids)| <= |ids|
  {
    if |ids| > 0 {
      var front := ids[..|ids| - 1];
      ElementsAtMost(front);
      assert Elements(ids) == Elements(front) + {ids[|ids| - 1]};
    }
  }
}
