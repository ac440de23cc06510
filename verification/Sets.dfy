/** Sizes of finite sets. */
module Sets {
  lemma {:induction false} SubsetCount<T>(s: set<T>, t: set<T>)
    requires s <= t
    ensures |s| <= |t|
    ensures |s| == |t| ==> s == t
  {
    if x :| x in s {
      SubsetCount(s - {x}, t - {x});
    }
  }
}
