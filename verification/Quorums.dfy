/** Strict majorities of a fixed bridge set, and why any two of them share a bridge. */
module Quorums {

  /** `Math.floor(total / 2) + 1`. */
  function Threshold(total: nat): nat {
    total / 2 + 1
  }

  predicate StrictMajority<T(==)>(part: set<T>, whole: set<T>) {
    part <= whole && |part| >= Threshold(|whole|)
  }

  lemma SubsetSize<T>(small: set<T>, big: set<T>)
    requires small <= big
    ensures |small| <= |big|
  {
    var rest := big - small;
    assert big == small + rest && small !! rest;
  }

  /** Quorum intersection: the fact every safety argument of the failover protocol ends in. */
  lemma MajoritiesMeet<T>(left: set<T>, right: set<T>, whole: set<T>) returns (common: T)
    requires StrictMajority(left, whole) && StrictMajority(right, whole)
    ensures common in left && common in right
  {
    if left * right == {} {
      assert left !! right by {
        assert forall x :: x in left && x in right ==> x in left * right;
      }
      assert |left + right| == |left| + |right|;
      SubsetSize(left + right, whole);
      assert false;
    }
    common :| common in left * right;
  }

  /** In a two-bridge community a strict majority is both bridges. */
  lemma MajorityOfTwoIsAll<T>(part: set<T>, whole: set<T>)
    requires StrictMajority(part, whole) && |whole| == 2
    ensures part == whole
  {
    var rest := whole - part;
    assert whole == part + rest && part !! rest;
    assert |rest| == 0;
  }
}
