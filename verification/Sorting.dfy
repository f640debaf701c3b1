/** Ascending lists. */
module Sorting {
  /** `sorted(keys)`. */
  function SortedKeys(keys: set<int>): seq<int> {
    if keys == {} then []
    else
      HasLeast(keys);
      var least :| least in keys && forall k | k in keys :: least <= k;
      [least] + SortedKeys(keys - {least})
  }

  lemma HasMember(keys: set<int>)
    requires keys != {}
    ensures exists k :: k in keys
  {
    assert (forall k :: k !in keys) ==> keys == {};
  }

  lemma HasLeast(keys: set<int>)
    requires keys != {}
    ensures exists least :: least in keys && forall k | k in keys :: least <= k
  {
    HasMember(keys);
    var k :| k in keys;
    LeastFrom(keys, k);
  }

  lemma {:induction false} LeastFrom(keys: set<int>, k: int)
    requires k in keys
    ensures exists least :: least in keys && forall j | j in keys :: least <= j
    decreases set j | j in keys && j < k
  {
    var smaller := set j | j in keys && j < k;
    if j :| j in smaller {
      assert j !in (set i | i in keys && i < j);
      LeastFrom(keys, j);
    } else {
      assert forall j | j in keys :: j !in smaller;
    }
  }

  lemma {:induction false} SortedKeysIs(keys: set<int>)
    ensures forall i, j | 0 <= i < j < |SortedKeys(keys)| :: SortedKeys(keys)[i] < SortedKeys(keys)[j]
    ensures forall k :: k in SortedKeys(keys) <==> k in keys
    decreases |keys|
  {
    if keys != {} {
      HasLeast(keys);
      var least := SortedKeys(keys)[0];
      var rest := SortedKeys(keys - {least});
      assert least in keys && SortedKeys(keys) == [least] + rest;
      SortedKeysIs(keys - {least});
      forall j | 0 <= j < |rest| ensures least < rest[j] {
        assert rest[j] in keys - {least};
      }
    }
  }

  predicate Ascending(s: seq<real>) {
    forall i, j | 0 <= i < j < |s| :: s[i] <= s[j]
  }
}
