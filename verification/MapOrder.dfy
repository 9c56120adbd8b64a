/** Go leaves the iteration order of a map open.  A pass over a map takes its keys one by one in any order,
    and code that needs an order sorts what it collected. */
module MapOrder {

  lemma NoMemberMeansEmpty(keys: set<int>)
    ensures keys == {} || exists k :: k in keys
  {
    if forall k :: k !in keys {
      assert keys == {};
    }
  }

  /** An arbitrary key, as the next one of a Go map iteration. */
  method AnyKey(keys: set<int>) returns (key: int)
    requires |keys| > 0
    ensures key in keys
  {
    NoMemberMeansEmpty(keys);
    key :| key in keys;
  }

  predicate Ascending(s: seq<int>) {
    forall i, j :: 0 <= i < j < |s| ==> s[i] < s[j]
  }

  /** Two ascending lists with the same members are the same list. */
  lemma {:induction false} AscendingIsUnique(a: seq<int>, b: seq<int>)
    requires Ascending(a) && Ascending(b)
    requires forall x :: x in a <==> x in b
    ensures a == b
  {
    assert a != [] ==> a[0] in a;
    assert b != [] ==> b[0] in b;
    if a != [] && b != [] {
      var m, n := |a| - 1, |b| - 1;
      assert a[m] in b && b[n] in a;
      assert a[m] == b[n];
      forall x | x in a[..m] ensures x in b[..n] {
        assert x in b && x != b[n];
      }
      forall x | x in b[..n] ensures x in a[..m] {
        assert x in a && x != a[m];
      }
      AscendingIsUnique(a[..m], b[..n]);
    }
  }
}
