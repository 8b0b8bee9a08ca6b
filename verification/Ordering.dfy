/** `ORDER BY a, b, c` over a set of rows: lexicographic keys, their minimum and their sorted list. */
module Ordering {

  datatype Key = Key(a: int, b: int, c: int)

  predicate Before(x: Key, y: Key) {
    x.a < y.a || (x.a == y.a && (x.b < y.b || (x.b == y.b && x.c < y.c)))
  }

  predicate IsLeast(k: Key, keys: set<Key>) {
    k in keys && forall other <- keys :: other == k || Before(k, other)
  }

  lemma {:induction false} LeastExists(keys: set<Key>)
    requires keys != {}
    ensures exists k :: IsLeast(k, keys)
  {
    var k :| k in keys;
    assert keys == keys - {k} + {k};
    if keys - {k} == {} {
      assert IsLeast(k, keys);
    } else {
      LeastExists(keys - {k});
      var least :| IsLeast(least, keys - {k});
      assert IsLeast(if Before(k, least) then k else least, keys);
    }
  }

  function Least(keys: set<Key>): (k: Key)
    requires keys != {}
    ensures IsLeast(k, keys)
  {
    LeastExists(keys);
    var k :| IsLeast(k, keys);
    k
  }

  function Sorted(keys: set<Key>): seq<Key> {
    if keys == {} then [] else
      var k := Least(keys);
      [k] + Sorted(keys - {k})
  }

  predicate StrictlyOrdered(s: seq<Key>) {
    forall i, j :: 0 <= i < j < |s| ==>
      s[i].a < s[j].a || (s[i].a == s[j].a && (s[i].b < s[j].b || (s[i].b == s[j].b && s[i].c < s[j].c)))
  }

  /** Sorting lists every key exactly once, in order. */
  lemma {:induction false} SortedIsTheOrderedList(keys: set<Key>)
    ensures StrictlyOrdered(Sorted(keys))
    ensures |Sorted(keys)| == |keys|
    ensures forall k :: k in Sorted(keys) <==> k in keys
  {
    if keys != {} {
      var k := Least(keys);
      var rest := Sorted(keys - {k});
      SortedIsTheOrderedList(keys - {k});
      assert Sorted(keys) == [k] + rest;
      forall j | 0 <= j < |rest| ensures Before(k, rest[j]) {
        assert rest[j] in keys - {k};
      }
    }
  }
}
