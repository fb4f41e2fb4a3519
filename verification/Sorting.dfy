/** Stable sorting by any order, as the library function the programs call. */
module Sorting {

  function Insert<T>(x: T, s: seq<T>, notAfter: (T, T) -> bool): seq<T> {
    if s == [] || notAfter(x, s[0]) then [x] + s
    else [s[0]] + Insert(x, s[1..], notAfter)
  }

  /** Equal elements keep their order. */
  function Sort<T>(s: seq<T>, notAfter: (T, T) -> bool): seq<T> {
    if s == [] then [] else Insert(s[0], Sort(s[1..], notAfter), notAfter)
  }

  ghost predicate Ordered<T>(s: seq<T>, notAfter: (T, T) -> bool) {
    forall i, j :: 0 <= i < j < |s| ==> notAfter(s[i], s[j])
  }

  ghost predicate IsOrder<T(!new)>(notAfter: (T, T) -> bool) {
    && (forall a, b :: notAfter(a, b) || notAfter(b, a))
    && (forall a, b, c :: notAfter(a, b) && notAfter(b, c) ==> notAfter(a, c))
  }

  lemma {:induction false} InsertOrders<T(!new)>(x: T, s: seq<T>, notAfter: (T, T) -> bool)
    requires IsOrder(notAfter) && Ordered(s, notAfter)
    ensures Ordered(Insert(x, s, notAfter), notAfter)
    ensures multiset(Insert(x, s, notAfter)) == multiset(s) + multiset{x}
  {
    if s == [] {
    } else if notAfter(x, s[0]) {
      forall i | 0 <= i < |s| ensures notAfter(x, s[i]) {
        assert i > 0 ==> notAfter(s[0], s[i]);
      }
    } else {
      InsertOrders(x, s[1..], notAfter);
      var rest := Insert(x, s[1..], notAfter);
      assert s == [s[0]] + s[1..];
      forall t | t in rest ensures notAfter(s[0], t) {
        assert t in multiset(rest);
        assert t == x || t in s[1..];
      }
    }
  }

  lemma {:induction false} SortOrders<T(!new)>(s: seq<T>, notAfter: (T, T) -> bool)
    requires IsOrder(notAfter)
    ensures Ordered(Sort(s, notAfter), notAfter) && multiset(Sort(s, notAfter)) == multiset(s)
  {
    if s != [] {
      SortOrders(s[1..], notAfter);
      InsertOrders(s[0], Sort(s[1..], notAfter), notAfter);
      assert s == [s[0]] + s[1..];
    }
  }

  lemma SortMembers<T(!new)>(s: seq<T>, notAfter: (T, T) -> bool)
    requires IsOrder(notAfter)
    ensures forall t :: t in Sort(s, notAfter) <==> t in s
  {
    SortOrders(s, notAfter);
    assert forall t :: t in s <==> t in multiset(s);
    assert forall t :: t in Sort(s, notAfter) <==> t in multiset(Sort(s, notAfter));
  }
}
