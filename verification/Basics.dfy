/** Identifiers, results and the two relational idioms the queues rely on:
    `ORDER BY ... LIMIT n` and `sum(...)` over the rows of a table. */
module Basics {

  /** Row identifiers and tokens; only their equality and their order are used. */
  type Id = nat

  datatype Option<+T> = None | Some(value: T)

  datatype Result<+T, +E> = Ok(value: T) | Err(error: E)

  function Min(a: int, b: int): int {
    if a <= b then a else b
  }

  function Max(a: int, b: int): int {
    if a >= b then a else b
  }

  /** A sort key: two columns and the identifier that breaks ties. */
  datatype Key = Key(major: int, minor: int, id: Id)

  predicate Before(a: Key, b: Key) {
    a.major < b.major || (a.major == b.major && (a.minor < b.minor || (a.minor == b.minor && a.id < b.id)))
  }

  ghost predicate Ascending(page: seq<Key>) {
    forall i, j :: 0 <= i < j < |page| ==> Before(page[i], page[j])
  }

  ghost function Elements(page: seq<Key>): set<Key> {
    set i | 0 <= i < |page| :: page[i]
  }

  /** The row that `ORDER BY` puts first. */
  ghost function Least(s: set<Key>): (k: Key)
    requires s != {}
    ensures k in s && forall j :: j in s && j != k ==> Before(k, j)
  {
    var x :| x in s;
    var rest := s - {x};
    assert forall j :: j in s && j != x ==> j in rest;
    if rest == {} then x
    else
      var y := Least(rest);
      if Before(x, y) then x else y
  }

  ghost function Below(s: set<Key>, k: Key): set<Key> {
    set j | j in s && Before(j, k)
  }

  /** The rows that `ORDER BY ... LIMIT n` selects: those with fewer than `n` rows before them. */
  ghost function First(s: set<Key>, n: nat): set<Key> {
    set k | k in s && |Below(s, k)| < n
  }

  lemma SubsetSize<T>(a: set<T>, b: set<T>)
    requires a <= b
    ensures |a| <= |b|
  {
    assert b == a + (b - a);
  }

  lemma BelowWithout(s: set<Key>, k: Key, j: Key)
    requires k in s && Before(k, j)
    ensures |Below(s, j)| == |Below(s - {k}, j)| + 1
  {
    assert Below(s, j) == Below(s - {k}, j) + {k};
  }

  lemma {:induction false} FirstSize(s: set<Key>, n: nat)
    ensures |First(s, n)| == Min(|s|, n)
    decreases |s|
  {
    hide Below, Before;
    if s == {} || n == 0 {
      assert First(s, n) == {};
    } else {
      var k := Least(s);
      var rest := s - {k};
      FirstSize(rest, n - 1);
      LeastIsFirst(s);
      assert k in First(s, 1);
      forall j | j in rest ensures |Below(s, j)| == |Below(rest, j)| + 1 {
        BelowWithout(s, k, j);
      }
      assert First(s, n) == First(rest, n - 1) + {k};
    }
  }

  function IdsOf(s: set<Key>): set<Id> {
    set k | k in s :: k.id
  }

  lemma {:induction false} IdsSize(s: set<Key>)
    requires forall j, k :: j in s && k in s && j.id == k.id ==> j == k
    ensures |IdsOf(s)| == |s|
    decreases |s|
  {
    if s != {} {
      var k :| k in s;
      IdsSize(s - {k});
      assert IdsOf(s) == IdsOf(s - {k}) + {k.id};
    }
  }

  lemma ElementsSize(page: seq<Key>)
    requires Ascending(page)
    ensures |Elements(page)| == |page|
  {
    if page == [] {
    } else {
      var last := |page| - 1;
      var front := page[..last];
      ElementsSize(front);
      assert Elements(page) == Elements(front) + {page[last]};
      assert page[last] !in Elements(front);
    }
  }

  lemma ElementsAppend(page: seq<Key>, k: Key)
    requires Ascending(page)
    requires forall p :: p in Elements(page) ==> Before(p, k)
    ensures Elements(page + [k]) == Elements(page) + {k}
    ensures Ascending(page + [k])
  {
    var longer := page + [k];
    forall i | 0 <= i < |page| ensures longer[i] in Elements(page) {
      assert longer[i] == page[i];
    }
    forall p | p in Elements(page) ensures p in Elements(longer) {
      var i :| 0 <= i < |page| && page[i] == p;
      assert longer[i] == p;
    }
    assert longer[|page|] == k;
  }

  method PickLeast(rows: set<Key>) returns (k: Key)
    requires rows != {}
    ensures k in rows && forall j :: j in rows && j != k ==> Before(k, j)
  {
    k :| k in rows;
    var todo := rows - {k};
    while todo != {}
      invariant todo <= rows && k in rows && k !in todo
      invariant forall j :: j in rows && j !in todo && j != k ==> Before(k, j)
      decreases |todo|
    {
      var j :| j in todo;
      todo := todo - {j};
      if Before(j, k) {
        k := j;
      }
    }
  }

  /** Reads the rows in order, at most `limit` of them. */
  method OrderBy(rows: set<Key>, limit: nat) returns (page: seq<Key>)
    ensures Ascending(page)
    ensures Elements(page) == First(rows, limit)
    ensures forall p, r :: p in Elements(page) && r in rows && r !in Elements(page) ==> Before(p, r)
    ensures |page| == if |rows| <= limit then |rows| else limit
  {
    page := [];
    var rest := rows;
    while |page| < limit && rest != {}
      invariant Ascending(page) && |page| <= limit
      invariant Elements(page) !! rest && Elements(page) + rest == rows
      invariant forall p, r :: p in Elements(page) && r in rest ==> Before(p, r)
      invariant |page| + |rest| == |rows|
      decreases |rest|
    {
      var k := PickLeast(rest);
      ElementsAppend(page, k);
      page := page + [k];
      rest := rest - {k};
    }
    PrefixIsFirst(rows, page, rest, limit);
  }

  lemma PrefixIsFirst(rows: set<Key>, page: seq<Key>, rest: set<Key>, limit: nat)
    requires Ascending(page) && |page| <= limit
    requires Elements(page) !! rest && Elements(page) + rest == rows
    requires forall p, r :: p in Elements(page) && r in rest ==> Before(p, r)
    requires |page| == limit || rest == {}
    ensures Elements(page) == First(rows, limit)
  {
    hide Before, Ascending;
    ElementsSize(page);
    forall k | k in rows ensures k in Elements(page) <==> k in First(rows, limit) {
      BelowPage(rows, page, rest, k);
      if k in Elements(page) {
        SubsetSize(Below(rows, k), Elements(page) - {k});
      } else {
        SubsetSize(Elements(page), Below(rows, k));
      }
    }
  }

  lemma BelowPage(rows: set<Key>, page: seq<Key>, rest: set<Key>, k: Key)
    requires Elements(page) !! rest && Elements(page) + rest == rows && k in rows
    requires forall p, r :: p in Elements(page) && r in rest ==> Before(p, r)
    ensures k in Elements(page) ==> Below(rows, k) <= Elements(page) - {k}
    ensures k !in Elements(page) ==> Elements(page) <= Below(rows, k)
  {
    hide Elements;
  }

  lemma LeastIsFirst(rows: set<Key>)
    requires rows != {}
    ensures First(rows, 1) == {Least(rows)}
  {
    var k := Least(rows);
    assert Below(rows, k) == {};
    forall j | j in rows && j != k ensures j !in First(rows, 1) {
      SubsetSize({k}, Below(rows, j));
    }
  }

  /** `sum(...)` over the selected rows; the map holds each row's contribution. */
  ghost function Sum(m: map<Id, nat>): nat {
    if m == map[] then 0
    else
      var k :| k in m;
      m[k] + Sum(m - {k})
  }

  lemma {:induction false} SumRemove(m: map<Id, nat>, k: Id)
    requires k in m
    ensures Sum(m) == m[k] + Sum(m - {k})
    decreases |m|
  {
    var x :| x in m && Sum(m) == m[x] + Sum(m - {x});
    if x != k {
      SumRemove(m - {x}, k);
      SumRemove(m - {k}, x);
      assert m - {x} - {k} == m - {k} - {x};
    }
  }

  lemma {:induction false} SumAtMost(small: map<Id, nat>, large: map<Id, nat>)
    requires small.Keys <= large.Keys
    requires forall k :: k in small ==> small[k] <= large[k]
    ensures Sum(small) <= Sum(large)
    decreases |large|
  {
    if large == map[] {
      assert small == map[];
    } else {
      var k :| k in large;
      SumRemove(large, k);
      if k in small {
        SumRemove(small, k);
        SumAtMost(small - {k}, large - {k});
      } else {
        SumAtMost(small, large - {k});
      }
    }
  }

  lemma SumInsert(m: map<Id, nat>, k: Id, v: nat)
    requires k !in m
    ensures Sum(m[k := v]) == Sum(m) + v
  {
    SumRemove(m[k := v], k);
    assert m[k := v] - {k} == m;
  }
}
