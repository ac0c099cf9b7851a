/** Python's `sorted` with a load as key: a stable sort, ascending or descending. */
module Sorting {
  import opened Loads

  /** x has to stand before y. */
  predicate Precedes(x: Load, y: Load, descending: bool) {
    if descending then Lt(y, x) else Lt(x, y)
  }

  /** Insert after every element that need not stand behind x. */
  function Insert<T>(s: seq<T>, x: T, key: T -> Load, descending: bool): (r: seq<T>)
    ensures |r| == |s| + 1
    ensures multiset(r) == multiset(s) + multiset{x}
  {
    if s == [] then [x]
    else
      var n := |s| - 1;
      assert s == s[..n] + [s[n]];
      if Precedes(key(x), key(s[n]), descending) then Insert(s[..n], x, key, descending) + [s[n]]
      else s + [x]
  }

  function Sort<T>(s: seq<T>, key: T -> Load, descending: bool): (r: seq<T>)
    ensures |r| == |s|
    ensures multiset(r) == multiset(s)
  {
    if s == [] then []
    else
      var n := |s| - 1;
      assert s == s[..n] + [s[n]];
      Insert(Sort(s[..n], key, descending), s[n], key, descending)
  }

  /** No element has to stand before an earlier one. */
  ghost predicate Ordered<T>(s: seq<T>, key: T -> Load, descending: bool) {
    forall i, j :: 0 <= i < j < |s| ==> !Precedes(key(s[j]), key(s[i]), descending)
  }

  lemma NotPrecedesTransitive(a: Load, b: Load, c: Load, descending: bool)
    requires !Precedes(b, a, descending) && !Precedes(c, b, descending)
    ensures !Precedes(c, a, descending)
  {
  }

  lemma {:induction false} InsertKeepsOrder<T>(s: seq<T>, x: T, key: T -> Load, descending: bool)
    requires Ordered(s, key, descending)
    ensures Ordered(Insert(s, x, key, descending), key, descending)
  {
    if s == [] {
    } else {
      var n := |s| - 1;
      var r := Insert(s, x, key, descending);
      if Precedes(key(x), key(s[n]), descending) {
        InsertKeepsOrder(s[..n], x, key, descending);
        var front := Insert(s[..n], x, key, descending);
        assert r == front + [s[n]];
        forall i | 0 <= i < n + 1
          ensures !Precedes(key(s[n]), key(front[i]), descending)
        {
          assert front[i] in multiset(front);
          if front[i] != x {
            assert front[i] in s[..n];
          }
        }
      } else {
        forall i | 0 <= i < |s|
          ensures !Precedes(key(x), key(s[i]), descending)
        {
          if i < n {
            NotPrecedesTransitive(key(s[i]), key(s[n]), key(x), descending);
          }
        }
      }
    }
  }

  lemma {:induction false} SortOrders<T>(s: seq<T>, key: T -> Load, descending: bool)
    ensures Ordered(Sort(s, key, descending), key, descending)
  {
    if s == [] {
    } else {
      var n := |s| - 1;
      SortOrders(s[..n], key, descending);
      InsertKeepsOrder(Sort(s[..n], key, descending), s[n], key, descending);
    }
  }

  /** The elements with this key, in the order they occur. */
  function WithKey<T>(s: seq<T>, key: T -> Load, k: Load): seq<T> {
    if s == [] then []
    else
      var n := |s| - 1;
      WithKey(s[..n], key, k) + (if key(s[n]) == k then [s[n]] else [])
  }

  /** x alone, if it has this key. */
  function One<T>(x: T, key: T -> Load, k: Load): seq<T> {
    if key(x) == k then [x] else []
  }

  lemma WithKeyAppend<T>(s: seq<T>, x: T, key: T -> Load, k: Load)
    ensures WithKey(s + [x], key, k) == WithKey(s, key, k) + One(x, key, k)
  {
    assert (s + [x])[..|s|] == s;
  }

  lemma {:induction false} InsertIsStable<T>(s: seq<T>, x: T, key: T -> Load, descending: bool, k: Load)
    ensures WithKey(Insert(s, x, key, descending), key, k) == WithKey(s, key, k) + One(x, key, k)
  {
    if s == [] {
      WithKeyAppend(s, x, key, k);
      assert s + [x] == [x];
    } else {
      var n := |s| - 1;
      var front, y := s[..n], s[n];
      assert s == front + [y];
      if Precedes(key(x), key(y), descending) {
        calc {
          WithKey(Insert(s, x, key, descending), key, k);
        ==
          WithKey(Insert(front, x, key, descending) + [y], key, k);
        == { WithKeyAppend(Insert(front, x, key, descending), y, key, k); }
          WithKey(Insert(front, x, key, descending), key, k) + One(y, key, k);
        == { InsertIsStable(front, x, key, descending, k); }
          WithKey(front, key, k) + One(x, key, k) + One(y, key, k);
        == { NotBoth(front, x, y, key, k); }
          WithKey(front, key, k) + One(y, key, k) + One(x, key, k);
        == { WithKeyAppend(front, y, key, k); }
          WithKey(s, key, k) + One(x, key, k);
        }
      } else {
        WithKeyAppend(s, x, key, k);
      }
    }
  }

  lemma NotBoth<T>(s: seq<T>, x: T, y: T, key: T -> Load, k: Load)
    requires key(x) != key(y)
    ensures WithKey(s, key, k) + One(x, key, k) + One(y, key, k) == WithKey(s, key, k) + One(y, key, k) + One(x, key, k)
  {
  }

  /** Elements with equal keys keep their order. */
  lemma {:induction false} SortIsStable<T>(s: seq<T>, key: T -> Load, descending: bool, k: Load)
    ensures WithKey(Sort(s, key, descending), key, k) == WithKey(s, key, k)
  {
    if s == [] {
    } else {
      var n := |s| - 1;
      var front := s[..n];
      calc {
        WithKey(Sort(s, key, descending), key, k);
      == { InsertIsStable(Sort(front, key, descending), s[n], key, descending, k); }
        WithKey(Sort(front, key, descending), key, k) + One(s[n], key, k);
      == { SortIsStable(front, key, descending, k); }
        WithKey(front, key, k) + One(s[n], key, k);
      }
    }
  }

  lemma SortMembers<T>(s: seq<T>, key: T -> Load, descending: bool)
    ensures forall x :: x in Sort(s, key, descending) <==> x in s
  {
    forall x
      ensures x in Sort(s, key, descending) <==> x in s
    {
      assert x in s <==> x in multiset(s);
      assert x in Sort(s, key, descending) <==> x in multiset(Sort(s, key, descending));
    }
  }

  /** In plain terms: ascending means that no later key is smaller, descending that none is larger. */
  lemma SortedMeaning<T>(s: seq<T>, key: T -> Load, descending: bool, i: nat, j: nat)
    requires i < j < |s|
    ensures var r := Sort(s, key, descending);
            if descending then Le(key(r[j]), key(r[i])) else Le(key(r[i]), key(r[j]))
  {
    SortOrders(s, key, descending);
    var r := Sort(s, key, descending);
    assert !Precedes(key(r[j]), key(r[i]), descending);
  }

  /** How many elements have to stand before an element with key k. */
  function Ahead<T>(s: seq<T>, key: T -> Load, k: Load, descending: bool): nat {
    if s == [] then 0
    else Ahead(s[..|s| - 1], key, k, descending) + if Precedes(key(s[|s| - 1]), k, descending) then 1 else 0
  }

  lemma AheadAppend<T>(s: seq<T>, x: T, key: T -> Load, k: Load, descending: bool)
    ensures Ahead(s + [x], key, k, descending) ==
            Ahead(s, key, k, descending) + if Precedes(key(x), k, descending) then 1 else 0
  {
    assert (s + [x])[..|s|] == s;
  }

  lemma {:induction false} AheadInsert<T>(s: seq<T>, x: T, key: T -> Load, k: Load, descending: bool)
    ensures Ahead(Insert(s, x, key, descending), key, k, descending) == Ahead(s + [x], key, k, descending)
  {
    if s == [] {
      assert s + [x] == [x];
    } else {
      var n := |s| - 1;
      var front, y := s[..n], s[n];
      assert s == front + [y];
      if Precedes(key(x), key(y), descending) {
        AheadInsert(front, x, key, k, descending);
        AheadAppend(Insert(front, x, key, descending), y, key, k, descending);
        AheadAppend(front, x, key, k, descending);
        AheadAppend(front, y, key, k, descending);
        AheadAppend(s, x, key, k, descending);
      }
    }
  }

  /** Sorting does not change how many that are. */
  lemma {:induction false} AheadSort<T>(s: seq<T>, key: T -> Load, k: Load, descending: bool)
    ensures Ahead(Sort(s, key, descending), key, k, descending) == Ahead(s, key, k, descending)
  {
    if s == [] {
    } else {
      var n := |s| - 1;
      var sorted := Sort(s[..n], key, descending);
      AheadSort(s[..n], key, k, descending);
      AheadInsert(sorted, s[n], key, k, descending);
      AheadAppend(sorted, s[n], key, k, descending);
    }
  }

  lemma {:induction false} AheadAtMost<T>(s: seq<T>, key: T -> Load, k: Load, descending: bool, j: nat)
    requires forall i :: j <= i < |s| ==> !Precedes(key(s[i]), k, descending)
    ensures Ahead(s, key, k, descending) <= j
  {
    if s == [] {
    } else {
      var n := |s| - 1;
      AheadAtMost(s[..n], key, k, descending, if n < j then n else j);
    }
  }

  /** At most j elements have to stand before the one at position j of the sorted sequence. */
  lemma FewStandBefore<T>(s: seq<T>, key: T -> Load, descending: bool, j: nat)
    requires j < |s|
    ensures Ahead(s, key, key(Sort(s, key, descending)[j]), descending) <= j
  {
    var r := Sort(s, key, descending);
    SortOrders(s, key, descending);
    AheadAtMost(r, key, key(r[j]), descending, j);
    AheadSort(s, key, key(r[j]), descending);
  }
}
