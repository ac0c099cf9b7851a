/** Small vocabulary shared by every module: results, sums and integer ranges. */
module Prelude {

  datatype Option<+T> = None | Some(value: T)

  datatype Result<+T, +E> = Ok(value: T) | Err(error: E)

  function Lookup<K, V>(m: map<K, V>, k: K): Option<V> {
    if k in m then Some(m[k]) else None
  }

  function Sum(s: seq<int>): int {
    if s == [] then 0 else s[0] + Sum(s[1..])
  }

  lemma {:induction false} SumAppend(s: seq<int>, x: int)
    ensures Sum(s + [x]) == Sum(s) + x
  {
    if s == [] {
    } else {
      assert (s + [x])[1..] == s[1..] + [x];
      SumAppend(s[1..], x);
    }
  }

  /** The integers lo, lo + 1, ..., hi - 1. */
  function Range(lo: int, hi: int): (r: seq<int>)
    requires lo <= hi
    ensures |r| == hi - lo
    ensures forall i :: 0 <= i < |r| ==> r[i] == lo + i
  {
    seq(hi - lo, i => lo + i)
  }

  lemma RangeSplit(lo: int, mid: int, hi: int)
    requires lo <= mid <= hi
    ensures Range(lo, hi) == Range(lo, mid) + Range(mid, hi)
  {
  }

  function Flatten<T>(ss: seq<seq<T>>): seq<T> {
    if ss == [] then [] else ss[0] + Flatten(ss[1..])
  }

  lemma {:induction false} FlattenAppend<T>(ss: seq<seq<T>>, last: seq<T>)
    ensures Flatten(ss + [last]) == Flatten(ss) + last
  {
    if ss == [] {
      assert ss + [last] == [last];
      assert Flatten([last]) == last + Flatten([last][1..]);
    } else {
      assert (ss + [last])[1..] == ss[1..] + [last];
      FlattenAppend(ss[1..], last);
    }
  }

  /** The elements to keep, in order. */
  function Select<T(!new)>(s: seq<T>, keep: T -> bool): (r: seq<T>)
    ensures forall x :: x in r <==> x in s && keep(x)
  {
    if s == [] then []
    else
      var n := |s| - 1;
      assert s == s[..n] + [s[n]];
      Select(s[..n], keep) + (if keep(s[n]) then [s[n]] else [])
  }

  predicate Distinct<T(==)>(s: seq<T>) {
    forall i, j :: 0 <= i < j < |s| ==> s[i] != s[j]
  }

  function Min(a: int, b: int): int {
    if a <= b then a else b
  }

  function Abs(a: int): int {
    if a < 0 then -a else a
  }

  lemma MulNonNegative(a: int, b: int)
    requires a >= 0 && b >= 0
    ensures a * b >= 0
  {
  }

  lemma MulGap(a: int, b: int, d: int)
    requires a < b && d > 0
    ensures a * d + d <= b * d
  {
    MulNonNegative(b - a - 1, d);
    assert (b - a - 1) * d == b * d - a * d - d;
  }

  lemma UniqueQuotient(q: int, r: int, q': int, r': int, d: int)
    requires q * d + r == q' * d + r' && 0 <= r < d && 0 <= r' < d
    ensures q == q' && r == r'
  {
    if q > q' {
      MulGap(q', q, d);
    } else if q < q' {
      MulGap(q, q', d);
    }
  }

  /** Every two neighbours are one step apart. */
  ghost predicate Path<T(!new)>(path: seq<T>, step: (T, T) -> bool) {
    path != [] && forall i, j :: 0 <= i < |path| - 1 && j == i + 1 ==> step(path[i], path[j])
  }

  /** A chain of n steps between these two. */
  ghost predicate Leads<T(!new)>(path: seq<T>, step: (T, T) -> bool, first: T, n: nat, last: T) {
    Path(path, step) && |path| == n + 1 && path[0] == first && path[n] == last
  }

  lemma LeadsNowhere<T(!new)>(step: (T, T) -> bool, first: T)
    ensures Leads([first], step, first, 0, first)
  {
  }

  lemma LeadsOneMore<T(!new)>(first: T, path: seq<T>, step: (T, T) -> bool, second: T, n: nat, last: T)
    requires step(first, second) && Leads(path, step, second, n, last)
    ensures Leads([first] + path, step, first, n + 1, last)
  {
  }

  lemma LeadsFurther<T(!new)>(p: seq<T>, q: seq<T>, step: (T, T) -> bool, first: T, m: nat, middle: T, n: nat, last: T)
    requires Leads(p, step, first, m, middle) && Leads(q, step, middle, n, last)
    ensures Leads(p + q[1..], step, first, m + n, last)
  {
    var more := p + q[1..];
    forall i, j | 0 <= i < |more| - 1 && j == i + 1
      ensures step(more[i], more[j])
    {
      if i < m {
        assert more[i] == p[i] && more[j] == p[j];
      } else {
        assert more[i] == q[i - m] && more[j] == q[j - m];
      }
    }
  }
}
