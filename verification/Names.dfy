/** Instance names in the order that sorting uses: by character, a prefix first. */
module Names {
  import opened Prelude

  /** The role an instance is launched for. */
  datatype InstanceType = NoConstraints | Prefill | Decode

  datatype InstanceId = InstanceId(name: string)

  predicate Less(a: string, b: string) {
    if b == "" then false
    else if a == "" then true
    else a[0] < b[0] || (a[0] == b[0] && Less(a[1..], b[1..]))
  }

  lemma {:induction false} LessIrreflexive(a: string)
    ensures !Less(a, a)
  {
    if a == "" {
    } else {
      LessIrreflexive(a[1..]);
    }
  }

  lemma {:induction false} LessTotal(a: string, b: string)
    ensures Less(a, b) || a == b || Less(b, a)
  {
    if a == "" || b == "" {
    } else {
      LessTotal(a[1..], b[1..]);
      assert a == [a[0]] + a[1..] && b == [b[0]] + b[1..];
    }
  }

  lemma {:induction false} LessTransitive(a: string, b: string, c: string)
    requires Less(a, b) && Less(b, c)
    ensures Less(a, c)
  {
    if a == "" {
    } else if a[0] == b[0] == c[0] {
      LessTransitive(a[1..], b[1..], c[1..]);
    }
  }

  /** The order in plain terms: a proper prefix first, otherwise by the first character that differs. */
  lemma {:induction false} LessMeaning(p: string, x: char, s: string, y: char, t: string)
    ensures Less(p, p + [x] + s) && !Less(p + [x] + s, p)
    ensures x < y ==> Less(p + [x] + s, p + [y] + t)
  {
    if p == "" {
      assert ("" + [x] + s)[0] == x && ("" + [y] + t)[0] == y;
    } else {
      LessMeaning(p[1..], x, s, y, t);
      assert (p + [x] + s)[1..] == p[1..] + [x] + s && (p + [y] + t)[1..] == p[1..] + [y] + t;
    }
  }

  predicate Before(a: InstanceId, b: InstanceId) {
    Less(a.name, b.name)
  }

  ghost predicate InOrder(ids: seq<InstanceId>) {
    forall i, j :: 0 <= i < j < |ids| ==> Before(ids[i], ids[j])
  }

  /** The elements of the set, in order. */
  ghost predicate Sorts(ids: seq<InstanceId>, s: set<InstanceId>) {
    InOrder(ids) && forall id :: id in s <==> id in ids
  }

  lemma InOrderDistinct(ids: seq<InstanceId>)
    requires InOrder(ids)
    ensures Distinct(ids)
  {
    forall i, j | 0 <= i < j < |ids|
      ensures ids[i] != ids[j]
    {
      LessIrreflexive(ids[i].name);
    }
  }

  method Insert(ids: seq<InstanceId>, id: InstanceId) returns (r: seq<InstanceId>)
    requires InOrder(ids) && id !in ids
    ensures InOrder(r) && |r| == |ids| + 1
    ensures forall x :: x in r <==> x == id || x in ids
  {
    var k := 0;
    while k < |ids| && Before(ids[k], id)
      invariant 0 <= k <= |ids|
      invariant forall i :: 0 <= i < k ==> Before(ids[i], id)
    {
      k := k + 1;
    }
    forall i | k <= i < |ids|
      ensures Before(id, ids[i])
    {
      LessTotal(id.name, ids[k].name);
      if i > k {
        LessTransitive(id.name, ids[k].name, ids[i].name);
      }
    }
    r := ids[..k] + [id] + ids[k..];
    InsertedAt(ids, id, k);
  }

  lemma InsertedAt(ids: seq<InstanceId>, id: InstanceId, k: nat)
    requires InOrder(ids) && k <= |ids|
    requires forall i :: 0 <= i < k ==> Before(ids[i], id)
    requires forall i :: k <= i < |ids| ==> Before(id, ids[i])
    ensures var r := ids[..k] + [id] + ids[k..];
            InOrder(r) && forall x :: x in r <==> x == id || x in ids
  {
    var r := ids[..k] + [id] + ids[k..];
    forall i, j | 0 <= i < j < |r|
      ensures Before(r[i], r[j])
    {
      if j < k {
        assert r[i] == ids[i] && r[j] == ids[j];
      } else if j == k {
        assert r[i] == ids[i];
      } else if i < k {
        assert r[i] == ids[i] && r[j] == ids[j - 1];
      } else if i == k {
        assert r[j] == ids[j - 1];
      } else {
        assert r[i] == ids[i - 1] && r[j] == ids[j - 1];
      }
    }
    InsertedMembers(ids, id, k);
  }

  lemma InsertedMembers(ids: seq<InstanceId>, id: InstanceId, k: nat)
    requires k <= |ids|
    ensures forall x :: x in ids[..k] + [id] + ids[k..] <==> x == id || x in ids
  {
    assert ids == ids[..k] + ids[k..];
  }

  /** Python's `sorted` on a set of names. */
  method Sorted(s: set<InstanceId>) returns (ids: seq<InstanceId>)
    ensures Sorts(ids, s) && |ids| == |s|
  {
    ids := [];
    var rest := s;
    while rest != {}
      invariant InOrder(ids) && |ids| + |rest| == |s|
      invariant forall id :: id in s <==> id in ids || id in rest
      invariant forall id :: id in rest ==> id !in ids
      decreases |rest|
    {
      var id :| id in rest;
      rest := rest - {id};
      ids := Insert(ids, id);
    }
  }

  lemma {:induction false} SortsUnique(a: seq<InstanceId>, b: seq<InstanceId>)
    requires InOrder(a) && InOrder(b) && forall id :: id in a <==> id in b
    ensures a == b
  {
    EmptyTogether(a, b);
    if a == [] {
    } else {
      assert a[0] in b && a[0] in a;
      assert b[0] in a;
      SameFirst(a, b);
      forall id
        ensures id in a[1..] <==> id in b[1..]
      {
        RestWithoutFirst(a, id);
        RestWithoutFirst(b, id);
      }
      SortsUnique(a[1..], b[1..]);
      assert a == [a[0]] + a[1..] && b == [b[0]] + b[1..];
    }
  }

  lemma EmptyTogether(a: seq<InstanceId>, b: seq<InstanceId>)
    requires forall id :: id in a <==> id in b
    ensures a == [] <==> b == []
  {
    assert a != [] ==> a[0] in a;
    assert b != [] ==> b[0] in b;
  }

  lemma RestWithoutFirst(a: seq<InstanceId>, id: InstanceId)
    requires InOrder(a) && a != []
    ensures id in a[1..] <==> id in a && id != a[0]
  {
    InOrderDistinct(a);
    assert a == [a[0]] + a[1..];
  }

  lemma SameFirst(a: seq<InstanceId>, b: seq<InstanceId>)
    requires InOrder(a) && InOrder(b) && a != [] && b != [] && a[0] in b && b[0] in a
    ensures a[0] == b[0]
  {
    var i :| 0 <= i < |b| && b[i] == a[0];
    var j :| 0 <= j < |a| && a[j] == b[0];
    if i > 0 && j > 0 {
      LessTransitive(a[0].name, b[0].name, a[0].name);
      LessIrreflexive(a[0].name);
    }
  }
}
