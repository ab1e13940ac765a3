/** Redis sorted sets: a map from member to score, read in (score, member) order.

    Members of equal score are ordered by their bytes, which is what makes
    ZPOPMIN and ZRANGEBYSCORE deterministic. */
module ZSets {
  type Id = string
  type ZSet = map<Id, int>

  /** Lexicographic order on member names. */
  predicate LexLe(a: Id, b: Id) {
    a == [] || (b != [] && (a[0] < b[0] || (a[0] == b[0] && LexLe(a[1..], b[1..]))))
  }

  lemma {:induction false} LexTotal(a: Id, b: Id)
    ensures LexLe(a, b) || LexLe(b, a)
  {
    if a != [] && b != [] && a[0] == b[0] {
      LexTotal(a[1..], b[1..]);
    }
  }

  lemma {:induction false} LexAntisymmetric(a: Id, b: Id)
    requires LexLe(a, b) && LexLe(b, a)
    ensures a == b
  {
    if a != [] {
      LexAntisymmetric(a[1..], b[1..]);
      assert a == [a[0]] + a[1..] && b == [b[0]] + b[1..];
    }
  }

  lemma {:induction false} LexTransitive(a: Id, b: Id, c: Id)
    requires LexLe(a, b) && LexLe(b, c)
    ensures LexLe(a, c)
  {
    if a != [] && a[0] == b[0] == c[0] {
      LexTransitive(a[1..], b[1..], c[1..]);
    }
  }

  /** Member a comes no later than member b in the sorted set. */
  predicate NoLater(z: ZSet, a: Id, b: Id)
    requires a in z && b in z
  {
    z[a] < z[b] || (z[a] == z[b] && LexLe(a, b))
  }

  predicate IsFirst(z: ZSet, m: Id) {
    m in z && forall x | x in z :: NoLater(z, m, x)
  }

  lemma {:induction false} FirstExists(z: ZSet)
    requires z != map[]
    ensures exists m :: IsFirst(z, m)
    decreases |z|
  {
    var k :| k in z;
    var rest := z - {k};
    LexTotal(k, k);
    if rest == map[] {
      assert z.Keys == {k} by { assert forall x | x in z :: x == k || x in rest; }
      assert IsFirst(z, k);
    } else {
      FirstExists(rest);
      var m :| IsFirst(rest, m);
      LexTotal(k, m);
      forall x | x in z && x != k ensures NoLater(z, if NoLater(z, k, m) then k else m, x) {
        assert x in rest && NoLater(rest, m, x);
        if NoLater(z, k, m) && z[k] == z[m] == z[x] { LexTransitive(k, m, x); }
      }
      assert IsFirst(z, if NoLater(z, k, m) then k else m);
    }
  }

  lemma FirstUnique(z: ZSet, a: Id, b: Id)
    requires IsFirst(z, a) && IsFirst(z, b)
    ensures a == b
  {
    assert NoLater(z, a, b) && NoLater(z, b, a);
    LexAntisymmetric(a, b);
  }

  /** The member ZPOPMIN would pop. */
  function First(z: ZSet): (m: Id)
    requires z != map[]
    ensures IsFirst(z, m)
  {
    FirstExists(z);
    assert forall a, b | IsFirst(z, a) && IsFirst(z, b) :: a == b by {
      forall a, b | IsFirst(z, a) && IsFirst(z, b) ensures a == b { FirstUnique(z, a, b); }
    }
    var m :| m in z && IsFirst(z, m);
    m
  }

  /** The members scored at most hi. */
  function UpTo(z: ZSet, hi: int): set<Id> {
    set x | x in z && z[x] <= hi
  }

  ghost predicate Distinct<T>(xs: seq<T>) {
    forall i, j | 0 <= i < j < |xs| :: xs[i] != xs[j]
  }

  function Members(ids: seq<Id>): set<Id> {
    set x | x in ids
  }

  /** ZRANGEBYSCORE -inf hi LIMIT 0 limit; a negative limit means no limit. */
  function RangeByScore(z: ZSet, hi: int, limit: int): (ids: seq<Id>)
    ensures Distinct(ids)
    ensures forall x | x in ids :: x in UpTo(z, hi)
    ensures |ids| == if 0 <= limit < |UpTo(z, hi)| then limit else |UpTo(z, hi)|
    decreases |z|
  {
    if limit == 0 || z == map[] then
      assert z == map[] ==> UpTo(z, hi) == {};
      []
    else
      var m := First(z);
      if z[m] > hi then
        assert UpTo(z, hi) == {} by { assert forall x | x in z :: NoLater(z, m, x); }
        []
      else
        assert UpTo(z, hi) == UpTo(z - {m}, hi) + {m};
        assert |z - {m}| < |z| by { assert z.Keys == (z - {m}).Keys + {m}; }
        var rest := RangeByScore(z - {m}, hi, limit - 1);
        assert m !in rest;
        [m] + rest
  }

  /** No id comes before one that sorts ahead of it. */
  predicate InOrder(z: ZSet, ids: seq<Id>) {
    && (forall x | x in ids :: x in z)
    && forall i, j | 0 <= i < j < |ids| :: NoLater(z, ids[i], ids[j])
  }

  lemma InOrderCons(z: ZSet, m: Id, rest: seq<Id>)
    requires IsFirst(z, m) && InOrder(z - {m}, rest)
    ensures InOrder(z, [m] + rest)
  {
    var ids := [m] + rest;
    forall x | x in ids ensures x in z { assert x == m || x in rest; }
    forall i, j | 0 <= i < j < |ids| ensures NoLater(z, ids[i], ids[j]) {
      assert ids[i] in ids && ids[j] in ids;
      if i == 0 {
        assert ids[j] in rest;
      } else {
        assert NoLater(z - {m}, rest[i - 1], rest[j - 1]);
      }
    }
  }

  /** The range is in order, and what a limit leaves out comes after all that it keeps. */
  lemma {:induction false} RangeIsLowest(z: ZSet, hi: int, limit: int)
    ensures var ids := RangeByScore(z, hi, limit);
            && InOrder(z, ids)
            && forall x, y | x in ids && y in UpTo(z, hi) && y !in ids :: NoLater(z, x, y)
    decreases |z|
  {
    if limit != 0 && z != map[] && z[First(z)] <= hi {
      var m := First(z);
      assert z.Keys == (z - {m}).Keys + {m};
      RangeIsLowest(z - {m}, hi, limit - 1);
      var rest := RangeByScore(z - {m}, hi, limit - 1);
      InOrderCons(z, m, rest);
      RangeRest(z, hi, m, rest);
    }
  }

  lemma RangeRest(z: ZSet, hi: int, m: Id, rest: seq<Id>)
    requires IsFirst(z, m)
    requires forall x | x in rest :: x in z - {m}
    requires forall x, y | x in rest && y in UpTo(z - {m}, hi) && y !in rest :: NoLater(z - {m}, x, y)
    ensures forall x, y | x in [m] + rest && y in UpTo(z, hi) && y !in [m] + rest :: NoLater(z, x, y)
  {
    forall x, y | x in [m] + rest && y in UpTo(z, hi) && y !in [m] + rest ensures NoLater(z, x, y) {
      if x != m {
        assert y in UpTo(z - {m}, hi) && y !in rest;
        assert NoLater(z - {m}, x, y);
      }
    }
  }

  lemma {:induction false} DistinctCardinality(ids: seq<Id>)
    requires Distinct(ids)
    ensures |Members(ids)| == |ids|
  {
    if ids != [] {
      DistinctCardinality(ids[1..]);
      assert ids[0] !in ids[1..];
      assert Members(ids) == Members(ids[1..]) + {ids[0]};
    }
  }

  lemma MembersConcat(a: seq<Id>, b: seq<Id>)
    ensures Members(a + b) == Members(a) + Members(b)
  {}

  lemma DistinctConcat(a: seq<Id>, b: seq<Id>)
    requires Distinct(a) && Distinct(b) && Members(a) !! Members(b)
    ensures Distinct(a + b)
  {
    forall i, j | 0 <= i < j < |a + b| ensures (a + b)[i] != (a + b)[j] {
      if j < |a| {
        assert a[i] != a[j];
      } else if i < |a| {
        assert a[i] in Members(a) && b[j - |a|] in Members(b);
      } else {
        assert b[i - |a|] != b[j - |a|];
      }
    }
  }

  lemma SubsetSameSize<T>(a: set<T>, b: set<T>)
    requires a <= b && |a| == |b|
    ensures a == b
  {
    assert b == a + (b - a);
    assert |b| == |a| + |b - a|;
  }
}
