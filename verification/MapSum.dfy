/** Sums over the values of a finite map. */
module MapSum {

  ghost function SumOf<K>(m: map<K, int>): int
    decreases |m|
  {
    if m == map[] then 0
    else
      var k :| k in m;
      assert |m - {k}| < |m| by {
        assert (m - {k}).Keys == m.Keys - {k};
      }
      m[k] + SumOf(m - {k})
  }

  /** The sum may be taken starting from any key. */
  lemma {:induction false} SumFrom<K>(m: map<K, int>, k: K)
    requires k in m
    ensures SumOf(m) == m[k] + SumOf(m - {k})
    decreases |m|
  {
    var j :| j in m && SumOf(m) == m[j] + SumOf(m - {j});
    if j != k {
      assert (m - {j}).Keys == m.Keys - {j} && (m - {k}).Keys == m.Keys - {k};
      SumFrom(m - {j}, k);
      SumFrom(m - {k}, j);
      assert m - {j} - {k} == m - {k} - {j};
    }
  }

  lemma SumPut<K>(m: map<K, int>, k: K, v: int)
    ensures SumOf(m[k := v]) == SumOf(m) + v - (if k in m then m[k] else 0)
  {
    var n := m[k := v];
    SumFrom(n, k);
    if k in m {
      SumFrom(m, k);
      assert n - {k} == m - {k};
    } else {
      assert n - {k} == m;
    }
  }

  lemma {:induction false} SumAdd<K>(a: map<K, int>, b: map<K, int>, c: map<K, int>)
    requires a.Keys == b.Keys == c.Keys
    requires forall k :: k in c ==> c[k] == a[k] + b[k]
    ensures SumOf(c) == SumOf(a) + SumOf(b)
    decreases |c|
  {
    if c != map[] {
      var k :| k in c;
      SumFrom(a, k);
      SumFrom(b, k);
      SumFrom(c, k);
      assert (c - {k}).Keys == c.Keys - {k} == (a - {k}).Keys == (b - {k}).Keys;
      SumAdd(a - {k}, b - {k}, c - {k});
    } else {
      assert a == map[] && b == map[];
    }
  }

  function Times(x: int, y: int): int {
    x * y
  }

  lemma TimesAdd(x: int, y: int, z: int)
    ensures Times(x, y + z) == Times(x, y) + Times(x, z)
  {}

  ghost predicate TimesEach<K(!new)>(a: map<K, int>, x: int, c: map<K, int>) {
    a.Keys == c.Keys && forall k :: k in c ==> c[k] == Times(x, a[k])
  }

  lemma TimesEachWithout<K(!new)>(a: map<K, int>, x: int, c: map<K, int>, k: K)
    requires TimesEach(a, x, c) && k in c
    ensures k in a && c[k] == Times(x, a[k]) && TimesEach(a - {k}, x, c - {k})
  {
    hide Times;
  }

  lemma {:induction false} SumTimes<K(!new)>(a: map<K, int>, x: int, c: map<K, int>)
    requires TimesEach(a, x, c)
    ensures SumOf(c) == Times(x, SumOf(a))
    decreases |c|
  {
    hide Times, TimesEach, SumOf;
    if c != map[] {
      var k :| k in c;
      TimesEachWithout(a, x, c, k);
      SumFrom(a, k);
      SumFrom(c, k);
      assert (c - {k}).Keys == c.Keys - {k};
      SumTimes(a - {k}, x, c - {k});
      TimesAdd(x, a[k], SumOf(a - {k}));
    } else {
      NothingTimes(a, x, c);
    }
  }

  lemma NothingTimes<K(!new)>(a: map<K, int>, x: int, c: map<K, int>)
    requires TimesEach(a, x, c) && c == map[]
    ensures SumOf(c) == Times(x, SumOf(a))
  {
    assert a == map[];
  }

  lemma {:induction false} SumMonotone<K>(a: map<K, int>, b: map<K, int>)
    requires a.Keys == b.Keys
    requires forall k :: k in a ==> a[k] <= b[k]
    ensures SumOf(a) <= SumOf(b)
    decreases |a|
  {
    if a != map[] {
      var k :| k in a;
      SumFrom(a, k);
      SumFrom(b, k);
      assert (a - {k}).Keys == a.Keys - {k} == (b - {k}).Keys;
      SumMonotone(a - {k}, b - {k});
    } else {
      assert b == map[];
    }
  }

  /** A part of a map of nonnegative values sums to no more than the whole; and to exactly the
      whole when what is left out is zero. */
  lemma {:induction false} SumPart<K>(part: map<K, int>, whole: map<K, int>)
    requires part.Keys <= whole.Keys
    requires forall k :: k in part ==> part[k] == whole[k]
    requires forall k :: k in whole ==> 0 <= whole[k]
    ensures 0 <= SumOf(part) <= SumOf(whole)
    ensures (forall k :: k in whole && k !in part ==> whole[k] == 0) ==> SumOf(part) == SumOf(whole)
    decreases |whole|
  {
    if whole != map[] {
      var k :| k in whole;
      SumFrom(whole, k);
      assert (whole - {k}).Keys == whole.Keys - {k};
      assert (part - {k}).Keys == part.Keys - {k};
      SumPart(part - {k}, whole - {k});
      if k in part {
        SumFrom(part, k);
      } else {
        assert part - {k} == part;
      }
    } else {
      assert part == map[];
    }
  }

  lemma SumAtLeastValue<K>(m: map<K, int>, k: K)
    requires k in m
    requires forall j :: j in m ==> 0 <= m[j]
    ensures m[k] <= SumOf(m)
  {
    SumFrom(m, k);
    assert (m - {k}).Keys == m.Keys - {k};
    SumPart(m - {k}, m);
  }

  lemma {:induction false} SumOfZeros<K>(m: map<K, int>)
    requires forall k :: k in m ==> m[k] == 0
    ensures SumOf(m) == 0
    decreases |m|
  {
    if m != map[] {
      var k :| k in m;
      SumFrom(m, k);
      assert (m - {k}).Keys == m.Keys - {k};
      SumOfZeros(m - {k});
    }
  }

  /** Two disjoint parts that make up a map sum to the whole. */
  lemma {:induction false} SumSplit<K>(a: map<K, int>, b: map<K, int>, whole: map<K, int>)
    requires forall k :: k in whole <==> k in a || k in b
    requires forall k :: k in a ==> k !in b && whole[k] == a[k]
    requires forall k :: k in b ==> whole[k] == b[k]
    ensures SumOf(whole) == SumOf(a) + SumOf(b)
    decreases |a|
  {
    hide SumOf;
    if a != map[] {
      var k :| k in a;
      SumFrom(a, k);
      SumFrom(whole, k);
      assert (a - {k}).Keys == a.Keys - {k};
      SumSplit(a - {k}, b, whole - {k});
    } else {
      assert whole == b;
      SumOfZeros(a);
    }
  }
}
