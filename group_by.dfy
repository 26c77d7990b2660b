/**
 * pandas `groupby(key).agg(count, sum)` followed by `sort_values(..., ascending=False)`,
 * over a key column `ks` and a value column `vs` of the same length.  The reconciliation
 * stage groups three times: for the monthly totals per (contract, customer, month), for
 * the CFO summary per variance type and for the leakage per customer; it sorts the last two.
 */
module GroupBy {
  import opened Wrappers

  /** One output row of a group-by: the key, how many input rows carry it, and their summed value. */
  datatype Group<K> = Group(key: K, count: nat, total: real)

  /** Number of rows of the key column equal to `k`. */
  function CountOf<K(==)>(ks: seq<K>, k: K): nat
  {
    if |ks| == 0 then 0
    else CountOf(ks[..|ks| - 1], k) + (if ks[|ks| - 1] == k then 1 else 0)
  }

  /** Sum of the values on the rows whose key is `k`. */
  function SumOf<K(==)>(ks: seq<K>, vs: seq<real>, k: K): real
    requires |ks| == |vs|
  {
    if |ks| == 0 then 0.0
    else SumOf(ks[..|ks| - 1], vs[..|vs| - 1], k) + (if ks[|ks| - 1] == k then vs[|vs| - 1] else 0.0)
  }

  /** Sum of a whole value column. */
  function Sum(vs: seq<real>): real
  {
    if |vs| == 0 then 0.0 else Sum(vs[..|vs| - 1]) + vs[|vs| - 1]
  }

  function Keys<K>(gs: seq<Group<K>>): seq<K>
  {
    seq(|gs|, i requires 0 <= i < |gs| => gs[i].key)
  }

  function TotalCount<K>(gs: seq<Group<K>>): nat
  {
    if |gs| == 0 then 0 else TotalCount(gs[..|gs| - 1]) + gs[|gs| - 1].count
  }

  function TotalSum<K>(gs: seq<Group<K>>): real
  {
    if |gs| == 0 then 0.0 else TotalSum(gs[..|gs| - 1]) + gs[|gs| - 1].total
  }

  predicate DistinctKeys<K(==)>(gs: seq<Group<K>>)
  {
    forall i, j :: 0 <= i < j < |gs| ==> gs[i].key != gs[j].key
  }

  /** `gs` is the group-by of (ks, vs): one group per distinct key, holding its row count and value sum. */
  ghost predicate Summarizes<K(!new)>(gs: seq<Group<K>>, ks: seq<K>, vs: seq<real>)
    requires |ks| == |vs|
  {
    && DistinctKeys(gs)
    && (forall k :: k in ks <==> k in Keys(gs))
    && (forall g :: g in gs ==> g.count == CountOf(ks, g.key) && g.total == SumOf(ks, vs, g.key))
  }

  /** Index of the first group with key `k`, or |gs| when no group has it. */
  function Position<K(==)>(gs: seq<Group<K>>, k: K): (j: nat)
    ensures j <= |gs|
    ensures j < |gs| ==> gs[j].key == k
    ensures j == |gs| <==> k !in Keys(gs)
  {
    if |gs| == 0 then 0
    else if gs[0].key == k then
      assert Keys(gs)[0] == k;
      0
    else
      assert Keys(gs) == [gs[0].key] + Keys(gs[1..]);
      1 + Position(gs[1..], k)
  }

  /** The group with key `k`, if any (one side of a keyed merge). */
  function Find<K(==)>(gs: seq<Group<K>>, k: K): (r: Option<Group<K>>)
    ensures r.Some? <==> k in Keys(gs)
    ensures r.Some? ==> r.value in gs && r.value.key == k
  {
    var j := Position(gs, k);
    if j < |gs| then Some(gs[j]) else None
  }

  /** The summed value for `k`, with a missing key read as 0.0: a left merge followed by `fillna(0.0)`. */
  function TotalOrZero<K(==)>(gs: seq<Group<K>>, k: K): real
  {
    match Find(gs, k)
    case Some(g) => g.total
    case None => 0.0
  }

  lemma {:induction false} CountOfAbsent<K>(ks: seq<K>, k: K)
    requires k !in ks
    ensures CountOf(ks, k) == 0
  {
    if |ks| > 0 {
      CountOfAbsent(ks[..|ks| - 1], k);
    }
  }

  lemma {:induction false} SumOfAbsent<K>(ks: seq<K>, vs: seq<real>, k: K)
    requires |ks| == |vs| && k !in ks
    ensures SumOf(ks, vs, k) == 0.0
  {
    if |ks| > 0 {
      SumOfAbsent(ks[..|ks| - 1], vs[..|vs| - 1], k);
    }
  }

  /** Zero-fill is sound: the filled value always equals the sum over the source rows, present key or not. */
  lemma TotalOrZeroIsSum<K(!new)>(gs: seq<Group<K>>, ks: seq<K>, vs: seq<real>, k: K)
    requires |ks| == |vs| && Summarizes(gs, ks, vs)
    ensures TotalOrZero(gs, k) == SumOf(ks, vs, k)
    ensures k !in ks ==> TotalOrZero(gs, k) == 0.0
  {
    if k !in ks {
      SumOfAbsent(ks, vs, k);
    }
  }

  lemma {:induction false} TotalsUpdate<K>(gs: seq<Group<K>>, j: nat, g: Group<K>)
    requires j < |gs|
    ensures TotalCount(gs[j := g]) == TotalCount(gs) - gs[j].count + g.count
    ensures TotalSum(gs[j := g]) == TotalSum(gs) - gs[j].total + g.total
  {
    var n := |gs| - 1;
    if j == n {
      assert gs[j := g][..n] == gs[..n];
    } else {
      assert gs[j := g][..n] == gs[..n][j := g];
      TotalsUpdate(gs[..n], j, g);
    }
  }

  lemma TotalsAppend<K>(gs: seq<Group<K>>, g: Group<K>)
    ensures TotalCount(gs + [g]) == TotalCount(gs) + g.count
    ensures TotalSum(gs + [g]) == TotalSum(gs) + g.total
  {
    assert (gs + [g])[..|gs|] == gs;
  }

  lemma {:induction false} TotalsCons<K>(g: Group<K>, gs: seq<Group<K>>)
    ensures TotalCount([g] + gs) == g.count + TotalCount(gs)
    ensures TotalSum([g] + gs) == g.total + TotalSum(gs)
  {
    if |gs| > 0 {
      var n := |gs| - 1;
      assert ([g] + gs)[..n + 1] == [g] + gs[..n];
      TotalsCons(g, gs[..n]);
    }
  }

  /** Adding a row whose key already has a group bumps that group and keeps the group-by exact. */
  lemma AddToGroup<K(!new)>(gs: seq<Group<K>>, ks: seq<K>, vs: seq<real>, j: nat, v: real)
    requires |ks| == |vs| && Summarizes(gs, ks, vs) && j < |gs|
    ensures var g := Group(gs[j].key, gs[j].count + 1, gs[j].total + v);
      Summarizes(gs[j := g], ks + [gs[j].key], vs + [v])
  {
    var k := gs[j].key;
    var g := Group(k, gs[j].count + 1, gs[j].total + v);
    var ks', vs' := ks + [k], vs + [v];
    assert ks'[..|ks|] == ks && vs'[..|vs|] == vs;
    var gs' := gs[j := g];
    assert Keys(gs') == Keys(gs);
    assert k in Keys(gs) by { assert Keys(gs)[j] == k; }
    forall h | h in gs'
      ensures h.count == CountOf(ks', h.key) && h.total == SumOf(ks', vs', h.key)
    {
      var m :| 0 <= m < |gs'| && gs'[m] == h;
      if m != j {
        assert gs[m] == h && h.key != k;
      }
    }
  }

  /** Adding a row with an unseen key opens a group of one row and keeps the group-by exact. */
  lemma OpenGroup<K(!new)>(gs: seq<Group<K>>, ks: seq<K>, vs: seq<real>, k: K, v: real)
    requires |ks| == |vs| && Summarizes(gs, ks, vs) && k !in Keys(gs)
    ensures Summarizes(gs + [Group(k, 1, v)], ks + [k], vs + [v])
  {
    var g := Group(k, 1, v);
    var ks', vs' := ks + [k], vs + [v];
    assert ks'[..|ks|] == ks && vs'[..|vs|] == vs;
    CountOfAbsent(ks, k);
    SumOfAbsent(ks, vs, k);
    assert Keys(gs + [g]) == Keys(gs) + [k];
    forall m | 0 <= m < |gs|
      ensures gs[m].key != k
    {
      assert Keys(gs)[m] == gs[m].key;
    }
  }

  lemma SumAppend(vs: seq<real>, v: real)
    ensures Sum(vs + [v]) == Sum(vs) + v
  {
    assert (vs + [v])[..|vs|] == vs;
  }

  /**
   * The group-by itself: one pass over the rows, adding each row to the group of its key
   * or opening a new group.  Every distinct key gets exactly one group, holding the number
   * of rows with that key and the sum of their values; the counts add up to the row count
   * and the group sums to the column sum.
   */
  method Aggregate<K(==,!new)>(ks: seq<K>, vs: seq<real>) returns (gs: seq<Group<K>>)
    requires |ks| == |vs|
    ensures Summarizes(gs, ks, vs)
    ensures TotalCount(gs) == |ks| && TotalSum(gs) == Sum(vs)
  {
    gs := [];
    for i := 0 to |ks|
      invariant Summarizes(gs, ks[..i], vs[..i])
      invariant TotalCount(gs) == i && TotalSum(gs) == Sum(vs[..i])
    {
      var k, v := ks[i], vs[i];
      assert ks[..i + 1] == ks[..i] + [k] && vs[..i + 1] == vs[..i] + [v];
      SumAppend(vs[..i], v);
      var j := Position(gs, k);
      if j < |gs| {
        var g := Group(k, gs[j].count + 1, gs[j].total + v);
        TotalsUpdate(gs, j, g);
        AddToGroup(gs, ks[..i], vs[..i], j, v);
        gs := gs[j := g];
      } else {
        var g := Group(k, 1, v);
        TotalsAppend(gs, g);
        OpenGroup(gs, ks[..i], vs[..i], k, v);
        gs := gs + [g];
      }
    }
    assert ks[..|ks|] == ks && vs[..|vs|] == vs;
  }

  /** Non-increasing by total, as after `sort_values(total, ascending=False)`. */
  predicate SortedDesc<K>(gs: seq<Group<K>>)
  {
    forall i, j :: 0 <= i < j < |gs| ==> gs[i].total >= gs[j].total
  }

  /** Insert `g` in front of the first group whose total it reaches. */
  function InsertDesc<K>(g: Group<K>, s: seq<Group<K>>): (r: seq<Group<K>>)
    ensures multiset(r) == multiset(s) + multiset{g}
  {
    if |s| == 0 || g.total >= s[0].total then [g] + s
    else
      assert s == [s[0]] + s[1..];
      [s[0]] + InsertDesc(g, s[1..])
  }

  lemma {:induction false} InsertDescSorted<K>(g: Group<K>, s: seq<Group<K>>)
    requires SortedDesc(s)
    ensures SortedDesc(InsertDesc(g, s))
  {
    if |s| > 0 && g.total < s[0].total {
      var tail := InsertDesc(g, s[1..]);
      InsertDescSorted(g, s[1..]);
      forall x | x in tail
        ensures x.total <= s[0].total
      {
        assert x in multiset(tail);
        if x != g {
          assert x in s[1..];
        }
      }
    }
  }

  lemma {:induction false} InsertDescTotals<K>(g: Group<K>, s: seq<Group<K>>)
    ensures TotalCount(InsertDesc(g, s)) == TotalCount(s) + g.count
    ensures TotalSum(InsertDesc(g, s)) == TotalSum(s) + g.total
  {
    if |s| == 0 || g.total >= s[0].total {
      TotalsCons(g, s);
    } else {
      InsertDescTotals(g, s[1..]);
      TotalsCons(s[0], InsertDesc(g, s[1..]));
      TotalsCons(s[0], s[1..]);
      assert s == [s[0]] + s[1..];
    }
  }

  lemma DistinctCons<K>(x: Group<K>, t: seq<Group<K>>)
    requires DistinctKeys(t)
    requires forall y :: y in t ==> y.key != x.key
    ensures DistinctKeys([x] + t)
  {
    forall i, j | 0 <= i < j < |[x] + t|
      ensures ([x] + t)[i].key != ([x] + t)[j].key
    {
      if i == 0 {
        assert ([x] + t)[j] == t[j - 1];
      } else {
        assert ([x] + t)[i] == t[i - 1] && ([x] + t)[j] == t[j - 1];
      }
    }
  }

  lemma {:induction false} InsertDescDistinct<K>(g: Group<K>, s: seq<Group<K>>)
    requires DistinctKeys(s)
    requires forall x :: x in s ==> x.key != g.key
    ensures DistinctKeys(InsertDesc(g, s))
  {
    if |s| == 0 || g.total >= s[0].total {
      DistinctCons(g, s);
    } else {
      var rest := s[1..];
      assert forall x :: x in rest ==> x in s;
      InsertDescDistinct(g, rest);
      var tail := InsertDesc(g, rest);
      forall x | x in tail
        ensures x.key != s[0].key
      {
        assert x in multiset(tail);
        if x != g {
          assert x in multiset(rest);
          var m :| 0 <= m < |rest| && rest[m] == x;
          assert s[m + 1] == x;
        }
      }
      DistinctCons(s[0], tail);
    }
  }

  lemma SortStepDistinct<K>(gs: seq<Group<K>>, i: nat, sorted: seq<Group<K>>)
    requires DistinctKeys(gs) && i < |gs|
    requires DistinctKeys(sorted) && multiset(sorted) == multiset(gs[..i])
    ensures DistinctKeys(InsertDesc(gs[i], sorted))
  {
    forall x | x in sorted
      ensures x.key != gs[i].key
    {
      assert x in multiset(gs[..i]);
      var m :| 0 <= m < i && gs[..i][m] == x;
      assert gs[m] == x;
    }
    InsertDescDistinct(gs[i], sorted);
  }

  /** One insertion step of the sort keeps every loop fact, one more input group in. */
  lemma SortStep<K>(gs: seq<Group<K>>, i: nat, sorted: seq<Group<K>>)
    requires i < |gs| && SortedDesc(sorted) && multiset(sorted) == multiset(gs[..i])
    requires DistinctKeys(gs) ==> DistinctKeys(sorted)
    requires TotalCount(sorted) == TotalCount(gs[..i]) && TotalSum(sorted) == TotalSum(gs[..i])
    ensures var next := InsertDesc(gs[i], sorted);
      && SortedDesc(next) && multiset(next) == multiset(gs[..i + 1])
      && (DistinctKeys(gs) ==> DistinctKeys(next))
      && TotalCount(next) == TotalCount(gs[..i + 1]) && TotalSum(next) == TotalSum(gs[..i + 1])
  {
    assert gs[..i + 1] == gs[..i] + [gs[i]];
    InsertDescSorted(gs[i], sorted);
    InsertDescTotals(gs[i], sorted);
    TotalsAppend(gs[..i], gs[i]);
    if DistinctKeys(gs) {
      SortStepDistinct(gs, i, sorted);
    }
  }

  /** `sort_values(total, ascending=False)`: the same groups, non-increasing by total. */
  method SortDesc<K(==)>(gs: seq<Group<K>>) returns (sorted: seq<Group<K>>)
    ensures SortedDesc(sorted)
    ensures multiset(sorted) == multiset(gs)
    ensures DistinctKeys(gs) ==> DistinctKeys(sorted)
    ensures TotalCount(sorted) == TotalCount(gs) && TotalSum(sorted) == TotalSum(gs)
  {
    sorted := [];
    for i := 0 to |gs|
      invariant SortedDesc(sorted)
      invariant multiset(sorted) == multiset(gs[..i])
      invariant DistinctKeys(gs) ==> DistinctKeys(sorted)
      invariant TotalCount(sorted) == TotalCount(gs[..i]) && TotalSum(sorted) == TotalSum(gs[..i])
    {
      SortStep(gs, i, sorted);
      sorted := InsertDesc(gs[i], sorted);
    }
    assert gs[..|gs|] == gs;
  }

  /** A permutation of a group-by result with distinct keys is still that group-by result. */
  lemma SummarizesPermutation<K(!new)>(a: seq<Group<K>>, b: seq<Group<K>>, ks: seq<K>, vs: seq<real>)
    requires |ks| == |vs| && Summarizes(a, ks, vs)
    requires multiset(a) == multiset(b) && DistinctKeys(b)
    ensures Summarizes(b, ks, vs)
  {
    forall k | k in Keys(a)
      ensures k in Keys(b)
    {
      var m :| 0 <= m < |a| && a[m].key == k;
      assert a[m] in multiset(b);
      var p :| 0 <= p < |b| && b[p] == a[m];
      assert Keys(b)[p] == k;
    }
    forall k | k in Keys(b)
      ensures k in Keys(a)
    {
      var p :| 0 <= p < |b| && b[p].key == k;
      assert b[p] in multiset(a);
      var m :| 0 <= m < |a| && a[m] == b[p];
      assert Keys(a)[m] == k;
    }
    forall g | g in b
      ensures g in a
    {
      assert g in multiset(a);
    }
  }

  /**
   * After a descending sort, `head(n)` holds the largest totals: a group left out of the
   * first n is never above a group kept.
   */
  lemma PrefixDominates<K>(s: seq<Group<K>>, n: nat, left: Group<K>, kept: Group<K>)
    requires SortedDesc(s) && n <= |s|
    requires left in s && left !in s[..n] && kept in s[..n]
    ensures left.total <= kept.total
  {
    var m :| 0 <= m < |s| && s[m] == left;
    var p :| 0 <= p < n && s[..n][p] == kept;
  }
}
