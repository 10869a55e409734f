/**
 The two rankings of lib/gpu-data.ts, best value and fastest: the global
 offering list sorted descending by one score with a stable sort (equal scores
 keep catalog order), then cut to its first `limit` entries.
 */
module Ranking {
  import opened Catalog
  import opened Offerings

  /** The score a ranking sorts on. */
  datatype SortKey = ByValue | ByPerformance

  function Key(k: SortKey, o: Offering): real
  {
    match k
    case ByValue => o.valueScore
    case ByPerformance => o.performanceScore
  }

  ghost predicate SortedDesc(k: SortKey, s: seq<Offering>)
  {
    forall i, j :: 0 <= i < j < |s| ==> Key(k, s[j]) <= Key(k, s[i])
  }

  function Min(a: int, b: int): int
  {
    if a < b then a else b
  }

  /** Places `o` in front of the first element whose key does not exceed its own. */
  function Insert(k: SortKey, o: Offering, s: seq<Offering>): (r: seq<Offering>)
    ensures |r| == |s| + 1
    ensures multiset(r) == multiset(s) + multiset{o}
  {
    if |s| == 0 || Key(k, s[0]) <= Key(k, o) then [o] + s
    else
      assert s == [s[0]] + s[1..];
      [s[0]] + Insert(k, o, s[1..])
  }

  lemma {:induction false} InsertSorted(k: SortKey, o: Offering, s: seq<Offering>)
    requires SortedDesc(k, s)
    ensures SortedDesc(k, Insert(k, o, s))
  {
    if |s| > 0 && Key(k, o) < Key(k, s[0]) {
      var tail := Insert(k, o, s[1..]);
      InsertSorted(k, o, s[1..]);
      forall j | 0 <= j < |tail|
        ensures Key(k, tail[j]) <= Key(k, s[0])
      {
        assert tail[j] in multiset(tail);
        assert tail[j] == o || tail[j] in s[1..];
      }
    }
  }

  /** The comparator `b.score - a.score` under a stable sort: descending, ties in input order. */
  function SortDesc(k: SortKey, xs: seq<Offering>): (r: seq<Offering>)
    ensures |r| == |xs|
    ensures SortedDesc(k, r)
    ensures multiset(r) == multiset(xs)
  {
    if |xs| == 0 then []
    else
      assert xs == [xs[0]] + xs[1..];
      var rest := SortDesc(k, xs[1..]);
      InsertSorted(k, xs[0], rest);
      Insert(k, xs[0], rest)
  }

  /** The entries whose key is exactly `v`, in order. */
  function WithKey(k: SortKey, v: real, s: seq<Offering>): seq<Offering>
  {
    if |s| == 0 then []
    else if Key(k, s[0]) == v then [s[0]] + WithKey(k, v, s[1..])
    else WithKey(k, v, s[1..])
  }

  lemma {:induction false} WithKeyConcat(k: SortKey, v: real, a: seq<Offering>, b: seq<Offering>)
    ensures WithKey(k, v, a + b) == WithKey(k, v, a) + WithKey(k, v, b)
  {
    if |a| > 0 {
      assert (a + b)[1..] == a[1..] + b;
      WithKeyConcat(k, v, a[1..], b);
    } else {
      assert a + b == b;
    }
  }

  lemma {:induction false} InsertKeepsTies(k: SortKey, v: real, o: Offering, s: seq<Offering>)
    ensures WithKey(k, v, Insert(k, o, s)) == (if Key(k, o) == v then [o] else []) + WithKey(k, v, s)
  {
    if |s| == 0 || Key(k, s[0]) <= Key(k, o) {
      assert ([o] + s)[1..] == s;
    } else {
      var tail := Insert(k, o, s[1..]);
      assert ([s[0]] + tail)[1..] == tail;
      InsertKeepsTies(k, v, o, s[1..]);
    }
  }

  /** The sort is stable: among entries with equal key, input order is kept. */
  lemma {:induction false} SortKeepsTies(k: SortKey, v: real, xs: seq<Offering>)
    ensures WithKey(k, v, SortDesc(k, xs)) == WithKey(k, v, xs)
  {
    if |xs| > 0 {
      SortKeepsTies(k, v, xs[1..]);
      InsertKeepsTies(k, v, xs[0], SortDesc(k, xs[1..]));
    }
  }

  /** The first `limit` entries of the descending sort. */
  function Top(k: SortKey, xs: seq<Offering>, limit: nat): (r: seq<Offering>)
    ensures |r| == Min(limit, |xs|)
    ensures SortedDesc(k, r)
    ensures multiset(r) <= multiset(xs)
    ensures forall o, i :: o in multiset(xs) - multiset(r) && 0 <= i < |r| ==> Key(k, o) <= Key(k, r[i])
  {
    var s := SortDesc(k, xs);
    var n := Min(limit, |s|);
    TopSplit(k, s, n);
    s[..n]
  }

  /** Cutting a descending sequence at `n`: the dropped part scores no higher than the kept part. */
  lemma TopSplit(k: SortKey, s: seq<Offering>, n: int)
    requires SortedDesc(k, s)
    requires 0 <= n <= |s|
    ensures SortedDesc(k, s[..n])
    ensures multiset(s[..n]) <= multiset(s)
    ensures forall o, i :: o in multiset(s) - multiset(s[..n]) && 0 <= i < n ==> Key(k, o) <= Key(k, s[i])
  {
    assert s == s[..n] + s[n..];
    assert multiset(s) == multiset(s[..n]) + multiset(s[n..]);
    forall o, i | o in multiset(s) - multiset(s[..n]) && 0 <= i < n
      ensures Key(k, o) <= Key(k, s[i])
    {
      assert o in multiset(s[n..]);
      var j :| n <= j < |s| && s[j] == o;
    }
  }

  /** The top entries with a given key are the first ones with that key in input order. */
  lemma TopKeepsTies(k: SortKey, v: real, xs: seq<Offering>, limit: nat)
    ensures WithKey(k, v, Top(k, xs, limit)) <= WithKey(k, v, xs)
  {
    var s := SortDesc(k, xs);
    var n := Min(limit, |s|);
    assert s == s[..n] + s[n..];
    WithKeyConcat(k, v, s[..n], s[n..]);
    SortKeepsTies(k, v, xs);
  }

  lemma SubMultisetMembers(r: seq<Offering>, xs: seq<Offering>)
    requires multiset(r) <= multiset(xs)
    ensures forall o :: o in r ==> o in xs
  {
    forall o | o in r ensures o in xs {
      assert o in multiset(r);
    }
  }

  /** `getBestValueGPUs`: the `limit` offerings with the highest value score. */
  function BestValueGPUs(store: Store, limit: nat): (r: seq<Offering>)
    ensures |r| == Min(limit, |ResolvableRows(store, store.pricing)|)
    ensures forall i, j :: 0 <= i < j < |r| ==> r[j].valueScore <= r[i].valueScore
    ensures multiset(r) <= multiset(AllOfferings(store))
    ensures forall o :: o in r ==> Resolved(store, o)
    ensures forall o, i :: o in multiset(AllOfferings(store)) - multiset(r) && 0 <= i < |r| ==>
      o.valueScore <= r[i].valueScore
  {
    AllOfferingsRows(store);
    var r := Top(ByValue, AllOfferings(store), limit);
    SubMultisetMembers(r, AllOfferings(store));
    r
  }

  /** `getFastestGPUs`: the `limit` offerings with the highest performance score. */
  function FastestGPUs(store: Store, limit: nat): (r: seq<Offering>)
    ensures |r| == Min(limit, |ResolvableRows(store, store.pricing)|)
    ensures forall i, j :: 0 <= i < j < |r| ==> r[j].performanceScore <= r[i].performanceScore
    ensures multiset(r) <= multiset(AllOfferings(store))
    ensures forall o :: o in r ==> Resolved(store, o)
    ensures forall o, i :: o in multiset(AllOfferings(store)) - multiset(r) && 0 <= i < |r| ==>
      o.performanceScore <= r[i].performanceScore
  {
    AllOfferingsRows(store);
    var r := Top(ByPerformance, AllOfferings(store), limit);
    SubMultisetMembers(r, AllOfferings(store));
    r
  }

  /** Best-value ties keep catalog order. */
  lemma BestValueKeepsTies(store: Store, limit: nat, v: real)
    ensures WithKey(ByValue, v, BestValueGPUs(store, limit)) <= WithKey(ByValue, v, AllOfferings(store))
  {
    TopKeepsTies(ByValue, v, AllOfferings(store), limit);
  }

  /** Fastest-GPU ties keep catalog order. */
  lemma FastestKeepsTies(store: Store, limit: nat, v: real)
    ensures WithKey(ByPerformance, v, FastestGPUs(store, limit)) <= WithKey(ByPerformance, v, AllOfferings(store))
  {
    TopKeepsTies(ByPerformance, v, AllOfferings(store), limit);
  }

}
