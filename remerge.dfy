/** Feeding a merged report back into `merge_commercial_results` together
    with further results. A merged brand becomes an input brand with its
    stored name, category, sentiment and mention count; a merged
    recommendation an input recommendation with its endorsements. Brand
    mention totals survive such a re-merge. */
module Remerging {
  import opened Wrappers
  import opened Text
  import opened StableSort
  import opened Merging

  /** A merged brand read back as an input brand. */
  function Unmerged(m: MergedBrand): Brand {
    Brand(m.name, m.category, Some(m.sentiment), Some(m.mentions))
  }

  function UnmergedBrands(ms: seq<MergedBrand>): seq<Brand> {
    if ms == [] then [] else UnmergedBrands(ms[..|ms| - 1]) + [Unmerged(ms[|ms| - 1])]
  }

  /** A merged recommendation read back as an input recommendation. */
  function UnmergedRecommendations(ms: seq<MergedRecommendation>): seq<Recommendation> {
    if ms == [] then []
    else
      var m := ms[|ms| - 1];
      UnmergedRecommendations(ms[..|ms| - 1]) + [Recommendation(m.item, m.category, m.quote, Some(m.endorsements))]
  }

  /** A merged report read back as one analysis result. */
  function AsResult(m: MergedResult): AnalysisResult {
    Analysis(UnmergedBrands(m.brands), UnmergedRecommendations(m.recommendations), m.opportunities)
  }

  /** The key a merged brand gets when it is merged again. */
  function MergedKey(m: MergedBrand): string {
    Lower(m.name)
  }

  /** The mentions a report gives the brand key `k`. */
  function MentionTotal(ms: seq<MergedBrand>, k: string): int {
    SumWhere(ms, MergedKey, k, Mentions)
  }

  /** The report lists a brand with key `k`. */
  predicate Lists(ms: seq<MergedBrand>, k: string) {
    exists m :: m in ms && MergedKey(m) == k
  }

  // ---- sums over sequences ----

  lemma {:induction false} SumWhereAppend<X, K>(xs: seq<X>, ys: seq<X>, key: X -> K, k: K, amount: X -> int)
    ensures SumWhere(xs + ys, key, k, amount) == SumWhere(xs, key, k, amount) + SumWhere(ys, key, k, amount)
    decreases |ys|
  {
    if ys == [] {
      assert xs + ys == xs;
    } else {
      var p := ys[..|ys| - 1];
      assert (xs + ys)[..|xs + ys| - 1] == xs + p;
      assert (xs + ys)[|xs + ys| - 1] == ys[|ys| - 1];
      SumWhereAppend(xs, p, key, k, amount);
    }
  }

  lemma SumWhereCons<X, K>(x: X, s: seq<X>, key: X -> K, k: K, amount: X -> int)
    ensures SumWhere([x] + s, key, k, amount) == (if key(x) == k then amount(x) else 0) + SumWhere(s, key, k, amount)
  {
    SumWhereAppend([x], s, key, k, amount);
    assert [x][..0] == [];
  }

  lemma {:induction false} SumWhereInsert<X, K>(x: X, s: seq<X>, sortKey: X -> int, key: X -> K, k: K, amount: X -> int)
    ensures SumWhere(Insert(x, s, sortKey), key, k, amount)
         == (if key(x) == k then amount(x) else 0) + SumWhere(s, key, k, amount)
  {
    SumWhereCons(x, s, key, k, amount);
    if s != [] && sortKey(s[0]) > sortKey(x) {
      SumWhereInsert(x, s[1..], sortKey, key, k, amount);
      SumWhereCons(s[0], Insert(x, s[1..], sortKey), key, k, amount);
      SumWhereCons(s[0], s[1..], key, k, amount);
      assert [s[0]] + s[1..] == s;
    }
  }

  /** A sum over a sorted sequence is the sum over the sequence. */
  lemma {:induction false} SumWhereSortDesc<X, K>(s: seq<X>, sortKey: X -> int, key: X -> K, k: K, amount: X -> int)
    ensures SumWhere(SortDesc(s, sortKey), key, k, amount) == SumWhere(s, key, k, amount)
  {
    if s != [] {
      SumWhereSortDesc(s[1..], sortKey, key, k, amount);
      SumWhereInsert(s[0], SortDesc(s[1..], sortKey), sortKey, key, k, amount);
      SumWhereCons(s[0], s[1..], key, k, amount);
      assert [s[0]] + s[1..] == s;
    }
  }

  /** With pairwise distinct keys, the sum for `k` is the one entry with
      key `k`, or 0 when there is none. */
  lemma {:induction false} SumOfDistinct(ms: seq<MergedBrand>, k: string)
    requires forall i, j :: 0 <= i < j < |ms| ==> MergedKey(ms[i]) != MergedKey(ms[j])
    ensures forall j :: 0 <= j < |ms| && MergedKey(ms[j]) == k ==> MentionTotal(ms, k) == ms[j].mentions
    ensures (forall j :: 0 <= j < |ms| ==> MergedKey(ms[j]) != k) ==> MentionTotal(ms, k) == 0
  {
    if ms != [] {
      var p := ms[..|ms| - 1];
      SumOfDistinct(p, k);
      if MergedKey(ms[|ms| - 1]) == k {
        assert forall j :: 0 <= j < |p| ==> MergedKey(p[j]) != k;
      }
    }
  }

  // ---- reading a merged report back ----

  lemma {:induction false} UnmergedBrandsAt(ms: seq<MergedBrand>)
    ensures |UnmergedBrands(ms)| == |ms|
    ensures forall i :: 0 <= i < |ms| ==> UnmergedBrands(ms)[i] == Unmerged(ms[i])
  {
    if ms != [] {
      UnmergedBrandsAt(ms[..|ms| - 1]);
    }
  }

  /** Reading back keeps every brand's mention count under its key. */
  lemma {:induction false} UnmergedBrandsSum(ms: seq<MergedBrand>, k: string)
    ensures SumWhere(UnmergedBrands(ms), BrandKey, k, MentionCount) == MentionTotal(ms, k)
  {
    if ms != [] {
      UnmergedBrandsSum(ms[..|ms| - 1], k);
    }
  }

  /** Reading back keeps every brand's key. */
  lemma UnmergedBrandsKeys(ms: seq<MergedBrand>, k: string)
    ensures FirstIndex(UnmergedBrands(ms), BrandKey, k) < |ms| <==> Lists(ms, k)
  {
    UnmergedBrandsAt(ms);
    var u := UnmergedBrands(ms);
    var i := FirstIndex(u, BrandKey, k);
    if i < |ms| {
      assert ms[i] in ms && MergedKey(ms[i]) == BrandKey(u[i]);
    }
    if Lists(ms, k) {
      var m :| m in ms && MergedKey(m) == k;
      var j :| 0 <= j < |ms| && ms[j] == m;
      assert BrandKey(u[j]) == k;
    }
  }

  lemma {:induction false} FirstIndexAppend<X, K>(xs: seq<X>, ys: seq<X>, key: X -> K, k: K)
    ensures FirstIndex(xs + ys, key, k) < |xs + ys|
        <==> FirstIndex(xs, key, k) < |xs| || FirstIndex(ys, key, k) < |ys|
  {
    var i := FirstIndex(xs + ys, key, k);
    if FirstIndex(xs, key, k) < |xs| {
      assert key((xs + ys)[FirstIndex(xs, key, k)]) == k;
    } else if FirstIndex(ys, key, k) < |ys| {
      assert key((xs + ys)[|xs| + FirstIndex(ys, key, k)]) == k;
    }
    if i < |xs + ys| {
      if i < |xs| {
        assert key(xs[i]) == k;
      } else {
        assert key(ys[i - |xs|]) == k;
      }
    }
  }

  // ---- brand totals of a merge ----

  /** The brands of a merged report, sorted by mentions: a key is listed
      exactly when it is non-empty and occurs in `bs`, and its mention
      count is the sum over `bs`. */
  lemma BrandListTotals(bs: seq<Brand>, k: string)
    ensures var t := BrandTable(bs);
      var out := SortDesc(Values(t.order, t.entries), Mentions);
      && MentionTotal(out, k) == (if k == [] then 0 else SumWhere(bs, BrandKey, k, MentionCount))
      && (Lists(out, k) <==> k != [] && FirstIndex(bs, BrandKey, k) < |bs|)
  {
    var t := BrandTable(bs);
    var vs := Values(t.order, t.entries);
    var out := SortDesc(vs, Mentions);
    MergedBrands(bs);
    AccumulateShape(bs, BrandKey, NonEmpty, BrandStep);
    SumWhereSortDesc(vs, Mentions, MergedKey, k, Mentions);
    SortDescPermutation(vs, Mentions);
    assert forall i :: 0 <= i < |vs| ==> MergedKey(vs[i]) == t.order[i] by {
      forall i | 0 <= i < |vs|
        ensures MergedKey(vs[i]) == t.order[i]
      {
        var f := FirstIndex(bs, BrandKey, t.order[i]);
        assert vs[i].name == bs[f].name;
      }
    }
    SumOfDistinct(vs, k);
    assert forall m :: m in out <==> m in vs by {
      forall m
        ensures m in out <==> m in vs
      {
        assert m in out <==> m in multiset(out);
        assert m in vs <==> m in multiset(vs);
      }
    }
    if k in t.order {
      var j :| 0 <= j < |t.order| && t.order[j] == k;
      assert vs[j] in vs;
    } else {
      assert forall j :: 0 <= j < |vs| ==> MergedKey(vs[j]) != k;
      if k != [] {
        SumWhereAbsent(bs, BrandKey, k, MentionCount);
      }
    }
  }

  /** In the merged report, a brand key is listed exactly when it is
      non-empty and some non-error result names it, and its mention count
      is the sum over all those results. */
  lemma MergedTotals(results: seq<AnalysisResult>, k: string)
    ensures var bs := Flatten(results, BrandsOf);
      && MentionTotal(Merge(results).brands, k)
         == (if k == [] then 0 else SumWhere(bs, BrandKey, k, MentionCount))
      && (Lists(Merge(results).brands, k) <==> k != [] && FirstIndex(bs, BrandKey, k) < |bs|)
  {
    MergedBrandsField(results);
    BrandListTotals(Flatten(results, BrandsOf), k);
  }

  lemma FlattenCons<X>(r: AnalysisResult, c: seq<AnalysisResult>, part: AnalysisResult -> seq<X>)
    ensures Flatten([r] + c, part) == part(r) + Flatten(c, part)
  {
    FlattenAppend([r], c, part);
    FlattenSnoc([], r, part);
    assert [] + [r] == [r];
  }

  /** The totals step of a re-merge, for any brand lists: the report's
      brands read back and merged with `fc` count like `fa` and `fc`. */
  lemma RemergeStep(fa: seq<Brand>, fc: seq<Brand>, mergedA: seq<MergedBrand>,
                    once: seq<MergedBrand>, twice: seq<MergedBrand>, k: string)
    requires MentionTotal(mergedA, k) == (if k == [] then 0 else SumWhere(fa, BrandKey, k, MentionCount))
    requires Lists(mergedA, k) <==> k != [] && FirstIndex(fa, BrandKey, k) < |fa|
    requires MentionTotal(once, k) == (if k == [] then 0 else SumWhere(fa + fc, BrandKey, k, MentionCount))
    requires Lists(once, k) <==> k != [] && FirstIndex(fa + fc, BrandKey, k) < |fa + fc|
    requires var u := UnmergedBrands(mergedA);
      && MentionTotal(twice, k) == (if k == [] then 0 else SumWhere(u + fc, BrandKey, k, MentionCount))
      && (Lists(twice, k) <==> k != [] && FirstIndex(u + fc, BrandKey, k) < |u + fc|)
    ensures MentionTotal(twice, k) == MentionTotal(once, k)
    ensures Lists(twice, k) <==> Lists(once, k)
  {
    var u := UnmergedBrands(mergedA);
    UnmergedBrandsSum(mergedA, k);
    UnmergedBrandsKeys(mergedA, k);
    UnmergedBrandsAt(mergedA);
    SumWhereAppend(fa, fc, BrandKey, k, MentionCount);
    SumWhereAppend(u, fc, BrandKey, k, MentionCount);
    FirstIndexAppend(fa, fc, BrandKey, k);
    FirstIndexAppend(u, fc, BrandKey, k);
  }

  /** Merging a merged report with more results gives every brand key the
      same mention total, and lists the same brand keys, as merging all
      the original results at once. */
  lemma RemergeBrandTotals(a: seq<AnalysisResult>, c: seq<AnalysisResult>, k: string)
    ensures var once := Merge(a + c).brands;
      var twice := Merge([AsResult(Merge(a))] + c).brands;
      && MentionTotal(twice, k) == MentionTotal(once, k)
      && (Lists(twice, k) <==> Lists(once, k))
  {
    var m := Merge(a);
    var r := AsResult(m);
    FlattenAppend(a, c, BrandsOf);
    FlattenCons(r, c, BrandsOf);
    assert BrandsOf(r) == UnmergedBrands(m.brands);
    MergedTotals(a, k);
    MergedTotals(a + c, k);
    MergedTotals([r] + c, k);
    RemergeStep(Flatten(a, BrandsOf), Flatten(c, BrandsOf), m.brands, Merge(a + c).brands, Merge([r] + c).brands, k);
  }
}
