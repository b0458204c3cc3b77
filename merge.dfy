/** `merge_commercial_results` (comment_analyzer.py:248-312): fold the
    per-batch analyses into three insertion-ordered dictionaries keyed by a
    lower-cased name, then sort and truncate them. */
module Merging {
  import opened Wrappers
  import opened Text
  import opened StableSort

  /** One brand entry of an analysis; an absent `sentiment` or `mentions`
      is `None`, an absent `name` or `category` is the empty string. */
  datatype Brand = Brand(name: string, category: string, sentiment: Option<string>, mentions: Option<int>)

  /** One recommendation entry; an absent `endorsements` is `None`. */
  datatype Recommendation = Recommendation(item: string, category: string, quote: string, endorsements: Option<int>)

  /** One opportunity entry (`type` is a keyword in Dafny, hence `kind`). */
  datatype Opportunity = Opportunity(kind: string, target: string, rationale: string)

  /** What one analysis call returns: an error-tagged record, or the three
      lists (a missing list is empty). */
  datatype AnalysisResult =
    | Failed(error: string, raw: string)
    | Analysis(brands: seq<Brand>, recommendations: seq<Recommendation>, opportunities: seq<Opportunity>)

  datatype MergedBrand = MergedBrand(name: string, category: string, sentiment: string, mentions: int)
  datatype MergedRecommendation = MergedRecommendation(item: string, category: string, quote: string, endorsements: int)
  datatype MergedResult = MergedResult(
    brands: seq<MergedBrand>,
    recommendations: seq<MergedRecommendation>,
    opportunities: seq<Opportunity>)

  /** A Python dictionary: its keys in insertion order and its contents. */
  datatype Table<K, V> = Table(order: seq<K>, entries: map<K, V>)

  ghost predicate WellFormed<K(!new), V>(t: Table<K, V>) {
    && (forall k :: k in t.entries <==> k in t.order)
    && (forall i, j :: 0 <= i < j < |t.order| ==> t.order[i] != t.order[j])
  }

  /** `d.get(k)`. */
  function Lookup<K, V>(t: Table<K, V>, k: K): Option<V> {
    if k in t.entries then Some(t.entries[k]) else None
  }

  /** `d[k] = v`: a new key goes to the end, an existing one keeps its place. */
  function Put<K, V>(t: Table<K, V>, k: K, v: V): Table<K, V> {
    Table(if k in t.entries then t.order else t.order + [k], t.entries[k := v])
  }

  /** `list(d.values())`. */
  function Values<K, V>(order: seq<K>, entries: map<K, V>): seq<V> {
    if order == [] then []
    else
      var k := order[|order| - 1];
      Values(order[..|order| - 1], entries) + (if k in entries then [entries[k]] else [])
  }

  lemma {:induction false} ValuesAt<K, V>(order: seq<K>, entries: map<K, V>)
    requires forall k :: k in order ==> k in entries
    ensures |Values(order, entries)| == |order|
    ensures forall i :: 0 <= i < |order| ==> Values(order, entries)[i] == entries[order[i]]
  {
    if order != [] {
      ValuesAt(order[..|order| - 1], entries);
    }
  }

  /** The loop shared by the three dictionaries: for each entry in turn,
      skip it when its key is not `valid`, otherwise store
      `step(d.get(key), entry)` under its key. */
  function Accumulate<X, K, V>(xs: seq<X>, key: X -> K, valid: K -> bool, step: (Option<V>, X) -> V): Table<K, V> {
    if xs == [] then Table([], map[])
    else
      var t := Accumulate(xs[..|xs| - 1], key, valid, step);
      var x := xs[|xs| - 1];
      var k := key(x);
      if valid(k) then Put(t, k, step(Lookup(t, k), x)) else t
  }

  lemma AccumulateSnoc<X, K, V>(xs: seq<X>, x: X, key: X -> K, valid: K -> bool, step: (Option<V>, X) -> V)
    ensures var t := Accumulate(xs, key, valid, step);
      Accumulate(xs + [x], key, valid, step)
        == if valid(key(x)) then Put(t, key(x), step(Lookup(t, key(x)), x)) else t
  {
    assert (xs + [x])[..|xs|] == xs;
  }

  /** Index of the first entry whose key is `k`, or `|xs|`. */
  function FirstIndex<X, K(==)>(xs: seq<X>, key: X -> K, k: K): (i: nat)
    ensures i <= |xs|
    ensures forall j :: 0 <= j < i ==> key(xs[j]) != k
    ensures i < |xs| ==> key(xs[i]) == k
  {
    if xs == [] then 0
    else
      var i := FirstIndex(xs[..|xs| - 1], key, k);
      if i < |xs| - 1 then i else if key(xs[|xs| - 1]) == k then |xs| - 1 else |xs|
  }

  /** Extending the entries by one keeps every earlier first occurrence,
      and the new entry is the first occurrence of a key not seen before. */
  lemma FirstIndexSnoc<X, K>(xs: seq<X>, key: X -> K, k: K)
    requires xs != []
    ensures var p := xs[..|xs| - 1];
      && (FirstIndex(p, key, k) < |p| ==> FirstIndex(xs, key, k) == FirstIndex(p, key, k))
      && (FirstIndex(p, key, k) == |p| ==>
            FirstIndex(xs, key, k) == if key(xs[|xs| - 1]) == k then |p| else |xs|)
  {
  }

  /** The keys of the dictionary are exactly the valid keys that occur,
      each once, in the order in which they first occur. */
  lemma {:induction false} AccumulateShape<X, K(!new), V>(xs: seq<X>, key: X -> K, valid: K -> bool, step: (Option<V>, X) -> V)
    ensures var t := Accumulate(xs, key, valid, step);
      && WellFormed(t)
      && (forall k :: k in t.entries <==> valid(k) && FirstIndex(xs, key, k) < |xs|)
      && (forall i, j :: 0 <= i < j < |t.order| ==>
            FirstIndex(xs, key, t.order[i]) < FirstIndex(xs, key, t.order[j]))
  {
    if xs != [] {
      var p := xs[..|xs| - 1];
      AccumulateShape(p, key, valid, step);
      var t := Accumulate(p, key, valid, step);
      var t' := Accumulate(xs, key, valid, step);
      var k0 := key(xs[|xs| - 1]);
      forall k
        ensures FirstIndex(p, key, k) < |p| ==> FirstIndex(xs, key, k) == FirstIndex(p, key, k)
        ensures FirstIndex(p, key, k) == |p| ==> FirstIndex(xs, key, k) == if k == k0 then |p| else |xs|
      {
        FirstIndexSnoc(xs, key, k);
      }
      if valid(k0) && k0 !in t.entries {
        assert t'.order == t.order + [k0];
        assert FirstIndex(xs, key, k0) == |p|;
      }
    }
  }

  /** `sum(amount(x) for x in xs if key(x) == k)`. */
  function SumWhere<X, K(==)>(xs: seq<X>, key: X -> K, k: K, amount: X -> int): int {
    if xs == [] then 0
    else
      var x := xs[|xs| - 1];
      SumWhere(xs[..|xs| - 1], key, k, amount) + (if key(x) == k then amount(x) else 0)
  }

  lemma {:induction false} SumWhereAbsent<X, K>(xs: seq<X>, key: X -> K, k: K, amount: X -> int)
    requires FirstIndex(xs, key, k) == |xs|
    ensures SumWhere(xs, key, k, amount) == 0
  {
    if xs != [] {
      SumWhereAbsent(xs[..|xs| - 1], key, k, amount);
    }
  }

  // ---- brands ----

  /** `brand.get("name", "").lower()`. */
  function BrandKey(b: Brand): string {
    Lower(b.name)
  }

  predicate NonEmpty(k: string) {
    k != []
  }

  /** `brand.get("mentions", 1)`. */
  function MentionCount(b: Brand): int {
    b.mentions.GetOr(1)
  }

  predicate IsPolarized(sentiment: Option<string>) {
    sentiment == Some("positive") || sentiment == Some("negative")
  }

  /** The brand branch of the merge loop: seed a new entry, or add the
      mentions and let a polarized sentiment overwrite the stored one. */
  function BrandStep(prior: Option<MergedBrand>, b: Brand): MergedBrand {
    match prior
    case None => MergedBrand(b.name, b.category, b.sentiment.GetOr("neutral"), MentionCount(b))
    case Some(e) =>
      MergedBrand(e.name, e.category,
        if IsPolarized(b.sentiment) then b.sentiment.value else e.sentiment,
        e.mentions + MentionCount(b))
  }

  function BrandTable(bs: seq<Brand>): Table<string, MergedBrand> {
    Accumulate(bs, BrandKey, NonEmpty, BrandStep)
  }

  /** The last polarized sentiment given to key `k`, if any. */
  function LastPolarized(bs: seq<Brand>, k: string): Option<string> {
    if bs == [] then None
    else
      var b := bs[|bs| - 1];
      if BrandKey(b) == k && IsPolarized(b.sentiment) then b.sentiment
      else LastPolarized(bs[..|bs| - 1], k)
  }

  /** The merged brand for key `k`, stated without the loop: name and
      category of the first occurrence, the sum of all mentions, and the
      last polarized sentiment, else the first occurrence's sentiment. */
  function BrandEntry(bs: seq<Brand>, k: string): MergedBrand
    requires FirstIndex(bs, BrandKey, k) < |bs|
  {
    var first := bs[FirstIndex(bs, BrandKey, k)];
    MergedBrand(first.name, first.category,
      LastPolarized(bs, k).GetOr(first.sentiment.GetOr("neutral")),
      SumWhere(bs, BrandKey, k, MentionCount))
  }

  lemma {:induction false} LastPolarizedAbsent(bs: seq<Brand>, k: string)
    requires FirstIndex(bs, BrandKey, k) == |bs|
    ensures LastPolarized(bs, k) == None
  {
    if bs != [] {
      LastPolarizedAbsent(bs[..|bs| - 1], k);
    }
  }

  /** Every stored brand is the reference entry of its key. */
  lemma {:induction false} BrandTableEntries(bs: seq<Brand>)
    ensures var t := BrandTable(bs);
      forall k :: k in t.entries ==> FirstIndex(bs, BrandKey, k) < |bs| && t.entries[k] == BrandEntry(bs, k)
  {
    AccumulateShape(bs, BrandKey, NonEmpty, BrandStep);
    if bs != [] {
      var p := bs[..|bs| - 1];
      var b := bs[|bs| - 1];
      var k0 := BrandKey(b);
      BrandTableEntries(p);
      AccumulateShape(p, BrandKey, NonEmpty, BrandStep);
      var t := BrandTable(p);
      var t' := BrandTable(bs);
      forall k | k in t'.entries
        ensures t'.entries[k] == BrandEntry(bs, k)
      {
        if k != k0 {
          assert FirstIndex(p, BrandKey, k) < |p|;
          assert t'.entries[k] == t.entries[k];
        } else if k0 in t.entries {
          assert FirstIndex(bs, BrandKey, k) == FirstIndex(p, BrandKey, k);
        } else {
          assert FirstIndex(p, BrandKey, k) == |p|;
          SumWhereAbsent(p, BrandKey, k, MentionCount);
          LastPolarizedAbsent(p, k);
        }
      }
    }
  }

  // ---- recommendations ----

  /** `rec.get("item", "").lower()`. */
  function RecKey(r: Recommendation): string {
    Lower(r.item)
  }

  /** `rec.get("endorsements", 1)`. */
  function EndorsementCount(r: Recommendation): int {
    r.endorsements.GetOr(1)
  }

  /** The recommendation branch: seed a new entry, or add the
      endorsements and keep everything else. */
  function RecStep(prior: Option<MergedRecommendation>, r: Recommendation): MergedRecommendation {
    match prior
    case None => MergedRecommendation(r.item, r.category, r.quote, EndorsementCount(r))
    case Some(e) => MergedRecommendation(e.item, e.category, e.quote, e.endorsements + EndorsementCount(r))
  }

  function RecTable(rs: seq<Recommendation>): Table<string, MergedRecommendation> {
    Accumulate(rs, RecKey, NonEmpty, RecStep)
  }

  /** The merged recommendation for key `k`, stated without the loop. */
  function RecEntry(rs: seq<Recommendation>, k: string): MergedRecommendation
    requires FirstIndex(rs, RecKey, k) < |rs|
  {
    var first := rs[FirstIndex(rs, RecKey, k)];
    MergedRecommendation(first.item, first.category, first.quote, SumWhere(rs, RecKey, k, EndorsementCount))
  }

  lemma {:induction false} RecTableEntries(rs: seq<Recommendation>)
    ensures var t := RecTable(rs);
      forall k :: k in t.entries ==> FirstIndex(rs, RecKey, k) < |rs| && t.entries[k] == RecEntry(rs, k)
  {
    AccumulateShape(rs, RecKey, NonEmpty, RecStep);
    if rs != [] {
      var p := rs[..|rs| - 1];
      var k0 := RecKey(rs[|rs| - 1]);
      RecTableEntries(p);
      AccumulateShape(p, RecKey, NonEmpty, RecStep);
      var t := RecTable(p);
      var t' := RecTable(rs);
      forall k | k in t'.entries
        ensures t'.entries[k] == RecEntry(rs, k)
      {
        if k != k0 {
          assert FirstIndex(p, RecKey, k) < |p|;
          assert t'.entries[k] == t.entries[k];
        } else if k0 in t.entries {
          assert FirstIndex(rs, RecKey, k) == FirstIndex(p, RecKey, k);
        } else {
          assert FirstIndex(p, RecKey, k) == |p|;
          SumWhereAbsent(p, RecKey, k, EndorsementCount);
        }
      }
    }
  }

  // ---- opportunities ----

  /** `(opp.get("target", "").lower(), opp.get("type", "").lower())`. */
  function OppKey(o: Opportunity): (string, string) {
    (Lower(o.target), Lower(o.kind))
  }

  predicate HasTarget(k: (string, string)) {
    k.0 != []
  }

  /** The opportunity branch: the first entry with a key is kept whole. */
  function OppStep(prior: Option<Opportunity>, o: Opportunity): Opportunity {
    prior.GetOr(o)
  }

  function OppTable(os: seq<Opportunity>): Table<(string, string), Opportunity> {
    Accumulate(os, OppKey, HasTarget, OppStep)
  }

  lemma {:induction false} OppTableEntries(os: seq<Opportunity>)
    ensures var t := OppTable(os);
      forall k :: k in t.entries ==> FirstIndex(os, OppKey, k) < |os| && t.entries[k] == os[FirstIndex(os, OppKey, k)]
  {
    AccumulateShape(os, OppKey, HasTarget, OppStep);
    if os != [] {
      var p := os[..|os| - 1];
      var k0 := OppKey(os[|os| - 1]);
      OppTableEntries(p);
      AccumulateShape(p, OppKey, HasTarget, OppStep);
      var t := OppTable(p);
      var t' := OppTable(os);
      forall k | k in t'.entries
        ensures t'.entries[k] == os[FirstIndex(os, OppKey, k)]
      {
        if k != k0 || k0 in t.entries {
          assert FirstIndex(p, OppKey, k) < |p|;
          assert t'.entries[k] == t.entries[k];
        } else {
          assert FirstIndex(p, OppKey, k) == |p|;
        }
      }
    }
  }

  // ---- the whole merge ----

  function BrandsOf(r: AnalysisResult): seq<Brand> {
    if r.Analysis? then r.brands else []
  }

  function RecommendationsOf(r: AnalysisResult): seq<Recommendation> {
    if r.Analysis? then r.recommendations else []
  }

  function OpportunitiesOf(r: AnalysisResult): seq<Opportunity> {
    if r.Analysis? then r.opportunities else []
  }

  /** The entries of one kind from every result, in order; error-tagged
      results contribute nothing. */
  function Flatten<X>(results: seq<AnalysisResult>, part: AnalysisResult -> seq<X>): seq<X> {
    if results == [] then []
    else Flatten(results[..|results| - 1], part) + part(results[|results| - 1])
  }

  lemma {:induction false} FlattenAppend<X>(a: seq<AnalysisResult>, b: seq<AnalysisResult>, part: AnalysisResult -> seq<X>)
    ensures Flatten(a + b, part) == Flatten(a, part) + Flatten(b, part)
  {
    if b == [] {
      assert a + b == a;
    } else {
      assert (a + b)[..|a + b| - 1] == a + b[..|b| - 1];
      FlattenAppend(a, b[..|b| - 1], part);
    }
  }

  lemma FlattenStep<X>(results: seq<AnalysisResult>, i: nat, part: AnalysisResult -> seq<X>)
    requires i < |results|
    ensures Flatten(results[..i + 1], part) == Flatten(results[..i], part) + part(results[i])
  {
    assert results[..i + 1][..i] == results[..i];
  }

  function Mentions(b: MergedBrand): int {
    b.mentions
  }

  function Endorsements(r: MergedRecommendation): int {
    r.endorsements
  }

  /** The merged result: brands by mentions, the eight most endorsed
      recommendations, the first five opportunities. */
  function Merge(results: seq<AnalysisResult>): MergedResult {
    var brands := BrandTable(Flatten(results, BrandsOf));
    var recs := RecTable(Flatten(results, RecommendationsOf));
    var opps := OppTable(Flatten(results, OpportunitiesOf));
    MergedResult(
      SortDesc(Values(brands.order, brands.entries), Mentions),
      Take(SortDesc(Values(recs.order, recs.entries), Endorsements), 8),
      Take(Values(opps.order, opps.entries), 5))
  }

  /** The merged brands are the reference entries of the distinct
      non-empty lower-cased names, in first-seen order, then sorted by
      mentions with ties left in first-seen order. */
  lemma MergedBrands(bs: seq<Brand>)
    ensures var t := BrandTable(bs);
      var vs := Values(t.order, t.entries);
      && (forall k :: k in t.order <==> k != [] && FirstIndex(bs, BrandKey, k) < |bs|)
      && (forall i, j :: 0 <= i < j < |t.order| ==> FirstIndex(bs, BrandKey, t.order[i]) < FirstIndex(bs, BrandKey, t.order[j]))
      && |vs| == |t.order|
      && (forall i :: 0 <= i < |t.order| ==>
            FirstIndex(bs, BrandKey, t.order[i]) < |bs| && vs[i] == BrandEntry(bs, t.order[i]))
      && StablySorted(SortDesc(vs, Mentions), vs, Mentions)
      && multiset(SortDesc(vs, Mentions)) == multiset(vs)
  {
    var t := BrandTable(bs);
    var vs := Values(t.order, t.entries);
    AccumulateShape(bs, BrandKey, NonEmpty, BrandStep);
    BrandValues(bs);
    SortDescCharacterization(vs, SortDesc(vs, Mentions), Mentions);
    SortDescPermutation(vs, Mentions);
  }

  /** The brand values in dictionary order are the reference entries of
      the keys. */
  lemma BrandValues(bs: seq<Brand>)
    ensures var t := BrandTable(bs);
      var vs := Values(t.order, t.entries);
      && |vs| == |t.order|
      && (forall i :: 0 <= i < |t.order| ==>
            FirstIndex(bs, BrandKey, t.order[i]) < |bs| && vs[i] == BrandEntry(bs, t.order[i]))
  {
    var t := BrandTable(bs);
    AccumulateShape(bs, BrandKey, NonEmpty, BrandStep);
    BrandTableEntries(bs);
    ValuesAt(t.order, t.entries);
  }

  /** The merged recommendations, before the cut: the reference entries of
      the distinct non-empty lower-cased items, ranked by endorsements with
      ties left in first-seen order. */
  lemma MergedRecommendations(rs: seq<Recommendation>)
    ensures var t := RecTable(rs);
      var vs := Values(t.order, t.entries);
      var ranked := SortDesc(vs, Endorsements);
      && (forall k :: k in t.order <==> k != [] && FirstIndex(rs, RecKey, k) < |rs|)
      && |vs| == |t.order|
      && (forall i :: 0 <= i < |t.order| ==>
            FirstIndex(rs, RecKey, t.order[i]) < |rs| && vs[i] == RecEntry(rs, t.order[i]))
      && StablySorted(ranked, vs, Endorsements)
      && multiset(ranked) == multiset(vs)
  {
    var t := RecTable(rs);
    var vs := Values(t.order, t.entries);
    var ranked := SortDesc(vs, Endorsements);
    AccumulateShape(rs, RecKey, NonEmpty, RecStep);
    RecValues(rs);
    SortDescCharacterization(vs, ranked, Endorsements);
    SortDescPermutation(vs, Endorsements);
  }

  /** The recommendation values in dictionary order are the reference
      entries of the keys. */
  lemma RecValues(rs: seq<Recommendation>)
    ensures var t := RecTable(rs);
      var vs := Values(t.order, t.entries);
      && |vs| == |t.order|
      && (forall i :: 0 <= i < |t.order| ==>
            FirstIndex(rs, RecKey, t.order[i]) < |rs| && vs[i] == RecEntry(rs, t.order[i]))
  {
    var t := RecTable(rs);
    AccumulateShape(rs, RecKey, NonEmpty, RecStep);
    RecTableEntries(rs);
    ValuesAt(t.order, t.entries);
  }

  /** At most eight recommendations are kept (all of them when there are
      fewer), and one that is cut has no more endorsements than any kept. */
  lemma TopRecommendations(rs: seq<Recommendation>)
    ensures var t := RecTable(rs);
      var ranked := SortDesc(Values(t.order, t.entries), Endorsements);
      var kept := Take(ranked, 8);
      && |kept| == (if |t.order| <= 8 then |t.order| else 8)
      && (forall i, j :: 0 <= i < |kept| <= j < |ranked| ==> Endorsements(ranked[j]) <= Endorsements(kept[i]))
  {
    var t := RecTable(rs);
    var vs := Values(t.order, t.entries);
    RecValues(rs);
    SortDescLength(vs, Endorsements);
    SortDescNonIncreasing(vs, Endorsements);
    TakeOfRanked(SortDesc(vs, Endorsements), 8, Endorsements);
  }

  /** Cutting a ranked list keeps entries that rank at least as high as
      every entry cut. */
  lemma TakeOfRanked<T>(ranked: seq<T>, n: nat, key: T -> int)
    requires NonIncreasing(ranked, key)
    ensures forall i, j :: 0 <= i < |Take(ranked, n)| <= j < |ranked| ==> key(ranked[j]) <= key(Take(ranked, n)[i])
  {
    var kept := Take(ranked, n);
    forall i, j | 0 <= i < |kept| <= j < |ranked|
      ensures key(ranked[j]) <= key(kept[i])
    {
      assert kept[i] == ranked[i];
    }
  }

  /** The merged opportunities are the first five distinct (target, type)
      keys with a non-empty target, in first-seen order, each carried by
      the first opportunity that had it. */
  lemma MergedOpportunities(os: seq<Opportunity>)
    ensures var t := OppTable(os);
      var kept := Take(Values(t.order, t.entries), 5);
      && |kept| == (if |t.order| <= 5 then |t.order| else 5)
      && (forall k :: k in t.order <==> k.0 != [] && FirstIndex(os, OppKey, k) < |os|)
      && (forall i, j :: 0 <= i < j < |t.order| ==> FirstIndex(os, OppKey, t.order[i]) < FirstIndex(os, OppKey, t.order[j]))
      && (forall i :: 0 <= i < |kept| ==>
            && FirstIndex(os, OppKey, t.order[i]) < |os|
            && kept[i] == os[FirstIndex(os, OppKey, t.order[i])]
            && OppKey(kept[i]) == t.order[i])
  {
    var t := OppTable(os);
    var vs := Values(t.order, t.entries);
    var kept := Take(vs, 5);
    AccumulateShape(os, OppKey, HasTarget, OppStep);
    OppValues(os);
    assert forall i :: 0 <= i < |kept| ==> kept[i] == vs[i];
  }

  /** The opportunity values in dictionary order are the first
      opportunities carrying each key. */
  lemma OppValues(os: seq<Opportunity>)
    ensures var t := OppTable(os);
      var vs := Values(t.order, t.entries);
      && |vs| == |t.order|
      && (forall i :: 0 <= i < |t.order| ==>
            && FirstIndex(os, OppKey, t.order[i]) < |os|
            && vs[i] == os[FirstIndex(os, OppKey, t.order[i])]
            && OppKey(vs[i]) == t.order[i])
  {
    var t := OppTable(os);
    AccumulateShape(os, OppKey, HasTarget, OppStep);
    OppTableEntries(os);
    ValuesAt(t.order, t.entries);
  }

  /** No two merged opportunities share a (target, type) key. */
  lemma DistinctOpportunities(os: seq<Opportunity>)
    ensures var t := OppTable(os);
      var kept := Take(Values(t.order, t.entries), 5);
      forall i, j :: 0 <= i < j < |kept| ==> OppKey(kept[i]) != OppKey(kept[j])
  {
    var t := OppTable(os);
    var kept := Take(Values(t.order, t.entries), 5);
    MergedOpportunities(os);
    assert forall i, j :: 0 <= i < j < |t.order| ==> t.order[i] != t.order[j] by {
      AccumulateShape(os, OppKey, HasTarget, OppStep);
    }
  }

  lemma FlattenSnoc<X>(a: seq<AnalysisResult>, x: AnalysisResult, part: AnalysisResult -> seq<X>)
    ensures Flatten(a + [x], part) == Flatten(a, part) + part(x)
  {
    assert (a + [x])[..|a|] == a;
  }

  /** Dropping a result that contributes no entry of a kind leaves that
      kind's entries unchanged. */
  lemma FlattenSkip<X>(results: seq<AnalysisResult>, i: nat, part: AnalysisResult -> seq<X>)
    requires i < |results| && part(results[i]) == []
    ensures Flatten(results[..i] + results[i + 1..], part) == Flatten(results, part)
  {
    var a, b := results[..i], results[i + 1..];
    var ar := a + [results[i]];
    assert results == ar + b;
    FlattenAppend(ar, b, part);
    FlattenSnoc(a, results[i], part);
    assert Flatten(ar, part) == Flatten(a, part);
    FlattenAppend(a, b, part);
  }

  /** An error-tagged result contributes nothing: removing it leaves the
      merge unchanged. */
  lemma MergeSkipsFailed(results: seq<AnalysisResult>, i: nat)
    requires i < |results| && results[i].Failed?
    ensures Merge(results[..i] + results[i + 1..]) == Merge(results)
  {
    FlattenSkip(results, i, BrandsOf);
    FlattenSkip(results, i, RecommendationsOf);
    FlattenSkip(results, i, OpportunitiesOf);
  }

  lemma {:induction false} FlattenOfFailures<X>(results: seq<AnalysisResult>, part: AnalysisResult -> seq<X>)
    requires forall r: AnalysisResult :: r.Failed? ==> part(r) == []
    requires forall i :: 0 <= i < |results| ==> results[i].Failed?
    ensures Flatten(results, part) == []
  {
    if results != [] {
      FlattenOfFailures(results[..|results| - 1], part);
    }
  }

  /** With no usable result (none at all, or only error-tagged ones) the
      merge is the canonical empty result. */
  lemma MergeOfFailures(results: seq<AnalysisResult>)
    requires forall i :: 0 <= i < |results| ==> results[i].Failed?
    ensures Merge(results) == MergedResult([], [], [])
  {
    FlattenOfFailures(results, BrandsOf);
    FlattenOfFailures(results, RecommendationsOf);
    FlattenOfFailures(results, OpportunitiesOf);
  }

  lemma MergedBrandsField(results: seq<AnalysisResult>)
    ensures var t := BrandTable(Flatten(results, BrandsOf));
      Merge(results).brands == SortDesc(Values(t.order, t.entries), Mentions)
  {
  }

  /** "Nike" with 3 neutral mentions and "NIKE" with 2 positive ones merge
      into one "Nike" entry with 5 positive mentions. */
  lemma NikeExample()
    ensures Merge([Analysis(
        [Brand("Nike", "", Some("neutral"), Some(3)), Brand("NIKE", "", Some("positive"), Some(2))],
        [], [])]).brands
      == [MergedBrand("Nike", "", "positive", 5)]
  {
    var b1, b2 := Brand("Nike", "", Some("neutral"), Some(3)), Brand("NIKE", "", Some("positive"), Some(2));
    var r := Analysis([b1, b2], [], []);
    MergedBrandsField([r]);
    FlattenSnoc([], r, BrandsOf);
    assert [] + [r] == [r];
    assert Flatten([r], BrandsOf) == [b1, b2];
    NikeTable();
    var e := MergedBrand("Nike", "", "positive", 5);
    assert ["nike"][..0] == [];
    assert Values(["nike"], map["nike" := e]) == [e];
    assert SortDesc([e], Mentions) == [e];
  }

  lemma NikeTable()
    ensures BrandTable([Brand("Nike", "", Some("neutral"), Some(3)), Brand("NIKE", "", Some("positive"), Some(2))])
      == Table(["nike"], map["nike" := MergedBrand("Nike", "", "positive", 5)])
  {
    var b1, b2 := Brand("Nike", "", Some("neutral"), Some(3)), Brand("NIKE", "", Some("positive"), Some(2));
    assert Lower("Nike") == "nike" == Lower("NIKE");
    AccumulateSnoc([], b1, BrandKey, NonEmpty, BrandStep);
    assert [] + [b1] == [b1];
    assert BrandTable([b1]) == Table(["nike"], map["nike" := MergedBrand("Nike", "", "neutral", 3)]);
    AccumulateSnoc([b1], b2, BrandKey, NonEmpty, BrandStep);
    assert [b1] + [b2] == [b1, b2];
  }

  /** Two opportunities with the same (target, type) key, in any letter
      case: only the first, with its rationale, survives. */
  lemma DuplicateOpportunity(o1: Opportunity, o2: Opportunity)
    requires OppKey(o1) == OppKey(o2) && Lower(o1.target) != []
    ensures Merge([Analysis([], [], [o1, o2])]).opportunities == [o1]
  {
    var r := Analysis([], [], [o1, o2]);
    assert [r][..0] == [];
    assert Flatten([r], OpportunitiesOf) == [o1, o2];
    var k := OppKey(o1);
    AccumulateSnoc([], o1, OppKey, HasTarget, OppStep);
    assert [] + [o1] == [o1];
    assert OppTable([o1]) == Table([k], map[k := o1]);
    AccumulateSnoc([o1], o2, OppKey, HasTarget, OppStep);
    assert [o1] + [o2] == [o1, o2];
    assert OppTable([o1, o2]) == Table([k], map[k := o1]);
    assert [k][..0] == [];
    assert Values([k], map[k := o1]) == [o1];
  }

  /** The body of the brand loop (comment_analyzer.py:266-281): one brand
      folded into the dictionary. */
  method AddBrand(order: seq<string>, entries: map<string, MergedBrand>, ghost seen: seq<Brand>, brand: Brand)
    returns (order': seq<string>, entries': map<string, MergedBrand>)
    requires Table(order, entries) == BrandTable(seen)
    ensures Table(order', entries') == BrandTable(seen + [brand])
  {
    AccumulateSnoc(seen, brand, BrandKey, NonEmpty, BrandStep);
    order', entries' := order, entries;
    var name := Lower(brand.name);
    if name != [] {
      if name in entries {
        var entry := entries[name];
        entry := entry.(mentions := entry.mentions + brand.mentions.GetOr(1));
        if brand.sentiment == Some("positive") || brand.sentiment == Some("negative") {
          entry := entry.(sentiment := brand.sentiment.value);
        }
        entries' := entries[name := entry];
      } else {
        order' := order + [name];
        entries' := entries[name := MergedBrand(
          brand.name, brand.category, brand.sentiment.GetOr("neutral"), brand.mentions.GetOr(1))];
      }
    }
  }

  /** The brand loop of one result (comment_analyzer.py:265-281). */
  method AddBrands(order: seq<string>, entries: map<string, MergedBrand>, ghost seen: seq<Brand>, brands: seq<Brand>)
    returns (order': seq<string>, entries': map<string, MergedBrand>)
    requires Table(order, entries) == BrandTable(seen)
    ensures Table(order', entries') == BrandTable(seen + brands)
  {
    order', entries' := order, entries;
    var j := 0;
    assert seen + brands[..0] == seen;
    while j < |brands|
      invariant 0 <= j <= |brands|
      invariant Table(order', entries') == BrandTable(seen + brands[..j])
    {
      assert seen + brands[..j + 1] == (seen + brands[..j]) + [brands[j]];
      order', entries' := AddBrand(order', entries', seen + brands[..j], brands[j]);
      j := j + 1;
    }
    assert brands[..j] == brands;
  }

  /** The body of the recommendation loop (comment_analyzer.py:284-296):
      one recommendation folded into the dictionary. */
  method AddRecommendation(order: seq<string>, entries: map<string, MergedRecommendation>,
                           ghost seen: seq<Recommendation>, rec: Recommendation)
    returns (order': seq<string>, entries': map<string, MergedRecommendation>)
    requires Table(order, entries) == RecTable(seen)
    ensures Table(order', entries') == RecTable(seen + [rec])
  {
    AccumulateSnoc(seen, rec, RecKey, NonEmpty, RecStep);
    order', entries' := order, entries;
    var item := Lower(rec.item);
    if item != [] {
      if item in entries {
        var entry := entries[item];
        entries' := entries[item := entry.(endorsements := entry.endorsements + rec.endorsements.GetOr(1))];
      } else {
        order' := order + [item];
        entries' := entries[item := MergedRecommendation(rec.item, rec.category, rec.quote, rec.endorsements.GetOr(1))];
      }
    }
  }

  /** The recommendation loop of one result (comment_analyzer.py:283-296). */
  method AddRecommendations(order: seq<string>, entries: map<string, MergedRecommendation>,
                            ghost seen: seq<Recommendation>, recs: seq<Recommendation>)
    returns (order': seq<string>, entries': map<string, MergedRecommendation>)
    requires Table(order, entries) == RecTable(seen)
    ensures Table(order', entries') == RecTable(seen + recs)
  {
    order', entries' := order, entries;
    var j := 0;
    assert seen + recs[..0] == seen;
    while j < |recs|
      invariant 0 <= j <= |recs|
      invariant Table(order', entries') == RecTable(seen + recs[..j])
    {
      assert seen + recs[..j + 1] == (seen + recs[..j]) + [recs[j]];
      order', entries' := AddRecommendation(order', entries', seen + recs[..j], recs[j]);
      j := j + 1;
    }
    assert recs[..j] == recs;
  }

  /** The body of the opportunity loop (comment_analyzer.py:299-302): one
      opportunity kept unless its key is already present. */
  method AddOpportunity(order: seq<(string, string)>, entries: map<(string, string), Opportunity>,
                        ghost seen: seq<Opportunity>, opp: Opportunity)
    returns (order': seq<(string, string)>, entries': map<(string, string), Opportunity>)
    requires Table(order, entries) == OppTable(seen)
    ensures Table(order', entries') == OppTable(seen + [opp])
  {
    AccumulateSnoc(seen, opp, OppKey, HasTarget, OppStep);
    order', entries' := order, entries;
    var key := (Lower(opp.target), Lower(opp.kind));
    if key.0 != [] && key !in entries {
      order' := order + [key];
      entries' := entries[key := opp];
    }
  }

  /** The opportunity loop of one result (comment_analyzer.py:298-302). */
  method AddOpportunities(order: seq<(string, string)>, entries: map<(string, string), Opportunity>,
                          ghost seen: seq<Opportunity>, opps: seq<Opportunity>)
    returns (order': seq<(string, string)>, entries': map<(string, string), Opportunity>)
    requires Table(order, entries) == OppTable(seen)
    ensures Table(order', entries') == OppTable(seen + opps)
  {
    order', entries' := order, entries;
    var j := 0;
    assert seen + opps[..0] == seen;
    while j < |opps|
      invariant 0 <= j <= |opps|
      invariant Table(order', entries') == OppTable(seen + opps[..j])
    {
      assert seen + opps[..j + 1] == (seen + opps[..j]) + [opps[j]];
      order', entries' := AddOpportunity(order', entries', seen + opps[..j], opps[j]);
      j := j + 1;
    }
    assert opps[..j] == opps;
  }

  /** `merge_commercial_results`: one pass over the results, skipping the
      error-tagged ones, then the sort and the truncation. */
  method MergeCommercialResults(results: seq<AnalysisResult>) returns (merged: MergedResult)
    ensures merged == Merge(results)
  {
    var brandOrder: seq<string>, brandEntries: map<string, MergedBrand> := [], map[];
    var recOrder: seq<string>, recEntries: map<string, MergedRecommendation> := [], map[];
    var oppOrder: seq<(string, string)>, oppEntries: map<(string, string), Opportunity> := [], map[];
    var i := 0;
    while i < |results|
      invariant 0 <= i <= |results|
      invariant Table(brandOrder, brandEntries) == BrandTable(Flatten(results[..i], BrandsOf))
      invariant Table(recOrder, recEntries) == RecTable(Flatten(results[..i], RecommendationsOf))
      invariant Table(oppOrder, oppEntries) == OppTable(Flatten(results[..i], OpportunitiesOf))
    {
      var result := results[i];
      FlattenStep(results, i, BrandsOf);
      FlattenStep(results, i, RecommendationsOf);
      FlattenStep(results, i, OpportunitiesOf);
      if result.Analysis? {
        brandOrder, brandEntries :=
          AddBrands(brandOrder, brandEntries, Flatten(results[..i], BrandsOf), result.brands);
        recOrder, recEntries :=
          AddRecommendations(recOrder, recEntries, Flatten(results[..i], RecommendationsOf), result.recommendations);
        oppOrder, oppEntries :=
          AddOpportunities(oppOrder, oppEntries, Flatten(results[..i], OpportunitiesOf), result.opportunities);
      } else {
        assert Flatten(results[..i], BrandsOf) + [] == Flatten(results[..i], BrandsOf);
        assert Flatten(results[..i], RecommendationsOf) + [] == Flatten(results[..i], RecommendationsOf);
        assert Flatten(results[..i], OpportunitiesOf) + [] == Flatten(results[..i], OpportunitiesOf);
      }
      i := i + 1;
    }
    assert results[..i] == results;
    merged := MergedResult(
      SortDesc(Values(brandOrder, brandEntries), Mentions),
      Take(SortDesc(Values(recOrder, recEntries), Endorsements), 8),
      Take(Values(oppOrder, oppEntries), 5));
  }
}
