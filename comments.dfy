/** `prepare_comments_for_analysis`: sort the comments by likes, keep all of
    them or a head-plus-stride sample when there are too many, and render
    each kept comment as one numbered entry. */
module Comments {
  import opened Wrappers
  import opened Text
  import opened HtmlCleaning
  import opened StableSort
  import opened Batching

  /** A scraped comment record; a field is `None` when the record lacks
      that key (`displayName` stands for `userProfile.displayName`). */
  datatype Comment = Comment(body: Option<string>, numRecommends: Option<int>, displayName: Option<string>)

  /** `c.get('numRecommends', 0)`: the sort key and the printed like count. */
  function Recommends(c: Comment): int {
    c.numRecommends.GetOr(0)
  }

  /** `c.get('userProfile', {}).get('displayName', 'Anonymous')`. */
  function Author(c: Comment): string {
    c.displayName.GetOr("Anonymous")
  }

  /** `c.get('body', '')`. */
  function Body(c: Comment): string {
    c.body.GetOr("")
  }

  /** `sorted(comments, key=numRecommends, reverse=True)`. */
  function SortByRecommends(comments: seq<Comment>): seq<Comment> {
    SortDesc(comments, Recommends)
  }

  /** `xs[::step]` for a positive step. */
  function EveryNth<T>(xs: seq<T>, step: nat): seq<T>
    requires step >= 1
    decreases |xs|
  {
    if xs == [] then [] else [xs[0]] + EveryNth(xs[if step < |xs| then step else |xs|..], step)
  }

  /** `xs[::step]` keeps every element whose index is a multiple of
      `step`: with `step` in front of it, at least `|xs|` positions are
      covered. */
  lemma {:induction false} EveryNthLength<T>(xs: seq<T>, step: nat)
    requires step >= 1
    ensures |EveryNth(xs, step)| * step >= |xs|
    decreases |xs|
  {
    if xs != [] {
      var t := xs[if step < |xs| then step else |xs|..];
      EveryNthLength(t, step);
      var n := |EveryNth(t, step)|;
      assert |EveryNth(xs, step)| == n + 1;
      assert (n + 1) * step == n * step + step;
    }
  }

  /** `k * step`, written as repeated addition. */
  function Offset(k: nat, step: nat): nat
  {
    if k == 0 then 0 else Offset(k - 1, step) + step
  }

  lemma {:induction false} OffsetIsProduct(k: nat, step: nat)
    ensures Offset(k, step) == k * step
  {
    if k > 0 {
      OffsetIsProduct(k - 1, step);
      MulSucc(k - 1, step);
    }
  }

  /** The `k`-th element of `xs[::step]` sits `k` strides into `xs`. */
  lemma {:induction false} EveryNthOffset<T>(xs: seq<T>, step: nat, k: nat)
    requires step >= 1 && k < |EveryNth(xs, step)|
    ensures Offset(k, step) < |xs| && EveryNth(xs, step)[k] == xs[Offset(k, step)]
    decreases |xs|
  {
    if k > 0 {
      var t := xs[if step < |xs| then step else |xs|..];
      var r := EveryNth(t, step);
      assert EveryNth(xs, step) == [xs[0]] + r;
      assert 0 <= k - 1 < |r|;
      EveryNthOffset(t, step, k - 1);
      assert t != [];
      assert t == xs[step..];
      assert EveryNth(xs, step)[k] == t[Offset(k - 1, step)];
    }
  }

  /** The `k`-th element of `xs[::step]` is `xs[k * step]`. */
  lemma EveryNthAt<T>(xs: seq<T>, step: nat, k: nat)
    requires step >= 1 && k < |EveryNth(xs, step)|
    ensures k * step < |xs| && EveryNth(xs, step)[k] == xs[k * step]
  {
    EveryNthOffset(xs, step, k);
    OffsetIsProduct(k, step);
  }

  /** The comments that get formatted, chosen from the sorted list
      (comment_analyzer.py:53-61). With more comments than `maxComments`
      the source divides by `maxComments // 2`, which raises when that is 0. */
  function SelectForAnalysis<T>(sorted: seq<T>, maxComments: int): Result<seq<T>>
    requires maxComments >= 0
  {
    if |sorted| > maxComments then
      var half := maxComments / 2;
      if half == 0 then Failure("integer division or modulo by zero")
      else
        var remaining := sorted[half..];
        var step := if |remaining| > half then |remaining| / half else 1;
        Success(sorted[..half] + Take(EveryNth(remaining, step), half))
    else
      Success(sorted)
  }

  /** One formatted entry: `[Comment i] (r likes) @author: body`. */
  function FormatEntry(i: int, c: Comment): string {
    "[Comment " + Decimal(i) + "] (" + Decimal(Recommends(c)) + " likes) @" + Author(c) + ": " + CleanHtml(Body(c))
  }

  /** The entries for `cs`, numbered from 1. */
  function Entries(cs: seq<Comment>): seq<string> {
    seq(|cs|, i requires 0 <= i < |cs| => FormatEntry(i + 1, cs[i]))
  }

  /** What `prepare_comments_for_analysis` returns, or the exception it
      raises. */
  function PreparedText(comments: seq<Comment>, maxComments: int): Result<string>
    requires maxComments >= 0
  {
    match SelectForAnalysis(SortByRecommends(comments), maxComments)
    case Success(selected) => Success(Join(Entries(selected), "\n\n"))
    case Failure(e) => Failure(e)
  }

  /** The formatting loop of `prepare_comments_for_analysis`
      (comment_analyzer.py:64-69): one entry per selected comment, numbered
      from 1, in the order of the selection. */
  method FormatSelected(selected: seq<Comment>) returns (formatted: seq<string>)
    ensures |formatted| == |selected|
    ensures forall k :: 0 <= k < |selected| ==> formatted[k] == FormatEntry(k + 1, selected[k])
  {
    formatted := [];
    var i := 0;
    while i < |selected|
      invariant 0 <= i <= |selected|
      invariant |formatted| == i
      invariant forall k :: 0 <= k < i ==> formatted[k] == FormatEntry(k + 1, selected[k])
    {
      formatted := formatted + [FormatEntry(i + 1, selected[i])];
      i := i + 1;
    }
  }

  /** `prepare_comments_for_analysis` (comment_analyzer.py:44-71). */
  method PrepareCommentsForAnalysis(comments: seq<Comment>, maxComments: int) returns (r: Result<string>)
    requires maxComments >= 0
    ensures r == PreparedText(comments, maxComments)
  {
    var chosen := SelectForAnalysis(SortByRecommends(comments), maxComments);
    if chosen.Failure? {
      return Failure(chosen.error);
    }
    var formatted := FormatSelected(chosen.value);
    assert formatted == Entries(chosen.value);
    return Success(Join(formatted, "\n\n"));
  }

  /** With no more comments than the limit, every comment is formatted
      exactly once, in a stable descending order of likes, numbered 1..n. */
  lemma SelectionKeepsAll(comments: seq<Comment>, maxComments: int)
    requires 0 <= |comments| <= maxComments
    ensures var sel := SelectForAnalysis(SortByRecommends(comments), maxComments);
      && sel.Success?
      && StablySorted(sel.value, comments, Recommends)
      && multiset(sel.value) == multiset(comments)
      && PreparedText(comments, maxComments) == Success(Join(Entries(sel.value), "\n\n"))
  {
    SortDescCharacterization(comments, SortByRecommends(comments), Recommends);
    SortDescPermutation(comments, Recommends);
  }

  /** Position in the sorted list of the `i`-th selected comment when
      sampling: the head is taken verbatim, the tail at a fixed stride. */
  function SampleIndex(half: int, step: int, i: int): int {
    if i < half then i else half + (i - half) * step
  }

  lemma StrideMonotone(a: int, b: int, step: int)
    requires 0 <= a < b && step >= 1
    ensures a * step < b * step
  {
    assert b * step == a * step + (b - a) * step;
  }

  lemma StrideFits(len: int, half: int)
    requires len > half >= 1
    ensures len / half >= 1 && half * (len / half) <= len
  {
  }

  /** Enough elements survive the stride to fill the tail. */
  lemma StrideCoversTail<T>(remaining: seq<T>, half: int)
    requires |remaining| > half >= 1
    ensures |remaining| / half >= 1
    ensures |EveryNth(remaining, |remaining| / half)| >= half
  {
    var step := |remaining| / half;
    StrideFits(|remaining|, half);
    EveryNthLength(remaining, step);
    var picked := EveryNth(remaining, step);
    if |picked| < half {
      StrideMonotone(|picked|, half, step);
    }
  }

  /** How the sampled selection is put together: the head, then the first
      `half` elements of the tail taken at the stride. */
  lemma SampleParts<T>(sorted: seq<T>, maxComments: int)
    requires |sorted| > maxComments >= 2
    ensures var half := maxComments / 2;
      var remaining := sorted[half..];
      var step := |remaining| / half;
      && half >= 1
      && |remaining| > half
      && step >= 1
      && |EveryNth(remaining, step)| >= half
      && SelectForAnalysis(sorted, maxComments) == Success(sorted[..half] + EveryNth(remaining, step)[..half])
  {
    var half := maxComments / 2;
    StrideCoversTail(sorted[half..], half);
  }

  /** The `i`-th entry of the sample is the element at `SampleIndex`. */
  lemma SampleAt<T>(sorted: seq<T>, half: int, step: int, i: int)
    requires 1 <= half && |sorted| - half > half && step >= 1
    requires |EveryNth(sorted[half..], step)| >= half
    requires 0 <= i < 2 * half
    ensures var sample := sorted[..half] + EveryNth(sorted[half..], step)[..half];
      0 <= SampleIndex(half, step, i) < |sorted| && sample[i] == sorted[SampleIndex(half, step, i)]
  {
    if i >= half {
      var remaining := sorted[half..];
      EveryNthAt(remaining, step, i - half);
      assert remaining[(i - half) * step] == sorted[half + (i - half) * step];
    }
  }

  /** The shape of a sampled selection over any sorted list. */
  lemma SampleShape<T>(sorted: seq<T>, maxComments: int)
    requires |sorted| > maxComments >= 2
    ensures var half := maxComments / 2;
      var step := (|sorted| - half) / half;
      var sel := SelectForAnalysis(sorted, maxComments);
      && |sorted| - half > half
      && step >= 1
      && sel.Success?
      && |sel.value| == 2 * half == maxComments - maxComments % 2
      && sel.value[..half] == sorted[..half]
      && (forall i :: 0 <= i < 2 * half ==>
            0 <= SampleIndex(half, step, i) < |sorted| && sel.value[i] == sorted[SampleIndex(half, step, i)])
  {
    var half := maxComments / 2;
    var step := (|sorted| - half) / half;
    SampleParts(sorted, maxComments);
    var sel := SelectForAnalysis(sorted, maxComments);
    forall i | 0 <= i < 2 * half
      ensures 0 <= SampleIndex(half, step, i) < |sorted| && sel.value[i] == sorted[SampleIndex(half, step, i)]
    {
      SampleAt(sorted, half, step, i);
    }
  }

  /** Sampled positions strictly increase, so no comment is picked twice. */
  lemma SampleIndexIncreasing(half: int, step: int, n: int)
    requires half >= 0 && step >= 1
    ensures forall i, j :: 0 <= i < j < n ==> SampleIndex(half, step, i) < SampleIndex(half, step, j)
  {
    forall i, j | 0 <= i < j < n ensures SampleIndex(half, step, i) < SampleIndex(half, step, j) {
      if i >= half {
        StrideMonotone(i - half, j - half, step);
      } else if j >= half {
        assert (j - half) * step >= 0;
      }
    }
  }

  /** With more comments than the limit (and a limit of at least 2): the
      selection is the top `maxComments // 2` comments followed by every
      `step`-th of the rest, `maxComments // 2` of them, so it has
      `maxComments` entries rounded down to even; it is a duplicate-free
      subsequence of the sorted list whose head outranks everything else. */
  lemma SampledSelection(comments: seq<Comment>, maxComments: int)
    requires |comments| > maxComments >= 2
    ensures var sorted := SortByRecommends(comments);
      var half := maxComments / 2;
      var step := (|comments| - half) / half;
      var sel := SelectForAnalysis(sorted, maxComments);
      && |sorted| == |comments|
      && step >= 1
      && sel.Success?
      && |sel.value| == 2 * half == maxComments - maxComments % 2
      && sel.value[..half] == sorted[..half]
      && (forall i :: 0 <= i < 2 * half ==>
            0 <= SampleIndex(half, step, i) < |sorted| && sel.value[i] == sorted[SampleIndex(half, step, i)])
      && (forall i, j :: 0 <= i < j < 2 * half ==> SampleIndex(half, step, i) < SampleIndex(half, step, j))
      && (forall i, j :: 0 <= i < half <= j < |sorted| ==> Recommends(sorted[i]) >= Recommends(sorted[j]))
  {
    var sorted := SortByRecommends(comments);
    var half := maxComments / 2;
    var step := (|comments| - half) / half;
    SortDescLength(comments, Recommends);
    SortDescNonIncreasing(comments, Recommends);
    assert step == (|sorted| - half) / half;
    SampleShape(sorted, maxComments);
    SampleIndexIncreasing(half, step, 2 * half);
  }

  /** The source divides by zero exactly when there are more comments than
      the limit and the limit is below 2. */
  lemma SelectionFails(comments: seq<Comment>, maxComments: int)
    requires maxComments >= 0
    ensures SelectForAnalysis(SortByRecommends(comments), maxComments).Failure?
            <==> |comments| > maxComments && maxComments < 2
    ensures PreparedText(comments, maxComments).Failure?
            <==> |comments| > maxComments && maxComments < 2
  {
    SortDescLength(comments, Recommends);
  }
}
