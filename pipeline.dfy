/** `extract_commercial_opportunities_aggregated` and
    `extract_commercial_opportunities_batched` (comment_analyzer.py:222-360):
    sort the comments, cut them into batches, analyse each batch in turn
    and merge what comes back. The analysis service and `json.loads` are
    parameters; the progress callback is recorded as a trace of events. */
module Pipeline {
  import opened Wrappers
  import opened Text
  import opened StableSort
  import opened Comments
  import opened Batching
  import opened Recovery
  import opened Merging

  /** What the analysis client gives back for one prompt: the reply text,
      or the exception it raised. */
  datatype Reply = Reply(text: string) | ServiceError(error: string)

  /** Everything observable a run does, in order: a progress report
      `callback(i + 1, total)` and an analysis request with its comment text. */
  datatype Event = Progress(batch: int, total: int) | Request(commentsText: string)

  const ParseFailure: string := "Failed to parse commercial opportunities"
  const RangeStepZero: string := "range() arg 3 must not be zero"

  /** `extract_commercial_opportunities_aggregated` (comment_analyzer.py:222-245):
      ask the service about the comment text, then parse the reply with
      the brace-span recovery. A `Failure` is an exception that escapes. */
  function AnalyzeAggregated(
    service: (string, string, int) -> Reply, loads: string -> Option<AnalysisResult>,
    commentsText: string, keyword: string, articleCount: int): Result<AnalysisResult>
  {
    match service(commentsText, keyword, articleCount)
    case ServiceError(e) => Failure(e)
    case Reply(text) =>
      match ParseWithRecovery(text, loads)
      case Parsed(v) => Success(v)
      case NoObject(raw) => Success(Failed(ParseFailure, raw))
      case Raised(e) => Failure(e)
  }

  /** The analysis the dispatch loop applies to each batch's text, with the
      service, keyword and article count of the run. */
  function Analyzer(
    service: (string, string, int) -> Reply, loads: string -> Option<AnalysisResult>,
    keyword: string, articleCount: int): string -> Result<AnalysisResult>
  {
    text => AnalyzeAggregated(service, loads, text, keyword, articleCount)
  }

  /** A reply that parses is the result; a reply that does not parse and
      holds no `{` before a `}` gives the error-tagged result carrying the
      reply; otherwise the brace span is parsed, and the call raises when
      that fails too. A service exception escapes unchanged. */
  lemma AnalyzeOutcomes(
    service: (string, string, int) -> Reply, loads: string -> Option<AnalysisResult>,
    commentsText: string, keyword: string, articleCount: int)
    ensures var reply := service(commentsText, keyword, articleCount);
      var r := AnalyzeAggregated(service, loads, commentsText, keyword, articleCount);
      && (reply.ServiceError? ==> r == Failure(reply.error))
      && (reply.Reply? && loads(reply.text).Some? ==> r == Success(loads(reply.text).value))
      && (reply.Reply? && loads(reply.text).None? && !HasBracePair(reply.text) ==>
            r == Success(Failed(ParseFailure, reply.text)))
      && (reply.Reply? && loads(reply.text).None? && HasBracePair(reply.text) ==>
            && BraceSpan(reply.text).Some?
            && (r.Failure? <==> loads(BraceSpan(reply.text).value).None?)
            && (r.Success? ==> r.value == loads(BraceSpan(reply.text).value).value))
  {
    var reply := service(commentsText, keyword, articleCount);
    if reply.Reply? {
      BraceSpanSpec(reply.text);
    }
  }

  /** The batches, or the exception `range` raises for a zero step; a
      negative step gives an empty range. */
  function MakeBatches(sorted: seq<Comment>, batchSize: int): Result<seq<seq<Comment>>> {
    if batchSize == 0 then Failure(RangeStepZero)
    else if batchSize < 0 then Success([])
    else Success(Partition(sorted, batchSize))
  }

  /** The results gathered so far (or the exception that ended the run)
      and the events so far. */
  datatype Run = Run(results: Result<seq<AnalysisResult>>, trace: seq<Event>)

  /** Iteration `k` (counted from 1) of the dispatch loop
      (comment_analyzer.py:348-357), given the batch's formatted text:
      report progress, analyse the text; an exception ends the run. */
  function DispatchStep(
    prior: Run, prepared: Result<string>, k: int, total: int, reportProgress: bool, analyze: string -> Result<AnalysisResult>): Run
  {
    if prior.results.Failure? then prior
    else
      var trace := prior.trace + (if reportProgress then [Progress(k, total)] else []);
      match prepared
      case Failure(e) => Run(Failure(e), trace)
      case Success(text) =>
        match analyze(text)
        case Failure(e) => Run(Failure(e), trace + [Request(text)])
        case Success(r) => Run(Success(prior.results.value + [r]), trace + [Request(text)])
  }

  /** The dispatch loop after its first `k` iterations, given the
      formatted text (or the formatting exception) of every batch. */
  function Dispatch(
    prepared: seq<Result<string>>, k: nat, reportProgress: bool, analyze: string -> Result<AnalysisResult>): Run
    requires k <= |prepared|
  {
    if k == 0 then Run(Success([]), [])
    else
      DispatchStep(Dispatch(prepared, k - 1, reportProgress, analyze),
        prepared[k - 1], k, |prepared|, reportProgress, analyze)
  }

  /** `prepare_comments_for_analysis(batch, max_comments=len(batch))` for
      every batch. */
  function PreparedTexts(batches: seq<seq<Comment>>): (r: seq<Result<string>>)
    ensures |r| == |batches|
  {
    if batches == [] then []
    else
      var last := batches[|batches| - 1];
      PreparedTexts(batches[..|batches| - 1]) + [PreparedText(last, |last|)]
  }

  /** What a whole run returns (or raises), with its events. */
  function Batched(
    comments: seq<Comment>, keyword: string, articleCount: int, batchSize: int, reportProgress: bool,
    service: (string, string, int) -> Reply, loads: string -> Option<AnalysisResult>): (Result<MergedResult>, seq<Event>)
  {
    match MakeBatches(SortByRecommends(comments), batchSize)
    case Failure(e) => (Failure(e), [])
    case Success(batches) =>
      if batches == [] then (Success(MergedResult([], [], [])), [])
      else
        var run := Dispatch(PreparedTexts(batches), |batches|, reportProgress, Analyzer(service, loads, keyword, articleCount));
        match run.results
        case Failure(e) => (Failure(e), run.trace)
        case Success(results) => (Success(Merge(results)), run.trace)
  }

  /** One step of the batch split: the batch starting at `i` and the
      batches after it. */
  lemma PartitionStep(xs: seq<Comment>, i: nat, size: nat)
    requires size > 0 && i < |xs|
    ensures Partition(xs[i..], size) == [xs[i..Min(i + size, |xs|)]] + Partition(xs[Min(i + size, |xs|)..], size)
  {
    if |xs| - i > size {
      assert xs[i..][..size] == xs[i..i + size];
      assert xs[i..][size..] == xs[i + size..];
    } else {
      assert xs[i..Min(i + size, |xs|)] == xs[i..];
      assert xs[Min(i + size, |xs|)..] == [];
    }
  }

  /** Once an exception has ended the run, later iterations change nothing. */
  lemma {:induction false} DispatchStaysFailed(
    prepared: seq<Result<string>>, k: nat, n: nat, reportProgress: bool, analyze: string -> Result<AnalysisResult>)
    requires k <= n <= |prepared|
    requires Dispatch(prepared, k, reportProgress, analyze).results.Failure?
    ensures Dispatch(prepared, n, reportProgress, analyze)
         == Dispatch(prepared, k, reportProgress, analyze)
    decreases n - k
  {
    if k < n {
      DispatchStaysFailed(prepared, k, n - 1, reportProgress, analyze);
    }
  }

  /** The text a batch is analysed with when its comments are already in
      descending order of likes: every comment, in the batch's order,
      numbered from 1. */
  function BatchText(batch: seq<Comment>): string {
    Join(Entries(batch), "\n\n")
  }

  /** `prepare_comments_for_analysis(batch, max_comments=len(batch))` on a
      sorted batch keeps and formats the batch as it is. */
  lemma SortedBatchText(batch: seq<Comment>)
    requires NonIncreasing(batch, Recommends)
    ensures PreparedText(batch, |batch|) == Success(BatchText(batch))
  {
    SortDescOfSorted(batch, Recommends);
  }

  lemma SortedSlice(sorted: seq<Comment>, size: int, i: nat)
    requires size > 0 && NonIncreasing(sorted, Recommends)
    requires i < |Partition(sorted, size)|
    ensures i * size < |sorted|
    ensures Partition(sorted, size)[i] == sorted[i * size .. Min(i * size + size, |sorted|)]
    ensures NonIncreasing(Partition(sorted, size)[i], Recommends)
  {
    PartitionSlice(sorted, size, i);
    SliceNonIncreasing(sorted, Recommends, i * size, Min(i * size + size, |sorted|));
  }

  /** The batches are consecutive slices of the sorted comments, at most
      `size` long, each still in descending order of likes. */
  lemma SortedBatches(comments: seq<Comment>, size: int)
    requires size > 0
    ensures var sorted := SortByRecommends(comments);
      var batches := Partition(sorted, size);
      && Concat(batches) == sorted
      && (forall i :: 0 <= i < |batches| ==>
            && i * size < |sorted|
            && batches[i] == sorted[i * size .. Min(i * size + size, |sorted|)]
            && NonIncreasing(batches[i], Recommends))
  {
    var sorted := SortByRecommends(comments);
    var batches := Partition(sorted, size);
    SortDescNonIncreasing(comments, Recommends);
    PartitionConcat(sorted, size);
    forall i | 0 <= i < |batches|
      ensures i * size < |sorted|
      ensures batches[i] == sorted[i * size .. Min(i * size + size, |sorted|)]
      ensures NonIncreasing(batches[i], Recommends)
    {
      SortedSlice(sorted, size, i);
    }
  }

  /** 450 comments in batches of 200 make three batches of 200, 200 and 50. */
  lemma DefaultBatchSizes(comments: seq<Comment>)
    requires |comments| == 450
    ensures var batches := Partition(SortByRecommends(comments), 200);
      |batches| == 3 && |batches[0]| == 200 && |batches[1]| == 200 && |batches[2]| == 50
  {
    var sorted := SortByRecommends(comments);
    SortDescLength(comments, Recommends);
    PartitionCount(sorted, 200);
    PartitionShape(sorted, 200);
  }

  /** While every analysis returns, the loop gathers one result per batch,
      in batch order, and its events are (optionally) a progress report
      followed by the request for each batch in turn. */
  lemma {:induction false} PreparedTextsAt(batches: seq<seq<Comment>>, k: nat)
    requires k < |batches|
    ensures PreparedTexts(batches)[k] == PreparedText(batches[k], |batches[k]|)
  {
    if k < |batches| - 1 {
      PreparedTextsAt(batches[..|batches| - 1], k);
    }
  }

  /** One more iteration of the dispatch loop, for the `k`-th text; an
      exception ends the whole run there. */
  lemma DispatchNext(
    prepared: seq<Result<string>>, k: nat, reportProgress: bool, analyze: string -> Result<AnalysisResult>,
    gathered: seq<AnalysisResult>, trace: seq<Event>, next: Result<seq<AnalysisResult>>, trace': seq<Event>)
    requires k < |prepared|
    requires Dispatch(prepared, k, reportProgress, analyze) == Run(Success(gathered), trace)
    requires Run(next, trace')
      == DispatchStep(Run(Success(gathered), trace), prepared[k], k + 1, |prepared|, reportProgress, analyze)
    ensures Dispatch(prepared, k + 1, reportProgress, analyze) == Run(next, trace')
    ensures next.Failure? ==> Dispatch(prepared, |prepared|, reportProgress, analyze) == Run(next, trace')
  {
    if next.Failure? {
      DispatchStaysFailed(prepared, k + 1, |prepared|, reportProgress, analyze);
    }
  }

  lemma {:induction false} DispatchAllSucceed(
    prepared: seq<Result<string>>, k: nat, reportProgress: bool, analyze: string -> Result<AnalysisResult>)
    requires k <= |prepared|
    requires forall i :: 0 <= i < k ==>
      prepared[i].Success? && analyze(prepared[i].value).Success?
    ensures var run := Dispatch(prepared, k, reportProgress, analyze);
      && run.results.Success?
      && |run.results.value| == k
      && (forall i :: 0 <= i < k ==>
            run.results.value[i] == analyze(prepared[i].value).value)
      && |run.trace| == (if reportProgress then 2 * k else k)
      && (reportProgress ==> forall i :: 0 <= i < k ==>
            run.trace[2 * i] == Progress(i + 1, |prepared|) && run.trace[2 * i + 1] == Request(prepared[i].value))
      && (!reportProgress ==> forall i :: 0 <= i < k ==> run.trace[i] == Request(prepared[i].value))
  {
    if k > 0 {
      DispatchAllSucceed(prepared, k - 1, reportProgress, analyze);
      var prior := Dispatch(prepared, k - 1, reportProgress, analyze);
      var run := Dispatch(prepared, k, reportProgress, analyze);
      var text := prepared[k - 1].value;
      var progress := if reportProgress then [Progress(k, |prepared|)] else [];
      assert run.trace == prior.trace + progress + [Request(text)];
      if reportProgress {
        forall i | 0 <= i < k
          ensures run.trace[2 * i] == Progress(i + 1, |prepared|) && run.trace[2 * i + 1] == Request(prepared[i].value)
        {
          if i < k - 1 {
            assert run.trace[2 * i] == prior.trace[2 * i];
            assert run.trace[2 * i + 1] == prior.trace[2 * i + 1];
          }
        }
      } else {
        forall i | 0 <= i < k
          ensures run.trace[i] == Request(prepared[i].value)
        {
          if i < k - 1 {
            assert run.trace[i] == prior.trace[i];
          }
        }
      }
    }
  }

  /** The first analysis that raises ends the loop: its exception is the
      outcome, and the events stop right after that batch's request. */
  lemma DispatchFirstFailure(
    prepared: seq<Result<string>>, k: nat, reportProgress: bool, analyze: string -> Result<AnalysisResult>)
    requires k < |prepared|
    requires forall i :: 0 <= i <= k ==> prepared[i].Success?
    requires forall i :: 0 <= i < k ==>
      analyze(prepared[i].value).Success?
    requires analyze(prepared[k].value).Failure?
    ensures var run := Dispatch(prepared, |prepared|, reportProgress, analyze);
      && run.results == Failure(analyze(prepared[k].value).error)
      && |run.trace| == (if reportProgress then 2 * (k + 1) else k + 1)
      && run.trace[|run.trace| - 1] == Request(prepared[k].value)
  {
    DispatchAllSucceed(prepared, k, reportProgress, analyze);
    DispatchStaysFailed(prepared, k + 1, |prepared|, reportProgress, analyze);
  }

  /** A non-empty comment list and a positive batch size dispatch every batch. */
  lemma BatchedDispatches(
    comments: seq<Comment>, keyword: string, articleCount: int, batchSize: int, reportProgress: bool,
    service: (string, string, int) -> Reply, loads: string -> Option<AnalysisResult>)
    requires batchSize > 0 && |comments| > 0
    ensures var batches := Partition(SortByRecommends(comments), batchSize);
      var run := Dispatch(PreparedTexts(batches), |batches|, reportProgress, Analyzer(service, loads, keyword, articleCount));
      && batches != []
      && (run.results.Success? ==>
            Batched(comments, keyword, articleCount, batchSize, reportProgress, service, loads) == (Success(Merge(run.results.value)), run.trace))
      && (run.results.Failure? ==>
            Batched(comments, keyword, articleCount, batchSize, reportProgress, service, loads) == (Failure(run.results.error), run.trace))
  {
    assert SortByRecommends(comments) != [];
  }

  /** The dispatch loop over the batches of the sorted comments, when every
      analysis returns: one result per batch, and the events of each batch
      in turn. */
  lemma SortedDispatchSucceeds(
    comments: seq<Comment>, batchSize: int, reportProgress: bool, analyze: string -> Result<AnalysisResult>)
    requires batchSize > 0
    requires var batches := Partition(SortByRecommends(comments), batchSize);
      forall i :: 0 <= i < |batches| ==> analyze(BatchText(batches[i])).Success?
    ensures var batches := Partition(SortByRecommends(comments), batchSize);
      var run := Dispatch(PreparedTexts(batches), |batches|, reportProgress, analyze);
      && run.results.Success?
      && |run.results.value| == |batches|
      && (forall i :: 0 <= i < |batches| ==> run.results.value[i] == analyze(BatchText(batches[i])).value)
      && |run.trace| == (if reportProgress then 2 * |batches| else |batches|)
      && (reportProgress ==> forall i :: 0 <= i < |batches| ==>
            run.trace[2 * i] == Progress(i + 1, |batches|) && run.trace[2 * i + 1] == Request(BatchText(batches[i])))
      && (!reportProgress ==> forall i :: 0 <= i < |batches| ==> run.trace[i] == Request(BatchText(batches[i])))
  {
    var batches := Partition(SortByRecommends(comments), batchSize);
    var prepared := PreparedTexts(batches);
    SortedBatches(comments, batchSize);
    forall i | 0 <= i < |batches|
      ensures prepared[i].Success? && prepared[i].value == BatchText(batches[i])
    {
      PreparedTextsAt(batches, i);
      SortedBatchText(batches[i]);
    }
    DispatchAllSucceed(prepared, |batches|, reportProgress, analyze);
  }

  /** When every batch's analysis returns, the run returns the merge of
      the per-batch results, in batch order, and reports progress
      `(1, n), ..., (n, n)` before the corresponding requests. */
  lemma BatchedAllSucceed(
    comments: seq<Comment>, keyword: string, articleCount: int, batchSize: int, reportProgress: bool,
    service: (string, string, int) -> Reply, loads: string -> Option<AnalysisResult>)
    returns (results: seq<AnalysisResult>)
    requires batchSize > 0 && |comments| > 0
    requires var batches := Partition(SortByRecommends(comments), batchSize);
      forall i :: 0 <= i < |batches| ==>
        AnalyzeAggregated(service, loads, BatchText(batches[i]), keyword, articleCount).Success?
    ensures var batches := Partition(SortByRecommends(comments), batchSize);
      && |batches| > 0
      && |results| == |batches|
      && (forall i :: 0 <= i < |batches| ==>
            results[i] == AnalyzeAggregated(service, loads, BatchText(batches[i]), keyword, articleCount).value)
    ensures var batches := Partition(SortByRecommends(comments), batchSize);
      var run := Batched(comments, keyword, articleCount, batchSize, reportProgress, service, loads);
      && run.0 == Success(Merge(results))
      && |run.1| == (if reportProgress then 2 * |batches| else |batches|)
      && (reportProgress ==> forall i :: 0 <= i < |batches| ==>
            run.1[2 * i] == Progress(i + 1, |batches|) && run.1[2 * i + 1] == Request(BatchText(batches[i])))
      && (!reportProgress ==> forall i :: 0 <= i < |batches| ==> run.1[i] == Request(BatchText(batches[i])))
  {
    var batches := Partition(SortByRecommends(comments), batchSize);
    var analyze := Analyzer(service, loads, keyword, articleCount);
    SortedDispatchSucceeds(comments, batchSize, reportProgress, analyze);
    BatchedDispatches(comments, keyword, articleCount, batchSize, reportProgress, service, loads);
    var run := Dispatch(PreparedTexts(batches), |batches|, reportProgress, analyze);
    results := run.results.value;
  }

  /** Dispatching the sorted batches when batch `k` is the first whose
      analysis raises. */
  lemma SortedDispatchFails(
    comments: seq<Comment>, batchSize: int, reportProgress: bool, analyze: string -> Result<AnalysisResult>, k: nat)
    requires batchSize > 0
    requires var batches := Partition(SortByRecommends(comments), batchSize);
      && k < |batches|
      && (forall i :: 0 <= i < k ==> analyze(BatchText(batches[i])).Success?)
      && analyze(BatchText(batches[k])).Failure?
    ensures var batches := Partition(SortByRecommends(comments), batchSize);
      var run := Dispatch(PreparedTexts(batches), |batches|, reportProgress, analyze);
      && run.results == Failure(analyze(BatchText(batches[k])).error)
      && |run.trace| == (if reportProgress then 2 * (k + 1) else k + 1)
      && run.trace[|run.trace| - 1] == Request(BatchText(batches[k]))
  {
    var batches := Partition(SortByRecommends(comments), batchSize);
    var prepared := PreparedTexts(batches);
    SortedBatches(comments, batchSize);
    forall i | 0 <= i < |batches|
      ensures prepared[i].Success? && prepared[i].value == BatchText(batches[i])
    {
      PreparedTextsAt(batches, i);
      SortedBatchText(batches[i]);
    }
    assert |prepared| == |batches|;
    DispatchFirstFailure(prepared, k, reportProgress, analyze);
  }

  /** There is a batch only when there is a comment. */
  lemma SomeBatchHasComments(comments: seq<Comment>, batchSize: int)
    requires batchSize > 0 && Partition(SortByRecommends(comments), batchSize) != []
    ensures |comments| > 0
  {
    SortDescLength(comments, Recommends);
  }

  /** When the analysis of batch `k` is the first to raise, the run raises
      that exception after `k + 1` requests, the last for batch `k`. */
  lemma BatchedFirstFailure(
    comments: seq<Comment>, keyword: string, articleCount: int, batchSize: int, reportProgress: bool,
    service: (string, string, int) -> Reply, loads: string -> Option<AnalysisResult>, k: nat)
    requires batchSize > 0
    requires var batches := Partition(SortByRecommends(comments), batchSize);
      && k < |batches|
      && (forall i :: 0 <= i < k ==>
            AnalyzeAggregated(service, loads, BatchText(batches[i]), keyword, articleCount).Success?)
      && AnalyzeAggregated(service, loads, BatchText(batches[k]), keyword, articleCount).Failure?
    ensures var batches := Partition(SortByRecommends(comments), batchSize);
      var run := Batched(comments, keyword, articleCount, batchSize, reportProgress, service, loads);
      && run.0 == Failure(AnalyzeAggregated(service, loads, BatchText(batches[k]), keyword, articleCount).error)
      && |run.1| == (if reportProgress then 2 * (k + 1) else k + 1)
      && run.1[|run.1| - 1] == Request(BatchText(batches[k]))
  {
    var batches := Partition(SortByRecommends(comments), batchSize);
    SomeBatchHasComments(comments, batchSize);
    var analyze := Analyzer(service, loads, keyword, articleCount);
    SortedDispatchFails(comments, batchSize, reportProgress, analyze, k);
    BatchedDispatches(comments, keyword, articleCount, batchSize, reportProgress, service, loads);
  }

  /** A zero batch size raises before anything is sent; no comments, or a
      negative batch size, give the canonical empty result with no event. */
  lemma BatchedDegenerate(
    comments: seq<Comment>, keyword: string, articleCount: int, batchSize: int, reportProgress: bool,
    service: (string, string, int) -> Reply, loads: string -> Option<AnalysisResult>)
    ensures batchSize == 0 ==>
      Batched(comments, keyword, articleCount, batchSize, reportProgress, service, loads) == (Failure(RangeStepZero), [])
    ensures batchSize != 0 && (comments == [] || batchSize < 0) ==>
      Batched(comments, keyword, articleCount, batchSize, reportProgress, service, loads)
        == (Success(MergedResult([], [], [])), [])
  {
  }

  /** The batch split (comment_analyzer.py:339-341): slices of `size`
      starting at 0, `size`, `2 * size`, ... while inside the list. */
  method SplitIntoBatches(sorted: seq<Comment>, size: int) returns (batches: seq<seq<Comment>>)
    requires size > 0
    ensures batches == Partition(sorted, size)
  {
    batches := [];
    var i := 0;
    while i < |sorted|
      invariant 0 <= i <= |sorted| || (i > |sorted| && |sorted| > 0)
      invariant batches + Partition(sorted[Min(i, |sorted|)..], size) == Partition(sorted, size)
      decreases |sorted| - i
    {
      PartitionStep(sorted, i, size);
      batches := batches + [sorted[i..Min(i + size, |sorted|)]];
      i := i + size;
    }
    assert sorted[Min(i, |sorted|)..] == [];
  }

  /** One iteration of the dispatch loop (comment_analyzer.py:349-357):
      report progress, format the batch, analyse it and keep its result. */
  method DispatchBatch(
    batch: seq<Comment>, k: nat, total: int, gathered: seq<AnalysisResult>, trace: seq<Event>,
    keyword: string, articleCount: int, reportProgress: bool,
    service: (string, string, int) -> Reply, loads: string -> Option<AnalysisResult>)
    returns (results: Result<seq<AnalysisResult>>, trace': seq<Event>)
    ensures Run(results, trace') == DispatchStep(Run(Success(gathered), trace), PreparedText(batch, |batch|),
      k + 1, total, reportProgress, Analyzer(service, loads, keyword, articleCount))
  {
    trace' := trace;
    if reportProgress {
      trace' := trace' + [Progress(k + 1, total)];
    }
    var commentsText := PrepareCommentsForAnalysis(batch, |batch|);
    if commentsText.Failure? {
      return Failure(commentsText.error), trace';
    }
    trace' := trace' + [Request(commentsText.value)];
    var result := AnalyzeAggregated(service, loads, commentsText.value, keyword, articleCount);
    if result.Failure? {
      return Failure(result.error), trace';
    }
    results := Success(gathered + [result.value]);
  }

  /** Iteration `k` of the dispatch loop, placed in the run so far. */
  method DispatchIteration(
    batches: seq<seq<Comment>>, k: nat, gathered: seq<AnalysisResult>, trace: seq<Event>,
    keyword: string, articleCount: int, reportProgress: bool,
    service: (string, string, int) -> Reply, loads: string -> Option<AnalysisResult>)
    returns (results: Result<seq<AnalysisResult>>, trace': seq<Event>)
    requires k < |batches|
    requires Dispatch(PreparedTexts(batches), k, reportProgress, Analyzer(service, loads, keyword, articleCount))
      == Run(Success(gathered), trace)
    ensures Dispatch(PreparedTexts(batches), k + 1, reportProgress, Analyzer(service, loads, keyword, articleCount))
      == Run(results, trace')
    ensures results.Failure? ==>
      Dispatch(PreparedTexts(batches), |batches|, reportProgress, Analyzer(service, loads, keyword, articleCount))
        == Run(results, trace')
  {
    results, trace' := DispatchBatch(batches[k], k, |batches|, gathered, trace,
      keyword, articleCount, reportProgress, service, loads);
    PreparedTextsAt(batches, k);
    DispatchNext(PreparedTexts(batches), k, reportProgress, Analyzer(service, loads, keyword, articleCount),
      gathered, trace, results, trace');
  }

  /** The dispatch loop (comment_analyzer.py:348-357), stopping at the
      first exception. */
  method DispatchAll(
    batches: seq<seq<Comment>>, keyword: string, articleCount: int, reportProgress: bool,
    service: (string, string, int) -> Reply, loads: string -> Option<AnalysisResult>)
    returns (results: Result<seq<AnalysisResult>>, trace: seq<Event>)
    ensures Run(results, trace) == Dispatch(PreparedTexts(batches), |batches|, reportProgress, Analyzer(service, loads, keyword, articleCount))
  {
    var gathered: seq<AnalysisResult> := [];
    trace := [];
    var k := 0;
    while k < |batches|
      invariant 0 <= k <= |batches|
      invariant Dispatch(PreparedTexts(batches), k, reportProgress, Analyzer(service, loads, keyword, articleCount))
        == Run(Success(gathered), trace)
    {
      var next, trace' := DispatchIteration(batches, k, gathered, trace,
        keyword, articleCount, reportProgress, service, loads);
      if next.Failure? {
        return next, trace';
      }
      gathered, trace := next.value, trace';
      k := k + 1;
    }
    results := Success(gathered);
  }

  /** `extract_commercial_opportunities_batched` (comment_analyzer.py:315-360). */
  method ExtractCommercialOpportunitiesBatched(
    comments: seq<Comment>, keyword: string, articleCount: int, batchSize: int, reportProgress: bool,
    service: (string, string, int) -> Reply, loads: string -> Option<AnalysisResult>)
    returns (outcome: Result<MergedResult>, trace: seq<Event>)
    ensures (outcome, trace) == Batched(comments, keyword, articleCount, batchSize, reportProgress, service, loads)
  {
    var sorted := SortByRecommends(comments);
    if batchSize == 0 {
      return Failure(RangeStepZero), [];
    }
    var batches: seq<seq<Comment>> := [];
    if batchSize > 0 {
      batches := SplitIntoBatches(sorted, batchSize);
    }
    if batches == [] {
      return Success(MergedResult([], [], [])), [];
    }
    var results;
    results, trace := DispatchAll(batches, keyword, articleCount, reportProgress, service, loads);
    if results.Failure? {
      return Failure(results.error), trace;
    }
    var merged := MergeCommercialResults(results.value);
    outcome := Success(merged);
  }
}
