# Comment analysis core, modelled in Dafny

This project models the part of the Guardian comment analyser that does real
work on data: it selects and formats reader comments for a text-analysis
service, splits a large set of comments into batches, sends each batch out,
recovers a JSON object from a sloppy reply, and merges the per-batch results
into one ranked, de-duplicated report. All of it comes from
`comment_analyzer.py`:

- `clean_html` (lines 37-41) strips tags, collapses whitespace and trims.
  This is module `HtmlCleaning`; the character helpers are in `Text`.
- `prepare_comments_for_analysis` (lines 44-71) is module `Comments`. It sorts
  comments by their like count, keeps the top half of the budget, samples the
  rest with a stride, and formats one line per comment.
- Python's stable `sorted(..., reverse=True)` is used by
  `prepare_comments_for_analysis` (line 50), by
  `extract_commercial_opportunities_batched` (line 336) and by the merge
  (lines 304-305). Module `StableSort` models it once, as an insertion sort on
  sequences, and characterises it completely.
- The brace-span recovery step of `extract_commercial_opportunities_aggregated`
  (lines 237-245) is module `Recovery`. The same span choice recurs in the
  other six analysis calls.
- `merge_commercial_results` (lines 248-312) is module `Merging`. A Python
  dict, which remembers insertion order, is modelled as a `Table`: the key
  order plus a map. The merge is given twice:
  - as a fold over the flattened brands, recommendations and opportunities
    (`Merge`);
  - as the source's loops, in methods proved equal to that fold.

  Module `Remerging` feeds a merged report back into the merge and shows
  that brand mention totals survive it.
- `extract_commercial_opportunities_batched` (lines 315-360) is module
  `Pipeline`, together with the aggregated analysis call (lines 222-245). The
  analysis service and `json.loads` are function parameters. The optional
  progress callback is recorded as a trace of events.

Python exceptions are modelled as `Failure` values of `Result` (module
`Wrappers`):

- `ZeroDivisionError` when `max_comments` is 0 or 1 and there are more
  comments than that;
- `ValueError` for a zero `batch_size`;
- a `JSONDecodeError` from the recovery parse;
- a failing service call.

Where the function's docstring disagrees with the code
(comment_analyzer.py:252-254), the model follows the code:

- Recommendations with the same item have their endorsements summed; the
  docstring says the highest is kept.
- Opportunities are de-duplicated on the lower-cased (target, type) pair,
  and only entries with an empty target are dropped; the docstring describes
  de-duplication by target alone.

Other behaviour of the code that the model keeps:

- A brand's sentiment is overwritten by every later positive or negative
  mention, so the last polarized sentiment wins.
- A selection from more than `max_comments` comments has
  `2 * (max_comments // 2)` entries: one fewer than the budget when the
  budget is odd.
- The recovery parse takes the span from the first `{` to the last `}`
  (`re.search(r'\{.*\}', text, re.DOTALL)` is greedy). A span that does not
  parse raises.
- An exception in any batch's analysis call ends the whole batched run; no
  later batch is sent. Error-tagged results, which the analysis returns
  rather than raises, are skipped by the merge.

## Model

| member | source | states |
|---|---|---|
| Text.LowerSpec | comment_analyzer.py:266 | `.lower()` keeps the length and lower-cases each ASCII capital, leaving every other character alone |
| Text.NatDecimalDigits | comment_analyzer.py:69 | the decimal rendering of a like count is a non-empty digit string with no leading zero (except "0") |
| Text.NatDecimalRoundTrip | comment_analyzer.py:69 | parsing the decimal rendering of a natural number gives back that number |
| Text.DecimalRoundTrip | comment_analyzer.py:69 | the rendering of any integer, sign included, parses back to that integer |
| Text.Take | comment_analyzer.py:305-306 | a slice `[:n]` has length min(n, len) and is a prefix of the list |
| Text.IndexOfSpec | comment_analyzer.py:39 | finds the first occurrence of a character, or the length when absent: the `>` that ends a tag, and the `{` that starts the recovered span |
| HtmlCleaning.StripTags | comment_analyzer.py:39 | defines `re.sub(r'<[^>]+>', ' ', s)`: a left-to-right scan that replaces each leftmost non-overlapping `<`, one or more non-`>` characters, `>` by a space |
| HtmlCleaning.CollapseSpaces | comment_analyzer.py:40 | defines `re.sub(r'\s+', ' ', s)`: each maximal run of whitespace becomes one space |
| HtmlCleaning.Strip | comment_analyzer.py:41 | defines `str.strip()`: leading and trailing whitespace removed |
| HtmlCleaning.CleanHtml | comment_analyzer.py:37-41 | defines `clean_html` as the three steps in order |
| HtmlCleaning.StripTagsChars | comment_analyzer.py:39 | replacing tags adds no character other than a space |
| HtmlCleaning.StripTagsTagFree | comment_analyzer.py:39 | after tag replacement no `<…>` with a non-empty inside is left |
| HtmlCleaning.TagFreeUnchanged | comment_analyzer.py:39 | tag replacement leaves text without tags unchanged |
| HtmlCleaning.CollapseChars | comment_analyzer.py:40 | collapsing whitespace adds no character other than a space |
| HtmlCleaning.CollapseKeepsTagFree | comment_analyzer.py:40 | collapsing whitespace cannot create a tag |
| HtmlCleaning.CollapseSpacesCollapsed | comment_analyzer.py:40 | after collapsing, every whitespace run is one plain space |
| HtmlCleaning.CollapsedUnchanged | comment_analyzer.py:40 | collapsing text that is already collapsed changes nothing |
| HtmlCleaning.CollapsedMeaning | comment_analyzer.py:40 | collapsed text has no two adjacent whitespace characters and only plain spaces as whitespace |
| HtmlCleaning.DropSpacesSpec | comment_analyzer.py:41 | stripping the front removes exactly the leading whitespace, a suffix of the input remains |
| HtmlCleaning.DropTrailingSpacesSpec | comment_analyzer.py:41 | stripping the back removes exactly the trailing whitespace, a prefix of the input remains |
| HtmlCleaning.StripNormalForm | comment_analyzer.py:41 | `strip()` keeps text tag-free and collapsed and leaves it trimmed |
| HtmlCleaning.CleanHtmlNormalForm | comment_analyzer.py:37-41 | cleaned text has no tags, no leading or trailing whitespace, no whitespace pairs, and only plain spaces |
| HtmlCleaning.CleanHtmlKeepsCleanText | comment_analyzer.py:37-41 | text already in that normal form is returned unchanged |
| HtmlCleaning.CleanHtmlIdempotent | comment_analyzer.py:37-41 | cleaning twice equals cleaning once |
| StableSort.SortDesc | comment_analyzer.py:50 | defines `sorted(..., reverse=True)` (also used at lines 304, 305 and 336) as an insertion sort that puts each element before its ties |
| StableSort.InsertElements | comment_analyzer.py:50 | one insertion step adds exactly the new element |
| StableSort.InsertNonIncreasing | comment_analyzer.py:50 | one insertion step keeps a descending list descending |
| StableSort.InsertWithKey | comment_analyzer.py:50 | an insertion places the new element before the equal-key elements already present |
| StableSort.SortDescNonIncreasing | comment_analyzer.py:50 | `sorted(reverse=True)` output is non-increasing in the key |
| StableSort.SortDescLength | comment_analyzer.py:50 | sorting keeps the length |
| StableSort.SortDescPermutation | comment_analyzer.py:50 | sorting is a permutation of its input |
| StableSort.SortDescKeepsTies | comment_analyzer.py:50 | elements with equal keys keep their original relative order (stability) |
| StableSort.StableSortUnique | comment_analyzer.py:50 | two descending lists with the same elements per key, in the same order, are equal |
| StableSort.SortDescCharacterization | comment_analyzer.py:50 | a list is the stable descending sort of the input if and only if it is descending and keeps each key's elements in input order |
| StableSort.SortDescOfSorted | comment_analyzer.py:336 | re-sorting an already descending list changes nothing |
| StableSort.SliceNonIncreasing | comment_analyzer.py:341 | every slice of a descending list is descending |
| Comments.SelectForAnalysis | comment_analyzer.py:53-61 | defines the selection: all sorted comments within budget; otherwise the top `max // 2` plus the first `max // 2` of `remaining[::step]`, failing where the division by zero raises |
| Comments.FormatEntry | comment_analyzer.py:66-69 | defines one entry: index, like count (default 0), author (default Anonymous) and cleaned body (default empty) |
| Comments.Entries | comment_analyzer.py:64-69 | defines the entries of a selection, numbered from 1 |
| Comments.PreparedText | comment_analyzer.py:44-71 | defines `prepare_comments_for_analysis`: sort, select, format, join with blank lines |
| Comments.EveryNthLength | comment_analyzer.py:58 | `xs[::step]` has at least len/step elements |
| Comments.EveryNthOffset | comment_analyzer.py:58 | the k-th element of `xs[::step]` lies k strides into `xs` |
| Comments.EveryNthAt | comment_analyzer.py:58 | the k-th element of `xs[::step]` is `xs[k * step]` |
| Comments.StrideCoversTail | comment_analyzer.py:56-58 | the stride is at least 1 and leaves at least `max_comments // 2` sampled comments |
| Comments.SampleParts | comment_analyzer.py:53-59 | an oversized input selects the top half then the first `max // 2` of every `step`-th remaining comment |
| Comments.SampleAt | comment_analyzer.py:54-59 | the i-th selected comment is the sorted comment at position `SampleIndex(i)` |
| Comments.SampleShape | comment_analyzer.py:53-59 | an oversized selection has `2 * (max // 2)` entries; the head is the sorted top, and each tail entry comes from a computed sorted position |
| Comments.SampleIndexIncreasing | comment_analyzer.py:57-58 | the sampled positions strictly increase, so nothing is picked twice and sort order is kept |
| Comments.SampledSelection | comment_analyzer.py:50-59 | for an oversized input: the top `max // 2` comments come first, the selection is an increasing subsequence of the sorted comments, and every head comment has at least as many likes as any comment after it |
| Comments.SelectionKeepsAll | comment_analyzer.py:50-61 | with no more comments than the budget, all of them are kept in stable like-count order, and the text is their formatted lines joined by blank lines |
| Comments.SelectionFails | comment_analyzer.py:53-57 | the selection raises if and only if there are more comments than the budget and the budget is below 2 |
| Comments.FormatSelected | comment_analyzer.py:64-69 | the loop yields one entry per selected comment, numbered from 1, with likes, author (default Anonymous) and cleaned body |
| Comments.PrepareCommentsForAnalysis | comment_analyzer.py:44-71 | returns the prepared text, or the division-by-zero failure, exactly as the selection and formatting specify |
| Batching.Partition | comment_analyzer.py:339-341 | defines the split into consecutive chunks of `batch_size`, the last one shorter |
| Batching.PartitionConcat | comment_analyzer.py:339-341 | concatenating the batches gives back the sorted comments |
| Batching.PartitionShape | comment_analyzer.py:339-341 | every batch but the last has exactly `batch_size` comments; the last has 1 to `batch_size`, the remainder |
| Batching.PartitionCount | comment_analyzer.py:339-341 | there are ceil(n / batch_size) batches |
| Batching.PartitionSlice | comment_analyzer.py:339-341 | batch i is `sorted[i*B : i*B+B]`, clipped to the end |
| Text.LastIndexOfSpec | comment_analyzer.py:242 | finds the last occurrence of a character, or -1 when absent |
| Recovery.BraceSpan | comment_analyzer.py:242-243 | defines the greedy DOTALL match of `\{.*\}`: from the first `{` to the last `}`, if the first comes before the last |
| Recovery.ParseWithRecovery | comment_analyzer.py:237-245 | defines the recovery: direct parse, else parse of the brace span (raising if it fails), else the raw text for an error record |
| Recovery.BraceSpanSpec | comment_analyzer.py:242-243 | a span exists if and only if some `{` precedes some `}`; it runs from the first `{` to the last `}` |
| Recovery.RecoveryCases | comment_analyzer.py:237-245 | a direct parse wins; with no brace span the raw text is kept for an error record; otherwise the result is the parse of the greedy span, and a failed parse of it raises |
| Pipeline.AnalyzeAggregated | comment_analyzer.py:222-245 | defines one analysis call: the service's reply, parsed with recovery; an unparsable reply with no span gives the error record with the raw text |
| Pipeline.MakeBatches | comment_analyzer.py:339-341 | defines `range(0, n, batch_size)` slicing: step 0 raises `ValueError`, a negative step gives no batches |
| Pipeline.DispatchStep | comment_analyzer.py:348-357 | defines one iteration: optional progress event, then the analysis request, then the result appended or the run ended by the exception |
| Pipeline.Dispatch | comment_analyzer.py:347-357 | defines the loop after its first k iterations |
| Pipeline.Batched | comment_analyzer.py:315-360 | defines the whole batched run: sort, split, the empty report for no batches, dispatch, merge |
| Pipeline.AnalyzeOutcomes | comment_analyzer.py:222-245 | a service error raises; a parsable reply is the result; an unparsable reply with no `{` before a `}` is an error-tagged result; otherwise the span's parse is the result or raises |
| Pipeline.PartitionStep | comment_analyzer.py:339-341 | the batch starting at i is followed by the batches of the rest |
| Pipeline.DispatchStaysFailed | comment_analyzer.py:347-357 | once an iteration has raised, later iterations change nothing |
| Pipeline.SortedBatchText | comment_analyzer.py:353 | formatting a sorted batch with `max_comments=len(batch)` keeps every comment in order, numbered from 1 |
| Pipeline.SortedSlice | comment_analyzer.py:336-341 | each batch of sorted comments is a contiguous slice and is itself sorted |
| Pipeline.SortedBatches | comment_analyzer.py:336-341 | the batches are contiguous sorted slices that together give back the sorted comments |
| Pipeline.DefaultBatchSizes | comment_analyzer.py:319-341 | 450 comments at batch size 200 give batches of 200, 200 and 50 |
| Pipeline.PreparedTextsAt | comment_analyzer.py:353 | each batch's text is prepared from that batch alone, with its own length as the budget |
| Pipeline.DispatchNext | comment_analyzer.py:347-357 | one more iteration extends the run, and an iteration that raises fixes the final outcome |
| Pipeline.DispatchAllSucceed | comment_analyzer.py:347-357 | when no call raises, results are gathered in batch order, and every batch reports progress (if a callback is given) before its request |
| Pipeline.DispatchFirstFailure | comment_analyzer.py:347-357 | the first call that raises ends the run with its error, and its request is the last event |
| Pipeline.BatchedDispatches | comment_analyzer.py:343-360 | for non-empty input the whole run is the dispatch loop over the sorted batches, followed by the merge |
| Pipeline.SortedDispatchSucceeds | comment_analyzer.py:336-357 | when every batch's analysis succeeds, result i is the analysis of batch i's text, and events come one (or two) per batch in order |
| Pipeline.SortedDispatchFails | comment_analyzer.py:336-357 | when batch k's analysis is the first to raise, the run fails with that error after exactly k+1 batches |
| Pipeline.SomeBatchHasComments | comment_analyzer.py:339-344 | batches exist only when there are comments |
| Pipeline.BatchedAllSucceed | comment_analyzer.py:315-360 | when every call succeeds, the outcome is the merge of the per-batch results in batch order, with one progress event and one request per batch |
| Pipeline.BatchedFirstFailure | comment_analyzer.py:315-360 | when batch k's call is the first to raise, the whole run raises that error and batch k is the last one sent |
| Pipeline.BatchedDegenerate | comment_analyzer.py:339-344 | batch size 0 raises before any event; no comments or a negative batch size gives the empty report with no events |
| Pipeline.SplitIntoBatches | comment_analyzer.py:339-341 | the loop over `range(0, n, batch_size)` builds exactly the partition into batches |
| Pipeline.DispatchBatch | comment_analyzer.py:348-357 | one loop iteration: optional progress, format, analyse, then append the result or raise |
| Pipeline.DispatchIteration | comment_analyzer.py:348-357 | an iteration carries the loop from k to k+1 batches, and a raise gives the final outcome |
| Pipeline.DispatchAll | comment_analyzer.py:347-357 | the loop's results and events equal the dispatch specification over all batches |
| Pipeline.ExtractCommercialOpportunitiesBatched | comment_analyzer.py:315-360 | returns exactly the specified outcome and events of a batched run |
| Merging.BrandStep | comment_analyzer.py:269-280 | defines the brand branch: seed a new entry with defaults, or add mentions and let a polarized sentiment overwrite |
| Merging.RecStep | comment_analyzer.py:287-295 | defines the recommendation branch: seed a new entry with defaults, or add endorsements |
| Merging.OppStep | comment_analyzer.py:300-301 | defines the opportunity branch: the first opportunity of a key is kept |
| Merging.Accumulate | comment_analyzer.py:260-302 | defines building an insertion-ordered dict by folding a step over the entries with a valid key |
| Merging.Merge | comment_analyzer.py:248-312 | defines the merged report: brands sorted by mentions, top 8 recommendations by endorsements, first 5 opportunities |
| Merging.ValuesAt | comment_analyzer.py:304-306 | a dict's `.values()` lists each key's value in key order |
| Merging.AccumulateSnoc | comment_analyzer.py:264-302 | folding one more entry either updates its key's value or, for an empty key, changes nothing |
| Merging.AccumulateShape | comment_analyzer.py:264-302 | the merged dict holds exactly the non-empty keys that occur, each once, in order of first occurrence |
| Merging.BrandTableEntries | comment_analyzer.py:265-281 | a merged brand keeps its first name and category, sums mentions (default 1), and has the last polarized sentiment, else the first sentiment (default neutral) |
| Merging.BrandValues | comment_analyzer.py:265-304 | the merged brand list holds one entry per brand key, in first-seen order |
| Merging.MergedBrands | comment_analyzer.py:265-304 | brand keys are the non-empty lower-cased names, in first-seen order, and the output is the stable descending sort by mentions, a permutation of the entries |
| Merging.RecTableEntries | comment_analyzer.py:283-296 | a merged recommendation keeps its first item, category and quote, and sums endorsements (default 1) |
| Merging.RecValues | comment_analyzer.py:283-305 | the merged recommendation list holds one entry per item key, in first-seen order |
| Merging.MergedRecommendations | comment_analyzer.py:283-305 | recommendation keys are the non-empty lower-cased items; ranking is a stable descending sort by endorsements and a permutation |
| Merging.TopRecommendations | comment_analyzer.py:305 | at most 8 recommendations are kept, and none dropped has more endorsements than one kept |
| Merging.TakeOfRanked | comment_analyzer.py:305 | truncating a ranked list keeps the top of the ranking |
| Merging.OppTableEntries | comment_analyzer.py:298-302 | each stored opportunity is the first one seen with its key |
| Merging.OppValues | comment_analyzer.py:298-306 | the opportunity list holds the first opportunity of each key, in first-seen order |
| Merging.MergedOpportunities | comment_analyzer.py:298-306 | opportunity keys are (target, type) with non-empty target, in first-seen order; the first 5 are kept, each the first seen with its key |
| Merging.DistinctOpportunities | comment_analyzer.py:298-306 | no two kept opportunities share a (target, type) key |
| Merging.FlattenSkip | comment_analyzer.py:260-262 | dropping a result that contributes nothing does not change the flattened entries |
| Merging.MergeSkipsFailed | comment_analyzer.py:260-262 | an error-tagged result has no effect on the merge |
| Merging.MergeOfFailures | comment_analyzer.py:260-262 | merging only error-tagged results gives the empty report |
| Merging.NikeTable | comment_analyzer.py:265-281 | "Nike" (3, neutral) then "NIKE" (2, positive) make a single entry under "nike": name Nike, 5 mentions, positive |
| Merging.NikeExample | comment_analyzer.py:248-312 | merging that analysis yields exactly one brand: Nike, 5 mentions, positive |
| Merging.DuplicateOpportunity | comment_analyzer.py:298-302 | a second opportunity with the same (target, type) key is dropped and the first is kept whole |
| Merging.AddBrand | comment_analyzer.py:266-281 | one iteration of the brand loop produces the dict of the brands seen plus this one |
| Merging.AddBrands | comment_analyzer.py:265-281 | the brand loop over one result extends the dict exactly as folding its brands would |
| Merging.AddRecommendation | comment_analyzer.py:284-296 | one iteration of the recommendation loop produces the dict of the items seen plus this one |
| Merging.AddRecommendations | comment_analyzer.py:283-296 | the recommendation loop over one result extends the dict exactly as folding its items would |
| Merging.AddOpportunity | comment_analyzer.py:299-302 | one iteration of the opportunity loop produces the dict of the opportunities seen plus this one |
| Merging.AddOpportunities | comment_analyzer.py:298-302 | the opportunity loop over one result extends the dict exactly as folding its opportunities would |
| Merging.MergeCommercialResults | comment_analyzer.py:248-312 | the merge loops compute exactly the specified merged report |
| Remerging.SumWhereSortDesc | comment_analyzer.py:304 | summing a quantity per key over a sorted list gives the same as over the unsorted list |
| Remerging.BrandListTotals | comment_analyzer.py:265-304 | in the sorted merged brands, a key is listed exactly when it is non-empty and occurs, and its mentions are the sum over all input brands |
| Remerging.MergedTotals | comment_analyzer.py:248-312 | in the merged report, a brand key is listed exactly when some non-error result names it, with the sum of its mentions over all results |
| Remerging.UnmergedBrandsSum | comment_analyzer.py:270 | a merged brand read back as input contributes its stored mentions under its key |
| Remerging.RemergeBrandTotals | comment_analyzer.py:248-312 | merging a merged report with further results lists the same brand keys with the same mention totals as one merge over all results |

## Left out

- The Anthropic client, API-key handling, prompt templates, console output,
  `print_report`, `analyze_comments` and the command-line entry point are not
  modelled. The analysis service is a function parameter returning a reply
  text or an error; `json.loads` is a parameter returning an optional result.
- `app.py`, `guardian_scraper.py` and `prompts.py` (web server, scraping,
  prompt text) are not part of this model.
- The six other analysis calls (`analyze_sentiment`, `extract_themes`,
  `generate_summary`, `generate_followup_ideas`,
  `generate_discussion_questions` and `extract_commercial_opportunities`,
  lines 82-218) are not modelled. They share the first-`{`-to-last-`}` span
  choice (`Recovery.BraceSpan`) but differ in prompt and `max_tokens`; all
  but `extract_commercial_opportunities` (whose error message at line 218
  is the same as at line 245) also differ in their error message. Three of them return one key of the parsed object and wrap the
  error record in a list (lines 120-126, 166-172, 189-195); that result
  shaping is not modelled.
- JSON values are typed: a reply that parses to a non-object, or to fields
  of the wrong type or `null`, is not modelled. An empty or `None` result is
  not distinguished from one with empty lists, which the merge treats the
  same way. Comment records are typed the same way: `numRecommends` is an
  integer or absent, and a `null` like count, on which the sort at line 50
  would raise `TypeError`, is not modelled.
- `Merging.Opportunity`: the source keeps each opportunity dict whole
  (line 301), so a missing `"type"` or `"rationale"` key stays missing in
  the merged report; the model stores `""` for an absent field and so does
  not distinguish an absent key from an empty string.
- Re-merging a merged report: only brands are covered
  (`Remerging.RemergeBrandTotals`: the same keys and mention totals as one
  merge over all results). Recommendations do not survive a re-merge in
  general, because the `[:8]` cut at line 305 drops the endorsements of
  items ranked ninth and below before later results can add to them. The
  first-five cut of opportunities (line 306) is not covered by a lemma.
- A result dict is error-tagged (`Failed`) or has the three lists. Any
  dict with an `"error"` key is treated as `Failed`, whatever else it holds,
  as the merge at line 261 does.
- Text.LowerSpec: `.lower()` is modelled for ASCII only; Unicode case
  mapping, which can change the length of a string, is not modelled.
- Comments.PrepareCommentsForAnalysis: requires `max_comments >= 0`; a
  negative budget, which Python slices from the end, is not modelled (no
  caller passes one).
- A comment's author is a single optional display name. A missing
  `userProfile` and a missing `displayName` both give "Anonymous", so they
  are not told apart.
- The progress callback is modelled as `Progress(i, n)` events in a trace,
  interleaved with `Request(text)` events for the analysis calls. What the
  callback itself does is not modelled.
- Exception types are reduced to their message strings.
