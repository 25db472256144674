/** `analyze_youtube_comments` (backend/api/endpoints/youtube.py): turns the
    per-comment results into counts, percentages and the five most confident
    comments of each label, and maps exceptions to HTTP errors. Fetching the
    comments and analysing them in batch are inputs. */
module YouTubeEndpoint {
  import opened Wrappers
  import opened Models
  import opened YouTubeService

  const ErrorPrefix := "Error analyzing YouTube comments: "
  const NoCommentsDetail := "No comments found for this video"
  const TopCount := 5

  /** `[c for c in cs if c.sentiment == wanted]` */
  function Filter(cs: seq<CommentSentiment>, wanted: string): (r: seq<CommentSentiment>)
    ensures |r| <= |cs|
    ensures forall c :: c in r ==> c.sentiment == wanted
  {
    if cs == [] then []
    else (if cs[0].sentiment == wanted then [cs[0]] else []) + Filter(cs[1..], wanted)
  }

  /** The filter keeps every comment with the label, as often as it occurs, and nothing else. */
  lemma {:induction false} FilterKeepsMatching(cs: seq<CommentSentiment>, wanted: string)
    ensures multiset(Filter(cs, wanted)) <= multiset(cs)
    ensures forall c: CommentSentiment :: c.sentiment == wanted ==> multiset(Filter(cs, wanted))[c] == multiset(cs)[c]
  {
    if cs != [] {
      FilterKeepsMatching(cs[1..], wanted);
      assert cs == [cs[0]] + cs[1..];
    }
  }

  lemma {:induction false} FilterAppend(cs: seq<CommentSentiment>, c: CommentSentiment, wanted: string)
    ensures Filter(cs + [c], wanted) == Filter(cs, wanted) + (if c.sentiment == wanted then [c] else [])
  {
    if cs != [] {
      assert (cs + [c])[1..] == cs[1..] + [c];
      FilterAppend(cs[1..], c, wanted);
    } else {
      assert cs + [c] == [c];
    }
  }

  /** Every result that is not exactly "positive" is counted as negative, so the
      negative count also covers the "neutral" ones and any other label. */
  lemma {:induction false} NegativeCountCoversNeutral(cs: seq<CommentSentiment>)
    ensures |cs| - |Filter(cs, "positive")| >= |Filter(cs, "negative")| + |Filter(cs, "neutral")|
  {
    if cs != [] {
      NegativeCountCoversNeutral(cs[1..]);
    }
  }

  /** The results loop: copies every result and counts "positive" against the rest. */
  method CollectResults(results: seq<CommentSentiment>)
    returns (commentSentiments: seq<CommentSentiment>, positiveCount: nat, negativeCount: nat)
    ensures commentSentiments == results
    ensures positiveCount == |Filter(results, "positive")|
    ensures positiveCount + negativeCount == |results|
  {
    commentSentiments := [];
    positiveCount := 0;
    negativeCount := 0;
    for i := 0 to |results|
      invariant commentSentiments == results[..i]
      invariant positiveCount == |Filter(results[..i], "positive")|
      invariant positiveCount + negativeCount == i
    {
      FilterAppend(results[..i], results[i], "positive");
      assert results[..i + 1] == results[..i] + [results[i]];
      commentSentiments := commentSentiments + [results[i]];
      if results[i].sentiment == "positive" {
        positiveCount := positiveCount + 1;
      } else {
        negativeCount := negativeCount + 1;
      }
    }
    assert results[..|results|] == results;
  }

  /** `(count / total) * 100` */
  function Percentage(count: nat, total: nat): (r: real)
    requires total > 0
    ensures r * total as real == 100.0 * count as real
    ensures count <= total ==> 0.0 <= r <= 100.0
  {
    (count as real / total as real) * 100.0
  }

  lemma PercentagesSplitHundred(positiveCount: nat, negativeCount: nat)
    requires positiveCount + negativeCount > 0
    ensures var total := positiveCount + negativeCount;
      && Percentage(positiveCount, total) + Percentage(negativeCount, total) == 100.0
      && 0.0 <= Percentage(positiveCount, total) <= 100.0
      && 0.0 <= Percentage(negativeCount, total) <= 100.0
  {
    var t := (positiveCount + negativeCount) as real;
    assert positiveCount as real / t + negativeCount as real / t == 1.0;
    assert positiveCount as real / t <= 1.0;
    assert negativeCount as real / t <= 1.0;
  }

  lemma PercentageOrder(a: nat, b: nat, total: nat)
    requires total > 0
    ensures Percentage(a, total) > Percentage(b, total) <==> a > b
  {
    var t := total as real;
    if a > b {
      assert a as real / t > b as real / t;
    } else {
      assert a as real / t <= b as real / t;
    }
  }

  predicate NonIncreasing(s: seq<CommentSentiment>) {
    forall i, j :: 0 <= i < j < |s| ==> s[i].confidence >= s[j].confidence
  }

  /** Puts `c` ahead of the first entry whose confidence is not above its own;
      in a list sorted by non-increasing confidence that places it ahead of the
      entries with the same confidence (they came later in the input). */
  function InsertByConfidence(c: CommentSentiment, sorted: seq<CommentSentiment>): (r: seq<CommentSentiment>)
    ensures multiset(r) == multiset(sorted) + multiset{c}
    ensures |r| == |sorted| + 1
  {
    if sorted == [] || sorted[0].confidence <= c.confidence then
      [c] + sorted
    else
      var rest := InsertByConfidence(c, sorted[1..]);
      assert sorted == [sorted[0]] + sorted[1..];
      assert multiset([sorted[0]] + rest) == multiset{sorted[0]} + multiset(rest);
      [sorted[0]] + rest
  }

  /** Insertion keeps a list sorted by non-increasing confidence sorted. */
  lemma {:induction false} InsertKeepsSorted(c: CommentSentiment, sorted: seq<CommentSentiment>)
    requires NonIncreasing(sorted)
    ensures NonIncreasing(InsertByConfidence(c, sorted))
    ensures InsertByConfidence(c, sorted)[0] == c || InsertByConfidence(c, sorted)[0] == sorted[0]
  {
    if sorted != [] && sorted[0].confidence > c.confidence {
      var rest := InsertByConfidence(c, sorted[1..]);
      InsertKeepsSorted(c, sorted[1..]);
      var r := [sorted[0]] + rest;
      forall i, j | 0 <= i < j < |r| ensures r[i].confidence >= r[j].confidence {
        if i == 0 {
          assert r[j] == rest[j - 1];
          assert rest[0].confidence <= sorted[0].confidence;
        } else {
          assert r[i] == rest[i - 1] && r[j] == rest[j - 1];
        }
      }
    }
  }

  /** `sorted(cs, key=lambda x: x.confidence, reverse=True)`: Python's sort is
      stable, and `reverse=True` keeps equal elements in input order. */
  function SortByConfidence(cs: seq<CommentSentiment>): (r: seq<CommentSentiment>)
    ensures NonIncreasing(r)
    ensures multiset(r) == multiset(cs)
    ensures |r| == |cs|
  {
    if cs == [] then []
    else
      assert cs == [cs[0]] + cs[1..];
      InsertKeepsSorted(cs[0], SortByConfidence(cs[1..]));
      InsertByConfidence(cs[0], SortByConfidence(cs[1..]))
  }

  /** The entries of `s` whose confidence is `v`, in order. */
  function WithConfidence(s: seq<CommentSentiment>, v: real): seq<CommentSentiment> {
    if s == [] then []
    else (if s[0].confidence == v then [s[0]] else []) + WithConfidence(s[1..], v)
  }

  lemma {:induction false} InsertKeepsOrder(c: CommentSentiment, sorted: seq<CommentSentiment>, v: real)
    ensures WithConfidence(InsertByConfidence(c, sorted), v)
            == (if c.confidence == v then [c] else []) + WithConfidence(sorted, v)
  {
    if sorted == [] || sorted[0].confidence <= c.confidence {
      assert ([c] + sorted)[1..] == sorted;
    } else {
      var rest := InsertByConfidence(c, sorted[1..]);
      InsertKeepsOrder(c, sorted[1..], v);
      assert ([sorted[0]] + rest)[1..] == rest;
    }
  }

  /** Stability: among equal confidences the sorted list keeps the input order. */
  lemma {:induction false} SortIsStable(cs: seq<CommentSentiment>, v: real)
    ensures WithConfidence(SortByConfidence(cs), v) == WithConfidence(cs, v)
  {
    if cs != [] {
      SortIsStable(cs[1..], v);
      InsertKeepsOrder(cs[0], SortByConfidence(cs[1..]), v);
    }
  }

  predicate IsPrefixOf(a: seq<CommentSentiment>, b: seq<CommentSentiment>) {
    |a| <= |b| && b[..|a|] == a
  }

  lemma {:induction false} WithConfidenceOfPrefix(s: seq<CommentSentiment>, k: nat, v: real)
    requires k <= |s|
    ensures IsPrefixOf(WithConfidence(s[..k], v), WithConfidence(s, v))
  {
    if k > 0 {
      assert s[..k][1..] == s[1..][..k - 1];
      WithConfidenceOfPrefix(s[1..], k - 1, v);
    }
  }

  function Min(a: nat, b: nat): nat { if a <= b then a else b }

  /** `sorted([c for c in cs if c.sentiment == wanted], ...)[:5]` */
  function TopFive(cs: seq<CommentSentiment>, wanted: string): (r: seq<CommentSentiment>)
    ensures |r| == Min(TopCount, |Filter(cs, wanted)|)
    ensures NonIncreasing(r)
  {
    var sorted := SortByConfidence(Filter(cs, wanted));
    sorted[..Min(TopCount, |sorted|)]
  }

  /** The top five are comments of the input, each carrying the label. */
  lemma TopFiveFromInput(cs: seq<CommentSentiment>, wanted: string)
    ensures multiset(TopFive(cs, wanted)) <= multiset(Filter(cs, wanted)) <= multiset(cs)
    ensures forall c :: c in TopFive(cs, wanted) ==> c.sentiment == wanted
  {
    var sorted := SortByConfidence(Filter(cs, wanted));
    var k := Min(TopCount, |sorted|);
    assert sorted == sorted[..k] + sorted[k..];
    FilterKeepsMatching(cs, wanted);
    forall c | c in TopFive(cs, wanted) ensures c.sentiment == wanted {
      assert c in multiset(sorted);
      assert c in Filter(cs, wanted);
    }
  }

  lemma PrefixDominates(s: seq<CommentSentiment>, k: nat)
    requires NonIncreasing(s) && k <= |s|
    ensures forall y, z :: y in s[..k] && z in s[k..] ==> z.confidence <= y.confidence
  {
    forall y, z | y in s[..k] && z in s[k..] ensures z.confidence <= y.confidence {
      var i :| 0 <= i < k && s[..k][i] == y;
      var j :| 0 <= j < |s| - k && s[k..][j] == z;
      assert s[i] == y && s[k + j] == z;
    }
  }

  /** No comment left out of the top five is more confident than one chosen. */
  lemma TopFiveAreMostConfident(cs: seq<CommentSentiment>, wanted: string)
    ensures var top := TopFive(cs, wanted);
      forall y, z :: y in top && z in multiset(Filter(cs, wanted)) - multiset(top) ==> z.confidence <= y.confidence
  {
    var sorted := SortByConfidence(Filter(cs, wanted));
    var k := Min(TopCount, |sorted|);
    var top, rest := sorted[..k], sorted[k..];
    assert sorted == top + rest;
    assert multiset(Filter(cs, wanted)) == multiset(top) + multiset(rest);
    assert multiset(Filter(cs, wanted)) - multiset(top) == multiset(rest);
    PrefixDominates(sorted, k);
  }

  /** The top five keep the input order among comments of equal confidence. */
  lemma TopFiveIsStable(cs: seq<CommentSentiment>, wanted: string, v: real)
    ensures IsPrefixOf(WithConfidence(TopFive(cs, wanted), v), WithConfidence(Filter(cs, wanted), v))
  {
    var sorted := SortByConfidence(Filter(cs, wanted));
    WithConfidenceOfPrefix(sorted, Min(TopCount, |sorted|), v);
    SortIsStable(Filter(cs, wanted), v);
  }

  /** Stand-in for the text of pydantic's ValidationError naming missing fields. */
  function MissingFieldsMessage(fields: seq<string>): string {
    if fields == [] then "" else "Field required: " + fields[0] + ". " + MissingFieldsMessage(fields[1..])
  }

  /** `YouTubeAnalysisResponse(...)`: pydantic refuses a call that leaves out a
      required field with a ValidationError, a subclass of ValueError. Only the
      two fields youtube.py omits are optional here. */
  function ConstructResponse(
    videoId: string, totalComments: nat, processedComments: Option<nat>, failedComments: Option<nat>,
    positiveCount: nat, negativeCount: nat, positivePercentage: real, negativePercentage: real,
    topPositive: seq<CommentSentiment>, topNegative: seq<CommentSentiment>): (r: Result<YouTubeAnalysisResponse, Exception>)
    ensures r.Ok? <==> processedComments.Some? && failedComments.Some?
    ensures r.Err? ==> r.error.ValueError?
    ensures r.Ok? ==> r.value.processedComments == processedComments.value && r.value.failedComments == failedComments.value
  {
    var missing :=
      (if processedComments.None? then ["processed_comments"] else [])
      + (if failedComments.None? then ["failed_comments"] else []);
    if missing != [] then Err(ValueError(MissingFieldsMessage(missing)))
    else Ok(YouTubeAnalysisResponse(
      videoId, totalComments, processedComments.value, failedComments.value,
      positiveCount, negativeCount, positivePercentage, negativePercentage, topPositive, topNegative))
  }

  /** The response exactly as youtube.py builds it: without `processed_comments`
      and `failed_comments` (the extra `comments` argument is ignored by pydantic). */
  function ResponseAsWritten(videoId: string, results: seq<CommentSentiment>): Result<YouTubeAnalysisResponse, Exception>
    requires |results| > 0
  {
    var positiveCount := |Filter(results, "positive")|;
    var negativeCount := |results| - positiveCount;
    ConstructResponse(
      videoId, |results|, None, None, positiveCount, negativeCount,
      Percentage(positiveCount, |results|), Percentage(negativeCount, |results|),
      TopFive(results, "positive"), TopFive(results, "negative"))
  }

  /** The response with every declared field: each result counts as processed. */
  function Summarize(videoId: string, results: seq<CommentSentiment>): (r: YouTubeAnalysisResponse)
    requires |results| > 0
    ensures r.videoId == videoId && r.totalComments == |results|
    ensures r.positiveCount == |Filter(results, "positive")|
    ensures r.positiveCount + r.negativeCount == r.totalComments
    ensures r.processedComments <= r.totalComments && r.positiveCount + r.negativeCount <= r.processedComments
    ensures r.positivePercentage + r.negativePercentage == 100.0
    ensures 0.0 <= r.positivePercentage <= 100.0 && 0.0 <= r.negativePercentage <= 100.0
    ensures r.topPositiveComments == TopFive(results, "positive")
    ensures r.topNegativeComments == TopFive(results, "negative")
  {
    var positiveCount := |Filter(results, "positive")|;
    var negativeCount := |results| - positiveCount;
    PercentagesSplitHundred(positiveCount, negativeCount);
    YouTubeAnalysisResponse(
      videoId, |results|, |results|, 0, positiveCount, negativeCount,
      Percentage(positiveCount, |results|), Percentage(negativeCount, |results|),
      TopFive(results, "positive"), TopFive(results, "negative"))
  }

  /** Both percentages of a summary are taken over the same total. */
  lemma SummaryPercentages(videoId: string, results: seq<CommentSentiment>)
    requires |results| > 0
    ensures Summarize(videoId, results).positivePercentage
            == Percentage(Summarize(videoId, results).positiveCount, |results|)
    ensures Summarize(videoId, results).negativePercentage
            == Percentage(Summarize(videoId, results).negativeCount, |results|)
  {
  }

  /** Building the response with every field supplied yields the summary. */
  lemma BuiltIsSummary(videoId: string, results: seq<CommentSentiment>, positiveCount: nat, negativeCount: nat)
    requires |results| > 0
    requires positiveCount == |Filter(results, "positive")| && positiveCount + negativeCount == |results|
    ensures
      ConstructResponse(
        videoId, |results|, Some(|results|), Some(0), positiveCount, negativeCount,
        Percentage(positiveCount, |results|), Percentage(negativeCount, |results|),
        TopFive(results, "positive"), TopFive(results, "negative"))
      == Ok(Summarize(videoId, results))
  {
    var built := YouTubeAnalysisResponse(
      videoId, |results|, |results|, 0, positiveCount, negativeCount,
      Percentage(positiveCount, |results|), Percentage(negativeCount, |results|),
      TopFive(results, "positive"), TopFive(results, "negative"));
    assert Summarize(videoId, results) == built;
  }

  datatype CommentsOutcome = Fetched(comments: seq<string>) | FetchRaised(fetchError: Exception)

  /** What `analyze_sentiment_batch` did; the service shown defines no such
      method, so its outcome is an input. */
  datatype BatchOutcome = Analyzed(results: seq<CommentSentiment>) | BatchRaised(batchError: Exception)

  datatype HttpResult = Respond(body: YouTubeAnalysisResponse) | HttpError(statusCode: nat, detail: string)

  /** The two `except` clauses. */
  function ErrorResponse(e: Exception): (r: HttpResult)
    ensures r.HttpError?
    ensures e.ValueError? ==> r.statusCode == 400 && r.detail == e.message
    ensures !e.ValueError? ==> r.statusCode == 500 && r.detail == ErrorPrefix + Str(e)
  {
    if e.ValueError? then HttpError(400, Str(e)) else HttpError(500, ErrorPrefix + Str(e))
  }

  /** The finding: every request that reaches the response is refused with 400. */
  lemma ResponseAsWrittenIsRefused(videoId: string, results: seq<CommentSentiment>)
    requires |results| > 0
    ensures ResponseAsWritten(videoId, results).Err?
    ensures ErrorResponse(ResponseAsWritten(videoId, results).error).statusCode == 400
  {
  }

  /** The results loop, the percentages, the top lists and the response, which
      here carries every declared field. */
  method AggregateResults(videoId: string, results: seq<CommentSentiment>) returns (r: HttpResult)
    ensures results == [] ==> r == HttpError(500, ErrorPrefix + "division by zero")
    ensures results != [] ==> r == Respond(Summarize(videoId, results))
  {
    var commentSentiments, positiveCount, negativeCount := CollectResults(results);
    var totalComments := |commentSentiments|;
    if totalComments == 0 {
      return ErrorResponse(ZeroDivisionError);
    }
    var positivePercentage := Percentage(positiveCount, totalComments);
    var negativePercentage := Percentage(negativeCount, totalComments);
    var topPositive := TopFive(commentSentiments, "positive");
    var topNegative := TopFive(commentSentiments, "negative");
    BuiltIsSummary(videoId, commentSentiments, positiveCount, negativeCount);
    var built := ConstructResponse(
      videoId, totalComments, Some(totalComments), Some(0), positiveCount, negativeCount,
      positivePercentage, negativePercentage, topPositive, topNegative);
    r := Respond(built.value);
  }

  /** The same steps with the response built as youtube.py builds it: every
      non-empty list of results is refused with the validation error. */
  method AggregateResultsAsWritten(videoId: string, results: seq<CommentSentiment>) returns (r: HttpResult)
    ensures results == [] ==> r == HttpError(500, ErrorPrefix + "division by zero")
    ensures results != [] ==>
      r == HttpError(400, MissingFieldsMessage(["processed_comments", "failed_comments"]))
  {
    var commentSentiments, positiveCount, negativeCount := CollectResults(results);
    var totalComments := |commentSentiments|;
    if totalComments == 0 {
      return ErrorResponse(ZeroDivisionError);
    }
    var positivePercentage := Percentage(positiveCount, totalComments);
    var negativePercentage := Percentage(negativeCount, totalComments);
    var topPositive := TopFive(commentSentiments, "positive");
    var topNegative := TopFive(commentSentiments, "negative");
    var built := ConstructResponse(
      videoId, totalComments, None, None, positiveCount, negativeCount,
      positivePercentage, negativePercentage, topPositive, topNegative);
    assert built == Err(ValueError(MissingFieldsMessage(["processed_comments", "failed_comments"])));
    r := ErrorResponse(built.error);
  }

  /** From the batch analysis on: an exception it raises is mapped like any other. */
  method RespondToBatch(videoId: string, batch: BatchOutcome) returns (r: HttpResult)
    ensures match batch
      case BatchRaised(e) => r == ErrorResponse(e)
      case Analyzed(results) =>
        if results == [] then r == HttpError(500, ErrorPrefix + "division by zero")
        else r == Respond(Summarize(videoId, results))
  {
    if batch.BatchRaised? {
      return ErrorResponse(batch.batchError);
    }
    r := AggregateResults(videoId, batch.results);
  }

  /** `analyze_youtube_comments`, with the corrected response. */
  method AnalyzeYouTubeComments(videoUrl: string, fetched: CommentsOutcome, batch: BatchOutcome)
    returns (r: HttpResult)
    ensures ExtractVideoId(videoUrl).Err? ==> r == HttpError(400, InvalidUrlMessage)
    ensures ExtractVideoId(videoUrl).Ok? ==>
      match fetched
      case FetchRaised(e) => r == ErrorResponse(e)
      case Fetched(comments) =>
        if comments == [] then r == HttpError(500, ErrorPrefix + "404: " + NoCommentsDetail)
        else match batch
          case BatchRaised(e) => r == ErrorResponse(e)
          case Analyzed(results) =>
            if results == [] then r == HttpError(500, ErrorPrefix + "division by zero")
            else r == Respond(Summarize(ExtractVideoId(videoUrl).value, results))
  {
    var extracted := ExtractVideoId(videoUrl);
    if extracted.Err? {
      return ErrorResponse(extracted.error);
    }
    if fetched.FetchRaised? {
      return ErrorResponse(fetched.fetchError);
    }
    if fetched.comments == [] {
      DecimalOf404();
      return ErrorResponse(HttpException(404, NoCommentsDetail));
    }
    r := RespondToBatch(extracted.value, batch);
  }
}
