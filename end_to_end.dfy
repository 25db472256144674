/** How the YouTube panel and the endpoint meet: the HTTP result as the
    client receives it, and properties that span both sides. */
module EndToEnd {
  import opened Wrappers
  import opened Strings
  import opened Models
  import opened YouTubeService
  import YouTubeServiceProperties
  import opened YouTubeEndpoint
  import YouTubeAnalysis

  /** axios resolves a 2xx response with its body and rejects any other with
      the response attached, whose JSON carries FastAPI's `detail`. */
  function Deliver(r: HttpResult): (o: Outcome<YouTubeAnalysisResponse>)
    ensures o.Succeeded? <==> r.Respond?
    ensures r.HttpError? ==> o.detail == Some(r.detail)
  {
    match r
    case Respond(body) => Succeeded(body)
    case HttpError(_, detail) => Failed(Some(detail))
  }

  /** Every error the endpoint raises on purpose reaches the panel's error line
      word for word: its detail is never empty. */
  lemma ServerErrorsShownVerbatim(e: Exception)
    requires !e.ValueError? || e.message != ""
    ensures YouTubeAnalysis.FailureMessage(Deliver(ErrorResponse(e)).detail) == ErrorResponse(e).detail
  {
    assert |ErrorResponse(e).detail| > 0 by {
      if !e.ValueError? {
        assert |ErrorPrefix| > 0;
      }
    }
  }

  /** The verdict the panel prints agrees with the counts the endpoint made:
      percentages share one denominator, so comparing them compares counts. */
  lemma VerdictFollowsCounts(videoId: string, results: seq<CommentSentiment>)
    requires |results| > 0
    ensures YouTubeAnalysis.OverallLabel(Summarize(videoId, results)) == "Overall Positive"
            <==> Summarize(videoId, results).positiveCount > Summarize(videoId, results).negativeCount
  {
    var r := Summarize(videoId, results);
    SummaryPercentages(videoId, results);
    PercentageOrder(r.positiveCount, r.negativeCount, |results|);
  }

  /** With as many negative as positive results (a neutral one counts as
      negative) the verdict is negative. */
  lemma EvenSplitReadsNegative(videoId: string, results: seq<CommentSentiment>)
    requires |results| > 0
    requires 2 * |Filter(results, "positive")| == |results|
    ensures YouTubeAnalysis.OverallLabel(Summarize(videoId, results)) == "Overall Negative"
  {
    VerdictFollowsCounts(videoId, results);
  }

  /** A short link with an eleven-character id passes the client's check and
      the server's extraction. */
  lemma ShortLinkPassesBothChecks(id: string, rest: string)
    requires IsVideoId(id) && !IsLineTerminator(id[0])
    ensures YouTubeAnalysis.IsYouTubeUrl("https://youtu.be/" + id + rest)
    ensures ExtractVideoId("https://youtu.be/" + id + rest) == Ok(id)
  {
    YouTubeAnalysis.CommonFormsAccepted(id + rest);
    assert "https://youtu.be/" + (id + rest) == "https://youtu.be/" + id + rest;
    YouTubeServiceProperties.ShortLinkYieldsId(id, rest);
  }

  /** The client's check is weaker than the server's: a link with too short an
      id is sent, refused with 400, and the panel shows the server's message. */
  lemma ClientPassesWhatServerRefuses()
    ensures YouTubeAnalysis.IsYouTubeUrl("youtu.be/x")
    ensures ExtractVideoId("youtu.be/x") == Err(ValueError(InvalidUrlMessage))
    ensures ErrorResponse(ValueError(InvalidUrlMessage)) == HttpError(400, InvalidUrlMessage)
    ensures YouTubeAnalysis.FailureMessage(Deliver(ErrorResponse(ValueError(InvalidUrlMessage))).detail)
            == InvalidUrlMessage
  {
    var s := "youtu.be/x";
    assert s[..9] == "youtu.be/";
    assert !OccursAt(s, "https://", 0) && !OccursAt(s, "http://", 0) by {
      assert s[..7][0] == 'y';
    }
  }

  /** The response as youtube.py builds it never reaches the panel as a result:
      every request that gets that far fails, and the panel shows the
      validation message. */
  lemma AsWrittenPanelShowsValidationError(videoId: string, results: seq<CommentSentiment>)
    requires |results| > 0
    ensures ResponseAsWritten(videoId, results).Err?
    ensures Deliver(ErrorResponse(ResponseAsWritten(videoId, results).error)).Failed?
    ensures YouTubeAnalysis.FailureMessage(Deliver(ErrorResponse(ResponseAsWritten(videoId, results).error)).detail)
            == MissingFieldsMessage(["processed_comments", "failed_comments"])
  {
    ResponseAsWrittenIsRefused(videoId, results);
  }
}
