/** The record shapes of backend/api/models.py and the Python exceptions the
    YouTube endpoint distinguishes. */
module Models {

  /** `SentimentResponse`; also the body the text panels receive. */
  datatype SentimentResponse = SentimentResponse(text: string, sentiment: string, confidence: real)

  /** `CommentSentiment`. The dictionary `analyze_sentiment` returns has exactly
      these five keys, so it is represented by this record too. */
  datatype CommentSentiment = CommentSentiment(
    text: string,
    sentiment: string,
    confidence: real,
    positiveScore: real,
    negativeScore: real)

  /** `YouTubeAnalysisResponse`, with every field its declaration requires. */
  datatype YouTubeAnalysisResponse = YouTubeAnalysisResponse(
    videoId: string,
    totalComments: nat,
    processedComments: nat,
    failedComments: nat,
    positiveCount: nat,
    negativeCount: nat,
    positivePercentage: real,
    negativePercentage: real,
    topPositiveComments: seq<CommentSentiment>,
    topNegativeComments: seq<CommentSentiment>)

  /** The exceptions the endpoint's handlers tell apart. `OtherException`
      carries the text `str(e)` gives for anything else (a Google API error,
      an AttributeError, ...). */
  datatype Exception =
    | ValueError(message: string)
    | HttpException(statusCode: nat, detail: string)
    | ZeroDivisionError
    | OtherException(message: string)

  predicate AllDigits(s: string) {
    forall i :: 0 <= i < |s| ==> '0' <= s[i] <= '9'
  }

  /** The number a run of decimal digits denotes, most significant first. */
  function DigitsValue(s: string): nat
    requires AllDigits(s)
  {
    if s == [] then 0 else DigitsValue(s[..|s| - 1]) * 10 + (s[|s| - 1] as int - '0' as int)
  }

  /** Python's decimal rendering of a non-negative int (`str(n)`): the digits
      of `n`, with no leading zero unless `n` is zero. */
  function DecimalDigits(n: nat): (r: string)
    ensures |r| > 0 && AllDigits(r)
    ensures DigitsValue(r) == n
    ensures r[0] == '0' <==> n == 0
  {
    var d := ['0', '1', '2', '3', '4', '5', '6', '7', '8', '9'][n % 10];
    assert d as int - '0' as int == n % 10;
    if n < 10 then
      assert [d][..0] == [];
      [d]
    else
      var r := DecimalDigits(n / 10) + [d];
      assert r[..|r| - 1] == DecimalDigits(n / 10);
      r
  }

  /** `str(e)`. For Starlette's HTTPException it is "<status>: <detail>";
      for ZeroDivisionError raised by `/` on numbers it is "division by zero". */
  function Str(e: Exception): string {
    match e
    case ValueError(m) => m
    case HttpException(code, detail) => DecimalDigits(code) + ": " + detail
    case ZeroDivisionError => "division by zero"
    case OtherException(m) => m
  }

  lemma DecimalOf404()
    ensures DecimalDigits(404) == "404"
  {
  }
}
