/** `HuggingFaceSentimentService` (backend/api/services/sentiment_service.py):
    the keyword fallback classifier and the way the hosted classifier's
    label/score list is turned into one result. The hosted classifier itself
    is an input. */
module SentimentService {
  import opened Strings
  import opened Models

  const PositiveWords: seq<string> := ["good", "great", "excellent", "amazing", "wonderful", "love", "happy"]
  const NegativeWords: seq<string> := ["bad", "terrible", "awful", "hate", "sad", "angry", "disappointed"]

  predicate Distinct(words: seq<string>) {
    forall i, j :: 0 <= i < j < |words| ==> words[i] != words[j]
  }

  /** `sum(1 for word in words if word in text)` */
  function KeywordCount(words: seq<string>, text: string): (n: nat)
    ensures n <= |words|
  {
    if words == [] then 0
    else (if Contains(text, words[0]) then 1 else 0) + KeywordCount(words[1..], text)
  }

  /** The keywords that occur somewhere in `text`. */
  ghost function Hits(words: seq<string>, text: string): set<string> {
    set w | w in words && Contains(text, w)
  }

  /** Each keyword adds one to the count when it occurs, however often it does. */
  lemma {:induction false} KeywordCountIsHits(words: seq<string>, text: string)
    requires Distinct(words)
    ensures KeywordCount(words, text) == |Hits(words, text)|
  {
    if words != [] {
      var rest := words[1..];
      KeywordCountIsHits(rest, text);
      assert words == [words[0]] + rest;
      assert words[0] !in rest by {
        forall j | 0 <= j < |rest| ensures rest[j] != words[0] {
          assert rest[j] == words[j + 1];
        }
      }
      if Contains(text, words[0]) {
        assert Hits(words, text) == Hits(rest, text) + {words[0]};
      } else {
        assert Hits(words, text) == Hits(rest, text);
      }
    } else {
      assert Hits(words, text) == {};
    }
  }

  lemma KeywordsDistinct()
    ensures Distinct(PositiveWords) && Distinct(NegativeWords)
  {
  }

  lemma KeywordsLower()
    ensures forall w :: w in PositiveWords ==> Lower(w) == w
    ensures forall w :: w in NegativeWords ==> Lower(w) == w
  {
    forall w | w in PositiveWords + NegativeWords ensures Lower(w) == w {
      LowerWithoutUpper(w);
    }
  }

  /** `p` occurs in `s` when letter case is ignored. */
  predicate ContainsIgnoringCase(s: string, p: string) {
    Contains(Lower(s), Lower(p))
  }

  /** Number of distinct positive (negative) keywords found in `text`, ignoring case. */
  ghost function PositiveHits(text: string): nat {
    |set w | w in PositiveWords && ContainsIgnoringCase(text, w)|
  }
  ghost function NegativeHits(text: string): nat {
    |set w | w in NegativeWords && ContainsIgnoringCase(text, w)|
  }

  function Min(a: real, b: real): real { if a <= b then a else b }
  function Max(a: real, b: real): real { if a >= b then a else b }

  /** `_fallback_analysis` */
  function FallbackAnalysis(text: string): (r: CommentSentiment)
    ensures r.text == text
    ensures r.positiveScore + r.negativeScore == 1.0
    ensures 0.5 <= r.confidence <= 0.9
    ensures r.sentiment == "positive" || r.sentiment == "negative" || r.sentiment == "neutral"
  {
    var lowered := Lower(text);
    var positiveCount := KeywordCount(PositiveWords, lowered);
    var negativeCount := KeywordCount(NegativeWords, lowered);
    if positiveCount > negativeCount then
      var confidence := Min(0.9, 0.5 + positiveCount as real * 0.1);
      CommentSentiment(text, "positive", confidence, confidence, 1.0 - confidence)
    else if negativeCount > positiveCount then
      var confidence := Min(0.9, 0.5 + negativeCount as real * 0.1);
      CommentSentiment(text, "negative", confidence, 1.0 - confidence, confidence)
    else
      CommentSentiment(text, "neutral", 0.5, 0.5, 0.5)
  }

  lemma HitsIgnoreCase(words: seq<string>, text: string)
    requires forall w :: w in words ==> Lower(w) == w
    ensures Hits(words, Lower(text)) == set w | w in words && ContainsIgnoringCase(text, w)
  {
  }

  lemma CountsAreHits(text: string)
    ensures KeywordCount(PositiveWords, Lower(text)) == PositiveHits(text)
    ensures KeywordCount(NegativeWords, Lower(text)) == NegativeHits(text)
  {
    KeywordsDistinct();
    KeywordsLower();
    KeywordCountIsHits(PositiveWords, Lower(text));
    KeywordCountIsHits(NegativeWords, Lower(text));
    HitsIgnoreCase(PositiveWords, text);
    HitsIgnoreCase(NegativeWords, text);
  }

  lemma FallbackPositiveCase(text: string)
    ensures PositiveHits(text) > NegativeHits(text) <==> FallbackAnalysis(text).sentiment == "positive"
    ensures PositiveHits(text) > NegativeHits(text) ==>
      var r := FallbackAnalysis(text);
      && r.confidence == Min(0.9, 0.5 + 0.1 * PositiveHits(text) as real)
      && r.positiveScore == r.confidence
      && r.negativeScore == 1.0 - r.confidence
  {
    CountsAreHits(text);
  }

  lemma FallbackNegativeCase(text: string)
    ensures NegativeHits(text) > PositiveHits(text) <==> FallbackAnalysis(text).sentiment == "negative"
    ensures NegativeHits(text) > PositiveHits(text) ==>
      var r := FallbackAnalysis(text);
      && r.confidence == Min(0.9, 0.5 + 0.1 * NegativeHits(text) as real)
      && r.negativeScore == r.confidence
      && r.positiveScore == 1.0 - r.confidence
  {
    CountsAreHits(text);
  }

  lemma FallbackNeutralCase(text: string)
    ensures PositiveHits(text) == NegativeHits(text) <==> FallbackAnalysis(text).sentiment == "neutral"
    ensures PositiveHits(text) == NegativeHits(text) ==>
      var r := FallbackAnalysis(text);
      r.confidence == 0.5 && r.positiveScore == 0.5 && r.negativeScore == 0.5
  {
    CountsAreHits(text);
  }

  /** Matching ignores case: analysing the lower-cased text gives the same
      label and scores. */
  lemma FallbackIgnoresCase(text: string)
    ensures FallbackAnalysis(Lower(text)) == FallbackAnalysis(text).(text := Lower(text))
  {
    LowerIdempotent(text);
  }

  /** One element of the classifier's output list. */
  datatype LabelScore = LabelScore(name: string, score: real)

  /** The score of the last entry carrying `wanted`, or 0.0 when none does. */
  function LastScore(items: seq<LabelScore>, wanted: string): real {
    if items == [] then 0.0
    else if items[|items| - 1].name == wanted then items[|items| - 1].score
    else LastScore(items[..|items| - 1], wanted)
  }

  lemma {:induction false} LastScoreAbsent(items: seq<LabelScore>, wanted: string)
    requires forall i :: 0 <= i < |items| ==> items[i].name != wanted
    ensures LastScore(items, wanted) == 0.0
  {
    if items != [] {
      LastScoreAbsent(items[..|items| - 1], wanted);
    }
  }

  lemma {:induction false} LastScoreIsLast(items: seq<LabelScore>, wanted: string, k: nat)
    requires k < |items| && items[k].name == wanted
    requires forall j :: k < j < |items| ==> items[j].name != wanted
    ensures LastScore(items, wanted) == items[k].score
  {
    var n := |items| - 1;
    if k < n {
      var front := items[..n];
      assert items[n].name != wanted;
      LastScoreIsLast(front, wanted, k);
    }
  }

  /** The `for item in result` loop of `analyze_sentiment`. */
  method ExtractScores(items: seq<LabelScore>) returns (positiveScore: real, negativeScore: real)
    ensures positiveScore == LastScore(items, "POSITIVE")
    ensures negativeScore == LastScore(items, "NEGATIVE")
  {
    positiveScore := 0.0;
    negativeScore := 0.0;
    for i := 0 to |items|
      invariant positiveScore == LastScore(items[..i], "POSITIVE")
      invariant negativeScore == LastScore(items[..i], "NEGATIVE")
    {
      assert items[..i + 1][..i] == items[..i];
      if items[i].name == "POSITIVE" {
        positiveScore := items[i].score;
      } else if items[i].name == "NEGATIVE" {
        negativeScore := items[i].score;
      }
    }
    assert items[..|items|] == items;
  }

  /** The decision after the loop: ties go to "negative". */
  function Decide(text: string, positiveScore: real, negativeScore: real): (r: CommentSentiment)
    ensures r.sentiment == "positive" <==> positiveScore > negativeScore
    ensures r.sentiment == "positive" || r.sentiment == "negative"
    ensures r.confidence == Max(positiveScore, negativeScore)
    ensures r.text == text && r.positiveScore == positiveScore && r.negativeScore == negativeScore
  {
    if positiveScore > negativeScore then
      CommentSentiment(text, "positive", positiveScore, positiveScore, negativeScore)
    else
      CommentSentiment(text, "negative", negativeScore, positiveScore, negativeScore)
  }

  /** What `text_classification` did: returned a list, or raised. */
  datatype ClassifierOutcome = Classified(items: seq<LabelScore>) | ClassifierRaised

  /** `analyze_sentiment`: any exception in the try block falls back to keywords. */
  method AnalyzeSentiment(text: string, classifier: ClassifierOutcome) returns (r: CommentSentiment)
    ensures r.text == text
    ensures classifier.ClassifierRaised? ==> r == FallbackAnalysis(text)
    ensures classifier.Classified? ==>
      var p := LastScore(classifier.items, "POSITIVE");
      var n := LastScore(classifier.items, "NEGATIVE");
      && r.positiveScore == p && r.negativeScore == n
      && (r.sentiment == "positive" <==> p > n)
      && (r.sentiment != "positive" ==> r.sentiment == "negative")
      && r.confidence == Max(p, n)
  {
    match classifier
    case ClassifierRaised =>
      r := FallbackAnalysis(text);
    case Classified(items) =>
      var positiveScore, negativeScore := ExtractScores(items);
      r := Decide(text, positiveScore, negativeScore);
  }
}
