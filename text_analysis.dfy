/** The text panel: its input, the pending flag, the error line and the last
    result. The async handler is split at its `await` into `AnalyzeSentiment`
    (everything up to sending the request) and `Settle` (what runs once the
    request has succeeded or failed). */
module TextAnalysis {
  import opened Wrappers
  import opened Strings
  import opened Models

  const EmptyTextError := "Please enter some text to analyze"
  const RequestFailedError := "Failed to analyze sentiment. Please try again."

  class TextAnalysisPanel {
    var text: string
    var result: Option<SentimentResponse>
    var loading: bool
    var error: string
    /** The `text` bodies of the `POST /api/sentiment` requests sent so far. */
    var requests: seq<string>

    /** While a request is out, no result and no error is shown. */
    ghost predicate Valid()
      reads this
    {
      loading ==> result == None && error == ""
    }

    constructor ()
      ensures Valid()
      ensures text == "" && result == None && !loading && error == "" && requests == []
    {
      text := "";
      result := None;
      loading := false;
      error := "";
      requests := [];
    }

    /** The textarea's `onChange`. */
    method SetText(value: string)
      requires Valid()
      modifies this
      ensures Valid()
      ensures text == value
      ensures result == old(result) && loading == old(loading) && error == old(error)
      ensures requests == old(requests)
    {
      text := value;
    }

    /** The button is disabled while loading, so a click needs `!loading`. */
    method AnalyzeSentiment()
      requires Valid() && !loading
      modifies this
      ensures Valid()
      ensures text == old(text)
      ensures IsBlank(text) ==>
        error == EmptyTextError && result == old(result) && !loading && requests == old(requests)
      ensures !IsBlank(text) ==>
        loading && error == "" && result == None && requests == old(requests) + [Trim(text)]
    {
      var trimmed := Trim(text);
      if trimmed == "" {
        error := EmptyTextError;
        return;
      }
      loading := true;
      error := "";
      result := None;
      requests := requests + [trimmed];
    }

    /** The `try`/`catch`/`finally` after the request settles. */
    method Settle(outcome: Outcome<SentimentResponse>)
      requires Valid() && loading
      modifies this
      ensures Valid() && !loading
      ensures text == old(text) && requests == old(requests)
      ensures outcome.Succeeded? ==> result == Some(outcome.data) && error == ""
      ensures outcome.Failed? ==> result == None && error == RequestFailedError
    {
      if outcome.Succeeded? {
        result := Some(outcome.data);
      } else {
        error := RequestFailedError;
      }
      loading := false;
    }
  }
}
