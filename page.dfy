/** The single-page app: a backend gate driven by one ping, two tabs, and one
    `loading`/`error` pair shared by both analyses. */
module Home {
  import opened Wrappers
  import opened Strings
  import opened Models
  import TextAnalysis
  import YouTubeAnalysis

  /** `"checking" | "awake" | "error"` */
  datatype BackendStatus = Checking | Awake | Unreachable
  datatype Tab = TextTab | YouTubeTab

  /** The requests the page sends, in order. */
  datatype Request = Ping | PostSentiment(text: string) | PostYouTube(videoUrl: string)

  /** Which of the three early returns of the render function is shown. */
  datatype Screen = WaitingForBackend | BackendUnavailable | AnalysisUi(tab: Tab)

  function Render(status: BackendStatus, tab: Tab): (s: Screen)
    ensures s.AnalysisUi? <==> status == Awake
    ensures s == WaitingForBackend <==> status == Checking
    ensures s.AnalysisUi? ==> s.tab == tab
  {
    match status
    case Checking => WaitingForBackend
    case Unreachable => BackendUnavailable
    case Awake => AnalysisUi(tab)
  }

  /** The tab choice matters only once the backend has answered. */
  lemma GateHidesTabs(status: BackendStatus, a: Tab, b: Tab)
    requires status != Awake
    ensures Render(status, a) == Render(status, b)
  {
  }

  class HomePage {
    var text: string
    var youtubeUrl: string
    var result: Option<SentimentResponse>
    var youtubeResult: Option<YouTubeAnalysisResponse>
    var loading: bool
    var error: string
    var backendStatus: BackendStatus
    var activeTab: Tab
    var requests: seq<Request>

    /** The ping is the first request and the only one sent before the gate
        opens; while an analysis is out, the page shows neither result nor
        an error, and the last request is that analysis. */
    ghost predicate Valid()
      reads this
    {
      && |requests| > 0 && requests[0] == Ping
      && (backendStatus != Awake ==> requests == [Ping] && !loading)
      && (loading ==>
            && result == None && youtubeResult == None && error == ""
            && |requests| > 1 && !requests[|requests| - 1].Ping?)
    }

    /** Mounting: the initial state and the ping sent by the effect. */
    constructor ()
      ensures Valid()
      ensures text == "" && youtubeUrl == "" && result == None && youtubeResult == None
      ensures !loading && error == "" && backendStatus == Checking && activeTab == TextTab
      ensures requests == [Ping]
    {
      text := "";
      youtubeUrl := "";
      result := None;
      youtubeResult := None;
      loading := false;
      error := "";
      backendStatus := Checking;
      activeTab := TextTab;
      requests := [Ping];
    }

    /** The ping settles once per mount; only the status changes. */
    method OnPingSettled(succeeded: bool)
      requires Valid() && backendStatus == Checking
      modifies this
      ensures Valid()
      ensures backendStatus == (if succeeded then Awake else Unreachable)
      ensures text == old(text) && youtubeUrl == old(youtubeUrl)
      ensures result == old(result) && youtubeResult == old(youtubeResult)
      ensures loading == old(loading) && error == old(error) && activeTab == old(activeTab)
      ensures requests == old(requests)
    {
      backendStatus := if succeeded then Awake else Unreachable;
    }

    /** The tab buttons change the tab and nothing else. */
    method SelectTab(tab: Tab)
      requires Valid() && backendStatus == Awake
      modifies `activeTab
      ensures Valid()
      ensures activeTab == tab
    {
      activeTab := tab;
    }

    method SetText(value: string)
      requires Valid() && Render(backendStatus, activeTab) == AnalysisUi(TextTab)
      modifies `text
      ensures Valid() && text == value
    {
      text := value;
    }

    method SetYoutubeUrl(value: string)
      requires Valid() && Render(backendStatus, activeTab) == AnalysisUi(YouTubeTab)
      modifies `youtubeUrl
      ensures Valid() && youtubeUrl == value
    {
      youtubeUrl := value;
    }

    /** The text tab's button; it is rendered only on that tab and is
        disabled while either analysis is out. A sent request clears the
        YouTube tab's result too. */
    method AnalyzeSentiment()
      requires Valid() && Render(backendStatus, activeTab) == AnalysisUi(TextTab) && !loading
      modifies this
      ensures Valid()
      ensures text == old(text) && youtubeUrl == old(youtubeUrl)
      ensures backendStatus == old(backendStatus) && activeTab == old(activeTab)
      ensures IsBlank(text) ==>
        && error == TextAnalysis.EmptyTextError && !loading && requests == old(requests)
        && result == old(result) && youtubeResult == old(youtubeResult)
      ensures !IsBlank(text) ==>
        && loading && error == "" && result == None && youtubeResult == None
        && requests == old(requests) + [PostSentiment(Trim(text))]
    {
      var trimmed := Trim(text);
      if trimmed == "" {
        error := TextAnalysis.EmptyTextError;
        return;
      }
      loading := true;
      error := "";
      result := None;
      youtubeResult := None;
      requests := requests + [PostSentiment(trimmed)];
    }

    /** The YouTube tab's button. Unlike the panel component, the page checks
        only for a blank URL before sending it. */
    method AnalyzeYouTubeComments()
      requires Valid() && Render(backendStatus, activeTab) == AnalysisUi(YouTubeTab) && !loading
      modifies this
      ensures Valid()
      ensures text == old(text) && youtubeUrl == old(youtubeUrl)
      ensures backendStatus == old(backendStatus) && activeTab == old(activeTab)
      ensures IsBlank(youtubeUrl) ==>
        && error == YouTubeAnalysis.EmptyUrlError && !loading && requests == old(requests)
        && result == old(result) && youtubeResult == old(youtubeResult)
      ensures !IsBlank(youtubeUrl) ==>
        && loading && error == "" && result == None && youtubeResult == None
        && requests == old(requests) + [PostYouTube(Trim(youtubeUrl))]
    {
      var trimmed := Trim(youtubeUrl);
      if trimmed == "" {
        error := YouTubeAnalysis.EmptyUrlError;
        return;
      }
      loading := true;
      error := "";
      result := None;
      youtubeResult := None;
      requests := requests + [PostYouTube(trimmed)];
    }

    /** The text analysis settles; `finally` releases the shared flag. */
    method OnSentimentSettled(outcome: Outcome<SentimentResponse>)
      requires Valid() && loading && requests[|requests| - 1].PostSentiment?
      modifies this
      ensures Valid() && !loading
      ensures text == old(text) && youtubeUrl == old(youtubeUrl) && requests == old(requests)
      ensures backendStatus == old(backendStatus) && activeTab == old(activeTab)
      ensures youtubeResult == None
      ensures outcome.Succeeded? ==> result == Some(outcome.data) && error == ""
      ensures outcome.Failed? ==> result == None && error == TextAnalysis.RequestFailedError
    {
      if outcome.Succeeded? {
        result := Some(outcome.data);
      } else {
        error := TextAnalysis.RequestFailedError;
      }
      loading := false;
    }

    /** The YouTube analysis settles. */
    method OnYouTubeSettled(outcome: Outcome<YouTubeAnalysisResponse>)
      requires Valid() && loading && requests[|requests| - 1].PostYouTube?
      modifies this
      ensures Valid() && !loading
      ensures text == old(text) && youtubeUrl == old(youtubeUrl) && requests == old(requests)
      ensures backendStatus == old(backendStatus) && activeTab == old(activeTab)
      ensures result == None
      ensures outcome.Succeeded? ==> youtubeResult == Some(outcome.data) && error == ""
      ensures outcome.Failed? ==>
        youtubeResult == None && error == YouTubeAnalysis.FailureMessage(outcome.detail)
    {
      if outcome.Succeeded? {
        youtubeResult := Some(outcome.data);
      } else {
        error := YouTubeAnalysis.FailureMessage(outcome.detail);
      }
      loading := false;
    }
  }
}
