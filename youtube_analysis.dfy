/** The YouTube panel: the client-side URL check, its state machine split at
    the `await` like the text panel's, the error line taken from the server's
    `detail`, and the overall verdict. */
module YouTubeAnalysis {
  import opened Wrappers
  import opened Strings
  import opened Models

  const EmptyUrlError := "Please enter a YouTube URL"
  const InvalidUrlError := "Please enter a valid YouTube URL"
  const RequestFailedError := "Failed to analyze YouTube comments. Please try again."

  /** `.+` right after the host's slash: at least one character that a
      JavaScript `.` matches, that is, not a line terminator. */
  predicate PathAt(s: string, i: nat) {
    i < |s| && !IsLineTerminator(s[i])
  }

  /** `(youtube\.com|youtu\.be)\/.+` at index `i`. */
  predicate HostAndPathAt(s: string, i: nat) {
    (OccursAt(s, "youtube.com/", i) && PathAt(s, i + 12))
    || (OccursAt(s, "youtu.be/", i) && PathAt(s, i + 9))
  }

  /** `(www\.)?` then the host and path, at index `i`. */
  predicate SubdomainThenHostAt(s: string, i: nat) {
    (OccursAt(s, "www.", i) && HostAndPathAt(s, i + 4)) || HostAndPathAt(s, i)
  }

  /** `/^(https?:\/\/)?(www\.)?(youtube\.com|youtu\.be)\/.+/.test(s)`: no flags,
      so letter case matters, and nothing is required after the first path
      character. */
  predicate IsYouTubeUrl(s: string) {
    (OccursAt(s, "https://", 0) && SubdomainThenHostAt(s, 8))
    || (OccursAt(s, "http://", 0) && SubdomainThenHostAt(s, 7))
    || SubdomainThenHostAt(s, 0)
  }

  /** The usual link forms pass the check with any path. */
  lemma CommonFormsAccepted(path: string)
    requires PathAt(path, 0)
    ensures IsYouTubeUrl("https://www.youtube.com/" + path)
    ensures IsYouTubeUrl("https://youtu.be/" + path)
    ensures IsYouTubeUrl("youtube.com/" + path)
  {
    var a := "https://www.youtube.com/" + path;
    assert a[..8] == "https://" && a[8..12] == "www." && a[12..24] == "youtube.com/";
    var b := "https://youtu.be/" + path;
    assert b[..8] == "https://" && b[8..17] == "youtu.be/";
    var c := "youtube.com/" + path;
    assert c[..12] == "youtube.com/";
  }

  /** The host alone, with nothing after its slash, is refused. */
  lemma BareHostRefused()
    ensures !IsYouTubeUrl("https://youtube.com/")
    ensures !IsYouTubeUrl("youtu.be/")
  {
    var s := "https://youtube.com/";
    assert s[..7][4] == 's';
    assert s[..4][0] == 'h' && s[..12][0] == 'h' && s[..9][0] == 'h';
    assert s[8..12][0] == 'y' && s[8..17][5] == 'b';
  }

  /** A letter-case change in the scheme or host makes the check fail: an
      accepted URL starts with a lower-case letter. */
  lemma AcceptedStartsLowerCase(s: string)
    requires IsYouTubeUrl(s)
    ensures |s| > 0 && s[0] in {'h', 'w', 'y'}
  {
    if OccursAt(s, "https://", 0) || OccursAt(s, "http://", 0) {
      assert s[0] == s[..7][0];
    } else if OccursAt(s, "www.", 0) {
      assert s[0] == s[..4][0];
    } else if OccursAt(s, "youtube.com/", 0) {
      assert s[0] == s[..12][0];
    } else {
      assert s[0] == s[..9][0];
    }
  }

  /** `err.response?.data?.detail || "Failed to analyze …"`: an absent or
      empty `detail` falls back to the fixed message. */
  function FailureMessage(detail: Option<string>): (m: string)
    ensures m != ""
    ensures detail.Some? && detail.value != "" ==> m == detail.value
  {
    if detail.Some? && detail.value != "" then detail.value else RequestFailedError
  }

  /** A failure always leaves an error line to show (`{error && …}`), and it is
      the server's own words whenever the server supplied any. */
  lemma FailureMessageCases(detail: Option<string>)
    ensures FailureMessage(detail) == RequestFailedError <==>
      detail.None? || detail.value == "" || detail.value == RequestFailedError
  {
  }

  /** The verdict under the counters: the emoji and the wording follow the
      same strict comparison, so equal percentages read as negative. */
  function OverallPositive(r: YouTubeAnalysisResponse): bool {
    r.positivePercentage > r.negativePercentage
  }

  function OverallLabel(r: YouTubeAnalysisResponse): (verdict: string)
    ensures verdict == "Overall Positive" <==> r.positivePercentage > r.negativePercentage
    ensures verdict == "Overall Negative" <==> r.positivePercentage <= r.negativePercentage
  {
    if OverallPositive(r) then "Overall Positive" else "Overall Negative"
  }

  function OverallEmoji(r: YouTubeAnalysisResponse): (emoji: string)
    ensures emoji == "\U{1F60A}" <==> OverallLabel(r) == "Overall Positive"
  {
    if OverallPositive(r) then "\U{1F60A}" else "\U{1F61E}"
  }

  /** The checks `analyzeYouTubeComments` runs before sending, in order: a
      blank URL first, then the pattern on the trimmed URL. What passes both
      is the trimmed URL. */
  function CheckUrl(url: string): (r: Result<string, string>)
    ensures r.Ok? <==> !IsBlank(url) && IsYouTubeUrl(Trim(url))
    ensures r.Ok? ==> r.value == Trim(url)
    ensures IsBlank(url) ==> r == Err(EmptyUrlError)
    ensures !IsBlank(url) && !IsYouTubeUrl(Trim(url)) ==> r == Err(InvalidUrlError)
  {
    var trimmed := Trim(url);
    if trimmed == "" then Err(EmptyUrlError)
    else if !IsYouTubeUrl(trimmed) then Err(InvalidUrlError)
    else Ok(trimmed)
  }

  class YouTubeAnalysisPanel {
    var url: string
    var result: Option<YouTubeAnalysisResponse>
    var loading: bool
    var error: string
    /** The `video_url` bodies of the `POST /api/youtube/analyze` requests sent so far. */
    var requests: seq<string>

    ghost predicate Valid()
      reads this
    {
      loading ==> result == None && error == ""
    }

    constructor ()
      ensures Valid()
      ensures url == "" && result == None && !loading && error == "" && requests == []
    {
      url := "";
      result := None;
      loading := false;
      error := "";
      requests := [];
    }

    /** The input's `onChange`. */
    method SetUrl(value: string)
      requires Valid()
      modifies this
      ensures Valid()
      ensures url == value
      ensures result == old(result) && loading == old(loading) && error == old(error)
      ensures requests == old(requests)
    {
      url := value;
    }

    /** `analyzeYouTubeComments` up to the `await`: an input refused by
        `CheckUrl` leaves its message and nothing else changes; an accepted
        one clears the panel and is sent, trimmed. */
    method AnalyzeYouTubeComments()
      requires Valid() && !loading
      modifies this
      ensures Valid()
      ensures url == old(url)
      ensures CheckUrl(url).Err? ==>
        error == CheckUrl(url).error && result == old(result) && !loading && requests == old(requests)
      ensures CheckUrl(url).Ok? ==>
        loading && error == "" && result == None && requests == old(requests) + [CheckUrl(url).value]
    {
      var checked := CheckUrl(url);
      if checked.Err? {
        error := checked.error;
        return;
      }
      loading := true;
      error := "";
      result := None;
      requests := requests + [checked.value];
    }

    method Settle(outcome: Outcome<YouTubeAnalysisResponse>)
      requires Valid() && loading
      modifies this
      ensures Valid() && !loading
      ensures url == old(url) && requests == old(requests)
      ensures outcome.Succeeded? ==> result == Some(outcome.data) && error == ""
      ensures outcome.Failed? ==> result == None && error == FailureMessage(outcome.detail)
    {
      if outcome.Succeeded? {
        result := Some(outcome.data);
      } else {
        error := FailureMessage(outcome.detail);
      }
      loading := false;
    }
  }
}
