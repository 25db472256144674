# Sentify: a Dafny model of its sentiment scoring, YouTube aggregation and analysis screens

Sentify classifies the sentiment of a piece of text, or of every comment under a
YouTube video, and shows the outcome in a small web front end. This project
models the logic parts of that system and proves properties about them:

- **Scoring** (`SentimentService`):
  - the keyword fallback used when the hosted classifier fails;
  - the loop that reads the classifier's label/score pairs and the decision
    drawn from them.
- **Video ids** (`YouTubeService`): `extract_video_id`, written as a
  backtracking matcher of the one regular expression it uses. The matcher tries
  alternatives in the same order as Python's `re.search`, so the model returns
  the same capture the code returns.
- **The YouTube endpoint** (`YouTubeEndpoint`):
  - the results loop and its counts;
  - the percentages;
  - the filters and the stable top-five sort;
  - the construction of the response;
  - the mapping of exceptions to HTTP errors.
- **Label display** (`SentimentDisplay`): the case-insensitive switch behind
  every colour and emoji, the two palettes, and the capitalised label.
- **The two panel components** (`TextAnalysis`, `YouTubeAnalysis`).
  - Each is a class whose fields are the React state.
  - Each async handler is split at its `await`. One method does everything up
    to sending the request. `Settle` runs once the request has succeeded or
    failed.
  - Each class logs the request bodies it sends in a `requests` field.
- **The page** (`Home`): the backend gate driven by one ping, the two tabs, and
  the `loading`/`error` pair both analyses share.
- **End to end** (`EndToEnd`): how an HTTP result reaches the YouTube panel, and
  properties that span the client and the server.

Supporting modules:
- `Wrappers`: `Option`, `Result`, and `Outcome`, the settled result of a request.
- `Strings`: ASCII case mapping, substring search, and JavaScript's `trim`.
- `Models`: the pydantic records, the exceptions and Python's `str()` of them.

Calls into code outside the model become inputs, each given as an outcome
datatype:
- the hosted classifier: `ClassifierOutcome`;
- the comment fetch: `CommentsOutcome`;
- the batch classifier: `BatchOutcome`;
- each HTTP request: `Outcome`;
- the ping: a `bool`.

Where the code and its design description disagree, the model follows the code:
- The client-side URL pattern has no `i` flag, so the scheme and host are
  matched case-sensitively (`YouTubeAnalysis.AcceptedStartsLowerCase`).
- A validation error such as a blank input sets `error` but leaves the previous
  result on screen. So an error and a result can be shown together.
- The endpoint's `404` for a video without comments is raised inside the `try`.
  The generic handler catches it, so the client receives
  `500 "Error analyzing YouTube comments: 404: No comments found for this video"`.
- One exception: the response youtube.py:63-73 builds leaves out two fields
  that models.py declares as required, so as written every analysed video
  ends in 400 (see "## Findings"). `YouTubeEndpoint.AggregateResultsAsWritten`
  models that code. `AggregateResults`, `RespondToBatch` and
  `AnalyzeYouTubeComments` build the corrected response instead.
- `analyze_sentiment_batch` is called but not defined by the service. Its result
  is therefore an input. An empty result list yields
  `500 "Error analyzing YouTube comments: division by zero"`.

## Model

| member | source | states |
|---|---|---|
| Strings.ContainsIffOccurs | backend/api/services/sentiment_service.py:63-64 | Python's `word in text` holds exactly when the word occurs at some index of the text |
| Strings.BlankIffAllSpace | frontend/app/components/TextAnalysis.tsx:21 | `!text.trim()` holds exactly when every character is ECMAScript whitespace or a line terminator |
| Strings.TrimStart | frontend/app/components/TextAnalysis.tsx:30 | the result is a suffix of the input; everything removed is whitespace; the result does not start with whitespace |
| Strings.TrimEnd | frontend/app/components/TextAnalysis.tsx:30 | the result is a prefix of the input; everything removed is whitespace; the result does not end with whitespace |
| Strings.TrimIsTrimmed | frontend/app/components/TextAnalysis.tsx:30 | the trimmed body sent to the server neither starts nor ends with whitespace |
| Strings.Lower | backend/api/services/sentiment_service.py:58 | `text.lower()` in ASCII: the same length, each character mapped on its own |
| Strings.Trim | frontend/app/components/TextAnalysis.tsx:21-30 | `trim()`: whitespace removed from the start and then from the end |
| Strings.LowerIdempotent | backend/api/services/sentiment_service.py:58 | lower-casing an already lower-cased text changes nothing |
| Strings.CapitalizeKeepsLabel | frontend/app/components/TextAnalysis.tsx:133-134 | capitalising keeps the length, and the lower-case form of the label is unchanged |
| Strings.CapitalizeIdempotent | frontend/app/components/TextAnalysis.tsx:133-134 | capitalising twice is the same as capitalising once |
| SentimentService.KeywordCount | backend/api/services/sentiment_service.py:63-64 | the count never exceeds the number of keywords: each keyword contributes at most 1 |
| SentimentService.KeywordCountIsHits | backend/api/services/sentiment_service.py:63-64 | over a list without duplicates, the count is the number of distinct keywords the text contains |
| SentimentService.KeywordsDistinct | backend/api/services/sentiment_service.py:60-61 | neither keyword list holds a word twice |
| SentimentService.KeywordsLower | backend/api/services/sentiment_service.py:60-61 | every keyword is already lower case |
| SentimentService.HitsIgnoreCase | backend/api/services/sentiment_service.py:58-64 | for lower-case keywords, searching the lowered text finds exactly the keywords contained ignoring letter case |
| SentimentService.CountsAreHits | backend/api/services/sentiment_service.py:58-64 | both counts equal the number of distinct keywords the text contains ignoring case |
| SentimentService.FallbackAnalysis | backend/api/services/sentiment_service.py:56-88 | every branch echoes the text; the two scores sum to 1; confidence lies in [0.5, 0.9]; the label is positive, negative or neutral |
| SentimentService.FallbackPositiveCase | backend/api/services/sentiment_service.py:66-70 | the label is "positive" iff more positive than negative keywords occur; then confidence = min(0.9, 0.5 + 0.1·count) = positive score, and negative score = 1 − confidence |
| SentimentService.FallbackNegativeCase | backend/api/services/sentiment_service.py:71-75 | the label is "negative" iff more negative keywords occur; then confidence = min(0.9, 0.5 + 0.1·count) = negative score, and positive score = 1 − confidence |
| SentimentService.FallbackNeutralCase | backend/api/services/sentiment_service.py:76-80 | the label is "neutral" iff the counts are equal (zero included); then confidence and both scores are 0.5 |
| SentimentService.FallbackIgnoresCase | backend/api/services/sentiment_service.py:58 | the analysis of a text and of its lower-cased form agree in everything but the echoed text |
| SentimentService.LastScoreAbsent | backend/api/services/sentiment_service.py:29-36 | a label absent from the classifier's result keeps score 0 |
| SentimentService.LastScoreIsLast | backend/api/services/sentiment_service.py:32-36 | for a repeated label the last entry's score is the one kept |
| SentimentService.ExtractScores | backend/api/services/sentiment_service.py:29-36 | the loop leaves each score equal to the last entry with that label, or 0 if there is none |
| SentimentService.Decide | backend/api/services/sentiment_service.py:38-51 | the label is "positive" iff the positive score is strictly greater, otherwise "negative" (ties included); confidence is the larger score; text and scores are returned as given |
| SentimentService.AnalyzeSentiment | backend/api/services/sentiment_service.py:18-54 | the text is echoed; if the classifier raises, the result is the keyword fallback; otherwise it is the decision on the scores the loop extracted |
| YouTubeService.IdAt | backend/api/services/sentiment_service.py:99 | `([^&]{11})` matches at an index iff 11 characters remain there and none is '&'; the capture is those 11 characters |
| YouTubeService.NextIndexOf | backend/api/services/sentiment_service.py:99 | the index of the first given character from a position on, or the end: with a newline, the furthest extent a `.*` can reach; with '/', the extent of `[^/]+` |
| YouTubeService.TailAt | backend/api/services/sentiment_service.py:99 | any id this part of the pattern captures is an 11-character run without '&' taken from the URL |
| YouTubeService.GreedyThen | backend/api/services/sentiment_service.py:99 | any id captured after a greedy `.*` is an 11-character run without '&' taken from the URL |
| YouTubeService.AfterHost | backend/api/services/sentiment_service.py:99 | any id captured after `youtube.com/` is an 11-character run without '&' taken from the URL |
| YouTubeService.MatchFrom | backend/api/services/sentiment_service.py:99 | any id captured by the optional scheme, the optional `www.`, either host and what follows is an 11-character run without '&' taken from the URL |
| YouTubeService.MatchAt | backend/api/services/sentiment_service.py:99 | any id captured by the pattern anchored at an index is an 11-character run without '&' taken from the URL |
| YouTubeService.FirstFrom | backend/api/services/sentiment_service.py:100 | what `re.search` does with the start indices: try each in order and keep the first match found |
| YouTubeService.FirstFromIsFirst | backend/api/services/sentiment_service.py:100 | scanning start indices in order finds nothing iff no index yields a match; otherwise it finds what the first index yielding one yields |
| YouTubeService.SearchFrom | backend/api/services/sentiment_service.py:100 | any id `re.search` captures is an 11-character run without '&' taken from the URL |
| YouTubeService.ExtractVideoId | backend/api/services/sentiment_service.py:97-103 | a returned id has length 11, contains no '&' and occurs in the URL; every failure is ValueError("Invalid YouTube URL") |
| YouTubeServiceProperties.SearchIsLeftmost | backend/api/services/sentiment_service.py:100 | there is no match iff the pattern matches at no index; a match is the one at the leftmost index where the pattern matches |
| YouTubeServiceProperties.GreedyTakesLast | backend/api/services/sentiment_service.py:99 | a greedy `.*` settles on the largest extent after which the rest of the pattern matches |
| YouTubeServiceProperties.GreedyFails | backend/api/services/sentiment_service.py:99 | a greedy `.*` fails when the rest matches after no extent |
| YouTubeServiceProperties.ShortLinkYieldsId | backend/api/services/sentiment_service.py:99-103 | `https://youtu.be/` followed by 11 characters without '&' yields exactly those 11 characters, whatever follows |
| YouTubeServiceProperties.WatchHasNoSegment | backend/api/services/sentiment_service.py:99 | after the host, `watch?v=` and an id contain no `segment/` alternative that could capture anything |
| YouTubeServiceProperties.WatchQuerySettles | backend/api/services/sentiment_service.py:99 | the greedy `.*` before `[?&]v=` settles on an empty extent and captures the id |
| YouTubeServiceProperties.WatchQueryYieldsId | backend/api/services/sentiment_service.py:99 | after the host, `watch?v=` followed by an id yields that id |
| YouTubeServiceProperties.FullHostMatches | backend/api/services/sentiment_service.py:99 | `https://www.youtube.com/` at the start, followed by a capture after the host, makes the anchored match that capture |
| YouTubeServiceProperties.WatchUrlMatchesAtStart | backend/api/services/sentiment_service.py:99 | the pattern anchored at the start of `https://www.youtube.com/watch?v=` and an id captures the id |
| YouTubeServiceProperties.WatchUrlYieldsId | backend/api/services/sentiment_service.py:99-103 | `https://www.youtube.com/watch?v=` followed by an id yields that id |
| YouTubeServiceProperties.ShortLinkAnywhereAccepted | backend/api/services/sentiment_service.py:99-100 | a `youtu.be/` anywhere in the URL followed by 11 characters without '&' makes extraction succeed |
| YouTubeServiceProperties.HostNamed | backend/api/services/sentiment_service.py:99 | whichever part of the pattern a match starts from, the URL contains one of the two hosts |
| YouTubeServiceProperties.AcceptedUrlNamesHost | backend/api/services/sentiment_service.py:99-103 | every URL the extraction accepts contains `youtube.com/` or `youtu.be/` |
| YouTubeEndpoint.Filter | backend/api/endpoints/youtube.py:55-56 | the filtered list is no longer than the input, and every element in it has the wanted label |
| YouTubeEndpoint.FilterKeepsMatching | backend/api/endpoints/youtube.py:55-56 | the filtered list is a sub-multiset of the input that keeps every element with the wanted label, as often as it occurs |
| YouTubeEndpoint.FilterAppend | backend/api/endpoints/youtube.py:55-56 | filtering a list with one more result appends that result exactly when it has the wanted label |
| YouTubeEndpoint.NegativeCountCoversNeutral | backend/api/endpoints/youtube.py:44-47 | the negative count is at least the number of "negative" plus "neutral" results, because every label other than "positive" counts as negative |
| YouTubeEndpoint.CollectResults | backend/api/endpoints/youtube.py:30-47 | the loop keeps every result in order; the positive count is the number of results labelled exactly "positive"; positive and negative counts add up to the number of results |
| YouTubeEndpoint.Percentage | backend/api/endpoints/youtube.py:51-52 | a percentage times the total is 100 times the count, and it lies in [0, 100] when the count is at most the total |
| YouTubeEndpoint.PercentagesSplitHundred | backend/api/endpoints/youtube.py:50-52 | with a non-zero total, the two percentages sum to 100 and each lies in [0, 100] |
| YouTubeEndpoint.PercentageOrder | backend/api/endpoints/youtube.py:51-52 | over one total, one percentage exceeds the other iff its count does |
| YouTubeEndpoint.InsertByConfidence | backend/api/endpoints/youtube.py:59-60 | insertion adds exactly that element: the result is the list's multiset plus the element |
| YouTubeEndpoint.InsertKeepsSorted | backend/api/endpoints/youtube.py:59-60 | inserting into a list sorted by descending confidence keeps it sorted |
| YouTubeEndpoint.SortByConfidence | backend/api/endpoints/youtube.py:59-60 | the sorted list is in non-increasing confidence and is a permutation of the input |
| YouTubeEndpoint.InsertKeepsOrder | backend/api/endpoints/youtube.py:59-60 | insertion places the new element ahead of the elements of equal confidence already there, which came later in the input, so the sort is stable |
| YouTubeEndpoint.SortIsStable | backend/api/endpoints/youtube.py:59-60 | for every confidence value, its elements appear in the sorted list in input order (`sorted(..., reverse=True)` is stable) |
| YouTubeEndpoint.WithConfidenceOfPrefix | backend/api/endpoints/youtube.py:59-60 | the elements of one confidence in a prefix of a list come first among those of the whole list |
| YouTubeEndpoint.TopFive | backend/api/endpoints/youtube.py:59-60 | the top list has min(5, matching results) elements, in non-increasing confidence |
| YouTubeEndpoint.TopFiveFromInput | backend/api/endpoints/youtube.py:55-60 | the top list is a sub-multiset of the matching results and so of all results; each of its elements has the wanted label exactly (for "negative", neutral results are excluded) |
| YouTubeEndpoint.PrefixDominates | backend/api/endpoints/youtube.py:59-60 | in a list sorted by descending confidence, no later element has a higher confidence than an earlier one |
| YouTubeEndpoint.TopFiveAreMostConfident | backend/api/endpoints/youtube.py:59-60 | no matching result left out of the top list has a higher confidence than one kept in it |
| YouTubeEndpoint.TopFiveIsStable | backend/api/endpoints/youtube.py:59-60 | among equal confidences, the top list keeps the input order |
| YouTubeEndpoint.ConstructResponse | backend/api/endpoints/youtube.py:63-73 | building the response succeeds iff both `processed_comments` and `failed_comments` are supplied; otherwise it raises a ValueError |
| YouTubeEndpoint.ResponseAsWritten | backend/api/endpoints/youtube.py:63-73 | the response built as youtube.py builds it, without `processed_comments` and `failed_comments` |
| YouTubeEndpoint.ResponseAsWrittenIsRefused | backend/api/endpoints/youtube.py:63-76 | the response built as youtube.py builds it is always refused, and so reaches the client as status 400 |
| YouTubeEndpoint.Summarize | backend/api/endpoints/youtube.py:50-73 | the response stores the video id and the result count; positive+negative = total and processed ≤ total; the percentages sum to 100; the top lists are the two top fives |
| YouTubeEndpoint.SummaryPercentages | backend/api/endpoints/youtube.py:51-52 | both percentages of a response are taken over the number of results |
| YouTubeEndpoint.BuiltIsSummary | backend/api/endpoints/youtube.py:63-73 | building the response from the counts, percentages and top lists, with every result processed and none failed, yields the summary |
| YouTubeEndpoint.ErrorResponse | backend/api/endpoints/youtube.py:75-78 | a ValueError becomes 400 with its message; any other exception becomes 500 with "Error analyzing YouTube comments: " before its text |
| YouTubeEndpoint.AggregateResultsAsWritten | backend/api/endpoints/youtube.py:30-76 | as written: no results give 500 "…: division by zero"; any results give 400 with the validation message for the two missing fields |
| YouTubeEndpoint.AggregateResults | backend/api/endpoints/youtube.py:30-73 | no results give 500 "…: division by zero"; otherwise the response is the summary of the results |
| YouTubeEndpoint.RespondToBatch | backend/api/endpoints/youtube.py:27-78 | a raising batch analysis gives its error response; otherwise the outcome is that of the aggregation |
| YouTubeEndpoint.AnalyzeYouTubeComments | backend/api/endpoints/youtube.py:11-78 | each outcome is spelt out: an invalid URL gives 400; a failed fetch or batch gives its error response; no comments gives 500 "…: 404: No comments found for this video"; empty results give 500 "…: division by zero"; otherwise the summary |
| Models.DecimalDigits | backend/api/endpoints/youtube.py:78 | the status code in `str()` of an HTTPException is written as a non-empty run of decimal digits that denotes the code, with no leading zero unless the code is 0 |
| Models.Str | backend/api/endpoints/youtube.py:76-78 | `str(e)`: a ValueError's message; "<status>: <detail>" for an HTTPException; "division by zero" for a ZeroDivisionError; any other exception's own text |
| SentimentDisplay.ToneIgnoresCase | frontend/app/components/TextAnalysis.tsx:41 | the switch on `sentiment.toLowerCase()` gives the same arm for a label and for its lower-cased form |
| SentimentDisplay.ToneOf | frontend/app/components/TextAnalysis.tsx:41-50 | the arm of the switch on `sentiment.toLowerCase()`: "positive", "negative" or "neutral" exactly, otherwise `default` |
| SentimentDisplay.PalettesConventional | frontend/app/components/TextAnalysis.tsx:40-51 | in both palettes the positive, negative and neutral classes differ and `default` reuses the neutral class (the panel palette is also at YouTubeAnalysis.tsx:66-77; the page's is at page.tsx:120-131) |
| SentimentDisplay.SentimentColor | frontend/app/components/YouTubeAnalysis.tsx:66-77 | in such a palette, the colour is the positive class iff the arm is positive, the negative class iff negative, and the neutral class iff neutral or unknown |
| SentimentDisplay.UnknownColouredNeutral | frontend/app/components/YouTubeAnalysis.tsx:66-77 | an unrecognised label gets the same colour as "neutral" in both palettes |
| SentimentDisplay.ColorIgnoresCase | frontend/app/components/YouTubeAnalysis.tsx:67 | a colour depends only on the lower-cased label, so letter case never matters |
| SentimentDisplay.SentimentEmoji | frontend/app/page.tsx:133-144 | the emoji of each arm, as the page and YouTubeAnalysis.tsx:79-90 return it |
| SentimentDisplay.EmojiSeparatesTones | frontend/app/page.tsx:133-144 | two labels get the same emoji iff they fall in the same arm; the default arm has its own emoji |
| SentimentDisplay.TextPanelEmoji | frontend/app/components/TextAnalysis.tsx:53-64 | the characters the text panel's file holds for each arm |
| SentimentDisplay.TextPanelEmojiConflates | frontend/app/components/TextAnalysis.tsx:53-64 | as the text panel's file holds its emoji, "negative" and "neutral" display the same characters |
| SentimentDisplay.DisplayLabel | frontend/app/components/TextAnalysis.tsx:133-134 | the shown label is as long as the sentiment; its first character is upper-cased and the rest is unchanged |
| SentimentDisplay.DisplayLabelKeepsTone | frontend/app/components/TextAnalysis.tsx:128-134 | the capitalised label falls in the same colour and emoji arm as the raw one; capitalising is idempotent |
| SentimentDisplay.DisplayLabelExamples | frontend/app/components/TextAnalysis.tsx:133-134 | "positive" and "Positive" both show as "Positive"; the empty label stays empty |
| TextAnalysis.TextAnalysisPanel.constructor | frontend/app/components/TextAnalysis.tsx:15-18 | the panel starts with empty text, no result, no error, not loading and nothing sent |
| TextAnalysis.TextAnalysisPanel.SetText | frontend/app/components/TextAnalysis.tsx:86 | typing changes only the text |
| TextAnalysis.TextAnalysisPanel.AnalyzeSentiment | frontend/app/components/TextAnalysis.tsx:20-31 | blank text sets "Please enter some text to analyze" and sends nothing; otherwise the panel is loading with no error and no result, and the trimmed text is the one request sent |
| TextAnalysis.TextAnalysisPanel.Settle | frontend/app/components/TextAnalysis.tsx:32-37 | on success the result is the response data; on failure the error is the fixed message and no result is shown; loading ends either way |
| YouTubeAnalysis.IsYouTubeUrl | frontend/app/components/YouTubeAnalysis.tsx:42-43 | the client regex, case-sensitive: at the start an optional `http://` or `https://`, an optional `www.`, then `youtube.com/` or `youtu.be/`, then at least one character that is not a line terminator |
| YouTubeAnalysis.CommonFormsAccepted | frontend/app/components/YouTubeAnalysis.tsx:42-43 | www, short-link and scheme-less links with a path pass the client's check |
| YouTubeAnalysis.BareHostRefused | frontend/app/components/YouTubeAnalysis.tsx:42 | a host with nothing after its slash fails the check |
| YouTubeAnalysis.AcceptedStartsLowerCase | frontend/app/components/YouTubeAnalysis.tsx:42 | every URL that passes starts with a lower-case 'h', 'w' or 'y', because the pattern has no case-insensitive flag |
| YouTubeAnalysis.FailureMessage | frontend/app/components/YouTubeAnalysis.tsx:57-60 | the error line is never empty, and it is the server's `detail` whenever that is present and non-empty |
| YouTubeAnalysis.FailureMessageCases | frontend/app/components/YouTubeAnalysis.tsx:57-60 | the fixed message appears exactly when `detail` is absent or empty (or is that same message) |
| YouTubeAnalysis.OverallLabel | frontend/app/components/YouTubeAnalysis.tsx:252-254 | "Overall Positive" iff the positive percentage is strictly greater, otherwise "Overall Negative"; a tie reads negative |
| YouTubeAnalysis.OverallEmoji | frontend/app/components/YouTubeAnalysis.tsx:247-249 | the smiling emoji is shown exactly when the verdict is "Overall Positive" |
| YouTubeAnalysis.YouTubeAnalysisPanel.constructor | frontend/app/components/YouTubeAnalysis.tsx:30-33 | the panel starts with an empty URL, no result, no error, not loading and nothing sent |
| YouTubeAnalysis.YouTubeAnalysisPanel.SetUrl | frontend/app/components/YouTubeAnalysis.tsx:113 | typing changes only the URL |
| YouTubeAnalysis.CheckUrl | frontend/app/components/YouTubeAnalysis.tsx:36-46 | a URL is accepted iff it is not blank and its trimmed form passes the pattern, and then it is that trimmed form; a blank URL gives "Please enter a YouTube URL"; otherwise a failing one gives "Please enter a valid YouTube URL" |
| YouTubeAnalysis.YouTubeAnalysisPanel.AnalyzeYouTubeComments | frontend/app/components/YouTubeAnalysis.tsx:35-54 | a URL refused by the checks sets their message, sends nothing, and keeps result and loading; an accepted one makes the panel loading with no error and no result, and the trimmed URL is sent |
| YouTubeAnalysis.YouTubeAnalysisPanel.Settle | frontend/app/components/YouTubeAnalysis.tsx:55-63 | on success the result is the response data; on failure the error is the server's detail or the fixed message; loading ends either way |
| Home.Render | frontend/app/page.tsx:147-187 | the analysis screen shows exactly when the backend is awake, on the active tab; "checking" shows the waiting screen |
| Home.GateHidesTabs | frontend/app/page.tsx:147-187 | until the backend is awake, the screen does not depend on the tab |
| Home.HomePage.constructor | frontend/app/page.tsx:41-67 | the page starts checking, on the text tab, with nothing shown, and the ping is the only request |
| Home.HomePage.OnPingSettled | frontend/app/page.tsx:56-63 | a successful ping makes the backend awake, a failed one makes it unreachable; nothing else changes |
| Home.HomePage.SelectTab | frontend/app/page.tsx:205-215 | switching tabs changes only the active tab, leaving results, error and loading as they were |
| Home.HomePage.SetText | frontend/app/page.tsx:244 | typing changes only the text |
| Home.HomePage.SetYoutubeUrl | frontend/app/page.tsx:323 | typing changes only the URL |
| Home.HomePage.AnalyzeSentiment | frontend/app/page.tsx:69-83 | blank text sets the error and sends nothing; otherwise both results are cleared and the trimmed text is sent; the backend status is kept |
| Home.HomePage.AnalyzeYouTubeComments | frontend/app/page.tsx:93-107 | only a blank URL is refused (there is no pattern check here); otherwise both results are cleared and the trimmed URL is sent |
| Home.HomePage.OnSentimentSettled | frontend/app/page.tsx:84-90 | success shows the text result, failure shows the fixed message; the YouTube result stays cleared; loading ends |
| Home.HomePage.OnYouTubeSettled | frontend/app/page.tsx:108-117 | success shows the video result, failure shows the detail or the fixed message; the text result stays cleared; loading ends |
| EndToEnd.Deliver | frontend/app/components/YouTubeAnalysis.tsx:52-60 | a 2xx response reaches the panel as success; an error status reaches it with the server's `detail` |
| EndToEnd.ServerErrorsShownVerbatim | backend/api/endpoints/youtube.py:75-78 | every error response with a message reaches the YouTube panel's error line word for word |
| EndToEnd.VerdictFollowsCounts | frontend/app/components/YouTubeAnalysis.tsx:247-254 | for a summary, "Overall Positive" is shown iff there are more positive than negative results |
| EndToEnd.EvenSplitReadsNegative | frontend/app/components/YouTubeAnalysis.tsx:252-254 | half positive results read "Overall Negative" |
| EndToEnd.ShortLinkPassesBothChecks | frontend/app/components/YouTubeAnalysis.tsx:42-43 | a short link with an eleven-character id passes the client's check, and the server extracts that id |
| EndToEnd.ClientPassesWhatServerRefuses | frontend/app/components/YouTubeAnalysis.tsx:42-43 | `youtu.be/x` passes the client's check, the server refuses it with 400 "Invalid YouTube URL", and the panel shows that message |
| EndToEnd.AsWrittenPanelShowsValidationError | backend/api/endpoints/youtube.py:63-76 | with the response built as written, every request that gets that far fails, and the panel shows the validation message |

## Left out

- Network and foreign calls are not modelled. This covers axios requests, the
  hosted classifier, the YouTube Data API client, `load_dotenv` and the
  environment lookups. Their outcomes are parameters of the model instead.
- `get_comments` and its pagination loop are not modelled. They depend only on
  the API's responses, and their outcome is the `CommentsOutcome` input.
- `HuggingFaceSentimentService.__init__` and `YouTubeService.__init__` are not
  modelled. They only configure clients. The ValueError raised for a missing
  API key happens at import time.
- `analyze_sentiment_batch` is called by youtube.py but not defined by the
  service. Its outcome is the `BatchOutcome` input.
- Strings.Lower: case mapping is ASCII only. Python's `str.lower` and
  JavaScript's `toLowerCase`/`toUpperCase` also map non-ASCII letters.
- Floating point is modelled as exact reals. This covers confidence arithmetic,
  percentages and `toFixed(1)` formatting, and IEEE rounding is not
  represented.
- SentimentService.AnalyzeSentiment: a result item without a `label` or `score`
  key would raise inside the `try` and fall back to the keywords. The model
  assumes every item has both keys.
- The classifier's output records contain only a label and a score. Other
  fields they may carry are not represented.
- YouTubeAnalysis.FailureMessage: covers only a string or absent `detail`.
  FastAPI's 422 responses carry a list there, which JavaScript would show
  differently.
- YouTubeEndpoint.AggregateResults: builds the corrected response, with every result counted as processed and none as failed. The code as written is refused with 400; `AggregateResultsAsWritten` models that.
- YouTubeEndpoint.RespondToBatch: its success branch is the corrected response from `AggregateResults`, not the 400 the code as written gives.
- YouTubeEndpoint.AnalyzeYouTubeComments: its success branch is the corrected response from `AggregateResults`. Every other branch follows the code as written.
- YouTubeEndpoint.MissingFieldsMessage stands in for pydantic's exact
  validation text. The model states only that a ValueError carrying it becomes
  a 400.
- The extra `comments=` argument at youtube.py:70 is an undeclared field, and
  pydantic ignores it. So is the `comments` field the page's TypeScript
  interface declares.
- Rendering markup, animations, the counters' layout, the
  `window.location.reload` button and the `console` logging are not modelled.
- Navbar, HeroSection, GlobalLoader and the layout are outside this model, and
  so are the ping, health and sentiment endpoints and the routing module.
- React's batching of state updates is not modelled. Each handler runs as one
  step up to its `await`, and as one step for its continuation.

## Findings

| source | as written | input that shows it | evidently intended | confidence | as-written member | corrected member |
|---|---|---|---|---|---|---|
| backend/api/endpoints/youtube.py:63-73 | the response is built without `processed_comments` and `failed_comments`, which models.py:31-32 declares as required, so pydantic raises a ValidationError (a ValueError) that line 75-76 turns into 400 | any video URL whose comments are fetched and analysed into at least one result | a response carrying every declared field, with each analysed result counted as processed and none as failed | not executed | YouTubeEndpoint.ResponseAsWrittenIsRefused | YouTubeEndpoint.Summarize |
