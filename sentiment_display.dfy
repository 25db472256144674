/** How the frontend presents a sentiment label: the `switch` on
    `sentiment.toLowerCase()` in every `getSentimentColor` and
    `getSentimentEmoji`, the two colour palettes, and the capitalised label. */
module SentimentDisplay {
  import opened Strings

  /** The four arms of the switch: three labels and `default`. */
  datatype Tone = PositiveTone | NegativeTone | NeutralTone | UnknownTone

  function ToneOf(name: string): Tone {
    var lowered := Lower(name);
    if lowered == "positive" then PositiveTone
    else if lowered == "negative" then NegativeTone
    else if lowered == "neutral" then NeutralTone
    else UnknownTone
  }

  /** The switch ignores letter case. */
  lemma ToneIgnoresCase(name: string)
    ensures ToneOf(name) == ToneOf(Lower(name))
  {
    LowerIdempotent(name);
  }

  lemma NeutralLabelIsNeutral()
    ensures ToneOf("neutral") == NeutralTone
  {
    LowerWithoutUpper("neutral");
  }

  /** The four class strings a `getSentimentColor` returns, one per arm. */
  datatype Palette = Palette(positive: string, negative: string, neutral: string, fallback: string)

  /** The palette of TextAnalysis.tsx and YouTubeAnalysis.tsx. */
  const PanelPalette := Palette(
    "text-green-400 bg-green-900/20", "text-red-400 bg-red-900/20",
    "text-gray-400 bg-gray-900/20", "text-gray-400 bg-gray-900/20")

  /** The palette of page.tsx. */
  const PagePalette := Palette(
    "text-green-600 bg-green-100", "text-red-600 bg-red-100",
    "text-gray-600 bg-gray-100", "text-gray-600 bg-gray-100")

  /** Positive, negative and neutral classes differ, and `default` reuses the
      neutral one. */
  predicate Conventional(p: Palette) {
    p.positive != p.negative && p.positive != p.neutral && p.negative != p.neutral
    && p.fallback == p.neutral
  }

  lemma PalettesConventional()
    ensures Conventional(PanelPalette) && Conventional(PagePalette)
  {
  }

  /** `getSentimentColor`: the switch on the lower-cased label picks the arm. */
  function SentimentColor(palette: Palette, name: string): (r: string)
    requires Conventional(palette)
    ensures r == palette.positive <==> ToneOf(name) == PositiveTone
    ensures r == palette.negative <==> ToneOf(name) == NegativeTone
    ensures r == palette.neutral <==> ToneOf(name) in {NeutralTone, UnknownTone}
  {
    match ToneOf(name)
    case PositiveTone => palette.positive
    case NegativeTone => palette.negative
    case NeutralTone => palette.neutral
    case UnknownTone => palette.fallback
  }

  /** An unrecognised label is coloured like "neutral", in both palettes and
      whatever its letter case. */
  lemma UnknownColouredNeutral(name: string)
    requires ToneOf(name) == UnknownTone
    ensures SentimentColor(PanelPalette, name) == SentimentColor(PanelPalette, "neutral")
    ensures SentimentColor(PagePalette, name) == SentimentColor(PagePalette, "neutral")
  {
    NeutralLabelIsNeutral();
  }

  lemma ColorIgnoresCase(palette: Palette, name: string)
    requires Conventional(palette)
    ensures SentimentColor(palette, name) == SentimentColor(palette, Lower(name))
  {
    ToneIgnoresCase(name);
  }

  /** `getSentimentEmoji` of the YouTube panel and of the page. */
  function SentimentEmoji(name: string): string {
    match ToneOf(name)
    case PositiveTone => "\U{1F60A}"
    case NegativeTone => "\U{1F61E}"
    case NeutralTone => "\U{1F610}"
    case UnknownTone => "\U{1F914}"
  }

  /** Unlike the colour, the emoji tells every arm apart: "default" has its own. */
  lemma EmojiSeparatesTones(a: string, b: string)
    ensures SentimentEmoji(a) == SentimentEmoji(b) <==> ToneOf(a) == ToneOf(b)
  {
  }

  /** The label shown by the text panel: `charAt(0).toUpperCase() + slice(1)`. */
  function DisplayLabel(sentiment: string): (r: string)
    ensures |r| == |sentiment|
    ensures |sentiment| > 0 ==> r[0] == UpperChar(sentiment[0]) && r[1..] == sentiment[1..]
  {
    Capitalize(sentiment)
  }

  /** Capitalising keeps the label's identity, so the colour is unaffected. */
  lemma DisplayLabelKeepsTone(sentiment: string)
    ensures ToneOf(DisplayLabel(sentiment)) == ToneOf(sentiment)
    ensures DisplayLabel(DisplayLabel(sentiment)) == DisplayLabel(sentiment)
  {
    CapitalizeKeepsLabel(sentiment);
  }

  lemma DisplayLabelExamples()
    ensures DisplayLabel("positive") == "Positive"
    ensures DisplayLabel("Positive") == "Positive"
    ensures DisplayLabel("") == ""
  {
  }

  /** `getSentimentEmoji` of the text panel as its file holds it: each emoji
      was stored as its UTF-8 bytes read back one byte per character, and the
      last byte of the "negative" and "neutral" faces has no such character,
      so those two came out alike. */
  function TextPanelEmoji(name: string): string {
    match ToneOf(name)
    case PositiveTone => "\U{011F}\U{0178}\U{02DC}\U{0160}"
    case NegativeTone => "\U{011F}\U{0178}\U{02DC}"
    case NeutralTone => "\U{011F}\U{0178}\U{02DC}"
    case UnknownTone => "\U{011F}\U{0178}\U{00A4}\U{201D}"
  }

  /** The text panel shows "negative" and "neutral" with the same glyphs. */
  lemma TextPanelEmojiConflates(a: string, b: string)
    requires ToneOf(a) == NegativeTone && ToneOf(b) == NeutralTone
    ensures TextPanelEmoji(a) == TextPanelEmoji(b)
    ensures SentimentEmoji(a) != SentimentEmoji(b)
  {
  }
}
