/**
 * The result card src/components/search-result-card.tsx: what one card shows
 * for a grouped video. Its `formatTimestamp` and `formatViewCount` are the
 * ones in `Formatting`; its own `formatDate` has an invalid-date branch the
 * search page's lacks. Start times arrive already rounded to whole seconds.
 */
module ResultCard {
  import opened Wrappers
  import opened Json
  import opened Formatting
  import SearchPage

  datatype CardTranscript = CardTranscript(content: string, startSeconds: nat, similarity: Option<real>)

  /**
   * The `video` prop. `thumbnailUrl` and `summary` are `None` when the
   * caller leaves them undefined; `viewCount` is whatever value it passes.
   */
  datatype CardVideo = CardVideo(
    videoId: string, url: string, title: string, thumbnailUrl: Option<string>, date: Option<string>,
    viewCount: JsValue, channelName: string, summary: Option<string>, transcripts: seq<CardTranscript>)

  datatype SearchKind = Keyword | Concept

  /** One "relevant moment": its link, its time label, its text and the similarity shown beside it. */
  datatype Moment = Moment(link: string, stamp: string, content: string, shownSimilarity: Option<real>)

  /** What the card shows. */
  datatype CardView = CardView(
    headLink: string, thumbnail: string, title: string, channelName: string, views: string,
    dateLabel: string, summary: string, moments: seq<Moment>)

  const PlaceholderThumbnail := "/placeholder.svg"
  const NoSummary := "No summary available."

  /** `formatDate` of the card: null or "" gives "Date unavailable", an unparsable string "Invalid date". */
  function FormatDate(date: Option<string>, parseMs: string -> Option<int>, localeDate: int -> string): string {
    if date.None? || date.value == "" then "Date unavailable"
    else match parseMs(date.value)
      case None => "Invalid date"
      case Some(ms) => localeDate(ms)
  }

  /**
   * The card's `formatDate` and the search page's agree on every input but
   * an unparsable date, where the card says "Invalid date" and the page
   * "Invalid Date".
   */
  lemma {:induction false} FormatDateMatchesPage(date: Option<string>, parseMs: string -> Option<int>, localeDate: int -> string)
    ensures !(date.Some? && date.value != "" && parseMs(date.value).None?) ==>
      FormatDate(date, parseMs, localeDate) == SearchPage.FormatDate(date, parseMs, localeDate)
    ensures date.Some? && date.value != "" && parseMs(date.value).None? ==>
      FormatDate(date, parseMs, localeDate) == "Invalid date" && SearchPage.FormatDate(date, parseMs, localeDate) == "Invalid Date"
  {
  }

  /** `a || fallback` on an optional string: the fallback replaces a missing or empty value. */
  function OrElse(a: Option<string>, fallback: string): (r: string)
    requires fallback != ""
    ensures r != ""
    ensures a.Some? && a.value != "" ==> r == a.value
    ensures a.None? || a == Some("") ==> r == fallback
  {
    if a.Some? && a.value != "" then a.value else fallback
  }

  /** The moment shown for one transcript; the similarity only in concept mode and only when present. */
  function MomentOf(url: string, t: CardTranscript, kind: SearchKind): Moment {
    Moment(VideoLink(url, t.startSeconds), FormatTimestamp(t.startSeconds), t.content,
      if kind == Concept then t.similarity else None)
  }

  function Moments(url: string, ts: seq<CardTranscript>, kind: SearchKind): (ms: seq<Moment>)
    ensures |ms| == |ts|
    ensures forall i :: 0 <= i < |ts| ==> ms[i] == MomentOf(url, ts[i], kind)
  {
    if ts == [] then [] else [MomentOf(url, ts[0], kind)] + Moments(url, ts[1..], kind)
  }

  /**
   * `SearchResultCard`. The header link reads `transcripts[0]`, so a video
   * with no transcripts makes the render throw: `None`.
   */
  function Render(
    video: CardVideo, kind: SearchKind,
    parseMs: string -> Option<int>, localeDate: int -> string, group: nat -> string): (r: Option<CardView>)
    ensures r.None? <==> video.transcripts == []
    ensures r.Some? ==>
      && r.value.thumbnail != "" && r.value.summary != ""
      && |r.value.moments| == |video.transcripts|
      && r.value.headLink == r.value.moments[0].link
    ensures r.Some? ==>
      && r.value.thumbnail == OrElse(video.thumbnailUrl, PlaceholderThumbnail)
      && r.value.summary == OrElse(video.summary, NoSummary)
      && r.value.title == video.title && r.value.channelName == video.channelName
      && r.value.views == FormatViewCount(video.viewCount, group)
      && r.value.dateLabel == FormatDate(video.date, parseMs, localeDate)
  {
    if video.transcripts == [] then None
    else
      var moments := Moments(video.url, video.transcripts, kind);
      Some(CardView(
        VideoLink(video.url, video.transcripts[0].startSeconds),
        OrElse(video.thumbnailUrl, PlaceholderThumbnail),
        video.title, video.channelName,
        FormatViewCount(video.viewCount, group),
        FormatDate(video.date, parseMs, localeDate),
        OrElse(video.summary, NoSummary),
        moments))
  }

  /**
   * Every moment of a rendered card links to its own transcript's second and
   * is labelled with a time that reads back as that second; a similarity is
   * shown exactly in concept mode for a transcript that has one.
   */
  lemma {:induction false} RenderMoments(
    video: CardVideo, kind: SearchKind,
    parseMs: string -> Option<int>, localeDate: int -> string, group: nat -> string, i: nat)
    requires i < |video.transcripts|
    ensures var r := Render(video, kind, parseMs, localeDate, group);
      && r.Some?
      && LinkSeconds(video.url, r.value.moments[i].link) == Some(video.transcripts[i].startSeconds)
      && ParseTimestamp(r.value.moments[i].stamp) == Some(video.transcripts[i].startSeconds)
      && r.value.moments[i].content == video.transcripts[i].content
      && (r.value.moments[i].shownSimilarity.Some? <==> kind == Concept && video.transcripts[i].similarity.Some?)
  {
    var t := video.transcripts[i];
    VideoLinkRoundTrip(video.url, t.startSeconds);
    TimestampRoundTrip(t.startSeconds);
  }

  /** A numeric view count shows as "N/A views". */
  lemma {:induction false} RenderNumericViews(
    video: CardVideo, kind: SearchKind,
    parseMs: string -> Option<int>, localeDate: int -> string, group: nat -> string)
    requires video.transcripts != [] && video.viewCount.JNum?
    ensures Render(video, kind, parseMs, localeDate, group).value.views == "N/A views"
  {
    ViewCountCases(video.viewCount, group);
  }
}
