/**
 * The search page src/app/search/page.tsx: a form whose state the handlers
 * update step by step, the grouping of result rows by video, and the date
 * label. (Its `formatTimestamp` and `formatViewCount` are in `Formatting`.)
 *
 * The webhook's answer is a parameter of each handler: rows, a non-OK
 * response with its text, or a thrown error with its message.
 */
module SearchPage {
  import opened Wrappers
  import opened Text
  import opened Json
  import opened SearchRoute

  /** A row of the webhook's answer. `viewCount` is whatever JSON the webhook sends. */
  datatype SearchResult = SearchResult(
    content: string, startTime: real, videoId: string, url: string, title: string,
    thumbnailUrl: string, date: Option<string>, viewCount: JsValue, channelName: string,
    similarity: Option<real>)

  datatype Transcript = Transcript(content: string, startTime: real, similarity: Option<real>)

  datatype GroupedVideo = GroupedVideo(
    videoId: string, url: string, title: string, thumbnailUrl: string, date: Option<string>,
    viewCount: JsValue, channelName: string, transcripts: seq<Transcript>)

  // ------------------------------------------------------------ formatDate

  /**
   * `formatDate`: null or "" gives "Date unavailable"; otherwise the locale
   * date. This page has no invalid-date test, so an unparsable string reaches
   * `toLocaleDateString`, which gives "Invalid Date" for an invalid Date.
   */
  function FormatDate(date: Option<string>, parseMs: string -> Option<int>, localeDate: int -> string): (r: string)
    ensures date.None? || date == Some("") ==> r == "Date unavailable"
    ensures date.Some? && date.value != "" && parseMs(date.value).None? ==> r == "Invalid Date"
    ensures date.Some? && date.value != "" && parseMs(date.value).Some? ==> r == localeDate(parseMs(date.value).value)
  {
    if date.None? || date.value == "" then "Date unavailable"
    else match parseMs(date.value)
      case None => "Invalid Date"
      case Some(ms) => localeDate(ms)
  }

  // ------------------------------------------------------ grouping by video

  /** The video ids of `rs`, each once, in the order of their first appearance. */
  function FirstIds(rs: seq<SearchResult>): seq<string> {
    if rs == [] then []
    else
      var ids := FirstIds(rs[..|rs| - 1]);
      var id := rs[|rs| - 1].videoId;
      if id in ids then ids else ids + [id]
  }

  /** The ids listed are exactly the ids that occur, and none is listed twice. */
  lemma {:induction false} FirstIdsSpec(rs: seq<SearchResult>)
    ensures forall x :: x in FirstIds(rs) <==> exists j :: 0 <= j < |rs| && rs[j].videoId == x
    ensures forall a, b :: 0 <= a < b < |FirstIds(rs)| ==> FirstIds(rs)[a] != FirstIds(rs)[b]
  {
    if rs != [] {
      var init := rs[..|rs| - 1];
      FirstIdsSpec(init);
      forall x | (exists j :: 0 <= j < |rs| && rs[j].videoId == x) ensures x in FirstIds(rs) {
        var j :| 0 <= j < |rs| && rs[j].videoId == x;
        if j < |rs| - 1 {
          assert init[j].videoId == x;
        }
      }
      forall x | x in FirstIds(rs) ensures exists j :: 0 <= j < |rs| && rs[j].videoId == x {
        if x in FirstIds(init) {
          var j :| 0 <= j < |init| && init[j].videoId == x;
          assert rs[j].videoId == x;
        } else {
          assert rs[|rs| - 1].videoId == x;
        }
      }
    }
  }

  /** Ids first seen in an earlier prefix come first: the list only ever grows at the end. */
  lemma {:induction false} FirstIdsPrefix(rs: seq<SearchResult>, j: nat)
    requires j <= |rs|
    ensures FirstIds(rs[..j]) <= FirstIds(rs)
    decreases |rs|
  {
    if j < |rs| {
      var init := rs[..|rs| - 1];
      assert init[..j] == rs[..j];
      FirstIdsPrefix(init, j);
      var a, b, c := FirstIds(rs[..j]), FirstIds(init), FirstIds(rs);
      assert b <= c;
      assert a == b[..|a|] && b == c[..|b|];
      assert c[..|b|][..|a|] == c[..|a|];
    } else {
      assert rs[..j] == rs;
    }
  }

  function TranscriptOf(r: SearchResult): Transcript {
    Transcript(r.content, r.startTime, r.similarity)
  }

  /** The transcripts of video `id`: its rows, in input order. */
  function TranscriptsFor(rs: seq<SearchResult>, id: string): seq<Transcript> {
    if rs == [] then []
    else TranscriptsFor(rs[..|rs| - 1], id) + (if rs[|rs| - 1].videoId == id then [TranscriptOf(rs[|rs| - 1])] else [])
  }

  lemma {:induction false} TranscriptsForAbsent(rs: seq<SearchResult>, id: string)
    requires forall j :: 0 <= j < |rs| ==> rs[j].videoId != id
    ensures TranscriptsFor(rs, id) == []
  {
    if rs != [] {
      TranscriptsForAbsent(rs[..|rs| - 1], id);
    }
  }

  /** The metadata of a group, taken from row `r`, with no transcripts yet. */
  function Header(r: SearchResult): GroupedVideo {
    GroupedVideo(r.videoId, r.url, r.title, r.thumbnailUrl, r.date, r.viewCount, r.channelName, [])
  }

  /** Row `j` is the first row of its video. */
  predicate IsFirstOf(rs: seq<SearchResult>, j: nat)
    requires j < |rs|
  {
    forall k :: 0 <= k < j ==> rs[k].videoId != rs[j].videoId
  }

  /** `g` is the group of its video in `rs`: metadata of the first row, every row's transcript in order. */
  predicate GroupOf(rs: seq<SearchResult>, g: GroupedVideo) {
    && g.transcripts == TranscriptsFor(rs, g.videoId)
    && exists j: nat :: j < |rs| && IsFirstOf(rs, j) && g.(transcripts := []) == Header(rs[j])
  }

  /** Adding a row of another video leaves a group as it was. */
  lemma {:induction false} GroupOfExtend(p: seq<SearchResult>, r: SearchResult, g: GroupedVideo)
    requires GroupOf(p, g) && r.videoId != g.videoId
    ensures GroupOf(p + [r], g)
  {
    var q := p + [r];
    assert q[..|q| - 1] == p;
    var j: nat :| j < |p| && IsFirstOf(p, j) && g.(transcripts := []) == Header(p[j]);
    assert q[j] == p[j];
    assert IsFirstOf(q, j);
  }

  /** Adding a row of a video already seen appends its transcript. */
  lemma {:induction false} GroupOfAppend(p: seq<SearchResult>, r: SearchResult, g: GroupedVideo)
    requires GroupOf(p, g) && r.videoId == g.videoId
    ensures GroupOf(p + [r], g.(transcripts := g.transcripts + [TranscriptOf(r)]))
  {
    var q := p + [r];
    assert q[..|q| - 1] == p;
    var j: nat :| j < |p| && IsFirstOf(p, j) && g.(transcripts := []) == Header(p[j]);
    assert q[j] == p[j];
    assert IsFirstOf(q, j);
  }

  /** The first row of a video starts its group. */
  lemma {:induction false} GroupOfStart(p: seq<SearchResult>, r: SearchResult)
    requires forall j :: 0 <= j < |p| ==> p[j].videoId != r.videoId
    ensures GroupOf(p + [r], Header(r).(transcripts := [TranscriptOf(r)]))
  {
    var q := p + [r];
    assert q[..|q| - 1] == p;
    TranscriptsForAbsent(p, r.videoId);
    assert IsFirstOf(q, |p|);
  }

  /** The state of the grouping loop after the rows `p`: the ids in first-seen order, and each id's group. */
  ghost predicate Grouping(p: seq<SearchResult>, grouped: map<string, GroupedVideo>, order: seq<string>) {
    && order == FirstIds(p)
    && (forall id :: id in grouped <==> id in order)
    && forall id :: id in grouped ==> grouped[id].videoId == id && GroupOf(p, grouped[id])
  }

  /** A row of a video not seen before starts a group at the end of the order. */
  lemma {:induction false} GroupingNew(p: seq<SearchResult>, r: SearchResult, grouped: map<string, GroupedVideo>, order: seq<string>)
    requires Grouping(p, grouped, order) && r.videoId !in grouped
    ensures Grouping(p + [r], grouped[r.videoId := Header(r).(transcripts := [TranscriptOf(r)])], order + [r.videoId])
  {
    assert (p + [r])[..|p|] == p;
    FirstIdsSpec(p);
    GroupingOthers(p, r, grouped);
    GroupOfStart(p, r);
  }

  /** A row of a video already seen appends its transcript to that video's group. */
  lemma {:induction false} GroupingKnown(p: seq<SearchResult>, r: SearchResult, grouped: map<string, GroupedVideo>, order: seq<string>)
    requires Grouping(p, grouped, order) && r.videoId in grouped
    ensures var g := grouped[r.videoId];
      Grouping(p + [r], grouped[r.videoId := g.(transcripts := g.transcripts + [TranscriptOf(r)])], order)
  {
    assert (p + [r])[..|p|] == p;
    GroupingOthers(p, r, grouped);
    GroupOfAppend(p, r, grouped[r.videoId]);
  }

  /** The groups of the other videos are unchanged by the row. */
  lemma {:induction false} GroupingOthers(p: seq<SearchResult>, r: SearchResult, grouped: map<string, GroupedVideo>)
    requires forall id :: id in grouped ==> grouped[id].videoId == id && GroupOf(p, grouped[id])
    ensures forall id :: id in grouped && id != r.videoId ==> GroupOf(p + [r], grouped[id])
  {
    forall id | id in grouped && id != r.videoId ensures GroupOf(p + [r], grouped[id]) {
      GroupOfExtend(p, r, grouped[id]);
    }
  }

  /**
   * `groupResultsByVideo`: one group per distinct video id, in the order the
   * ids first appear, each holding the first row's metadata and the
   * transcripts of all that video's rows in input order.
   */
  method GroupResultsByVideo(results: seq<SearchResult>) returns (groups: seq<GroupedVideo>)
    ensures |groups| == |FirstIds(results)|
    ensures forall i :: 0 <= i < |groups| ==> groups[i].videoId == FirstIds(results)[i] && GroupOf(results, groups[i])
  {
    var grouped: map<string, GroupedVideo> := map[];
    var order: seq<string> := [];
    var i := 0;
    while i < |results|
      invariant 0 <= i <= |results|
      invariant Grouping(results[..i], grouped, order)
    {
      var r := results[i];
      assert results[..i + 1] == results[..i] + [r];
      if r.videoId !in grouped {
        GroupingNew(results[..i], r, grouped, order);
        grouped := grouped[r.videoId := Header(r).(transcripts := [TranscriptOf(r)])];
        order := order + [r.videoId];
      } else {
        var g := grouped[r.videoId];
        GroupingKnown(results[..i], r, grouped, order);
        grouped := grouped[r.videoId := g.(transcripts := g.transcripts + [TranscriptOf(r)])];
      }
      i := i + 1;
    }
    assert results[..i] == results;
    groups := seq(|order|, k requires 0 <= k < |order| => grouped[order[k]]);
  }

  /** The number of transcripts over the groups of `ids`. */
  function Total(rs: seq<SearchResult>, ids: seq<string>): nat {
    if ids == [] then 0 else Total(rs, ids[..|ids| - 1]) + |TranscriptsFor(rs, ids[|ids| - 1])|
  }

  lemma {:induction false} TotalExtend(p: seq<SearchResult>, r: SearchResult, ids: seq<string>)
    requires forall a, b :: 0 <= a < b < |ids| ==> ids[a] != ids[b]
    ensures Total(p + [r], ids) == Total(p, ids) + (if r.videoId in ids then 1 else 0)
  {
    var q := p + [r];
    assert q[..|q| - 1] == p;
    if ids != [] {
      var init := ids[..|ids| - 1];
      TotalExtend(p, r, init);
      assert r.videoId in ids <==> r.videoId in init || r.videoId == ids[|ids| - 1];
      assert ids[|ids| - 1] !in init;
    }
  }

  /** Every row lands in exactly one group: the group sizes add up to the number of rows. */
  lemma {:induction false} GroupSizesSum(rs: seq<SearchResult>)
    ensures Total(rs, FirstIds(rs)) == |rs|
  {
    if rs != [] {
      var p, r := rs[..|rs| - 1], rs[|rs| - 1];
      assert rs == p + [r];
      GroupSizesSum(p);
      FirstIdsSpec(p);
      var ids := FirstIds(p);
      TotalExtend(p, r, ids);
      if r.videoId !in ids {
        TranscriptsForAbsent(p, r.videoId);
        assert (ids + [r.videoId])[..|ids|] == ids;
      }
    }
  }

  // ------------------------------------------------------------- the form

  datatype UiSearchType = Keyword | Concept

  /** The sort column the page switches to when the search type changes. */
  function SortFor(t: UiSearchType): string {
    if t == Keyword then "viewCount" else "similarity"
  }

  /** What the webhook gives back for one request. */
  datatype Reply =
    | Answered(data: seq<SearchResult>)
    | NotOk(text: string)
    | Threw(message: string)

  /** Rows asked for per request. */
  const PageLimit: nat := 12

  const BlankTermError := "Please enter a search term"
  const NotConfiguredError := "Search webhook URL is not configured"

  /** The webhook URL is set and is not the placeholder. */
  predicate WebhookConfigured(webhook: Option<string>) {
    webhook.Some? && webhook.value != "" && webhook.value != "YOUR_SEARCH_WEBHOOK_URL_HERE"
  }

  /** The message a failed request leaves in `error`; `lead` is "Search failed: " or "Load more failed: ". */
  function ReplyError(lead: string, reply: Reply): string
    requires !reply.Answered?
  {
    match reply
    case NotOk(text) => lead + text
    case Threw(message) => message
  }

  /**
   * The request body for a term, the UI settings and an offset. Its ensures
   * only name the fields; that the body is one the endpoint accepts
   * unchanged is `WireRequestAccepted`.
   */
  function WireRequest(term: string, t: UiSearchType, sortBy: string, direction: string, similarity: real, offset: int): (p: SearchParams)
    ensures p.searchType == (if t == Keyword then Exact else Semantic)
    ensures p.sortDirection == (if direction == "descending" then Desc else Asc)
    ensures p.limit == PageLimit && p.offset == offset && p.searchTerm == Trim(term)
    ensures p.sortColumn == sortBy && p.similarityThreshold == similarity
  {
    SearchParams(Trim(term), if t == Keyword then Exact else Semantic, sortBy,
      if direction == "descending" then Desc else Asc, PageLimit, offset, similarity)
  }

  /**
   * The body the page sends is one the search endpoint's schema accepts,
   * unchanged, whenever the term is not blank and the slider is in [0, 1].
   */
  lemma {:induction false} WireRequestAccepted(term: string, t: UiSearchType, sortBy: string, direction: string, similarity: real, offset: nat)
    requires Trim(term) != [] && 0.0 <= similarity <= 1.0
    ensures var p := WireRequest(term, t, sortBy, direction, similarity, offset);
      Validate(Encode(p)) == Success(p)
  {
    ValidateEncode(WireRequest(term, t, sortBy, direction, similarity, offset));
  }

  class SearchSession {
    var searchTerm: string
    var searchType: UiSearchType
    var sortBy: string
    var direction: string
    var similarity: real
    var hasSearched: bool
    var results: seq<SearchResult>
    var isLoading: bool
    var error: Option<string>
    var offset: int
    var hasMoreResults: bool
    var isLoadingMore: bool

    /**
     * Between handler runs: nothing is loading, the offset is a whole number
     * of pages (of `PageLimit` = 12 rows), and nothing is shown before the
     * first search.
     */
    ghost predicate Valid()
      reads this
    {
      && !isLoading && !isLoadingMore
      && offset >= 0 && offset % 12 == 0
      && (!hasSearched ==> results == [] && offset == 0)
    }

    /** The request the form would send now for `at`. */
    function Request(at: int): SearchParams
      reads this`searchTerm, this`searchType, this`sortBy, this`direction, this`similarity
    {
      WireRequest(searchTerm, searchType, sortBy, direction, similarity, at)
    }

    constructor ()
      ensures Valid()
      ensures searchTerm == "" && searchType == Keyword && sortBy == "viewCount" && direction == "descending"
      ensures similarity == 0.5 && !hasSearched && results == [] && !isLoading && error == None
      ensures offset == 0 && hasMoreResults && !isLoadingMore
    {
      searchTerm := "";
      searchType := Keyword;
      sortBy := "viewCount";
      direction := "descending";
      similarity := 0.5;
      hasSearched := false;
      results := [];
      isLoading := false;
      error := None;
      offset := 0;
      hasMoreResults := true;
      isLoadingMore := false;
    }

    /** Choosing a search type, with the effect that follows it: keyword sorts by views, concept by similarity. */
    method SetSearchType(t: UiSearchType)
      modifies this`searchType, this`sortBy
      ensures searchType == t && sortBy == SortFor(t)
    {
      searchType := t;
      sortBy := SortFor(t);
    }

    /**
     * `handleSearch`. A blank term only sets the error. Otherwise the search
     * starts over at offset 0: the answer replaces the results, and a page of
     * fewer than 12 rows turns `hasMoreResults` off; a failure clears the
     * results and sets the error. `sent` is the request made, if any.
     */
    method HandleSearch(webhook: Option<string>, reply: Reply) returns (sent: Option<SearchParams>)
      requires Valid()
      modifies this`isLoading, this`error, this`hasSearched, this`offset, this`hasMoreResults, this`results
      ensures Valid() && !isLoading
      ensures Trim(old(searchTerm)) == [] ==>
        && sent == None && error == Some(BlankTermError)
        && results == old(results) && offset == old(offset) && hasMoreResults == old(hasMoreResults)
        && hasSearched == old(hasSearched)
      ensures Trim(old(searchTerm)) != [] ==>
        && hasSearched && offset == 0
        && sent == (if WebhookConfigured(webhook) then Some(old(Request(0))) else None)
        && (sent.None? ==> error == Some(NotConfiguredError) && results == [] && hasMoreResults)
        && (sent.Some? && reply.Answered? ==>
              error == None && results == reply.data && hasMoreResults == (|reply.data| >= PageLimit))
        && (sent.Some? && !reply.Answered? ==>
              error == Some(ReplyError("Search failed: ", reply)) && results == [] && hasMoreResults)
    {
      var request := Request(0);
      sent := None;
      if Trim(searchTerm) == [] {
        error := Some(BlankTermError);
        return;
      }
      isLoading := true;
      error := None;
      hasSearched := true;
      offset := 0;
      hasMoreResults := true;
      if !WebhookConfigured(webhook) {
        error := Some(NotConfiguredError);
        results := [];
      } else {
        sent := Some(request);
        match reply
        case Answered(data) =>
          results := data;
          if |data| < PageLimit {
            hasMoreResults := false;
          }
        case _ =>
          error := Some(ReplyError("Search failed: ", reply));
          results := [];
      }
      isLoading := false;
    }

    /**
     * `handleLoadMore`, offered once a search has shown results and more may
     * exist. It asks for the next 12 rows; the answer is appended after the
     * results shown and the offset advances by exactly 12; a short page turns
     * `hasMoreResults` off. A failure only sets the error.
     */
    method HandleLoadMore(webhook: Option<string>, reply: Reply) returns (sent: Option<SearchParams>)
      requires Valid() && hasSearched && |results| > 0 && hasMoreResults
      modifies this`isLoadingMore, this`error, this`offset, this`hasMoreResults, this`results
      ensures Valid() && !isLoadingMore
      ensures sent == (if WebhookConfigured(webhook) then Some(old(Request(offset + PageLimit))) else None)
      ensures sent.Some? && reply.Answered? ==>
        && error == None
        && results == old(results) + reply.data
        && offset == old(offset) + PageLimit
        && hasMoreResults == (|reply.data| >= PageLimit)
      ensures !(sent.Some? && reply.Answered?) ==>
        && error == Some(if sent.None? then NotConfiguredError else ReplyError("Load more failed: ", reply))
        && results == old(results) && offset == old(offset) && hasMoreResults
    {
      var newOffset := offset + PageLimit;
      var request := Request(newOffset);
      isLoadingMore := true;
      error := None;
      sent := None;
      if !WebhookConfigured(webhook) {
        error := Some(NotConfiguredError);
      } else {
        sent := Some(request);
        match reply
        case Answered(data) =>
          results := results + data;
          offset := newOffset;
          if |data| < PageLimit {
            hasMoreResults := false;
          }
        case _ =>
          error := Some(ReplyError("Load more failed: ", reply));
      }
      isLoadingMore := false;
    }
  }
}
