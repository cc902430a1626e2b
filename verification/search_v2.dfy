/**
 * The faceted search page src/app/search2/page.tsx: the facet filter map the
 * checkboxes toggle, the search it sends to /api/search2, and the object it
 * builds for each result card. The endpoint's answer is a parameter.
 */
module SearchV2 {
  import opened Wrappers
  import opened Text
  import IndexData
  import Seqs

  /** A document of the answer (`HitDocument`); `date` is in seconds. */
  datatype HitDocument = HitDocument(
    id: string, title: string, content: string, videoId: string, channelName: string, isNde: string,
    viewCount: int, date: int, thumbnailUrl: string, url: string, startTime: real)

  datatype Hit = Hit(document: HitDocument)

  datatype FacetValue = FacetValue(count: int, value: string)
  datatype FacetCount = FacetCount(fieldName: string, counts: seq<FacetValue>)

  datatype SearchResponse = SearchResponse(found: int, hits: seq<Hit>, facetCounts: seq<FacetCount>)

  /** What the request to /api/search2 gives: the parsed answer, a non-OK status, or a thrown error. */
  datatype SearchReply =
    | Answered(response: SearchResponse)
    | HttpError(status: int)
    | Threw(message: string)

  /** The body sent: the term as typed and the active filters. */
  datatype SearchRequest = SearchRequest(searchTerm: string, filters: map<string, seq<string>>)

  datatype Toast = Toast(title: string, description: string)

  const TermRequired := Toast("Search term required", "Please enter a term to search for.")
  const SearchFailed := Toast("Search Failed", "An error occurred. Please try again.")

  // -------------------------------------------------------- facet filters

  /** The test `v => v !== value`. */
  function Other(value: string): string -> bool {
    v => v != value
  }

  /** `values.filter(v => v !== value)`: every occurrence of `value` removed, the rest in order. */
  function Without(values: seq<string>, value: string): (r: seq<string>)
    ensures |r| <= |values|
    ensures forall x :: x in r <==> x in values && x != value
    ensures value !in values ==> r == values
  {
    if value in values then Seqs.Filter(values, Other(value))
    else Seqs.FilterAll(values, Other(value)); Seqs.Filter(values, Other(value))
  }

  /**
   * Removal works piece by piece over a concatenation, so the values that
   * stay keep their order and their repetitions.
   */
  lemma {:induction false} WithoutAppend(a: seq<string>, b: seq<string>, value: string)
    ensures Without(a + b, value) == Without(a, value) + Without(b, value)
  {
    Seqs.FilterAppend(a, b, Other(value));
  }

  /** Removing a value just appended to a list that lacked it gives the list back. */
  lemma {:induction false} WithoutAppended(values: seq<string>, value: string)
    requires value !in values
    ensures Without(values + [value], value) == values
  {
    WithoutAppend(values, [value], value);
    assert Without([value], value) == [];
  }

  /** `newFilters[facetField] || []`: the values selected for a facet. */
  function Selected(filters: map<string, seq<string>>, facet: string): seq<string> {
    if facet in filters then filters[facet] else []
  }

  /** The checkbox of `value` under `facet` is ticked. */
  predicate Checked(filters: map<string, seq<string>>, facet: string, value: string) {
    value in Selected(filters, facet)
  }

  /** No facet maps to an empty list. */
  predicate NoEmptyLists(filters: map<string, seq<string>>) {
    forall facet :: facet in filters ==> filters[facet] != []
  }

  /**
   * What `handleFilterChange` makes of the previous map: every occurrence of a
   * selected value is removed, an unselected one is appended, and a facet
   * left with no values is deleted. No other facet changes.
   */
  function Toggle(filters: map<string, seq<string>>, facet: string, value: string): (r: map<string, seq<string>>)
    ensures forall k :: k != facet ==> (k in r <==> k in filters) && (k in filters ==> r[k] == filters[k])
    ensures facet in r ==> r[facet] != []
    ensures NoEmptyLists(filters) ==> NoEmptyLists(r)
    ensures Checked(filters, facet, value) ==>
      && !Checked(r, facet, value)
      && forall x :: x in Selected(filters, facet) && x != value ==> x in Selected(r, facet)
    ensures !Checked(filters, facet, value) ==> facet in r && r[facet] == Selected(filters, facet) + [value]
    ensures Checked(filters, facet, value) ==>
      var rest := Without(Selected(filters, facet), value);
      if rest == [] then facet !in r else facet in r && r[facet] == rest
  {
    var current := Selected(filters, facet);
    var next := if value in current then Without(current, value) else current + [value];
    if next == [] then filters - {facet} else filters[facet := next]
  }

  /**
   * Ticking an unticked box and then unticking it restores the filter map,
   * provided no facet was stored with an empty list.
   */
  lemma {:induction false} ToggleTwice(filters: map<string, seq<string>>, facet: string, value: string)
    requires NoEmptyLists(filters) && !Checked(filters, facet, value)
    ensures Toggle(Toggle(filters, facet, value), facet, value) == filters
  {
    var current := Selected(filters, facet);
    var once := Toggle(filters, facet, value);
    assert Selected(once, facet) == current + [value];
    WithoutAppended(current, value);
    var twice := Toggle(once, facet, value);
    if facet in filters {
      assert twice == filters[facet := current];
    } else {
      assert current == [];
      assert twice == filters;
    }
  }

  // ---------------------------------------------------------- card objects

  /** The object the page builds for one result card. */
  datatype CardProps = CardProps(
    content: string, startTime: real, videoId: string, url: string, title: string,
    thumbnailUrl: string, date: string, viewCount: int, channelName: string)

  /**
   * The card object of a document: `videoId` renamed, the date turned from
   * seconds into milliseconds for `new Date(...).toISOString()` (`isoAt`).
   */
  function CardPropsOf(doc: HitDocument, isoAt: int -> string): CardProps {
    CardProps(doc.content, doc.startTime, doc.videoId, doc.url, doc.title, doc.thumbnailUrl,
      isoAt(doc.date * 1000), doc.viewCount, doc.channelName)
  }

  /**
   * The card's date string, indexed again, gives back the document's
   * seconds: scaling by 1000 and flooring the division undo each other,
   * provided the date parser reads the ISO string back.
   */
  lemma {:induction false} CardDateRoundTrip(doc: HitDocument, isoAt: int -> string, parseMs: string -> Option<int>)
    requires isoAt(doc.date * 1000) != "" && parseMs(isoAt(doc.date * 1000)) == Some(doc.date * 1000)
    ensures IndexData.DateSeconds(Some(CardPropsOf(doc, isoAt).date), parseMs) == IndexData.Epoch(doc.date)
  {
    var d := IndexData.DateSeconds(Some(CardPropsOf(doc, isoAt).date), parseMs);
    assert d.seconds * 1000 <= doc.date * 1000 < d.seconds * 1000 + 1000;
  }

  /** `data.hits.map(hit => hit.document)`. */
  function Documents(hits: seq<Hit>): (docs: seq<HitDocument>)
    ensures |docs| == |hits|
    ensures forall i :: 0 <= i < |hits| ==> docs[i] == hits[i].document
  {
    if hits == [] then [] else [hits[0].document] + Documents(hits[1..])
  }

  // -------------------------------------------------------------- the page

  class SearchV2Session {
    var searchTerm: string
    var results: seq<HitDocument>
    var facets: seq<FacetCount>
    var totalHits: int
    var isLoading: bool
    var hasSearched: bool
    var activeFilters: map<string, seq<string>>

    /** Between handler runs nothing is loading, and no facet is stored with an empty list. */
    ghost predicate Valid()
      reads this
    {
      !isLoading && NoEmptyLists(activeFilters)
    }

    constructor ()
      ensures Valid()
      ensures searchTerm == "" && results == [] && facets == [] && totalHits == 0
      ensures !isLoading && !hasSearched && activeFilters == map[]
    {
      searchTerm := "";
      results := [];
      facets := [];
      totalHits := 0;
      isLoading := false;
      hasSearched := false;
      activeFilters := map[];
    }

    /**
     * `handleFilterChange`: works on a copy of the map, updates the facet's
     * list and deletes the facet when its list is empty.
     */
    method HandleFilterChange(facet: string, value: string)
      requires Valid()
      modifies this`activeFilters
      ensures Valid()
      ensures activeFilters == Toggle(old(activeFilters), facet, value)
    {
      var newFilters := activeFilters;
      var current := if facet in newFilters then newFilters[facet] else [];
      if value in current {
        newFilters := newFilters[facet := Without(current, value)];
      } else {
        newFilters := newFilters[facet := current + [value]];
      }
      if |newFilters[facet]| == 0 {
        newFilters := newFilters - {facet};
      }
      activeFilters := newFilters;
    }

    /**
     * `performSearch`. A blank term shows the "Search term required" toast
     * and sends nothing. Otherwise the term as typed and the filters are
     * sent; an answer replaces results, facets and the hit count, a failure
     * shows the "Search Failed" toast and keeps them; either way loading ends
     * and the page counts as searched.
     */
    method PerformSearch(reply: SearchReply) returns (sent: Option<SearchRequest>, toast: Option<Toast>)
      requires Valid()
      modifies this`results, this`facets, this`totalHits, this`isLoading, this`hasSearched
      ensures Valid()
      ensures Trim(old(searchTerm)) == [] ==>
        && sent == None && toast == Some(TermRequired)
        && results == old(results) && facets == old(facets) && totalHits == old(totalHits)
        && hasSearched == old(hasSearched)
      ensures Trim(old(searchTerm)) != [] ==>
        && sent == Some(SearchRequest(searchTerm, activeFilters))
        && hasSearched
        && (reply.Answered? ==>
              && toast == None && results == Documents(reply.response.hits)
              && facets == reply.response.facetCounts && totalHits == reply.response.found)
        && (!reply.Answered? ==>
              && toast == Some(SearchFailed)
              && results == old(results) && facets == old(facets) && totalHits == old(totalHits))
    {
      sent, toast := None, None;
      if Trim(searchTerm) == [] {
        toast := Some(TermRequired);
        return;
      }
      isLoading := true;
      sent := Some(SearchRequest(searchTerm, activeFilters));
      match reply {
        case Answered(data) =>
          results := Documents(data.hits);
          facets := data.facetCounts;
          totalHits := data.found;
        case _ =>
          toast := Some(SearchFailed);
      }
      isLoading := false;
      hasSearched := true;
    }
  }
}
