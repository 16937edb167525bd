/**
 * The search page's state and its two handlers: `handleSearch` (results,
 * success state, the capped newest-first history) and
 * `handleGlobeVisualization` (refused without a prior successful query,
 * otherwise asks the globe route).
 */
module SearchComponent {
  import opened Common
  import GlobeData

  /** One entry of `results` as the search route returns it. */
  datatype SearchResult = SearchResult(title: string, link: string, snippet: string, source: string)

  /** One entry of the recent-search history; `date` is the formatted submission time. */
  datatype PreviousSearch = PreviousSearch(query: string, date: string)

  /** `response.data` of the search request: its `results` and `analysis` may be missing. */
  datatype SearchData = SearchData(results: Option<seq<SearchResult>>, analysis: Option<string>)

  /** How the search request ended: a response (whose data may be missing), or a thrown error with the message the catch block composes. */
  datatype SearchOutcome = Answered(data: Option<SearchData>) | Threw(message: string)

  const HistoryLimit: nat := 5
  const DisplayLimit: nat := 5
  const NoResultsMessage := "No results found"
  const SearchFirstMessage := "Please perform a search first"
  const GlobeErrorPrefix := "Failed to fetch globe data: "

  /** `[newSearch, ...previousSearches.slice(0, 4)]`. */
  function UpdatedHistory(previous: seq<PreviousSearch>, newSearch: PreviousSearch): (r: seq<PreviousSearch>)
    ensures |r| == Min(HistoryLimit, |previous| + 1)
    ensures r[0] == newSearch
    ensures r[1..] == previous[..|r| - 1]
  {
    [newSearch] + previous[..Min(HistoryLimit - 1, |previous|)]
  }

  function Reverse<T>(s: seq<T>): (r: seq<T>)
    ensures |r| == |s|
  {
    if |s| == 0 then [] else [s[|s| - 1]] + Reverse(s[..|s| - 1])
  }

  /** The history after the given searches, oldest first, were each answered. */
  function HistoryAfter(previous: seq<PreviousSearch>, entries: seq<PreviousSearch>): seq<PreviousSearch>
    decreases |entries|
  {
    if |entries| == 0 then previous
    else UpdatedHistory(HistoryAfter(previous, entries[..|entries| - 1]), entries[|entries| - 1])
  }

  lemma TakeOfTake<T>(s: seq<T>, a: nat, b: nat)
    requires a <= b
    ensures s[..Min(b, |s|)][..Min(a, Min(b, |s|))] == s[..Min(a, |s|)]
  {
  }

  lemma ConsTake<T>(e: T, s: seq<T>, k: nat)
    ensures [e] + s[..Min(k, |s|)] == ([e] + s)[..Min(k + 1, |s| + 1)]
  {
  }

  /**
   * After at least one answered search the history lists the newest searches first,
   * followed by the older history, and keeps the first five of them.
   */
  lemma {:induction false} HistoryNewestFirst(previous: seq<PreviousSearch>, entries: seq<PreviousSearch>)
    requires |entries| >= 1
    ensures var all := Reverse(entries) + previous;
      HistoryAfter(previous, entries) == all[..Min(HistoryLimit, |all|)]
    decreases |entries|
  {
    var n := |entries| - 1;
    var e := entries[n];
    var init := entries[..n];
    assert Reverse(entries) == [e] + Reverse(init);
    var before := Reverse(init) + previous;
    assert Reverse(entries) + previous == [e] + before;
    var h := if n == 0 then previous else HistoryAfter(previous, init);
    assert HistoryAfter(previous, entries) == [e] + h[..Min(HistoryLimit - 1, |h|)];
    if n == 0 {
      assert Reverse(init) == [];
      assert before == h;
    } else {
      HistoryNewestFirst(previous, init);
      assert h == before[..Min(HistoryLimit, |before|)];
      TakeOfTake(before, HistoryLimit - 1, HistoryLimit);
    }
    assert h[..Min(HistoryLimit - 1, |h|)] == before[..Min(HistoryLimit - 1, |before|)];
    ConsTake(e, before, HistoryLimit - 1);
  }

  /** Five or more searches push every older entry out. */
  lemma HistoryForgetsOld(previous: seq<PreviousSearch>, entries: seq<PreviousSearch>)
    requires |entries| >= HistoryLimit
    ensures HistoryAfter(previous, entries) == Reverse(entries)[..HistoryLimit]
  {
    HistoryNewestFirst(previous, entries);
    var all := Reverse(entries) + previous;
    assert all[..HistoryLimit] == Reverse(entries)[..HistoryLimit];
  }

  /** `searchResults.slice(0, 5)`, shown only when the list is present and non-empty. */
  function Displayed(results: Option<seq<SearchResult>>): (r: seq<SearchResult>)
    ensures results.None? ==> r == []
    ensures results.Some? ==> |r| == Min(DisplayLimit, |results.value|)
    ensures results.Some? ==> r == results.value[..|r|]
  {
    if results.Some? && |results.value| > 0 then results.value[..Min(DisplayLimit, |results.value|)] else []
  }

  /** `response.data && response.data.results && response.data.results.length > 0`. */
  predicate HasResults(data: Option<SearchData>) {
    data.Some? && data.value.results.Some? && |data.value.results.value| > 0
  }

  /** The globe request as one outcome: no answer at all (network failure, with its message), or the route's answer. */
  datatype GlobeTransport = Unreachable(message: string) | Reached(model: GlobeData.ModelOutcome)

  /** The component state kept by its `useState` hooks. */
  class SearchPage {
    var searchQuery: string
    var searchResults: Option<seq<SearchResult>>
    var analysisText: Option<string>
    var globeAnalysis: Option<GlobeData.Analysis>
    var error: Option<string>
    var isLoading: bool
    var previousSearches: seq<PreviousSearch>
    var showGlobe: bool
    var globeData: Option<GlobeData.Buckets>
    var lastSuccessfulQuery: string

    /** Any classification the page holds came from the globe route and so has no empty bucket. */
    ghost predicate Valid()
      reads this
    {
      globeData.Some? ==> GlobeData.NonEmptyBuckets(globeData.value)
    }

    constructor ()
      ensures Valid()
      ensures searchQuery == "" && searchResults.None? && analysisText.None? && globeAnalysis.None?
      ensures error.None? && !isLoading && previousSearches == [] && !showGlobe && globeData.None?
      ensures lastSuccessfulQuery == ""
    {
      searchQuery := "";
      searchResults := None;
      analysisText := None;
      globeAnalysis := None;
      error := None;
      isLoading := false;
      previousSearches := [];
      showGlobe := false;
      globeData := None;
      lastSuccessfulQuery := "";
    }

    /** The mount effect: the saved history, or the empty list when nothing was saved. */
    method LoadSavedSearches(saved: Option<seq<PreviousSearch>>)
      requires Valid()
      modifies this
      ensures Valid()
      ensures previousSearches == (if saved.Some? then saved.value else [])
      ensures searchQuery == old(searchQuery) && searchResults == old(searchResults)
      ensures analysisText == old(analysisText) && globeAnalysis == old(globeAnalysis)
      ensures error == old(error) && isLoading == old(isLoading) && showGlobe == old(showGlobe)
      ensures globeData == old(globeData) && lastSuccessfulQuery == old(lastSuccessfulQuery)
    {
      previousSearches := if saved.Some? then saved.value else [];
    }

    /** The input's `onChange`. */
    method SetSearchQuery(q: string)
      requires Valid()
      modifies this`searchQuery
      ensures Valid() && searchQuery == q
    {
      searchQuery := q;
    }

    /** `handleSearch`, given how the request ended and the submission's formatted date. */
    method HandleSearch(outcome: SearchOutcome, date: string)
      requires Valid()
      modifies this
      ensures Valid()
      ensures !isLoading
      ensures outcome.Answered? && HasResults(outcome.data) ==>
        && searchResults == outcome.data.value.results
        && analysisText == outcome.data.value.analysis
        && lastSuccessfulQuery == old(searchQuery)
        && error.None?
      ensures outcome.Answered? && !HasResults(outcome.data) ==>
        && searchResults.None? && analysisText.None?
        && lastSuccessfulQuery == old(lastSuccessfulQuery)
        && error == Some(NoResultsMessage)
      ensures outcome.Answered? ==>
        && previousSearches == UpdatedHistory(old(previousSearches), PreviousSearch(old(searchQuery), date))
        && searchQuery == ""
      ensures outcome.Threw? ==>
        && searchResults.None? && analysisText.None?
        && lastSuccessfulQuery == old(lastSuccessfulQuery)
        && error == Some(outcome.message)
        && previousSearches == old(previousSearches)
        && searchQuery == old(searchQuery)
      ensures showGlobe == old(showGlobe) && globeData == old(globeData) && globeAnalysis == old(globeAnalysis)
    {
      error := None;
      searchResults := None;
      analysisText := None;
      isLoading := true;
      match outcome {
        case Answered(data) =>
          if HasResults(data) {
            searchResults := data.value.results;
            analysisText := data.value.analysis;
            lastSuccessfulQuery := searchQuery;
          } else {
            error := Some(NoResultsMessage);
          }
          var newSearch := PreviousSearch(searchQuery, date);
          previousSearches := UpdatedHistory(previousSearches, newSearch);
          searchQuery := "";
        case Threw(message) =>
          error := Some(message);
      }
      isLoading := false;
    }

    /** `handleGlobeVisualization`: refused without a prior successful query, otherwise the globe route is asked for it. */
    method HandleGlobeVisualization(transport: GlobeTransport)
      requires Valid()
      modifies this
      ensures Valid()
      ensures old(lastSuccessfulQuery) == "" ==>
        && error == Some(GlobeErrorPrefix + SearchFirstMessage)
        && !showGlobe && globeData == old(globeData) && globeAnalysis == old(globeAnalysis)
      ensures old(lastSuccessfulQuery) != "" && transport.Unreachable? ==>
        && error == Some(GlobeErrorPrefix + transport.message)
        && !showGlobe && globeData == old(globeData) && globeAnalysis == old(globeAnalysis)
      ensures old(lastSuccessfulQuery) != "" && transport.Reached? ==>
        var answer := GlobeData.Respond(Some(old(lastSuccessfulQuery)), transport.model);
        && (answer.Ok? ==> error.None? && showGlobe && globeData == Some(answer.body.globeData)
                           && globeAnalysis == Some(answer.body.analysis))
        && (answer.Error? ==> error == Some(GlobeErrorPrefix + answer.message) && !showGlobe
                              && globeData == old(globeData) && globeAnalysis == old(globeAnalysis))
      ensures searchQuery == old(searchQuery) && searchResults == old(searchResults)
      ensures analysisText == old(analysisText) && isLoading == old(isLoading)
      ensures previousSearches == old(previousSearches) && lastSuccessfulQuery == old(lastSuccessfulQuery)
    {
      showGlobe := true;
      error := None;
      if lastSuccessfulQuery == "" {
        error := Some(GlobeErrorPrefix + SearchFirstMessage);
        showGlobe := false;
        return;
      }
      match transport {
        case Unreachable(message) =>
          error := Some(GlobeErrorPrefix + message);
          showGlobe := false;
        case Reached(model) =>
          var answer := GlobeData.Get(Some(lastSuccessfulQuery), model);
          if answer.Ok? {
            globeData := Some(answer.body.globeData);
            globeAnalysis := Some(answer.body.analysis);
          } else {
            error := Some(GlobeErrorPrefix + answer.message);
            showGlobe := false;
          }
      }
    }

    /** The globe overlay's close button. */
    method CloseGlobeVisualization()
      requires Valid()
      modifies this`showGlobe
      ensures Valid() && !showGlobe
    {
      showGlobe := false;
    }

    /** The results shown to the user. */
    function DisplayedResults(): (r: seq<SearchResult>)
      reads this
      ensures |r| <= DisplayLimit
    {
      Displayed(searchResults)
    }

    /** The overlay is drawn only while it is open and a classification is held. */
    predicate GlobeVisible()
      reads this
    {
      showGlobe && globeData.Some?
    }

    /** Whenever the overlay is drawn, the classification it colours has no empty bucket. */
    lemma VisibleGlobeHasBuckets()
      requires Valid() && GlobeVisible()
      ensures GlobeData.NonEmptyBuckets(globeData.value)
    {
    }
  }

  /** The globe route never answers 400 to this page: the page sends only a non-empty query. */
  lemma GlobeRequestNeverMissingQuery(query: string, model: GlobeData.ModelOutcome)
    requires query != ""
    ensures GlobeData.Respond(Some(query), model) != GlobeData.Error(400, GlobeData.MissingQueryMessage)
  {
  }
}
