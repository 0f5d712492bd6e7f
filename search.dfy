/** The user search page: filter chips, a validation gate in front of every
    search, result pages that either replace the list (a fresh search) or extend it
    ("Load More"), and the filters mirrored into the URL. */
module Search {
  import opened Http
  import opened Text
  import opened Lists
  import opened SearchUrl

  /** One user in the search results. */
  datatype User = User(
    username: string,
    displayName: string,
    description: string,
    teachCategories: seq<Category>,
    learnCategories: seq<Category>)

  /** The body of a `POST /v1/search` request. */
  datatype SearchRequest = SearchRequest(
    username: string,
    teachCategories: seq<Category>,
    learnCategories: seq<Category>,
    showKnownPeople: bool,
    page: int)

  /** Which of the two chip lists a category edit is aimed at. */
  datatype Side = Teach | Learn

  const NoCriteriaText: string := "Please enter a username or select at least one category"
  const SearchFailedText: string := "Failed to search users. Please try again later."

  /** Everything the page keeps apart from the URL, as one value. */
  datatype SearchState = SearchState(
    filters: Filters,
    results: seq<User>,
    isLoading: bool,
    page: int,
    hasMore: bool,
    navigations: seq<string>,
    toasts: seq<Toast>)

  /** The page as mounted on a URL whose filters are `f`. */
  function Mounted(f: Filters): SearchState {
    SearchState(f, [], false, 1, true, [], [])
  }

  /** `handleSearch(reset)` up to its `await`: the validation gate, then the request. */
  function Begin(s: SearchState, reset: bool): (SearchState, Option<SearchRequest>)
  {
    if !HasCriteria(s.filters) then
      (s.(toasts := s.toasts + [ErrorToast(NoCriteriaText)]), None)
    else
      var f := s.filters;
      (s.(isLoading := true),
       Some(SearchRequest(Trim(f.username), f.teach, f.learn, f.known, if reset then 1 else s.page)))
  }

  /** `handleSearch(reset)` after its `await`, once the request resolved to `resp`. */
  function Receive(s: SearchState, reset: bool, resp: Response<seq<User>>): SearchState
  {
    var t := match resp
      case Ok(users) =>
        var u := if reset then s.(results := users, page := 2)
                 else s.(results := s.results + users, page := s.page + 1);
        u.(hasMore := |users| > 0)
      case Unauthorized => s.(navigations := s.navigations + [LoginPath])
      case _ => s.(toasts := s.toasts + [ErrorToast(SearchFailedText)]);
    t.(isLoading := false)
  }

  /** A search issued and answered with `users`. */
  function SearchAnswered(s: SearchState, reset: bool, users: seq<User>): (SearchState, Option<SearchRequest>)
  {
    var (t, request) := Begin(s, reset);
    (if request.Some? then Receive(t, reset, Ok(users)) else t, request)
  }

  /** "Load More" clicked once per page, each answered before the next click: the
      final state and the page numbers requested. */
  function LoadMorePages(s: SearchState, pages: seq<seq<User>>): (SearchState, seq<int>)
    decreases |pages|
  {
    if pages == [] then (s, [])
    else
      var step := SearchAnswered(s, false, pages[0]);
      var o := LoadMorePages(step.0, pages[1..]);
      (o.0, (if step.1.Some? then [step.1.value.page] else []) + o.1)
  }

  function Flatten(pages: seq<seq<User>>): seq<User>
  {
    if pages == [] then [] else pages[0] + Flatten(pages[1..])
  }

  /** The mount effect starts a search exactly when some filter is set and the
      validation gate lets it through; with only `known` set it is refused. */
  lemma MountSearch(f: Filters)
    ensures var request := if ShouldSearchOnMount(f) then Begin(Mounted(f), true).1 else None;
      && (request.Some? <==> HasCriteria(f))
      && (request.Some? ==> request.value.page == 1 && request.value.username == Trim(f.username))
    ensures f.username == "" && f.teach == [] && f.learn == [] && f.known ==>
      ShouldSearchOnMount(f) && Begin(Mounted(f), true).1 == None
      && Begin(Mounted(f), true).0.toasts == Mounted(f).toasts + [ErrorToast(NoCriteriaText)]
  {
    CriteriaImplyMountSearch(f);
  }

  /** A fresh search answered with `first`, then "Load More" answered page by page:
      the results are all the pages in arrival order, the pages requested are 1, 2,
      3, ..., and `hasMore` says whether the last page had anyone in it. */
  lemma SearchThenLoadMore(s: SearchState, first: seq<User>, pages: seq<seq<User>>)
    requires HasCriteria(s.filters)
    ensures SearchAnswered(s, true, first).1.Some? && SearchAnswered(s, true, first).1.value.page == 1
    ensures var t := SearchAnswered(s, true, first).0;
      && LoadMorePages(t, pages).0.results == first + Flatten(pages)
      && LoadMorePages(t, pages).0.page == 2 + |pages|
      && LoadMorePages(t, pages).1 == Consecutive(2, |pages|)
      && LoadMorePages(t, pages).0.hasMore == (if pages == [] then |first| > 0 else |pages[|pages| - 1]| > 0)
  {
    LoadMoreAppends(SearchAnswered(s, true, first).0, pages);
  }

  /** The state once a "Load More" answered with `users` has run: appended, one
      page on, `hasMore` from the page, idle again. */
  function Appended(s: SearchState, users: seq<User>): SearchState
  {
    s.(results := s.results + users, page := s.page + 1, hasMore := |users| > 0, isLoading := false)
  }

  /** One "Load More" answered with the first page: the state is `Appended`, and
      page `s.page` is requested. */
  lemma LoadMoreStep(s: SearchState, pages: seq<seq<User>>)
    requires HasCriteria(s.filters) && pages != []
    ensures LoadMorePages(s, pages).0 == LoadMorePages(Appended(s, pages[0]), pages[1..]).0
    ensures LoadMorePages(s, pages).1 == [s.page] + LoadMorePages(Appended(s, pages[0]), pages[1..]).1
  {
    assert SearchAnswered(s, false, pages[0]) == (Appended(s, pages[0]), SearchAnswered(s, false, pages[0]).1);
  }

  /** "Load More", page by page, extends the results in order and asks for
      consecutive pages, starting at the stored page. */
  lemma LoadMoreAppends(s: SearchState, pages: seq<seq<User>>)
    requires HasCriteria(s.filters)
    ensures LoadMorePages(s, pages).0.results == s.results + Flatten(pages)
    ensures LoadMorePages(s, pages).0.page == s.page + |pages|
    ensures LoadMorePages(s, pages).1 == Consecutive(s.page, |pages|)
    ensures LoadMorePages(s, pages).0.hasMore == (if pages == [] then s.hasMore else |pages[|pages| - 1]| > 0)
    ensures pages != [] ==> !LoadMorePages(s, pages).0.isLoading
  {
    LoadMoreState(s, pages);
    LoadMoreRequests(s, pages);
  }

  /** The state after "Load More" page by page. */
  lemma {:induction false} LoadMoreState(s: SearchState, pages: seq<seq<User>>)
    requires HasCriteria(s.filters)
    ensures LoadMorePages(s, pages).0.filters == s.filters
    ensures LoadMorePages(s, pages).0.results == s.results + Flatten(pages)
    ensures LoadMorePages(s, pages).0.page == s.page + |pages|
    ensures LoadMorePages(s, pages).0.hasMore == (if pages == [] then s.hasMore else |pages[|pages| - 1]| > 0)
    ensures pages != [] ==> !LoadMorePages(s, pages).0.isLoading
    decreases |pages|
  {
    if pages != [] {
      LoadMoreStep(s, pages);
      var t := Appended(s, pages[0]);
      LoadMoreState(t, pages[1..]);
      assert Flatten(pages) == pages[0] + Flatten(pages[1..]);
      assert s.results + pages[0] + Flatten(pages[1..]) == s.results + Flatten(pages);
      if |pages| > 1 {
        assert pages[1..][|pages[1..]| - 1] == pages[|pages| - 1];
      }
    }
  }

  /** The pages asked for by "Load More" page by page. */
  lemma {:induction false} LoadMoreRequests(s: SearchState, pages: seq<seq<User>>)
    requires HasCriteria(s.filters)
    ensures LoadMorePages(s, pages).1 == Consecutive(s.page, |pages|)
    decreases |pages|
  {
    if pages != [] {
      LoadMoreStep(s, pages);
      var t := Appended(s, pages[0]);
      LoadMoreRequests(t, pages[1..]);
    }
  }

  /** A user's edit of the filters. */
  datatype FilterEdit =
    | SelectCategory(category: Category, side: Side)
    | RemoveCategory(category: Category, side: Side)
    | TypeUsername(text: string)
    | ToggleKnown(on: bool)
    | ClearAll

  /** The filters after one edit: `handleCategorySelect`, `handleCategoryRemove`,
      the username input, the "known people" checkbox and `handleReset`. */
  function ApplyEdit(f: Filters, e: FilterEdit): Filters
  {
    match e
    case SelectCategory(c, Teach) => f.(teach := AddIfAbsent(f.teach, c))
    case SelectCategory(c, Learn) => f.(learn := AddIfAbsent(f.learn, c))
    case RemoveCategory(c, Teach) => f.(teach := Without(f.teach, c))
    case RemoveCategory(c, Learn) => f.(learn := Without(f.learn, c))
    case TypeUsername(text) => f.(username := text)
    case ToggleKnown(on) => f.(known := on)
    case ClearAll => NoFilters
  }

  function ApplyEdits(f: Filters, edits: seq<FilterEdit>): Filters
    decreases |edits|
  {
    if edits == [] then f else ApplyEdits(ApplyEdit(f, edits[0]), edits[1..])
  }

  /** Chip lists with no duplicates keep none through any edits, and lists of
      joinable names stay joinable while only joinable names are selected, so the
      URL round trip keeps holding. */
  lemma {:induction false} EditsKeepChipsClean(f: Filters, edits: seq<FilterEdit>)
    requires NoDup(f.teach) && NoDup(f.learn)
    requires Joinable(f.teach) && Joinable(f.learn)
    requires forall i :: 0 <= i < |edits| && edits[i].SelectCategory? ==>
      edits[i].category != "" && ',' !in edits[i].category
    ensures NoDup(ApplyEdits(f, edits).teach) && NoDup(ApplyEdits(f, edits).learn)
    ensures Joinable(ApplyEdits(f, edits).teach) && Joinable(ApplyEdits(f, edits).learn)
    decreases |edits|
  {
    if edits != [] {
      var g := ApplyEdit(f, edits[0]);
      assert Joinable(g.teach) && Joinable(g.learn) by {
        match edits[0]
        case SelectCategory(c, _) =>
        case RemoveCategory(c, _) => WithoutKeepsEntries(f.teach, c); WithoutKeepsEntries(f.learn, c);
        case _ =>
      }
      EditsKeepChipsClean(g, edits[1..]);
    }
  }

  /** Removing a name keeps only names that were there. */
  lemma {:induction false} WithoutKeepsEntries(xs: seq<Category>, c: Category)
    ensures forall i :: 0 <= i < |Without(xs, c)| ==> Without(xs, c)[i] in xs
  {
    var r := Without(xs, c);
    forall i | 0 <= i < |r| ensures r[i] in xs {
      assert r[i] in r;
      assert r[i] != c;
    }
  }

  /** The page, with its state held in fields that its handlers update in place,
      and `query` the URL's search parameters. */
  class SearchPage {
    var username: string
    var selectedTeachCategories: seq<Category>
    var selectedLearnCategories: seq<Category>
    var showKnownPeople: bool
    var results: seq<User>
    var isLoading: bool
    var page: int
    var hasMore: bool
    var query: Query
    var navigations: seq<string>
    var toasts: seq<Toast>

    function Filters(): SearchUrl.Filters
      reads this
    {
      SearchUrl.Filters(username, selectedTeachCategories, selectedLearnCategories, showKnownPeople)
    }

    function State(): SearchState
      reads this
    {
      SearchState(Filters(), results, isLoading, page, hasMore, navigations, toasts)
    }

    /** The page's first render on a URL with parameters `url`: the filters are read
        from it, the result list is empty, page 1, more to come. */
    constructor (url: Query)
      ensures State() == Mounted(LoadFilters(url)) && query == url
    {
      var f := LoadFilters(url);
      username, selectedTeachCategories, selectedLearnCategories, showKnownPeople :=
        f.username, f.teach, f.learn, f.known;
      results, isLoading, page, hasMore := [], false, 1, true;
      query, navigations, toasts := url, [], [];
    }

    /** `handleSearch(resetResults)` up to its `await`. Without a non-blank username
        or a category the search is refused with a toast and no request; otherwise the
        page is loading and the request carries the trimmed username, the chips, the
        checkbox, and page 1 for a fresh search or the stored page for "Load More". */
    method HandleSearch(resetResults: bool) returns (request: Option<SearchRequest>)
      modifies this
      ensures (State(), request) == Begin(old(State()), resetResults)
      ensures query == old(query)
      ensures request.None? <==> !HasCriteria(old(Filters()))
      ensures request.None? ==> toasts == old(toasts) + [ErrorToast(NoCriteriaText)] && isLoading == old(isLoading)
      ensures request.Some? ==> isLoading && request.value == SearchRequest(
        Trim(old(username)), old(selectedTeachCategories), old(selectedLearnCategories),
        old(showKnownPeople), if resetResults then 1 else old(page))
      ensures results == old(results) && page == old(page) && hasMore == old(hasMore)
    {
      var f := Filters();
      if Trim(f.username) == "" && |f.teach| == 0 && |f.learn| == 0 {
        toasts := toasts + [ErrorToast(NoCriteriaText)];
        request := None;
        assert State() == old(State()).(toasts := old(toasts) + [ErrorToast(NoCriteriaText)]);
      } else {
        isLoading := true;
        request := Some(SearchRequest(Trim(f.username), f.teach, f.learn, f.known,
                                      if resetResults then 1 else page));
        assert State() == old(State()).(isLoading := true);
      }
    }

    /** The rest of `handleSearch(resetResults)`, once the request resolved to `resp`.
        A fresh search replaces the results and moves to page 2; "Load More" appends
        and moves one page on; either way `hasMore` says whether users came back. */
    method ReceiveSearch(resetResults: bool, resp: Response<seq<User>>)
      modifies this
      ensures State() == Receive(old(State()), resetResults, resp)
      ensures query == old(query) && Filters() == old(Filters()) && !isLoading
      ensures resp.Ok? && resetResults ==> results == resp.payload && page == 2
      ensures resp.Ok? && !resetResults ==> results == old(results) + resp.payload && page == old(page) + 1
      ensures resp.Ok? ==> hasMore == (|resp.payload| > 0)
      ensures !resp.Ok? ==> results == old(results) && page == old(page) && hasMore == old(hasMore)
      ensures resp.Unauthorized? ==> navigations == old(navigations) + [LoginPath]
      ensures !resp.Ok? && !resp.Unauthorized? ==> toasts == old(toasts) + [ErrorToast(SearchFailedText)]
    {
      match resp {
        case Ok(users) =>
          if resetResults {
            results := users;
            page := 2;
          } else {
            results := results + users;
            page := page + 1;
          }
          hasMore := |users| > 0;
        case Unauthorized =>
          navigations := navigations + [LoginPath];
        case _ =>
          toasts := toasts + [ErrorToast(SearchFailedText)];
      }
      isLoading := false;
    }

    /** The mount effect: a fresh search when some filter is set. */
    method Mount() returns (request: Option<SearchRequest>)
      modifies this
      ensures !ShouldSearchOnMount(old(Filters())) ==> request == None && State() == old(State())
      ensures ShouldSearchOnMount(old(Filters())) ==> (State(), request) == Begin(old(State()), true)
      ensures query == old(query)
    {
      if username != "" || |selectedTeachCategories| > 0 || |selectedLearnCategories| > 0 || showKnownPeople {
        request := HandleSearch(true);
      } else {
        request := None;
      }
    }

    /** `handleLoadMore`. */
    method LoadMore() returns (request: Option<SearchRequest>)
      modifies this
      ensures (State(), request) == Begin(old(State()), false)
      ensures query == old(query)
    {
      request := HandleSearch(false);
    }

    /** `handleCategorySelect`: the category joins its chip list unless already there. */
    method HandleCategorySelect(category: Category, side: Side)
      modifies this
      ensures Filters() == ApplyEdit(old(Filters()), SelectCategory(category, side))
      ensures side == Teach ==>
        selectedTeachCategories == AddIfAbsent(old(selectedTeachCategories), category) && selectedLearnCategories == old(selectedLearnCategories)
      ensures side == Learn ==>
        selectedLearnCategories == AddIfAbsent(old(selectedLearnCategories), category) && selectedTeachCategories == old(selectedTeachCategories)
      ensures username == old(username) && showKnownPeople == old(showKnownPeople) && query == old(query)
      ensures results == old(results) && page == old(page) && hasMore == old(hasMore) && isLoading == old(isLoading)
      ensures navigations == old(navigations) && toasts == old(toasts)
    {
      if side == Teach {
        if category !in selectedTeachCategories {
          selectedTeachCategories := selectedTeachCategories + [category];
        }
      } else {
        if category !in selectedLearnCategories {
          selectedLearnCategories := selectedLearnCategories + [category];
        }
      }
    }

    /** `handleCategoryRemove`: the category leaves its chip list, the others stay in order. */
    method HandleCategoryRemove(category: Category, side: Side)
      modifies this
      ensures Filters() == ApplyEdit(old(Filters()), RemoveCategory(category, side))
      ensures side == Teach ==>
        selectedTeachCategories == Without(old(selectedTeachCategories), category) && selectedLearnCategories == old(selectedLearnCategories)
      ensures side == Learn ==>
        selectedLearnCategories == Without(old(selectedLearnCategories), category) && selectedTeachCategories == old(selectedTeachCategories)
      ensures username == old(username) && showKnownPeople == old(showKnownPeople) && query == old(query)
      ensures results == old(results) && page == old(page) && hasMore == old(hasMore) && isLoading == old(isLoading)
      ensures navigations == old(navigations) && toasts == old(toasts)
    {
      if side == Teach {
        selectedTeachCategories := Without(selectedTeachCategories, category);
      } else {
        selectedLearnCategories := Without(selectedLearnCategories, category);
      }
    }

    /** The username input. */
    method SetUsername(text: string)
      modifies this
      ensures Filters() == ApplyEdit(old(Filters()), TypeUsername(text))
      ensures results == old(results) && page == old(page) && hasMore == old(hasMore) && isLoading == old(isLoading)
      ensures query == old(query) && navigations == old(navigations) && toasts == old(toasts)
    {
      username := text;
    }

    /** The "show known people" checkbox. */
    method SetShowKnownPeople(on: bool)
      modifies this
      ensures Filters() == ApplyEdit(old(Filters()), ToggleKnown(on))
      ensures results == old(results) && page == old(page) && hasMore == old(hasMore) && isLoading == old(isLoading)
      ensures query == old(query) && navigations == old(navigations) && toasts == old(toasts)
    {
      showKnownPeople := on;
    }

    /** `handleReset`: every filter cleared, no results, back to page 1 with more to come. */
    method HandleReset()
      modifies this
      ensures Filters() == ApplyEdit(old(Filters()), ClearAll) == NoFilters
      ensures results == [] && page == 1 && hasMore
      ensures isLoading == old(isLoading) && query == old(query)
      ensures navigations == old(navigations) && toasts == old(toasts)
    {
      username := "";
      selectedTeachCategories := [];
      selectedLearnCategories := [];
      showKnownPeople := false;
      results := [];
      page := 1;
      hasMore := true;
    }

    /** The URL effect: the current URL parameters are copied, each filter parameter
        is set when its filter is set and deleted otherwise, and the copy replaces the
        URL. Other parameters keep their values, and reading the filters back from
        the new URL gives the current filters whenever the chips hold joinable names. */
    method SyncUrl()
      modifies this`query
      ensures Saved(query, Filters())
      ensures forall name :: name !in FilterNames ==> GetParam(query, name) == GetParam(old(query), name)
      ensures Joinable(selectedTeachCategories) && Joinable(selectedLearnCategories) ==>
        LoadFilters(query) == Filters()
    {
      var params := query;
      if username != "" {
        params := SetParam(params, "username", username);
      } else {
        params := DeleteParam(params, "username");
      }
      if |selectedTeachCategories| > 0 {
        params := SetParam(params, "teach", Join(selectedTeachCategories, ','));
      } else {
        params := DeleteParam(params, "teach");
      }
      if |selectedLearnCategories| > 0 {
        params := SetParam(params, "learn", Join(selectedLearnCategories, ','));
      } else {
        params := DeleteParam(params, "learn");
      }
      if showKnownPeople {
        params := SetParam(params, "known", "true");
      } else {
        params := DeleteParam(params, "known");
      }
      query := params;
      if Joinable(selectedTeachCategories) && Joinable(selectedLearnCategories) {
        LoadSaved(query, Filters());
      }
    }
  }
}
