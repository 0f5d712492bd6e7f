/** The home page: one request loads everything the page shows, the response is
    dispatched on ok / 307 / 401 / anything else, and the page renders the first
    of "loading", "error", "no data" and the content that applies. */
module Home {
  import opened Http
  import opened Calendar

  /** A profile recommended to the user. */
  datatype Recommended = Recommended(
    displayName: string,
    teachCategories: seq<string>,
    learnCategories: seq<string>,
    username: string,
    photo: string)

  datatype ChatStatus = Sent | Read | Unread

  /** A chat shown on the home page. */
  datatype HomeChat = HomeChat(
    id: string,
    displayName: string,
    username: string,
    photo: string,
    lastMessage: string,
    status: ChatStatus)

  /** The body of a successful `POST /v1/home`. */
  datatype HomeData = HomeData(
    username: string,
    learnCategories: seq<string>,
    teachCategories: seq<string>,
    recommended: seq<Recommended>,
    chats: seq<HomeChat>,
    events: seq<Event>,
    isMaintained: bool)

  const LoadFailedText: string := "Failed to load home data. Please try again later."

  /** Everything the page keeps, as one value. */
  datatype HomeState = HomeState(
    homeData: Option<HomeData>,
    isLoading: bool,
    error: Option<string>,
    navigations: seq<string>,
    toasts: seq<Toast>)

  /** The page as first rendered: no data, loading, no error. */
  const Initial: HomeState := HomeState(None, true, None, [], [])

  /** `fetchHomeData` up to its `await`: loading, and any earlier error cleared. */
  function Begin(s: HomeState): (t: HomeState)
    ensures t.isLoading && t.error == None
    ensures t.homeData == s.homeData && t.navigations == s.navigations && t.toasts == s.toasts
  {
    s.(isLoading := true, error := None)
  }

  /** `fetchHomeData` after its `await`, `finally` included: ok stores the data, 307
      follows the server's redirect, 401 goes to the login page, and anything else
      (another status thrown as an error, or a failed fetch) sets the error message
      and toasts it. */
  function Receive(s: HomeState, resp: Response<HomeData>): HomeState
  {
    var t := match resp
      case Ok(d) => s.(homeData := Some(d))
      case Redirect307(r) => s.(navigations := s.navigations + [r])
      case Unauthorized => s.(navigations := s.navigations + [LoginPath])
      case _ => s.(error := Some(LoadFailedText), toasts := s.toasts + [ErrorToast(LoadFailedText)]);
    t.(isLoading := false)
  }

  /** What the page renders. */
  datatype View = Loading | ErrorView(message: string) | NoData | Content(data: HomeData)

  /** The render, checked in order: loading, then a (truthy) error, then missing
      data, then the content. */
  function Render(s: HomeState): View
  {
    if s.isLoading then Loading
    else if Truthy(s.error) then ErrorView(s.error.value)
    else if s.homeData.None? then NoData
    else Content(s.homeData.value)
  }

  /** Strict precedence: each view is shown exactly when every view before it in
      the order does not apply. */
  lemma RenderPrecedence(s: HomeState)
    ensures Render(s) == Loading <==> s.isLoading
    ensures Render(s).ErrorView? <==> !s.isLoading && Truthy(s.error)
    ensures Render(s) == NoData <==> !s.isLoading && !Truthy(s.error) && s.homeData.None?
    ensures Render(s).Content? <==> !s.isLoading && !Truthy(s.error) && s.homeData.Some?
    ensures Render(s).ErrorView? ==> Render(s).message == s.error.value
    ensures Render(s).Content? ==> Some(Render(s).data) == s.homeData
  {
  }

  /** While a request is outstanding, whatever was shown before, the page shows
      "Loading...". */
  lemma BeginShowsLoading(s: HomeState)
    ensures Render(Begin(s)) == Loading
  {
  }

  /** The page after one whole fetch, per response: the content for ok, the error
      for a failure, and, for a redirect or 401, whatever data the page already
      held, never an earlier error, since the fetch cleared it. The page is never
      left loading. */
  lemma RoundShows(s: HomeState, resp: Response<HomeData>)
    ensures Render(Receive(Begin(s), resp)) != Loading
    ensures resp.Ok? ==> Render(Receive(Begin(s), resp)) == Content(resp.payload)
    ensures resp.OtherError? || resp.NetworkError? ==>
      Render(Receive(Begin(s), resp)) == ErrorView(LoadFailedText)
    ensures resp.Redirect307? || resp.Unauthorized? ==>
      Render(Receive(Begin(s), resp)) == (if s.homeData.None? then NoData else Content(s.homeData.value))
  {
  }

  /** The navigation each response leads to: the server's redirect for 307, the
      login page for 401, and none otherwise; only a failure toasts. */
  lemma RoundNavigates(s: HomeState, resp: Response<HomeData>)
    ensures resp.Redirect307? ==> Receive(Begin(s), resp).navigations == s.navigations + [resp.redirect]
    ensures resp.Unauthorized? ==> Receive(Begin(s), resp).navigations == s.navigations + [LoginPath]
    ensures resp.Ok? || resp.OtherError? || resp.NetworkError? ==>
      Receive(Begin(s), resp).navigations == s.navigations
    ensures resp.OtherError? || resp.NetworkError? ==>
      Receive(Begin(s), resp).toasts == s.toasts + [ErrorToast(LoadFailedText)]
    ensures !(resp.OtherError? || resp.NetworkError?) ==> Receive(Begin(s), resp).toasts == s.toasts
  {
  }

  /** A fetch as the page sees it: the click (or mount) that begins it and the
      response that ends it. */
  datatype Round = Round(resp: Response<HomeData>)

  /** Replays whole fetches: the first mount, then each "Try Again". */
  function Rounds(s: HomeState, rounds: seq<Round>): HomeState
    decreases |rounds|
  {
    if rounds == [] then s else Rounds(Receive(Begin(s), rounds[0].resp), rounds[1..])
  }

  /** A fetch that fails: a status other than ok, 307 and 401 (thrown as an error),
      or a request that never got an answer. */
  predicate Fails(resp: Response<HomeData>) {
    resp.OtherError? || resp.NetworkError?
  }

  /** "Try Again" recovers: however many fetches failed before, and however each
      failed, the first ok one after them shows its content, and each failure only
      adds its toast. */
  lemma {:induction false} TryAgainRecovers(s: HomeState, failures: seq<Response<HomeData>>, d: HomeData)
    requires forall i :: 0 <= i < |failures| ==> Fails(failures[i])
    ensures Render(Rounds(s, seq(|failures|, i requires 0 <= i < |failures| => Round(failures[i])) + [Round(Ok(d))]))
      == Content(d)
    ensures Rounds(s, seq(|failures|, i requires 0 <= i < |failures| => Round(failures[i])) + [Round(Ok(d))]).toasts
      == s.toasts + seq(|failures|, _ => ErrorToast(LoadFailedText))
    decreases |failures|
  {
    var rounds := seq(|failures|, i requires 0 <= i < |failures| => Round(failures[i])) + [Round(Ok(d))];
    if failures == [] {
      assert rounds == [Round(Ok(d))];
      assert Rounds(s, rounds) == Rounds(Receive(Begin(s), Ok(d)), []);
    } else {
      var t := Receive(Begin(s), failures[0]);
      assert t.toasts == s.toasts + [ErrorToast(LoadFailedText)] by {
        assert Fails(failures[0]);
      }
      var rest := seq(|failures| - 1, i requires 0 <= i < |failures| - 1 => Round(failures[1..][i])) + [Round(Ok(d))];
      assert rounds[0] == Round(failures[0]);
      assert rounds[1..] == rest;
      TryAgainRecovers(t, failures[1..], d);
      assert seq(|failures|, _ => ErrorToast(LoadFailedText))
        == [ErrorToast(LoadFailedText)] + seq(|failures| - 1, _ => ErrorToast(LoadFailedText));
    }
  }

  /** The page, with its state held in fields that `fetchHomeData` updates in place. */
  class HomePage {
    var homeData: Option<HomeData>
    var isLoading: bool
    var error: Option<string>
    var navigations: seq<string>
    var toasts: seq<Toast>

    function State(): HomeState
      reads this
    {
      HomeState(homeData, isLoading, error, navigations, toasts)
    }

    /** The first render shows "Loading..." until the mount fetch answers. */
    constructor ()
      ensures State() == Initial
      ensures Render(State()) == Loading
    {
      homeData, isLoading, error := None, true, None;
      navigations, toasts := [], [];
    }

    /** `fetchHomeData` up to its `await`, from the mount effect or "Try Again". */
    method BeginFetch()
      modifies this
      ensures State() == Begin(old(State()))
      ensures isLoading && error == None
      ensures homeData == old(homeData) && navigations == old(navigations) && toasts == old(toasts)
    {
      isLoading := true;
      error := None;
    }

    /** The rest of `fetchHomeData`, once the request has resolved to `resp`. */
    method ReceiveHome(resp: Response<HomeData>)
      modifies this
      ensures State() == Receive(old(State()), resp)
      ensures !isLoading
      ensures resp.Ok? ==>
        homeData == Some(resp.payload) && error == old(error)
        && navigations == old(navigations) && toasts == old(toasts)
      ensures resp.Redirect307? ==>
        navigations == old(navigations) + [resp.redirect]
        && homeData == old(homeData) && error == old(error) && toasts == old(toasts)
      ensures resp.Unauthorized? ==>
        navigations == old(navigations) + [LoginPath]
        && homeData == old(homeData) && error == old(error) && toasts == old(toasts)
      ensures resp.OtherError? || resp.NetworkError? ==>
        error == Some(LoadFailedText) && toasts == old(toasts) + [ErrorToast(LoadFailedText)]
        && homeData == old(homeData) && navigations == old(navigations)
    {
      match resp {
        case Ok(d) =>
          homeData := Some(d);
        case Redirect307(r) =>
          navigations := navigations + [r];
        case Unauthorized =>
          navigations := navigations + [LoginPath];
        case _ =>
          error := Some(LoadFailedText);
          toasts := toasts + [ErrorToast(LoadFailedText)];
      }
      isLoading := false;
    }
  }
}
