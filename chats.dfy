/** The chat list page: a paginated list that grows page by page behind a
    single-flight guard, stops for good at the first empty page, and sends the
    user to the login page when the session is gone. */
module Chats {
  import opened Http

  datatype ChatStatus = Read | Sent | Unread

  /** One entry of the chat list, as the backend sends it. */
  datatype Chat = Chat(
    id: string,
    lastMessage: string,
    status: Option<ChatStatus>,
    username: string,
    lastActionTimestamp: string)

  const LoadFailedText: string := "Failed to load chats. Please try again later."

  /** Everything the page keeps, as one value. */
  datatype ChatListState = ChatListState(
    chats: seq<Chat>,
    currentPage: int,
    isLoading: bool,
    hasMore: bool,
    navigations: seq<string>,
    toasts: seq<Toast>)
  {
    /** What every reachable state satisfies: pages count from 1, and an exhausted
        list has no request outstanding. */
    predicate Valid() {
      currentPage >= 1 && (!hasMore ==> !isLoading)
    }
  }

  const Initial: ChatListState := ChatListState([], 1, false, true, [], [])

  /** `fetchChats(page)` up to its `await`: the state after the guard and the page
      requested, if a request goes out at all. */
  function Begin(s: ChatListState, page: int): (ChatListState, Option<int>)
  {
    if s.isLoading || !s.hasMore then (s, None)
    else (s.(isLoading := true), Some(page))
  }

  /** `fetchChats` after its `await`: the state once the outstanding request has
      resolved to `resp` and the `finally` block has run. */
  function Receive(s: ChatListState, resp: Response<seq<Chat>>): ChatListState
    requires s.isLoading
  {
    var t := match resp
      case Ok(page) =>
        if |page| == 0 then s.(hasMore := false)
        else s.(chats := s.chats + page, currentPage := s.currentPage + 1)
      case Unauthorized => s.(navigations := s.navigations + [LoginPath])
      case _ => s.(toasts := s.toasts + [ErrorToast(LoadFailedText)]);
    t.(isLoading := false)
  }

  /** What can happen to the page after mounting: a click on "Load More", or the
      arrival of the response to the outstanding request. */
  datatype Event = LoadMore | Arrive(resp: Response<seq<Chat>>)

  /** Where a run of events leads: the final state, the pages requested in order,
      and how many responses were consumed. */
  datatype Outcome = Outcome(state: ChatListState, requested: seq<int>, consumed: nat)

  /** Replays events on the page. A response can only arrive for a request that is
      outstanding; an `Arrive` while nothing is outstanding has no continuation to
      run and changes nothing. */
  function Run(s: ChatListState, events: seq<Event>): Outcome
    decreases |events|
  {
    if events == [] then Outcome(s, [], 0)
    else match events[0]
      case LoadMore =>
        var (t, request) := Begin(s, s.currentPage);
        var o := Run(t, events[1..]);
        o.(requested := (if request.Some? then [request.value] else []) + o.requested)
      case Arrive(resp) =>
        if s.isLoading then
          var o := Run(Receive(s, resp), events[1..]);
          o.(consumed := o.consumed + 1)
        else Run(s, events[1..])
  }

  function Count(b: bool): nat { if b then 1 else 0 }

  /** The events of an uneventful scroll: a click on "Load More" followed by the
      response carrying the next page, once per page. */
  function Dialogue(pages: seq<seq<Chat>>): (events: seq<Event>)
    ensures |events| == 2 * |pages|
  {
    if pages == [] then [] else [LoadMore, Arrive(Ok(pages[0]))] + Dialogue(pages[1..])
  }

  function Flatten(pages: seq<seq<Chat>>): seq<Chat>
  {
    if pages == [] then [] else pages[0] + Flatten(pages[1..])
  }

  /** Every transition keeps the state valid. */
  lemma {:induction false} RunKeepsValid(s: ChatListState, events: seq<Event>)
    requires s.Valid()
    ensures Run(s, events).state.Valid()
    decreases |events|
  {
    if events != [] {
      match events[0]
      case LoadMore => RunKeepsValid(Begin(s, s.currentPage).0, events[1..]);
      case Arrive(resp) =>
        if s.isLoading { RunKeepsValid(Receive(s, resp), events[1..]); }
        else { RunKeepsValid(s, events[1..]); }
    }
  }

  /** Once the list is exhausted (and, as always then, nothing is outstanding),
      no event issues a request or changes anything. */
  lemma {:induction false} ExhaustionIsFinal(s: ChatListState, events: seq<Event>)
    requires !s.hasMore && !s.isLoading
    ensures Run(s, events) == Outcome(s, [], 0)
    decreases |events|
  {
    if events != [] {
      ExhaustionIsFinal(s, events[1..]);
    }
  }

  /** `hasMore` is never set back to true, and the list only ever grows at its end. */
  lemma {:induction false} RunOnlyGrows(s: ChatListState, events: seq<Event>)
    ensures Run(s, events).state.hasMore ==> s.hasMore
    ensures s.chats <= Run(s, events).state.chats
    ensures s.currentPage <= Run(s, events).state.currentPage
    decreases |events|
  {
    if events != [] {
      match events[0]
      case LoadMore => RunOnlyGrows(Begin(s, s.currentPage).0, events[1..]);
      case Arrive(resp) =>
        if s.isLoading { RunOnlyGrows(Receive(s, resp), events[1..]); }
        else { RunOnlyGrows(s, events[1..]); }
    }
  }

  /** Single flight: requests issued and responses consumed balance out against
      the one request that may be outstanding, so at no point of any run are two
      requests outstanding at once. */
  lemma {:induction false} SingleFlight(s: ChatListState, events: seq<Event>)
    ensures |Run(s, events).requested| + Count(s.isLoading)
         == Run(s, events).consumed + Count(Run(s, events).state.isLoading)
    decreases |events|
  {
    if events != [] {
      match events[0]
      case LoadMore => SingleFlight(Begin(s, s.currentPage).0, events[1..]);
      case Arrive(resp) =>
        if s.isLoading { SingleFlight(Receive(s, resp), events[1..]); }
        else { SingleFlight(s, events[1..]); }
    }
  }

  /** While a request is outstanding, any number of clicks on "Load More" issue nothing. */
  lemma {:induction false} ClicksWhileLoadingIssueNothing(s: ChatListState, n: nat)
    requires s.isLoading
    ensures Run(s, seq(n, _ => LoadMore)) == Outcome(s, [], 0)
    decreases n
  {
    if n > 0 {
      assert seq(n, _ => LoadMore)[1..] == seq(n - 1, _ => LoadMore);
      ClicksWhileLoadingIssueNothing(s, n - 1);
    }
  }

  /** Pages that arrive one after another, each non-empty, are appended in
      arrival order, and the pages requested are consecutive from `currentPage`. */
  lemma {:induction false} PagesAppendInOrder(s: ChatListState, pages: seq<seq<Chat>>)
    requires !s.isLoading && s.hasMore
    requires forall i :: 0 <= i < |pages| ==> |pages[i]| > 0
    ensures Run(s, Dialogue(pages)) == Outcome(
      s.(chats := s.chats + Flatten(pages), currentPage := s.currentPage + |pages|),
      Consecutive(s.currentPage, |pages|),
      |pages|)
    decreases |pages|
  {
    if pages != [] {
      var events := Dialogue(pages);
      var t := s.(chats := s.chats + pages[0], currentPage := s.currentPage + 1);
      assert events[0] == LoadMore && events[1..][0] == Arrive(Ok(pages[0]));
      assert events[1..][1..] == Dialogue(pages[1..]);
      assert Receive(Begin(s, s.currentPage).0, Ok(pages[0])) == t;
      PagesAppendInOrder(t, pages[1..]);
      assert s.chats + pages[0] + Flatten(pages[1..]) == s.chats + Flatten(pages);
    }
  }

  /** The page, with its state held in fields that its handlers update in place. */
  class ChatsPage {
    var chats: seq<Chat>
    var currentPage: int
    var isLoading: bool
    var hasMore: bool
    var navigations: seq<string>
    var toasts: seq<Toast>

    function State(): ChatListState
      reads this
    {
      ChatListState(chats, currentPage, isLoading, hasMore, navigations, toasts)
    }

    /** The page as first rendered: no chats, page 1, idle, more to come. */
    constructor ()
      ensures State() == Initial
      ensures State().Valid()
    {
      chats, currentPage, isLoading, hasMore := [], 1, false, true;
      navigations, toasts := [], [];
    }

    /** `fetchChats(page)` up to its `await`. The guard refuses while a request is in
        flight or once the list is exhausted, and then nothing changes; otherwise the
        request for `page` goes out and the page is loading. */
    method BeginFetch(page: int) returns (request: Option<int>)
      modifies this
      ensures (State(), request) == Begin(old(State()), page)
      ensures old(isLoading || !hasMore) ==> request == None && State() == old(State())
      ensures old(!isLoading && hasMore) ==> request == Some(page) && isLoading
      ensures chats == old(chats) && currentPage == old(currentPage) && hasMore == old(hasMore)
    {
      if isLoading || !hasMore {
        return None;
      }
      isLoading := true;
      request := Some(page);
    }

    /** The rest of `fetchChats`, once the request has resolved to `resp`. */
    method ReceivePage(resp: Response<seq<Chat>>)
      requires isLoading
      modifies this
      ensures State() == Receive(old(State()), resp)
      ensures !isLoading
      ensures resp.Ok? && |resp.payload| == 0 ==>
        !hasMore && chats == old(chats) && currentPage == old(currentPage)
      ensures resp.Ok? && |resp.payload| > 0 ==>
        chats == old(chats) + resp.payload && currentPage == old(currentPage) + 1 && hasMore == old(hasMore)
      ensures resp.Unauthorized? ==>
        navigations == old(navigations) + [LoginPath] && toasts == old(toasts)
        && chats == old(chats) && currentPage == old(currentPage) && hasMore == old(hasMore)
      ensures !resp.Ok? && !resp.Unauthorized? ==>
        toasts == old(toasts) + [ErrorToast(LoadFailedText)] && navigations == old(navigations)
        && chats == old(chats) && currentPage == old(currentPage) && hasMore == old(hasMore)
    {
      match resp {
        case Ok(page) =>
          if |page| == 0 {
            hasMore := false;
          } else {
            chats := chats + page;
            currentPage := currentPage + 1;
          }
        case Unauthorized =>
          navigations := navigations + [LoginPath];
        case _ =>
          toasts := toasts + [ErrorToast(LoadFailedText)];
      }
      isLoading := false;
    }

    /** The mount effect: the first fetch asks for page 1. */
    method Mount() returns (request: Option<int>)
      modifies this
      ensures (State(), request) == Begin(old(State()), 1)
      ensures old(State()) == Initial ==> request == Some(1)
    {
      request := BeginFetch(1);
    }

    /** `handleLoadMore`: asks for the page `currentPage` names. */
    method LoadMore() returns (request: Option<int>)
      modifies this
      ensures (State(), request) == Begin(old(State()), old(currentPage))
      ensures request.Some? ==> request.value == old(currentPage)
    {
      request := BeginFetch(currentPage);
    }
  }
}
