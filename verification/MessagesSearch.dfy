// Api::MessagesSearch: a paged search in one history, with the first pages cached
// by token and the answers of superseded requests dropped.
module MessagesSearch {

  /** The token of a request; 0 is the empty string. */
  type Token = nat
  type MsgId = nat

  /** A page of an answer: the total count it states, and the messages taken from it. */
  datatype Page = Page(total: nat, messages: seq<MsgId>)

  /** What is fired to the listeners; the total is -1 before anything was found. */
  datatype FoundMessages = FoundMessages(total: int, messages: seq<MsgId>, nextToken: Token)

  const NOTHING_FOUND := FoundMessages(-1, [], 0)

  datatype Outcome = Silent | Fired(found: FoundMessages)

  /**
   * A page that was fired for the present search, with the offset it was asked for; `failed` if
   * the query was empty.
   */
  datatype Received = Received(offset: MsgId, page: Page, failed: bool)

  /** A request on the network, with the token and the offset it was sent with. */
  datatype Sent = Sent(token: Token, offset: MsgId)

  /**
   * The search; `busy` says whether a request of the history is pending.
   * `pages` records what was fired since the last searchMessages.
   */
  datatype Search = Search(
    token: Token,
    offsetId: MsgId,
    requestId: nat,
    busy: bool,
    cache: map<Token, Page>,
    nextId: nat,
    inFlight: map<nat, Sent>,
    pages: seq<Received>)

  const INITIAL := Search(0, 0, 0, false, map[], 1, map[], [])

  datatype Result = Result(search: Search, outcome: Outcome)

  // ---- The operations, as functions ----

  function OffsetOf(page: Page): MsgId {
    if page.messages == [] then 0 else page.messages[|page.messages| - 1]
  }

  function FoundIn(page: Page, token: Token): FoundMessages {
    FoundMessages(page.total, page.messages, token)
  }

  /** searchReceived, for a page that is not dropped and that was asked for with an offset. */
  function Accept(s: Search, page: Page, token: Token, asked: MsgId): Result {
    Result(
      s.(cache := if s.offsetId == 0 && token !in s.cache then s.cache[token := page] else s.cache,
         requestId := 0,
         offsetId := OffsetOf(page),
         pages := s.pages + [Received(asked, page, false)]),
      Fired(FoundIn(page, token)))
  }

  function SearchRequest(s: Search): Result {
    if s.offsetId == 0 && s.token in s.cache then Accept(s.(requestId := 0), s.cache[s.token], s.token, 0)
    else
      Result(
        s.(requestId := s.nextId,
           busy := true,
           nextId := s.nextId + 1,
           inFlight := s.inFlight[s.nextId := Sent(s.token, s.offsetId)]),
        Silent)
  }

  function SearchMessages(s: Search, token: Token): Result {
    SearchRequest(s.(token := token, offsetId := 0, pages := []))
  }

  function SearchMore(s: Search): Result {
    if s.busy || s.requestId != 0 then Result(s, Silent) else SearchRequest(s)
  }

  /** The done handler of a request. */
  function Done(s: Search, id: nat, page: Page): Result
    requires id in s.inFlight
  {
    var rest := s.(busy := false, inFlight := s.inFlight - {id});
    if id != s.requestId then Result(rest, Silent)
    else Accept(rest, page, s.inFlight[id].token, s.inFlight[id].offset)
  }

  const EMPTY_PAGE := Page(0, [])

  /** The fail handler of a request: an empty query fires an empty page, even for a superseded request. */
  function Fail(s: Search, id: nat, queryEmpty: bool): Result
    requires id in s.inFlight
  {
    var left := if id == s.requestId then 0 else s.requestId;
    var rest, sent := s.(busy := false, inFlight := s.inFlight - {id}, requestId := left), s.inFlight[id];
    if !queryEmpty then Result(rest, Silent)
    else if id != s.requestId then Result(rest, Fired(FoundIn(EMPTY_PAGE, sent.token)))
    else
      Result(rest.(pages := s.pages + [Received(sent.offset, EMPTY_PAGE, true)]),
        Fired(FoundIn(EMPTY_PAGE, sent.token)))
  }

  // ---- The pages of a search follow one another ----

  /** The offset to ask for after some pages: that of the last message of the last page. */
  function OffsetAfter(pages: seq<Received>): MsgId {
    if pages == [] then 0
    else
      var last := pages[|pages| - 1];
      if last.failed then last.offset else OffsetOf(last.page)
  }

  ghost predicate Chained(pages: seq<Received>) {
    forall k :: 0 <= k < |pages| ==> pages[k].offset == OffsetAfter(pages[..k])
  }

  /** The present request is on the network, for the present token and offset. */
  ghost predicate RequestIsCurrent(s: Search) {
    && s.nextId > 0
    && (forall id :: id in s.inFlight ==> 0 < id < s.nextId)
    && (s.requestId != 0 ==> s.requestId in s.inFlight && s.inFlight[s.requestId] == Sent(s.token, s.offsetId))
    && (s.requestId != 0 && s.offsetId == 0 ==> s.token !in s.cache)
  }

  /** A search's first page is the one in the cache. */
  ghost predicate FirstIsCached(s: Search) {
    s.pages != [] && !s.pages[0].failed ==> s.token in s.cache && s.cache[s.token] == s.pages[0].page
  }

  ghost predicate Inv(s: Search) {
    && RequestIsCurrent(s)
    && Chained(s.pages) && s.offsetId == OffsetAfter(s.pages)
    && FirstIsCached(s)
  }

  lemma ChainedMore(pages: seq<Received>, next: Received)
    requires Chained(pages) && next.offset == OffsetAfter(pages)
    ensures Chained(pages + [next])
  {
    var more := pages + [next];
    forall k | 0 <= k < |more| ensures more[k].offset == OffsetAfter(more[..k]) {
      assert more[..k] == pages[..k];
    }
    assert pages[..|pages|] == pages;
  }

  lemma AcceptKeeps(s: Search, page: Page)
    requires Inv(s) && (s.offsetId == 0 && s.token in s.cache ==> s.cache[s.token] == page)
    ensures Inv(Accept(s, page, s.token, s.offsetId).search)
  {
    ChainedMore(s.pages, Received(s.offsetId, page, false));
    hide Chained;
    if s.pages == [] {
      assert Accept(s, page, s.token, s.offsetId).search.pages[0].page == page;
    }
  }

  lemma SearchRequestKeeps(s: Search)
    requires Inv(s) && s.requestId == 0
    ensures Inv(SearchRequest(s).search)
  {
    if s.offsetId == 0 && s.token in s.cache {
      AcceptKeeps(s.(requestId := 0), s.cache[s.token]);
    }
  }

  /** A new search starts over, whatever is on the network. */
  lemma SearchMessagesKeeps(s: Search, token: Token)
    requires Inv(s)
    ensures Inv(SearchMessages(s, token).search)
  {
    var started := s.(token := token, offsetId := 0, pages := [], requestId := 0);
    SearchRequestKeeps(started);
    assert SearchMessages(s, token) == SearchRequest(started);
  }

  lemma SearchMoreKeeps(s: Search)
    requires Inv(s)
    ensures Inv(SearchMore(s).search)
  {
    hide Inv, SearchRequest;
    if !(s.busy || s.requestId != 0) {
      SearchRequestKeeps(s);
    }
  }

  lemma DoneKeeps(s: Search, id: nat, page: Page)
    requires Inv(s) && id in s.inFlight
    ensures Inv(Done(s, id, page).search)
  {
    var rest := s.(busy := false, inFlight := s.inFlight - {id});
    if id == s.requestId {
      AcceptKeeps(rest.(requestId := 0), page);
      assert Accept(rest, page, s.token, s.offsetId) == Accept(rest.(requestId := 0), page, s.token, s.offsetId);
    }
  }

  lemma FailKeeps(s: Search, id: nat, queryEmpty: bool)
    requires Inv(s) && id in s.inFlight
    ensures Inv(Fail(s, id, queryEmpty).search)
  {
    ChainedMore(s.pages, Received(s.offsetId, EMPTY_PAGE, true));
    hide Chained;
  }

  /** The page is fired, and is one more of the present search. */
  ghost predicate Finds(s: Search, r: Result, page: Page) {
    && r.outcome == Fired(FoundMessages(page.total, page.messages, s.token))
    && r.search.pages == s.pages + [Received(s.offsetId, page, false)]
    && r.search.requestId == 0 && r.search.offsetId == OffsetOf(page) && r.search.token == s.token
  }

  /** One request more is on the network, for what comes next, and it is the present one. */
  ghost predicate Asks(s: Search, r: Result) {
    && r.outcome == Silent
    && r.search == s.(requestId := r.search.requestId, busy := true, nextId := r.search.nextId,
         inFlight := s.inFlight[r.search.requestId := Sent(s.token, s.offsetId)])
    && r.search.requestId !in s.inFlight && 0 < r.search.requestId < r.search.nextId
  }

  /** An answer finds its page if it is the present request's; else nothing is found and the search stays as it was. */
  lemma FoundIff(s: Search, id: nat, page: Page)
    requires Inv(s) && id in s.inFlight
    ensures var r := Done(s, id, page);
      if id == s.requestId then
        Finds(s, r, page) && s.inFlight[id] == Sent(s.token, s.offsetId) && !r.search.busy
        && r.search.inFlight == s.inFlight - {id}
      else r == Result(s.(busy := false, inFlight := s.inFlight - {id}), Silent)
  {
  }

  /**
   * The request that failed is off the network, and if it was the present one what it asked
   * for can be asked for again.  Only an empty query fires: an empty page for its own token,
   * which is recorded if it is of the present search.
   */
  lemma FailedIs(s: Search, id: nat, queryEmpty: bool)
    requires Inv(s) && id in s.inFlight
    ensures var r, present := Fail(s, id, queryEmpty), id == s.requestId;
      && r.search.inFlight == s.inFlight - {id} && !r.search.busy
      && r.search.requestId == (if present then 0 else s.requestId)
      && r.search.offsetId == s.offsetId && r.search.token == s.token && r.search.cache == s.cache
      && r.outcome == (if queryEmpty then Fired(FoundMessages(0, [], s.inFlight[id].token)) else Silent)
      && r.search.pages
         == s.pages + (if queryEmpty && present then [Received(s.offsetId, Page(0, []), true)] else [])
  {
  }

  /** A search starts over: it finds its first page in the cache, or asks for it. */
  lemma SearchBegins(s: Search, token: Token)
    requires Inv(s)
    ensures var r, over := SearchMessages(s, token), s.(token := token, offsetId := 0, pages := []);
      if token in s.cache then Finds(over, r, s.cache[token]) && r.search.inFlight == s.inFlight
      else Asks(over, r)
  {
    assert s.nextId !in s.inFlight;
    hide Chained;
  }

  /** Going on asks for the next page, or finds the first one in the cache, unless a request is under way. */
  lemma GoingOnIs(s: Search)
    requires Inv(s)
    ensures var r := SearchMore(s);
      if s.busy || s.requestId != 0 then r == Result(s, Silent)
      else if s.offsetId == 0 && s.token in s.cache then
        Finds(s, r, s.cache[s.token]) && r.search.inFlight == s.inFlight
      else Asks(s, r)
  {
    assert s.nextId !in s.inFlight;
    hide Chained;
  }

  // ---- Whole runs ----

  datatype Event =
    | DoSearch(token: Token)
    | DoSearchMore
    | DoDone(id: nat, page: Page)
    | DoFail(id: nat, queryEmpty: bool)

  function Step(s: Search, event: Event): Search {
    match event
    case DoSearch(token) => SearchMessages(s, token).search
    case DoSearchMore => SearchMore(s).search
    case DoDone(id, page) => if id in s.inFlight then Done(s, id, page).search else s
    case DoFail(id, queryEmpty) => if id in s.inFlight then Fail(s, id, queryEmpty).search else s
  }

  function RunFrom(s: Search, events: seq<Event>): Search
    decreases |events|
  {
    if events == [] then s else RunFrom(Step(s, events[0]), events[1..])
  }

  function Run(events: seq<Event>): Search {
    RunFrom(INITIAL, events)
  }

  lemma StepKeeps(s: Search, event: Event)
    requires Inv(s)
    ensures Inv(Step(s, event))
  {
    hide Inv, SearchMessages, SearchMore, Done, Fail;
    match event
    case DoSearch(token) => SearchMessagesKeeps(s, token);
    case DoSearchMore => SearchMoreKeeps(s);
    case DoDone(id, page) => if id in s.inFlight { DoneKeeps(s, id, page); }
    case DoFail(id, queryEmpty) => if id in s.inFlight { FailKeeps(s, id, queryEmpty); }
  }

  lemma {:induction false} RunFromKeeps(s: Search, events: seq<Event>)
    requires Inv(s)
    ensures Inv(RunFrom(s, events))
    decreases |events|
  {
    hide Inv, Step;
    if events != [] {
      StepKeeps(s, events[0]);
      RunFromKeeps(Step(s, events[0]), events[1..]);
    }
  }

  lemma EveryRunKeeps(events: seq<Event>)
    ensures Inv(Run(events))
  {
    InitialKeeps();
    hide Inv, RunFrom;
    RunFromKeeps(INITIAL, events);
  }

  lemma InitialKeeps()
    ensures Inv(INITIAL)
  {
  }

  /** In every run each page was asked for with the last message of the page before it, the first with none. */
  lemma PagesFollowOneAnother(events: seq<Event>, k: nat)
    requires k < |Run(events).pages|
    ensures Run(events).pages[k].offset == OffsetAfter(Run(events).pages[..k])
  {
    EveryRunKeeps(events);
    hide Run, OffsetAfter;
  }

  /** Going on finds the first page again, from the cache, exactly if the last page was empty. */
  lemma StartsOverIff(s: Search)
    requires Inv(s) && !s.busy && s.requestId == 0
    requires s.pages != [] && !s.pages[0].failed && !s.pages[|s.pages| - 1].failed
    requires 0 !in s.pages[|s.pages| - 1].page.messages
    ensures SearchMore(s).outcome == Fired(FoundIn(s.pages[0].page, s.token))
      <==> s.pages[|s.pages| - 1].page.messages == []
  {
    var last := s.pages[|s.pages| - 1].page;
    if last.messages != [] {
      assert last.messages[|last.messages| - 1] in last.messages;
    }
    hide Chained;
  }

  // ---- The cache ----

  /** The event is the answer to the present request, which asked for the first page of a token. */
  predicate BringsFirstPage(s: Search, event: Event, token: Token, page: Page) {
    && event.DoDone? && event.id in s.inFlight && event.id == s.requestId
    && s.inFlight[event.id] == Sent(token, 0) && event.page == page
  }

  /** In every run a page is in the cache if it was there, or if it is the first that was answered for its token. */
  lemma CachedIff(events: seq<Event>, event: Event, token: Token, page: Page)
    ensures var s, s' := Run(events), Step(Run(events), event);
      (token in s'.cache && s'.cache[token] == page)
      <==> if token in s.cache then s.cache[token] == page else BringsFirstPage(s, event, token, page)
  {
    EveryRunKeeps(events);
    hide Run, Chained, FirstIsCached;
  }

  // ---- A search never hangs ----

  /** Whatever the search waits for is on the network. */
  ghost predicate WaitsForNetwork(s: Search) {
    (s.busy ==> s.inFlight != map[]) && (s.requestId != 0 ==> s.requestId in s.inFlight)
  }

  lemma {:induction false} RunWaits(s: Search, events: seq<Event>)
    requires Inv(s) && WaitsForNetwork(s)
    ensures WaitsForNetwork(RunFrom(s, events))
    decreases |events|
  {
    if events != [] {
      StepKeeps(s, events[0]);
      StepWaits(s, events[0]);
      RunWaits(Step(s, events[0]), events[1..]);
    }
  }

  lemma StepWaits(s: Search, event: Event)
    requires Inv(s) && WaitsForNetwork(s)
    ensures WaitsForNetwork(Step(s, event))
  {
    hide Chained, FirstIsCached, OffsetAfter;
    match event
    case DoSearch(token) => AskingWaits(s.(token := token, offsetId := 0, pages := []));
    case DoSearchMore => AskingWaits(s);
    case DoDone(id, page) =>
    case DoFail(id, queryEmpty) =>
  }

  lemma AskingWaits(s: Search)
    requires s.busy ==> s.inFlight != map[]
    ensures WaitsForNetwork(SearchRequest(s).search)
  {
    assert s.inFlight[s.nextId := Sent(s.token, s.offsetId)] != map[] by {
      assert s.nextId in s.inFlight[s.nextId := Sent(s.token, s.offsetId)];
    }
  }

  /** In every run, with nothing on the network, going on asks for the next page or finds the first one once more. */
  lemma NothingHangs(events: seq<Event>)
    requires Run(events).inFlight == map[]
    ensures var s, r := Run(events), SearchMore(Run(events));
      Asks(s, r) || (s.offsetId == 0 && s.token in s.cache && Finds(s, r, s.cache[s.token]))
  {
    EveryRunKeeps(events);
    InitialKeeps();
    RunWaits(INITIAL, events);
    GoingOnIs(Run(events));
    hide Run, RunFrom, Inv, Asks, Finds;
  }

  // ---- A superseded request ----

  /** A request that was sent and is not the present one. */
  predicate Superseded(s: Search, id: nat) {
    id < s.nextId && id != s.requestId
  }

  lemma StepKeepsSuperseded(s: Search, event: Event, id: nat)
    requires Superseded(s, id) && id != 0
    ensures Superseded(Step(s, event), id)
  {
  }

  lemma {:induction false} StaysSuperseded(s: Search, events: seq<Event>, id: nat)
    requires Superseded(s, id) && id != 0
    ensures Superseded(RunFrom(s, events), id)
    decreases |events|
  {
    hide Superseded, Step;
    if events != [] {
      StepKeepsSuperseded(s, events[0], id);
      StaysSuperseded(Step(s, events[0]), events[1..], id);
    }
  }

  lemma {:induction false} RunInParts(s: Search, first: seq<Event>, second: seq<Event>)
    ensures RunFrom(s, first + second) == RunFrom(RunFrom(s, first), second)
    decreases |first|
  {
    if first == [] {
      assert first + second == second;
    } else {
      RunInParts(Step(s, first[0]), first[1..], second);
      assert (first + second)[1..] == first[1..] + second;
    }
  }

  /**
   * What a superseded request is answered never matters: once a newer search or
   * page was asked for, two runs that differ in that answer, whenever it comes,
   * end alike.
   */
  lemma SupersededAnswerNeverMatters(
    before: seq<Event>, between: seq<Event>, id: nat, a: Page, b: Page, after: seq<Event>)
    requires id != 0 && Superseded(Run(before), id)
    ensures Run(before + between + [DoDone(id, a)] + after) == Run(before + between + [DoDone(id, b)] + after)
  {
    StaysSuperseded(Run(before), between, id);
    RunInParts(INITIAL, before, between);
    AnswerInBetween(before + between, DoDone(id, a), after);
    AnswerInBetween(before + between, DoDone(id, b), after);
    hide Run, RunFrom;
  }

  lemma AnswerInBetween(before: seq<Event>, event: Event, after: seq<Event>)
    ensures Run(before + [event] + after) == RunFrom(Step(Run(before), event), after)
  {
    RunInParts(INITIAL, before + [event], after);
    RunInParts(INITIAL, before, [event]);
    assert RunFrom(Run(before), [event]) == Step(Run(before), event) by { assert [event][1..] == []; }
    hide RunFrom, Step;
  }

  /** What the present request is answered always does: it is the page that comes next. */
  lemma PresentAnswerMatters(before: seq<Event>, id: nat, a: Page, b: Page)
    requires id in Run(before).inFlight && id == Run(before).requestId && a != b
    ensures Run(before + [DoDone(id, a)]).pages != Run(before + [DoDone(id, b)]).pages
  {
    AnswerInBetween(before, DoDone(id, a), []);
    AnswerInBetween(before, DoDone(id, b), []);
    assert before + [DoDone(id, a)] + [] == before + [DoDone(id, a)];
    assert before + [DoDone(id, b)] + [] == before + [DoDone(id, b)];
    var s := Run(before);
    hide Run;
    assert Step(s, DoDone(id, a)).pages[|s.pages|].page == a;
    assert Step(s, DoDone(id, b)).pages[|s.pages|].page == b;
  }

  // ---- Going on after an empty page ----

  /** A search whose second page is empty although its first one promised more, and which then goes on. */
  const EXHAUSTED := [
    DoSearch(1),
    DoDone(1, Page(9, [5])),
    DoSearchMore,
    DoDone(2, Page(9, [])),
    DoSearchMore]

  /** It finds its first page once more, from the cache. */
  lemma EmptyPageStartsOver()
    ensures var pages := Run(EXHAUSTED).pages;
      |pages| == 3 && pages[0].page == Page(9, [5]) && pages[1].page == Page(9, []) && pages[2] == pages[0]
  {
    var e := EXHAUSTED;
    var s1 := Step(INITIAL, e[0]);
    var s2 := Step(s1, e[1]);
    var s3 := Step(s2, e[2]);
    var s4 := Step(s3, e[3]);
    assert e[1..][1..] == e[2..] && e[2..][1..] == e[3..] && e[3..][1..] == e[4..] && e[4..][1..] == [];
    assert Run(e) == RunFrom(s1, e[1..]) == RunFrom(s2, e[2..]) == RunFrom(s3, e[3..]);
    assert RunFrom(s3, e[3..]) == RunFrom(s4, e[4..]) == Step(s4, e[4]);
    hide RunFrom;
    assert s2.pages == [Received(0, Page(9, [5]), false)] && s2.offsetId == 5 && s2.cache == map[1 := Page(9, [5])];
    assert s3.inFlight == map[2 := Sent(1, 5)] && s3.requestId == 2;
    assert s4.pages == s2.pages + [Received(5, Page(9, []), false)] && s4.offsetId == 0 && !s4.busy;
  }

  // ---- The object that the source updates in place ----

  class Searcher {
    var token: Token
    var offsetId: MsgId
    var requestId: nat
    var busy: bool
    var cacheOfStartByToken: map<Token, Page>
    var nextId: nat
    var inFlight: map<nat, Sent>
    ghost var pages: seq<Received>

    ghost function Abs(): Search
      reads this
    {
      Search(token, offsetId, requestId, busy, cacheOfStartByToken, nextId, inFlight, pages)
    }

    constructor ()
      ensures Abs() == INITIAL && Inv(Abs())
    {
      token, offsetId, requestId, busy := 0, 0, 0, false;
      cacheOfStartByToken, nextId, inFlight, pages := map[], 1, map[], [];
    }

    method SearchFor(next: Token) returns (outcome: Outcome)
      requires Inv(Abs())
      modifies this
      ensures Result(Abs(), outcome) == SearchMessages(old(Abs()), next) && Inv(Abs())
    {
      hide Inv, SearchRequest;
      SearchMessagesKeeps(Abs(), next);
      token, offsetId, pages := next, 0, [];
      outcome := SendRequest();
    }

    method More() returns (outcome: Outcome)
      requires Inv(Abs())
      modifies this
      ensures Result(Abs(), outcome) == SearchMore(old(Abs())) && Inv(Abs())
    {
      hide Inv, SearchRequest;
      SearchMoreKeeps(Abs());
      if busy || requestId != 0 {
        return Silent;
      }
      outcome := SendRequest();
    }

    /** searchRequest: from the cache, or over the network. */
    method SendRequest() returns (outcome: Outcome)
      modifies this
      ensures Result(Abs(), outcome) == SearchRequest(old(Abs()))
    {
      if offsetId == 0 && token in cacheOfStartByToken {
        requestId := 0;
        outcome := SearchReceived(cacheOfStartByToken[token], 0, token, 0);
        return;
      }
      requestId := nextId;
      nextId := nextId + 1;
      inFlight := inFlight[requestId := Sent(token, offsetId)];
      busy := true;
      outcome := Silent;
    }

    method SearchReceived(page: Page, id: nat, nextToken: Token, ghost asked: MsgId) returns (outcome: Outcome)
      modifies `cacheOfStartByToken, `requestId, `offsetId, `pages
      ensures id != old(requestId) ==> outcome == Silent && Abs() == old(Abs())
      ensures id == old(requestId) ==> Result(Abs(), outcome) == Accept(old(Abs()), page, nextToken, asked)
    {
      if id != requestId {
        return Silent;
      }
      if offsetId == 0 && nextToken !in cacheOfStartByToken {
        cacheOfStartByToken := cacheOfStartByToken[nextToken := page];
      }
      requestId := 0;
      pages := pages + [Received(asked, page, false)];
      offsetId := if page.messages == [] then 0 else page.messages[|page.messages| - 1];
      outcome := Fired(FoundMessages(page.total, page.messages, nextToken));
    }

    method ReceiveDone(id: nat, page: Page) returns (outcome: Outcome)
      requires Inv(Abs()) && id in inFlight
      modifies this
      ensures Result(Abs(), outcome) == Done(old(Abs()), id, page) && Inv(Abs())
    {
      DoneKeeps(Abs(), id, page);
      hide Inv, Accept;
      var sent := inFlight[id];
      inFlight := inFlight - {id};
      busy := false;
      outcome := SearchReceived(page, id, sent.token, sent.offset);
    }

    method ReceiveFail(id: nat, queryEmpty: bool) returns (outcome: Outcome)
      requires Inv(Abs()) && id in inFlight
      modifies this
      ensures Result(Abs(), outcome) == Fail(old(Abs()), id, queryEmpty) && Inv(Abs())
    {
      FailKeeps(Abs(), id, queryEmpty);
      hide Inv;
      var sent := inFlight[id];
      inFlight := inFlight - {id};
      busy := false;
      outcome := Silent;
      if queryEmpty {
        outcome := Fired(FoundMessages(0, [], sent.token));
        if requestId == id { pages := pages + [Received(sent.offset, EMPTY_PAGE, true)]; }
      }
      if requestId == id {
        requestId := 0;
      }
    }
  }
}
