// Api::MessagesSearchMerged: the pages of two searches, in a history and in the
// one it was migrated from, merged into one list whatever order they arrive in.
module MessagesSearchMerged {
  import opened MessagesSearch

  /**
   * The merged search.  `active` says that the last search was started with
   * everything cleared and a token, and that since then nothing was cleared or
   * searched again and no superseded request has failed harmfully.
   */
  datatype Merged = Merged(
    api: Search,
    migrated: Search,
    hasMigrated: bool,
    concated: FoundMessages,
    migratedFirst: FoundMessages,
    waitingForTotal: bool,
    full: bool,
    active: bool)

  function InitialWith(hasMigrated: bool): Merged {
    Merged(MessagesSearch.INITIAL, MessagesSearch.INITIAL, hasMigrated, NOTHING_FOUND, NOTHING_FOUND, false, false,
      false)
  }

  // ---- The handlers and the operations, as functions ----

  function AddFound(m: Merged, data: FoundMessages): Merged {
    m.(concated := m.concated.(messages := m.concated.messages + data.messages))
  }

  function CheckWaitingForTotal(m: Merged): Merged {
    if m.waitingForTotal && m.concated.total >= 0 && m.migratedFirst.total >= 0 then
      m.(waitingForTotal := false, concated := m.concated.(total := m.concated.total + m.migratedFirst.total))
    else m
  }

  function CheckFull(m: Merged, data: FoundMessages): Merged {
    if data.total == |m.concated.messages| then AddFound(m.(full := true), m.migratedFirst) else m
  }

  /** What the messages found in the history itself do. */
  function ApiFound(m: Merged, data: FoundMessages): Merged {
    if data.nextToken == m.concated.nextToken then CheckFull(AddFound(m, data), data)
    else CheckWaitingForTotal(CheckFull(m.(concated := data), data))
  }

  /** What those found in the migrated history do. */
  function MigratedFound(m: Merged, data: FoundMessages): Merged {
    var added := if m.full then AddFound(m, data) else m;
    if data.nextToken == m.migratedFirst.nextToken then added
    else CheckWaitingForTotal(added.(migratedFirst := data))
  }

  function ApiResult(m: Merged, r: Result): Merged {
    var m' := m.(api := r.search);
    if r.outcome.Fired? then ApiFound(m', r.outcome.found) else m'
  }

  function MigratedResult(m: Merged, r: Result): Merged {
    var m' := m.(migrated := r.search);
    if r.outcome.Fired? then MigratedFound(m', r.outcome.found) else m'
  }

  function Clear(m: Merged): Merged {
    m.(concated := NOTHING_FOUND, migratedFirst := NOTHING_FOUND, waitingForTotal := false, full := false,
      active := false)
  }

  predicate Cleared(m: Merged) {
    m.concated == NOTHING_FOUND && m.migratedFirst == NOTHING_FOUND
  }

  function SearchFor(m: Merged, token: Token): Merged {
    var started := m.(full := false, waitingForTotal := m.hasMigrated, active := Cleared(m) && token != 0);
    var migrated := if m.hasMigrated then MigratedResult(started, SearchMessages(m.migrated, token)) else started;
    ApiResult(migrated, SearchMessages(m.api, token))
  }

  function More(m: Merged): Merged {
    if m.hasMigrated && m.full then MigratedResult(m, SearchMore(m.migrated)) else ApiResult(m, SearchMore(m.api))
  }

  // A superseded request that fails for an empty query still fires an empty page.

  /** Such a page of the history itself does no harm. */
  predicate HarmlessToApi(m: Merged, token: Token) {
    m.api.pages != [] && token == m.api.token && (m.concated.messages != [] || Full(m.api.pages))
  }

  /** Such a page of the migrated history does no harm. */
  predicate HarmlessToMigrated(m: Merged, token: Token) {
    token == m.migratedFirst.nextToken
  }

  /** Whether the failure of a request leaves everything as the pages determine it. */
  predicate ApiFailureIsSafe(m: Merged, id: nat, queryEmpty: bool)
    requires id in m.api.inFlight
  {
    queryEmpty && id != m.api.requestId ==> HarmlessToApi(m, m.api.inFlight[id].token)
  }

  predicate MigratedFailureIsSafe(m: Merged, id: nat, queryEmpty: bool)
    requires id in m.migrated.inFlight
  {
    queryEmpty && id != m.migrated.requestId ==> HarmlessToMigrated(m, m.migrated.inFlight[id].token)
  }

  datatype Event =
    | OnClear
    | OnSearch(token: Token)
    | OnMore
    | OnDone(fromMigrated: bool, id: nat, page: Page)
    | OnFail(fromMigrated: bool, id: nat, queryEmpty: bool)

  function Next(m: Merged, event: Event): Merged {
    match event
    case OnClear => Clear(m)
    case OnSearch(token) => SearchFor(m, token)
    case OnMore => More(m)
    case OnDone(true, id, page) =>
      if m.hasMigrated && id in m.migrated.inFlight then MigratedResult(m, Done(m.migrated, id, page)) else m
    case OnDone(false, id, page) => if id in m.api.inFlight then ApiResult(m, Done(m.api, id, page)) else m
    case OnFail(true, id, queryEmpty) =>
      if m.hasMigrated && id in m.migrated.inFlight then
        MigratedResult(
          m.(active := m.active && MigratedFailureIsSafe(m, id, queryEmpty)), Fail(m.migrated, id, queryEmpty))
      else m
    case OnFail(false, id, queryEmpty) =>
      if id in m.api.inFlight then
        ApiResult(m.(active := m.active && ApiFailureIsSafe(m, id, queryEmpty)), Fail(m.api, id, queryEmpty))
      else m
  }

  function Run(hasMigrated: bool, events: seq<Event>): Merged
    decreases |events|
  {
    if events == [] then InitialWith(hasMigrated)
      else Next(Run(hasMigrated, events[..|events| - 1]), events[|events| - 1])
  }

  // ---- What the list is, in terms of the pages alone ----

  /** All the messages of some pages, in order. */
  function AllMessages(pages: seq<Received>): seq<MsgId> {
    if pages == [] then [] else AllMessages(pages[..|pages| - 1]) + pages[|pages| - 1].page.messages
  }

  /** Some page stated a total that its messages and those before it add up to. */
  predicate Full(pages: seq<Received>) {
    pages != [] && (Full(pages[..|pages| - 1]) || pages[|pages| - 1].page.total == |AllMessages(pages)|)
  }

  /** The messages: all of the history, and once that is complete all of the migrated one. */
  function MergedMessages(api: seq<Received>, migrated: seq<Received>): seq<MsgId> {
    AllMessages(api) + if Full(api) then AllMessages(migrated) else []
  }

  /** The total: that of the first page, and once both first pages are there that of the migrated one, once. */
  function MergedTotal(api: seq<Received>, migrated: seq<Received>): int {
    if api == [] then -1
    else api[0].page.total + if migrated == [] then 0 else migrated[0].page.total
  }

  function FirstFound(pages: seq<Received>, token: Token): FoundMessages {
    if pages == [] then NOTHING_FOUND else FoundIn(pages[0].page, token)
  }

  function MigratedPages(m: Merged): seq<Received> {
    if m.hasMigrated then m.migrated.pages else []
  }

  ghost predicate ListIsMerged(m: Merged) {
    && m.concated.messages == MergedMessages(m.api.pages, MigratedPages(m))
    && m.full == Full(m.api.pages)
    && m.concated.total == MergedTotal(m.api.pages, MigratedPages(m))
    && m.concated.nextToken == (if m.api.pages == [] then 0 else m.api.token)
    && m.migratedFirst == FirstFound(MigratedPages(m), m.api.token)
    && m.waitingForTotal == (m.hasMigrated && (m.api.pages == [] || m.migrated.pages == []))
  }

  /** Only the search whose turn it is has a request that will not be dropped. */
  ghost predicate TakeTurns(m: Merged) {
    && m.api.token != 0
    && (m.hasMigrated ==> m.migrated.token == m.api.token)
    && (m.full && m.hasMigrated ==> m.api.requestId == 0)
    && (!m.full ==> |MigratedPages(m)| <= 1 && (MigratedPages(m) != [] ==> m.migrated.requestId == 0))
  }

  ghost predicate Tracks(m: Merged) {
    MessagesSearch.Inv(m.api) && MessagesSearch.Inv(m.migrated) && (m.active ==> ListIsMerged(m) && TakeTurns(m))
  }

  // ---- One page more ----

  lemma OnePageMore(pages: seq<Received>, next: Received)
    ensures AllMessages(pages + [next]) == AllMessages(pages) + next.page.messages
    ensures Full(pages + [next]) <==> Full(pages) || next.page.total == |AllMessages(pages + [next])|
    ensures FirstFound(pages + [next], 0).total == if pages == [] then next.page.total else pages[0].page.total
  {
    assert (pages + [next])[..|pages|] == pages;
  }

  ghost predicate Tracked(m: Merged) {
    ListIsMerged(m) && TakeTurns(m)
  }

  lemma {:induction false} AtMostOnePage(pages: seq<Received>)
    ensures AllMessages([]) == [] && !Full([])
    ensures |pages| == 1 ==> AllMessages(pages) == pages[0].page.messages
  {
    if |pages| == 1 {
      OnePageMore([], pages[0]);
      assert [] + [pages[0]] == pages;
    }
  }

  /** The first page found in the history itself. */
  lemma ApiFirst(m: Merged, next: Search, x: Received)
    requires Tracked(m) && m.api.pages == [] && next.pages == [x] && next.token == m.api.token && next.requestId == 0
    ensures Tracked(ApiFound(m.(api := next), FoundIn(x.page, next.token)))
  {
    OnePageMore([], x);
    assert [] + [x] == [x];
    AtMostOnePage(MigratedPages(m));
    hide Full, AllMessages;
  }

  lemma ApiNext(m: Merged, next: Search, x: Received)
    requires Tracked(m) && m.api.pages != [] && !(m.full && m.hasMigrated)
    requires next.pages == m.api.pages + [x] && next.token == m.api.token && next.requestId == 0
    ensures Tracked(ApiFound(m.(api := next), FoundIn(x.page, next.token)))
  {
    OnePageMore(m.api.pages, x);
    AtMostOnePage(MigratedPages(m));
    hide Full, AllMessages;
  }

  lemma ApiFires(m: Merged, next: Search, x: Received)
    requires Tracked(m) && !(m.full && m.hasMigrated)
    requires next.pages == m.api.pages + [x] && next.token == m.api.token && next.requestId == 0
    ensures Tracked(ApiFound(m.(api := next), FoundIn(x.page, next.token)))
  {
    hide Tracked, ApiFound;
    if m.api.pages == [] {
      assert next.pages == [x];
      ApiFirst(m, next, x);
    } else {
      ApiNext(m, next, x);
    }
  }

  lemma ApiIsSilent(m: Merged, next: Search)
    requires Tracked(m) && next.pages == m.api.pages && next.token == m.api.token
    requires m.full && m.hasMigrated ==> next.requestId == 0
    ensures Tracked(m.(api := next))
  {
  }

  lemma MigratedFires(m: Merged, next: Search, x: Received)
    requires Tracked(m) && m.hasMigrated && (m.full || m.migrated.pages == [])
    requires next.pages == m.migrated.pages + [x] && next.token == m.migrated.token && next.requestId == 0
    ensures Tracked(MigratedFound(m.(migrated := next), FoundIn(x.page, next.token)))
  {
    OnePageMore(m.migrated.pages, x);
    hide Full, AllMessages;
  }

  lemma MigratedIsSilent(m: Merged, next: Search)
    requires Tracked(m) && m.hasMigrated && next.pages == m.migrated.pages && next.token == m.migrated.token
    requires !m.full && m.migrated.pages != [] ==> next.requestId == 0
    ensures Tracked(m.(migrated := next))
  {
  }

  // ---- The steps ----

  /** What one step of a search comes to: silence, or one page more. */
  ghost predicate MovesOn(s: Search, r: Result) {
    && r.search.token == s.token
    && (r.outcome == Silent ==> r.search.pages == s.pages)
    && (r.outcome.Fired? ==>
         && r.search.requestId == 0
         && |r.search.pages| == |s.pages| + 1
         && r.search.pages == s.pages + [r.search.pages[|s.pages|]]
         && r.outcome.found == FoundIn(r.search.pages[|s.pages|].page, s.token))
  }

  lemma MoreMovesOn(s: Search)
    ensures MovesOn(s, SearchMore(s))
  {
  }

  lemma DoneMovesOn(s: Search, id: nat, page: Page)
    requires MessagesSearch.Inv(s) && id in s.inFlight
    ensures MovesOn(s, Done(s, id, page))
    ensures Done(s, id, page).outcome.Fired? ==> id == s.requestId
    ensures Done(s, id, page).search.requestId == if id == s.requestId then 0 else s.requestId
    ensures s.requestId == 0 ==> Done(s, id, page).outcome == Silent
  {
    hide Chained, FirstIsCached;
  }

  lemma FailMovesOn(s: Search, id: nat, queryEmpty: bool)
    requires MessagesSearch.Inv(s) && id in s.inFlight && (queryEmpty ==> id == s.requestId)
    ensures MovesOn(s, Fail(s, id, queryEmpty))
    ensures Fail(s, id, queryEmpty).search.requestId == if id == s.requestId then 0 else s.requestId
    ensures s.requestId == 0 ==> Fail(s, id, queryEmpty).outcome == Silent
  {
    hide Chained, FirstIsCached;
  }

  lemma ApiMovesOn(m: Merged, r: Result)
    requires Tracked(m) && MovesOn(m.api, r)
    requires m.full && m.hasMigrated ==> r.outcome == Silent && r.search.requestId == 0
    ensures Tracked(ApiResult(m, r))
  {
    hide Tracked, ApiFound;
    if r.outcome.Fired? {
      ApiFires(m, r.search, r.search.pages[|m.api.pages|]);
    } else {
      ApiIsSilent(m, r.search);
    }
  }

  lemma MigratedMovesOn(m: Merged, r: Result)
    requires Tracked(m) && m.hasMigrated && MovesOn(m.migrated, r)
    requires !m.full && m.migrated.pages != [] ==> r.outcome == Silent && r.search.requestId == 0
    ensures Tracked(MigratedResult(m, r))
  {
    hide Tracked, MigratedFound;
    if r.outcome.Fired? {
      MigratedFires(m, r.search, r.search.pages[|m.migrated.pages|]);
    } else {
      MigratedIsSilent(m, r.search);
    }
  }

  /** A search as it is at the start of searchMessages. */
  function StartedOver(s: Search, token: Token): Search {
    s.(token := token, offsetId := 0, pages := [], requestId := 0)
  }

  lemma SearchStartsOver(s: Search, token: Token)
    ensures SearchMessages(s, token) == SearchRequest(StartedOver(s, token))
    ensures MovesOn(StartedOver(s, token), SearchMessages(s, token))
  {
  }

  /** Searching with everything cleared tracks both searches from the start. */
  lemma SearchTracks(m: Merged, token: Token)
    requires Cleared(m) && token != 0
    ensures Tracked(SearchFor(m, token)) && SearchFor(m, token).active
  {
    SearchStartsOver(m.api, token);
    SearchStartsOver(m.migrated, token);
    var started := m.(full := false, waitingForTotal := m.hasMigrated, active := true);
    var over := started.(
      api := StartedOver(m.api, token),
      migrated := if m.hasMigrated then StartedOver(m.migrated, token) else m.migrated);
    assert Tracked(over);
    hide Tracked, MovesOn, SearchMessages, ApiFound, MigratedFound, StartedOver, AddFound, CheckFull,
      CheckWaitingForTotal;
    var r := SearchMessages(m.migrated, token);
    var mid := if m.hasMigrated then MigratedResult(over, r) else over;
    if m.hasMigrated { MigratedMovesOn(over, r); }
    MigratedIgnoresApi(over, r, m.api);
    ApiMovesOn(mid, SearchMessages(m.api, token));
  }

  lemma MigratedIgnoresApi(m: Merged, r: Result, api: Search)
    ensures MigratedResult(m.(api := api), r) == MigratedResult(m, r).(api := api)
    ensures MigratedResult(m, r).api == m.api && MigratedResult(m, r).full == m.full
      && MigratedResult(m, r).hasMigrated == m.hasMigrated
  {
  }

  // ---- Superseded requests that fail ----

  /**
   * A superseded request of the history itself that fails for an empty query does
   * no harm exactly if it was for the same token, a page has arrived, and there
   * are messages or the list was complete.
   */
  lemma LateFailureHarmlessIff(m: Merged, token: Token)
    requires Tracked(m)
    ensures ListIsMerged(ApiFound(m, FoundIn(EMPTY_PAGE, token))) <==> HarmlessToApi(m, token)
  {
    var b := MigratedPages(m);
    if m.concated.messages == [] && b != [] {
      FirstIsAmong(b);
    }
    hide AllMessages;
    assert !Full([]);
  }

  lemma {:induction false} FirstIsAmong(pages: seq<Received>)
    requires pages != []
    ensures |AllMessages(pages)| >= |pages[0].page.messages|
    decreases |pages|
  {
    if |pages| > 1 {
      FirstIsAmong(pages[..|pages| - 1]);
    }
  }

  /** One of the migrated history does no harm exactly if its token is that of the first page found there. */
  lemma LateMigratedFailureHarmlessIff(m: Merged, token: Token)
    requires Tracked(m)
    ensures ListIsMerged(MigratedFound(m, FoundIn(EMPTY_PAGE, token))) <==> HarmlessToMigrated(m, token)
  {
    hide AllMessages, Full;
  }

  lemma HarmlessChangesNothing(m: Merged, token: Token)
    requires Tracked(m) && HarmlessToApi(m, token)
    ensures ApiFound(m, FoundIn(EMPTY_PAGE, token)) == m
  {
    var b := MigratedPages(m);
    if m.concated.messages == [] && b != [] {
      FirstIsAmong(b);
    }
    hide AllMessages;
  }

  lemma HarmlessMigratedChangesNothing(m: Merged, token: Token)
    requires HarmlessToMigrated(m, token)
    ensures MigratedFound(m, FoundIn(EMPTY_PAGE, token)) == m
  {
  }

  // ---- Whole runs ----

  lemma ApiResultInv(m: Merged, r: Result)
    requires MessagesSearch.Inv(r.search)
    ensures ApiResult(m, r).api == r.search && ApiResult(m, r).migrated == m.migrated
    ensures ApiResult(m, r).active == m.active && ApiResult(m, r).hasMigrated == m.hasMigrated
  {
  }

  lemma MigratedResultInv(m: Merged, r: Result)
    requires MessagesSearch.Inv(r.search)
    ensures MigratedResult(m, r).migrated == r.search && MigratedResult(m, r).api == m.api
    ensures MigratedResult(m, r).active == m.active && MigratedResult(m, r).hasMigrated == m.hasMigrated
  {
  }

  lemma SearchKeeps(m: Merged, token: Token)
    requires Tracks(m)
    ensures Tracks(SearchFor(m, token))
  {
    SearchMessagesKeeps(m.api, token);
    SearchMessagesKeeps(m.migrated, token);
    if Cleared(m) && token != 0 { SearchTracks(m, token); }
    hide MessagesSearch.Inv, ListIsMerged, TakeTurns, SearchMessages, MigratedResult, ApiResult;
    var started := m.(full := false, waitingForTotal := m.hasMigrated, active := Cleared(m) && token != 0);
    MigratedResultInv(started, SearchMessages(m.migrated, token));
    ApiResultInv(
      if m.hasMigrated then MigratedResult(started, SearchMessages(m.migrated, token)) else started,
      SearchMessages(m.api, token));
  }

  lemma MoreKeeps(m: Merged)
    requires Tracks(m)
    ensures Tracks(More(m))
  {
    SearchMoreKeeps(m.api);
    SearchMoreKeeps(m.migrated);
    MoreMovesOn(m.api);
    MoreMovesOn(m.migrated);
    hide MessagesSearch.Inv, ListIsMerged, TakeTurns, SearchMore, MigratedResult, ApiResult, MovesOn;
    if m.hasMigrated && m.full {
      MigratedResultInv(m, SearchMore(m.migrated));
      if m.active { MigratedMovesOn(m, SearchMore(m.migrated)); }
    } else {
      ApiResultInv(m, SearchMore(m.api));
      if m.active { ApiMovesOn(m, SearchMore(m.api)); }
    }
  }

  lemma DoneKeepsTrack(m: Merged, fromMigrated: bool, id: nat, page: Page)
    requires Tracks(m)
    ensures Tracks(Next(m, OnDone(fromMigrated, id, page)))
  {
    hide MessagesSearch.Inv, ListIsMerged, Done, MigratedResult, ApiResult, MovesOn;
    if fromMigrated && m.hasMigrated && id in m.migrated.inFlight {
      DoneKeeps(m.migrated, id, page);
      DoneMovesOn(m.migrated, id, page);
      MigratedResultInv(m, Done(m.migrated, id, page));
      if m.active { MigratedMovesOn(m, Done(m.migrated, id, page)); }
    } else if !fromMigrated && id in m.api.inFlight {
      DoneKeeps(m.api, id, page);
      DoneMovesOn(m.api, id, page);
      ApiResultInv(m, Done(m.api, id, page));
      if m.active { ApiMovesOn(m, Done(m.api, id, page)); }
    }
  }

  lemma LateApiFailureIs(m: Merged, id: nat)
    requires id in m.api.inFlight && id != m.api.requestId
    ensures ApiResult(m, Fail(m.api, id, true))
         == ApiFound(
              m.(api := m.api.(busy := false, inFlight := m.api.inFlight - {id})),
              FoundIn(EMPTY_PAGE, m.api.inFlight[id].token))
  {
  }

  lemma LateMigratedFailureIs(m: Merged, id: nat)
    requires id in m.migrated.inFlight && id != m.migrated.requestId
    ensures MigratedResult(m, Fail(m.migrated, id, true))
         == MigratedFound(
              m.(migrated := m.migrated.(busy := false, inFlight := m.migrated.inFlight - {id})),
              FoundIn(EMPTY_PAGE, m.migrated.inFlight[id].token))
  {
  }

  lemma TrackedStays(m: Merged, api: Search, migrated: Search)
    requires Tracked(m)
    requires api.pages == m.api.pages && api.token == m.api.token && api.requestId == m.api.requestId
    requires migrated.pages == m.migrated.pages && migrated.token == m.migrated.token
    requires migrated.requestId == m.migrated.requestId
    ensures Tracked(m.(api := api, migrated := migrated))
  {
    hide Full, AllMessages;
  }

  lemma ApiFailKeepsTrack(m: Merged, id: nat, queryEmpty: bool)
    requires Tracked(m) && MessagesSearch.Inv(m.api) && id in m.api.inFlight && ApiFailureIsSafe(m, id, queryEmpty)
    ensures Tracked(ApiResult(m, Fail(m.api, id, queryEmpty)))
  {
    if queryEmpty && id != m.api.requestId {
      var token, rest := m.api.inFlight[id].token, m.(api := m.api.(busy := false, inFlight := m.api.inFlight - {id}));
      LateApiFailureIs(m, id);
      TrackedStays(m, rest.api, m.migrated);
      hide MessagesSearch.Inv, Tracked, ApiResult, Fail, Full, ApiFound;
      HarmlessChangesNothing(rest, token);
    } else {
      FailMovesOn(m.api, id, queryEmpty);
      hide MessagesSearch.Inv, ListIsMerged, Fail, ApiResult, MovesOn;
      ApiMovesOn(m, Fail(m.api, id, queryEmpty));
    }
  }

  lemma MigratedFailKeepsTrack(m: Merged, id: nat, queryEmpty: bool)
    requires Tracked(m) && m.hasMigrated && MessagesSearch.Inv(m.migrated)
    requires id in m.migrated.inFlight && MigratedFailureIsSafe(m, id, queryEmpty)
    ensures Tracked(MigratedResult(m, Fail(m.migrated, id, queryEmpty)))
  {
    if queryEmpty && id != m.migrated.requestId {
      var token := m.migrated.inFlight[id].token;
      var rest := m.(migrated := m.migrated.(busy := false, inFlight := m.migrated.inFlight - {id}));
      LateMigratedFailureIs(m, id);
      TrackedStays(m, m.api, rest.migrated);
      hide MessagesSearch.Inv, Tracked, MigratedResult, Fail, MigratedFound;
      HarmlessMigratedChangesNothing(rest, token);
    } else {
      FailMovesOn(m.migrated, id, queryEmpty);
      hide MessagesSearch.Inv, ListIsMerged, Fail, MigratedResult, MovesOn;
      MigratedMovesOn(m, Fail(m.migrated, id, queryEmpty));
    }
  }

  lemma FailKeepsTrack(m: Merged, fromMigrated: bool, id: nat, queryEmpty: bool)
    requires Tracks(m)
    ensures Tracks(Next(m, OnFail(fromMigrated, id, queryEmpty)))
  {
    hide MessagesSearch.Inv, ListIsMerged, TakeTurns, Fail, MigratedResult, ApiResult;
    hide ApiFailureIsSafe, MigratedFailureIsSafe;
    if fromMigrated && m.hasMigrated && id in m.migrated.inFlight {
      var safe := MigratedFailureIsSafe(m, id, queryEmpty);
      FailKeeps(m.migrated, id, queryEmpty);
      MigratedResultInv(m.(active := m.active && safe), Fail(m.migrated, id, queryEmpty));
      if m.active && safe { MigratedFailKeepsTrack(m, id, queryEmpty); }
    } else if !fromMigrated && id in m.api.inFlight {
      var safe := ApiFailureIsSafe(m, id, queryEmpty);
      FailKeeps(m.api, id, queryEmpty);
      ApiResultInv(m.(active := m.active && safe), Fail(m.api, id, queryEmpty));
      if m.active && safe { ApiFailKeepsTrack(m, id, queryEmpty); }
    }
  }

  lemma NextKeeps(m: Merged, event: Event)
    requires Tracks(m)
    ensures Tracks(Next(m, event))
  {
    match event
    case OnClear =>
    case OnSearch(token) => SearchKeeps(m, token);
    case OnMore => MoreKeeps(m);
    case OnDone(fromMigrated, id, page) => DoneKeepsTrack(m, fromMigrated, id, page);
    case OnFail(fromMigrated, id, queryEmpty) => FailKeepsTrack(m, fromMigrated, id, queryEmpty);
  }

  lemma InitialTracks(hasMigrated: bool)
    ensures Tracks(InitialWith(hasMigrated))
  {
  }

  lemma {:induction false} EveryRunTracks(hasMigrated: bool, events: seq<Event>)
    ensures Tracks(Run(hasMigrated, events))
    decreases |events|
  {
    hide Tracks, Next;
    if events == [] {
      InitialTracks(hasMigrated);
    } else {
      EveryRunTracks(hasMigrated, events[..|events| - 1]);
      NextKeeps(Run(hasMigrated, events[..|events| - 1]), events[|events| - 1]);
    }
  }

  /**
   * The merged list is all the pages of the history in order, and once they are
   * complete all those of the migrated one; its total counts each history once.
   */
  lemma MergedListIs(hasMigrated: bool, events: seq<Event>)
    requires Run(hasMigrated, events).active
    ensures var m := Run(hasMigrated, events);
      && m.concated.messages == MergedMessages(m.api.pages, MigratedPages(m))
      && m.concated.total == MergedTotal(m.api.pages, MigratedPages(m))
      && m.full == Full(m.api.pages)
  {
    EveryRunTracks(hasMigrated, events);
    hide Run, MergedMessages, MergedTotal, Full, MessagesSearch.Inv, TakeTurns;
  }

  /** Whatever the order in which the pages arrive, the same pages make the same list and the same total. */
  lemma OrderDoesNotMatter(hasMigrated: bool, a: seq<Event>, b: seq<Event>)
    requires Run(hasMigrated, a).active && Run(hasMigrated, b).active
    requires Run(hasMigrated, a).api.pages == Run(hasMigrated, b).api.pages
    requires MigratedPages(Run(hasMigrated, a)) == MigratedPages(Run(hasMigrated, b))
    ensures Run(hasMigrated, a).concated.messages == Run(hasMigrated, b).concated.messages
    ensures Run(hasMigrated, a).concated.total == Run(hasMigrated, b).concated.total
  {
    MergedListIs(hasMigrated, a);
    MergedListIs(hasMigrated, b);
    hide Run, MergedMessages, MergedTotal;
  }

  /** What an event makes of the two searches: each goes on by itself. */
  lemma SearchesGoOn(m: Merged, event: Event)
    ensures var m' := Next(m, event);
      && m'.hasMigrated == m.hasMigrated
      && match event
         case OnClear => m'.api == m.api && m'.migrated == m.migrated
         case OnSearch(token) =>
           && m'.api == SearchMessages(m.api, token).search
           && m'.migrated == if m.hasMigrated then SearchMessages(m.migrated, token).search else m.migrated
         case OnMore =>
           if m.hasMigrated && m.full then m'.api == m.api && m'.migrated == SearchMore(m.migrated).search
           else m'.api == SearchMore(m.api).search && m'.migrated == m.migrated
         case OnDone(fromMigrated, id, page) =>
           if fromMigrated then
             && m'.api == m.api
             && m'.migrated
                == if m.hasMigrated && id in m.migrated.inFlight then Done(m.migrated, id, page).search else m.migrated
           else
             && m'.migrated == m.migrated
             && m'.api == if id in m.api.inFlight then Done(m.api, id, page).search else m.api
         case OnFail(fromMigrated, id, empty) =>
           if fromMigrated then
             && m'.api == m.api
             && m'.migrated
                == if m.hasMigrated && id in m.migrated.inFlight then Fail(m.migrated, id, empty).search else m.migrated
           else
             && m'.migrated == m.migrated
             && m'.api == if id in m.api.inFlight then Fail(m.api, id, empty).search else m.api
  {
    hide SearchMessages, SearchMore, Done, Fail, ApiResult, MigratedResult, ApiFailureIsSafe, MigratedFailureIsSafe;
    ResultsStay();
  }

  /** A result changes one search and what is listed, and nothing else. */
  lemma ResultsStay()
    ensures forall m, r :: var m' := ApiResult(m, r);
      m'.api == r.search && m'.migrated == m.migrated && m'.hasMigrated == m.hasMigrated && m'.active == m.active
    ensures forall m, r :: var m' := MigratedResult(m, r);
      m'.migrated == r.search && m'.api == m.api && m'.hasMigrated == m.hasMigrated && m'.active == m.active
  {
  }

  /** Clearing leaves no messages, no totals and an incomplete list. */
  lemma ClearedIs(m: Merged)
    ensures var m' := Next(m, OnClear);
      && m'.concated == FoundMessages(-1, [], 0) && m'.migratedFirst == FoundMessages(-1, [], 0)
      && !m'.full && !m'.waitingForTotal
  {
  }

  /** Whether a request that fails for an empty query is superseded and does harm. */
  predicate FailsHarmfully(m: Merged, event: Event) {
    event.OnFail? && event.queryEmpty &&
      if event.fromMigrated then
        && m.hasMigrated && event.id in m.migrated.inFlight && event.id != m.migrated.requestId
        && !HarmlessToMigrated(m, m.migrated.inFlight[event.id].token)
      else
        && event.id in m.api.inFlight && event.id != m.api.requestId
        && !HarmlessToApi(m, m.api.inFlight[event.id].token)
  }

  /**
   * The list is that of the pages from a search for something, with everything cleared, up to
   * the next or to a harmful failure.
   */
  lemma ActiveIff(m: Merged, event: Event)
    ensures Next(m, event).active
      <==> if event.OnSearch? then Cleared(m) && event.token != 0
           else m.active && !event.OnClear? && !FailsHarmfully(m, event)
  {
    hide SearchMessages, SearchMore, Done, Fail, HarmlessToApi, HarmlessToMigrated, ApiResult, MigratedResult;
    ResultsStay();
  }

  /** More pages of the migrated history than the first are only asked for once the history itself is complete. */
  lemma MigratedComesAfter(hasMigrated: bool, events: seq<Event>)
    requires Run(hasMigrated, events).active && |MigratedPages(Run(hasMigrated, events))| > 1
    ensures Full(Run(hasMigrated, events).api.pages)
  {
    EveryRunTracks(hasMigrated, events);
    hide Run, Full, MessagesSearch.Inv;
  }

  /** A search, its first page, and then the late failure of a request from before that asked for nothing. */
  const SPOILED := [OnSearch(1), OnClear, OnSearch(2), OnDone(false, 2, Page(5, [7])), OnFail(false, 1, true)]

  /** That failure empties the list and calls it complete. */
  lemma LateFailureSpoilsList()
    ensures var m := Run(false, SPOILED);
      !m.active && m.api.token == 2 && |m.api.pages| == 1 && m.concated == FoundMessages(0, [], 1) && m.full
  {
    LateFailureBefore();
    var events := SPOILED;
    assert events[..5] == events && events[..5][..4] == events[..4];
    assert Run(false, events) == Next(Run(false, events[..4]), events[4]);
    hide Run;
  }

  lemma LateFailureBefore()
    ensures var m := Run(false, SPOILED[..4]);
      && m.api.inFlight.Keys == {1} && m.api.inFlight[1] == Sent(1, 0) && m.api.requestId == 0 && m.api.token == 2
      && |m.api.pages| == 1 && m.concated == FoundMessages(5, [7], 2) && m.migratedFirst == NOTHING_FOUND
      && !m.waitingForTotal && !m.hasMigrated
  {
    var e := SPOILED;
    var e4, e3, e2, e1 := e[..4], e[..3], e[..2], e[..1];
    assert e4[..3] == e3 && e3[..2] == e2 && e2[..1] == e1 && e1[..0] == [];
    assert Run(false, e1) == Next(InitialWith(false), OnSearch(1));
    assert Run(false, e2) == Next(Run(false, e1), OnClear);
    assert Run(false, e3) == Next(Run(false, e2), OnSearch(2));
    assert Run(false, e4) == Next(Run(false, e3), OnDone(false, 2, Page(5, [7])));
  }

  // ---- The object that the source updates in place ----

  class MergedSearcher {
    const apiSearch: Searcher
    const migratedSearch: Searcher?
    var concatedFound: FoundMessages
    var migratedFirstFound: FoundMessages
    var waitingForTotal: bool
    var isFull: bool
    ghost var active: bool

    ghost function Abs(): Merged
      reads this, apiSearch, migratedSearch
    {
      Merged(
        apiSearch.Abs(),
        if migratedSearch == null then MessagesSearch.INITIAL else migratedSearch.Abs(),
        migratedSearch != null,
        concatedFound, migratedFirstFound, waitingForTotal, isFull, active)
    }

    ghost predicate Valid()
      reads this, apiSearch, migratedSearch
    {
      apiSearch != migratedSearch && Tracks(Abs())
    }

    constructor (hasMigrated: bool)
      ensures Valid() && Abs() == InitialWith(hasMigrated)
    {
      apiSearch := new Searcher();
      if hasMigrated {
        migratedSearch := new Searcher();
      } else {
        migratedSearch := null;
      }
      concatedFound, migratedFirstFound, waitingForTotal, isFull, active := NOTHING_FOUND, NOTHING_FOUND, false,
        false, false;
      new;
      InitialTracks(hasMigrated);
    }

    method PushFound(data: FoundMessages)
      modifies `concatedFound
      ensures Abs() == AddFound(old(Abs()), data)
    {
      for i := 0 to |data.messages|
        invariant concatedFound == old(concatedFound).(messages := old(concatedFound).messages + data.messages[..i])
      {
        assert data.messages[..i + 1] == data.messages[..i] + [data.messages[i]];
        concatedFound := concatedFound.(messages := concatedFound.messages + [data.messages[i]]);
      }
      assert data.messages[..|data.messages|] == data.messages;
    }

    method CompareTotal(data: FoundMessages)
      modifies `concatedFound, `isFull
      ensures Abs() == CheckFull(old(Abs()), data)
    {
      if data.total == |concatedFound.messages| {
        isFull := true;
        PushFound(migratedFirstFound);
      }
    }

    method AddWaitedTotal()
      modifies `concatedFound, `waitingForTotal
      ensures Abs() == CheckWaitingForTotal(old(Abs()))
    {
      if waitingForTotal && concatedFound.total >= 0 && migratedFirstFound.total >= 0 {
        waitingForTotal := false;
        concatedFound := concatedFound.(total := concatedFound.total + migratedFirstFound.total);
      }
    }

    method OnApiFound(data: FoundMessages)
      modifies `concatedFound, `isFull, `waitingForTotal
      ensures Abs() == ApiFound(old(Abs()), data)
    {
      if data.nextToken == concatedFound.nextToken {
        PushFound(data);
        CompareTotal(data);
      } else {
        concatedFound := data;
        CompareTotal(data);
        AddWaitedTotal();
      }
    }

    method OnMigratedFound(data: FoundMessages)
      modifies `concatedFound, `migratedFirstFound, `waitingForTotal
      ensures Abs() == MigratedFound(old(Abs()), data)
    {
      if isFull {
        PushFound(data);
      }
      if data.nextToken != migratedFirstFound.nextToken {
        migratedFirstFound := data;
        AddWaitedTotal();
      }
    }

    method Reset()
      requires Valid()
      modifies this
      ensures Abs() == Clear(old(Abs())) && Valid()
    {
      concatedFound, migratedFirstFound, waitingForTotal, isFull, active := NOTHING_FOUND, NOTHING_FOUND, false,
        false, false;
    }

    method SearchApi(token: Token)
      requires MessagesSearch.Inv(apiSearch.Abs()) && apiSearch != migratedSearch
      modifies `concatedFound, `isFull, `waitingForTotal, apiSearch
      ensures Abs() == ApiResult(old(Abs()), SearchMessages(old(apiSearch.Abs()), token))
    {
      hide MessagesSearch.Inv, ApiFound, SearchMessages;
      var outcome := apiSearch.SearchFor(token);
      if outcome.Fired? {
        OnApiFound(outcome.found);
      }
    }

    method SearchMigrated(token: Token)
      requires migratedSearch != null && MessagesSearch.Inv(migratedSearch.Abs()) && apiSearch != migratedSearch
      modifies `concatedFound, `migratedFirstFound, `waitingForTotal, migratedSearch
      ensures Abs() == MigratedResult(old(Abs()), SearchMessages(old(migratedSearch.Abs()), token))
      ensures apiSearch.Abs() == old(apiSearch.Abs())
    {
      hide MessagesSearch.Inv, MigratedFound, SearchMessages;
      var outcome := migratedSearch.SearchFor(token);
      if outcome.Fired? {
        OnMigratedFound(outcome.found);
      }
    }

    method Search(token: Token)
      requires Valid()
      modifies this, apiSearch, migratedSearch
      ensures Abs() == SearchFor(old(Abs()), token) && Valid()
    {
      SearchKeeps(Abs(), token);
      SearchersHold();
      hide Tracks, MessagesSearch.Inv, MigratedResult, ApiResult, SearchMessages, Cleared;
      active := Cleared(Abs()) && token != 0;
      isFull := false;
      waitingForTotal := migratedSearch != null;
      if migratedSearch != null {
        SearchMigrated(token);
      }
      SearchApi(token);
    }

    /** What Valid says of the two searches. */
    lemma SearchersHold()
      requires Valid()
      ensures MessagesSearch.Inv(apiSearch.Abs())
        && (migratedSearch != null ==> MessagesSearch.Inv(migratedSearch.Abs()))
    {
    }

    method SearchFurther()
      requires Valid()
      modifies this, apiSearch, migratedSearch
      ensures Abs() == More(old(Abs())) && Valid()
    {
      MoreKeeps(Abs());
      SearchersHold();
      hide Tracks, ApiFound, MigratedFound, SearchMore;
      if migratedSearch != null && isFull {
        var outcome := migratedSearch.More();
        if outcome.Fired? {
          OnMigratedFound(outcome.found);
        }
      } else {
        var outcome := apiSearch.More();
        if outcome.Fired? {
          OnApiFound(outcome.found);
        }
      }
    }

    method ReceiveApiDone(id: nat, page: Page)
      requires Valid() && id in apiSearch.inFlight
      modifies this, apiSearch
      ensures Abs() == Next(old(Abs()), OnDone(false, id, page)) && Valid()
    {
      NextKeeps(Abs(), OnDone(false, id, page));
      SearchersHold();
      hide Tracks, ApiFound, Done;
      var outcome := apiSearch.ReceiveDone(id, page);
      if outcome.Fired? {
        OnApiFound(outcome.found);
      }
    }

    method ReceiveMigratedDone(id: nat, page: Page)
      requires Valid() && migratedSearch != null && id in migratedSearch.inFlight
      modifies this, migratedSearch
      ensures Abs() == Next(old(Abs()), OnDone(true, id, page)) && Valid()
    {
      NextKeeps(Abs(), OnDone(true, id, page));
      SearchersHold();
      hide Tracks, MigratedFound, Done;
      var outcome := migratedSearch.ReceiveDone(id, page);
      if outcome.Fired? {
        OnMigratedFound(outcome.found);
      }
    }

    method ReceiveApiFail(id: nat, queryEmpty: bool)
      requires Valid() && id in apiSearch.inFlight
      modifies this, apiSearch
      ensures Abs() == Next(old(Abs()), OnFail(false, id, queryEmpty)) && Valid()
    {
      NextKeeps(Abs(), OnFail(false, id, queryEmpty));
      SearchersHold();
      hide Tracks, ApiFound, Fail;
      active := active && ApiFailureIsSafe(Abs(), id, queryEmpty);
      var outcome := apiSearch.ReceiveFail(id, queryEmpty);
      if outcome.Fired? {
        OnApiFound(outcome.found);
      }
    }

    method ReceiveMigratedFail(id: nat, queryEmpty: bool)
      requires Valid() && migratedSearch != null && id in migratedSearch.inFlight
      modifies this, migratedSearch
      ensures Abs() == Next(old(Abs()), OnFail(true, id, queryEmpty)) && Valid()
    {
      NextKeeps(Abs(), OnFail(true, id, queryEmpty));
      SearchersHold();
      hide Tracks, MigratedFound, Fail;
      active := active && MigratedFailureIsSafe(Abs(), id, queryEmpty);
      var outcome := migratedSearch.ReceiveFail(id, queryEmpty);
      if outcome.Fired? {
        OnMigratedFound(outcome.found);
      }
    }
  }
}
