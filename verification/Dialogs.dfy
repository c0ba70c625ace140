// The dialogs loader of ApiWrap: the main list and each folder load a list of
// dialogs, page by page, and their pinned dialogs, side by side.  The source
// keeps the state of the main list apart from those of the folders; here the
// main list is folder 0.
module Dialogs {

  type Folder = nat

  const MAIN: Folder := 0

  datatype LoadState = LoadState(
    offsetDate: int,
    offsetId: int,
    offsetPeer: int,
    requestId: nat,
    listReceived: bool,
    pinnedRequestId: nat,
    pinnedReceived: bool)

  const FRESH := LoadState(0, 0, 0, 0, false, 0, false)

  const FIRST_LOAD := 20
  const PER_PAGE := 500

  /** A list request as it was sent: for which folder, how the flags stood, from where on and how many. */
  datatype ListRequest = ListRequest(
    folder: Folder,
    blocked: bool,
    listReceived: bool,
    offsetDate: int,
    offsetId: int,
    offsetPeer: int,
    limit: nat)

  /**
   * The load states, the date limit and the flags computed from it, the
   * requests on the network, and what happened so far: the list requests sent,
   * the folders whose list was once answered by "not modified", how many load
   * states each folder has had, and the chatsListDone calls posted.
   */
  datatype State = State(
    states: map<Folder, LoadState>,
    till: int,
    blocked: bool,
    mayBlock: bool,
    nextId: nat,
    lists: map<nat, Folder>,
    pinned: map<nat, Folder>,
    sent: seq<ListRequest>,
    stalled: set<Folder>,
    lifetimes: map<Folder, nat>,
    posted: seq<Folder>)
  {
    function Lifetimes(folder: Folder): nat {
      if folder in lifetimes then lifetimes[folder] else 0
    }
  }

  const INITIAL := State(map[MAIN := FRESH], 0, false, false, 1, map[], map[], [], {}, map[MAIN := 1], [])

  // ---- Requests ----

  function RefreshBlocked(s: State): State {
    var loading := MAIN in s.states && !s.states[MAIN].listReceived && s.till > 0;
    s.(mayBlock := loading,
       blocked := loading && s.states[MAIN].requestId == 0
         && s.states[MAIN].offsetDate > 0 && s.states[MAIN].offsetDate <= s.till)
  }

  function RequestPinned(s: State, folder: Folder): State {
    if folder !in s.states || s.states[folder].pinnedReceived || s.states[folder].pinnedRequestId != 0 then s
    else
      s.(states := s.states[folder := s.states[folder].(pinnedRequestId := s.nextId)],
         pinned := s.pinned[s.nextId := folder],
         nextId := s.nextId + 1)
  }

  /** The request for the next dialogs of a folder: fewer at first. */
  function RequestOf(l: LoadState, folder: Folder, blocked: bool): ListRequest {
    ListRequest(folder, blocked, l.listReceived, l.offsetDate, l.offsetId, l.offsetPeer,
      if l.offsetDate == 0 then FIRST_LOAD else PER_PAGE)
  }

  function SendList(s: State, folder: Folder): State
    requires folder in s.states
  {
    s.(states := s.states[folder := s.states[folder].(requestId := s.nextId)],
       lists := s.lists[s.nextId := folder],
       nextId := s.nextId + 1,
       sent := s.sent + [RequestOf(s.states[folder], folder, s.blocked)])
  }

  function RequestMore(s: State, folder: Folder): State {
    if folder !in s.states || s.states[folder].requestId != 0 || s.blocked then s
    else
      var s1 := RequestPinned(SendList(s, folder), folder);
      if folder == MAIN then RefreshBlocked(s1) else s1
  }

  /** A new load state for a folder. */
  function Started(s: State, folder: Folder): State {
    s.(states := s.states[folder := FRESH], lifetimes := s.lifetimes[folder := s.Lifetimes(folder) + 1])
  }

  function RequestedDialogs(s: State, folder: Folder): State {
    if folder != MAIN && folder !in s.states then
      RequestMore(Started(s, folder), folder)
    else RequestMore(s, folder)
  }

  /**
   * What requestMoreDialogsIfNeeded asks the session: whether the chat filters
   * load their exceptions first, and the archive folder if they need it.
   */
  datatype Needs = Needs(exceptions: bool, archive: Folder, archiveNeeded: bool)

  function RequestMoreIfNeeded(s: State, needs: Needs): State {
    if needs.exceptions then s
    else if MAIN in s.states && !s.states[MAIN].listReceived then
      if s.states[MAIN].requestId != 0 then s else RequestedDialogs(s, MAIN)
    else if needs.archiveNeeded then RequestMore(s, needs.archive)
    else s
  }

  // ---- Answers ----

  function LoadFinish(s: State, folder: Folder): State {
    if folder !in s.states || !s.states[folder].listReceived || !s.states[folder].pinnedReceived then s
    else s.(states := s.states - {folder}, posted := s.posted + [folder])
  }

  function ListReceived(s: State, folder: Folder): State {
    if folder !in s.states then s
    else LoadFinish(s.(states := s.states[folder := s.states[folder].(listReceived := true)]), folder)
  }

  /** What an answer says: nothing, all the dialogs, or one slice with the offset found in it. */
  datatype Result = NotModified | Full | Slice(date: int, msgId: int, peer: int)

  /** An answer to a list request as it arrives. */
  datatype Answer = DialogsNotModified | AllDialogs | DialogsSlice(dialogs: seq<Dialog>, messages: seq<Message>)

  function ResultOf(answer: Answer): Result {
    match answer
    case DialogsNotModified => NotModified
    case AllDialogs => Full
    case DialogsSlice(dialogs, messages) => SliceOf(dialogs, messages)
  }

  function UpdateOffset(s: State, folder: Folder, slice: Result): State
    requires slice.Slice?
  {
    if folder !in s.states then s
    else if slice.date != 0 then
      s.(states := s.states[folder := s.states[folder].(
        offsetDate := slice.date, offsetId := slice.msgId, offsetPeer := slice.peer, requestId := 0)])
    else ListReceived(s, folder)
  }

  function Applied(s: State, folder: Folder, result: Result): State {
    match result
    case NotModified => s.(stalled := s.stalled + {folder})
    case Full => ListReceived(s, folder)
    case Slice(_, _, _) => UpdateOffset(s, folder, result)
  }

  /** The network no longer holds the list request. */
  function Received(s: State, id: nat): State {
    s.(lists := s.lists - {id})
  }

  function AnswerList(s: State, id: nat, result: Result, needs: Needs): State
    requires id in s.lists
  {
    var folder := s.lists[id];
    var s1 := Applied(Received(s, id), folder, result);
    var s2 := if folder == MAIN && (MAIN !in s1.states || !s1.states[MAIN].listReceived) then RefreshBlocked(s1)
      else s1;
    RequestMoreIfNeeded(s2, needs)
  }

  /** The failure handler reads the load state without asking whether it exists. */
  function FailList(s: State, id: nat): State
    requires id in s.lists && s.lists[id] in s.states
  {
    var folder := s.lists[id];
    s.(lists := s.lists - {id}, states := s.states[folder := s.states[folder].(requestId := 0)])
  }

  /** Both handlers of a pinned request finish alike. */
  function AnswerPinned(s: State, id: nat): State
    requires id in s.pinned
  {
    var folder := s.pinned[id];
    var s1 := s.(pinned := s.pinned - {id});
    if folder !in s1.states then s1
    else LoadFinish(s1.(states := s1.states[folder :=
      s1.states[folder].(pinnedRequestId := 0, pinnedReceived := true)]), folder)
  }

  // ---- The date limit ----

  function SetTill(s: State, till: int): State {
    RefreshBlocked(s.(till := till))
  }

  function RequestMoreBlockedByDate(s: State, slice: int, now: int): State {
    if MAIN !in s.states then s
    else
      var date := s.states[MAIN].offsetDate;
      RequestedDialogs(SetTill(s, if date != 0 then date - slice else now - slice), MAIN)
  }

  // ---- What every step keeps ----

  type States = map<Folder, LoadState>

  /** A list request is on the network exactly if the state waits for it, unless the list is stalled. */
  ghost predicate ListsMatch(states: States, lists: map<nat, Folder>, stalled: set<Folder>, nextId: nat) {
    && (forall id :: id in lists ==>
          var f := lists[id];
          0 < id < nextId && f in states && states[f].requestId == id && !states[f].listReceived && f !in stalled)
    && (forall f :: f in states && states[f].requestId != 0 && !states[f].listReceived && f !in stalled ==>
          states[f].requestId in lists && lists[states[f].requestId] == f)
  }

  ghost predicate PinnedMatch(states: States, pinned: map<nat, Folder>, nextId: nat) {
    && (forall id :: id in pinned ==>
          0 < id < nextId && pinned[id] in states && states[pinned[id]].pinnedRequestId == id)
    && (forall f :: f in states && states[f].pinnedRequestId != 0 ==>
          states[f].pinnedRequestId in pinned && pinned[states[f].pinnedRequestId] == f)
  }

  /** A received list keeps its request id, so it is never requested again; a finished state is gone. */
  predicate Sound(l: LoadState, stalled: bool) {
    && (l.listReceived ==> l.requestId != 0)
    && (l.pinnedReceived ==> l.pinnedRequestId == 0)
    && !(l.listReceived && l.pinnedReceived)
    && (stalled ==> l.requestId != 0 && !l.listReceived)
  }

  ghost predicate StatesAreSound(states: States, stalled: set<Folder>) {
    stalled <= states.Keys && forall f :: f in states ==> Sound(states[f], f in stalled)
  }

  predicate BlockedIsSound(states: States, blocked: bool) {
    blocked ==> MAIN in states && !states[MAIN].listReceived && states[MAIN].requestId == 0
  }

  /** chatsListDone was posted once for each load state that is gone. */
  ghost predicate PostedOnce(states: set<Folder>, posted: seq<Folder>, lifetimes: map<Folder, nat>) {
    forall f: Folder ::
      multiset(posted)[f] + (if f in states then 1 else 0) == if f in lifetimes then lifetimes[f] else 0
  }

  ghost predicate SentWell(sent: seq<ListRequest>) {
    forall r :: r in sent ==> !r.blocked && !r.listReceived
  }

  /** All but the clause about the blocked flag, which a refresh then sets right. */
  ghost predicate CoreInv(s: State) {
    && s.nextId > 0
    && ListsMatch(s.states, s.lists, s.stalled, s.nextId)
    && PinnedMatch(s.states, s.pinned, s.nextId)
    && StatesAreSound(s.states, s.stalled)
    && PostedOnce(s.states.Keys, s.posted, s.lifetimes)
    && SentWell(s.sent)
  }

  ghost predicate Inv(s: State) {
    CoreInv(s) && BlockedIsSound(s.states, s.blocked)
  }

  // Lemmas about the maps: sending a request, dropping an answered one, and
  // changing or removing a state that does not wait for one.

  lemma ListSent(states: States, lists: map<nat, Folder>, stalled: set<Folder>, n: nat, f: Folder, l: LoadState)
    requires ListsMatch(states, lists, stalled, n) && n > 0 && f in states && f !in stalled
    requires states[f].requestId == 0 && l.requestId == n && !l.listReceived
    ensures ListsMatch(states[f := l], lists[n := f], stalled, n + 1)
  {
  }

  lemma ListAnswered(states: States, lists: map<nat, Folder>, stalled: set<Folder>, n: nat, id: nat, l: LoadState)
    requires ListsMatch(states, lists, stalled, n) && id in lists && (l.requestId == 0 || l.listReceived)
    ensures ListsMatch(states[lists[id] := l], lists - {id}, stalled, n)
  {
  }

  lemma ListStalled(states: States, lists: map<nat, Folder>, stalled: set<Folder>, n: nat, id: nat)
    requires ListsMatch(states, lists, stalled, n) && id in lists
    ensures ListsMatch(states, lists - {id}, stalled + {lists[id]}, n)
  {
  }

  lemma ListUntouched(states: States, lists: map<nat, Folder>, stalled: set<Folder>, n: nat, f: Folder, l: LoadState,
      m: nat)
    requires ListsMatch(states, lists, stalled, n) && n <= m
    requires if f in states then l.requestId == states[f].requestId && l.listReceived == states[f].listReceived
      else l.requestId == 0
    ensures ListsMatch(states[f := l], lists, stalled, m)
  {
  }

  lemma ListRemoved(states: States, lists: map<nat, Folder>, stalled: set<Folder>, n: nat, f: Folder)
    requires ListsMatch(states, lists, stalled, n) && f in states && states[f].listReceived
    ensures ListsMatch(states - {f}, lists, stalled, n)
  {
  }

  lemma PinnedSent(states: States, pinned: map<nat, Folder>, n: nat, f: Folder, l: LoadState)
    requires PinnedMatch(states, pinned, n) && n > 0 && f in states && states[f].pinnedRequestId == 0
      && l.pinnedRequestId == n
    ensures PinnedMatch(states[f := l], pinned[n := f], n + 1)
  {
  }

  lemma PinnedAnswered(states: States, pinned: map<nat, Folder>, n: nat, id: nat, l: LoadState)
    requires PinnedMatch(states, pinned, n) && id in pinned && l.pinnedRequestId == 0
    ensures PinnedMatch(states[pinned[id] := l], pinned - {id}, n)
  {
  }

  lemma PinnedUntouched(states: States, pinned: map<nat, Folder>, n: nat, f: Folder, l: LoadState, m: nat)
    requires PinnedMatch(states, pinned, n) && n <= m
    requires l.pinnedRequestId == if f in states then states[f].pinnedRequestId else 0
    ensures PinnedMatch(states[f := l], pinned, m)
  {
  }

  lemma PinnedRemoved(states: States, pinned: map<nat, Folder>, n: nat, f: Folder)
    requires PinnedMatch(states, pinned, n) && f in states && states[f].pinnedRequestId == 0
    ensures PinnedMatch(states - {f}, pinned, n)
  {
  }

  lemma SoundAfter(states: States, stalled: set<Folder>, f: Folder, l: LoadState)
    requires StatesAreSound(states, stalled) && Sound(l, f in stalled)
    ensures StatesAreSound(states[f := l], stalled)
  {
  }

  lemma FinishingCounts(states: set<Folder>, posted: seq<Folder>, lifetimes: map<Folder, nat>, f: Folder)
    requires PostedOnce(states, posted, lifetimes) && f in states
    ensures PostedOnce(states - {f}, posted + [f], lifetimes)
  {
  }

  lemma StartingCounts(states: set<Folder>, posted: seq<Folder>, lifetimes: map<Folder, nat>, f: Folder)
    requires PostedOnce(states, posted, lifetimes) && f !in states
    ensures PostedOnce(states + {f}, posted, lifetimes[f := (if f in lifetimes then lifetimes[f] else 0) + 1])
  {
  }

  // ---- The steps ----

  lemma RefreshKeeps(s: State)
    requires CoreInv(s)
    ensures Inv(RefreshBlocked(s))
  {
    hide ListsMatch, PinnedMatch, StatesAreSound, PostedOnce, SentWell;
  }

  lemma RequestPinnedKeeps(s: State, folder: Folder)
    requires Inv(s)
    ensures Inv(RequestPinned(s, folder))
  {
    hide ListsMatch, PinnedMatch, PostedOnce, SentWell;
    if folder in s.states && !s.states[folder].pinnedReceived && s.states[folder].pinnedRequestId == 0 {
      var l := s.states[folder].(pinnedRequestId := s.nextId);
      PinnedSent(s.states, s.pinned, s.nextId, folder, l);
      ListUntouched(s.states, s.lists, s.stalled, s.nextId, folder, l, s.nextId + 1);
      assert s.states[folder := l].Keys == s.states.Keys;
    }
  }

  /** Sending is allowed: the list was not received and the flag is not set. */
  lemma SendListKeeps(s: State, folder: Folder)
    requires Inv(s) && folder in s.states && s.states[folder].requestId == 0 && !s.blocked
    ensures Inv(SendList(s, folder))
  {
    hide ListsMatch, PinnedMatch, PostedOnce;
    assert Sound(s.states[folder], folder in s.stalled);
    var l := s.states[folder].(requestId := s.nextId);
    ListSent(s.states, s.lists, s.stalled, s.nextId, folder, l);
    PinnedUntouched(s.states, s.pinned, s.nextId, folder, l, s.nextId + 1);
    SoundAfter(s.states, s.stalled, folder, l);
    hide StatesAreSound;
    assert s.states[folder := l].Keys == s.states.Keys;
  }

  lemma RequestMoreKeeps(s: State, folder: Folder)
    requires Inv(s)
    ensures Inv(RequestMore(s, folder))
  {
    hide CoreInv, SendList, RequestPinned, RefreshBlocked, BlockedIsSound;
    if folder in s.states && s.states[folder].requestId == 0 && !s.blocked {
      SendListKeeps(s, folder);
      RequestPinnedKeeps(SendList(s, folder), folder);
      RefreshKeeps(RequestPinned(SendList(s, folder), folder));
    }
  }

  lemma StartedKeeps(s: State, folder: Folder)
    requires Inv(s) && folder !in s.states && folder != MAIN
    ensures Inv(Started(s, folder))
  {
    hide ListsMatch, PinnedMatch, PostedOnce, SentWell;
    ListUntouched(s.states, s.lists, s.stalled, s.nextId, folder, FRESH, s.nextId);
    PinnedUntouched(s.states, s.pinned, s.nextId, folder, FRESH, s.nextId);
    SoundAfter(s.states, s.stalled, folder, FRESH);
    StartingCounts(s.states.Keys, s.posted, s.lifetimes, folder);
    hide StatesAreSound;
    assert s.states[folder := FRESH].Keys == s.states.Keys + {folder};
  }

  lemma RequestDialogsKeeps(s: State, folder: Folder)
    requires Inv(s)
    ensures Inv(RequestedDialogs(s, folder))
  {
    hide Inv, RequestMore;
    if folder != MAIN && folder !in s.states {
      StartedKeeps(s, folder);
      RequestMoreKeeps(Started(s, folder), folder);
    } else {
      RequestMoreKeeps(s, folder);
    }
  }

  lemma RequestMoreIfNeededKeeps(s: State, needs: Needs)
    requires Inv(s)
    ensures Inv(RequestMoreIfNeeded(s, needs))
  {
    hide Inv, RequestMore, RequestedDialogs;
    RequestDialogsKeeps(s, MAIN);
    RequestMoreKeeps(s, needs.archive);
  }

  /** The answered list has its state, which waits for this very request; the flag is not set if it is the main one. */
  lemma ListedStateWaits(s: State, id: nat)
    requires Inv(s) && id in s.lists
    ensures var f := s.lists[id];
      f in s.states && s.states[f].requestId == id && id != 0 && !s.states[f].listReceived && f !in s.stalled
        && (s.blocked ==> f != MAIN)
  {
    hide PinnedMatch, StatesAreSound, PostedOnce, SentWell;
  }

  lemma AppliedNotModified(s: State, id: nat)
    requires Inv(s) && id in s.lists
    ensures Inv(Applied(Received(s, id), s.lists[id], NotModified))
  {
    ListedStateWaits(s, id);
    hide ListsMatch, PinnedMatch, PostedOnce, SentWell;
    ListStalled(s.states, s.lists, s.stalled, s.nextId, id);
  }

  lemma AppliedSlice(s: State, id: nat, slice: Result)
    requires Inv(s) && id in s.lists && slice.Slice? && slice.date != 0
    ensures Inv(Applied(Received(s, id), s.lists[id], slice))
  {
    ListedStateWaits(s, id);
    hide ListsMatch, PinnedMatch, PostedOnce, SentWell;
    var f := s.lists[id];
    var l := s.states[f].(offsetDate := slice.date, offsetId := slice.msgId, offsetPeer := slice.peer, requestId := 0);
    ListAnswered(s.states, s.lists, s.stalled, s.nextId, id, l);
    PinnedUntouched(s.states, s.pinned, s.nextId, f, l, s.nextId);
    SoundAfter(s.states, s.stalled, f, l);
    hide StatesAreSound;
    assert s.states[f := l].Keys == s.states.Keys;
  }

  /** The last dialogs: the state stays until the pinned ones have come, and is never asked for its list again. */
  lemma AppliedReceived(s: State, id: nat)
    requires Inv(s) && id in s.lists
    ensures Inv(ListReceived(Received(s, id), s.lists[id]))
  {
    ListedStateWaits(s, id);
    hide ListsMatch, PinnedMatch, PostedOnce, SentWell;
    var f := s.lists[id];
    var l := s.states[f].(listReceived := true);
    assert Sound(s.states[f], false);
    ListAnswered(s.states, s.lists, s.stalled, s.nextId, id, l);
    PinnedUntouched(s.states, s.pinned, s.nextId, f, l, s.nextId);
    assert s.states[f := l].Keys == s.states.Keys;
    if l.pinnedReceived {
      FinishedIsSound(s, f, l, s.lists - {id}, s.pinned);
    } else {
      SoundAfter(s.states, s.stalled, f, l);
    }
    hide StatesAreSound;
  }

  /** A state with both parts received goes, and chatsListDone is posted for it. */
  lemma FinishedIsSound(s: State, f: Folder, l: LoadState, lists: map<nat, Folder>, pinned: map<nat, Folder>)
    requires f in s.states && f !in s.stalled && l.listReceived && l.pinnedRequestId == 0
    requires ListsMatch(s.states[f := l], lists, s.stalled, s.nextId) && PinnedMatch(s.states[f := l], pinned, s.nextId)
    requires StatesAreSound(s.states, s.stalled) && PostedOnce(s.states.Keys, s.posted, s.lifetimes)
    ensures var rest := s.states[f := l] - {f};
      && ListsMatch(rest, lists, s.stalled, s.nextId) && PinnedMatch(rest, pinned, s.nextId)
      && StatesAreSound(rest, s.stalled) && PostedOnce(rest.Keys, s.posted + [f], s.lifetimes)
  {
    hide ListsMatch, PinnedMatch, PostedOnce;
    ListRemoved(s.states[f := l], lists, s.stalled, s.nextId, f);
    PinnedRemoved(s.states[f := l], pinned, s.nextId, f);
    FinishingCounts(s.states.Keys, s.posted, s.lifetimes, f);
    assert (s.states[f := l] - {f}).Keys == s.states.Keys - {f};
  }

  lemma AppliedKeeps(s: State, id: nat, result: Result)
    requires Inv(s) && id in s.lists
    ensures Inv(Applied(Received(s, id), s.lists[id], result))
  {
    ListedStateWaits(s, id);
    hide Inv, ListReceived;
    if result.NotModified? {
      AppliedNotModified(s, id);
    } else if result.Slice? && result.date != 0 {
      AppliedSlice(s, id, result);
    } else {
      AppliedReceived(s, id);
    }
  }

  lemma AnswerListKeeps(s: State, id: nat, result: Result, needs: Needs)
    requires Inv(s) && id in s.lists
    ensures Inv(AnswerList(s, id, result, needs))
  {
    hide CoreInv, BlockedIsSound, Applied, RequestMoreIfNeeded, RefreshBlocked;
    var folder := s.lists[id];
    var s1 := Applied(Received(s, id), folder, result);
    AppliedKeeps(s, id, result);
    RefreshKeeps(s1);
    RequestMoreIfNeededKeeps(RefreshBlocked(s1), needs);
    RequestMoreIfNeededKeeps(s1, needs);
  }

  /** The failure handler's dereference is safe, in every state of every run. */
  lemma FailListKeeps(s: State, id: nat)
    requires Inv(s) && id in s.lists
    ensures s.lists[id] in s.states
    ensures Inv(FailList(s, id))
  {
    ListedStateWaits(s, id);
    hide ListsMatch, PinnedMatch, PostedOnce, SentWell;
    var f := s.lists[id];
    var l := s.states[f].(requestId := 0);
    ListAnswered(s.states, s.lists, s.stalled, s.nextId, id, l);
    PinnedUntouched(s.states, s.pinned, s.nextId, f, l, s.nextId);
    SoundAfter(s.states, s.stalled, f, l);
    hide StatesAreSound;
    assert s.states[f := l].Keys == s.states.Keys;
  }

  lemma PinnedStateWaits(s: State, id: nat)
    requires Inv(s) && id in s.pinned
    ensures s.pinned[id] in s.states && s.states[s.pinned[id]].pinnedRequestId == id && id != 0
  {
    hide ListsMatch, StatesAreSound, PostedOnce, SentWell;
  }

  lemma AnswerPinnedKeeps(s: State, id: nat)
    requires Inv(s) && id in s.pinned
    ensures Inv(AnswerPinned(s, id))
  {
    PinnedStateWaits(s, id);
    hide ListsMatch, PinnedMatch, PostedOnce, SentWell;
    var f := s.pinned[id];
    var l := s.states[f].(pinnedRequestId := 0, pinnedReceived := true);
    assert Sound(s.states[f], f in s.stalled);
    PinnedAnswered(s.states, s.pinned, s.nextId, id, l);
    ListUntouched(s.states, s.lists, s.stalled, s.nextId, f, l, s.nextId);
    assert s.states[f := l].Keys == s.states.Keys;
    if l.listReceived {
      FinishedIsSound(s, f, l, s.lists, s.pinned - {id});
    } else {
      SoundAfter(s.states, s.stalled, f, l);
    }
    hide StatesAreSound;
  }

  lemma SetTillKeeps(s: State, till: int)
    requires Inv(s)
    ensures Inv(SetTill(s, till))
  {
    hide ListsMatch, PinnedMatch, StatesAreSound, PostedOnce, SentWell, RefreshBlocked, BlockedIsSound;
    RefreshKeeps(s.(till := till));
  }

  // ---- Whole runs ----

  datatype Event =
    | DoRequest(folder: Folder)
    | DoRequestPinned(folder: Folder)
    | DoRequestIfNeeded(needs: Needs)
    | DoSetTill(till: int)
    | DoRequestBlocked(slice: int, now: int)
    | DoAnswerList(id: nat, answer: Answer, needs: Needs)
    | DoFailList(id: nat)
    | DoAnswerPinned(id: nat)

  function Step(s: State, event: Event): State {
    match event
    case DoRequest(folder) => RequestedDialogs(s, folder)
    case DoRequestPinned(folder) => RequestPinned(s, folder)
    case DoRequestIfNeeded(needs) => RequestMoreIfNeeded(s, needs)
    case DoSetTill(till) => SetTill(s, till)
    case DoRequestBlocked(slice, now) => RequestMoreBlockedByDate(s, slice, now)
    case DoAnswerList(id, answer, needs) => if id in s.lists then AnswerList(s, id, ResultOf(answer), needs) else s
    case DoFailList(id) => if id in s.lists && s.lists[id] in s.states then FailList(s, id) else s
    case DoAnswerPinned(id) => if id in s.pinned then AnswerPinned(s, id) else s
  }

  function Run(events: seq<Event>): State
    decreases |events|
  {
    if events == [] then INITIAL else Step(Run(events[..|events| - 1]), events[|events| - 1])
  }

  lemma StepKeeps(s: State, event: Event)
    requires Inv(s)
    ensures Inv(Step(s, event))
  {
    hide Inv, RequestedDialogs, RequestPinned, RequestMoreIfNeeded, SetTill, AnswerList, FailList, AnswerPinned;
    match event
    case DoRequest(folder) => RequestDialogsKeeps(s, folder);
    case DoRequestPinned(folder) => RequestPinnedKeeps(s, folder);
    case DoRequestIfNeeded(needs) => RequestMoreIfNeededKeeps(s, needs);
    case DoSetTill(till) => SetTillKeeps(s, till);
    case DoRequestBlocked(slice, now) =>
      if MAIN in s.states {
        var date := s.states[MAIN].offsetDate;
        var till := if date != 0 then date - slice else now - slice;
        SetTillKeeps(s, till);
        RequestDialogsKeeps(SetTill(s, till), MAIN);
      }
    case DoAnswerList(id, answer, needs) => if id in s.lists { AnswerListKeeps(s, id, ResultOf(answer), needs); }
    case DoFailList(id) => if id in s.lists { FailListKeeps(s, id); }
    case DoAnswerPinned(id) => if id in s.pinned { AnswerPinnedKeeps(s, id); }
  }

  lemma {:induction false} EveryRunKeeps(events: seq<Event>)
    ensures Inv(Run(events))
    decreases |events|
  {
    hide Inv, Step;
    if events == [] {
      InitialKeeps();
    } else {
      EveryRunKeeps(events[..|events| - 1]);
      StepKeeps(Run(events[..|events| - 1]), events[|events| - 1]);
    }
  }

  lemma InitialKeeps()
    ensures Inv(INITIAL)
  {
  }

  /**
   * In every reachable state a list request for a folder is on the network
   * exactly if the folder has a load state that has a request id, has not
   * received its list, and was not stalled by a "not modified" answer.
   */
  lemma ListRequestIff(events: seq<Event>, folder: Folder)
    ensures var s := Run(events);
      (exists id :: id in s.lists && s.lists[id] == folder)
      <==>
      folder in s.states && s.states[folder].requestId != 0 && !s.states[folder].listReceived
      && folder !in s.stalled
    ensures var s := Run(events);
      forall i, j :: i in s.lists && j in s.lists && s.lists[i] == s.lists[j] ==> i == j
  {
    EveryRunKeeps(events);
    var s := Run(events);
    hide Run, PinnedMatch, StatesAreSound, PostedOnce, SentWell;
    if folder in s.states && s.states[folder].requestId != 0 && !s.states[folder].listReceived && folder !in s.stalled {
      assert s.states[folder].requestId in s.lists;
    }
  }

  /** A state goes only with nothing on the network for it, and chatsListDone is then posted, once. */
  lemma DoneOncePerLifetime(events: seq<Event>, folder: Folder)
    ensures var s := Run(events);
      multiset(s.posted)[folder] + (if folder in s.states then 1 else 0) == s.Lifetimes(folder)
    ensures var s := Run(events);
      folder !in s.states ==>
        forall id :: (id in s.lists ==> s.lists[id] != folder) && (id in s.pinned ==> s.pinned[id] != folder)
  {
    EveryRunKeeps(events);
    hide Run, StatesAreSound, SentWell;
  }

  /** While the date limit blocks, the main list is unfinished and idle, and no list is requested. */
  lemma BlockedMeansIdle(events: seq<Event>)
    ensures var s := Run(events);
      s.blocked ==>
        && MAIN in s.states && !s.states[MAIN].listReceived
        && forall id :: id in s.lists ==> s.lists[id] != MAIN
    ensures forall r :: r in Run(events).sent ==> !r.blocked && !r.listReceived
  {
    EveryRunKeeps(events);
    hide Run, PinnedMatch, StatesAreSound, PostedOnce;
  }

  predicate IsNotModified(event: Event, folder: Folder, s: State) {
    event.DoAnswerList? && event.answer.DialogsNotModified? && event.id in s.lists && s.lists[event.id] == folder
  }

  lemma PinnedKeepsStalled(s: State, folder: Folder)
    ensures RequestPinned(s, folder).stalled == s.stalled
  {
  }

  lemma RequestsKeepStalled(s: State, folder: Folder)
    ensures RequestMore(s, folder).stalled == s.stalled && RequestedDialogs(s, folder).stalled == s.stalled
  {
    if folder in s.states { PinnedKeepsStalled(SendList(s, folder), folder); }
    PinnedKeepsStalled(SendList(Started(s, folder), folder), folder);
    hide RequestPinned, SendList;
  }

  lemma NeedsKeepStalled(s: State, needs: Needs)
    ensures RequestMoreIfNeeded(s, needs).stalled == s.stalled
  {
    hide RequestMore, RequestedDialogs;
    RequestsKeepStalled(s, MAIN);
    RequestsKeepStalled(s, needs.archive);
  }

  lemma AnswerStallsIff(s: State, id: nat, answer: Answer, needs: Needs)
    requires id in s.lists
    ensures AnswerList(s, id, ResultOf(answer), needs).stalled
         == if answer.DialogsNotModified? then s.stalled + {s.lists[id]} else s.stalled
  {
    hide RequestMoreIfNeeded;
    var s1 := Applied(Received(s, id), s.lists[id], ResultOf(answer));
    NeedsKeepStalled(s1, needs);
    NeedsKeepStalled(RefreshBlocked(s1), needs);
  }

  /** A folder is stalled after a step exactly if it was before, or if its answer is "not modified". */
  lemma StalledIff(s: State, event: Event, folder: Folder)
    ensures folder in Step(s, event).stalled <==> folder in s.stalled || IsNotModified(event, folder, s)
  {
    hide RequestPinned, RequestMore, RequestedDialogs, RequestMoreIfNeeded;
    match event
    case DoRequest(f) => RequestsKeepStalled(s, f);
    case DoRequestPinned(f) => PinnedKeepsStalled(s, f);
    case DoRequestIfNeeded(needs) => NeedsKeepStalled(s, needs);
    case DoSetTill(till) =>
    case DoRequestBlocked(slice, now) =>
      if MAIN in s.states {
        var date := s.states[MAIN].offsetDate;
        RequestsKeepStalled(SetTill(s, if date != 0 then date - slice else now - slice), MAIN);
      }
    case DoAnswerList(id, answer, needs) => if id in s.lists { AnswerStallsIff(s, id, answer, needs); } hide AnswerList;
    case DoFailList(id) =>
    case DoAnswerPinned(id) =>
  }

  lemma {:induction false} StalledStays(events: seq<Event>, more: seq<Event>, folder: Folder)
    requires folder in Run(events).stalled
    ensures folder in Run(events + more).stalled
    decreases |more|
  {
    hide Step;
    if more == [] {
      assert events + more == events;
    } else {
      var front := more[..|more| - 1];
      StalledStays(events, front, folder);
      assert (events + more)[..|events + more| - 1] == events + front;
      assert (events + more)[|events + more| - 1] == more[|more| - 1];
      StalledIff(Run(events + front), more[|more| - 1], folder);
    }
  }

  /**
   * Once a "not modified" answer has come the folder's list stops for good:
   * whatever follows, it is never received and never on the network again.
   */
  lemma NotModifiedStopsForGood(events: seq<Event>, event: Event, more: seq<Event>, folder: Folder)
    requires IsNotModified(event, folder, Run(events))
    ensures var s := Run(events + [event] + more);
      && folder in s.states && !s.states[folder].listReceived
      && forall id :: id in s.lists ==> s.lists[id] != folder
  {
    StalledIff(Run(events), event, folder);
    assert (events + [event])[..|events|] == events;
    assert Run(events + [event]) == Step(Run(events), event);
    StalledStays(events + [event], more, folder);
    EveryRunKeeps(events + [event] + more);
    hide Run, Step, PinnedMatch, PostedOnce, SentWell;
  }

  /** The main list is asked for and answered by "not modified". */
  const STALLING := [DoRequest(MAIN), DoAnswerList(1, DialogsNotModified, Needs(false, 1, false))]

  /** Its state then waits for a request that is not on the network any more. */
  lemma NotModifiedStallsList()
    ensures var s := Run(STALLING);
      MAIN in s.states && s.states[MAIN].requestId == 1 && !s.states[MAIN].listReceived && s.lists == map[]
  {
    var e := STALLING;
    assert e[..2] == e && e[..2][..1] == e[..1] && e[..1][..0] == [];
    var s := Step(INITIAL, e[0]);
    assert Run(e[..1]) == s && Run(e) == Step(s, e[1]);
    hide Run;
    assert s.lists == map[1 := MAIN] && s.states[MAIN].requestId == 1 && !s.states[MAIN].listReceived;
  }

  // ---- updateDialogsOffset: the offset for the next slice ----

  datatype Dialog = Dialog(peer: int, topMessage: int)

  datatype Message = Message(id: int, peer: int, date: int)

  predicate Listed(d: Dialog) {
    d.peer != 0 && d.topMessage != 0
  }

  predicate Matches(m: Message, d: Dialog) {
    m.id == d.topMessage && m.peer == d.peer
  }

  /** The date of the last message listed for a dialog, or 0. */
  function DateFor(d: Dialog, messages: seq<Message>): int
    decreases |messages|
  {
    if messages == [] then 0
    else if Matches(messages[|messages| - 1], d) then messages[|messages| - 1].date
    else DateFor(d, messages[..|messages| - 1])
  }

  /** A dialog whose date is known: its last listed message has one. */
  predicate Dated(d: Dialog, messages: seq<Message>) {
    Listed(d) && DateFor(d, messages) != 0
  }

  /** The last message listed for a dialog, which has this date. */
  ghost predicate IsLastFor(d: Dialog, messages: seq<Message>, i: nat, date: int) {
    && i < |messages| && Matches(messages[i], d) && messages[i].date == date
    && forall j :: i < j < |messages| ==> !Matches(messages[j], d)
  }

  lemma {:induction false} DateForIsLast(d: Dialog, messages: seq<Message>)
    ensures DateFor(d, messages) != 0 ==> exists i: nat :: IsLastFor(d, messages, i, DateFor(d, messages))
    ensures (forall i :: 0 <= i < |messages| ==> !Matches(messages[i], d)) ==> DateFor(d, messages) == 0
    decreases |messages|
  {
    if messages != [] {
      var n := |messages| - 1;
      DateForIsLast(d, messages[..n]);
      if Matches(messages[n], d) {
        assert IsLastFor(d, messages, n, messages[n].date);
      } else {
        if i: nat :| IsLastFor(d, messages[..n], i, DateFor(d, messages)) {
          LastForStays(d, messages, i, DateFor(d, messages));
        }
        hide IsLastFor;
        assert forall i :: 0 <= i < n ==> messages[..n][i] == messages[i];
      }
    }
  }

  lemma LastForStays(d: Dialog, messages: seq<Message>, i: nat, date: int)
    requires messages != [] && IsLastFor(d, messages[..|messages| - 1], i, date)
    requires !Matches(messages[|messages| - 1], d)
    ensures IsLastFor(d, messages, i, date)
  {
    var n := |messages| - 1;
    assert forall j :: 0 <= j < n ==> messages[..n][j] == messages[j];
  }

  /** The inner loop: the messages from the last one back, up to the first match. */
  method FindDate(d: Dialog, messages: seq<Message>) returns (date: int)
    ensures date == DateFor(d, messages)
  {
    var i := |messages|;
    assert messages[..i] == messages;
    while i > 0
      invariant 0 <= i <= |messages|
      invariant DateFor(d, messages) == DateFor(d, messages[..i])
    {
      i := i - 1;
      assert messages[..i + 1][..i] == messages[..i];
      if Matches(messages[i], d) {
        return messages[i].date;
      }
    }
    return 0;
  }

  /** The date of the last dated dialog, or 0. */
  function OffsetDate(dialogs: seq<Dialog>, messages: seq<Message>): int
    decreases |dialogs|
  {
    if dialogs == [] then 0
    else if Dated(dialogs[|dialogs| - 1], messages) then DateFor(dialogs[|dialogs| - 1], messages)
    else OffsetDate(dialogs[..|dialogs| - 1], messages)
  }

  /** The last dialog with a peer and a top message. */
  function LastListed(dialogs: seq<Dialog>): Dialog
    decreases |dialogs|
  {
    if dialogs == [] then Dialog(0, 0)
    else if Listed(dialogs[|dialogs| - 1]) then dialogs[|dialogs| - 1]
    else LastListed(dialogs[..|dialogs| - 1])
  }

  /** There is an offset date exactly if some dialog is dated, and it is that of the last such dialog. */
  lemma {:induction false} OffsetDateIsLast(dialogs: seq<Dialog>, messages: seq<Message>)
    ensures OffsetDate(dialogs, messages) != 0 <==> exists i :: 0 <= i < |dialogs| && Dated(dialogs[i], messages)
    ensures OffsetDate(dialogs, messages) != 0 ==>
      exists i :: 0 <= i < |dialogs| && Dated(dialogs[i], messages)
        && OffsetDate(dialogs, messages) == DateFor(dialogs[i], messages)
        && forall j :: i < j < |dialogs| ==> !Dated(dialogs[j], messages)
    decreases |dialogs|
  {
    if dialogs != [] {
      var n := |dialogs| - 1;
      OffsetDateIsLast(dialogs[..n], messages);
      if !Dated(dialogs[n], messages) && OffsetDate(dialogs, messages) != 0 {
        var i :| 0 <= i < n && Dated(dialogs[..n][i], messages)
          && OffsetDate(dialogs[..n], messages) == DateFor(dialogs[..n][i], messages)
          && forall j :: i < j < n ==> !Dated(dialogs[..n][j], messages);
        assert Dated(dialogs[i], messages);
        assert forall j :: i < j < |dialogs| ==> j == n || !Dated(dialogs[..n][j], messages);
      } else if !Dated(dialogs[n], messages) {
        assert forall i :: 0 <= i < n ==> !Dated(dialogs[..n][i], messages);
      }
    }
  }

  /** The peer and the id are those of the last listed dialog, which may come after the dated one. */
  lemma {:induction false} LastListedIsLast(dialogs: seq<Dialog>)
    ensures Listed(LastListed(dialogs)) <==> exists i :: 0 <= i < |dialogs| && Listed(dialogs[i])
    ensures Listed(LastListed(dialogs)) ==>
      exists i :: 0 <= i < |dialogs| && LastListed(dialogs) == dialogs[i]
        && forall j :: i < j < |dialogs| ==> !Listed(dialogs[j])
    decreases |dialogs|
  {
    if dialogs != [] {
      var n := |dialogs| - 1;
      LastListedIsLast(dialogs[..n]);
      if !Listed(dialogs[n]) && Listed(LastListed(dialogs)) {
        var i :| 0 <= i < n && LastListed(dialogs[..n]) == dialogs[..n][i]
          && forall j :: i < j < n ==> !Listed(dialogs[..n][j]);
        assert LastListed(dialogs) == dialogs[i];
        assert forall j :: i < j < |dialogs| ==> j == n || !Listed(dialogs[..n][j]);
      } else if !Listed(dialogs[n]) {
        assert forall i :: 0 <= i < n ==> !Listed(dialogs[..n][i]);
      }
    }
  }

  lemma {:induction false} DatedIsListed(dialogs: seq<Dialog>, messages: seq<Message>)
    requires OffsetDate(dialogs, messages) != 0
    ensures Listed(LastListed(dialogs))
    decreases |dialogs|
  {
    if !Dated(dialogs[|dialogs| - 1], messages) {
      DatedIsListed(dialogs[..|dialogs| - 1], messages);
    }
  }

  /** What updateDialogsOffset finds in a slice. */
  function SliceOf(dialogs: seq<Dialog>, messages: seq<Message>): Result {
    Slice(OffsetDate(dialogs, messages), LastListed(dialogs).topMessage, LastListed(dialogs).peer)
  }

  /** The outer loop, from the last dialog back to the first dated one. */
  method ScanOffset(dialogs: seq<Dialog>, messages: seq<Message>) returns (lastDate: int, lastPeer: int, lastMsgId: int)
    ensures lastDate == OffsetDate(dialogs, messages)
    ensures lastDate != 0 ==> lastPeer == LastListed(dialogs).peer && lastMsgId == LastListed(dialogs).topMessage
  {
    lastDate, lastPeer, lastMsgId := 0, 0, 0;
    var n := |dialogs|;
    assert dialogs[..n] == dialogs;
    while n > 0
      invariant 0 <= n <= |dialogs| && lastDate == 0
      invariant OffsetDate(dialogs, messages) == OffsetDate(dialogs[..n], messages)
      invariant lastPeer == 0 <==> lastMsgId == 0
      invariant if lastPeer == 0 then LastListed(dialogs) == LastListed(dialogs[..n])
                else LastListed(dialogs) == Dialog(lastPeer, lastMsgId)
    {
      n := n - 1;
      assert dialogs[..n + 1][..n] == dialogs[..n];
      var dialog := dialogs[n];
      if dialog.peer == 0 || dialog.topMessage == 0 {
        continue;
      }
      if lastPeer == 0 {
        lastPeer := dialog.peer;
      }
      if lastMsgId == 0 {
        lastMsgId := dialog.topMessage;
      }
      var date := FindDate(dialog, messages);
      if date != 0 {
        lastDate := date;
        break;
      }
    }
  }

  // ---- Every page goes on where the one before it ended ----

  /** What a folder has been answered since its load state began: nothing yet, or this slice last. */
  datatype Answered = Nothing | LastSlice(dialogs: seq<Dialog>, messages: seq<Message>)

  predicate IsSlice(s: State, event: Event, folder: Folder) {
    event.DoAnswerList? && event.answer.DialogsSlice? && event.id in s.lists && s.lists[event.id] == folder
  }

  function AnsweredSoFar(events: seq<Event>, folder: Folder): Answered
    decreases |events|
  {
    if events == [] then Nothing
    else
      var before, last := events[..|events| - 1], events[|events| - 1];
      if folder !in Run(before).states || folder !in Run(events).states then Nothing
      else if IsSlice(Run(before), last, folder) then LastSlice(last.answer.dialogs, last.answer.messages)
      else AnsweredSoFar(before, folder)
  }

  /** A dialog with a peer and a top message, for which the last message listed has this date. */
  ghost predicate HasDate(d: Dialog, messages: seq<Message>, date: int) {
    && d.peer != 0 && d.topMessage != 0 && date != 0
    && exists m ::
      && 0 <= m < |messages| && messages[m] == Message(d.topMessage, d.peer, date)
      && forall n :: m < n < |messages| ==> messages[n].id != d.topMessage || messages[n].peer != d.peer
  }

  lemma HasDateIs(d: Dialog, messages: seq<Message>, date: int)
    ensures HasDate(d, messages, date) <==> Dated(d, messages) && DateFor(d, messages) == date
  {
    DateForIsLast(d, messages);
    if HasDate(d, messages, date) {
      var m :| 0 <= m < |messages| && messages[m] == Message(d.topMessage, d.peer, date)
        && forall n :: m < n < |messages| ==> messages[n].id != d.topMessage || messages[n].peer != d.peer;
      DateForLast(d, messages, m);
    }
    hide DateFor;
  }

  lemma {:induction false} DateForLast(d: Dialog, messages: seq<Message>, m: nat)
    requires m < |messages| && Matches(messages[m], d)
    requires forall n :: m < n < |messages| ==> !Matches(messages[n], d)
    ensures DateFor(d, messages) == messages[m].date
    decreases |messages|
  {
    if m < |messages| - 1 {
      DateForLast(d, messages[..|messages| - 1], m);
    }
  }

  /** From the very start, or from the date of the last dated dialog and the id and peer of the last listed one. */
  ghost predicate GoesOnFrom(date: int, id: int, peer: int, answered: Answered) {
    match answered
    case Nothing => date == id == peer == 0
    case LastSlice(dialogs, messages) =>
      && date != 0 && peer != 0 && id != 0
      && (exists i ::
           && 0 <= i < |dialogs| && HasDate(dialogs[i], messages, date)
           && forall j :: i < j < |dialogs| ==> forall other :: !HasDate(dialogs[j], messages, other))
      && (exists i ::
           && 0 <= i < |dialogs| && dialogs[i] == Dialog(peer, id)
           && forall j :: i < j < |dialogs| ==> dialogs[j].peer == 0 || dialogs[j].topMessage == 0)
  }

  predicate SameOffset(a: LoadState, b: LoadState) {
    a.offsetDate == b.offsetDate && a.offsetId == b.offsetId && a.offsetPeer == b.offsetPeer
    && a.listReceived == b.listReceived
  }

  /** The request carries the offset of its folder, whose list has not been received. */
  ghost predicate CarriesOffset(r: ListRequest, states: States) {
    && r.folder in states && !states[r.folder].listReceived
    && r.offsetDate == states[r.folder].offsetDate && r.offsetId == states[r.folder].offsetId
    && r.offsetPeer == states[r.folder].offsetPeer
    && r.limit == if r.offsetDate == 0 then 20 else 500
  }

  /** Requests may have gone out and load states begun; each offset is as it was. */
  ghost predicate OnlyAsks(a: State, b: State) {
    && a.states.Keys <= b.states.Keys
    && (forall f :: f in b.states ==> SameOffset(b.states[f], if f in a.states then a.states[f] else FRESH))
    && |a.sent| <= |b.sent| && b.sent[..|a.sent|] == a.sent
    && forall k :: |a.sent| <= k < |b.sent| ==> CarriesOffset(b.sent[k], b.states)
  }

  lemma OnlyAsksOn(a: State, b: State, c: State)
    requires OnlyAsks(a, b) && OnlyAsks(b, c)
    ensures OnlyAsks(a, c)
  {
    forall k | |a.sent| <= k < |c.sent| ensures CarriesOffset(c.sent[k], c.states) {
      if k < |b.sent| {
        assert c.sent[k] == c.sent[..|b.sent|][k];
      }
    }
    assert c.sent[..|a.sent|] == c.sent[..|b.sent|][..|a.sent|];
  }

  lemma RequestPinnedOnlyAsks(s: State, folder: Folder)
    ensures OnlyAsks(s, RequestPinned(s, folder)) && OnlyAsks(s, RefreshBlocked(s))
  {
  }

  lemma SendListOnlyAsks(s: State, folder: Folder)
    requires folder in s.states && !s.states[folder].listReceived
    ensures OnlyAsks(s, SendList(s, folder))
  {
  }

  lemma IdleIsUnreceived(s: State, folder: Folder)
    requires Inv(s) && folder in s.states && s.states[folder].requestId == 0
    ensures !s.states[folder].listReceived
  {
    hide ListsMatch, PinnedMatch, PostedOnce, SentWell;
    assert Sound(s.states[folder], folder in s.stalled);
  }

  lemma RequestMoreOnlyAsks(s: State, folder: Folder)
    requires Inv(s)
    ensures OnlyAsks(s, RequestMore(s, folder))
  {
    hide Inv, OnlyAsks, SendList, RequestPinned, RefreshBlocked;
    if folder in s.states && s.states[folder].requestId == 0 && !s.blocked {
      IdleIsUnreceived(s, folder);
      var s1 := SendList(s, folder);
      var s2 := RequestPinned(s1, folder);
      SendListOnlyAsks(s, folder);
      RequestPinnedOnlyAsks(s1, folder);
      RequestPinnedOnlyAsks(s2, folder);
      OnlyAsksOn(s, s1, s2);
      OnlyAsksOn(s, s2, RefreshBlocked(s2));
    } else {
      NothingOnlyAsks(s);
    }
  }

  lemma NothingOnlyAsks(s: State)
    ensures OnlyAsks(s, s)
  {
  }

  lemma StartedOnlyAsks(s: State, folder: Folder)
    requires folder !in s.states
    ensures OnlyAsks(s, Started(s, folder))
  {
  }

  lemma RequestDialogsOnlyAsks(s: State, folder: Folder)
    requires Inv(s)
    ensures OnlyAsks(s, RequestedDialogs(s, folder))
  {
    hide Inv, OnlyAsks, RequestMore, Started;
    if folder != MAIN && folder !in s.states {
      StartedKeeps(s, folder);
      StartedOnlyAsks(s, folder);
      RequestMoreOnlyAsks(Started(s, folder), folder);
      OnlyAsksOn(s, Started(s, folder), RequestMore(Started(s, folder), folder));
    } else {
      RequestMoreOnlyAsks(s, folder);
    }
  }

  lemma RequestMoreIfNeededOnlyAsks(s: State, needs: Needs)
    requires Inv(s)
    ensures OnlyAsks(s, RequestMoreIfNeeded(s, needs))
  {
    hide Inv, OnlyAsks, RequestMore, RequestedDialogs;
    RequestDialogsOnlyAsks(s, MAIN);
    RequestMoreOnlyAsks(s, needs.archive);
    NothingOnlyAsks(s);
  }

  predicate SomeDated(answer: Answer)
    requires answer.DialogsSlice?
  {
    exists i :: 0 <= i < |answer.dialogs| && Dated(answer.dialogs[i], answer.messages)
  }

  /** What is found in a slice with a dated dialog is where the next page goes on. */
  lemma SliceGoesOnFrom(dialogs: seq<Dialog>, messages: seq<Message>)
    requires OffsetDate(dialogs, messages) != 0
    ensures GoesOnFrom(OffsetDate(dialogs, messages), LastListed(dialogs).topMessage, LastListed(dialogs).peer,
      LastSlice(dialogs, messages))
  {
    OffsetDateIsLast(dialogs, messages);
    LastListedIsLast(dialogs);
    DatedIsListed(dialogs, messages);
    hide OffsetDate, LastListed, DateFor, HasDate;
    forall i, date | 0 <= i < |dialogs|
      ensures HasDate(dialogs[i], messages, date)
        <==> Dated(dialogs[i], messages) && DateFor(dialogs[i], messages) == date
    {
      HasDateIs(dialogs[i], messages, date);
    }
  }

  /** The folder's state after an answered list, before anything is asked for again. */
  lemma AppliedMovesOffset(s: State, id: nat, answer: Answer)
    requires Inv(s) && id in s.lists
    ensures var folder, s' := s.lists[id], Applied(Received(s, id), s.lists[id], ResultOf(answer));
      && s'.sent == s.sent && s'.states.Keys <= s.states.Keys && folder in s.states
      && (forall f :: f in s'.states && f != folder ==> s'.states[f] == s.states[f])
      && (answer.DialogsSlice? && SomeDated(answer) ==>
           && folder in s'.states && !s'.states[folder].listReceived && s'.states[folder].requestId == 0
           && GoesOnFrom(s'.states[folder].offsetDate, s'.states[folder].offsetId, s'.states[folder].offsetPeer,
                LastSlice(answer.dialogs, answer.messages)))
      && (answer.DialogsSlice? && !SomeDated(answer) ==>
           folder in s'.states ==> s'.states[folder].listReceived)
      && (answer.AllDialogs? && folder in s'.states ==> s'.states[folder].listReceived)
      && (answer.DialogsNotModified? ==> folder in s'.states && s'.states[folder] == s.states[folder])
  {
    ListedStateWaits(s, id);
    hide Inv, OffsetDate, LastListed, DateFor;
    if answer.DialogsSlice? {
      OffsetDateIsLast(answer.dialogs, answer.messages);
      LastListedIsLast(answer.dialogs);
      if OffsetDate(answer.dialogs, answer.messages) != 0 {
        DatedIsListed(answer.dialogs, answer.messages);
        SliceGoesOnFrom(answer.dialogs, answer.messages);
      }
    }
    hide Dated, GoesOnFrom;
  }

  /** What one event makes of the offsets, and that the requests that it sends carry them. */
  ghost predicate MovesOffsets(s: State, event: Event, s': State) {
    && |s.sent| <= |s'.sent| && s'.sent[..|s.sent|] == s.sent
    && (forall k :: |s.sent| <= k < |s'.sent| ==> CarriesOffset(s'.sent[k], s'.states))
    && forall f :: f in s'.states && !s'.states[f].listReceived ==>
         var l := s'.states[f];
         if f in s.states && IsSlice(s, event, f) then
           GoesOnFrom(l.offsetDate, l.offsetId, l.offsetPeer, LastSlice(event.answer.dialogs, event.answer.messages))
         else
           SameOffset(l, if f in s.states then s.states[f] else FRESH)
  }

  lemma AskingMovesNone(s: State, event: Event, s': State)
    requires OnlyAsks(s, s') && forall f :: !IsSlice(s, event, f)
    ensures MovesOffsets(s, event, s')
  {
  }

  lemma QuietMovesNone(s: State, event: Event, s': State)
    requires s'.sent == s.sent && forall f :: !IsSlice(s, event, f)
    requires forall f :: f in s'.states ==> f in s.states && SameOffset(s'.states[f], s.states[f])
    ensures MovesOffsets(s, event, s')
  {
  }

  lemma AnswerMovesOffsets(s: State, id: nat, answer: Answer, needs: Needs)
    requires Inv(s) && id in s.lists
    ensures MovesOffsets(s, DoAnswerList(id, answer, needs), AnswerList(s, id, ResultOf(answer), needs))
  {
    hide CoreInv, BlockedIsSound, Applied, RequestMoreIfNeeded, RefreshBlocked, GoesOnFrom, Received, Dated;
    var folder := s.lists[id];
    var s1 := Applied(Received(s, id), folder, ResultOf(answer));
    var refresh := folder == MAIN && (MAIN !in s1.states || !s1.states[MAIN].listReceived);
    var s2 := if refresh then RefreshBlocked(s1) else s1;
    AppliedKeeps(s, id, ResultOf(answer));
    AppliedMovesOffset(s, id, answer);
    RefreshKeeps(s1);
    RequestPinnedOnlyAsks(s1, folder);
    NothingOnlyAsks(s1);
    RequestMoreIfNeededOnlyAsks(s2, needs);
    OnlyAsksOn(s1, s2, RequestMoreIfNeeded(s2, needs));
    RefreshKeepsStates(s1);
    NeededBeginsNone(s2, needs);
    hide ResultOf, CarriesOffset;
  }

  lemma StepMovesOffsets(s: State, event: Event)
    requires Inv(s)
    ensures MovesOffsets(s, event, Step(s, event))
  {
    hide Inv, MovesOffsets, OnlyAsks, RequestedDialogs, RequestPinned, RequestMoreIfNeeded, SetTill, AnswerList;
    match event
    case DoRequest(folder) => RequestDialogsOnlyAsks(s, folder); AskingMovesNone(s, event, Step(s, event));
    case DoRequestPinned(folder) => RequestPinnedOnlyAsks(s, folder); AskingMovesNone(s, event, Step(s, event));
    case DoRequestIfNeeded(needs) => RequestMoreIfNeededOnlyAsks(s, needs); AskingMovesNone(s, event, Step(s, event));
    case DoSetTill(till) => SetTillOnlyAsks(s, till); AskingMovesNone(s, event, Step(s, event));
    case DoRequestBlocked(slice, now) =>
      if MAIN in s.states {
        var date := s.states[MAIN].offsetDate;
        var s1 := SetTill(s, if date != 0 then date - slice else now - slice);
        SetTillKeeps(s, if date != 0 then date - slice else now - slice);
        SetTillOnlyAsks(s, if date != 0 then date - slice else now - slice);
        RequestDialogsOnlyAsks(s1, MAIN);
        OnlyAsksOn(s, s1, RequestedDialogs(s1, MAIN));
      } else {
        NothingOnlyAsks(s);
      }
      AskingMovesNone(s, event, Step(s, event));
    case DoAnswerList(id, answer, needs) =>
      if id in s.lists { AnswerMovesOffsets(s, id, answer, needs); } else { QuietMovesNone(s, event, s); }
    case DoFailList(id) => QuietMovesNone(s, event, Step(s, event));
    case DoAnswerPinned(id) => QuietMovesNone(s, event, Step(s, event));
  }

  lemma SetTillOnlyAsks(s: State, till: int)
    ensures OnlyAsks(s, SetTill(s, till))
  {
  }

  ghost predicate OffsetsFollow(events: seq<Event>) {
    var s := Run(events);
    forall f :: f in s.states && !s.states[f].listReceived ==>
      GoesOnFrom(s.states[f].offsetDate, s.states[f].offsetId, s.states[f].offsetPeer, AnsweredSoFar(events, f))
  }

  lemma RunGoesOn(events: seq<Event>, event: Event)
    ensures Run(events + [event]) == Step(Run(events), event)
    ensures forall f ::
      AnsweredSoFar(events + [event], f) ==
        if f !in Run(events).states || f !in Step(Run(events), event).states then Nothing
        else if IsSlice(Run(events), event, f) then LastSlice(event.answer.dialogs, event.answer.messages)
        else AnsweredSoFar(events, f)
  {
    hide Step;
    assert (events + [event])[..|events|] == events;
  }

  lemma OffsetsFollowOn(events: seq<Event>, event: Event)
    requires OffsetsFollow(events) && MovesOffsets(Run(events), event, Step(Run(events), event))
    ensures OffsetsFollow(events + [event])
  {
    hide Run, Step, GoesOnFrom, CarriesOffset, AnsweredSoFar;
    RunGoesOn(events, event);
    NothingFromStart();
  }

  lemma NothingFromStart()
    ensures GoesOnFrom(0, 0, 0, Nothing)
  {
  }

  lemma {:induction false} EveryOffsetFollows(events: seq<Event>)
    ensures OffsetsFollow(events)
    decreases |events|
  {
    if events == [] {
      NothingFromStart();
    } else {
      var before, last := events[..|events| - 1], events[|events| - 1];
      EveryOffsetFollows(before);
      EveryRunKeeps(before);
      hide *;
      StepMovesOffsets(Run(before), last);
      assert before + [last] == events;
      OffsetsFollowOn(before, last);
    }
  }

  /**
   * In every run each list request goes on from the last slice that its folder was answered,
   * from the date of the last dated dialog in it and the id and peer of the last listed one;
   * the first of a load state starts from nothing, and asks for fewer.
   */
  lemma RequestsGoOn(events: seq<Event>, k: nat)
    requires events != [] && |Run(events[..|events| - 1]).sent| <= k < |Run(events).sent|
    ensures var r := Run(events).sent[k];
      && GoesOnFrom(r.offsetDate, r.offsetId, r.offsetPeer, AnsweredSoFar(events, r.folder))
      && r.limit == if AnsweredSoFar(events, r.folder) == Nothing then 20 else 500
  {
    EveryOffsetFollows(events);
    EveryRunKeeps(events[..|events| - 1]);
    StepMovesOffsets(Run(events[..|events| - 1]), events[|events| - 1]);
    assert Run(events) == Step(Run(events[..|events| - 1]), events[|events| - 1]);
    hide Run, Step, AnsweredSoFar;
  }

  /**
   * An answer ends the list of its folder if and only if it has all dialogs, or a slice in
   * which no dialog is dated.
   */
  lemma AnswerEndsListIff(events: seq<Event>, id: nat, answer: Answer, needs: Needs)
    requires id in Run(events).lists
    ensures var s := Run(events);
      var folder, s' := s.lists[id], Step(s, DoAnswerList(id, answer, needs));
      (folder in s'.states && !s'.states[folder].listReceived)
      <==> answer.DialogsNotModified? || (answer.DialogsSlice? && SomeDated(answer))
  {
    EveryRunKeeps(events);
    var s := Run(events);
    hide Run, Inv, Applied, Received, ResultOf, SomeDated, AnswerList, GoesOnFrom;
    ListedStateWaits(s, id);
    AppliedMovesOffset(s, id, answer);
    AskingKeepsLists(s, id, answer, needs);
  }

  /** Asking for more after an answer neither begins nor ends a list. */
  lemma AskingKeepsLists(s: State, id: nat, answer: Answer, needs: Needs)
    requires Inv(s) && id in s.lists
    ensures var s1 := Applied(Received(s, id), s.lists[id], ResultOf(answer));
      var s' := AnswerList(s, id, ResultOf(answer), needs);
      && s'.states.Keys == s1.states.Keys
      && forall f :: f in s1.states ==> s'.states[f].listReceived == s1.states[f].listReceived
  {
    hide Inv, Applied, RequestMoreIfNeeded, RefreshBlocked, Received, ResultOf, CarriesOffset;
    var s1 := Applied(Received(s, id), s.lists[id], ResultOf(answer));
    AppliedKeeps(s, id, ResultOf(answer));
    RefreshKeeps(s1) by { InvIsCore(s1); }
    RefreshKeepsStates(s1);
    RequestMoreIfNeededOnlyAsks(s1, needs);
    RequestMoreIfNeededOnlyAsks(RefreshBlocked(s1), needs);
    NeededBeginsNone(s1, needs);
    NeededBeginsNone(RefreshBlocked(s1), needs);
  }

  lemma InvIsCore(s: State)
    ensures Inv(s) ==> CoreInv(s)
  {
    hide CoreInv;
  }

  lemma RefreshKeepsStates(s: State)
    ensures RefreshBlocked(s).states == s.states
  {
  }

  lemma NeededBeginsNone(s: State, needs: Needs)
    ensures RequestMoreIfNeeded(s, needs).states.Keys == s.states.Keys
  {
    RequestMoreBeginsNone(s, MAIN);
    RequestMoreBeginsNone(s, needs.archive);
    hide RequestMore;
  }

  lemma RequestMoreBeginsNone(s: State, folder: Folder)
    ensures RequestMore(s, folder).states.Keys == s.states.Keys
  {
    if folder in s.states && s.states[folder].requestId == 0 && !s.blocked {
      PinnedBeginsNone(SendList(s, folder), folder);
      assert SendList(s, folder).states.Keys == s.states.Keys;
    }
    hide RequestPinned, SendList;
  }

  lemma PinnedBeginsNone(s: State, folder: Folder)
    ensures RequestPinned(s, folder).states.Keys == s.states.Keys
  {
    if folder in s.states {
      assert s.states[folder := s.states[folder].(pinnedRequestId := s.nextId)].Keys == s.states.Keys;
    }
  }

  // ---- What is asked for ----

  /** One list request more, which is on the network. */
  ghost predicate Asks(s: State, s': State, folder: Folder) {
    && |s'.sent| == |s.sent| + 1 && s'.sent[|s.sent|].folder == folder
    && exists id: nat :: id !in s.lists && s'.lists == s.lists[id := folder]
  }

  /** The folder waits for nothing and the date does not block; a folder other than the main list may be new. */
  predicate MayAsk(s: State, folder: Folder) {
    !s.blocked && if folder in s.states then s.states[folder].requestId == 0 else folder != MAIN
  }

  lemma RequestMoreAsks(s: State, folder: Folder)
    requires Inv(s)
    ensures var s' := RequestMore(s, folder);
      if folder in s.states && s.states[folder].requestId == 0 && !s.blocked then Asks(s, s', folder)
      else s' == s
  {
    hide CoreInv, BlockedIsSound;
    if folder in s.states {
      NextIdIsNew(s);
      PinnedKeepsLists(SendList(s, folder), folder);
    }
    hide RequestPinned;
  }

  lemma NextIdIsNew(s: State)
    requires Inv(s)
    ensures s.nextId !in s.lists
  {
    hide PinnedMatch, StatesAreSound, PostedOnce, SentWell;
  }

  lemma PinnedKeepsLists(s: State, folder: Folder)
    ensures RequestPinned(s, folder).lists == s.lists && RequestPinned(s, folder).sent == s.sent
  {
  }

  /** A list is asked for exactly if it may be. */
  lemma AskedIff(events: seq<Event>, folder: Folder)
    ensures var s, s' := Run(events), Step(Run(events), DoRequest(folder));
      if MayAsk(s, folder) then Asks(s, s', folder) else s'.sent == s.sent && s'.lists == s.lists
  {
    EveryRunKeeps(events);
    var s := Run(events);
    hide Run, Inv, RequestMore, Asks;
    RequestMoreAsks(s, folder);
    if folder !in s.states && folder != MAIN {
      StartedKeeps(s, folder);
      RequestMoreAsks(Started(s, folder), folder);
      AsksFromStarted(s, folder, RequestMore(Started(s, folder), folder));
    }
  }

  lemma AsksFromStarted(s: State, folder: Folder, s': State)
    ensures Asks(Started(s, folder), s', folder) ==> Asks(s, s', folder)
  {
  }

  /**
   * After a slice of the main list with a dated dialog the next one is on the network, as
   * long as no filter waits for exceptions, if and only if the date limit does not block:
   * what was loaded is later than the limit.
   */
  lemma NextPageIsAskedIff(events: seq<Event>, id: nat, dialogs: seq<Dialog>, messages: seq<Message>, needs: Needs)
    requires id in Run(events).lists && Run(events).lists[id] == MAIN && !needs.exceptions
    requires exists i :: 0 <= i < |dialogs| && Dated(dialogs[i], messages)
    ensures var s' := Step(Run(events), DoAnswerList(id, DialogsSlice(dialogs, messages), needs));
      && MAIN in s'.states
      && ((exists next :: next in s'.lists && s'.lists[next] == MAIN)
          <==> !(0 < s'.states[MAIN].offsetDate <= s'.till))
  {
    EveryRunKeeps(events);
    var s, answer := Run(events), DialogsSlice(dialogs, messages);
    hide Run, CoreInv, BlockedIsSound, Applied, GoesOnFrom, Received, Dated, RequestMore, Asks, RefreshBlocked;
    var s1 := Applied(Received(s, id), MAIN, ResultOf(answer));
    AppliedKeeps(s, id, ResultOf(answer));
    AppliedMovesOffset(s, id, answer);
    RefreshedIs(s1);
    RefreshKeeps(s1);
    var s2 := RefreshBlocked(s1);
    assert AnswerList(s, id, ResultOf(answer), needs) == RequestMore(s2, MAIN) by { hide ResultOf; }
    RequestMoreAsks(s2, MAIN);
    RequestMoreOnlyAsks(s2, MAIN);
    RequestMoreKeepsTill(s2, MAIN);
    hide ResultOf, CarriesOffset;
    if s2.blocked {
      IdleIsNotListed(s2, MAIN);
    } else {
      AskedIsListed(s2, RequestMore(s2, MAIN), MAIN);
    }
  }

  lemma RefreshedIs(s: State)
    ensures var s' := RefreshBlocked(s);
      && s'.states == s.states && s'.till == s.till && s'.lists == s.lists && s'.sent == s.sent
      && (MAIN in s.states && !s.states[MAIN].listReceived && s.states[MAIN].requestId == 0 ==>
           (s'.blocked <==> 0 < s.states[MAIN].offsetDate <= s.till))
  {
  }

  lemma RequestMoreKeepsTill(s: State, folder: Folder)
    ensures RequestMore(s, folder).till == s.till
  {
  }

  lemma IdleIsNotListed(s: State, folder: Folder)
    requires Inv(s) && folder in s.states && s.states[folder].requestId == 0
    ensures forall id :: id in s.lists ==> s.lists[id] != folder
  {
    hide PinnedMatch, StatesAreSound, PostedOnce, SentWell;
  }

  lemma AskedIsListed(s: State, s': State, folder: Folder)
    requires Asks(s, s', folder)
    ensures exists id :: id in s'.lists && s'.lists[id] == folder
  {
    var id: nat :| id !in s.lists && s'.lists == s.lists[id := folder];
    assert id in s'.lists && s'.lists[id] == folder;
  }

  /**
   * What is asked for after an answer, or when the filters change: the main list as long as it
   * is unfinished, and then the archive if it is needed; nothing while exceptions are loaded.
   */
  lemma NeededIsAsked(events: seq<Event>, needs: Needs)
    ensures var s := Run(events); var s' := Step(s, DoRequestIfNeeded(needs));
      if needs.exceptions then s' == s
      else if MAIN in s.states && !s.states[MAIN].listReceived then
        if MayAsk(s, MAIN) then Asks(s, s', MAIN) else s' == s
      else if needs.archiveNeeded && needs.archive in s.states && MayAsk(s, needs.archive) then
        Asks(s, s', needs.archive)
      else s' == s
  {
    EveryRunKeeps(events);
    var s := Run(events);
    hide Run, Inv, RequestMore, Asks;
    RequestMoreAsks(s, MAIN);
    RequestMoreAsks(s, needs.archive);
  }

  /** Pinned dialogs are asked for if their folder has a load state that neither has them nor waits for them. */
  lemma PinnedAskedIff(s: State, folder: Folder)
    ensures var s' := Step(s, DoRequestPinned(folder));
      if folder in s.states && !s.states[folder].pinnedReceived && s.states[folder].pinnedRequestId == 0 then
        && s'.pinned == s.pinned[s.nextId := folder] && s'.nextId > s.nextId
        && s'.states == s.states[folder := s.states[folder].(pinnedRequestId := s.nextId)]
      else s' == s
  {
  }

  /**
   * The date limit moves to a given time before what was loaded last, or before now, and what
   * is not blocked then goes on.
   */
  lemma LimitMoves(events: seq<Event>, slice: int, now: int)
    ensures var s := Run(events); var s' := Step(s, DoRequestBlocked(slice, now));
      if MAIN !in s.states then s' == s
      else
        var l := s.states[MAIN];
        var till := if l.offsetDate != 0 then l.offsetDate - slice else now - slice;
        var blocks := !l.listReceived && l.requestId == 0 && 0 < l.offsetDate <= till;
        && s'.till == till
        && (if l.requestId == 0 && !blocks then Asks(s, s', MAIN) else s'.sent == s.sent && s'.lists == s.lists)
  {
    EveryRunKeeps(events);
    var s := Run(events);
    if MAIN in s.states {
      var date := s.states[MAIN].offsetDate;
      var s1 := SetTill(s, if date != 0 then date - slice else now - slice);
      SetTillKeeps(s, if date != 0 then date - slice else now - slice);
      RefreshedIs(s.(till := s1.till));
      if s.states[MAIN].requestId == 0 { IdleIsUnreceived(s, MAIN); }
      hide Run, Inv, RequestMore, Asks, RefreshBlocked;
      RequestMoreAsks(s1, MAIN);
      RequestMoreKeepsTill(s1, MAIN);
      AsksFromSame(s, s1, RequestMore(s1, MAIN), MAIN);
    }
  }

  lemma AsksFromSame(s: State, s1: State, s': State, folder: Folder)
    requires s1.sent == s.sent && s1.lists == s.lists
    ensures Asks(s1, s', folder) ==> Asks(s, s', folder)
  {
  }

  /**
   * Pinned dialogs, whatever is answered, end a load state whose list was received, and have
   * come for any other.
   */
  lemma PinnedAnswerIs(events: seq<Event>, id: nat)
    requires id in Run(events).pinned
    ensures var s := Run(events); var folder, s' := s.pinned[id], Step(s, DoAnswerPinned(id));
      && folder in s.states && s'.pinned == s.pinned - {id} && s'.lists == s.lists
      && if s.states[folder].listReceived then
           s'.states == s.states - {folder} && s'.posted == s.posted + [folder]
         else
           && s'.states == s.states[folder := s.states[folder].(pinnedRequestId := 0, pinnedReceived := true)]
           && s'.posted == s.posted
  {
    hide Run, Inv;
    var s := Run(events);
    EveryRunKeeps(events);
    PinnedStateWaits(s, id);
    AnsweredPinnedIs(s, id);
    hide AnswerPinned;
  }

  lemma AnsweredPinnedIs(s: State, id: nat)
    requires id in s.pinned && s.pinned[id] in s.states
    ensures var folder, s' := s.pinned[id], AnswerPinned(s, id);
      && s'.pinned == s.pinned - {id} && s'.lists == s.lists
      && if s.states[folder].listReceived then
           s'.states == s.states - {folder} && s'.posted == s.posted + [folder]
         else
           && s'.states == s.states[folder := s.states[folder].(pinnedRequestId := 0, pinnedReceived := true)]
           && s'.posted == s.posted
  {
  }

  // ---- When the date limit blocks ----

  /** The main list is unfinished and idle, and what was loaded of it reaches the limit. */
  predicate ReachesLimit(s: State) {
    && MAIN in s.states && !s.states[MAIN].listReceived && s.states[MAIN].requestId == 0
    && 0 < s.states[MAIN].offsetDate <= s.till
  }

  predicate StillUnfinished(s: State) {
    MAIN in s.states && !s.states[MAIN].listReceived && s.till > 0
  }

  /** The flags say so, but that they need not drop together with the list. */
  ghost predicate FlagsAreRight(s: State) {
    (s.blocked <==> ReachesLimit(s)) && (StillUnfinished(s) ==> s.mayBlock)
  }

  lemma RefreshingIsRight(s: State)
    ensures FlagsAreRight(RefreshBlocked(s))
  {
  }

  lemma PinnedIsRight(s: State, folder: Folder)
    requires FlagsAreRight(s)
    ensures FlagsAreRight(RequestPinned(s, folder))
  {
  }

  lemma RequestMoreIsRight(s: State, folder: Folder)
    requires FlagsAreRight(s)
    ensures FlagsAreRight(RequestMore(s, folder))
  {
    if folder in s.states && s.states[folder].requestId == 0 && !s.blocked {
      var s1 := SendList(s, folder);
      if folder == MAIN {
        RefreshingIsRight(RequestPinned(s1, folder));
      } else {
        assert FlagsAreRight(s1);
        PinnedIsRight(s1, folder);
      }
    }
    hide RequestPinned, SendList, FlagsAreRight, RefreshBlocked;
  }

  lemma RequestDialogsIsRight(s: State, folder: Folder)
    requires FlagsAreRight(s)
    ensures FlagsAreRight(RequestedDialogs(s, folder))
  {
    hide RequestMore;
    RequestMoreIsRight(s, folder);
    if folder != MAIN && folder !in s.states {
      assert FlagsAreRight(Started(s, folder));
      RequestMoreIsRight(Started(s, folder), folder);
    }
  }

  lemma NeededIsRight(s: State, needs: Needs)
    requires FlagsAreRight(s)
    ensures FlagsAreRight(RequestMoreIfNeeded(s, needs))
  {
    RequestDialogsIsRight(s, MAIN);
    RequestMoreIsRight(s, needs.archive);
    hide RequestMore, RequestedDialogs, FlagsAreRight;
  }

  lemma AppliedIsRight(s: State, id: nat, result: Result)
    requires Inv(s) && id in s.lists && FlagsAreRight(s)
    ensures var s1 := Applied(Received(s, id), s.lists[id], result);
      s.lists[id] != MAIN || (MAIN in s1.states && s1.states[MAIN].listReceived) ==> FlagsAreRight(s1)
  {
    ListedStateWaits(s, id);
    hide Inv;
  }

  lemma StepIsRight(s: State, event: Event)
    requires Inv(s) && FlagsAreRight(s) && !event.DoFailList?
    ensures FlagsAreRight(Step(s, event))
  {
    hide FlagsAreRight, RequestMore, RequestedDialogs, RequestPinned, RequestMoreIfNeeded, RefreshBlocked, CoreInv;
    match event
    case DoRequest(folder) => RequestDialogsIsRight(s, folder);
    case DoRequestPinned(folder) => PinnedIsRight(s, folder);
    case DoRequestIfNeeded(needs) => NeededIsRight(s, needs);
    case DoSetTill(till) => RefreshingIsRight(s.(till := till));
    case DoRequestBlocked(slice, now) =>
      if MAIN in s.states {
        var till := if s.states[MAIN].offsetDate != 0 then s.states[MAIN].offsetDate - slice else now - slice;
        RefreshingIsRight(s.(till := till));
        RequestDialogsIsRight(RefreshBlocked(s.(till := till)), MAIN);
      }
    case DoAnswerList(id, answer, needs) =>
      if id in s.lists {
        hide Applied, Received, ResultOf;
        AppliedIsRight(s, id, ResultOf(answer));
        var s1 := Applied(Received(s, id), s.lists[id], ResultOf(answer));
        RefreshingIsRight(s1);
        NeededIsRight(RefreshBlocked(s1), needs);
        if FlagsAreRight(s1) { NeededIsRight(s1, needs); }
      }
    case DoAnswerPinned(id) => if id in s.pinned { AnswerPinnedIsRight(s, id); } hide AnswerPinned;
  }

  lemma AnswerPinnedIsRight(s: State, id: nat)
    requires Inv(s) && id in s.pinned && FlagsAreRight(s)
    ensures FlagsAreRight(AnswerPinned(s, id))
  {
    hide Inv;
  }

  ghost predicate NoListFails(events: seq<Event>) {
    forall i :: 0 <= i < |events| ==> !events[i].DoFailList?
  }

  /**
   * In every run in which no list request fails, the date limit blocks if and only if the
   * main list is unfinished and idle and what was loaded of it reaches the limit.
   */
  lemma {:induction false} BlockedIff(events: seq<Event>)
    requires NoListFails(events)
    ensures FlagsAreRight(Run(events))
    decreases |events|
  {
    hide Inv, Step, FlagsAreRight;
    if events == [] {
      assert FlagsAreRight(INITIAL) by { RefreshingIsRight(INITIAL); assert RefreshBlocked(INITIAL) == INITIAL; }
    } else {
      BlockedIff(events[..|events| - 1]);
      EveryRunKeeps(events[..|events| - 1]);
      StepIsRight(Run(events[..|events| - 1]), events[|events| - 1]);
    }
  }

  // ---- The pinned dialogs come along ----

  /** Once a list was asked for, its pinned dialogs are on the network or have come. */
  ghost predicate PinnedComeAlong(states: States) {
    forall f :: f in states && (states[f].requestId != 0 || states[f].listReceived) ==>
      states[f].pinnedReceived || states[f].pinnedRequestId != 0
  }

  lemma RequestMoreBringsPinned(s: State, folder: Folder)
    requires PinnedComeAlong(s.states)
    ensures PinnedComeAlong(RequestMore(s, folder).states)
  {
    if folder in s.states { RefreshKeepsStates(RequestPinned(SendList(s, folder), folder)); }
    hide RefreshBlocked;
  }

  lemma StepBringsPinned(s: State, event: Event)
    requires PinnedComeAlong(s.states) && Inv(s)
    ensures PinnedComeAlong(Step(s, event).states)
  {
    hide RequestMore, RequestMoreIfNeeded, RefreshBlocked, AnswerList, CoreInv;
    match event
    case DoRequest(folder) =>
      RequestMoreBringsPinned(s, folder);
      RequestMoreBringsPinned(Started(s, folder), folder);
    case DoRequestPinned(folder) =>
    case DoRequestIfNeeded(needs) => NeededBringsPinned(s, needs);
    case DoSetTill(till) => RefreshKeepsStates(s.(till := till));
    case DoRequestBlocked(slice, now) =>
      if MAIN in s.states {
        var date := s.states[MAIN].offsetDate;
        var s1 := SetTill(s, if date != 0 then date - slice else now - slice);
        RefreshKeepsStates(s.(till := s1.till));
        RefreshKeepsStates(s.(till := if date != 0 then date - slice else now - slice));
        RequestMoreBringsPinned(s1, MAIN);
      }
    case DoAnswerList(id, answer, needs) => if id in s.lists { AnswerBringsPinned(s, id, ResultOf(answer), needs); }
    case DoFailList(id) =>
    case DoAnswerPinned(id) =>
  }

  lemma AnswerBringsPinned(s: State, id: nat, result: Result, needs: Needs)
    requires PinnedComeAlong(s.states) && Inv(s) && id in s.lists
    ensures PinnedComeAlong(AnswerList(s, id, result, needs).states)
  {
    hide Inv, Applied, Received, RequestMoreIfNeeded, RefreshBlocked, PinnedComeAlong;
    var s1 := Applied(Received(s, id), s.lists[id], result);
    AppliedBringsPinned(s, id, result);
    RefreshKeepsStates(s1);
    NeededBringsPinned(s1, needs);
    NeededBringsPinned(RefreshBlocked(s1), needs);
  }

  lemma AppliedBringsPinned(s: State, id: nat, result: Result)
    requires PinnedComeAlong(s.states) && Inv(s) && id in s.lists
    ensures PinnedComeAlong(Applied(Received(s, id), s.lists[id], result).states)
  {
    hide Inv;
    ListedStateWaits(s, id);
    var f := s.lists[id];
    assert s.states[f].pinnedReceived || s.states[f].pinnedRequestId != 0;
  }

  lemma NeededBringsPinned(s: State, needs: Needs)
    requires PinnedComeAlong(s.states)
    ensures PinnedComeAlong(RequestMoreIfNeeded(s, needs).states)
  {
    hide RequestMore, PinnedComeAlong;
    RequestMoreBringsPinned(s, MAIN);
    RequestMoreBringsPinned(s, needs.archive);
  }

  lemma {:induction false} PinnedAlwaysComeAlong(events: seq<Event>)
    ensures PinnedComeAlong(Run(events).states)
    decreases |events|
  {
    hide Inv, Step;
    if events != [] {
      PinnedAlwaysComeAlong(events[..|events| - 1]);
      EveryRunKeeps(events[..|events| - 1]);
      StepBringsPinned(Run(events[..|events| - 1]), events[|events| - 1]);
    }
  }

  /**
   * In every run a folder whose list was received waits only for its pinned dialogs, which
   * are on the network; whatever their answer, its state then goes and that is posted.
   */
  lemma ReceivedListFinishes(events: seq<Event>, folder: Folder)
    requires var s := Run(events); folder in s.states && s.states[folder].listReceived
    ensures var s := Run(events); var id := s.states[folder].pinnedRequestId;
      && id in s.pinned && s.pinned[id] == folder
      && folder !in AnswerPinned(s, id).states && AnswerPinned(s, id).posted == s.posted + [folder]
  {
    PinnedAlwaysComeAlong(events);
    EveryRunKeeps(events);
    var s := Run(events);
    hide Run, ListsMatch, PostedOnce, SentWell;
    assert Sound(s.states[folder], folder in s.stalled);
  }

  // ---- The object that the source updates in place ----

  class ApiWrap {
    var loadStates: map<Folder, LoadState>
    var dialogsLoadTill: int
    var dialogsLoadBlockedByDate: bool
    var dialogsLoadMayBlockByDate: bool
    var nextRequestId: nat
    var listRequests: map<nat, Folder>
    var pinnedRequests: map<nat, Folder>
    var sent: seq<ListRequest>
    ghost var stalled: set<Folder>
    ghost var lifetimes: map<Folder, nat>
    var posted: seq<Folder>

    ghost function Abs(): State
      reads this
    {
      State(loadStates, dialogsLoadTill, dialogsLoadBlockedByDate, dialogsLoadMayBlockByDate, nextRequestId,
            listRequests, pinnedRequests, sent, stalled, lifetimes, posted)
    }

    constructor ()
      ensures Abs() == INITIAL && Inv(Abs())
    {
      loadStates, dialogsLoadTill := map[MAIN := FRESH], 0;
      dialogsLoadBlockedByDate, dialogsLoadMayBlockByDate := false, false;
      nextRequestId, listRequests, pinnedRequests := 1, map[], map[];
      sent, stalled, lifetimes, posted := [], {}, map[MAIN := 1], [];
    }

    method RefreshDialogsLoadBlocked()
      modifies this
      ensures Abs() == RefreshBlocked(old(Abs()))
    {
      if MAIN in loadStates {
        var state := loadStates[MAIN];
        dialogsLoadMayBlockByDate := !state.listReceived && dialogsLoadTill > 0;
        dialogsLoadBlockedByDate := !state.listReceived && state.requestId == 0 && dialogsLoadTill > 0
          && state.offsetDate > 0 && state.offsetDate <= dialogsLoadTill;
      } else {
        dialogsLoadMayBlockByDate, dialogsLoadBlockedByDate := false, false;
      }
    }

    method RequestPinnedDialogs(folder: Folder)
      modifies this
      ensures Abs() == RequestPinned(old(Abs()), folder)
    {
      if folder !in loadStates || loadStates[folder].pinnedReceived || loadStates[folder].pinnedRequestId != 0 {
        return;
      }
      loadStates := loadStates[folder := loadStates[folder].(pinnedRequestId := nextRequestId)];
      pinnedRequests := pinnedRequests[nextRequestId := folder];
      nextRequestId := nextRequestId + 1;
    }

    method RequestMoreDialogs(folder: Folder)
      modifies this
      ensures Abs() == RequestMore(old(Abs()), folder)
    {
      hide RefreshBlocked;
      if folder !in loadStates {
        return;
      } else if loadStates[folder].requestId != 0 {
        return;
      } else if dialogsLoadBlockedByDate {
        return;
      }
      var state := loadStates[folder];
      var loadCount := if state.offsetDate == 0 then FIRST_LOAD else PER_PAGE;
      sent := sent + [ListRequest(folder, dialogsLoadBlockedByDate, state.listReceived,
        state.offsetDate, state.offsetId, state.offsetPeer, loadCount)];
      loadStates := loadStates[folder := loadStates[folder].(requestId := nextRequestId)];
      listRequests := listRequests[nextRequestId := folder];
      nextRequestId := nextRequestId + 1;
      if !loadStates[folder].pinnedReceived {
        RequestPinnedDialogs(folder);
      }
      if folder == MAIN {
        RefreshDialogsLoadBlocked();
      }
    }

    method RequestDialogs(folder: Folder)
      modifies this
      ensures Abs() == RequestedDialogs(old(Abs()), folder)
    {
      hide RequestMore;
      if folder != MAIN && folder !in loadStates {
        loadStates := loadStates[folder := FRESH];
        lifetimes := lifetimes[folder := (if folder in lifetimes then lifetimes[folder] else 0) + 1];
      }
      RequestMoreDialogs(folder);
    }

    method RequestMoreDialogsIfNeeded(needs: Needs)
      modifies this
      ensures Abs() == RequestMoreIfNeeded(old(Abs()), needs)
    {
      hide RequestMore;
      if needs.exceptions {
        return;
      } else if MAIN in loadStates && !loadStates[MAIN].listReceived {
        if loadStates[MAIN].requestId != 0 {
          return;
        }
        RequestDialogs(MAIN);
      } else if needs.archiveNeeded {
        RequestMoreDialogs(needs.archive);
      }
    }

    method DialogsLoadFinish(folder: Folder)
      modifies this
      ensures Abs() == LoadFinish(old(Abs()), folder)
    {
      if folder !in loadStates || !loadStates[folder].listReceived || !loadStates[folder].pinnedReceived {
        return;
      }
      loadStates := loadStates - {folder};
      posted := posted + [folder];
    }

    method UpdateDialogsOffset(folder: Folder, dialogs: seq<Dialog>, messages: seq<Message>)
      modifies this
      ensures Abs() == UpdateOffset(old(Abs()), folder, SliceOf(dialogs, messages))
    {
      hide LoadFinish, OffsetDate, LastListed;
      var lastDate, lastPeer, lastMsgId := ScanOffset(dialogs, messages);
      if folder in loadStates {
        if lastDate != 0 {
          loadStates := loadStates[folder := loadStates[folder].(
            offsetDate := lastDate, offsetId := lastMsgId, offsetPeer := lastPeer, requestId := 0)];
        } else {
          loadStates := loadStates[folder := loadStates[folder].(listReceived := true)];
          DialogsLoadFinish(folder);
        }
      }
    }

    /** The done handler of a list request. */
    method ReceiveDialogs(id: nat, answer: Answer, needs: Needs)
      requires id in listRequests
      modifies this
      ensures Abs() == AnswerList(old(Abs()), id, ResultOf(answer), needs)
    {
      hide LoadFinish, RefreshBlocked, RequestMoreIfNeeded, UpdateOffset;
      var folder := listRequests[id];
      listRequests := listRequests - {id};
      match answer {
        case DialogsNotModified =>
          stalled := stalled + {folder};
        case AllDialogs =>
          if folder in loadStates {
            loadStates := loadStates[folder := loadStates[folder].(listReceived := true)];
            DialogsLoadFinish(folder);
          }
        case DialogsSlice(dialogs, messages) =>
          UpdateDialogsOffset(folder, dialogs, messages);
      }
      if folder == MAIN && (MAIN !in loadStates || !loadStates[MAIN].listReceived) {
        RefreshDialogsLoadBlocked();
      }
      RequestMoreDialogsIfNeeded(needs);
    }

    /** The fail handler of a list request, which dereferences the load state. */
    method DialogsFailed(id: nat)
      requires Inv(Abs()) && id in listRequests
      modifies this
      ensures old(listRequests[id] in loadStates) && Abs() == FailList(old(Abs()), id) && Inv(Abs())
    {
      hide Inv;
      FailListKeeps(Abs(), id);
      var folder := listRequests[id];
      listRequests := listRequests - {id};
      loadStates := loadStates[folder := loadStates[folder].(requestId := 0)];
    }

    /** The lambda `finalize` of requestPinnedDialogs. */
    method FinalizePinned(id: nat)
      requires id in pinnedRequests
      modifies this
      ensures Abs() == AnswerPinned(old(Abs()), id)
    {
      hide LoadFinish;
      var folder := pinnedRequests[id];
      pinnedRequests := pinnedRequests - {id};
      if folder in loadStates {
        loadStates := loadStates[folder := loadStates[folder].(pinnedRequestId := 0, pinnedReceived := true)];
        DialogsLoadFinish(folder);
      }
    }

    method RequestMoreBlockedByDateDialogs(slice: int, now: int)
      modifies this
      ensures Abs() == RequestMoreBlockedByDate(old(Abs()), slice, now)
    {
      hide RefreshBlocked;
      if MAIN !in loadStates {
        return;
      }
      var date := loadStates[MAIN].offsetDate;
      dialogsLoadTill := if date != 0 then date - slice else now - slice;
      RefreshDialogsLoadBlocked();
      RequestDialogs(MAIN);
    }
  }
}
